/** The roster moves that both preseason adjusters (the offseason script and
  * the preseason lambda) read from the MLB transactions feed, and the per-club
  * ledger of WAR gained and lost that both keep from those moves. */
module Transactions {
  import opened Wrappers
  import opened Sums
  import opened Folds
  import Sorting
  import CoreBenchmarks
  import Injury

  datatype Person = Person(id: int, fullName: string)

  /** One entry of the feed. `person` is `None` when the entry names no
    * player; a missing team object, or one without an id, is a `None` id. */
  datatype RawTxn = RawTxn(
    person: Option<Person>,
    typeCode: string,
    description: string,
    toId: Option<int>,
    fromId: Option<int>,
    typeDesc: Option<string>)

  /** A roster-changing move: a club that gains the player, one that loses the
    * player, or both for a trade. */
  datatype Move = Move(
    playerId: int,
    playerName: string,
    fromTeam: Option<string>,
    toTeam: Option<string>,
    kind: string,
    description: string)

  const TRADE: string := "TR"
  const GAIN_TYPES: set<string> := {"SFA", "CLW", "R5", "R5M"}
  const LOSS_TYPES: set<string> := {"DFA", "REL"}

  /** The id is present and belongs to a major-league club. */
  predicate Known(ids: map<int, string>, id: Option<int>)
  {
    id.Some? && id.value in ids
  }

  /** A free-agent signing to a minor-league deal. */
  predicate MinorLeagueSigning(t: RawTxn)
  {
    t.typeCode == "SFA" && Injury.Contains(CoreBenchmarks.Lower(t.description), "minor league")
  }

  /** The move one feed entry makes, if any: a trade needs both clubs known;
    * a signing, claim or Rule 5 pick needs a known receiving club and is
    * dropped when it is a minor-league signing; a designation or release
    * charges the loss to the club the feed names as `toTeam`, which is the
    * club the player leaves. Every other type makes no move. */
  function Classify(ids: map<int, string>, t: RawTxn): (m: Option<Move>)
    ensures m.Some? ==> t.person.Some? && m.value.playerId == t.person.value.id
    ensures m.Some? ==> m.value.toTeam.Some? || m.value.fromTeam.Some?
    ensures m.Some? && m.value.toTeam.Some? ==> m.value.toTeam.value in ids.Values
    ensures m.Some? && m.value.fromTeam.Some? ==> m.value.fromTeam.value in ids.Values
  {
    if t.person.None? then None
    else
      var p := t.person.value;
      var kind := t.typeDesc.GetOr(t.typeCode);
      if t.typeCode == TRADE then
        if Known(ids, t.fromId) && Known(ids, t.toId) then
          Some(Move(p.id, p.fullName, Some(ids[t.fromId.value]), Some(ids[t.toId.value]), "trade", t.description))
        else None
      else if t.typeCode in GAIN_TYPES then
        if !Known(ids, t.toId) || MinorLeagueSigning(t) then None
        else Some(Move(p.id, p.fullName, None, Some(ids[t.toId.value]), kind, t.description))
      else if t.typeCode in LOSS_TYPES then
        if !Known(ids, t.toId) then None
        else Some(Move(p.id, p.fullName, Some(ids[t.toId.value]), None, kind, t.description))
      else None
  }

  /** The cases of `Classify`, each as an if-and-only-if. */
  lemma ClassifyCases(ids: map<int, string>, t: RawTxn)
    requires t.person.Some?
    ensures t.typeCode == TRADE ==>
      (Classify(ids, t).Some? <==> Known(ids, t.fromId) && Known(ids, t.toId))
    ensures t.typeCode == TRADE && Classify(ids, t).Some? ==>
      Classify(ids, t).value.fromTeam == Some(ids[t.fromId.value]) &&
      Classify(ids, t).value.toTeam == Some(ids[t.toId.value])
    ensures t.typeCode in GAIN_TYPES ==>
      (Classify(ids, t).Some? <==> Known(ids, t.toId) && !MinorLeagueSigning(t))
    ensures t.typeCode in GAIN_TYPES && Classify(ids, t).Some? ==>
      Classify(ids, t).value.fromTeam.None? && Classify(ids, t).value.toTeam == Some(ids[t.toId.value])
    ensures t.typeCode in LOSS_TYPES ==> (Classify(ids, t).Some? <==> Known(ids, t.toId))
    ensures t.typeCode in LOSS_TYPES && Classify(ids, t).Some? ==>
      Classify(ids, t).value.fromTeam == Some(ids[t.toId.value]) && Classify(ids, t).value.toTeam.None?
    ensures t.typeCode != TRADE && t.typeCode !in GAIN_TYPES && t.typeCode !in LOSS_TYPES ==>
      Classify(ids, t).None?
  {
  }

  /** A signing whose description mentions a minor-league deal, in any
    * letter case, makes no move. */
  lemma MinorLeagueDealSkipped(ids: map<int, string>, p: Person, desc: string, to: int, i: nat)
    requires Injury.OccursAt(CoreBenchmarks.Lower(desc), "minor league", i)
    ensures Classify(ids, RawTxn(Some(p), "SFA", desc, Some(to), None, None)).None?
  {
    Injury.ContainsOccurs(CoreBenchmarks.Lower(desc), "minor league");
  }

  /** The moves of a feed, in feed order. */
  function Moves(ids: map<int, string>, txns: seq<RawTxn>): (ms: seq<Move>)
    ensures |ms| <= |txns|
  {
    FilterMap((t: RawTxn) => Classify(ids, t), txns)
  }

  /** A move is listed exactly when some feed entry makes it. */
  lemma MovesFromFeed(ids: map<int, string>, txns: seq<RawTxn>, m: Move)
    ensures m in Moves(ids, txns) <==> exists i :: 0 <= i < |txns| && Classify(ids, txns[i]) == Some(m)
  {
    FilterMapMembers((t: RawTxn) => Classify(ids, t), txns, m);
  }

  /** The classification loop over the feed. */
  method CollectMoves(ids: map<int, string>, txns: seq<RawTxn>) returns (moves: seq<Move>)
    ensures moves == Moves(ids, txns)
  {
    moves := [];
    var i := 0;
    while i < |txns|
      invariant 0 <= i <= |txns|
      invariant moves == FilterMap((t: RawTxn) => Classify(ids, t), txns[..i])
    {
      FilterMapStep((t: RawTxn) => Classify(ids, t), txns, i);
      var m := Classify(ids, txns[i]);
      if m.Some? {
        moves := moves + [m.value];
      }
      i := i + 1;
    }
    assert txns[..|txns|] == txns;
  }

  // The ledger.

  /** `if move['to_team']`: a club code that is present and not empty. */
  predicate Named(team: Option<string>)
  {
    team.Some? && team.value != ""
  }

  /** The receiving side of a move. */
  function ToTeam(m: Move): Option<string> { m.toTeam }

  /** The losing side of a move. */
  function FromTeam(m: Move): Option<string> { m.fromTeam }

  /** What a move adds to club `t`'s total on one side of the ledger. */
  function Share(side: Move -> Option<string>, war: Move -> real, t: string): Move -> real
  {
    (m: Move) => if Named(side(m)) && side(m).value == t then war(m) else 0.0
  }

  /** Club `t`'s total on one side over the moves. */
  function Total(moves: seq<Move>, side: Move -> Option<string>, war: Move -> real, t: string): real
  {
    SumOf(moves, Share(side, war, t))
  }

  /** The WAR club `t` gains over the moves, as `team_gains[t]` reads. */
  function Gained(moves: seq<Move>, war: Move -> real, t: string): real
  {
    Total(moves, ToTeam, war, t)
  }

  /** The WAR club `t` loses over the moves, as `team_losses[t]` reads. */
  function Lost(moves: seq<Move>, war: Move -> real, t: string): real
  {
    Total(moves, FromTeam, war, t)
  }

  /** The clubs with a key on one side of the ledger. */
  function SideTeams(moves: seq<Move>, side: Move -> Option<string>): set<string>
  {
    set i | 0 <= i < |moves| && Named(side(moves[i])) :: side(moves[i]).value
  }

  /** `all_teams`: every club some move credits or charges. */
  function Teams(moves: seq<Move>): set<string>
  {
    SideTeams(moves, ToTeam) + SideTeams(moves, FromTeam)
  }

  /** `acc[team] += w` on a `defaultdict(float)`, skipped when the move has
    * no club on that side. */
  function Post(acc: map<string, real>, team: Option<string>, w: real): map<string, real>
  {
    if !Named(team) then acc
    else acc[team.value := (if team.value in acc then acc[team.value] else 0.0) + w]
  }

  ghost predicate SideTracks(moves: seq<Move>, side: Move -> Option<string>, war: Move -> real, acc: map<string, real>)
  {
    acc.Keys == SideTeams(moves, side) &&
    forall t :: t in acc ==> acc[t] == Total(moves, side, war, t)
  }

  lemma SideTeamsStep(moves: seq<Move>, side: Move -> Option<string>, i: nat)
    requires i < |moves|
    ensures SideTeams(moves[..i + 1], side) ==
      SideTeams(moves[..i], side) + (if Named(side(moves[i])) then {side(moves[i]).value} else {})
  {
    var pre, next := moves[..i], moves[..i + 1];
    assert forall j :: 0 <= j < i ==> next[j] == pre[j];
    assert next[i] == moves[i];
  }

  /** A club with no key on a side has a zero total there (the
    * `defaultdict` zero). */
  lemma {:induction false} UnlistedZero(moves: seq<Move>, side: Move -> Option<string>, war: Move -> real, t: string)
    requires t !in SideTeams(moves, side)
    ensures Total(moves, side, war, t) == 0.0
    decreases |moves|
  {
    if |moves| > 0 {
      var n := |moves| - 1;
      SideTeamsStep(moves, side, n);
      assert moves[..n + 1] == moves;
      UnlistedZero(moves[..n], side, war, t);
    }
  }

  lemma SideStep(moves: seq<Move>, side: Move -> Option<string>, war: Move -> real, acc: map<string, real>, i: nat)
    requires i < |moves| && SideTracks(moves[..i], side, war, acc)
    ensures SideTracks(moves[..i + 1], side, war, Post(acc, side(moves[i]), war(moves[i])))
  {
    SideTeamsStep(moves, side, i);
    var next := Post(acc, side(moves[i]), war(moves[i]));
    forall t | t in next ensures next[t] == Total(moves[..i + 1], side, war, t) {
      SumOfStep(moves, Share(side, war, t), i);
      if t !in acc {
        UnlistedZero(moves[..i], side, war, t);
      }
    }
  }

  /** The accumulation loop shared by both adjusters: `war` is the value
    * the adjuster gives each move. */
  method Tally(moves: seq<Move>, war: Move -> real) returns (gains: map<string, real>, losses: map<string, real>)
    ensures gains.Keys == SideTeams(moves, ToTeam) && losses.Keys == SideTeams(moves, FromTeam)
    ensures forall t :: t in gains ==> gains[t] == Gained(moves, war, t)
    ensures forall t :: t in losses ==> losses[t] == Lost(moves, war, t)
  {
    gains, losses := map[], map[];
    var i := 0;
    while i < |moves|
      invariant 0 <= i <= |moves|
      invariant SideTracks(moves[..i], ToTeam, war, gains)
      invariant SideTracks(moves[..i], FromTeam, war, losses)
    {
      SideStep(moves, ToTeam, war, gains, i);
      SideStep(moves, FromTeam, war, losses, i);
      var w := war(moves[i]);
      gains := Post(gains, moves[i].toTeam, w);
      losses := Post(losses, moves[i].fromTeam, w);
      i := i + 1;
    }
    assert moves[..|moves|] == moves;
  }

  /** A club's total read from a ledger the way `team_gains[t]` reads a
    * `defaultdict`: a club the ledger does not list has a total of zero. */
  lemma SideRead(moves: seq<Move>, side: Move -> Option<string>, war: Move -> real, acc: map<string, real>, t: string)
    requires SideTracks(moves, side, war, acc)
    ensures (if t in acc then acc[t] else 0.0) == Total(moves, side, war, t)
  {
    if t !in acc {
      UnlistedZero(moves, side, war, t);
    }
  }

  /** The loop over the sorted clubs that both adjusters run after the
    * ledger: each club's entry made by `entry` from its gains and losses,
    * a side the club is missing from read as zero. */
  method Entries<V>(moves: seq<Move>, war: Move -> real, gains: map<string, real>, losses: map<string, real>,
                    teams: seq<string>, entry: (real, real) -> V)
    returns (entries: map<string, V>)
    requires SideTracks(moves, ToTeam, war, gains) && SideTracks(moves, FromTeam, war, losses)
    ensures forall t :: t in entries <==> t in teams
    ensures forall t :: t in entries ==> entries[t] == entry(Gained(moves, war, t), Lost(moves, war, t))
  {
    entries := map[];
    var j := 0;
    while j < |teams|
      invariant 0 <= j <= |teams|
      invariant forall t :: t in entries <==> t in teams[..j]
      invariant forall t :: t in entries ==> entries[t] == entry(Gained(moves, war, t), Lost(moves, war, t))
    {
      var t := teams[j];
      SideRead(moves, ToTeam, war, gains, t);
      SideRead(moves, FromTeam, war, losses, t);
      var g := if t in gains then gains[t] else 0.0;
      var l := if t in losses then losses[t] else 0.0;
      entries := entries[t := entry(g, l)];
      assert teams[..j + 1] == teams[..j] + [t];
      j := j + 1;
    }
    assert teams[..|teams|] == teams;
  }

  // The ledger balances.

  /** A club's net change, gains less losses. */
  function Delta(moves: seq<Move>, war: Move -> real): string -> real
  {
    (t: string) => Gained(moves, war, t) - Lost(moves, war, t)
  }

  /** What one move adds to the league-wide sum of net changes: its WAR once
    * for the club that gains it, less once for the club that loses it. */
  function NetTerm(war: Move -> real): Move -> real
  {
    (m: Move) => (if Named(m.toTeam) then war(m) else 0.0) - (if Named(m.fromTeam) then war(m) else 0.0)
  }

  /** Every club a move names is listed in `order`. */
  predicate Covered(moves: seq<Move>, order: seq<string>)
  {
    forall i :: 0 <= i < |moves| ==>
      (Named(moves[i].toTeam) ==> moves[i].toTeam.value in order) &&
      (Named(moves[i].fromTeam) ==> moves[i].fromTeam.value in order)
  }

  /** An order listing every club in `Teams` covers the moves. */
  lemma TeamsCovered(moves: seq<Move>, order: seq<string>)
    requires forall t :: t in Teams(moves) ==> t in order
    ensures Covered(moves, order)
  {
    forall i | 0 <= i < |moves|
      ensures Named(moves[i].toTeam) ==> moves[i].toTeam.value in SideTeams(moves, ToTeam)
      ensures Named(moves[i].fromTeam) ==> moves[i].fromTeam.value in SideTeams(moves, FromTeam)
    {
      assert ToTeam(moves[i]) == moves[i].toTeam && FromTeam(moves[i]) == moves[i].fromTeam;
    }
  }

  /** `w` at club `x`, zero at every other club. */
  function Hit(x: string, w: real): string -> real
  {
    (t: string) => if t == x then w else 0.0
  }

  /** Over a list of distinct clubs, a value at one club sums to that value
    * when the club is listed and to zero when it is not. */
  lemma {:induction false} SumOfHit(order: seq<string>, x: string, w: real)
    requires Sorting.Distinct(order)
    ensures SumOf(order, Hit(x, w)) == if x in order then w else 0.0
    decreases |order|
  {
    if |order| > 0 {
      var n := |order| - 1;
      var init := order[..n];
      assert Sorting.Distinct(init);
      SumOfHit(init, x, w);
      assert x in order <==> x in init || order[n] == x;
      assert order[n] == x ==> x !in init;
    }
  }

  /** One club's net change after one more move. */
  lemma DeltaAt(moves: seq<Move>, m: Move, war: Move -> real, t: string)
    ensures Delta(moves + [m], war)(t) == Delta(moves, war)(t) + Share(ToTeam, war, t)(m) - Share(FromTeam, war, t)(m)
  {
    assert (moves + [m])[..|moves|] == moves;
  }

  /** What one move adds to a club, as a function of the club. */
  function MoveDelta(m: Move, war: Move -> real): string -> real
  {
    (t: string) => Share(ToTeam, war, t)(m) - Share(FromTeam, war, t)(m)
  }

  /** One move's net changes over a list of distinct clubs that holds both
    * of its clubs add up to its net term. */
  lemma MoveDeltaSum(m: Move, war: Move -> real, order: seq<string>)
    requires Sorting.Distinct(order)
    requires Named(m.toTeam) ==> m.toTeam.value in order
    requires Named(m.fromTeam) ==> m.fromTeam.value in order
    ensures SumOf(order, MoveDelta(m, war)) == NetTerm(war)(m)
  {
    var gain := if Named(m.toTeam) then Hit(m.toTeam.value, war(m)) else Hit("", 0.0);
    var loss := if Named(m.fromTeam) then Hit(m.fromTeam.value, war(m)) else Hit("", 0.0);
    forall t ensures MoveDelta(m, war)(t) == 1.0 * gain(t) + -1.0 * loss(t) {
      assert Share(ToTeam, war, t)(m) == gain(t);
      assert Share(FromTeam, war, t)(m) == loss(t);
    }
    SumOfLinear(order, gain, loss, MoveDelta(m, war), 1.0, -1.0);
    if Named(m.toTeam) { SumOfHit(order, m.toTeam.value, war(m)); } else { SumOfHit(order, "", 0.0); }
    if Named(m.fromTeam) { SumOfHit(order, m.fromTeam.value, war(m)); } else { SumOfHit(order, "", 0.0); }
  }

  /** A club list's net changes after one more move: the old changes plus
    * the move's net term. */
  lemma DeltaSnoc(moves: seq<Move>, m: Move, war: Move -> real, order: seq<string>)
    requires Sorting.Distinct(order)
    requires Named(m.toTeam) ==> m.toTeam.value in order
    requires Named(m.fromTeam) ==> m.fromTeam.value in order
    ensures SumOf(order, Delta(moves + [m], war)) == SumOf(order, Delta(moves, war)) + NetTerm(war)(m)
  {
    forall t ensures Delta(moves + [m], war)(t) == 1.0 * Delta(moves, war)(t) + 1.0 * MoveDelta(m, war)(t) {
      DeltaAt(moves, m, war, t);
    }
    SumOfLinear(order, Delta(moves, war), MoveDelta(m, war), Delta(moves + [m], war), 1.0, 1.0);
    MoveDeltaSum(m, war, order);
  }

  /** Summed over every club the moves name, the net changes add up to the
    * moves' own net terms. */
  lemma {:induction false} NetChangesBalance(moves: seq<Move>, war: Move -> real, order: seq<string>)
    requires Sorting.Distinct(order) && Covered(moves, order)
    ensures SumOf(order, Delta(moves, war)) == SumOf(moves, NetTerm(war))
    decreases |moves|
  {
    if |moves| == 0 {
      forall t ensures Delta(moves, war)(t) == 0.0 * Delta(moves, war)(t) + 0.0 * Delta(moves, war)(t) { }
      SumOfLinear(order, Delta(moves, war), Delta(moves, war), Delta(moves, war), 0.0, 0.0);
    } else {
      var n := |moves| - 1;
      var init := moves[..n];
      assert Covered(init, order) by {
        forall i | 0 <= i < |init| ensures init[i] == moves[i] { }
      }
      NetChangesBalance(init, war, order);
      assert moves == init + [moves[n]];
      DeltaSnoc(init, moves[n], war, order);
    }
  }

  /** A trade names both clubs, so its net term is zero: trades move WAR
    * between clubs and add nothing to the league-wide net change. */
  lemma {:induction false} TradesCancel(moves: seq<Move>, war: Move -> real)
    requires forall i :: 0 <= i < |moves| ==> Named(moves[i].toTeam) && Named(moves[i].fromTeam)
    ensures SumOf(moves, NetTerm(war)) == 0.0
    decreases |moves|
  {
    if |moves| > 0 {
      var n := |moves| - 1;
      TradesCancel(moves[..n], war);
    }
  }
}
