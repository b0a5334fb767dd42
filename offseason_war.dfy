/** Offseason WAR summary: every transaction row (a player leaving one club
  * for another) adds the player's WAR to the receiving club's "gained" total
  * and to the sending club's "lost" total; each of the 30 clubs then gets
  * rounded totals, a net figure and its moves sorted by WAR, and the clubs
  * are rolled up per division (average net WAR, best and worst club). */
module OffseasonWar {
  import opened Wrappers
  import opened Rounding
  import Sums
  import Sorting
  import TeamCodes
  import PairTables
  import Weighted

  // Loading.

  /** The columns a transaction file must have. */
  const REQUIRED_COLUMNS: set<string> := {"player_name", "from_team", "to_team", "type", "war"}

  /** The columns written by the projection step; all three or none are used. */
  const BLENDED_COLUMNS: set<string> := {"war_historical", "war_projected", "war_blended"}

  /** The column check of the loader: a file missing a required column stops
    * the run; otherwise the result says whether the blended figures are there. */
  function CheckColumns(columns: set<string>): (r: Result<bool>)
    ensures r.Err? <==> exists c :: c in REQUIRED_COLUMNS && c !in columns
    ensures r.Ok? ==> (r.value <==> BLENDED_COLUMNS <= columns)
  {
    if !(REQUIRED_COLUMNS <= columns) then Err("CSV missing columns")
    else Ok(BLENDED_COLUMNS <= columns)
  }

  // Rows and figures.

  /** One transaction; `None` stands for an empty (NaN) cell. */
  datatype Txn = Txn(
    playerName: string,
    fromTeam: Option<string>,
    toTeam: Option<string>,
    kind: Option<string>,
    war: Option<real>,
    historical: Option<real>,
    projected: Option<real>,
    blended: Option<real>)

  /** The four WAR figures carried for a club or a move: plain WAR and the
    * historical, projected and blended figures. Without the blended
    * columns the last three stay zero and are not written out. */
  datatype Wars = Wars(war: real, historical: real, projected: real, blended: real)

  const ZERO: Wars := Wars(0.0, 0.0, 0.0, 0.0)

  function Add(a: Wars, b: Wars): Wars
  {
    Wars(a.war + b.war, a.historical + b.historical, a.projected + b.projected, a.blended + b.blended)
  }

  function Sub(a: Wars, b: Wars): Wars
  {
    Wars(a.war - b.war, a.historical - b.historical, a.projected - b.projected, a.blended - b.blended)
  }

  function RoundWars(a: Wars, k: Digits): Wars
  {
    Wars(Round(a.war, k), Round(a.historical, k), Round(a.projected, k), Round(a.blended, k))
  }

  /** The figures of a row: an empty cell counts as 0. */
  function RowWars(r: Txn, hasBlended: bool): (w: Wars)
    ensures w.war == r.war.GetOr(0.0)
    ensures !hasBlended ==> w.historical == w.projected == w.blended == 0.0
    ensures hasBlended ==> w.blended == r.blended.GetOr(0.0)
  {
    if hasBlended then Wars(r.war.GetOr(0.0), r.historical.GetOr(0.0), r.projected.GetOr(0.0), r.blended.GetOr(0.0))
    else Wars(r.war.GetOr(0.0), 0.0, 0.0, 0.0)
  }

  /** Which end of a transaction a club is on. */
  datatype Side = Gain | Loss

  /** The club on the given end of a row. */
  function Party(r: Txn, side: Side): Option<string>
  {
    if side.Gain? then r.toTeam else r.fromTeam
  }

  /** The club on the other end, written beside the move. */
  function Other(r: Txn, side: Side): Option<string>
  {
    if side.Gain? then r.fromTeam else r.toTeam
  }

  /** The row counts for club `t` on the given end (an empty code never does). */
  predicate Hits(r: Txn, side: Side, t: string)
  {
    Party(r, side) == Some(t) && t != ""
  }

  /** A move as listed under a club: its figures to two decimals. */
  datatype Move = Move(name: string, wars: Wars, kind: string, other: Option<string>)

  function MoveOf(r: Txn, side: Side, hasBlended: bool): (m: Move)
    ensures m.name == r.playerName && m.other == Other(r, side)
    ensures m.wars.war == Round(r.war.GetOr(0.0), 2)
  {
    Move(r.playerName, RoundWars(RowWars(r, hasBlended), 2), r.kind.GetOr(""), Other(r, side))
  }

  // The per-club specification.

  /** The raw total of the rows that hit club `t` on one end. */
  function Total(rows: seq<Txn>, side: Side, t: string, hasBlended: bool): Wars
  {
    if |rows| == 0 then ZERO
    else
      var prev := Total(rows[..|rows| - 1], side, t, hasBlended);
      var r := rows[|rows| - 1];
      if Hits(r, side, t) then Add(prev, RowWars(r, hasBlended)) else prev
  }

  /** The moves of the rows that hit club `t` on one end, in file order. */
  function Moves(rows: seq<Txn>, side: Side, t: string, hasBlended: bool): (ms: seq<Move>)
    ensures |ms| <= |rows|
  {
    if |rows| == 0 then []
    else
      var prev := Moves(rows[..|rows| - 1], side, t, hasBlended);
      var r := rows[|rows| - 1];
      if Hits(r, side, t) then prev + [MoveOf(r, side, hasBlended)] else prev
  }

  /** A club's record: totals, net figures, and the moves in and out. */
  datatype TeamEntry = TeamEntry(
    team: string,
    division: string,
    league: string,
    gained: Wars,
    lost: Wars,
    net: Wars,
    playersGained: seq<Move>,
    playersLost: seq<Move>)

  /** Moves listed by WAR, largest first; equal WAR keeps file order. */
  function ByWar(): (Move, Move) -> bool
  {
    Sorting.ByKeyDesc((m: Move) => m.wars.war)
  }

  /** The final rounding step: totals to one decimal, net as the difference
    * of the ROUNDED totals, rounded again, and the move lists sorted. */
  function Finish(e: TeamEntry): (f: TeamEntry)
    ensures f.team == e.team && f.division == e.division && f.league == e.league
    ensures multiset(f.playersGained) == multiset(e.playersGained)
    ensures multiset(f.playersLost) == multiset(e.playersLost)
  {
    var g := RoundWars(e.gained, 1);
    var l := RoundWars(e.lost, 1);
    e.(gained := g, lost := l, net := RoundWars(Sub(g, l), 1),
       playersGained := Sorting.Sort(e.playersGained, ByWar()),
       playersLost := Sorting.Sort(e.playersLost, ByWar()))
  }

  type Tables = TeamCodes.Tables

  /** Every club of the division table has a league. */
  predicate Covers(tab: Tables)
  {
    tab.division.Keys <= tab.league.Keys
  }

  /** A club's record after the given rows, before the final rounding. */
  function Partial(tab: Tables, rows: seq<Txn>, t: string, hasBlended: bool): TeamEntry
    requires Covers(tab) && t in tab.division
  {
    TeamEntry(t, tab.division[t], tab.league[t],
      Total(rows, Gain, t, hasBlended), Total(rows, Loss, t, hasBlended), ZERO,
      Moves(rows, Gain, t, hasBlended), Moves(rows, Loss, t, hasBlended))
  }

  /** The team summary: one finished record per club of the division table. */
  function TeamSummary(tab: Tables, rows: seq<Txn>, hasBlended: bool): (teams: map<string, TeamEntry>)
    requires Covers(tab)
    ensures teams.Keys == tab.division.Keys
  {
    map t | t in tab.division :: Finish(Partial(tab, rows, t, hasBlended))
  }

  // The per-club computation.

  /** One row added to one end of a club's running record, when the row
    * names club `t` on that end. */
  function Step(e: TeamEntry, t: string, r: Txn, side: Side, hasBlended: bool): TeamEntry
  {
    if !Hits(r, side, t) then e
    else if side.Gain? then
      e.(gained := Add(e.gained, RowWars(r, hasBlended)), playersGained := e.playersGained + [MoveOf(r, side, hasBlended)])
    else
      e.(lost := Add(e.lost, RowWars(r, hasBlended)), playersLost := e.playersLost + [MoveOf(r, side, hasBlended)])
  }

  /** The running records follow the rows: one more row is one more step
    * on each end. */
  lemma PartialStep(tab: Tables, rows: seq<Txn>, i: nat, t: string, hasBlended: bool)
    requires Covers(tab) && t in tab.division && i < |rows|
    ensures Partial(tab, rows[..i + 1], t, hasBlended) ==
      Step(Step(Partial(tab, rows[..i], t, hasBlended), t, rows[i], Gain, hasBlended), t, rows[i], Loss, hasBlended)
  {
    assert rows[..i + 1][..i] == rows[..i];
  }

  /** `teams` holds the running record of every club of the table after `rows`. */
  ghost predicate Tracks(tab: Tables, rows: seq<Txn>, hasBlended: bool, teams: map<string, TeamEntry>)
  {
    Covers(tab) && teams.Keys == tab.division.Keys &&
    forall t :: t in teams ==> teams[t] == Partial(tab, rows, t, hasBlended)
  }

  /** Add one row to one end of the running records, when that end names a
    * club of the table. */
  method Record(teams: map<string, TeamEntry>, r: Txn, side: Side, hasBlended: bool)
    returns (next: map<string, TeamEntry>)
    ensures next.Keys == teams.Keys
    ensures forall t :: t in teams ==> next[t] == Step(teams[t], t, r, side, hasBlended)
  {
    next := teams;
    var p := Party(r, side);
    if p.Some? && p.value != "" && p.value in teams {
      var e := teams[p.value];
      var w := RowWars(r, hasBlended);
      var m := MoveOf(r, side, hasBlended);
      if side.Gain? {
        next := teams[p.value := e.(gained := Add(e.gained, w), playersGained := e.playersGained + [m])];
      } else {
        next := teams[p.value := e.(lost := Add(e.lost, w), playersLost := e.playersLost + [m])];
      }
    }
  }

  /** Initialise all 30 clubs, add every row to both of its ends, then round
    * and sort each club's record. */
  method BuildTeamSummary(tab: Tables, rows: seq<Txn>, hasBlended: bool) returns (teams: map<string, TeamEntry>)
    requires Covers(tab)
    ensures teams == TeamSummary(tab, rows, hasBlended)
  {
    teams := InitialTeams(tab, rows, hasBlended);
    teams := RecordRows(tab, rows, hasBlended, teams);
    teams := FinishTeams(tab, rows, hasBlended, teams);
  }

  /** The row loop: every transaction row added to both of its ends. */
  method RecordRows(tab: Tables, rows: seq<Txn>, hasBlended: bool, start: map<string, TeamEntry>)
    returns (teams: map<string, TeamEntry>)
    requires Tracks(tab, rows[..0], hasBlended, start)
    ensures Tracks(tab, rows, hasBlended, teams)
  {
    teams := start;
    var i := 0;
    while i < |rows|
      invariant 0 <= i <= |rows|
      invariant Tracks(tab, rows[..i], hasBlended, teams)
    {
      teams := RecordRow(tab, rows, i, hasBlended, teams);
      i := i + 1;
    }
    assert rows[..i] == rows;
  }

  /** One transaction row: the gaining club's end, then the losing club's. */
  method RecordRow(tab: Tables, rows: seq<Txn>, i: nat, hasBlended: bool, teams: map<string, TeamEntry>)
    returns (next: map<string, TeamEntry>)
    requires i < |rows| && Tracks(tab, rows[..i], hasBlended, teams)
    ensures Tracks(tab, rows[..i + 1], hasBlended, next)
  {
    var afterGain := Record(teams, rows[i], Gain, hasBlended);
    var afterLoss := Record(afterGain, rows[i], Loss, hasBlended);
    RecordedBothEnds(tab, rows, i, hasBlended, teams, afterGain, afterLoss);
    next := afterLoss;
  }

  /** The closing pass: every club's net WAR from its gains and losses. */
  method FinishTeams(tab: Tables, rows: seq<Txn>, hasBlended: bool, teams: map<string, TeamEntry>)
    returns (finished: map<string, TeamEntry>)
    requires Tracks(tab, rows, hasBlended, teams)
    ensures finished == TeamSummary(tab, rows, hasBlended)
  {
    FinishedAll(tab, rows, hasBlended, teams);
    finished := map t | t in teams :: Finish(teams[t]);
  }

  /** Every club of the division table starts with no WAR and no moves. */
  method InitialTeams(tab: Tables, ghost rows: seq<Txn>, hasBlended: bool) returns (teams: map<string, TeamEntry>)
    requires Covers(tab)
    ensures Tracks(tab, rows[..0], hasBlended, teams)
  {
    var division := tab.division;
    teams := map t | t in division :: TeamEntry(t, division[t], tab.league[t], ZERO, ZERO, ZERO, [], []);
    assert rows[..0] == [];
    forall t | t in teams
      ensures teams[t] == Partial(tab, [], t, hasBlended)
    {
    }
  }

  lemma RecordedBothEnds(tab: Tables, rows: seq<Txn>, i: nat, hasBlended: bool,
                         before: map<string, TeamEntry>, mid: map<string, TeamEntry>, after: map<string, TeamEntry>)
    requires Covers(tab) && i < |rows|
    requires Tracks(tab, rows[..i], hasBlended, before)
    requires mid.Keys == before.Keys && after.Keys == mid.Keys
    requires forall t :: t in mid ==> mid[t] == Step(before[t], t, rows[i], Gain, hasBlended)
    requires forall t :: t in after ==> after[t] == Step(mid[t], t, rows[i], Loss, hasBlended)
    ensures Tracks(tab, rows[..i + 1], hasBlended, after)
  {
    forall t | t in after
      ensures after[t] == Partial(tab, rows[..i + 1], t, hasBlended)
    {
      PartialStep(tab, rows, i, t, hasBlended);
    }
  }

  lemma FinishedAll(tab: Tables, rows: seq<Txn>, hasBlended: bool, teams: map<string, TeamEntry>)
    requires Tracks(tab, rows, hasBlended, teams)
    ensures (map t | t in teams :: Finish(teams[t])) == TeamSummary(tab, rows, hasBlended)
  {
  }

  // What the team summary promises.

  /** All 30 clubs appear, each with its own division and league, whether
    * or not it made a move. */
  lemma EveryClubListed(rows: seq<Txn>, hasBlended: bool)
    ensures Covers(TeamCodes.MlbTables())
    ensures var teams := TeamSummary(TeamCodes.MlbTables(), rows, hasBlended);
      |teams| == 30 &&
      forall t :: t in TeamCodes.MlbTables().division ==> (
        t in teams && teams[t].team == t &&
        teams[t].division == TeamCodes.MlbTables().division[t] &&
        teams[t].league == TeamCodes.MlbTables().league[t])
  {
    TeamCodes.MlbTablesSameKeys();
  }

  /** The final step moves each total by at most half a unit, and the net
    * figure by at most 0.15 from the raw difference. */
  lemma FinishNear(e: TeamEntry)
    ensures var f := Finish(e);
      -0.05 <= f.gained.war - e.gained.war <= 0.05 &&
      -0.05 <= f.lost.war - e.lost.war <= 0.05 &&
      -0.15 <= f.net.war - (e.gained.war - e.lost.war) <= 0.15
  {
    var g := Round(e.gained.war, 1);
    var l := Round(e.lost.war, 1);
    assert Finish(e).net.war == Round(g - l, 1);
    RoundError(e.gained.war, 1);
    RoundError(e.lost.war, 1);
    RoundError(g - l, 1);
  }

  /** The rounded totals sit within half a unit of the raw sums, and the net
    * figure within 0.15 of the raw difference (three roundings to one decimal). */
  lemma TotalsNearRawSums(tab: Tables, rows: seq<Txn>, hasBlended: bool, t: string)
    requires Covers(tab)
    requires t in tab.division
    ensures var e := TeamSummary(tab, rows, hasBlended)[t];
      var g := Total(rows, Gain, t, hasBlended).war;
      var l := Total(rows, Loss, t, hasBlended).war;
      -0.05 <= e.gained.war - g <= 0.05 &&
      -0.05 <= e.lost.war - l <= 0.05 &&
      -0.15 <= e.net.war - (g - l) <= 0.15
  {
    FinishNear(Partial(tab, rows, t, hasBlended));
  }

  /** Each club's lists hold exactly the moves of the rows naming it on that
    * end, largest WAR first. */
  lemma MoveListsSorted(tab: Tables, rows: seq<Txn>, hasBlended: bool, t: string)
    requires Covers(tab)
    requires t in tab.division
    ensures var e := TeamSummary(tab, rows, hasBlended)[t];
      multiset(e.playersGained) == multiset(Moves(rows, Gain, t, hasBlended)) &&
      multiset(e.playersLost) == multiset(Moves(rows, Loss, t, hasBlended)) &&
      Sorting.SortedBy(e.playersGained, ByWar()) && Sorting.SortedBy(e.playersLost, ByWar())
  {
    Sorting.ByKeyDescPreorder((m: Move) => m.wars.war);
    Sorting.SortSorted(Moves(rows, Gain, t, hasBlended), ByWar());
    Sorting.SortSorted(Moves(rows, Loss, t, hasBlended), ByWar());
  }

  /** A move lands in a club's list exactly when some row names the club on
    * that end. */
  lemma {:induction false} MovesFromRows(rows: seq<Txn>, side: Side, t: string, hasBlended: bool, m: Move)
    ensures m in Moves(rows, side, t, hasBlended) <==>
      exists i :: 0 <= i < |rows| && Hits(rows[i], side, t) && m == MoveOf(rows[i], side, hasBlended)
    decreases |rows|
  {
    if |rows| > 0 {
      var init := rows[..|rows| - 1];
      MovesFromRows(init, side, t, hasBlended, m);
      if m in Moves(init, side, t, hasBlended) {
        var i :| 0 <= i < |init| && Hits(init[i], side, t) && m == MoveOf(init[i], side, hasBlended);
        assert rows[i] == init[i];
      }
      if exists i :: 0 <= i < |rows| && Hits(rows[i], side, t) && m == MoveOf(rows[i], side, hasBlended) {
        var i :| 0 <= i < |rows| && Hits(rows[i], side, t) && m == MoveOf(rows[i], side, hasBlended);
        if i < |init| {
          assert init[i] == rows[i];
        }
      }
    }
  }

  /** A transfer between two listed clubs shows up twice: as a gain for the
    * receiving club and as a loss for the sending one, each naming the
    * other club, with the same WAR. */
  lemma TransferRecordedTwice(tab: Tables, rows: seq<Txn>, hasBlended: bool, i: nat)
    requires Covers(tab)
    requires i < |rows|
    requires rows[i].toTeam.Some? && rows[i].toTeam.value in tab.division && rows[i].toTeam.value != ""
    requires rows[i].fromTeam.Some? && rows[i].fromTeam.value in tab.division && rows[i].fromTeam.value != ""
    ensures var to := rows[i].toTeam.value;
      var from := rows[i].fromTeam.value;
      var gain := MoveOf(rows[i], Gain, hasBlended);
      var loss := MoveOf(rows[i], Loss, hasBlended);
      gain in TeamSummary(tab, rows, hasBlended)[to].playersGained && gain.other == Some(from) &&
      loss in TeamSummary(tab, rows, hasBlended)[from].playersLost && loss.other == Some(to) &&
      gain.wars == loss.wars
  {
    var to := rows[i].toTeam.value;
    var from := rows[i].fromTeam.value;
    MovesFromRows(rows, Gain, to, hasBlended, MoveOf(rows[i], Gain, hasBlended));
    MovesFromRows(rows, Loss, from, hasBlended, MoveOf(rows[i], Loss, hasBlended));
    MoveListsSorted(tab, rows, hasBlended, to);
    MoveListsSorted(tab, rows, hasBlended, from);
    assert MoveOf(rows[i], Gain, hasBlended) in multiset(TeamSummary(tab, rows, hasBlended)[to].playersGained);
    assert MoveOf(rows[i], Loss, hasBlended) in multiset(TeamSummary(tab, rows, hasBlended)[from].playersLost);
  }

  lemma {:induction false} UnlistedRowIgnored(rows: seq<Txn>, r: Txn, side: Side, t: string, hasBlended: bool)
    requires !Hits(r, side, t)
    ensures Total(rows + [r], side, t, hasBlended) == Total(rows, side, t, hasBlended)
    ensures Moves(rows + [r], side, t, hasBlended) == Moves(rows, side, t, hasBlended)
  {
    assert (rows + [r])[..|rows|] == rows;
  }

  /** A row naming no listed club on either end (an amateur signing, a
    * release, a club code outside the table) changes nothing. */
  lemma RowWithoutListedClubs(tab: Tables, rows: seq<Txn>, r: Txn, hasBlended: bool)
    requires Covers(tab)
    requires r.toTeam.None? || r.toTeam.value !in tab.division
    requires r.fromTeam.None? || r.fromTeam.value !in tab.division
    ensures TeamSummary(tab, rows + [r], hasBlended) == TeamSummary(tab, rows, hasBlended)
  {
    forall t | t in tab.division
      ensures Partial(tab, rows + [r], t, hasBlended) == Partial(tab, rows, t, hasBlended)
    {
      UnlistedRowIgnored(rows, r, Gain, t, hasBlended);
      UnlistedRowIgnored(rows, r, Loss, t, hasBlended);
    }
    SameRecordsSameSummary(tab, rows + [r], rows, hasBlended);
  }

  lemma SameRecordsSameSummary(tab: Tables, rows: seq<Txn>, other: seq<Txn>, hasBlended: bool)
    requires Covers(tab)
    requires forall t :: t in tab.division ==> Partial(tab, rows, t, hasBlended) == Partial(tab, other, t, hasBlended)
    ensures TeamSummary(tab, rows, hasBlended) == TeamSummary(tab, other, hasBlended)
  {
  }

  // Divisions.

  /** A division's line in the roll-up. */
  datatype DivisionLine = DivisionLine(
    division: string,
    avgNetWar: real,
    best: string,
    bestNetWar: real,
    worst: string,
    worstNetWar: real)

  function NetWar(e: TeamEntry): real
  {
    e.net.war
  }

  /** The divisions the clubs belong to. */
  function DivisionSet(entries: seq<TeamEntry>): set<string>
  {
    set e | e in entries :: e.division
  }

  /** The clubs of one division, in the order given. */
  function Members(entries: seq<TeamEntry>, d: string): (ms: seq<TeamEntry>)
    ensures |ms| <= |entries|
  {
    if |entries| == 0 then []
    else
      var prev := Members(entries[..|entries| - 1], d);
      var e := entries[|entries| - 1];
      if e.division == d then prev + [e] else prev
  }

  /** A club is listed under a division exactly when it belongs to it. */
  lemma {:induction false} MembersSpec(entries: seq<TeamEntry>, d: string, e: TeamEntry)
    ensures e in Members(entries, d) <==> e in entries && e.division == d
    decreases |entries|
  {
    if |entries| > 0 {
      var init := entries[..|entries| - 1];
      MembersSpec(init, d, e);
      assert entries == init + [entries[|entries| - 1]];
    }
  }

  lemma {:induction false} MembersOutside(entries: seq<TeamEntry>, d: string)
    requires d !in DivisionSet(entries)
    ensures Members(entries, d) == []
    decreases |entries|
  {
    if |entries| > 0 {
      var init := entries[..|entries| - 1];
      assert entries == init + [entries[|entries| - 1]];
      assert DivisionSet(init) <= DivisionSet(entries);
      MembersOutside(init, d);
    }
  }

  /** The divisions in the order they are first met. */
  function FirstSeen(entries: seq<TeamEntry>): (ds: seq<string>)
    ensures |ds| <= |entries|
  {
    if |entries| == 0 then []
    else
      var prev := FirstSeen(entries[..|entries| - 1]);
      var d := entries[|entries| - 1].division;
      if d in prev then prev else prev + [d]
  }

  /** Each division that has clubs is met once. */
  lemma {:induction false} FirstSeenSpec(entries: seq<TeamEntry>)
    ensures Sorting.Distinct(FirstSeen(entries))
    ensures forall d :: d in FirstSeen(entries) <==> d in DivisionSet(entries)
    decreases |entries|
  {
    if |entries| > 0 {
      var init := entries[..|entries| - 1];
      var last := entries[|entries| - 1];
      FirstSeenSpec(init);
      assert entries == init + [last];
      assert DivisionSet(entries) == DivisionSet(init) + {last.division};
      if last.division !in FirstSeen(init) {
        Sorting.DistinctSnoc(FirstSeen(init), last.division);
      }
    }
  }

  /** The index `max` returns: the first club with the largest net WAR. */
  function BestIndex(ms: seq<TeamEntry>): (b: nat)
    requires |ms| > 0
    ensures b < |ms|
    ensures forall j :: 0 <= j < |ms| ==> NetWar(ms[j]) <= NetWar(ms[b])
    ensures forall j :: 0 <= j < b ==> NetWar(ms[j]) < NetWar(ms[b])
  {
    if |ms| == 1 then 0
    else
      var b := BestIndex(ms[..|ms| - 1]);
      if NetWar(ms[|ms| - 1]) > NetWar(ms[b]) then |ms| - 1 else b
  }

  /** The index `min` returns: the first club with the smallest net WAR. */
  function WorstIndex(ms: seq<TeamEntry>): (w: nat)
    requires |ms| > 0
    ensures w < |ms|
    ensures forall j :: 0 <= j < |ms| ==> NetWar(ms[w]) <= NetWar(ms[j])
    ensures forall j :: 0 <= j < w ==> NetWar(ms[w]) < NetWar(ms[j])
  {
    if |ms| == 1 then 0
    else
      var w := WorstIndex(ms[..|ms| - 1]);
      if NetWar(ms[|ms| - 1]) < NetWar(ms[w]) then |ms| - 1 else w
  }

  /** A division's line from its members: the average net WAR to one
    * decimal, and the best and worst club. */
  function LineOf(d: string, ms: seq<TeamEntry>): DivisionLine
    requires |ms| > 0
  {
    var b := BestIndex(ms);
    var w := WorstIndex(ms);
    DivisionLine(d, Round(Sums.SumOf(ms, NetWar) / |ms| as real, 1),
      ms[b].team, NetWar(ms[b]), ms[w].team, NetWar(ms[w]))
  }

  /** Divisions listed by average net WAR, largest first; a tie keeps the
    * alphabetical order. */
  function ByAverage(): (DivisionLine, DivisionLine) -> bool
  {
    Sorting.ByKeyDesc((l: DivisionLine) => l.avgNetWar)
  }

  /** The divisions that have clubs, in alphabetical order. */
  function Divisions(entries: seq<TeamEntry>): seq<string>
  {
    Sorting.SortStrings(FirstSeen(entries))
  }

  /** Every listed division has at least one club. */
  lemma DivisionsHaveMembers(entries: seq<TeamEntry>)
    ensures forall k :: 0 <= k < |Divisions(entries)| ==> |Members(entries, Divisions(entries)[k])| > 0
  {
    var ds := Divisions(entries);
    FirstSeenSpec(entries);
    forall k | 0 <= k < |ds| ensures |Members(entries, ds[k])| > 0 {
      assert ds[k] in multiset(FirstSeen(entries));
      assert ds[k] in DivisionSet(entries);
      var e :| e in entries && e.division == ds[k];
      MembersSpec(entries, ds[k], e);
    }
  }

  /** The lines of the divisions in alphabetical order. */
  function Lines(entries: seq<TeamEntry>): (ls: seq<DivisionLine>)
    ensures |ls| == |Divisions(entries)|
    ensures forall k :: 0 <= k < |ls| ==> ls[k].division == Divisions(entries)[k]
  {
    var ds := Divisions(entries);
    DivisionsHaveMembers(entries);
    seq(|ds|, k requires 0 <= k < |ds| => LineOf(ds[k], Members(entries, ds[k])))
  }

  /** The division summary. */
  function DivisionSummary(entries: seq<TeamEntry>): seq<DivisionLine>
  {
    Sorting.Sort(Lines(entries), ByAverage())
  }

  /** `groups` holds the clubs seen so far by division, and `order` the
    * divisions in the order first met. */
  ghost predicate Grouped(seen: seq<TeamEntry>, groups: map<string, seq<TeamEntry>>, order: seq<string>)
  {
    order == FirstSeen(seen) &&
    (forall d :: d in groups <==> d in order) &&
    forall d :: d in groups ==> groups[d] == Members(seen, d)
  }

  lemma GroupStep(entries: seq<TeamEntry>, i: nat, groups: map<string, seq<TeamEntry>>, order: seq<string>)
    requires i < |entries| && Grouped(entries[..i], groups, order)
    ensures var e := entries[i];
      if e.division in groups then Grouped(entries[..i + 1], groups[e.division := groups[e.division] + [e]], order)
      else Grouped(entries[..i + 1], groups[e.division := [e]], order + [e.division])
  {
    var e := entries[i];
    var seen := entries[..i + 1];
    assert seen[..i] == entries[..i] && seen[i] == e;
    assert FirstSeen(seen) == if e.division in order then order else order + [e.division];
    forall d ensures Members(seen, d) == if e.division == d then Members(entries[..i], d) + [e] else Members(entries[..i], d) {
    }
    if e.division in groups {
      var g := groups[e.division := groups[e.division] + [e]];
      assert forall d :: d in g <==> d in order;
      assert forall d :: d in g ==> g[d] == Members(seen, d);
    } else {
      var g := groups[e.division := [e]];
      FirstSeenSpec(entries[..i]);
      MembersOutside(entries[..i], e.division);
      assert forall d :: d in g <==> d in order + [e.division];
      assert forall d :: d in g ==> g[d] == Members(seen, d);
    }
  }

  /** Group the clubs by division, keeping the order in which divisions
    * are first met. */
  method GroupByDivision(entries: seq<TeamEntry>) returns (groups: map<string, seq<TeamEntry>>, order: seq<string>)
    ensures Grouped(entries, groups, order)
  {
    groups := map[];
    order := [];
    var i := 0;
    while i < |entries|
      invariant 0 <= i <= |entries|
      invariant Grouped(entries[..i], groups, order)
    {
      GroupStep(entries, i, groups, order);
      var e := entries[i];
      if e.division in groups {
        groups := groups[e.division := groups[e.division] + [e]];
      } else {
        groups := groups[e.division := [e]];
        order := order + [e.division];
      }
      i := i + 1;
    }
    assert entries[..i] == entries;
  }

  /** Build one line per division in alphabetical order, then sort the
    * lines by average. */
  method BuildDivisionSummary(entries: seq<TeamEntry>) returns (summary: seq<DivisionLine>)
    ensures summary == DivisionSummary(entries)
  {
    var groups, order := GroupByDivision(entries);
    var lines := LinesOfGroups(entries, groups, order);
    summary := Sorting.Sort(lines, ByAverage());
  }

  /** One line per division, in alphabetical order of the division names. */
  method LinesOfGroups(entries: seq<TeamEntry>, groups: map<string, seq<TeamEntry>>, order: seq<string>)
    returns (lines: seq<DivisionLine>)
    requires Grouped(entries, groups, order)
    ensures lines == Lines(entries)
  {
    var ds := Sorting.SortStrings(order);
    assert ds == Divisions(entries);
    lines := [];
    var k := 0;
    while k < |ds|
      invariant 0 <= k <= |ds|
      invariant lines == Lines(entries)[..k]
    {
      LineStep(entries, groups, order, k, lines);
      lines := lines + [LineOf(ds[k], groups[ds[k]])];
      k := k + 1;
    }
    assert Lines(entries)[..k] == Lines(entries);
  }

  /** Appending the k-th division's line built from its group extends the
    * first k lines by one. */
  lemma LineStep(entries: seq<TeamEntry>, groups: map<string, seq<TeamEntry>>, order: seq<string>, k: nat, lines: seq<DivisionLine>)
    requires Grouped(entries, groups, order)
    requires k < |Divisions(entries)| && lines == Lines(entries)[..k]
    ensures Divisions(entries)[k] in groups
    ensures lines + [LineOf(Divisions(entries)[k], groups[Divisions(entries)[k]])] == Lines(entries)[..k + 1]
  {
    GroupLine(entries, groups, order, k);
    TakeOneMore(Lines(entries), k);
  }

  lemma TakeOneMore<T>(s: seq<T>, k: nat)
    requires k < |s|
    ensures s[..k + 1] == s[..k] + [s[k]]
  {
  }

  /** The k-th division in alphabetical order has a group, and its line
    * built from the group is the k-th line. */
  lemma GroupLine(entries: seq<TeamEntry>, groups: map<string, seq<TeamEntry>>, order: seq<string>, k: nat)
    requires Grouped(entries, groups, order)
    requires k < |Sorting.SortStrings(order)|
    ensures var d := Sorting.SortStrings(order)[k];
      d in groups && |groups[d]| > 0 && k < |Lines(entries)| && Lines(entries)[k] == LineOf(d, groups[d])
  {
    var ds := Sorting.SortStrings(order);
    assert ds == Divisions(entries);
    assert ds[k] in multiset(order);
    DivisionsHaveMembers(entries);
  }

  // What the division summary promises.

  /** Each line names a division that has clubs; its best and worst are
    * members of it; the best has the largest net WAR and comes first among
    * equals, the worst the smallest; and the average lies between them,
    * give or take the final rounding. */
  lemma LineFacts(entries: seq<TeamEntry>, d: string)
    requires d in DivisionSet(entries)
    ensures |Members(entries, d)| > 0
    ensures var ms := Members(entries, d);
      var l := LineOf(d, ms);
      (exists e :: e in ms && e.team == l.best && NetWar(e) == l.bestNetWar) &&
      (exists e :: e in ms && e.team == l.worst && NetWar(e) == l.worstNetWar) &&
      (forall e :: e in ms ==> l.worstNetWar <= NetWar(e) <= l.bestNetWar) &&
      l.worstNetWar - 0.05 <= l.avgNetWar <= l.bestNetWar + 0.05
  {
    var ms := Members(entries, d);
    var e :| e in entries && e.division == d;
    MembersSpec(entries, d, e);
    var b := BestIndex(ms);
    var w := WorstIndex(ms);
    assert ms[b] in ms && ms[w] in ms;
    forall x | x in ms ensures NetWar(ms[w]) <= NetWar(x) <= NetWar(ms[b]) {
      var j :| 0 <= j < |ms| && ms[j] == x;
    }
    MeanNetWithin(ms, NetWar(ms[w]), NetWar(ms[b]));
    RoundError(Sums.SumOf(ms, NetWar) / |ms| as real, 1);
  }

  lemma MeanNetWithin(ms: seq<TeamEntry>, lo: real, hi: real)
    requires |ms| > 0
    requires forall i :: 0 <= i < |ms| ==> lo <= NetWar(ms[i]) <= hi
    ensures lo <= Sums.SumOf(ms, NetWar) / |ms| as real <= hi
  {
    Sums.SumOfAtLeast(ms, NetWar, lo);
    Sums.SumOfAtMost(ms, NetWar, hi);
    Weighted.QuotientBetween(Sums.SumOf(ms, NetWar), |ms| as real, lo, hi);
  }

  /** The summary is ordered by average net WAR, largest first, and holds
    * one line per division that has clubs, each division once. */
  lemma SummaryOrdered(entries: seq<TeamEntry>)
    ensures Sorting.SortedBy(DivisionSummary(entries), ByAverage())
    ensures multiset(DivisionSummary(entries)) == multiset(Lines(entries))
    ensures (set l | l in DivisionSummary(entries) :: l.division) == DivisionSet(entries)
    ensures |DivisionSummary(entries)| == |DivisionSet(entries)|
  {
    Sorting.ByKeyDescPreorder((l: DivisionLine) => l.avgNetWar);
    Sorting.SortSorted(Lines(entries), ByAverage());
    LinesCoverDivisions(entries);
    var ls := Lines(entries);
    forall l | l in DivisionSummary(entries)
      ensures l.division in DivisionSet(entries)
    {
      assert l in multiset(ls);
    }
    forall d | d in DivisionSet(entries)
      ensures d in (set l | l in DivisionSummary(entries) :: l.division)
    {
      var k :| 0 <= k < |ls| && ls[k].division == d;
      assert ls[k] in multiset(DivisionSummary(entries));
    }
  }

  /** The alphabetical lines name exactly the divisions that have clubs,
    * one line each. */
  lemma LinesCoverDivisions(entries: seq<TeamEntry>)
    ensures forall l :: l in Lines(entries) ==> l.division in DivisionSet(entries)
    ensures forall d :: d in DivisionSet(entries) ==> exists k :: 0 <= k < |Lines(entries)| && Lines(entries)[k].division == d
    ensures |Lines(entries)| == |DivisionSet(entries)|
  {
    FirstSeenSpec(entries);
    LinesNameDivisions(entries);
    DivisionsListed(entries);
    Sorting.DistinctCard(FirstSeen(entries));
    assert (set x | x in FirstSeen(entries)) == DivisionSet(entries);
  }

  lemma LinesNameDivisions(entries: seq<TeamEntry>)
    ensures forall l :: l in Lines(entries) ==> l.division in DivisionSet(entries)
  {
    FirstSeenSpec(entries);
    var ls := Lines(entries);
    forall l | l in ls ensures l.division in DivisionSet(entries) {
      var k :| 0 <= k < |ls| && ls[k] == l;
      assert Divisions(entries)[k] in multiset(FirstSeen(entries));
    }
  }

  lemma DivisionsListed(entries: seq<TeamEntry>)
    ensures forall d :: d in DivisionSet(entries) ==> exists k :: 0 <= k < |Lines(entries)| && Lines(entries)[k].division == d
  {
    FirstSeenSpec(entries);
    var ds := Divisions(entries);
    var ls := Lines(entries);
    forall d | d in DivisionSet(entries)
      ensures exists k :: 0 <= k < |ls| && ls[k].division == d
    {
      assert d in multiset(ds);
      var k :| 0 <= k < |ds| && ds[k] == d;
      assert ls[k].division == d;
    }
  }

  // The report.

  /** The clubs in the order the summary dict yields them: the order of
    * the division table's rows. */
  function InOrder(teams: map<string, TeamEntry>, order: seq<string>): (es: seq<TeamEntry>)
    requires forall t :: t in order ==> t in teams
    ensures |es| == |order| && forall i :: 0 <= i < |order| ==> es[i] == teams[order[i]]
  {
    seq(|order|, i requires 0 <= i < |order| => teams[order[i]])
  }

  /** The written summary: the transaction count, the clubs by net WAR
    * (largest first, ties in table order) and the division roll-up. */
  datatype Report = Report(transactionCount: nat, teams: seq<TeamEntry>, divisions: seq<DivisionLine>)

  function ByNet(): (TeamEntry, TeamEntry) -> bool
  {
    Sorting.ByKeyDesc(NetWar)
  }

  /** Summarise the clubs, roll them up by division, and list the clubs by
    * net WAR. `order` lists the clubs of the division table in row order. */
  method BuildReport(tab: Tables, order: seq<string>, rows: seq<Txn>, hasBlended: bool) returns (report: Report)
    requires Covers(tab)
    requires forall t :: t in order <==> t in tab.division
    ensures report.transactionCount == |rows|
    ensures |report.teams| == |order|
    ensures Sorting.SortedBy(report.teams, ByNet())
    ensures forall t :: t in tab.division ==> TeamSummary(tab, rows, hasBlended)[t] in report.teams
    ensures report.divisions == DivisionSummary(InOrder(TeamSummary(tab, rows, hasBlended), order))
  {
    var teams := BuildTeamSummary(tab, rows, hasBlended);
    var entries := InOrder(teams, order);
    var divisions := BuildDivisionSummary(entries);
    Sorting.ByKeyDescPreorder(NetWar);
    Sorting.SortSorted(entries, ByNet());
    var sorted := Sorting.Sort(entries, ByNet());
    forall t | t in tab.division ensures teams[t] in sorted {
      var i :| 0 <= i < |order| && order[i] == t;
      assert entries[i] == teams[t];
      assert teams[t] in multiset(sorted);
    }
    report := Report(|rows|, sorted, divisions);
  }
}
