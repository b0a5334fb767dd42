/** Injured-list impact: the injured players of each club's 40-man roster,
  * their FanGraphs WAR (current season first, prior season as fallback),
  * and the rating penalty for the positive WAR a club has lost. The roster
  * feed, the WAR tables and the id cross-reference arrive as inputs. */
module Injury {
  import opened Wrappers
  import opened Sums
  import opened Sorting
  import opened Rounding
  import opened TeamCodes
  import opened PairTables

  /** Rating points per win above replacement lost, the configured default. */
  const INJURY_WAR_TO_ELO: real := 5.5

  // Substring test, as Python's `in` on strings.

  function Contains(s: string, sub: string): bool
    decreases |s|
  {
    if |sub| > |s| then false
    else if s[..|sub|] == sub then true
    else Contains(s[1..], sub)
  }

  predicate OccursAt(s: string, sub: string, i: int)
  {
    0 <= i <= |s| - |sub| && s[i..i + |sub|] == sub
  }

  /** `Contains` finds `sub` exactly when it occurs at some position. */
  lemma {:induction false} ContainsOccurs(s: string, sub: string)
    ensures Contains(s, sub) <==> exists i :: OccursAt(s, sub, i)
    decreases |s|
  {
    if |sub| <= |s| && s[..|sub|] != sub {
      ContainsOccurs(s[1..], sub);
      if exists i :: OccursAt(s, sub, i) {
        var i :| OccursAt(s, sub, i);
        assert i != 0;
        assert s[1..][i - 1..i - 1 + |sub|] == sub;
        assert OccursAt(s[1..], sub, i - 1);
      }
      if exists i :: OccursAt(s[1..], sub, i) {
        var i :| OccursAt(s[1..], sub, i);
        assert s[i + 1..i + 1 + |sub|] == sub;
        assert OccursAt(s, sub, i + 1);
      }
    } else if |sub| <= |s| {
      assert OccursAt(s, sub, 0);
    }
  }

  // The injured list of one roster.

  /** A 40-man roster row; `status` is the status description, "" when the
    * feed gives none. */
  datatype RosterEntry = RosterEntry(mlbId: int, fullName: string, position: string, status: string)

  datatype IlPlayer = IlPlayer(mlbId: int, name: string, position: string, ilType: string, isPitcher: bool)

  predicate Injured(e: RosterEntry)
  {
    Contains(e.status, "Injured")
  }

  function ToIlPlayer(e: RosterEntry): IlPlayer
  {
    IlPlayer(e.mlbId, e.fullName, e.position, e.status, e.position == "P")
  }

  function IlPlayers(roster: seq<RosterEntry>): seq<IlPlayer>
  {
    if |roster| == 0 then []
    else
      var init := IlPlayers(roster[..|roster| - 1]);
      var e := roster[|roster| - 1];
      if Injured(e) then init + [ToIlPlayer(e)] else init
  }

  /** The injured list holds exactly the injured roster rows, in roster
    * order: each marked a pitcher iff listed at position P. */
  lemma {:induction false} IlPlayersExact(roster: seq<RosterEntry>)
    ensures forall p :: p in IlPlayers(roster) <==> exists e :: e in roster && Injured(e) && p == ToIlPlayer(e)
    ensures forall p :: p in IlPlayers(roster) ==> Contains(p.ilType, "Injured") && (p.isPitcher <==> p.position == "P")
    ensures |IlPlayers(roster)| <= |roster|
    decreases |roster|
  {
    if |roster| > 0 {
      var init := roster[..|roster| - 1];
      IlPlayersExact(init);
      assert roster == init + [roster[|roster| - 1]];
    }
  }

  /** The roster loop of `fetch_il_rosters`. */
  method CollectIlPlayers(roster: seq<RosterEntry>) returns (il: seq<IlPlayer>)
    ensures il == IlPlayers(roster)
  {
    il := [];
    var i := 0;
    while i < |roster|
      invariant 0 <= i <= |roster|
      invariant il == IlPlayers(roster[..i])
    {
      assert roster[..i + 1][..i] == roster[..i];
      var e := roster[i];
      if Contains(e.status, "Injured") {
        il := il + [ToIlPlayer(e)];
      }
      i := i + 1;
    }
    assert roster[..i] == roster;
  }

  // The injured lists of all clubs.

  /** A club from the teams feed with its roster, `None` when fetching the
    * roster failed. */
  datatype TeamRoster = TeamRoster(teamId: int, abbreviation: string, roster: Option<seq<RosterEntry>>)

  /** The canonical code of a club, else the feed's own abbreviation. */
  function TeamAbbr(t: TeamRoster): string
  {
    if t.teamId in TeamIdToAbbr() then TeamIdToAbbr()[t.teamId] else t.abbreviation
  }

  function ByAbbr(): (le: (TeamRoster, TeamRoster) -> bool)
  {
    (a: TeamRoster, b: TeamRoster) => LexLe(TeamAbbr(a), TeamAbbr(b))
  }

  /** The dict the roster loop fills, visiting `teams` in order. */
  function IlRosters(teams: seq<TeamRoster>): map<string, seq<IlPlayer>>
  {
    if |teams| == 0 then map[]
    else
      var m := IlRosters(teams[..|teams| - 1]);
      var t := teams[|teams| - 1];
      if t.roster.Some? && IlPlayers(t.roster.value) != [] then m[TeamAbbr(t) := IlPlayers(t.roster.value)] else m
  }

  /** Every listed club has a non-empty injured list, taken from a fetched
    * roster of a club with that code. */
  lemma {:induction false} IlRostersFromFeed(teams: seq<TeamRoster>)
    ensures forall k :: k in IlRosters(teams) ==>
      (IlRosters(teams)[k] != [] &&
       exists t :: t in teams && TeamAbbr(t) == k && t.roster.Some? && IlRosters(teams)[k] == IlPlayers(t.roster.value))
    decreases |teams|
  {
    if |teams| > 0 {
      var init := teams[..|teams| - 1];
      IlRostersFromFeed(init);
      forall k | k in IlRosters(teams)
        ensures exists t :: t in teams && TeamAbbr(t) == k && t.roster.Some? && IlRosters(teams)[k] == IlPlayers(t.roster.value)
      {
        var last := teams[|teams| - 1];
        if !(last.roster.Some? && IlPlayers(last.roster.value) != [] && TeamAbbr(last) == k) {
          assert k in IlRosters(init) && IlRosters(teams)[k] == IlRosters(init)[k];
          var t :| t in init && TeamAbbr(t) == k && t.roster.Some? && IlRosters(init)[k] == IlPlayers(t.roster.value);
          assert t in teams;
        }
      }
    }
  }

  /** A club whose fetched roster has injured players, and whose code no
    * other club shares, is listed with that injured list. */
  lemma {:induction false} IlRostersComplete(teams: seq<TeamRoster>, i: nat)
    requires i < |teams| && teams[i].roster.Some? && IlPlayers(teams[i].roster.value) != []
    requires forall j :: 0 <= j < |teams| && j != i ==> TeamAbbr(teams[j]) != TeamAbbr(teams[i])
    ensures TeamAbbr(teams[i]) in IlRosters(teams)
    ensures IlRosters(teams)[TeamAbbr(teams[i])] == IlPlayers(teams[i].roster.value)
    decreases |teams|
  {
    if i < |teams| - 1 {
      IlRostersComplete(teams[..|teams| - 1], i);
    }
  }

  /** The roster loop of `fetch_il_rosters`: failed fetches and clubs
    * without injured players are skipped. */
  method CollectIlRosters(teams: seq<TeamRoster>) returns (ilRosters: map<string, seq<IlPlayer>>)
    ensures ilRosters == IlRosters(teams)
  {
    ilRosters := map[];
    var i := 0;
    while i < |teams|
      invariant 0 <= i <= |teams|
      invariant ilRosters == IlRosters(teams[..i])
    {
      assert teams[..i + 1][..i] == teams[..i];
      var t := teams[i];
      if t.roster.Some? {
        var il := CollectIlPlayers(t.roster.value);
        if il != [] {
          ilRosters := ilRosters[TeamAbbr(t) := il];
        }
      }
      i := i + 1;
    }
    assert teams[..i] == teams;
  }

  /** `fetch_il_rosters`: the clubs in code order. */
  method FetchIlRosters(teams: seq<TeamRoster>) returns (ilRosters: map<string, seq<IlPlayer>>)
    ensures ilRosters == IlRosters(Sort(teams, ByAbbr()))
  {
    ilRosters := CollectIlRosters(Sort(teams, ByAbbr()));
  }

  // WAR lookups.

  function Max(a: real, b: real): real { if a >= b then a else b }

  /** The merged WAR of one id: the larger of batting and pitching WAR when
    * both exist, else whichever exists. */
  function MergeWar(bat: map<int, real>, pit: map<int, real>): (fg: map<int, real>)
    ensures fg.Keys == bat.Keys + pit.Keys
  {
    map id | id in bat.Keys + pit.Keys :: MergedAt(bat, pit, id)
  }

  function MergedAt(bat: map<int, real>, pit: map<int, real>, id: int): real
    requires id in bat || id in pit
  {
    if id in bat && id in pit then Max(bat[id], pit[id]) else if id in bat then bat[id] else pit[id]
  }

  /** The merged value is one of the two values and no smaller than either. */
  lemma MergeWarIsMax(bat: map<int, real>, pit: map<int, real>, id: int)
    requires id in bat || id in pit
    ensures id in MergeWar(bat, pit)
    ensures id in bat ==> MergeWar(bat, pit)[id] >= bat[id]
    ensures id in pit ==> MergeWar(bat, pit)[id] >= pit[id]
    ensures (id in bat && MergeWar(bat, pit)[id] == bat[id]) || (id in pit && MergeWar(bat, pit)[id] == pit[id])
  {
  }

  predicate MergedSoFar(bat: map<int, real>, pit: map<int, real>, fg: map<int, real>)
  {
    forall id :: id in fg ==> (id in bat || id in pit) && fg[id] == MergedAt(bat, pit, id)
  }

  lemma MergeComplete(bat: map<int, real>, pit: map<int, real>, fg: map<int, real>)
    requires MergedSoFar(bat, pit, fg) && fg.Keys == bat.Keys + pit.Keys
    ensures fg == MergeWar(bat, pit)
  {
  }

  /** The merge loop of `build_war_lookup`, over the ids of both tables
    * (an id in both is visited twice, and stored with the same value). */
  method MergeWarLoop(bat: map<int, real>, pit: map<int, real>, ids: seq<int>) returns (fg: map<int, real>)
    requires forall id :: id in ids <==> id in bat || id in pit
    ensures fg == MergeWar(bat, pit)
  {
    fg := map[];
    var i := 0;
    while i < |ids|
      invariant 0 <= i <= |ids|
      invariant forall id :: id in fg <==> id in ids[..i]
      invariant MergedSoFar(bat, pit, fg)
    {
      var id := ids[i];
      var w: real;
      if id in bat && id in pit {
        w := Max(bat[id], pit[id]);
      } else if id in bat {
        w := bat[id];
      } else {
        w := pit[id];
      }
      assert ids[..i + 1] == ids[..i] + [id];
      fg := fg[id := w];
      i := i + 1;
    }
    assert ids[..i] == ids;
    forall id ensures id in fg.Keys <==> id in bat.Keys + pit.Keys {
      assert id in fg <==> id in ids;
    }
    MergeComplete(bat, pit, fg);
  }

  /** The ids of a WAR table, in row order. */
  function RowIds(rows: seq<(int, real)>): (ids: seq<int>)
    ensures |ids| == |rows| && forall i :: 0 <= i < |rows| ==> ids[i] == KeyAt(rows, i)
  {
    seq(|rows|, i requires 0 <= i < |rows| => rows[i].0)
  }

  /** The ids of a table are the keys of the dict built from it. */
  lemma RowIdsAreKeys(rows: seq<(int, real)>)
    ensures forall id :: id in RowIds(rows) <==> id in PairsToMap(rows)
  {
    forall id | id in PairsToMap(rows) ensures id in RowIds(rows) {
      var i :| 0 <= i < |rows| && rows[i].0 == id;
      assert RowIds(rows)[i] == id;
    }
  }

  /** A WAR table as `dict(zip(ids, war))` builds it: the last row of an id
    * wins; a table that failed to load is empty. */
  function WarTable(rows: Option<seq<(int, real)>>): map<int, real>
  {
    PairsToMap(rows.GetOr([]))
  }

  /** `build_war_lookup`, for the current and the prior season. */
  method BuildWarLookup(bat: Option<seq<(int, real)>>, pit: Option<seq<(int, real)>>,
                        batPrev: Option<seq<(int, real)>>, pitPrev: Option<seq<(int, real)>>)
    returns (fgWar: map<int, real>, fgWarPrev: map<int, real>)
    ensures fgWar == MergeWar(WarTable(bat), WarTable(pit))
    ensures fgWarPrev == MergeWar(WarTable(batPrev), WarTable(pitPrev))
  {
    RowIdsAreKeys(bat.GetOr([]));
    RowIdsAreKeys(pit.GetOr([]));
    RowIdsAreKeys(batPrev.GetOr([]));
    RowIdsAreKeys(pitPrev.GetOr([]));
    fgWar := MergeWarLoop(WarTable(bat), WarTable(pit), RowIds(bat.GetOr([])) + RowIds(pit.GetOr([])));
    fgWarPrev := MergeWarLoop(WarTable(batPrev), WarTable(pitPrev),
                              RowIds(batPrev.GetOr([])) + RowIds(pitPrev.GetOr([])));
  }

  /** A row of the id cross-reference; `fangraphs` is `None` when missing. */
  datatype XrefRow = XrefRow(mlbam: int, fangraphs: Option<int>)

  predicate UsableFangraphsId(r: XrefRow)
  {
    r.fangraphs.Some? && r.fangraphs.value != 0 && r.fangraphs.value != -1
  }

  function CrossRef(rows: seq<XrefRow>): map<int, int>
  {
    if |rows| == 0 then map[]
    else
      var m := CrossRef(rows[..|rows| - 1]);
      var r := rows[|rows| - 1];
      if UsableFangraphsId(r) then m[r.mlbam := r.fangraphs.value] else m
  }

  /** Every mapped id comes from a row whose FanGraphs id is neither falsy
    * nor -1. */
  lemma {:induction false} CrossRefUsable(rows: seq<XrefRow>)
    ensures forall k :: k in CrossRef(rows) ==>
      (CrossRef(rows)[k] != 0 && CrossRef(rows)[k] != -1 &&
       exists r :: r in rows && UsableFangraphsId(r) && r.mlbam == k && r.fangraphs.value == CrossRef(rows)[k])
    decreases |rows|
  {
    if |rows| > 0 {
      var init := rows[..|rows| - 1];
      CrossRefUsable(init);
      forall k | k in CrossRef(rows)
        ensures exists r :: r in rows && UsableFangraphsId(r) && r.mlbam == k && r.fangraphs.value == CrossRef(rows)[k]
      {
        var last := rows[|rows| - 1];
        if !(UsableFangraphsId(last) && last.mlbam == k) {
          assert k in CrossRef(init) && CrossRef(rows)[k] == CrossRef(init)[k];
          var r :| r in init && UsableFangraphsId(r) && r.mlbam == k && r.fangraphs.value == CrossRef(init)[k];
          assert r in rows;
        }
      }
    }
  }

  /** `_crossref_ids`: no lookup at all for an empty id set. */
  method CrossrefIds(mlbIds: set<int>, lookup: seq<XrefRow>) returns (mapping: map<int, int>)
    ensures mlbIds == {} ==> mapping == map[]
    ensures mlbIds != {} ==> mapping == CrossRef(lookup)
  {
    if mlbIds == {} {
      return map[];
    }
    mapping := map[];
    var i := 0;
    while i < |lookup|
      invariant 0 <= i <= |lookup|
      invariant mapping == CrossRef(lookup[..i])
    {
      assert lookup[..i + 1][..i] == lookup[..i];
      var r := lookup[i];
      if r.fangraphs.Some? && r.fangraphs.value != 0 && r.fangraphs.value != -1 {
        mapping := mapping[r.mlbam := r.fangraphs.value];
      }
      i := i + 1;
    }
    assert lookup[..i] == lookup;
  }

  // Adjustments.

  datatype WarSource = Current | PriorYear | Unknown

  /** Current-season WAR first, then prior-season WAR, else unknown. */
  function LookupWar(fgId: Option<int>, cur: map<int, real>, prev: map<int, real>): (r: (Option<real>, WarSource))
    ensures r.1 == Current <==> fgId.Some? && fgId.value in cur
    ensures r.1 == PriorYear <==> fgId.Some? && fgId.value !in cur && fgId.value in prev
    ensures r.1 == Current ==> r.0 == Some(cur[fgId.value])
    ensures r.1 == PriorYear ==> r.0 == Some(prev[fgId.value])
    ensures r.1 == Unknown ==> r.0 == None
  {
    if fgId.Some? && fgId.value in cur then (Some(cur[fgId.value]), Current)
    else if fgId.Some? && fgId.value in prev then (Some(prev[fgId.value]), PriorYear)
    else (None, Unknown)
  }

  /** Only positive WAR counts as lost. */
  function WarImpact(war: Option<real>): (r: real)
    ensures r >= 0.0
    ensures war.Some? && war.value >= 0.0 ==> r == war.value
    ensures war.None? || war.value <= 0.0 ==> r == 0.0
  {
    if war.Some? then Max(war.value, 0.0) else 0.0
  }

  function FgId(idMap: map<int, int>, p: IlPlayer): Option<int>
  {
    if p.mlbId in idMap then Some(idMap[p.mlbId]) else None
  }

  function PlayerImpact(idMap: map<int, int>, cur: map<int, real>, prev: map<int, real>): IlPlayer -> real
  {
    (p: IlPlayer) => WarImpact(LookupWar(FgId(idMap, p), cur, prev).0)
  }

  function WarLost(players: seq<IlPlayer>, idMap: map<int, int>, cur: map<int, real>, prev: map<int, real>): real
  {
    SumOf(players, PlayerImpact(idMap, cur, prev))
  }

  lemma WarLostNonNegative(players: seq<IlPlayer>, idMap: map<int, int>, cur: map<int, real>, prev: map<int, real>)
    ensures WarLost(players, idMap, cur, prev) >= 0.0
  {
    SumOfNonNegative(players, PlayerImpact(idMap, cur, prev));
  }

  datatype PlayerDetail = PlayerDetail(name: string, war: Option<real>, warSource: WarSource, position: string, ilType: string)

  function Detail(p: IlPlayer, idMap: map<int, int>, cur: map<int, real>, prev: map<int, real>): PlayerDetail
  {
    var (war, source) := LookupWar(FgId(idMap, p), cur, prev);
    PlayerDetail(p.name, if war.Some? then Some(Round(war.value, 1)) else None, source, p.position, p.ilType)
  }

  /** The rating change for the WAR a club has lost. */
  function EloPenalty(warLost: real, warToElo: real): (r: real)
    ensures warLost >= 0.0 && warToElo >= 0.0 ==> r <= 0.0
    ensures warToElo > 0.0 ==> (r == 0.0 <==> warLost == 0.0)
  {
    -1.0 * warLost * warToElo
  }

  datatype TeamAdjustment = TeamAdjustment(team: string, eloAdjustment: real, warLost: real, ilCount: int,
                                           players: seq<PlayerDetail>)

  function TeamAdjustmentOf(abbr: string, players: seq<IlPlayer>, idMap: map<int, int>, cur: map<int, real>,
                            prev: map<int, real>, warToElo: real): (r: TeamAdjustment)
    ensures r.team == abbr && r.ilCount == |players| && |r.players| == |players|
  {
    var lost := WarLost(players, idMap, cur, prev);
    TeamAdjustment(abbr, Round(EloPenalty(lost, warToElo), 1), Round(lost, 1), |players|,
      seq(|players|, i requires 0 <= i < |players| => Detail(players[i], idMap, cur, prev)))
  }

  /** A club's adjustment is a penalty: its rounded WAR lost is non-negative,
    * and its rating change is non-positive for a non-negative conversion
    * rate; it counts every injured player. */
  lemma AdjustmentIsPenalty(abbr: string, players: seq<IlPlayer>, idMap: map<int, int>, cur: map<int, real>,
                            prev: map<int, real>, warToElo: real)
    requires warToElo >= 0.0
    ensures TeamAdjustmentOf(abbr, players, idMap, cur, prev, warToElo).warLost >= 0.0
    ensures TeamAdjustmentOf(abbr, players, idMap, cur, prev, warToElo).eloAdjustment <= 0.0
    ensures TeamAdjustmentOf(abbr, players, idMap, cur, prev, warToElo).ilCount == |players|
  {
    var lost := WarLost(players, idMap, cur, prev);
    WarLostNonNegative(players, idMap, cur, prev);
    RoundSign(lost, 1);
    RoundSign(EloPenalty(lost, warToElo), 1);
  }

  /** The per-club body of `compute_injury_adjustments`. */
  method TeamAdjustmentFor(abbr: string, players: seq<IlPlayer>, idMap: map<int, int>, cur: map<int, real>,
                           prev: map<int, real>, warToElo: real) returns (adj: TeamAdjustment)
    ensures adj == TeamAdjustmentOf(abbr, players, idMap, cur, prev, warToElo)
  {
    var total := 0.0;
    var details: seq<PlayerDetail> := [];
    var i := 0;
    while i < |players|
      invariant 0 <= i <= |players|
      invariant total == SumOf(players[..i], PlayerImpact(idMap, cur, prev))
      invariant |details| == i && forall j :: 0 <= j < i ==> details[j] == Detail(players[j], idMap, cur, prev)
    {
      var p := players[i];
      var fgId := if p.mlbId in idMap then Some(idMap[p.mlbId]) else None;
      var war: Option<real> := None;
      var source := Unknown;
      if fgId.Some? {
        if fgId.value in cur {
          war := Some(cur[fgId.value]);
          source := Current;
        } else if fgId.value in prev {
          war := Some(prev[fgId.value]);
          source := PriorYear;
        }
      }
      var impact := if war.Some? then Max(war.value, 0.0) else 0.0;
      SumOfStep(players, PlayerImpact(idMap, cur, prev), i);
      total := total + impact;
      details := details + [PlayerDetail(p.name, if war.Some? then Some(Round(war.value, 1)) else None,
                                         source, p.position, p.ilType)];
      i := i + 1;
    }
    assert players[..i] == players;
    assert details == seq(|players|, j requires 0 <= j < |players| => Detail(players[j], idMap, cur, prev));
    assert total == WarLost(players, idMap, cur, prev);
    var eloAdj := EloPenalty(total, warToElo);
    adj := TeamAdjustment(abbr, Round(eloAdj, 1), Round(total, 1), |players|, details);
  }

  /** `compute_injury_adjustments`: one adjustment per listed club, in code
    * order; a missing rate means the configured default. */
  method ComputeInjuryAdjustments(ilRosters: map<string, seq<IlPlayer>>, cur: map<int, real>, prev: map<int, real>,
                                  idMap: map<int, int>, warToElo: Option<real>)
    returns (adjs: seq<TeamAdjustment>)
    ensures |adjs| == |ilRosters|
    ensures forall k :: k in ilRosters <==> exists i :: 0 <= i < |adjs| && adjs[i].team == k
    ensures forall i, j :: 0 <= i < j < |adjs| ==> LexLe(adjs[i].team, adjs[j].team) && adjs[i].team != adjs[j].team
    ensures forall i :: 0 <= i < |adjs| ==>
      (adjs[i].team in ilRosters &&
       adjs[i] == TeamAdjustmentOf(adjs[i].team, ilRosters[adjs[i].team], idMap, cur, prev,
                                   warToElo.GetOr(INJURY_WAR_TO_ELO)))
  {
    var rate := if warToElo.None? then INJURY_WAR_TO_ELO else warToElo.value;
    var teams := SortedKeys(ilRosters);
    DistinctFromSet(teams, ilRosters.Keys);
    adjs := AdjustmentsFor(teams, ilRosters, cur, prev, idMap, rate);
    assert forall i :: 0 <= i < |adjs| ==> adjs[i].team == teams[i];
    forall k | k in ilRosters ensures exists i :: 0 <= i < |adjs| && adjs[i].team == k {
      var i :| 0 <= i < |teams| && teams[i] == k;
      assert adjs[i].team == k;
    }
  }

  /** The adjustments of the clubs `teams`, in that order. */
  method AdjustmentsFor(teams: seq<string>, ilRosters: map<string, seq<IlPlayer>>, cur: map<int, real>,
                        prev: map<int, real>, idMap: map<int, int>, rate: real)
    returns (adjs: seq<TeamAdjustment>)
    requires forall i :: 0 <= i < |teams| ==> teams[i] in ilRosters
    ensures |adjs| == |teams|
    ensures forall i :: 0 <= i < |teams| ==>
      adjs[i] == TeamAdjustmentOf(teams[i], ilRosters[teams[i]], idMap, cur, prev, rate)
  {
    adjs := [];
    var i := 0;
    while i < |teams|
      invariant 0 <= i <= |teams|
      invariant |adjs| == i
      invariant forall j :: 0 <= j < i ==>
        adjs[j] == TeamAdjustmentOf(teams[j], ilRosters[teams[j]], idMap, cur, prev, rate)
    {
      var adj := TeamAdjustmentFor(teams[i], ilRosters[teams[i]], idMap, cur, prev, rate);
      adjs := adjs + [adj];
      i := i + 1;
    }
  }

  /** A value at two positions of a sequence occurs twice in its multiset. */
  lemma TwiceCounted<T>(s: seq<T>, i: nat, j: nat)
    requires i < j < |s|
    ensures s[i] == s[j] ==> multiset(s)[s[i]] >= 2
  {
    var rest := s[..i] + s[i + 1..];
    assert s == s[..i] + [s[i]] + s[i + 1..];
    assert rest[j - 1] == s[j];
    assert multiset(s) == multiset(rest) + multiset{s[i]};
  }

  /** A sequence with the multiset of a set lists each element once. */
  lemma DistinctFromSet<T>(s: seq<T>, keys: set<T>)
    requires multiset(s) == multiset(keys)
    ensures |s| == |keys|
    ensures forall i, j :: 0 <= i < j < |s| ==> s[i] != s[j]
    ensures forall i :: 0 <= i < |s| ==> s[i] in keys
    ensures forall k :: k in keys ==> exists i :: 0 <= i < |s| && s[i] == k
  {
    forall i, j | 0 <= i < j < |s| ensures s[i] != s[j] {
      TwiceCounted(s, i, j);
      assert multiset(keys)[s[i]] <= 1;
    }
    forall i | 0 <= i < |s| ensures s[i] in keys {
      assert s[i] in multiset(s);
    }
    forall k | k in keys ensures exists i :: 0 <= i < |s| && s[i] == k {
      assert k in multiset(s);
    }
    assert |multiset(s)| == |s|;
    assert |multiset(keys)| == |keys|;
  }

  /** Every id of an injured player, as the top-level function collects them. */
  function AllIds(ilRosters: map<string, seq<IlPlayer>>): set<int>
  {
    set k, p | k in ilRosters && p in ilRosters[k] :: p.mlbId
  }

  /** `fetch_injury_elo_adjustments` with the fetched inputs and the default
    * rate. */
  method FetchInjuryEloAdjustments(teams: seq<TeamRoster>, bat: Option<seq<(int, real)>>, pit: Option<seq<(int, real)>>,
                                   batPrev: Option<seq<(int, real)>>, pitPrev: Option<seq<(int, real)>>,
                                   lookup: seq<XrefRow>)
    returns (adjs: seq<TeamAdjustment>)
    ensures |adjs| == |IlRosters(Sort(teams, ByAbbr()))|
    ensures forall i :: 0 <= i < |adjs| ==> adjs[i].eloAdjustment <= 0.0 && adjs[i].warLost >= 0.0
  {
    var ilRosters := FetchIlRosters(teams);
    var fgWar, fgWarPrev := BuildWarLookup(bat, pit, batPrev, pitPrev);
    var idMap := CrossrefIds(AllIds(ilRosters), lookup);
    adjs := ComputeInjuryAdjustments(ilRosters, fgWar, fgWarPrev, idMap, None);
    forall i | 0 <= i < |adjs| ensures adjs[i].eloAdjustment <= 0.0 && adjs[i].warLost >= 0.0 {
      AdjustmentIsPenalty(adjs[i].team, ilRosters[adjs[i].team], idMap, fgWar, fgWarPrev, INJURY_WAR_TO_ELO);
    }
  }
}
