/** The injury-impact script: the injured players of each club on a date,
  * their WAR (current season first, prior season as fallback), and per
  * club the WAR lost, split into pitchers and position players. The
  * roster feed, the WAR tables and the id cross-reference are inputs. */
module InjuryImpact {
  import opened Wrappers
  import opened Sums
  import opened Rounding
  import Sorting
  import Injury

  // WAR lookup.

  /** The four WAR tables, keyed by FanGraphs id. */
  datatype WarTables = WarTables(bat: map<int, real>, pit: map<int, real>,
                                 batPrev: map<int, real>, pitPrev: map<int, real>)

  function Get(m: map<int, real>, k: int): Option<real>
  {
    if k in m then Some(m[k]) else None
  }

  /** `x or 0.0` for a WAR value that may be missing. */
  function OrZero(x: Option<real>): real
  {
    if x.Some? then x.value else 0.0
  }

  /** One season of `lookup_war`: the larger of the two values taken with
    * missing as 0; a zero result falls back to the larger of both values
    * when both exist, else to the one that exists. */
  function SeasonWar(b: Option<real>, p: Option<real>): Option<real>
  {
    if b.None? && p.None? then None
    else
      var war := Injury.Max(OrZero(b), OrZero(p));
      if war == 0.0 && b.Some? && p.Some? then Some(Injury.Max(b.value, p.value))
      else if war == 0.0 then Some(if b.Some? then b.value else p.value)
      else Some(war)
  }

  /** However it is computed, one season's WAR is the larger of the values
    * that exist: negative values are kept when nothing larger exists. */
  lemma SeasonWarIsMax(b: Option<real>, p: Option<real>)
    ensures b.Some? && p.Some? ==> SeasonWar(b, p) == Some(Injury.Max(b.value, p.value))
    ensures b.Some? && p.None? ==> SeasonWar(b, p) == Some(b.value)
    ensures b.None? && p.Some? ==> SeasonWar(b, p) == Some(p.value)
    ensures b.None? && p.None? ==> SeasonWar(b, p) == None
  {
  }

  /** `lookup_war`: no id, no WAR; the current season when either table has
    * the id, else the prior season, else nothing. */
  function LookupWar(fgId: Option<int>, t: WarTables): (r: (Option<real>, Injury.WarSource))
    ensures r.0.None? <==> r.1 == Injury.Unknown
  {
    if fgId.None? then (None, Injury.Unknown)
    else
      var id := fgId.value;
      var cur := SeasonWar(Get(t.bat, id), Get(t.pit, id));
      if cur.Some? then (cur, Injury.Current)
      else
        var prev := SeasonWar(Get(t.batPrev, id), Get(t.pitPrev, id));
        if prev.Some? then (prev, Injury.PriorYear) else (None, Injury.Unknown)
  }

  /** The script's lookup agrees with the shared injury layer, which first
    * merges batting and pitching WAR per id and then looks the id up. */
  lemma LookupAgreesWithShared(fgId: Option<int>, t: WarTables)
    ensures LookupWar(fgId, t) == Injury.LookupWar(fgId, Injury.MergeWar(t.bat, t.pit), Injury.MergeWar(t.batPrev, t.pitPrev))
  {
    if fgId.Some? {
      var id := fgId.value;
      SeasonWarIsMax(Get(t.bat, id), Get(t.pit, id));
      SeasonWarIsMax(Get(t.batPrev, id), Get(t.pitPrev, id));
    }
  }

  // Per-club impact.

  /** A player's row of the players file. */
  datatype PlayerRow = PlayerRow(team: string, name: string, position: string, ilType: string, mlbId: int,
                                 fgId: Option<int>, war: Option<real>, warSource: Injury.WarSource,
                                 warImpact: real, isPitcher: bool)

  /** A club's row of the teams file. */
  datatype TeamImpact = TeamImpact(team: string, ilCount: nat, ilPitchers: nat, ilPosition: nat,
                                   totalWarLost: real, pitcherWarLost: real, positionWarLost: real,
                                   playersMapped: nat)

  function Lookup(idMap: map<int, int>, t: WarTables, p: Injury.IlPlayer): (Option<real>, Injury.WarSource)
  {
    LookupWar(Injury.FgId(idMap, p), t)
  }

  /** Only positive WAR counts as lost; unknown WAR counts as none. */
  function Impact(idMap: map<int, int>, t: WarTables): Injury.IlPlayer -> real
  {
    (p: Injury.IlPlayer) => Injury.WarImpact(Lookup(idMap, t, p).0)
  }

  function PitcherImpact(idMap: map<int, int>, t: WarTables): Injury.IlPlayer -> real
  {
    (p: Injury.IlPlayer) => if p.isPitcher then Injury.WarImpact(Lookup(idMap, t, p).0) else 0.0
  }

  function IsMapped(idMap: map<int, int>, t: WarTables): Injury.IlPlayer -> bool
  {
    (p: Injury.IlPlayer) => Lookup(idMap, t, p).0.Some?
  }

  predicate IsPitcher(p: Injury.IlPlayer) { p.isPitcher }
  predicate IsPosition(p: Injury.IlPlayer) { !p.isPitcher }

  function PlayerRowOf(abbr: string, idMap: map<int, int>, t: WarTables, p: Injury.IlPlayer): PlayerRow
  {
    var (war, source) := Lookup(idMap, t, p);
    PlayerRow(abbr, p.name, p.position, p.ilType, p.mlbId, Injury.FgId(idMap, p), war, source,
              Round(Injury.WarImpact(war), 1), p.isPitcher)
  }

  /** The club row: counts, and WAR lost in total, by pitchers and by
    * position players, each to one decimal. */
  function TeamImpactOf(abbr: string, players: seq<Injury.IlPlayer>, idMap: map<int, int>, t: WarTables): (r: TeamImpact)
    ensures r.team == abbr && r.ilCount == |players|
  {
    var total := SumOf(players, Impact(idMap, t));
    var pitchers := SumOf(players, PitcherImpact(idMap, t));
    TeamImpact(abbr, |players|, CountOf(players, IsPitcher), CountOf(players, IsPosition),
               Round(total, 1), Round(pitchers, 1), Round(total - pitchers, 1), CountOf(players, IsMapped(idMap, t)))
  }

  /** The number of players a test holds for. */
  function CountOf(s: seq<Injury.IlPlayer>, f: Injury.IlPlayer -> bool): nat
  {
    if |s| == 0 then 0 else CountOf(s[..|s| - 1], f) + (if f(s[|s| - 1]) then 1 else 0)
  }

  lemma {:induction false} CountOfBound(s: seq<Injury.IlPlayer>, f: Injury.IlPlayer -> bool)
    ensures CountOf(s, f) <= |s|
    decreases |s|
  {
    if |s| > 0 {
      CountOfBound(s[..|s| - 1], f);
    }
  }

  lemma {:induction false} CountsSplit(s: seq<Injury.IlPlayer>)
    ensures CountOf(s, IsPitcher) + CountOf(s, IsPosition) == |s|
    decreases |s|
  {
    if |s| > 0 {
      CountsSplit(s[..|s| - 1]);
    }
  }

  lemma {:induction false} PitcherPartBounded(s: seq<Injury.IlPlayer>, idMap: map<int, int>, t: WarTables)
    ensures 0.0 <= SumOf(s, PitcherImpact(idMap, t)) <= SumOf(s, Impact(idMap, t))
    decreases |s|
  {
    if |s| > 0 {
      PitcherPartBounded(s[..|s| - 1], idMap, t);
    }
  }

  /** A club's counts split into pitchers and position players; at most all
    * of them are mapped; the WAR its pitchers lost is part of the WAR the
    * club lost, neither is negative, and the position players' share is
    * the rest. */
  lemma TeamImpactSpec(abbr: string, players: seq<Injury.IlPlayer>, idMap: map<int, int>, t: WarTables)
    ensures var r := TeamImpactOf(abbr, players, idMap, t);
      r.ilPitchers + r.ilPosition == r.ilCount && r.playersMapped <= r.ilCount
    ensures 0.0 <= SumOf(players, PitcherImpact(idMap, t)) <= SumOf(players, Impact(idMap, t))
    ensures TeamImpactOf(abbr, players, idMap, t).positionWarLost ==
      Round(SumOf(players, Impact(idMap, t)) - SumOf(players, PitcherImpact(idMap, t)), 1)
  {
    CountsSplit(players);
    CountOfBound(players, IsMapped(idMap, t));
    PitcherPartBounded(players, idMap, t);
  }

  lemma CountOfStep(s: seq<Injury.IlPlayer>, f: Injury.IlPlayer -> bool, i: nat)
    requires i < |s|
    ensures CountOf(s[..i + 1], f) == CountOf(s[..i], f) + (if f(s[i]) then 1 else 0)
  {
    assert s[..i + 1][..i] == s[..i];
  }

  /** The inner loop of step 5 for one club: look each player up, add their
    * positive WAR to the club's totals, and write their row. */
  method TeamImpactFor(abbr: string, players: seq<Injury.IlPlayer>, idMap: map<int, int>, t: WarTables)
    returns (r: TeamImpact, rows: seq<PlayerRow>)
    ensures r == TeamImpactOf(abbr, players, idMap, t)
    ensures rows == PlayerRowsOf(abbr, players, idMap, t)
  {
    var total := 0.0;
    var pitcherLost := 0.0;
    var mapped := 0;
    rows := [];
    var i := 0;
    while i < |players|
      invariant 0 <= i <= |players|
      invariant total == SumOf(players[..i], Impact(idMap, t))
      invariant pitcherLost == SumOf(players[..i], PitcherImpact(idMap, t))
      invariant mapped == CountOf(players[..i], IsMapped(idMap, t))
      invariant rows == seq(i, j requires 0 <= j < i => PlayerRowOf(abbr, idMap, t, players[j]))
    {
      var p := players[i];
      SumOfStep(players, Impact(idMap, t), i);
      SumOfStep(players, PitcherImpact(idMap, t), i);
      CountOfStep(players, IsMapped(idMap, t), i);
      var (war, source) := LookupWar(Injury.FgId(idMap, p), t);
      var impact := 0.0;
      if war.Some? {
        mapped := mapped + 1;
        impact := Injury.Max(war.value, 0.0);
        total := total + impact;
        if p.isPitcher {
          pitcherLost := pitcherLost + impact;
        }
      }
      rows := rows + [PlayerRow(abbr, p.name, p.position, p.ilType, p.mlbId, Injury.FgId(idMap, p), war, source,
                                Round(impact, 1), p.isPitcher)];
      i := i + 1;
    }
    assert players[..i] == players;
    r := TeamImpact(abbr, |players|, CountOf(players, IsPitcher), CountOf(players, IsPosition),
                    Round(total, 1), Round(pitcherLost, 1), Round(total - pitcherLost, 1), mapped);
  }

  // The assessment.

  /** Largest WAR lost first. */
  function ByLost(): (le: (TeamImpact, TeamImpact) -> bool)
  {
    Sorting.ByKeyDesc((r: TeamImpact) => r.totalWarLost)
  }

  /** The club rows in club order, before the final sort. */
  function Impacts(teams: seq<string>, teamIl: map<string, seq<Injury.IlPlayer>>, idMap: map<int, int>, t: WarTables)
    : (rs: seq<TeamImpact>)
    requires forall i :: 0 <= i < |teams| ==> teams[i] in teamIl
    ensures |rs| == |teams|
  {
    seq(|teams|, i requires 0 <= i < |teams| => TeamImpactOf(teams[i], teamIl[teams[i]], idMap, t))
  }

  /** The clubs in ascending order of abbreviation, each once. */
  ghost predicate ClubOrder(teams: seq<string>, clubs: set<string>)
  {
    Sorting.SortedBy(teams, Sorting.StringLe()) && Sorting.Distinct(teams) && (forall x :: x in teams <==> x in clubs)
  }

  /** A club's rows of the players file, in injured-list order. */
  function PlayerRowsOf(abbr: string, players: seq<Injury.IlPlayer>, idMap: map<int, int>, t: WarTables)
    : (rows: seq<PlayerRow>)
    ensures |rows| == |players|
    ensures forall i :: 0 <= i < |rows| ==> rows[i].team == abbr && rows[i].mlbId == players[i].mlbId
  {
    seq(|players|, i requires 0 <= i < |players| => PlayerRowOf(abbr, idMap, t, players[i]))
  }

  /** The players file: each club's rows, clubs in the given order. */
  function AllPlayerRows(teams: seq<string>, teamIl: map<string, seq<Injury.IlPlayer>>, idMap: map<int, int>, t: WarTables)
    : seq<PlayerRow>
    requires forall i :: 0 <= i < |teams| ==> teams[i] in teamIl
  {
    if |teams| == 0 then []
    else
      var last := teams[|teams| - 1];
      AllPlayerRows(teams[..|teams| - 1], teamIl, idMap, t) + PlayerRowsOf(last, teamIl[last], idMap, t)
  }

  /** Every injured player of a club has one row in the players file. */
  lemma {:induction false} AllPlayerRowsCount(teams: seq<string>, teamIl: map<string, seq<Injury.IlPlayer>>,
                                              idMap: map<int, int>, t: WarTables)
    requires forall i :: 0 <= i < |teams| ==> teams[i] in teamIl
    ensures |AllPlayerRows(teams, teamIl, idMap, t)| == SizeOf(teams, teamIl)
    ensures forall r :: r in AllPlayerRows(teams, teamIl, idMap, t) ==> r.team in teams
    decreases |teams|
  {
    if |teams| > 0 {
      var init := teams[..|teams| - 1];
      AllPlayerRowsCount(init, teamIl, idMap, t);
      forall r | r in AllPlayerRows(teams, teamIl, idMap, t) ensures r.team in teams {
        if r !in AllPlayerRows(init, teamIl, idMap, t) {
          var rows := PlayerRowsOf(teams[|teams| - 1], teamIl[teams[|teams| - 1]], idMap, t);
          var k :| 0 <= k < |rows| && rows[k] == r;
        }
      }
    }
  }

  /** The number of injured players over the listed clubs. */
  function SizeOf(teams: seq<string>, teamIl: map<string, seq<Injury.IlPlayer>>): nat
    requires forall i :: 0 <= i < |teams| ==> teams[i] in teamIl
  {
    if |teams| == 0 then 0 else SizeOf(teams[..|teams| - 1], teamIl) + |teamIl[teams[|teams| - 1]]|
  }

  /** The club loop of step 5, over the clubs in the given order. */
  method ClubRows(teams: seq<string>, teamIl: map<string, seq<Injury.IlPlayer>>, idMap: map<int, int>, t: WarTables)
    returns (rows: seq<TeamImpact>, playerRows: seq<PlayerRow>)
    requires forall i :: 0 <= i < |teams| ==> teams[i] in teamIl
    ensures rows == Impacts(teams, teamIl, idMap, t)
    ensures playerRows == AllPlayerRows(teams, teamIl, idMap, t)
  {
    rows := [];
    playerRows := [];
    var i := 0;
    while i < |teams|
      invariant 0 <= i <= |teams|
      invariant rows == Impacts(teams[..i], teamIl, idMap, t)
      invariant playerRows == AllPlayerRows(teams[..i], teamIl, idMap, t)
    {
      var r, club := TeamImpactFor(teams[i], teamIl[teams[i]], idMap, t);
      assert teams[..i + 1][..i] == teams[..i];
      rows := rows + [r];
      playerRows := playerRows + club;
      i := i + 1;
    }
    assert teams[..i] == teams;
  }

  /** Step 5 and the sort: a row per club in abbreviation order, then the
    * rows by rounded WAR lost, largest first, ties in club order; and a
    * row per injured player, clubs in abbreviation order. */
  method AssessTeams(teamIl: map<string, seq<Injury.IlPlayer>>, idMap: map<int, int>, t: WarTables)
    returns (results: seq<TeamImpact>, playerRows: seq<PlayerRow>, ghost teams: seq<string>)
    ensures ClubOrder(teams, teamIl.Keys)
    ensures results == Sorting.Sort(Impacts(teams, teamIl, idMap, t), ByLost())
    ensures playerRows == AllPlayerRows(teams, teamIl, idMap, t)
  {
    var clubs := Sorting.SortedSet(teamIl.Keys);
    teams := clubs;
    var rows;
    rows, playerRows := ClubRows(clubs, teamIl, idMap, t);
    assert ClubOrder(teams, teamIl.Keys);
    results := Sorting.Sort(rows, ByLost());
  }

  /** The published club rows are ordered by WAR lost, largest first, and
    * are exactly the clubs' rows. */
  lemma AssessmentOrdered(rows: seq<TeamImpact>)
    ensures var out := Sorting.Sort(rows, ByLost());
      (forall i, j :: 0 <= i < j < |out| ==> out[i].totalWarLost >= out[j].totalWarLost) &&
      multiset(out) == multiset(rows)
  {
    Sorting.ByKeyDescPreorder((r: TeamImpact) => r.totalWarLost);
    Sorting.SortSorted(rows, ByLost());
    var out := Sorting.Sort(rows, ByLost());
    forall i, j | 0 <= i < j < |out| ensures out[i].totalWarLost >= out[j].totalWarLost {
      assert ByLost()(out[i], out[j]);
    }
  }

  /** Step 1's team filter: with an abbreviation, only that club is kept. */
  function FilterTeams(teams: seq<(int, string)>, filter: Option<string>): (kept: seq<(int, string)>)
    ensures filter.None? ==> kept == teams
    ensures forall i :: 0 <= i < |kept| ==> kept[i] in teams && (filter.Some? ==> kept[i].1 == filter.value)
  {
    if filter.None? then teams
    else if |teams| == 0 then []
    else
      var rest := FilterTeams(teams[..|teams| - 1], filter);
      var last := teams[|teams| - 1];
      if last.1 == filter.value then rest + [last] else rest
  }

  /** The injured lists by club abbreviation; a repeated abbreviation keeps
    * the later club's list. */
  function IlMap(teams: seq<(int, string)>, rosters: int -> seq<Injury.RosterEntry>): (m: map<string, seq<Injury.IlPlayer>>)
    ensures forall abbr :: abbr in m <==> exists i :: 0 <= i < |teams| && teams[i].1 == abbr
  {
    if |teams| == 0 then map[]
    else
      var last := teams[|teams| - 1];
      var m := IlMap(teams[..|teams| - 1], rosters);
      assert forall abbr :: abbr in m <==> exists i :: 0 <= i < |teams| - 1 && teams[i].1 == abbr by {
        forall abbr | abbr in m ensures exists i :: 0 <= i < |teams| - 1 && teams[i].1 == abbr {
          var i :| 0 <= i < |teams[..|teams| - 1]| && teams[..|teams| - 1][i].1 == abbr;
        }
        forall abbr | (exists i :: 0 <= i < |teams| - 1 && teams[i].1 == abbr) ensures abbr in m {
          var i :| 0 <= i < |teams| - 1 && teams[i].1 == abbr;
          assert teams[..|teams| - 1][i].1 == abbr;
        }
      }
      m[last.1 := Injury.IlPlayers(rosters(last.0))]
  }

  /** Each club's list is the injured part of the roster of the last club
    * listed under that abbreviation. */
  lemma {:induction false} IlMapLastWins(teams: seq<(int, string)>, rosters: int -> seq<Injury.RosterEntry>, i: nat)
    requires i < |teams|
    requires forall j :: i < j < |teams| ==> teams[j].1 != teams[i].1
    ensures IlMap(teams, rosters)[teams[i].1] == Injury.IlPlayers(rosters(teams[i].0))
    decreases |teams|
  {
    if i < |teams| - 1 {
      var init := teams[..|teams| - 1];
      IlMapLastWins(init, rosters, i);
    }
  }

  /** Step 2: each club's injured list, and the ids of every injured player. */
  method PullIlRosters(teams: seq<(int, string)>, rosters: int -> seq<Injury.RosterEntry>)
    returns (teamIl: map<string, seq<Injury.IlPlayer>>, mlbIds: set<int>)
    ensures teamIl == IlMap(teams, rosters)
    ensures mlbIds == Injury.AllIds(teamIl)
  {
    teamIl := map[];
    var i := 0;
    while i < |teams|
      invariant 0 <= i <= |teams|
      invariant teamIl == IlMap(teams[..i], rosters)
    {
      assert teams[..i + 1][..i] == teams[..i];
      var il := Injury.CollectIlPlayers(rosters(teams[i].0));
      teamIl := teamIl[teams[i].1 := il];
      i := i + 1;
    }
    assert teams[..i] == teams;
    mlbIds := Injury.AllIds(teamIl);
  }

  /** The two files of an assessment of the injured lists, clubs taken in
    * the given order. */
  ghost predicate Assessed(order: seq<string>, teamIl: map<string, seq<Injury.IlPlayer>>, xref: seq<Injury.XrefRow>,
                           t: WarTables, files: (seq<TeamImpact>, seq<PlayerRow>))
  {
    ClubOrder(order, teamIl.Keys) &&
    files.0 == Sorting.Sort(Impacts(order, teamIl, CrossRef(teamIl, xref), t), ByLost()) &&
    files.1 == AllPlayerRows(order, teamIl, CrossRef(teamIl, xref), t)
  }

  /** The whole assessment on fetched inputs: nothing when the team filter
    * matches no club; else the sorted club rows and the players file. */
  method AssessInjuryImpact(teams: seq<(int, string)>, filter: Option<string>, rosters: int -> seq<Injury.RosterEntry>,
                            xref: seq<Injury.XrefRow>, t: WarTables)
    returns (out: Option<(seq<TeamImpact>, seq<PlayerRow>)>)
    ensures out.None? <==> filter.Some? && FilterTeams(teams, filter) == []
    ensures out.Some? ==> exists order :: Assessed(order, IlMap(FilterTeams(teams, filter), rosters), xref, t, out.value)
  {
    var kept := FilterTeams(teams, filter);
    if filter.Some? && kept == [] {
      return None;
    }
    var teamIl, mlbIds := PullIlRosters(kept, rosters);
    var idMap := Injury.CrossrefIds(mlbIds, xref);
    assert idMap == CrossRef(teamIl, xref);
    var results, playerRows, order := AssessTeams(teamIl, idMap, t);
    out := Some((results, playerRows));
    assert Assessed(order, teamIl, xref, t, out.value);
  }

  /** `build_id_crossref`: no lookup at all when nobody is injured. */
  function CrossRef(teamIl: map<string, seq<Injury.IlPlayer>>, xref: seq<Injury.XrefRow>): map<int, int>
  {
    if Injury.AllIds(teamIl) == {} then map[] else Injury.CrossRef(xref)
  }
}
