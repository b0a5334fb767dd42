/** Park factors: per-season tables of basic five-year park factors (100 is
  * neutral, above 100 favours hitters), keyed by canonical team code, and
  * the lookup that falls back to the 2024 table and to a neutral 100. */
module ParkFactors {
  import opened Wrappers
  import opened PairTables
  import opened TeamCodes

  const PARK_2023: seq<(string, int)> :=
    [("LAA", 101), ("BAL", 99), ("BOS", 104), ("CWS", 100), ("CLE", 99)] +
    [("DET", 100), ("KC", 103), ("MIN", 101), ("NYY", 99), ("ATH", 96)] +
    [("SEA", 94), ("TB", 96), ("TEX", 99), ("TOR", 99), ("AZ", 101)] +
    [("ATL", 100), ("CHC", 98), ("CIN", 105), ("COL", 113), ("MIA", 101)] +
    [("HOU", 99), ("LAD", 99), ("MIL", 99), ("WSH", 100), ("NYM", 96)] +
    [("PHI", 101), ("PIT", 102), ("STL", 98), ("SD", 96), ("SF", 97)]

  const PARK_2024: seq<(string, int)> :=
    [("LAA", 101), ("BAL", 99), ("BOS", 104), ("CWS", 100), ("CLE", 99)] +
    [("DET", 100), ("KC", 103), ("MIN", 101), ("NYY", 99), ("ATH", 96)] +
    [("SEA", 94), ("TB", 96), ("TEX", 99), ("TOR", 99), ("AZ", 101)] +
    [("ATL", 100), ("CHC", 98), ("CIN", 105), ("COL", 113), ("MIA", 101)] +
    [("HOU", 99), ("LAD", 99), ("MIL", 99), ("WSH", 100), ("NYM", 96)] +
    [("PHI", 101), ("PIT", 102), ("STL", 98), ("SD", 96), ("SF", 97)]

  const PARK_2025: seq<(string, int)> :=
    [("LAA", 101), ("BAL", 99), ("BOS", 104), ("CWS", 100), ("CLE", 99)] +
    [("DET", 100), ("KC", 103), ("MIN", 101), ("NYY", 99), ("ATH", 103)] +
    [("SEA", 94), ("TB", 101), ("TEX", 99), ("TOR", 99), ("AZ", 101)] +
    [("ATL", 100), ("CHC", 98), ("CIN", 105), ("COL", 113), ("MIA", 101)] +
    [("HOU", 99), ("LAD", 99), ("MIL", 99), ("WSH", 100), ("NYM", 96)] +
    [("PHI", 101), ("PIT", 102), ("STL", 98), ("SD", 96), ("SF", 97)]

  /** The season-keyed dict of tables. */
  function ParkFactors(): map<int, map<string, int>>
  {
    map[2023 := PairsToMap(PARK_2023), 2024 := PairsToMap(PARK_2024), 2025 := PairsToMap(PARK_2025)]
  }

  /** `tables.get(season, tables[2024]).get(team, 100)`: the season's table,
    * the 2024 table for a missing or unknown season, and 100 for a team the
    * table does not list. */
  function SeasonLookup(tables: map<int, map<string, int>>, team: string, season: Option<int>): int
    requires 2024 in tables
  {
    var factors := if season.Some? && season.value in tables then tables[season.value] else tables[2024];
    if team in factors then factors[team] else 100
  }

  /** The home park factor of `team` in `season` (`None` when no season is
    * given). */
  function GetParkFactor(team: string, season: Option<int>): int
  {
    SeasonLookup(ParkFactors(), team, season)
  }

  /** A lookup in tables that all share one key set and value range. */
  lemma LookupBounds(tables: map<int, map<string, int>>, keys: set<string>, team: string, season: Option<int>)
    requires 2024 in tables
    requires forall s :: s in tables ==> tables[s].Keys == keys
    requires forall s, t :: s in tables && t in tables[s] ==> 94 <= tables[s][t] <= 113
    ensures team !in keys ==> SeasonLookup(tables, team, season) == 100
    ensures team in keys ==> 94 <= SeasonLookup(tables, team, season) <= 113
  {
    var s := if season.Some? && season.value in tables then season.value else 2024;
    assert team in keys ==> team in tables[s];
  }

  // Row facts about the literal tables.

  /** Where each park-table row's club sits in the league table, and back. */
  ghost const PARK_ORDER: seq<int> :=
    [11, 0, 1, 5, 6, 7, 8, 9, 2, 12, 13, 3, 14, 4, 25, 15, 20, 21, 26, 16, 10, 27, 22, 19, 17, 18, 23, 24, 28, 29]
  ghost const PARK_BACK: seq<int> :=
    [1, 2, 8, 11, 13, 3, 4, 5, 6, 7, 20, 0, 9, 10, 12, 15, 19, 24, 25, 23, 16, 17, 22, 26, 27, 14, 18, 21, 28, 29]

  lemma ParkRowsFollowLeague()
    ensures |PARK_2024| == |PARK_ORDER| == 30 && KeysFollow(PARK_2024, LEAGUE_PAIRS, PARK_ORDER)
  {
    forall i | 0 <= i < 30
      ensures 0 <= PARK_ORDER[i] < |LEAGUE_PAIRS| && KeyAt(PARK_2024, i) == KeyAt(LEAGUE_PAIRS, PARK_ORDER[i])
    {
      // one case per row, so that each row is checked on its own
      if i == 0 {} else if i == 1 {} else if i == 2 {} else if i == 3 {} else if i == 4 {} else if i == 5 {} else if i == 6 {} else if i == 7 {} else if i == 8 {} else if i == 9 {} else if i == 10 {} else if i == 11 {} else if i == 12 {} else if i == 13 {} else if i == 14 {} else if i == 15 {} else if i == 16 {} else if i == 17 {} else if i == 18 {} else if i == 19 {} else if i == 20 {} else if i == 21 {} else if i == 22 {} else if i == 23 {} else if i == 24 {} else if i == 25 {} else if i == 26 {} else if i == 27 {} else if i == 28 {} else {}
    }
  }

  lemma LeagueRowsFollowPark()
    ensures |LEAGUE_PAIRS| == |PARK_BACK| == 30 && KeysFollow(LEAGUE_PAIRS, PARK_2024, PARK_BACK)
  {
    forall i | 0 <= i < 30
      ensures 0 <= PARK_BACK[i] < |PARK_2024| && KeyAt(LEAGUE_PAIRS, i) == KeyAt(PARK_2024, PARK_BACK[i])
    {
      // one case per row, so that each row is checked on its own
      if i == 0 {} else if i == 1 {} else if i == 2 {} else if i == 3 {} else if i == 4 {} else if i == 5 {} else if i == 6 {} else if i == 7 {} else if i == 8 {} else if i == 9 {} else if i == 10 {} else if i == 11 {} else if i == 12 {} else if i == 13 {} else if i == 14 {} else if i == 15 {} else if i == 16 {} else if i == 17 {} else if i == 18 {} else if i == 19 {} else if i == 20 {} else if i == 21 {} else if i == 22 {} else if i == 23 {} else if i == 24 {} else if i == 25 {} else if i == 26 {} else if i == 27 {} else if i == 28 {} else {}
    }
  }

  lemma ParkOrderBack()
    ensures forall i :: 0 <= i < 30 ==> 0 <= PARK_ORDER[i] < 30 && PARK_BACK[PARK_ORDER[i]] == i
  {
    forall i | 0 <= i < 30 ensures 0 <= PARK_ORDER[i] < 30 && PARK_BACK[PARK_ORDER[i]] == i {
      // one case per row, so that each row is checked on its own
      if i == 0 {} else if i == 1 {} else if i == 2 {} else if i == 3 {} else if i == 4 {} else if i == 5 {} else if i == 6 {} else if i == 7 {} else if i == 8 {} else if i == 9 {} else if i == 10 {} else if i == 11 {} else if i == 12 {} else if i == 13 {} else if i == 14 {} else if i == 15 {} else if i == 16 {} else if i == 17 {} else if i == 18 {} else if i == 19 {} else if i == 20 {} else if i == 21 {} else if i == 22 {} else if i == 23 {} else if i == 24 {} else if i == 25 {} else if i == 26 {} else if i == 27 {} else if i == 28 {} else {}
    }
  }

  lemma ParkRowValues()
    ensures forall i :: 0 <= i < |PARK_2024| ==> 94 <= ValueAt(PARK_2024, i) <= 113
  {
    forall i | 0 <= i < |PARK_2024| ensures 94 <= ValueAt(PARK_2024, i) <= 113 {
      // one case per row, so that each row is checked on its own
      if i == 0 {} else if i == 1 {} else if i == 2 {} else if i == 3 {} else if i == 4 {} else if i == 5 {} else if i == 6 {} else if i == 7 {} else if i == 8 {} else if i == 9 {} else if i == 10 {} else if i == 11 {} else if i == 12 {} else if i == 13 {} else if i == 14 {} else if i == 15 {} else if i == 16 {} else if i == 17 {} else if i == 18 {} else if i == 19 {} else if i == 20 {} else if i == 21 {} else if i == 22 {} else if i == 23 {} else if i == 24 {} else if i == 25 {} else if i == 26 {} else if i == 27 {} else if i == 28 {} else {}
    }
  }

  lemma Park2023Rows() ensures PARK_2023 == PARK_2024 {}

  lemma Park2025Rows()
    ensures |PARK_2024| == 30 && KeyAt(PARK_2024, 9) == "ATH" && KeyAt(PARK_2024, 11) == "TB"
    ensures ValueAt(PARK_2024, 9) == 96 && ValueAt(PARK_2024, 11) == 96
    ensures PARK_2025 == PARK_2024[9 := ("ATH", 103)][11 := ("TB", 101)]
  {
  }

  // What the tables promise.

  /** The 2024 table lists exactly the 30 clubs of the league table, with
    * factors between 94 and 113. */
  lemma Park2024Canonical()
    ensures PairsToMap(PARK_2024).Keys == TeamLeague().Keys && |PairsToMap(PARK_2024)| == 30
    ensures DistinctKeys(PARK_2024)
    ensures forall t :: t in PairsToMap(PARK_2024) ==> 94 <= PairsToMap(PARK_2024)[t] <= 113
  {
    LeagueKeysDistinct();
    ParkRowsFollowLeague();
    LeagueRowsFollowPark();
    ParkOrderBack();
    MatchedKeys(PARK_2024, LEAGUE_PAIRS, PARK_ORDER, PARK_BACK);
    ParkRowValues();
    ValuesWithin(PARK_2024, 94, 113);
  }

  /** The 2023 table is the 2024 table. */
  lemma Seasons2023And2024Agree()
    ensures ParkFactors()[2023] == ParkFactors()[2024]
  {
    Park2023Rows();
  }

  /** The 2025 table differs from the 2024 one only at ATH (96 to 103) and
    * TB (96 to 101). */
  lemma Season2025Changes()
    ensures "ATH" in ParkFactors()[2024] && "TB" in ParkFactors()[2024]
    ensures ParkFactors()[2024]["ATH"] == 96 && ParkFactors()[2024]["TB"] == 96
    ensures ParkFactors()[2025] == ParkFactors()[2024]["ATH" := 103]["TB" := 101]
  {
    Park2024Canonical();
    Park2025Rows();
    var p1 := PARK_2024[9 := ("ATH", 103)];
    PairsToMapLookup(PARK_2024, 9);
    PairsToMapLookup(PARK_2024, 11);
    ReplaceValue(PARK_2024, 9, 103);
    assert forall a :: 0 <= a < |p1| ==> KeyAt(p1, a) == KeyAt(PARK_2024, a);
    assert DistinctKeys(p1);
    assert KeyAt(p1, 11) == "TB";
    ReplaceValue(p1, 11, 101);
  }

  /** The season dict holds the 2024 table three times, the third time with
    * the ATH and TB factors replaced. */
  lemma ParkFactorsShape()
    ensures ParkFactors() == map[2023 := PairsToMap(PARK_2024), 2024 := PairsToMap(PARK_2024),
      2025 := PairsToMap(PARK_2024)["ATH" := 103]["TB" := 101]]
  {
    Seasons2023And2024Agree();
    Season2025Changes();
  }

  /** Keys, size and range shared by a table and its edited copies. */
  lemma EditedSeasons(f: map<int, map<string, int>>, m: map<string, int>, keys: set<string>)
    requires m.Keys == keys && |m| == 30 && "ATH" in m && "TB" in m
    requires forall t :: t in m ==> 94 <= m[t] <= 113
    requires f == map[2023 := m, 2024 := m, 2025 := m["ATH" := 103]["TB" := 101]]
    ensures forall s :: s in f ==> f[s].Keys == keys && |f[s]| == 30
    ensures forall s, t :: s in f && t in f[s] ==> 94 <= f[s][t] <= 113
  {
    var m25 := m["ATH" := 103]["TB" := 101];
    assert m25.Keys == m.Keys;
    assert |m25| == |m|;
    forall s | s in f ensures f[s].Keys == keys && |f[s]| == 30 {
      assert s == 2023 || s == 2024 || s == 2025;
    }
  }

  /** Every season's table lists exactly the 30 canonical codes, with factors
    * between 94 and 113. */
  lemma ParkTablesCanonical()
    ensures forall s :: s in ParkFactors() ==>
      ParkFactors()[s].Keys == TeamLeague().Keys && |ParkFactors()[s]| == 30
    ensures forall s, t :: s in ParkFactors() && t in ParkFactors()[s] ==> 94 <= ParkFactors()[s][t] <= 113
  {
    Park2024Canonical();
    Season2025Changes();
    ParkFactorsShape();
    EditedSeasons(ParkFactors(), PairsToMap(PARK_2024), TeamLeague().Keys);
  }

  /** A club outside the league table gets the neutral 100 in every season;
    * a league club gets a factor between 94 and 113. */
  lemma ParkFactorBounds(team: string, season: Option<int>)
    ensures team !in TeamLeague() ==> GetParkFactor(team, season) == 100
    ensures team in TeamLeague() ==> 94 <= GetParkFactor(team, season) <= 113
  {
    ParkTablesCanonical();
    LookupBounds(ParkFactors(), TeamLeague().Keys, team, season);
  }

  /** A missing or unknown season reads the 2024 table. */
  lemma UnknownSeasonFallsBack(team: string, season: Option<int>)
    requires season.None? || season.value !in {2023, 2024, 2025}
    ensures GetParkFactor(team, season) == GetParkFactor(team, Some(2024))
  {
  }

  /** A club's factor for 2023 is its 2024 factor; for 2025 it is too,
    * except ATH (103) and TB (101). */
  lemma SeasonFactors(team: string)
    ensures GetParkFactor(team, Some(2023)) == GetParkFactor(team, Some(2024))
    ensures GetParkFactor(team, Some(2025)) ==
      if team == "ATH" then 103 else if team == "TB" then 101 else GetParkFactor(team, Some(2024))
  {
    Seasons2023And2024Agree();
    Season2025Changes();
  }
}
