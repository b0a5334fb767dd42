/** Team codes: the league/division partition of the 30 clubs and the maps
  * between the code families the feeds use. */
module TeamCodes {
  import opened PairTables

  /** The Retrosheet-style codes of the season-end rating file and their
    * canonical schedule codes, in the order the table lists them. */
  const SCHEDULE_TO_ELO_PAIRS: seq<(string, string)> := [
    ("WSN", "WSH"), ("KCR", "KC"), ("SFG", "SF"), ("SDP", "SD"),
    ("CHW", "CWS"), ("ARI", "AZ"), ("OAK", "ATH"), ("TBR", "TB")]

  function ScheduleToElo(): map<string, string> { PairsToMap(SCHEDULE_TO_ELO_PAIRS) }

  /** The reverse table, built by swapping each pair. */
  function EloToSchedule(): map<string, string> { PairsToMap(Swap(SCHEDULE_TO_ELO_PAIRS)) }

  lemma ScheduleToEloInjective()
    ensures |SCHEDULE_TO_ELO_PAIRS| == 8
    ensures DistinctKeys(SCHEDULE_TO_ELO_PAIRS) && DistinctValues(SCHEDULE_TO_ELO_PAIRS)
  {
  }

  /** The reverse table is the exact inverse on all eight codes. */
  lemma EloToScheduleInverse()
    ensures |ScheduleToElo()| == 8 && |EloToSchedule()| == 8
    ensures forall k :: k in ScheduleToElo() ==>
      ScheduleToElo()[k] in EloToSchedule() && EloToSchedule()[ScheduleToElo()[k]] == k
    ensures forall v :: v in EloToSchedule() ==>
      EloToSchedule()[v] in ScheduleToElo() && ScheduleToElo()[EloToSchedule()[v]] == v
  {
    ScheduleToEloInjective();
    SwapInverts(SCHEDULE_TO_ELO_PAIRS);
    DistinctKeysCard(SCHEDULE_TO_ELO_PAIRS);
    DistinctValuesCard(SCHEDULE_TO_ELO_PAIRS);
  }

  /** Normalise a code to the schedule family; only codes from the rating
    * file are translated. */
  function NormalizeTeamCode(code: string, source: string): (r: string)
    ensures source != "elo" ==> r == code
    ensures source == "elo" && code in ScheduleToElo() ==> r == ScheduleToElo()[code]
    ensures source == "elo" && code !in ScheduleToElo() ==> r == code
  {
    if source == "elo" then
      if code in ScheduleToElo() then ScheduleToElo()[code] else code
    else code
  }

  /** No rating-file code is also a canonical code. */
  lemma RowsDisjoint()
    ensures forall i, j :: 0 <= i < |SCHEDULE_TO_ELO_PAIRS| && 0 <= j < |SCHEDULE_TO_ELO_PAIRS| ==>
      ValueAt(SCHEDULE_TO_ELO_PAIRS, i) != KeyAt(SCHEDULE_TO_ELO_PAIRS, j)
  {
  }

  /** No canonical code is itself a rating-file code. */
  lemma CanonicalNotRetrosheet()
    ensures forall v :: v in EloToSchedule() ==> v !in ScheduleToElo()
  {
    var p := SCHEDULE_TO_ELO_PAIRS;
    RowsDisjoint();
    forall v | v in EloToSchedule() ensures v !in ScheduleToElo() {
      var i :| 0 <= i < |Swap(p)| && Swap(p)[i].0 == v;
      assert v == ValueAt(p, i);
      forall j | 0 <= j < |p| ensures p[j].0 != v {
        assert KeyAt(p, j) != ValueAt(p, i);
      }
    }
  }

  /** Normalising twice is normalising once. */
  lemma NormalizeIdempotent(code: string, source: string)
    ensures NormalizeTeamCode(NormalizeTeamCode(code, source), source) == NormalizeTeamCode(code, source)
  {
    if source == "elo" && code in ScheduleToElo() {
      ScheduleToEloInjective();
      SwapInverts(SCHEDULE_TO_ELO_PAIRS);
      CanonicalNotRetrosheet();
    }
  }

  /** The 30 clubs with their league, in the order the table lists them. */
  const LEAGUE_PAIRS: seq<(string, string)> :=
    [("BAL", "AL"), ("BOS", "AL"), ("NYY", "AL"), ("TB", "AL"), ("TOR", "AL")] +
    [("CWS", "AL"), ("CLE", "AL"), ("DET", "AL"), ("KC", "AL"), ("MIN", "AL")] +
    [("HOU", "AL"), ("LAA", "AL"), ("ATH", "AL"), ("SEA", "AL"), ("TEX", "AL")] +
    [("ATL", "NL"), ("MIA", "NL"), ("NYM", "NL"), ("PHI", "NL"), ("WSH", "NL")] +
    [("CHC", "NL"), ("CIN", "NL"), ("MIL", "NL"), ("PIT", "NL"), ("STL", "NL")] +
    [("AZ", "NL"), ("COL", "NL"), ("LAD", "NL"), ("SD", "NL"), ("SF", "NL")]

  /** The 30 clubs with their division, in the same order. */
  const DIVISION_PAIRS: seq<(string, string)> :=
    [("BAL", "AL East"), ("BOS", "AL East"), ("NYY", "AL East"), ("TB", "AL East"), ("TOR", "AL East")] +
    [("CWS", "AL Central"), ("CLE", "AL Central"), ("DET", "AL Central"), ("KC", "AL Central"), ("MIN", "AL Central")] +
    [("HOU", "AL West"), ("LAA", "AL West"), ("ATH", "AL West"), ("SEA", "AL West"), ("TEX", "AL West")] +
    [("ATL", "NL East"), ("MIA", "NL East"), ("NYM", "NL East"), ("PHI", "NL East"), ("WSH", "NL East")] +
    [("CHC", "NL Central"), ("CIN", "NL Central"), ("MIL", "NL Central"), ("PIT", "NL Central"), ("STL", "NL Central")] +
    [("AZ", "NL West"), ("COL", "NL West"), ("LAD", "NL West"), ("SD", "NL West"), ("SF", "NL West")]

  /** The six division names, in the order the division table lists them. */
  const DIVISION_NAMES: seq<string> := ["AL East", "AL Central", "AL West", "NL East", "NL Central", "NL West"]

  function TeamLeague(): map<string, string> { PairsToMap(LEAGUE_PAIRS) }

  function TeamDivision(): map<string, string> { PairsToMap(DIVISION_PAIRS) }

  /** Full club names and their codes, in the order the table lists them. */
  const TEAM_NAME_PAIRS: seq<(string, string)> :=
    [("Arizona Diamondbacks", "AZ"), ("Atlanta Braves", "ATL"), ("Baltimore Orioles", "BAL")] +
    [("Boston Red Sox", "BOS"), ("Chicago Cubs", "CHC"), ("Chicago White Sox", "CWS")] +
    [("Cincinnati Reds", "CIN"), ("Cleveland Guardians", "CLE"), ("Colorado Rockies", "COL")] +
    [("Detroit Tigers", "DET"), ("Houston Astros", "HOU"), ("Kansas City Royals", "KC")] +
    [("Los Angeles Angels", "LAA"), ("Los Angeles Dodgers", "LAD"), ("Miami Marlins", "MIA")] +
    [("Milwaukee Brewers", "MIL"), ("Minnesota Twins", "MIN"), ("New York Mets", "NYM")] +
    [("New York Yankees", "NYY"), ("Athletics", "ATH"), ("Philadelphia Phillies", "PHI")] +
    [("Pittsburgh Pirates", "PIT"), ("San Diego Padres", "SD"), ("San Francisco Giants", "SF")] +
    [("Seattle Mariners", "SEA"), ("St. Louis Cardinals", "STL"), ("Tampa Bay Rays", "TB")] +
    [("Texas Rangers", "TEX"), ("Toronto Blue Jays", "TOR"), ("Washington Nationals", "WSH")]

  function TeamNameToAbbrev(): map<string, string> { PairsToMap(TEAM_NAME_PAIRS) }

  /** Stats API numeric ids and their codes, in the order the table lists them. */
  const TEAM_ID_PAIRS: seq<(int, string)> :=
    [(108, "LAA"), (109, "AZ"), (110, "BAL"), (111, "BOS"), (112, "CHC")] +
    [(113, "CIN"), (114, "CLE"), (115, "COL"), (116, "DET"), (117, "HOU")] +
    [(118, "KC"), (119, "LAD"), (120, "WSH"), (121, "NYM"), (133, "ATH")] +
    [(134, "PIT"), (135, "SD"), (136, "SEA"), (137, "SF"), (138, "STL")] +
    [(139, "TB"), (140, "TEX"), (141, "TOR"), (142, "MIN"), (143, "PHI")] +
    [(144, "ATL"), (145, "CWS"), (146, "MIA"), (147, "NYY"), (158, "MIL")]

  function TeamIdToAbbr(): map<int, string> { PairsToMap(TEAM_ID_PAIRS) }

  // Row facts about the literal tables, each small enough to check on its own.

  lemma LeagueKeys0x0() ensures KeyBlocks(LEAGUE_PAIRS, 0, 0) {}
  lemma LeagueKeys0x5() ensures KeyBlocks(LEAGUE_PAIRS, 0, 5) {}
  lemma LeagueKeys0x10() ensures KeyBlocks(LEAGUE_PAIRS, 0, 10) {}
  lemma LeagueKeys0x15() ensures KeyBlocks(LEAGUE_PAIRS, 0, 15) {}
  lemma LeagueKeys0x20() ensures KeyBlocks(LEAGUE_PAIRS, 0, 20) {}
  lemma LeagueKeys0x25() ensures KeyBlocks(LEAGUE_PAIRS, 0, 25) {}
  lemma LeagueKeys5x5() ensures KeyBlocks(LEAGUE_PAIRS, 5, 5) {}
  lemma LeagueKeys5x10() ensures KeyBlocks(LEAGUE_PAIRS, 5, 10) {}
  lemma LeagueKeys5x15() ensures KeyBlocks(LEAGUE_PAIRS, 5, 15) {}
  lemma LeagueKeys5x20() ensures KeyBlocks(LEAGUE_PAIRS, 5, 20) {}
  lemma LeagueKeys5x25() ensures KeyBlocks(LEAGUE_PAIRS, 5, 25) {}
  lemma LeagueKeys10x10() ensures KeyBlocks(LEAGUE_PAIRS, 10, 10) {}
  lemma LeagueKeys10x15() ensures KeyBlocks(LEAGUE_PAIRS, 10, 15) {}
  lemma LeagueKeys10x20() ensures KeyBlocks(LEAGUE_PAIRS, 10, 20) {}
  lemma LeagueKeys10x25() ensures KeyBlocks(LEAGUE_PAIRS, 10, 25) {}
  lemma LeagueKeys15x15() ensures KeyBlocks(LEAGUE_PAIRS, 15, 15) {}
  lemma LeagueKeys15x20() ensures KeyBlocks(LEAGUE_PAIRS, 15, 20) {}
  lemma LeagueKeys15x25() ensures KeyBlocks(LEAGUE_PAIRS, 15, 25) {}
  lemma LeagueKeys20x20() ensures KeyBlocks(LEAGUE_PAIRS, 20, 20) {}
  lemma LeagueKeys20x25() ensures KeyBlocks(LEAGUE_PAIRS, 20, 25) {}
  lemma LeagueKeys25x25() ensures KeyBlocks(LEAGUE_PAIRS, 25, 25) {}

  lemma LeagueKeysDistinct()
    ensures |LEAGUE_PAIRS| == 30 && DistinctKeys(LEAGUE_PAIRS)
  {
    LeagueKeys0x0();
    LeagueKeys0x5();
    LeagueKeys0x10();
    LeagueKeys0x15();
    LeagueKeys0x20();
    LeagueKeys0x25();
    LeagueKeys5x5();
    LeagueKeys5x10();
    LeagueKeys5x15();
    LeagueKeys5x20();
    LeagueKeys5x25();
    LeagueKeys10x10();
    LeagueKeys10x15();
    LeagueKeys10x20();
    LeagueKeys10x25();
    LeagueKeys15x15();
    LeagueKeys15x20();
    LeagueKeys15x25();
    LeagueKeys20x20();
    LeagueKeys20x25();
    LeagueKeys25x25();
    KeyBlocksDistinct(LEAGUE_PAIRS);
  }

  lemma DivisionRowKeys()
    ensures |DIVISION_PAIRS| == |LEAGUE_PAIRS| == 30
    ensures forall i :: 0 <= i < 30 ==> KeyAt(LEAGUE_PAIRS, i) == KeyAt(DIVISION_PAIRS, i)
  {
  }

  lemma DivisionRowNames()
    ensures |DIVISION_PAIRS| == 5 * |DIVISION_NAMES|
    ensures forall i :: 0 <= i < 30 ==> ValueAt(DIVISION_PAIRS, i) == DIVISION_NAMES[i / 5]
  {
  }

  lemma DivisionRowLeagues()
    ensures forall i :: 0 <= i < 30 ==>
      |ValueAt(DIVISION_PAIRS, i)| >= 2 && ValueAt(DIVISION_PAIRS, i)[..2] == ValueAt(LEAGUE_PAIRS, i)
  {
  }

  lemma DivisionNamesDistinct()
    ensures forall i, j :: 0 <= i < j < |DIVISION_NAMES| ==> DIVISION_NAMES[i] != DIVISION_NAMES[j]
  {
  }

  /** The league and division tables have the same 30 keys. */
  lemma LeagueDivisionSameKeys()
    ensures TeamLeague().Keys == TeamDivision().Keys && |TeamLeague()| == 30
  {
    LeagueKeysDistinct();
    DivisionRowKeys();
    SameKeys(LEAGUE_PAIRS, DIVISION_PAIRS);
    DistinctKeysCard(LEAGUE_PAIRS);
  }

  /** Each division name starts with its clubs' league. */
  lemma DivisionNamesCarryLeague()
    ensures forall t :: t in TeamDivision() ==>
      t in TeamLeague() && |TeamDivision()[t]| >= 2 && TeamDivision()[t][..2] == TeamLeague()[t]
  {
    LeagueKeysDistinct();
    DivisionRowKeys();
    DivisionRowLeagues();
    PrefixCarried(LEAGUE_PAIRS, DIVISION_PAIRS);
  }

  ghost function TeamsIn(division: string): set<string>
  {
    KeysWith(TeamDivision(), division)
  }

  /** The k-th division holds exactly the five clubs of its block of rows. */
  lemma BlockTeams(k: nat)
    requires k < 6
    ensures TeamsIn(DIVISION_NAMES[k]) == {KeyAt(DIVISION_PAIRS, 5 * k), KeyAt(DIVISION_PAIRS, 5 * k + 1),
      KeyAt(DIVISION_PAIRS, 5 * k + 2), KeyAt(DIVISION_PAIRS, 5 * k + 3), KeyAt(DIVISION_PAIRS, 5 * k + 4)}
    ensures |TeamsIn(DIVISION_NAMES[k])| == 5
  {
    LeagueKeysDistinct();
    DivisionRowKeys();
    assert DistinctKeys(DIVISION_PAIRS);
    DivisionRowNames();
    DivisionNamesDistinct();
    BlockKeys(DIVISION_PAIRS, DIVISION_NAMES, k);
  }

  /** The six division names are distinct, every club sits in one of them,
    * and each holds exactly five clubs. */
  lemma SixDivisionsOfFive()
    ensures |DIVISION_NAMES| == 6
    ensures forall i, j :: 0 <= i < j < 6 ==> DIVISION_NAMES[i] != DIVISION_NAMES[j]
    ensures forall t :: t in TeamDivision() ==> TeamDivision()[t] in DIVISION_NAMES
    ensures forall k :: 0 <= k < 6 ==> |TeamsIn(DIVISION_NAMES[k])| == 5
  {
    DivisionNamesDistinct();
    DivisionRowNames();
    ValuesDrawnFrom(DIVISION_PAIRS, DIVISION_NAMES);
    forall k | 0 <= k < 6 ensures |TeamsIn(DIVISION_NAMES[k])| == 5 {
      BlockTeams(k);
    }
  }

  /** Where each id-table row's club sits in the league table, and back. */
  ghost const ID_ORDER: seq<int> :=
    [11, 25, 0, 1, 20, 21, 6, 26, 7, 10, 8, 27, 19, 17, 12, 23, 28, 13, 29, 24, 3, 14, 4, 9, 18, 15, 5, 16, 2, 22]
  ghost const ID_INVERSE: seq<int> :=
    [2, 3, 28, 20, 22, 26, 6, 8, 10, 23, 9, 0, 14, 17, 21, 25, 27, 13, 24, 12, 4, 5, 29, 15, 19, 1, 7, 11, 16, 18]

  /** Where each name-table row's club sits in the league table, and back. */
  ghost const NAME_ORDER: seq<int> :=
    [25, 15, 0, 1, 20, 5, 21, 6, 26, 7, 10, 8, 11, 27, 16, 22, 9, 17, 2, 12, 18, 23, 28, 29, 13, 24, 3, 14, 4, 19]
  ghost const NAME_INVERSE: seq<int> :=
    [2, 3, 18, 26, 28, 5, 7, 9, 11, 16, 10, 12, 19, 24, 27, 1, 14, 17, 20, 29, 4, 6, 15, 21, 25, 0, 8, 13, 22, 23]

  lemma IdRows()
    ensures RowsFollow(TEAM_ID_PAIRS, LEAGUE_PAIRS, ID_ORDER, 0, 30)
  {
    forall i | 0 <= i < 30
      ensures 0 <= ID_ORDER[i] < |LEAGUE_PAIRS| && ValueAt(TEAM_ID_PAIRS, i) == KeyAt(LEAGUE_PAIRS, ID_ORDER[i])
    {
      // one case per row, so that each row is checked on its own
      if i == 0 {} else if i == 1 {} else if i == 2 {} else if i == 3 {} else if i == 4 {} else if i == 5 {} else if i == 6 {} else if i == 7 {} else if i == 8 {} else if i == 9 {} else if i == 10 {} else if i == 11 {} else if i == 12 {} else if i == 13 {} else if i == 14 {} else if i == 15 {} else if i == 16 {} else if i == 17 {} else if i == 18 {} else if i == 19 {} else if i == 20 {} else if i == 21 {} else if i == 22 {} else if i == 23 {} else if i == 24 {} else if i == 25 {} else if i == 26 {} else if i == 27 {} else if i == 28 {} else {}
    }
  }

  lemma NameRowsFirst()
    ensures RowsFollow(TEAM_NAME_PAIRS, LEAGUE_PAIRS, NAME_ORDER, 0, 15)
  {
    forall i | 0 <= i < 15
      ensures 0 <= NAME_ORDER[i] < |LEAGUE_PAIRS| && ValueAt(TEAM_NAME_PAIRS, i) == KeyAt(LEAGUE_PAIRS, NAME_ORDER[i])
    {
      // one case per row, so that each row is checked on its own
      if i == 0 {} else if i == 1 {} else if i == 2 {} else if i == 3 {} else if i == 4 {} else if i == 5 {} else if i == 6 {} else if i == 7 {} else if i == 8 {} else if i == 9 {} else if i == 10 {} else if i == 11 {} else if i == 12 {} else if i == 13 {} else {}
    }
  }

  lemma NameRowsSecond()
    ensures RowsFollow(TEAM_NAME_PAIRS, LEAGUE_PAIRS, NAME_ORDER, 15, 30)
  {
    forall i | 15 <= i < 30
      ensures 0 <= NAME_ORDER[i] < |LEAGUE_PAIRS| && ValueAt(TEAM_NAME_PAIRS, i) == KeyAt(LEAGUE_PAIRS, NAME_ORDER[i])
    {
      // one case per row, so that each row is checked on its own
      if i == 15 {} else if i == 16 {} else if i == 17 {} else if i == 18 {} else if i == 19 {} else if i == 20 {} else if i == 21 {} else if i == 22 {} else if i == 23 {} else if i == 24 {} else if i == 25 {} else if i == 26 {} else if i == 27 {} else if i == 28 {} else {}
    }
  }

  lemma NameRows()
    ensures RowsFollow(TEAM_NAME_PAIRS, LEAGUE_PAIRS, NAME_ORDER, 0, 30)
  {
    NameRowsFirst();
    NameRowsSecond();
    FollowJoin(TEAM_NAME_PAIRS, LEAGUE_PAIRS, NAME_ORDER, 0, 15, 30);
  }

  lemma IdOrderLengths() ensures |TEAM_ID_PAIRS| == |ID_ORDER| == |ID_INVERSE| == 30 {}

  lemma IdOrderInverse()
    ensures forall i :: 0 <= i < 30 ==> 0 <= ID_ORDER[i] < 30 && ID_INVERSE[ID_ORDER[i]] == i
  {
    forall i | 0 <= i < 30 ensures 0 <= ID_ORDER[i] < 30 && ID_INVERSE[ID_ORDER[i]] == i {
      // one case per row, so that each row is checked on its own
      if i == 0 {} else if i == 1 {} else if i == 2 {} else if i == 3 {} else if i == 4 {} else if i == 5 {} else if i == 6 {} else if i == 7 {} else if i == 8 {} else if i == 9 {} else if i == 10 {} else if i == 11 {} else if i == 12 {} else if i == 13 {} else if i == 14 {} else if i == 15 {} else if i == 16 {} else if i == 17 {} else if i == 18 {} else if i == 19 {} else if i == 20 {} else if i == 21 {} else if i == 22 {} else if i == 23 {} else if i == 24 {} else if i == 25 {} else if i == 26 {} else if i == 27 {} else if i == 28 {} else {}
    }
  }

  lemma NameOrderLengths() ensures |TEAM_NAME_PAIRS| == |NAME_ORDER| == |NAME_INVERSE| == 30 {}

  lemma NameOrderInverse()
    ensures forall i :: 0 <= i < 30 ==> 0 <= NAME_ORDER[i] < 30 && NAME_INVERSE[NAME_ORDER[i]] == i
  {
    forall i | 0 <= i < 30 ensures 0 <= NAME_ORDER[i] < 30 && NAME_INVERSE[NAME_ORDER[i]] == i {
      // one case per row, so that each row is checked on its own
      if i == 0 {} else if i == 1 {} else if i == 2 {} else if i == 3 {} else if i == 4 {} else if i == 5 {} else if i == 6 {} else if i == 7 {} else if i == 8 {} else if i == 9 {} else if i == 10 {} else if i == 11 {} else if i == 12 {} else if i == 13 {} else if i == 14 {} else if i == 15 {} else if i == 16 {} else if i == 17 {} else if i == 18 {} else if i == 19 {} else if i == 20 {} else if i == 21 {} else if i == 22 {} else if i == 23 {} else if i == 24 {} else if i == 25 {} else if i == 26 {} else if i == 27 {} else if i == 28 {} else {}
    }
  }

  /** The id table's numeric keys strictly increase. */
  lemma IdKeysAscending()
    ensures forall i :: 0 <= i < |TEAM_ID_PAIRS| - 1 ==> KeyAt(TEAM_ID_PAIRS, i) < KeyAt(TEAM_ID_PAIRS, i + 1)
  {
  }

  lemma NameKeys0x0() ensures KeyBlocks(TEAM_NAME_PAIRS, 0, 0) {}
  lemma NameKeys0x5() ensures KeyBlocks(TEAM_NAME_PAIRS, 0, 5) {}
  lemma NameKeys0x10() ensures KeyBlocks(TEAM_NAME_PAIRS, 0, 10) {}
  lemma NameKeys0x15() ensures KeyBlocks(TEAM_NAME_PAIRS, 0, 15) {}
  lemma NameKeys0x20() ensures KeyBlocks(TEAM_NAME_PAIRS, 0, 20) {}
  lemma NameKeys0x25() ensures KeyBlocks(TEAM_NAME_PAIRS, 0, 25) {}
  lemma NameKeys5x5() ensures KeyBlocks(TEAM_NAME_PAIRS, 5, 5) {}
  lemma NameKeys5x10() ensures KeyBlocks(TEAM_NAME_PAIRS, 5, 10) {}
  lemma NameKeys5x15() ensures KeyBlocks(TEAM_NAME_PAIRS, 5, 15) {}
  lemma NameKeys5x20() ensures KeyBlocks(TEAM_NAME_PAIRS, 5, 20) {}
  lemma NameKeys5x25() ensures KeyBlocks(TEAM_NAME_PAIRS, 5, 25) {}
  lemma NameKeys10x10() ensures KeyBlocks(TEAM_NAME_PAIRS, 10, 10) {}
  lemma NameKeys10x15() ensures KeyBlocks(TEAM_NAME_PAIRS, 10, 15) {}
  lemma NameKeys10x20() ensures KeyBlocks(TEAM_NAME_PAIRS, 10, 20) {}
  lemma NameKeys10x25() ensures KeyBlocks(TEAM_NAME_PAIRS, 10, 25) {}
  lemma NameKeys15x15() ensures KeyBlocks(TEAM_NAME_PAIRS, 15, 15) {}
  lemma NameKeys15x20() ensures KeyBlocks(TEAM_NAME_PAIRS, 15, 20) {}
  lemma NameKeys15x25() ensures KeyBlocks(TEAM_NAME_PAIRS, 15, 25) {}
  lemma NameKeys20x20() ensures KeyBlocks(TEAM_NAME_PAIRS, 20, 20) {}
  lemma NameKeys20x25() ensures KeyBlocks(TEAM_NAME_PAIRS, 20, 25) {}
  lemma NameKeys25x25() ensures KeyBlocks(TEAM_NAME_PAIRS, 25, 25) {}

  lemma NameKeysDistinct()
    ensures |TEAM_NAME_PAIRS| == 30 && DistinctKeys(TEAM_NAME_PAIRS)
  {
    NameKeys0x0();
    NameKeys0x5();
    NameKeys0x10();
    NameKeys0x15();
    NameKeys0x20();
    NameKeys0x25();
    NameKeys5x5();
    NameKeys5x10();
    NameKeys5x15();
    NameKeys5x20();
    NameKeys5x25();
    NameKeys10x10();
    NameKeys10x15();
    NameKeys10x20();
    NameKeys10x25();
    NameKeys15x15();
    NameKeys15x20();
    NameKeys15x25();
    NameKeys20x20();
    NameKeys20x25();
    NameKeys25x25();
    KeyBlocksDistinct(TEAM_NAME_PAIRS);
  }

  /** Numeric ids name each of the 30 clubs exactly once. */
  lemma IdTableBijective()
    ensures TeamIdToAbbr().Values == TeamLeague().Keys && |TeamIdToAbbr()| == 30
    ensures forall a, b :: a in TeamIdToAbbr() && b in TeamIdToAbbr() && a != b ==>
      TeamIdToAbbr()[a] != TeamIdToAbbr()[b]
  {
    IdRows();
    IdOrderLengths();
    IdOrderInverse();
    IdKeysAscending();
    AscendingKeysDistinct(TEAM_ID_PAIRS);
    LeagueKeysDistinct();
    ReorderedBijective(TEAM_ID_PAIRS, LEAGUE_PAIRS, ID_ORDER, ID_INVERSE);
  }

  /** Full names map onto the same 30 codes, one name per club. */
  lemma NameTableBijective()
    ensures TeamNameToAbbrev().Values == TeamLeague().Keys && |TeamNameToAbbrev()| == 30
    ensures forall a, b :: a in TeamNameToAbbrev() && b in TeamNameToAbbrev() && a != b ==>
      TeamNameToAbbrev()[a] != TeamNameToAbbrev()[b]
  {
    NameRows();
    NameOrderLengths();
    NameOrderInverse();
    NameKeysDistinct();
    LeagueKeysDistinct();
    ReorderedBijective(TEAM_NAME_PAIRS, LEAGUE_PAIRS, NAME_ORDER, NAME_INVERSE);
  }

  /** The league and division of each club, passed as a value so that proofs
    * about the tables' use never unfold the 30-row literals. */
  datatype Tables = Tables(league: map<string, string>, division: map<string, string>)

  /** The tables the pipeline uses. */
  function MlbTables(): Tables
  {
    Tables(TeamLeague(), TeamDivision())
  }

  /** The league table covers exactly the clubs of the division table. */
  lemma MlbTablesSameKeys()
    ensures MlbTables().league.Keys == MlbTables().division.Keys
    ensures |MlbTables().division| == 30
  {
    LeagueDivisionSameKeys();
  }

  /** The clubs in the division table's row order, which is the order a dict
    * built from it yields them. */
  function TableOrder(): (order: seq<string>)
    ensures |order| == 30
    ensures forall t :: t in order <==> t in TeamDivision()
  {
    var order := KeysOf(DIVISION_PAIRS);
    assert forall t :: t in order ==> t in TeamDivision() by {
      forall t | t in order ensures t in TeamDivision() {
        var i :| 0 <= i < |order| && order[i] == t;
        assert DIVISION_PAIRS[i].0 == t;
      }
    }
    assert forall t :: t in TeamDivision() ==> t in order by {
      forall t | t in TeamDivision() ensures t in order {
        var i :| 0 <= i < |DIVISION_PAIRS| && DIVISION_PAIRS[i].0 == t;
        assert order[i] == t;
      }
    }
    order
  }
}
