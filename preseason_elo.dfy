/** The preseason rating generator: last season's closing Elo, regressed 40%
  * toward 1500, blended with a signal from team WAR (actual or projected
  * totals, offseason transactions, or both), then compressed toward the
  * league mean and sorted. Three WAR sources: `TeamTotals`, `Hybrid` (prior
  * team WAR plus net transaction WAR) and `Transactions` (the legacy net
  * transaction WAR alone). */
module PreseasonElo {
  import opened Wrappers
  import Sums
  import Sorting
  import PairTables
  import TeamCodes
  import Fg = FangraphsNetFwar
  import opened Rounding
  import Weighted

  const MEAN_ELO: real := 1500.0
  /** Share of the distance to 1500 removed by mean reversion. */
  const REVERSION_FRACTION: real := 0.4
  /** Factor applied to each rating's distance from the league mean at the end. */
  const SPREAD_COMPRESSION: real := 0.75
  /** Elo points per team WAR above or below the league average. */
  const WAR_ELO_FACTOR: real := 5.0
  /** Share of the preseason rating that comes from the WAR signal. */
  const WAR_WEIGHT: real := 0.5
  /** Elo points per net transaction WAR in the legacy mode. */
  const WAR_TO_ELO: real := 5.5
  /** Cap on one player's WAR in the transaction files. */
  const MAX_PLAYER_WAR: real := 5.0

  /** The team WAR file of each season: actual totals for the two backfill
    * seasons, projected totals for 2026. */
  const TEAM_WAR_FILE: map<int, string> :=
    map[2024 := "team_war_2023.csv", 2025 := "team_war_2024.csv", 2026 := "team_war_2026_projected.csv"]

  /** The WAR column of the transaction files of each season. */
  const WAR_COLUMN: map<int, string> := map[2024 := "2023 WAR", 2025 := "2024 WAR", 2026 := "2025 WAR"]

  /** The words that may close the club name in a trade note here:
    * `Acquired from ([\w\s]+?) (?:for|with|as|\()`. */
  const FOR_WITH_AS: seq<string> := ["for", "with", "as", "("]

  /** The 30 clubs, in sorted order. */
  const ALL_TEAMS: seq<string> := [
    "ATH", "ATL", "AZ", "BAL", "BOS", "CHC", "CIN", "CLE", "COL", "CWS",
    "DET", "HOU", "KC", "LAA", "LAD", "MIA", "MIL", "MIN", "NYM", "NYY",
    "PHI", "PIT", "SD", "SEA", "SF", "STL", "TB", "TEX", "TOR", "WSH"]

  // The club list names each club once, checked five rows against five.

  ghost predicate Apart(a: nat, b: nat)
  {
    forall i, j :: a <= i < a + 5 && b <= j < b + 5 && i < j < |ALL_TEAMS| ==> ALL_TEAMS[i] != ALL_TEAMS[j]
  }

  lemma Apart0x0() ensures Apart(0, 0) {}
  lemma Apart0x5() ensures Apart(0, 5) {}
  lemma Apart0x10() ensures Apart(0, 10) {}
  lemma Apart0x15() ensures Apart(0, 15) {}
  lemma Apart0x20() ensures Apart(0, 20) {}
  lemma Apart0x25() ensures Apart(0, 25) {}
  lemma Apart5x5() ensures Apart(5, 5) {}
  lemma Apart5x10() ensures Apart(5, 10) {}
  lemma Apart5x15() ensures Apart(5, 15) {}
  lemma Apart5x20() ensures Apart(5, 20) {}
  lemma Apart5x25() ensures Apart(5, 25) {}
  lemma Apart10x10() ensures Apart(10, 10) {}
  lemma Apart10x15() ensures Apart(10, 15) {}
  lemma Apart10x20() ensures Apart(10, 20) {}
  lemma Apart10x25() ensures Apart(10, 25) {}
  lemma Apart15x15() ensures Apart(15, 15) {}
  lemma Apart15x20() ensures Apart(15, 20) {}
  lemma Apart15x25() ensures Apart(15, 25) {}
  lemma Apart20x20() ensures Apart(20, 20) {}
  lemma Apart20x25() ensures Apart(20, 25) {}
  lemma Apart25x25() ensures Apart(25, 25) {}

  lemma AllTeamsDistinct()
    ensures |ALL_TEAMS| == 30 && Sorting.Distinct(ALL_TEAMS)
  {
    Apart0x0();
    Apart0x5();
    Apart0x10();
    Apart0x15();
    Apart0x20();
    Apart0x25();
    Apart5x5();
    Apart5x10();
    Apart5x15();
    Apart5x20();
    Apart5x25();
    Apart10x10();
    Apart10x15();
    Apart10x20();
    Apart10x25();
    Apart15x15();
    Apart15x20();
    Apart15x25();
    Apart20x20();
    Apart20x25();
    Apart25x25();
    forall i, j | 0 <= i < j < |ALL_TEAMS| ensures ALL_TEAMS[i] != ALL_TEAMS[j] {
      assert Apart(5 * (i / 5), 5 * (j / 5));
    }
  }

  // The rating formulas.

  /** Last season's closing rating, 1500 for a club the baseline lacks. */
  function EloEnd(baseline: map<string, real>, team: string): real
  {
    if team in baseline then baseline[team] else MEAN_ELO
  }

  function MeanReverted(eloEnd: real): real
  {
    (1.0 - REVERSION_FRACTION) * eloEnd + REVERSION_FRACTION * MEAN_ELO
  }

  /** Mean reversion keeps 60% of a rating's distance from 1500, on the same
    * side. */
  lemma MeanRevertedToward(eloEnd: real)
    ensures MeanReverted(eloEnd) - MEAN_ELO == 0.6 * (eloEnd - MEAN_ELO)
    ensures eloEnd <= MEAN_ELO ==> eloEnd <= MeanReverted(eloEnd) <= MEAN_ELO
    ensures MEAN_ELO <= eloEnd ==> MEAN_ELO <= MeanReverted(eloEnd) <= eloEnd
  {
  }

  /** The Elo signal of a WAR total `vsAvg` above the league average. */
  function WarElo(vsAvg: real): real
  {
    MEAN_ELO + vsAvg * WAR_ELO_FACTOR
  }

  function Blend(warElo: real, reverted: real): real
  {
    WAR_WEIGHT * warElo + (1.0 - WAR_WEIGHT) * reverted
  }

  /** The blend is the midpoint of the WAR signal and the regressed rating;
    * a club of exactly average WAR keeps half of its regressed distance from
    * 1500. */
  lemma BlendMidpoint(warElo: real, reverted: real)
    ensures Blend(warElo, reverted) == (warElo + reverted) / 2.0
    ensures warElo <= reverted ==> warElo <= Blend(warElo, reverted) <= reverted
    ensures reverted <= warElo ==> reverted <= Blend(warElo, reverted) <= warElo
    ensures Blend(WarElo(0.0), reverted) - MEAN_ELO == 0.5 * (reverted - MEAN_ELO)
  {
  }

  // Dicts read from CSV rows.

  /** A dict of WAR totals: its keys in insertion order and its values. */
  datatype Dict = Dict(keys: seq<string>, values: map<string, real>)

  ghost predicate WellFormed(d: Dict)
  {
    Sorting.Distinct(d.keys) && forall k :: k in d.keys <==> k in d.values
  }

  /** `d[k] = v`: a new key goes to the end of the order, a repeated key keeps
    * its place. */
  function Put(d: Dict, k: string, v: real): Dict
  {
    if k in d.keys then Dict(d.keys, d.values[k := v]) else Dict(d.keys + [k], d.values[k := v])
  }

  lemma PutWellFormed(d: Dict, k: string, v: real)
    requires WellFormed(d)
    ensures WellFormed(Put(d, k, v))
  {
    if k !in d.keys {
      Sorting.DistinctSnoc(d.keys, k);
    }
  }

  /** `{row["team"]: float(row["total_war"]) for row in rows}`: the dict the
    * rows spell (a repeated club keeps its last value), with one key per
    * entry, empty exactly when there are no rows. */
  function DictOf(rows: seq<(string, real)>): (d: Dict)
    ensures WellFormed(d)
    ensures d.values == PairTables.PairsToMap(rows)
    ensures |d.keys| == 0 <==> |rows| == 0
  {
    if |rows| == 0 then Dict([], map[])
    else
      var init := DictOf(rows[..|rows| - 1]);
      var last := rows[|rows| - 1];
      PutWellFormed(init, last.0, last.1);
      Put(init, last.0, last.1)
  }

  /** `len(d)` counts the keys once each. */
  lemma KeyCount(d: Dict)
    requires WellFormed(d)
    ensures |d.keys| == |d.values|
  {
    Sorting.DistinctCard(d.keys);
    assert (set x | x in d.keys) == d.values.Keys;
  }

  /** `d.get(k, dflt)`. */
  function Get(d: Dict, k: string, dflt: real): real
  {
    if k in d.values then d.values[k] else dflt
  }

  /** `sum(d.values())`. */
  function Total(d: Dict): real
  {
    Sums.SumOf(d.keys, (k: string) => Get(d, k, 0.0))
  }

  /** `sum(d.values()) / len(d)`, which raises on an empty dict. */
  function Average(d: Dict): (r: Result<real>)
    ensures r.Ok? <==> |d.keys| > 0
    ensures r.Ok? ==> r.value * |d.keys| as real == Total(d)
  {
    if |d.keys| == 0 then Err("division by zero") else Ok(Total(d) / |d.keys| as real)
  }

  /** The league average centres the clubs: their distances from it sum to 0. */
  lemma AverageCentres(d: Dict)
    requires Average(d).Ok?
    ensures Sums.SumOf(d.keys, (k: string) => Get(d, k, 0.0) - Average(d).value) == 0.0
  {
    var avg := Average(d).value;
    Sums.SumOfShifted(d.keys, (k: string) => Get(d, k, 0.0), (k: string) => Get(d, k, 0.0) - avg, avg);
  }

  // The output rows.

  /** The per-mode columns of a row. */
  datatype Detail =
    | TotalsDetail(totalWar: real, warVsAvg: real, warElo: real)
    | HybridDetail(baseWar: real, netTxnWar: real, adjustedWar: real, warVsAvg: real, warElo: real)
    | TxnDetail(netWarChange: real, eloAdjustment: real)

  /** One club's row: closing and regressed ratings, the mode's columns and
    * the preseason rating. */
  datatype Row = Row(team: string, eloEndOfSeason: real, meanRevertedElo: real, detail: Detail, preseasonElo: real)

  function PreseasonOf(r: Row): real { r.preseasonElo }

  /** Rows come out one per club, in club order. */
  ghost predicate ClubOrder(rows: seq<Row>)
  {
    RowsFor(rows, ALL_TEAMS)
  }

  ghost predicate RowsFor(rows: seq<Row>, teams: seq<string>)
  {
    |rows| == |teams| && forall i :: 0 <= i < |rows| ==> rows[i].team == teams[i]
  }

  lemma RoundFifteenHundred()
    ensures Round(MEAN_ELO, 2) == MEAN_ELO
  {
    RoundOnGrid(150000, 2);
  }

  // Team-totals mode.

  /** The season's team WAR dict; exits when the season has no file or the
    * file is missing. */
  function TeamWarOf(season: int, file: Option<seq<(string, real)>>): (r: Result<Dict>)
    ensures r.Ok? <==> season in TEAM_WAR_FILE && file.Some?
    ensures r.Ok? ==> WellFormed(r.value) && r.value.values == PairTables.PairsToMap(file.value)
  {
    if season !in TEAM_WAR_FILE then Err("no team WAR file mapping for season")
    else if file.None? then Err("team WAR file not found")
    else Ok(DictOf(file.value))
  }

  /** One club's team-totals row: a club the WAR file lacks is taken to be
    * exactly average. */
  function TotalsRow(baseline: map<string, real>, teamWar: Dict, avg: real, team: string): Row
  {
    var eloEnd := EloEnd(baseline, team);
    var reverted := MeanReverted(eloEnd);
    var tw := Get(teamWar, team, avg);
    var warElo := WarElo(tw - avg);
    Row(team, Round(eloEnd, 2), Round(reverted, 2),
        TotalsDetail(Round(tw, 1), Round(tw - avg, 1), Round(warElo, 2)),
        Round(Blend(warElo, reverted), 2))
  }

  function TotalsRows(baseline: map<string, real>, teamWar: Dict, avg: real, teams: seq<string>): (rows: seq<Row>)
    ensures RowsFor(rows, teams)
  {
    seq(|teams|, i requires 0 <= i < |teams| => TotalsRow(baseline, teamWar, avg, teams[i]))
  }

  /** `generate_team_totals`: fails when the season has no WAR file, when the
    * file is missing, and when it has no rows (the average divides by zero);
    * otherwise one row per club. */
  function TeamTotalsTable(season: int, baseline: map<string, real>, file: Option<seq<(string, real)>>): (r: Result<seq<Row>>)
    ensures r.Ok? <==> season in TEAM_WAR_FILE && file.Some? && |file.value| > 0
    ensures r.Ok? ==> ClubOrder(r.value)
  {
    match TeamWarOf(season, file)
    case Err(e) => Err(e)
    case Ok(teamWar) =>
      match Average(teamWar)
      case Err(e) => Err(e)
      case Ok(avg) => Ok(TotalsRows(baseline, teamWar, avg, ALL_TEAMS))
  }

  /** `generate_team_totals`. */
  method GenerateTeamTotals(season: int, baseline: map<string, real>, file: Option<seq<(string, real)>>)
    returns (r: Result<seq<Row>>)
    ensures r == TeamTotalsTable(season, baseline, file)
  {
    if season !in TEAM_WAR_FILE {
      return Err("no team WAR file mapping for season");
    }
    if file.None? {
      return Err("team WAR file not found");
    }
    var teamWar := DictOf(file.value);
    var avg := Average(teamWar);
    if avg.Err? {
      return Err(avg.error);
    }
    var rows := TotalsRecords(baseline, teamWar, avg.value, ALL_TEAMS);
    return Ok(rows);
  }

  /** The record loop over the clubs. */
  method TotalsRecords(baseline: map<string, real>, teamWar: Dict, avg: real, teams: seq<string>) returns (rows: seq<Row>)
    ensures rows == TotalsRows(baseline, teamWar, avg, teams)
  {
    rows := [];
    var i := 0;
    while i < |teams|
      invariant 0 <= i <= |teams|
      invariant |rows| == i
      invariant forall k :: 0 <= k < i ==> rows[k] == TotalsRow(baseline, teamWar, avg, teams[k])
    {
      rows := rows + [TotalsRow(baseline, teamWar, avg, teams[i])];
      i := i + 1;
    }
    assert rows == TotalsRows(baseline, teamWar, avg, teams);
  }

  /** A team-totals row: the WAR signal is centred on the league average (a
    * club missing from the WAR file, or exactly average, gets 1500), a club
    * without a closing rating starts from 1500, and the preseason rating is
    * within half a cent of the blend of the two. */
  lemma TotalsRowFacts(baseline: map<string, real>, teamWar: Dict, avg: real, team: string)
    ensures TotalsRow(baseline, teamWar, avg, team).team == team
    ensures team !in baseline ==>
      TotalsRow(baseline, teamWar, avg, team).eloEndOfSeason == MEAN_ELO &&
      TotalsRow(baseline, teamWar, avg, team).meanRevertedElo == MEAN_ELO
    ensures team !in teamWar.values ==>
      TotalsRow(baseline, teamWar, avg, team).detail.warVsAvg == 0.0 &&
      TotalsRow(baseline, teamWar, avg, team).detail.warElo == MEAN_ELO
    ensures -0.005 <= TotalsRow(baseline, teamWar, avg, team).preseasonElo -
      Blend(WarElo(Get(teamWar, team, avg) - avg), MeanReverted(EloEnd(baseline, team))) <= 0.005
  {
    RoundFifteenHundred();
    RoundZero(1);
    RoundError(Blend(WarElo(Get(teamWar, team, avg) - avg), MeanReverted(EloEnd(baseline, team))), 2);
  }

  // Transaction WAR, shared by the hybrid and transactions modes.

  /** A transaction-file row as loaded: canonical club code, a WAR cell that
    * does not parse counts as 0, and no player counts for more than
    * MAX_PLAYER_WAR. */
  function Load(r: Fg.FgRow): (p: Fg.Player)
    ensures p.war <= MAX_PLAYER_WAR
    ensures r.projWar.None? ==> p.war == 0.0
    ensures r.projWar.Some? && r.projWar.value <= MAX_PLAYER_WAR ==> p.war == r.projWar.value
    ensures p.team == Fg.Prepare(r).team && p.name == r.name && p.details == r.details
  {
    var q := Fg.Prepare(r);
    q.(war := if q.war <= MAX_PLAYER_WAR then q.war else MAX_PLAYER_WAR)
  }

  function LoadAll(rows: seq<Fg.FgRow>): (ps: seq<Fg.Player>)
    ensures |ps| == |rows| && forall i :: 0 <= i < |rows| ==> ps[i] == Load(rows[i])
  {
    seq(|rows|, i requires 0 <= i < |rows| => Load(rows[i]))
  }

  /** The loaded additions, and the subtractions followed by the trade
    * departures found in the additions' notes. */
  datatype TxnWar = TxnWar(adds: seq<Fg.Player>, subs: seq<Fg.Player>)

  /** A departure carries the capped WAR of the addition it comes from. */
  lemma DeparturesCapped(adds: seq<Fg.Player>)
    requires forall i :: 0 <= i < |adds| ==> adds[i].war <= MAX_PLAYER_WAR
    ensures forall d :: d in Fg.TradeDepartures(Fg.NicknameTeam(), adds, FOR_WITH_AS) ==> d.war <= MAX_PLAYER_WAR
  {
    forall d | d in Fg.TradeDepartures(Fg.NicknameTeam(), adds, FOR_WITH_AS) ensures d.war <= MAX_PLAYER_WAR {
      Fg.DeparturesFromAdditions(Fg.NicknameTeam(), adds, d, FOR_WITH_AS);
    }
  }

  /** `load_transaction_war`: exits when the season has no WAR column or a
    * file is missing. */
  function TransactionWar(season: int, adds: Option<seq<Fg.FgRow>>, subs: Option<seq<Fg.FgRow>>): (r: Result<TxnWar>)
    ensures r.Ok? <==> season in WAR_COLUMN && adds.Some? && subs.Some?
    ensures r.Ok? ==> forall p :: p in r.value.adds ==> p.war <= MAX_PLAYER_WAR
    ensures r.Ok? ==> forall p :: p in r.value.subs ==> p.war <= MAX_PLAYER_WAR
  {
    if season !in WAR_COLUMN then Err("no WAR column mapping for season")
    else if adds.None? then Err("additions file not found")
    else if subs.None? then Err("subtractions file not found")
    else
      var a := LoadAll(adds.value);
      DeparturesCapped(a);
      Ok(TxnWar(a, LoadAll(subs.value) + Fg.TradeDepartures(Fg.NicknameTeam(), a, FOR_WITH_AS)))
  }

  /** The loader, with the departure extraction loop. */
  method LoadTransactionWar(season: int, adds: Option<seq<Fg.FgRow>>, subs: Option<seq<Fg.FgRow>>)
    returns (r: Result<TxnWar>)
    ensures r == TransactionWar(season, adds, subs)
  {
    if season !in WAR_COLUMN {
      return Err("no WAR column mapping for season");
    }
    if adds.None? {
      return Err("additions file not found");
    }
    if subs.None? {
      return Err("subtractions file not found");
    }
    var a := LoadAll(adds.value);
    var departures := Fg.ExtractTradeDepartures(Fg.NicknameTeam(), a, FOR_WITH_AS);
    return Ok(TxnWar(a, LoadAll(subs.value) + departures));
  }

  /** A traded player's WAR is gained by the acquiring club and, when the note
    * names a known club, lost by that club: one of the 30. */
  lemma TradeChargedToSeller(season: int, adds: Option<seq<Fg.FgRow>>, subs: Option<seq<Fg.FgRow>>, i: int)
    requires TransactionWar(season, adds, subs).Ok? && 0 <= i < |TransactionWar(season, adds, subs).value.adds|
    requires Fg.Departure(Fg.NicknameTeam(), TransactionWar(season, adds, subs).value.adds[i], FOR_WITH_AS).Some?
    ensures var t := TransactionWar(season, adds, subs).value;
      var d := Fg.Departure(Fg.NicknameTeam(), t.adds[i], FOR_WITH_AS).value;
      d in t.subs && d.war == t.adds[i].war && d.team in TeamCodes.TeamDivision()
  {
    var t := TransactionWar(season, adds, subs).value;
    var d := Fg.Departure(Fg.NicknameTeam(), t.adds[i], FOR_WITH_AS).value;
    Fg.DeparturesFromAdditions(Fg.NicknameTeam(), t.adds, d, FOR_WITH_AS);
    Fg.DepartureFacts(t.adds[i], FOR_WITH_AS);
  }

  /** Every note whose club the net-fWAR summary's pattern finds is matched
    * here too: ` as` and ` (` only add ways to close the club name. */
  lemma WiderPattern(s: string, p: int, e: int)
    requires Fg.MatchSpan(s, p, e, Fg.FOR_WITH)
    ensures Fg.MatchSpan(s, p, e, FOR_WITH_AS)
  {
    var k :| 0 <= k < |Fg.FOR_WITH| && Fg.LiteralAt(s, e + 1, Fg.FOR_WITH[k]);
    assert FOR_WITH_AS[k] == Fg.FOR_WITH[k];
  }

  /** `add_war.get(team, 0)` and `sub_war.get(team, 0)`. */
  function Gained(t: TxnWar, team: string): real { Fg.TeamWar(t.adds, team) }

  function Lost(t: TxnWar, team: string): real { Fg.TeamWar(t.subs, team) }

  // Hybrid mode.

  /** `adjusted_war[team]`: prior team WAR (the league average for a club the
    * file lacks) plus the club's net transaction WAR. */
  function AdjustedWar(teamWar: Dict, baseAvg: real, t: TxnWar, team: string): real
  {
    Get(teamWar, team, baseAvg) + (Gained(t, team) - Lost(t, team))
  }

  function AdjustedMap(teamWar: Dict, baseAvg: real, t: TxnWar, teams: seq<string>): map<string, real>
  {
    map team | team in teams :: AdjustedWar(teamWar, baseAvg, t, team)
  }

  /** The adjusted-WAR loop over the clubs. */
  method AdjustAll(teamWar: Dict, baseAvg: real, t: TxnWar, teams: seq<string>) returns (adjusted: map<string, real>)
    ensures adjusted == AdjustedMap(teamWar, baseAvg, t, teams)
  {
    adjusted := map[];
    var i := 0;
    while i < |teams|
      invariant 0 <= i <= |teams|
      invariant adjusted == AdjustedMap(teamWar, baseAvg, t, teams[..i])
    {
      assert teams[..i + 1] == teams[..i] + [teams[i]];
      adjusted := adjusted[teams[i] := AdjustedWar(teamWar, baseAvg, t, teams[i])];
      i := i + 1;
    }
    assert teams[..i] == teams;
  }

  /** `sum(adjusted_war.values()) / len(adjusted_war)`; the dict holds one
    * entry per club, in club order. */
  function AdjustedAverage(teamWar: Dict, baseAvg: real, t: TxnWar): real
  {
    Sums.SumOf(ALL_TEAMS, (team: string) => AdjustedWar(teamWar, baseAvg, t, team)) / |ALL_TEAMS| as real
  }

  /** The adjusted dict has the 30 clubs as keys. */
  lemma AdjustedMapSize(teamWar: Dict, baseAvg: real, t: TxnWar)
    ensures AdjustedMap(teamWar, baseAvg, t, ALL_TEAMS).Keys == set team | team in ALL_TEAMS
    ensures |AdjustedMap(teamWar, baseAvg, t, ALL_TEAMS)| == |ALL_TEAMS|
  {
    AllTeamsDistinct();
    Sorting.DistinctCard(ALL_TEAMS);
    assert AdjustedMap(teamWar, baseAvg, t, ALL_TEAMS).Keys == set team | team in ALL_TEAMS;
  }

  /** One club's hybrid row. */
  function HybridRow(baseline: map<string, real>, teamWar: Dict, baseAvg: real, t: TxnWar, adjAvg: real, team: string): Row
  {
    HybridRowOf(baseline, team, Get(teamWar, team, baseAvg), AdjustedWar(teamWar, baseAvg, t, team), adjAvg)
  }

  /** The row of a club with prior WAR `base` and adjusted WAR `aw`. */
  function HybridRowOf(baseline: map<string, real>, team: string, base: real, aw: real, adjAvg: real): Row
  {
    var eloEnd := EloEnd(baseline, team);
    var reverted := MeanReverted(eloEnd);
    var warElo := WarElo(aw - adjAvg);
    Row(team, Round(eloEnd, 2), Round(reverted, 2),
        HybridDetail(Round(base, 1), Round(aw - base, 1), Round(aw, 1), Round(aw - adjAvg, 1), Round(warElo, 2)),
        Round(Blend(warElo, reverted), 2))
  }

  function HybridRows(baseline: map<string, real>, teamWar: Dict, baseAvg: real, t: TxnWar, adjAvg: real, teams: seq<string>): (rows: seq<Row>)
    ensures RowsFor(rows, teams)
  {
    seq(|teams|, i requires 0 <= i < |teams| => HybridRow(baseline, teamWar, baseAvg, t, adjAvg, teams[i]))
  }

  /** `generate_hybrid`: the team WAR file's errors first (no mapping, file
    * missing, empty file), then the transaction loader's. */
  function HybridTable(season: int, baseline: map<string, real>, file: Option<seq<(string, real)>>,
                       adds: Option<seq<Fg.FgRow>>, subs: Option<seq<Fg.FgRow>>): (r: Result<seq<Row>>)
    ensures r.Ok? <==> season in TEAM_WAR_FILE && file.Some? && |file.value| > 0 && season in WAR_COLUMN && adds.Some? && subs.Some?
    ensures r.Ok? ==> ClubOrder(r.value)
  {
    match TeamWarOf(season, file)
    case Err(e) => Err(e)
    case Ok(teamWar) =>
      match Average(teamWar)
      case Err(e) => Err(e)
      case Ok(baseAvg) =>
        match TransactionWar(season, adds, subs)
        case Err(e) => Err(e)
        case Ok(t) => Ok(HybridRows(baseline, teamWar, baseAvg, t, AdjustedAverage(teamWar, baseAvg, t), ALL_TEAMS))
  }

  /** The two loops of `generate_hybrid`. */
  method GenerateHybrid(season: int, baseline: map<string, real>, file: Option<seq<(string, real)>>,
                        adds: Option<seq<Fg.FgRow>>, subs: Option<seq<Fg.FgRow>>) returns (r: Result<seq<Row>>)
    ensures r == HybridTable(season, baseline, file, adds, subs)
  {
    if season !in TEAM_WAR_FILE {
      return Err("no team WAR file mapping for season");
    }
    if file.None? {
      return Err("team WAR file not found");
    }
    var teamWar := DictOf(file.value);
    var baseAvg := Average(teamWar);
    if baseAvg.Err? {
      return Err(baseAvg.error);
    }
    var txn := LoadTransactionWar(season, adds, subs);
    if txn.Err? {
      return Err(txn.error);
    }
    var adjusted := AdjustAll(teamWar, baseAvg.value, txn.value, ALL_TEAMS);
    var adjAvg := AdjustedAverage(teamWar, baseAvg.value, txn.value);
    var rows := HybridRecords(baseline, teamWar, baseAvg.value, txn.value, adjusted, adjAvg, ALL_TEAMS);
    return Ok(rows);
  }

  /** The record loop of `generate_hybrid`, reading the adjusted dict. */
  method HybridRecords(baseline: map<string, real>, teamWar: Dict, baseAvg: real, t: TxnWar,
                       adjusted: map<string, real>, adjAvg: real, teams: seq<string>) returns (rows: seq<Row>)
    requires adjusted == AdjustedMap(teamWar, baseAvg, t, teams)
    ensures rows == HybridRows(baseline, teamWar, baseAvg, t, adjAvg, teams)
  {
    rows := [];
    var i := 0;
    while i < |teams|
      invariant 0 <= i <= |teams|
      invariant |rows| == i
      invariant forall k :: 0 <= k < i ==> rows[k] == HybridRow(baseline, teamWar, baseAvg, t, adjAvg, teams[k])
    {
      var team := teams[i];
      var row := HybridRowOf(baseline, team, Get(teamWar, team, baseAvg), adjusted[team], adjAvg);
      rows := rows + [row];
      i := i + 1;
    }
    assert rows == HybridRows(baseline, teamWar, baseAvg, t, adjAvg, teams);
  }

  /** Distances from the mean of `s` sum to 0, so the WAR signal of those
    * distances averages exactly 1500. */
  lemma {:induction false} CentredSignal(s: seq<string>, f: string -> real, avg: real, g: string -> real, h: string -> real)
    requires |s| > 0 && avg == Sums.SumOf(s, f) / |s| as real
    requires forall x :: g(x) == f(x) - avg
    requires forall x :: h(x) == WarElo(f(x) - avg)
    ensures Sums.SumOf(s, g) == 0.0
    ensures Sums.SumOf(s, h) == |s| as real * MEAN_ELO
  {
    var one := (x: string) => 1.0;
    Sums.SumOfShifted(s, f, g, avg);
    Weighted.DivTimes(Sums.SumOf(s, f), |s| as real);
    Sums.SumOfLinear(s, g, one, h, WAR_ELO_FACTOR, MEAN_ELO);
    Sums.SumOfConstant(s, one, 1.0);
  }

  /** After the transactions the clubs' adjusted WAR is re-centred: the 30
    * distances from the adjusted average sum to 0 and the unrounded WAR
    * signal averages exactly 1500. */
  lemma HybridCentred(teamWar: Dict, baseAvg: real, t: TxnWar)
    ensures Sums.SumOf(ALL_TEAMS, (team: string) =>
      AdjustedWar(teamWar, baseAvg, t, team) - AdjustedAverage(teamWar, baseAvg, t)) == 0.0
    ensures Sums.SumOf(ALL_TEAMS, (team: string) =>
      WarElo(AdjustedWar(teamWar, baseAvg, t, team) - AdjustedAverage(teamWar, baseAvg, t))) == |ALL_TEAMS| as real * MEAN_ELO
  {
    var avg := AdjustedAverage(teamWar, baseAvg, t);
    CentredSignal(ALL_TEAMS, (team: string) => AdjustedWar(teamWar, baseAvg, t, team), avg,
      (team: string) => AdjustedWar(teamWar, baseAvg, t, team) - avg,
      (team: string) => WarElo(AdjustedWar(teamWar, baseAvg, t, team) - avg));
  }

  /** A hybrid row: its transaction column is the club's net transaction WAR
    * to one decimal (the prior WAR cancels out), and its preseason rating is
    * within half a cent of the blend of the re-centred WAR signal and the
    * regressed rating. */
  lemma HybridRowFacts(baseline: map<string, real>, teamWar: Dict, baseAvg: real, t: TxnWar, adjAvg: real, team: string)
    ensures HybridRow(baseline, teamWar, baseAvg, t, adjAvg, team).team == team
    ensures HybridRow(baseline, teamWar, baseAvg, t, adjAvg, team).detail.netTxnWar == Round(Gained(t, team) - Lost(t, team), 1)
    ensures -0.005 <= HybridRow(baseline, teamWar, baseAvg, t, adjAvg, team).preseasonElo -
      Blend(WarElo(AdjustedWar(teamWar, baseAvg, t, team) - adjAvg), MeanReverted(EloEnd(baseline, team))) <= 0.005
  {
    var base := Get(teamWar, team, baseAvg);
    assert AdjustedWar(teamWar, baseAvg, t, team) - base == Gained(t, team) - Lost(t, team);
    RoundError(Blend(WarElo(AdjustedWar(teamWar, baseAvg, t, team) - adjAvg), MeanReverted(EloEnd(baseline, team))), 2);
  }

  // Transactions mode.

  /** One club's legacy row: the net transaction WAR to one decimal, 5.5 Elo
    * per WAR to one decimal, added to the regressed rating. */
  function TxnRow(baseline: map<string, real>, t: TxnWar, team: string): Row
  {
    var eloEnd := EloEnd(baseline, team);
    var reverted := MeanReverted(eloEnd);
    var net := Round(Gained(t, team) - Lost(t, team), 1);
    var adj := Round(net * WAR_TO_ELO, 1);
    Row(team, Round(eloEnd, 2), Round(reverted, 2), TxnDetail(net, adj), Round(reverted + adj, 2))
  }

  function TxnRows(baseline: map<string, real>, t: TxnWar, teams: seq<string>): (rows: seq<Row>)
    ensures RowsFor(rows, teams)
  {
    seq(|teams|, i requires 0 <= i < |teams| => TxnRow(baseline, t, teams[i]))
  }

  /** `generate_transactions`: only the transaction loader can fail. */
  function TransactionsTable(season: int, baseline: map<string, real>, adds: Option<seq<Fg.FgRow>>,
                             subs: Option<seq<Fg.FgRow>>): (r: Result<seq<Row>>)
    ensures r.Ok? <==> season in WAR_COLUMN && adds.Some? && subs.Some?
    ensures r.Ok? ==> ClubOrder(r.value)
  {
    match TransactionWar(season, adds, subs)
    case Err(e) => Err(e)
    case Ok(t) => Ok(TxnRows(baseline, t, ALL_TEAMS))
  }

  /** `generate_transactions`. */
  method GenerateTransactions(season: int, baseline: map<string, real>, adds: Option<seq<Fg.FgRow>>,
                              subs: Option<seq<Fg.FgRow>>) returns (r: Result<seq<Row>>)
    ensures r == TransactionsTable(season, baseline, adds, subs)
  {
    var txn := LoadTransactionWar(season, adds, subs);
    if txn.Err? {
      return Err(txn.error);
    }
    var rows := TxnRecords(baseline, txn.value, ALL_TEAMS);
    return Ok(rows);
  }

  /** The record loop over the clubs. */
  method TxnRecords(baseline: map<string, real>, t: TxnWar, teams: seq<string>) returns (rows: seq<Row>)
    ensures rows == TxnRows(baseline, t, teams)
  {
    rows := [];
    var i := 0;
    while i < |teams|
      invariant 0 <= i <= |teams|
      invariant |rows| == i
      invariant forall k :: 0 <= k < i ==> rows[k] == TxnRow(baseline, t, teams[k])
    {
      rows := rows + [TxnRow(baseline, t, teams[i])];
      i := i + 1;
    }
    assert rows == TxnRows(baseline, t, teams);
  }

  /** A legacy row: the rounded adjustment is within 0.325 Elo of 5.5 times
    * the exact net WAR (two roundings to a tenth, the first scaled by 5.5),
    * the preseason rating is within half a cent of the regressed rating plus
    * the adjustment, and a club whose gains and losses cancel keeps its
    * regressed rating. */
  lemma TxnRowFacts(baseline: map<string, real>, t: TxnWar, team: string)
    ensures TxnRow(baseline, t, team).team == team
    ensures -0.325 <= TxnRow(baseline, t, team).detail.eloAdjustment - (Gained(t, team) - Lost(t, team)) * WAR_TO_ELO <= 0.325
    ensures -0.005 <= TxnRow(baseline, t, team).preseasonElo -
      (MeanReverted(EloEnd(baseline, team)) + TxnRow(baseline, t, team).detail.eloAdjustment) <= 0.005
    ensures Gained(t, team) == Lost(t, team) ==>
      TxnRow(baseline, t, team).detail.eloAdjustment == 0.0 &&
      TxnRow(baseline, t, team).preseasonElo == Round(MeanReverted(EloEnd(baseline, team)), 2)
  {
    var net := Gained(t, team) - Lost(t, team);
    var rnet := Round(net, 1);
    RoundError(net, 1);
    RoundError(rnet * WAR_TO_ELO, 1);
    var adj := Round(rnet * WAR_TO_ELO, 1);
    RoundError(MeanReverted(EloEnd(baseline, team)) + adj, 2);
    RoundZero(1);
  }

  /** The hybrid mode's transaction column is the legacy mode's net WAR. */
  lemma HybridNetMatchesTransactions(baseline: map<string, real>, teamWar: Dict, baseAvg: real, t: TxnWar, adjAvg: real, team: string)
    ensures HybridRow(baseline, teamWar, baseAvg, t, adjAvg, team).detail.netTxnWar == TxnRow(baseline, t, team).detail.netWarChange
  {
    HybridRowFacts(baseline, teamWar, baseAvg, t, adjAvg, team);
  }

  // The command: source choice, compression and ordering.

  datatype WarSource = Hybrid | TeamTotals | Transactions

  /** `args.war_source or ("team-totals" if season >= 2026 else "hybrid")`. */
  function DefaultSource(season: int, requested: Option<WarSource>): (s: WarSource)
    ensures requested.Some? ==> s == requested.value
    ensures requested.None? ==> s != Transactions && (s == TeamTotals <==> season >= 2026)
  {
    if requested.Some? then requested.value else if season >= 2026 then TeamTotals else Hybrid
  }

  /** The generator the source selects. */
  function Generated(source: WarSource, season: int, baseline: map<string, real>, file: Option<seq<(string, real)>>,
                     adds: Option<seq<Fg.FgRow>>, subs: Option<seq<Fg.FgRow>>): (r: Result<seq<Row>>)
    ensures r.Ok? ==> ClubOrder(r.value)
  {
    match source
    case Hybrid => HybridTable(season, baseline, file, adds, subs)
    case TeamTotals => TeamTotalsTable(season, baseline, file)
    case Transactions => TransactionsTable(season, baseline, adds, subs)
  }

  /** `result_df["preseason_elo"].mean()`. */
  function MeanPreseason(rows: seq<Row>): real
    requires |rows| > 0
  {
    Sums.SumOf(rows, PreseasonOf) / |rows| as real
  }

  /** `mean + SPREAD_COMPRESSION * (x - mean)`. */
  function Compressed(mean: real, x: real): real
  {
    mean + SPREAD_COMPRESSION * (x - mean)
  }

  /** The preseason column pulled toward its mean and rounded to cents; the
    * other columns are untouched. */
  function Compress(rows: seq<Row>): (out: seq<Row>)
    ensures |out| == |rows|
    ensures forall i :: 0 <= i < |rows| ==> out[i] == rows[i].(preseasonElo := out[i].preseasonElo)
  {
    if |rows| == 0 then []
    else
      var mean := MeanPreseason(rows);
      seq(|rows|, i requires 0 <= i < |rows| => rows[i].(preseasonElo := Round(Compressed(mean, rows[i].preseasonElo), 2)))
  }

  /** Compression keeps the mean before rounding, and scales every gap
    * between two clubs by 0.75. */
  lemma CompressKeepsMean(rows: seq<Row>)
    requires |rows| > 0
    ensures Sums.SumOf(rows, (r: Row) => Compressed(MeanPreseason(rows), r.preseasonElo)) == Sums.SumOf(rows, PreseasonOf)
    ensures forall x, y :: Compressed(MeanPreseason(rows), x) - Compressed(MeanPreseason(rows), y) == SPREAD_COMPRESSION * (x - y)
  {
    var mean := MeanPreseason(rows);
    var one := (r: Row) => 1.0;
    Sums.SumOfLinear(rows, PreseasonOf, one, (r: Row) => Compressed(mean, r.preseasonElo), SPREAD_COMPRESSION, (1.0 - SPREAD_COMPRESSION) * mean);
    Weighted.DivTimes(Sums.SumOf(rows, PreseasonOf), |rows| as real);
    Sums.SumOfConstant(rows, one, 1.0);
  }

  /** Each output rating is the compressed rating to within half a cent. */
  lemma CompressRounding(rows: seq<Row>, i: int)
    requires 0 <= i < |rows|
    ensures -0.005 <= Compress(rows)[i].preseasonElo - Compressed(MeanPreseason(rows), rows[i].preseasonElo) <= 0.005
  {
    RoundError(Compressed(MeanPreseason(rows), rows[i].preseasonElo), 2);
  }

  /** The compressed rows, highest preseason rating first. */
  function PreseasonTable(rows: seq<Row>): seq<Row>
  {
    Sorting.Sort(Compress(rows), Sorting.ByKeyDesc(PreseasonOf))
  }

  /** The output holds exactly the compressed rows, highest rating first. */
  lemma PreseasonTableOrdered(rows: seq<Row>)
    ensures multiset(PreseasonTable(rows)) == multiset(Compress(rows))
    ensures forall i, j :: 0 <= i < j < |PreseasonTable(rows)| ==>
      PreseasonTable(rows)[i].preseasonElo >= PreseasonTable(rows)[j].preseasonElo
  {
    var le := Sorting.ByKeyDesc(PreseasonOf);
    var table := PreseasonTable(rows);
    Sorting.ByKeyDescPreorder(PreseasonOf);
    Sorting.SortSorted(Compress(rows), le);
    forall i, j | 0 <= i < j < |table| ensures table[i].preseasonElo >= table[j].preseasonElo {
      assert le(table[i], table[j]);
      assert PreseasonOf(table[i]) >= PreseasonOf(table[j]);
    }
  }

  /** The whole command: the baseline file (`{team: elo}` of last season's
    * closing ratings) must exist, then the chosen generator runs, and its
    * table is compressed and sorted. */
  function Preseason(season: int, requested: Option<WarSource>, baselineRows: Option<seq<(string, real)>>,
                     file: Option<seq<(string, real)>>, adds: Option<seq<Fg.FgRow>>, subs: Option<seq<Fg.FgRow>>)
    : (r: Result<seq<Row>>)
    ensures r.Ok? ==> baselineRows.Some? && |r.value| == |ALL_TEAMS|
    ensures baselineRows.Some? ==>
      (r.Ok? <==> Generated(DefaultSource(season, requested), season, PairTables.PairsToMap(baselineRows.value), file, adds, subs).Ok?)
  {
    if baselineRows.None? then Err("Elo baseline not found")
    else
      match Generated(DefaultSource(season, requested), season, PairTables.PairsToMap(baselineRows.value), file, adds, subs)
      case Err(e) => Err(e)
      case Ok(rows) => Ok(PreseasonTable(rows))
  }

  /** `main` with its inputs as values. */
  method GeneratePreseason(season: int, requested: Option<WarSource>, baselineRows: Option<seq<(string, real)>>,
                           file: Option<seq<(string, real)>>, adds: Option<seq<Fg.FgRow>>, subs: Option<seq<Fg.FgRow>>)
    returns (r: Result<seq<Row>>)
    ensures r == Preseason(season, requested, baselineRows, file, adds, subs)
  {
    if baselineRows.None? {
      return Err("Elo baseline not found");
    }
    var baseline := PairTables.PairsToMap(baselineRows.value);
    var generated := GenerateFor(DefaultSource(season, requested), season, baseline, file, adds, subs);
    if generated.Err? {
      return Err(generated.error);
    }
    return Ok(PreseasonTable(generated.value));
  }

  /** The dispatch on the WAR source. */
  method GenerateFor(source: WarSource, season: int, baseline: map<string, real>, file: Option<seq<(string, real)>>,
                     adds: Option<seq<Fg.FgRow>>, subs: Option<seq<Fg.FgRow>>) returns (r: Result<seq<Row>>)
    ensures r == Generated(source, season, baseline, file, adds, subs)
  {
    match source
    case Hybrid => r := GenerateHybrid(season, baseline, file, adds, subs);
    case TeamTotals => r := GenerateTeamTotals(season, baseline, file);
    case Transactions => r := GenerateTransactions(season, baseline, adds, subs);
  }
}
