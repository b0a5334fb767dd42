/** The full-history Elo recomputation over Retrosheet game logs: franchise
  * codes are carried forward to the current club, the games are replayed
  * in (date, game number) order from 1500, and the ratings of the current
  * clubs are kept at the end of every season. */
module RecomputeElo {
  import opened RealMath
  import opened Wrappers
  import opened Elo
  import opened Sorting
  import opened PairTables
  import opened Folds
  import Rounding

  // Franchise continuity.

  /** Retrosheet codes of relocated or renamed clubs and of alternate
    * spellings, with the current club's code, in the order the table lists
    * them. */
  const FRANCHISE_PAIRS: seq<(string, string)> :=
    [("NYA", "NYY"), ("CHA", "CWS"), ("KCA", "KC"), ("TBA", "TB"), ("ANA", "LAA")] +
    [("CAL", "LAA"), ("SE1", "MIL"), ("ML3", "MIL"), ("WS1", "MIN"), ("WS2", "TEX")] +
    [("PHA", "ATH"), ("KC2", "ATH"), ("OAK", "ATH"), ("SLA", "BAL"), ("ML2", "BAL")] +
    [("NYN", "NYM"), ("CHN", "CHC"), ("SFN", "SF"), ("NY1", "SF"), ("LAN", "LAD")] +
    [("BRO", "LAD"), ("SDN", "SD"), ("SLN", "STL"), ("BSN", "ATL"), ("MLN", "ATL")] +
    [("FLO", "MIA"), ("MON", "WSH"), ("WAS", "WSH"), ("WSN", "WSH"), ("ARI", "AZ")] +
    [("SDP", "SD"), ("SFG", "SF"), ("KCR", "KC"), ("TBR", "TB"), ("CHW", "CWS")]

  function FranchiseMap(): map<string, string> { PairsToMap(FRANCHISE_PAIRS) }

  /** The 30 current clubs. */
  const CURRENT_TEAMS: set<string> := {
    "ATH", "ATL", "AZ", "BAL", "BOS", "CHC", "CIN", "CLE", "COL", "CWS",
    "DET", "HOU", "KC", "LAA", "LAD", "MIA", "MIL", "MIN", "NYM", "NYY",
    "PHI", "PIT", "SD", "SEA", "SF", "STL", "TB", "TEX", "TOR", "WSH"}

  const ELO_INIT_RETRO: real := 1500.0

  /** The current club of a Retrosheet code; codes the table does not list
    * are kept as they are. */
  function MapTeam(code: string): string
  {
    if code in FranchiseMap() then FranchiseMap()[code] else code
  }

  lemma FranchiseRowsCurrent()
    ensures |FRANCHISE_PAIRS| == 35
    ensures forall i :: 0 <= i < |FRANCHISE_PAIRS| ==> ValueAt(FRANCHISE_PAIRS, i) in CURRENT_TEAMS
  {
  }

  lemma CurrentNotRetrosheet()
    ensures forall i :: 0 <= i < |FRANCHISE_PAIRS| ==> KeyAt(FRANCHISE_PAIRS, i) !in CURRENT_TEAMS
  {
  }

  /** A listed code goes to a current club, an unlisted one is kept, a
    * current club keeps its code, and mapping twice is mapping once. */
  lemma MapTeamFacts(code: string)
    ensures code in FranchiseMap() ==> MapTeam(code) in CURRENT_TEAMS
    ensures code !in FranchiseMap() ==> MapTeam(code) == code
    ensures code in CURRENT_TEAMS ==> MapTeam(code) == code
    ensures MapTeam(MapTeam(code)) == MapTeam(code)
  {
    FranchiseRowsCurrent();
    CurrentNotRetrosheet();
    if code in FranchiseMap() {
      MapValueFromRow(FRANCHISE_PAIRS, code);
    }
    CurrentUnlisted();
  }

  lemma CurrentUnlisted()
    ensures forall c :: c in CURRENT_TEAMS ==> c !in FranchiseMap()
  {
    CurrentNotRetrosheet();
    KeysOutside(FRANCHISE_PAIRS, CURRENT_TEAMS);
  }

  // Row parsing.

  datatype Date = Date(year: int, month: int, day: int)

  /** A parsed game: raw and mapped codes, scores and the game number. */
  datatype RetroGame = RetroGame(date: Date, homeRaw: string, awayRaw: string, home: string, away: string,
                                 homeScore: int, awayScore: int, gameNum: string)

  const COL_DATE: nat := 0
  const COL_GAME_NUM: nat := 1
  const COL_VISITOR: nat := 3
  const COL_HOME: nat := 6
  const COL_VISITOR_SCORE: nat := 9
  const COL_HOME_SCORE: nat := 10

  const QUOTE: char := '"'

  function StripLeading(s: string): (r: string)
    ensures |r| <= |s| && r == s[|s| - |r|..]
    ensures r == [] || r[0] != QUOTE
    ensures forall i :: 0 <= i < |s| - |r| ==> s[i] == QUOTE
  {
    if |s| > 0 && s[0] == QUOTE then StripLeading(s[1..]) else s
  }

  function StripTrailing(s: string): (r: string)
    ensures |r| <= |s| && r == s[..|r|]
    ensures r == [] || r[|r| - 1] != QUOTE
    ensures forall i :: |r| <= i < |s| ==> s[i] == QUOTE
  {
    if |s| > 0 && s[|s| - 1] == QUOTE then StripTrailing(s[..|s| - 1]) else s
  }

  /** `s.strip('"')`: every leading and trailing double quote removed. */
  function StripQuotes(s: string): (r: string)
  {
    StripTrailing(StripLeading(s))
  }

  /** Neither the first nor the last character is a double quote. */
  predicate Unquoted(s: string)
  {
    s == [] || (s[0] != QUOTE && s[|s| - 1] != QUOTE)
  }

  /** The stripped field is a slice of the field with only quotes around
    * it. */
  lemma StripQuotesSlice(s: string)
    ensures exists lo, hi :: (0 <= lo <= hi <= |s| && StripQuotes(s) == s[lo..hi] &&
      (forall i :: 0 <= i < lo ==> s[i] == QUOTE) && (forall i :: hi <= i < |s| ==> s[i] == QUOTE))
  {
    var l := StripLeading(s);
    var lo := |s| - |l|;
    var hi := lo + |StripTrailing(l)|;
    assert StripQuotes(s) == s[lo..hi];
  }

  /** The stripped field has no outer quote, a field without outer quotes
    * is unchanged, so stripping twice is stripping once. */
  lemma StripQuotesEnds(s: string)
    ensures Unquoted(StripQuotes(s))
    ensures Unquoted(s) ==> StripQuotes(s) == s
    ensures StripQuotes(StripQuotes(s)) == StripQuotes(s)
  {
    var l := StripLeading(s);
    var r := StripQuotes(s);
    if r != [] {
      assert r[0] == l[0];
    }
    assert Unquoted(r);
  }

  /** One log line as a game, or `None` when it is skipped: fewer than 11
    * fields, a score that is not an integer, or a date that is not
    * `YYYYMMDD`. Integer and date parsing are the parameters `parseInt` and
    * `parseDate`. */
  function ParseRow(row: seq<string>, parseInt: string -> Option<int>, parseDate: string -> Option<Date>):
    (r: Option<RetroGame>)
    ensures |row| < 11 ==> r.None?
    ensures r.Some? ==> r.value.home == MapTeam(r.value.homeRaw) && r.value.away == MapTeam(r.value.awayRaw)
  {
    if |row| < 11 then None
    else
      var visitorScore := parseInt(row[COL_VISITOR_SCORE]);
      var homeScore := parseInt(row[COL_HOME_SCORE]);
      var date := parseDate(StripQuotes(row[COL_DATE]));
      if visitorScore.None? || homeScore.None? || date.None? then None
      else
        var home := StripQuotes(row[COL_HOME]);
        var visitor := StripQuotes(row[COL_VISITOR]);
        Some(RetroGame(date.value, home, visitor, MapTeam(home), MapTeam(visitor),
                       homeScore.value, visitorScore.value, StripQuotes(row[COL_GAME_NUM])))
  }

  /** The row parser with the library parsers fixed. */
  function RowParser(parseInt: string -> Option<int>, parseDate: string -> Option<Date>): seq<string> -> Option<RetroGame>
  {
    row => ParseRow(row, parseInt, parseDate)
  }

  /** The games of a log, in file order. */
  function ParsedGames(rows: seq<seq<string>>, parseInt: string -> Option<int>, parseDate: string -> Option<Date>):
    (games: seq<RetroGame>)
  {
    FilterMap(RowParser(parseInt, parseDate), rows)
  }

  /** Every parsed game comes from a line of at least 11 fields, and every
    * line the row parser accepts gives a game. */
  lemma ParsedGamesFromRows(rows: seq<seq<string>>, parseInt: string -> Option<int>,
                            parseDate: string -> Option<Date>, k: nat)
    requires k < |ParsedGames(rows, parseInt, parseDate)|
    ensures exists i :: (0 <= i < |rows| && |rows[i]| >= 11 &&
      ParseRow(rows[i], parseInt, parseDate) == Some(ParsedGames(rows, parseInt, parseDate)[k]))
  {
    FilterMapFrom(RowParser(parseInt, parseDate), rows, k);
  }

  /** Every parsed game carries its clubs' current franchise codes. */
  lemma ParsedGamesMapped(rows: seq<seq<string>>, parseInt: string -> Option<int>, parseDate: string -> Option<Date>)
    ensures forall k :: 0 <= k < |ParsedGames(rows, parseInt, parseDate)| ==>
      ParsedGames(rows, parseInt, parseDate)[k].home == MapTeam(ParsedGames(rows, parseInt, parseDate)[k].homeRaw) &&
      ParsedGames(rows, parseInt, parseDate)[k].away == MapTeam(ParsedGames(rows, parseInt, parseDate)[k].awayRaw)
  {
    forall k | 0 <= k < |ParsedGames(rows, parseInt, parseDate)| {
      ParsedGamesFromRows(rows, parseInt, parseDate, k);
    }
  }

  /** `parse_retrosheet_file`'s loop over the lines of one log. */
  method ParseRetrosheetFile(rows: seq<seq<string>>, parseInt: string -> Option<int>, parseDate: string -> Option<Date>)
    returns (games: seq<RetroGame>)
    ensures games == ParsedGames(rows, parseInt, parseDate)
  {
    games := [];
    var i := 0;
    while i < |rows|
      invariant 0 <= i <= |rows|
      invariant games == ParsedGames(rows[..i], parseInt, parseDate)
    {
      FilterMapStep(RowParser(parseInt, parseDate), rows, i);
      var g := ParseRow(rows[i], parseInt, parseDate);
      assert RowParser(parseInt, parseDate)(rows[i]) == g;
      if g.Some? {
        games := games + [g.value];
      }
      i := i + 1;
    }
    assert rows[..i] == rows;
  }

  // Replay order.

  predicate DateLt(a: Date, b: Date)
  {
    a.year < b.year || (a.year == b.year && (a.month < b.month || (a.month == b.month && a.day < b.day)))
  }

  /** Python's comparison of `(date, game_num)` keys. */
  predicate KeyLe(a: RetroGame, b: RetroGame)
  {
    DateLt(a.date, b.date) || (a.date == b.date && LexLe(a.gameNum, b.gameNum))
  }

  function ByDateAndNumber(): (le: (RetroGame, RetroGame) -> bool)
  {
    (a: RetroGame, b: RetroGame) => KeyLe(a, b)
  }

  lemma ByDateAndNumberPreorder()
    ensures TotalPreorder(ByDateAndNumber())
  {
    forall a: RetroGame, b: RetroGame ensures KeyLe(a, b) || KeyLe(b, a) {
      LexLeTotal(a.gameNum, b.gameNum);
    }
    forall a: RetroGame, b: RetroGame, c: RetroGame | KeyLe(a, b) && KeyLe(b, c) ensures KeyLe(a, c) {
      if a.date == b.date && b.date == c.date {
        LexLeTransitive(a.gameNum, b.gameNum, c.gameNum);
      }
    }
  }

  function Concat(files: seq<seq<RetroGame>>): seq<RetroGame>
  {
    if |files| == 0 then [] else Concat(files[..|files| - 1]) + files[|files| - 1]
  }

  /** `load_all_games`: the year files' games, sorted by (date, game number). */
  function AllGames(files: seq<seq<RetroGame>>): (games: seq<RetroGame>)
  {
    Sort(Concat(files), ByDateAndNumber())
  }

  /** The replay order is the key order, and every game of every file is
    * replayed exactly once. */
  lemma AllGamesOrdered(files: seq<seq<RetroGame>>)
    ensures forall i, j :: 0 <= i < j < |AllGames(files)| ==> KeyLe(AllGames(files)[i], AllGames(files)[j])
    ensures multiset(AllGames(files)) == multiset(Concat(files))
  {
    ByDateAndNumberPreorder();
    SortSorted(Concat(files), ByDateAndNumber());
    var s := AllGames(files);
    forall i, j | 0 <= i < j < |s| ensures KeyLe(s[i], s[j]) {
      assert ByDateAndNumber()(s[i], s[j]);
    }
  }

  // The replay.

  function RatingOf(elos: map<string, real>, team: string): real
  {
    if team in elos then elos[team] else ELO_INIT_RETRO
  }

  /** 1, 0 or 0.5 for a home win, loss or tie. */
  function HomeResult(g: RetroGame): (r: real)
    ensures r == 1.0 <==> g.homeScore > g.awayScore
    ensures r == 0.0 <==> g.homeScore < g.awayScore
    ensures r == 0.5 <==> g.homeScore == g.awayScore
  {
    if g.homeScore > g.awayScore then 1.0 else if g.homeScore < g.awayScore then 0.0 else 0.5
  }

  /** 1.0 on a tie, else the uncapped log multiplier on the rating gap. */
  function RetroMov(m: Math, g: RetroGame, eloHome: real, eloAway: real): (mov: real)
    requires Lawful(m)
    ensures g.homeScore == g.awayScore ==> mov == 1.0
    ensures mov >= 0.0
  {
    var diff := if g.homeScore >= g.awayScore then g.homeScore - g.awayScore else g.awayScore - g.homeScore;
    RawMovMultFacts(m, diff, eloHome - eloAway);
    if diff == 0 then 1.0 else RawMovMult(m, diff, eloHome - eloAway)
  }

  function GameShift(m: Math, elos: map<string, real>, g: RetroGame): real
    requires Lawful(m)
  {
    var h := RatingOf(elos, g.home);
    var a := RatingOf(elos, g.away);
    EloShift(ELO_K, RetroMov(m, g, h, a), ExpectedScore(m, h, a, ELO_HFA), HomeResult(g))
  }

  /** The ratings after one game: the shift is added to the home rating and
    * subtracted from the away rating (the away write wins if a club meets
    * itself). */
  function Step(m: Math, elos: map<string, real>, g: RetroGame): (r: map<string, real>)
    requires Lawful(m)
    ensures r.Keys == elos.Keys + {g.home, g.away}
  {
    Shifted(elos, g, GameShift(m, elos, g))
  }

  function Shifted(elos: map<string, real>, g: RetroGame, s: real): (r: map<string, real>)
    ensures r.Keys == elos.Keys + {g.home, g.away}
  {
    elos[g.home := RatingOf(elos, g.home) + s][g.away := RatingOf(elos, g.away) - s]
  }

  /** Every game keeps the sum of its two clubs' ratings, leaves the other
    * clubs alone, and moves the winner up. */
  lemma StepZeroSum(m: Math, elos: map<string, real>, g: RetroGame)
    requires Lawful(m) && g.home != g.away
    ensures Step(m, elos, g)[g.home] + Step(m, elos, g)[g.away] == RatingOf(elos, g.home) + RatingOf(elos, g.away)
    ensures forall t :: t in elos && t != g.home && t != g.away ==> Step(m, elos, g)[t] == elos[t]
    ensures g.homeScore > g.awayScore ==> Step(m, elos, g)[g.home] > RatingOf(elos, g.home)
    ensures g.homeScore < g.awayScore ==> Step(m, elos, g)[g.away] > RatingOf(elos, g.away)
  {
    var h := RatingOf(elos, g.home);
    var a := RatingOf(elos, g.away);
    var diff := if g.homeScore >= g.awayScore then g.homeScore - g.awayScore else g.awayScore - g.homeScore;
    if diff != 0 {
      LogPositive(m, diff, h - a);
    }
  }

  /** A decided game has a positive multiplier. */
  lemma LogPositive(m: Math, diff: int, eloDiff: real)
    requires Lawful(m) && diff > 0
    ensures RawMovMult(m, diff, eloDiff) > 0.0
  {
    var l := m.ln(Abs(diff as real) + 1.0);
    assert m.ln(1.0) < l;
    DampingBounds(eloDiff);
    MulPos(l, MOV_MULTIPLIER / (0.001 * Abs(eloDiff) + MOV_MULTIPLIER));
  }

  lemma MulPos(a: real, b: real)
    requires a > 0.0 && b > 0.0
    ensures a * b > 0.0
  {
  }

  /** The update as a function value for the folds. */
  function StepFn(m: Math): (map<string, real>, RetroGame) --> map<string, real>
  {
    (elos: map<string, real>, g: RetroGame) requires Lawful(m) => Step(m, elos, g)
  }

  /** The ratings after a run of games, every club starting at 1500. */
  function Ratings(m: Math, games: seq<RetroGame>): map<string, real>
    requires Lawful(m)
  {
    Final(StepFn(m), map[], games)
  }

  /** One history row: the game with the ratings before and after it. */
  datatype EloRow = EloRow(date: Date, homeTeam: string, awayTeam: string, homeScore: int, awayScore: int,
                           homeEloBefore: real, awayEloBefore: real, homeEloAfter: real, awayEloAfter: real)

  /** The row written for a game: its ratings before and after, each
    * rounded to 4 places, while the replay carries the exact ratings. */
  function RowOf(m: Math, elos: map<string, real>, g: RetroGame): (row: EloRow)
    requires Lawful(m)
    ensures row.homeTeam == g.home && row.awayTeam == g.away && row.date == g.date
    ensures row.homeScore == g.homeScore && row.awayScore == g.awayScore
    ensures row.homeEloBefore == Rounding.Round(RatingOf(elos, g.home), 4)
    ensures row.awayEloBefore == Rounding.Round(RatingOf(elos, g.away), 4)
    ensures row.homeEloAfter == Rounding.Round(Step(m, elos, g)[g.home], 4)
    ensures row.awayEloAfter == Rounding.Round(Step(m, elos, g)[g.away], 4)
  {
    var after := Step(m, elos, g);
    EloRow(g.date, g.home, g.away, g.homeScore, g.awayScore,
           Rounding.Round(RatingOf(elos, g.home), 4), Rounding.Round(RatingOf(elos, g.away), 4),
           Rounding.Round(after[g.home], 4), Rounding.Round(after[g.away], 4))
  }

  function RowFn(m: Math): (map<string, real>, RetroGame) --> EloRow
  {
    (elos: map<string, real>, g: RetroGame) requires Lawful(m) => RowOf(m, elos, g)
  }

  /** The history: one row per game, in replay order. */
  function History(m: Math, games: seq<RetroGame>): (rows: seq<EloRow>)
    requires Lawful(m)
  {
    Trace(RowFn(m), StepFn(m), map[], games)
  }

  /** Row `i` holds game `i` with the ratings the earlier games left. */
  lemma HistoryRow(m: Math, games: seq<RetroGame>, i: nat)
    requires Lawful(m) && i < |games|
    ensures |History(m, games)| == |games|
    ensures History(m, games)[i] == RowOf(m, Ratings(m, games[..i]), games[i])
  {
    TraceAt(RowFn(m), StepFn(m), map[], games, i);
  }

  /** A game between two different clubs keeps their exact rating sum, so
    * its written row, whose four ratings are rounded to 4 places, keeps the
    * sum within 0.0002; each written rating is within 0.00005 of the exact
    * one. */
  lemma HistoryRowZeroSum(m: Math, games: seq<RetroGame>, i: nat)
    requires Lawful(m) && i < |games| && games[i].home != games[i].away
    ensures var row := History(m, games)[i];
      -0.0002 <= (row.homeEloAfter + row.awayEloAfter) - (row.homeEloBefore + row.awayEloBefore) <= 0.0002
    ensures var row := History(m, games)[i]; var before := Ratings(m, games[..i]);
      var after := Ratings(m, games[..i + 1]);
      -0.00005 <= row.homeEloBefore - RatingOf(before, games[i].home) <= 0.00005 &&
      -0.00005 <= row.awayEloBefore - RatingOf(before, games[i].away) <= 0.00005 &&
      -0.00005 <= row.homeEloAfter - after[games[i].home] <= 0.00005 &&
      -0.00005 <= row.awayEloAfter - after[games[i].away] <= 0.00005
  {
    HistoryRow(m, games, i);
    var before := Ratings(m, games[..i]);
    var g := games[i];
    var after := Step(m, before, g);
    FinalStep(StepFn(m), map[], games, i);
    assert Ratings(m, games[..i + 1]) == after;
    StepZeroSum(m, before, g);
    RoundedSumError(RatingOf(before, g.home), RatingOf(before, g.away), after[g.home], after[g.away]);
  }

  /** Four values rounded to 4 places: the rounded sums differ by at most
    * 0.0002 when the exact sums agree, and each by at most 0.00005. */
  lemma RoundedSumError(h: real, a: real, h': real, a': real)
    requires h' + a' == h + a
    ensures -0.0002 <= (Rounding.Round(h', 4) + Rounding.Round(a', 4)) - (Rounding.Round(h, 4) + Rounding.Round(a, 4)) <= 0.0002
    ensures -0.00005 <= Rounding.Round(h, 4) - h <= 0.00005 && -0.00005 <= Rounding.Round(a, 4) - a <= 0.00005
    ensures -0.00005 <= Rounding.Round(h', 4) - h' <= 0.00005 && -0.00005 <= Rounding.Round(a', 4) - a' <= 0.00005
  {
    Rounding.RoundError(h, 4);
    Rounding.RoundError(a, 4);
    Rounding.RoundError(h', 4);
    Rounding.RoundError(a', 4);
  }

  // Season-end snapshots.

  /** The ratings of the current clubs. */
  function Current(elos: map<string, real>): (c: map<string, real>)
    ensures c.Keys == elos.Keys * CURRENT_TEAMS
    ensures forall t :: t in c ==> c[t] == elos[t]
  {
    map t | t in elos && t in CURRENT_TEAMS :: elos[t]
  }

  function YearOf(g: RetroGame): int { g.date.year }

  /** The season-end ratings: when the year changes, the previous year gets
    * the current clubs' ratings as they stood before the first game of the
    * new year, and the final year gets them after the last game. */
  function SeasonEnd(m: Math, games: seq<RetroGame>): map<int, map<string, real>>
    requires Lawful(m)
  {
    Folds.SeasonEnd(YearOf, Current, StepFn(m), map[], games)
  }

  /** A year has season-end ratings iff some game was played in it, and they
    * are the current clubs' ratings after the last game of its last run of
    * games. */
  lemma SeasonEndSpec(m: Math, games: seq<RetroGame>, y: int)
    requires Lawful(m)
    ensures y in SeasonEnd(m, games) <==> exists i :: 0 <= i < |games| && YearOf(games[i]) == y
    ensures y in SeasonEnd(m, games) ==>
      exists i :: LastBoundary(YearOf, games, i, y) && SeasonEnd(m, games)[y] == Current(Ratings(m, games[..i + 1]))
  {
    Folds.SeasonEndSpec(YearOf, Current, StepFn(m), map[], games, y);
  }

  /** Replayed in date order, each year's ratings are taken after its last
    * game. */
  lemma SeasonEndAfterLastGame(m: Math, games: seq<RetroGame>, i: nat)
    requires Lawful(m) && i < |games|
    requires forall a, b :: 0 <= a < b < |games| ==> YearOf(games[a]) <= YearOf(games[b])
    requires i + 1 == |games| || YearOf(games[i + 1]) != YearOf(games[i])
    ensures YearOf(games[i]) in SeasonEnd(m, games)
    ensures SeasonEnd(m, games)[YearOf(games[i])] == Current(Ratings(m, games[..i + 1]))
  {
    var y := YearOf(games[i]);
    SeasonEndSpec(m, games, y);
    var k :| LastBoundary(YearOf, games, k, y) && SeasonEnd(m, games)[y] == Current(Ratings(m, games[..k + 1]));
    if k < i {
      assert Boundary(YearOf, games, i);
    }
  }

  /** One game of the loop: the history row and the ratings after it. */
  method PlayGame(m: Math, teamElo: map<string, real>, g: RetroGame) returns (after: map<string, real>, row: EloRow)
    requires Lawful(m)
    ensures after == Step(m, teamElo, g) && row == RowOf(m, teamElo, g)
  {
    var eloHome := RatingOf(teamElo, g.home);
    var eloAway := RatingOf(teamElo, g.away);
    var shift := GameShift(m, teamElo, g);
    row := RowOf(m, teamElo, g);
    after := teamElo[g.home := eloHome + shift][g.away := eloAway - shift];
  }

  /** `compute_elo`: the replay, its history rows and the season-end
    * snapshots. */
  method ComputeElo(m: Math, games: seq<RetroGame>) returns (rows: seq<EloRow>, seasonEnd: map<int, map<string, real>>)
    requires Lawful(m)
    ensures rows == History(m, games)
    ensures seasonEnd == SeasonEnd(m, games)
  {
    var teamElo: map<string, real> := map[];
    rows := [];
    seasonEnd := map[];
    var currentYear: Option<int> := None;
    var i := 0;
    while i < |games|
      invariant 0 <= i <= |games|
      invariant Replayed(m, games, i, teamElo, rows, seasonEnd, currentYear)
    {
      teamElo, rows, seasonEnd, currentYear := ReplayOne(m, games, i, teamElo, rows, seasonEnd, currentYear);
      i := i + 1;
    }
    assert games[..i] == games;
    if currentYear.Some? {
      seasonEnd := seasonEnd[currentYear.value := Current(teamElo)];
    }
  }
  /** The state of `compute_elo` after its first `i` games. */
  ghost predicate Replayed(m: Math, games: seq<RetroGame>, i: nat, teamElo: map<string, real>, rows: seq<EloRow>,
                           seasonEnd: map<int, map<string, real>>, currentYear: Option<int>)
    requires Lawful(m) && i <= |games|
  {
    teamElo == Ratings(m, games[..i]) && rows == History(m, games[..i]) &&
    seasonEnd == Snapshots(YearOf, Current, StepFn(m), map[], games[..i]) &&
    currentYear == (if i == 0 then None else Some(YearOf(games[i - 1])))
  }

  /** One pass of the loop in `compute_elo`: close the season when the year
    * changes, then play the game and record its row. */
  method ReplayOne(m: Math, games: seq<RetroGame>, i: nat, teamElo: map<string, real>, rows: seq<EloRow>,
                   seasonEnd: map<int, map<string, real>>, currentYear: Option<int>)
    returns (teamElo': map<string, real>, rows': seq<EloRow>, seasonEnd': map<int, map<string, real>>, currentYear': Option<int>)
    requires Lawful(m) && i < |games|
    requires Replayed(m, games, i, teamElo, rows, seasonEnd, currentYear)
    ensures Replayed(m, games, i + 1, teamElo', rows', seasonEnd', currentYear')
  {
    var g := games[i];
    FinalStep(StepFn(m), map[], games, i);
    TraceStep(RowFn(m), StepFn(m), map[], games, i);
    if i > 0 {
      SnapshotsStep(YearOf, Current, StepFn(m), map[], games, i);
    } else {
      assert |games[..i + 1]| == 1;
    }
    var year := YearOf(g);
    seasonEnd' := seasonEnd;
    if currentYear.Some? && year != currentYear.value {
      seasonEnd' := seasonEnd[currentYear.value := Current(teamElo)];
    }
    currentYear' := Some(year);
    var row;
    teamElo', row := PlayGame(m, teamElo, g);
    assert StepFn(m)(teamElo, g) == teamElo';
    rows' := rows + [row];
  }
}
