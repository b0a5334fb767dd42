/** The daily rating engine: the ratings to start from (the prior season's
  * end, overridden by this season's latest post-game values), yesterday's
  * completed games applied in schedule order, one history row per rated
  * game, and the published table ranked by rating. */
module EloCompute {
  import opened RealMath
  import opened Wrappers
  import opened Elo
  import opened Sorting
  import opened PairTables
  import opened Folds
  import opened Sums
  import TeamCodes
  import Rounding

  /** Codes of the season-end rating file, brought to the schedule family. */
  function StandardizeTeam(code: string): string
  {
    TeamCodes.NormalizeTeamCode(code, "elo")
  }

  /** Only the eight rating-file codes change, and standardising twice is
    * standardising once. */
  lemma StandardizeTeamFacts(code: string)
    ensures code !in TeamCodes.ScheduleToElo() ==> StandardizeTeam(code) == code
    ensures code in TeamCodes.ScheduleToElo() ==> StandardizeTeam(code) == TeamCodes.ScheduleToElo()[code]
    ensures StandardizeTeam(StandardizeTeam(code)) == StandardizeTeam(code)
  {
    TeamCodes.NormalizeIdempotent(code, "elo");
  }

  // Starting ratings.

  /** A row of the prior season's end-of-season file. */
  datatype BaselineRow = BaselineRow(team: string, elo: real)

  /** A row of this season's history file, as far as the start needs it. */
  datatype HistoryRow = HistoryRow(date: string, homeTeam: string, awayTeam: string, homeEloPost: real, awayEloPost: real)

  predicate Always<R>(r: R) { true }
  function BaselineTeam(r: BaselineRow): string { StandardizeTeam(r.team) }
  function BaselineElo(r: BaselineRow): real { r.elo }
  function HomeTeamOf(r: HistoryRow): string { r.homeTeam }
  function HomePost(r: HistoryRow): real { r.homeEloPost }
  function AwayTeamOf(r: HistoryRow): string { r.awayTeam }
  function AwayPost(r: HistoryRow): real { r.awayEloPost }

  /** `dict(zip(team, elo))` over the standardised baseline. */
  function BaselineRatings(rows: seq<BaselineRow>): map<string, real>
  {
    PairsToMap(Keyed(rows, Always, BaselineTeam, BaselineElo))
  }

  /** History rows in ascending date order (ISO dates compare as strings). */
  function ByDate(): (le: (HistoryRow, HistoryRow) -> bool)
  {
    (a: HistoryRow, b: HistoryRow) => LexLe(a.date, b.date)
  }

  /** The latest post-game values: per home team the last row's home value,
    * then, overriding it, per away team the last row's away value. */
  function Latest(history: seq<HistoryRow>): map<string, real>
  {
    LatestOf(Sort(history, ByDate()))
  }

  /** The baseline, overridden by the latest values when this season's file
    * could be read (`None` when reading it failed). */
  function StartRatings(baseline: seq<BaselineRow>, history: Option<seq<HistoryRow>>): map<string, real>
  {
    match history
    case None => BaselineRatings(baseline)
    case Some(h) => BaselineRatings(baseline) + Latest(h)
  }

  /** Some row of `rows` has `t` as its away club. */
  predicate AwayIn(rows: seq<HistoryRow>, t: string)
  {
    exists i :: 0 <= i < |rows| && rows[i].awayTeam == t
  }

  predicate HomeIn(rows: seq<HistoryRow>, t: string)
  {
    exists i :: 0 <= i < |rows| && rows[i].homeTeam == t
  }

  /** A club is rated at the start iff it is in the baseline or in this
    * season's file. */
  lemma StartRatingsKeys(baseline: seq<BaselineRow>, history: seq<HistoryRow>, t: string)
    ensures t in StartRatings(baseline, Some(history)) <==>
      t in BaselineRatings(baseline) || HomeIn(history, t) || AwayIn(history, t)
  {
    var sorted := Sort(history, ByDate());
    var home, away := PairsToMap(Keyed(sorted, Always, HomeTeamOf, HomePost)), PairsToMap(Keyed(sorted, Always, AwayTeamOf, AwayPost));
    assert StartRatings(baseline, Some(history)) == BaselineRatings(baseline) + (home + away);
    KeyedMembers(sorted, Always, HomeTeamOf, HomePost, t);
    KeyedMembers(sorted, Always, AwayTeamOf, AwayPost, t);
    SameRows(history, sorted, t);
    assert t in home <==> HomeIn(sorted, t);
    assert t in away <==> AwayIn(sorted, t);
  }

  /** Sorting keeps the rows, so it keeps who played home and away. */
  lemma SameRows(history: seq<HistoryRow>, sorted: seq<HistoryRow>, t: string)
    requires sorted == Sort(history, ByDate())
    ensures HomeIn(sorted, t) <==> HomeIn(history, t)
    ensures AwayIn(sorted, t) <==> AwayIn(history, t)
  {
    assert multiset(sorted) == multiset(history);
    if HomeIn(history, t) {
      var i :| 0 <= i < |history| && history[i].homeTeam == t;
      assert history[i] in multiset(sorted);
    }
    if AwayIn(history, t) {
      var i :| 0 <= i < |history| && history[i].awayTeam == t;
      assert history[i] in multiset(sorted);
    }
    if HomeIn(sorted, t) {
      var i :| 0 <= i < |sorted| && sorted[i].homeTeam == t;
      assert sorted[i] in multiset(history);
    }
    if AwayIn(sorted, t) {
      var i :| 0 <= i < |sorted| && sorted[i].awayTeam == t;
      assert sorted[i] in multiset(history);
    }
  }

  /** A club that played away this season starts from its last away value
    * in date order, whatever it did at home. */
  lemma StartFromLastAway(baseline: seq<BaselineRow>, history: seq<HistoryRow>, t: string)
    requires AwayIn(history, t)
    ensures var sorted := Sort(history, ByDate());
      t in StartRatings(baseline, Some(history)) &&
      exists i :: LastKept(sorted, Always, AwayTeamOf, i, t) &&
        StartRatings(baseline, Some(history))[t] == sorted[i].awayEloPost
  {
    var sorted := Sort(history, ByDate());
    SameRows(history, sorted, t);
    var j :| 0 <= j < |sorted| && sorted[j].awayTeam == t;
    KeyedLastWins(sorted, Always, AwayTeamOf, AwayPost, t);
  }

  /** A club that played only at home starts from its last home value. */
  lemma StartFromLastHome(baseline: seq<BaselineRow>, history: seq<HistoryRow>, t: string)
    requires !AwayIn(history, t) && HomeIn(history, t)
    ensures var sorted := Sort(history, ByDate());
      t in StartRatings(baseline, Some(history)) &&
      exists i :: LastKept(sorted, Always, HomeTeamOf, i, t) &&
        StartRatings(baseline, Some(history))[t] == sorted[i].homeEloPost
  {
    var sorted := Sort(history, ByDate());
    SameRows(history, sorted, t);
    HomeOnlyLast(sorted, t);
    var latest := LatestOf(sorted);
    var start := StartRatings(baseline, Some(history));
    assert start == BaselineRatings(baseline) + latest;
    assert start[t] == latest[t];
    var i :| LastKept(sorted, Always, HomeTeamOf, i, t) && latest[t] == sorted[i].homeEloPost;
  }

  /** The latest values of rows already in date order. */
  function LatestOf(sorted: seq<HistoryRow>): map<string, real>
  {
    PairsToMap(Keyed(sorted, Always, HomeTeamOf, HomePost)) + PairsToMap(Keyed(sorted, Always, AwayTeamOf, AwayPost))
  }

  lemma HomeOnlyLast(sorted: seq<HistoryRow>, t: string)
    requires !AwayIn(sorted, t) && HomeIn(sorted, t)
    ensures t in LatestOf(sorted)
    ensures exists i :: LastKept(sorted, Always, HomeTeamOf, i, t) && LatestOf(sorted)[t] == sorted[i].homeEloPost
  {
    var home, away := PairsToMap(Keyed(sorted, Always, HomeTeamOf, HomePost)), PairsToMap(Keyed(sorted, Always, AwayTeamOf, AwayPost));
    var j :| 0 <= j < |sorted| && sorted[j].homeTeam == t;
    assert Always(sorted[j]) && HomeTeamOf(sorted[j]) == t;
    KeyedLastWins(sorted, Always, HomeTeamOf, HomePost, t);
    var i :| LastKept(sorted, Always, HomeTeamOf, i, t) && home[t] == HomePost(sorted[i]);
    KeyedMembers(sorted, Always, AwayTeamOf, AwayPost, t);
    assert t !in away;
    assert LatestOf(sorted)[t] == home[t];
  }

  /** A club absent from this season's file keeps its baseline rating. */
  lemma StartFromBaseline(baseline: seq<BaselineRow>, history: seq<HistoryRow>, t: string)
    requires !AwayIn(history, t) && !HomeIn(history, t) && t in BaselineRatings(baseline)
    ensures StartRatings(baseline, Some(history))[t] == BaselineRatings(baseline)[t]
  {
    var sorted := Sort(history, ByDate());
    SameRows(history, sorted, t);
    KeyedLastWins(sorted, Always, HomeTeamOf, HomePost, t);
    KeyedLastWins(sorted, Always, AwayTeamOf, AwayPost, t);
  }

  /** The history file is replayed in date order. */
  lemma LatestInDateOrder(history: seq<HistoryRow>)
    ensures SortedBy(Sort(history, ByDate()), ByDate())
    ensures multiset(Sort(history, ByDate())) == multiset(history)
  {
    forall a: HistoryRow, b: HistoryRow ensures LexLe(a.date, b.date) || LexLe(b.date, a.date) {
      LexLeTotal(a.date, b.date);
    }
    forall a: HistoryRow, b: HistoryRow, c: HistoryRow | LexLe(a.date, b.date) && LexLe(b.date, c.date)
      ensures LexLe(a.date, c.date)
    {
      LexLeTransitive(a.date, b.date, c.date);
    }
    SortSorted(history, ByDate());
  }

  // Yesterday's games.

  /** A schedule row; a score is `None` while the game is not final. */
  datatype ScheduleRow = ScheduleRow(date: string, gamePk: int, homeTeam: string, awayTeam: string,
                                     homeScore: Option<int>, awayScore: Option<int>)

  /** A completed game with standardised codes. */
  datatype Played = Played(gamePk: int, home: string, away: string, homeScore: int, awayScore: int)

  function CompletedOn(day: string): ScheduleRow -> Option<Played>
  {
    (r: ScheduleRow) => if r.date == day && r.homeScore.Some? && r.awayScore.Some?
         then Some(Played(r.gamePk, StandardizeTeam(r.homeTeam), StandardizeTeam(r.awayTeam),
                          r.homeScore.value, r.awayScore.value))
         else None
  }

  /** The schedule rows of `day` with both scores, in schedule order. */
  function DayGames(schedule: seq<ScheduleRow>, day: string): seq<Played>
  {
    FilterMap(CompletedOn(day), schedule)
  }

  /** A game is processed iff its row is dated `day` and has both scores. */
  lemma DayGamesSpec(schedule: seq<ScheduleRow>, day: string)
    ensures forall k :: 0 <= k < |DayGames(schedule, day)| ==> FromCompletedRow(schedule, day, DayGames(schedule, day)[k])
    ensures forall i :: CompletedRow(schedule, i, day) ==>
      CompletedOn(day)(schedule[i]).value in DayGames(schedule, day)
  {
    forall k | 0 <= k < |DayGames(schedule, day)|
      ensures FromCompletedRow(schedule, day, DayGames(schedule, day)[k])
    {
      FilterMapFrom(CompletedOn(day), schedule, k);
      var i :| 0 <= i < |schedule| && CompletedOn(day)(schedule[i]) == Some(DayGames(schedule, day)[k]);
      assert CompletedRow(schedule, i, day);
    }
    forall i | CompletedRow(schedule, i, day)
      ensures CompletedOn(day)(schedule[i]).value in DayGames(schedule, day)
    {
      FilterMapKeeps(CompletedOn(day), schedule, i);
    }
  }

  /** The game is the one of a row dated `day` with both scores. */
  ghost predicate FromCompletedRow(schedule: seq<ScheduleRow>, day: string, g: Played)
  {
    exists i :: CompletedRow(schedule, i, day) && CompletedOn(day)(schedule[i]) == Some(g)
  }

  /** Row `i` of the schedule is dated `day` and has both scores. */
  predicate CompletedRow(schedule: seq<ScheduleRow>, i: int, day: string)
  {
    0 <= i < |schedule| && schedule[i].date == day && schedule[i].homeScore.Some? && schedule[i].awayScore.Some?
  }

  // The update.

  /** 1 for a home win, 0 otherwise: a tie counts as a home loss. */
  function ResultHome(g: Played): (r: real)
    ensures r == 1.0 <==> g.homeScore > g.awayScore
    ensures r == 0.0 <==> g.homeScore <= g.awayScore
  {
    if g.homeScore > g.awayScore then 1.0 else 0.0
  }

  function ScoreDiff(g: Played): int
  {
    if g.homeScore >= g.awayScore then g.homeScore - g.awayScore else g.awayScore - g.homeScore
  }

  /** The shift of one game, from the ratings before it. */
  function DayShift(m: Math, cap: Option<real>, eloHome: real, eloAway: real, g: Played): real
    requires Lawful(m)
  {
    var mov := MovMult(m, ScoreDiff(g), eloHome - eloAway, cap);
    EloShift(ELO_K, mov, ExpectedScore(m, eloHome, eloAway, ELO_HFA), ResultHome(g))
  }

  /** One row of the season history; its ratings and shift are written
    * rounded to 2 places. */
  datatype EloRow = EloRow(gamePk: int, homeTeam: string, awayTeam: string, homeScore: int, awayScore: int,
                           homeEloPre: real, awayEloPre: real, homeEloPost: real, awayEloPost: real, shift: real)

  /** The ratings and the rows written so far. */
  datatype DayState = DayState(elos: map<string, real>, rows: seq<EloRow>)

  predicate Rated(elos: map<string, real>, g: Played)
  {
    g.home in elos && g.away in elos
  }

  /** A value the lambda writes: a multiple of 0.01, which rounding to 2
    * places leaves alone. */
  predicate OnGrid(x: real)
  {
    Rounding.Round(x, 2) == x
  }

  predicate RowOnGrid(row: EloRow)
  {
    OnGrid(row.homeEloPre) && OnGrid(row.awayEloPre) && OnGrid(row.homeEloPost) &&
    OnGrid(row.awayEloPost) && OnGrid(row.shift)
  }

  /** The row written for a game: the ratings before and after it and the
    * shift, each rounded to 2 places. */
  function Written(g: Played, h: real, a: real, h': real, a': real, shift: real): (row: EloRow)
    ensures RowOnGrid(row)
  {
    Rounding.RoundIdempotent(h, 2);
    Rounding.RoundIdempotent(a, 2);
    Rounding.RoundIdempotent(h', 2);
    Rounding.RoundIdempotent(a', 2);
    Rounding.RoundIdempotent(shift, 2);
    EloRow(g.gamePk, g.home, g.away, g.homeScore, g.awayScore,
           Rounding.Round(h, 2), Rounding.Round(a, 2), Rounding.Round(h', 2), Rounding.Round(a', 2),
           Rounding.Round(shift, 2))
  }

  /** One game: skipped when a club has no rating, else the shift is added
    * to the home rating and subtracted from the away rating and a row is
    * written. The ratings carried to the next game are not rounded. */
  function DayStep(m: Math, cap: Option<real>, s: DayState, g: Played): (r: DayState)
    requires Lawful(m)
    ensures r.elos.Keys == s.elos.Keys
    ensures |r.rows| == |s.rows| + (if Rated(s.elos, g) then 1 else 0)
    ensures r.rows[..|s.rows|] == s.rows
    ensures forall k :: |s.rows| <= k < |r.rows| ==> RowOnGrid(r.rows[k])
  {
    if !Rated(s.elos, g) then s
    else
      var h := s.elos[g.home];
      var a := s.elos[g.away];
      var shift := DayShift(m, cap, h, a, g);
      var elos := s.elos[g.home := h + shift][g.away := a - shift];
      DayState(elos, s.rows + [Written(g, h, a, elos[g.home], elos[g.away], shift)])
  }

  function DayStepFn(m: Math, cap: Option<real>): (DayState, Played) --> DayState
  {
    (s: DayState, g: Played) requires Lawful(m) => DayStep(m, cap, s, g)
  }

  /** The state after the day's games. */
  function Day(m: Math, cap: Option<real>, start: map<string, real>, games: seq<Played>): DayState
    requires Lawful(m)
  {
    Final(DayStepFn(m, cap), DayState(start, []), games)
  }

  /** A game between two different rated clubs keeps their exact rating
    * sum and leaves every other rating alone. It writes one row whose
    * ratings and shift are the exact ones rounded to 2 places, so the
    * written post-game sum is within 0.02 of the written pre-game sum and
    * the written shift within 0.005 of the exact rating change. */
  lemma DayStepZeroSum(m: Math, cap: Option<real>, s: DayState, g: Played)
    requires Lawful(m) && Rated(s.elos, g) && g.home != g.away
    ensures var r := DayStep(m, cap, s, g);
      r.elos[g.home] + r.elos[g.away] == s.elos[g.home] + s.elos[g.away] &&
      (forall t :: t in s.elos && t != g.home && t != g.away ==> r.elos[t] == s.elos[t]) &&
      |r.rows| == |s.rows| + 1 && r.rows[..|s.rows|] == s.rows
    ensures var r := DayStep(m, cap, s, g); var row := r.rows[|s.rows|];
      row.homeEloPre == Rounding.Round(s.elos[g.home], 2) && row.awayEloPre == Rounding.Round(s.elos[g.away], 2) &&
      row.homeEloPost == Rounding.Round(r.elos[g.home], 2) && row.awayEloPost == Rounding.Round(r.elos[g.away], 2) &&
      row.shift == Rounding.Round(r.elos[g.home] - s.elos[g.home], 2) &&
      -0.02 <= (row.homeEloPost + row.awayEloPost) - (row.homeEloPre + row.awayEloPre) <= 0.02 &&
      -0.005 <= row.shift - (r.elos[g.home] - s.elos[g.home]) <= 0.005
  {
    var r := DayStep(m, cap, s, g);
    var row := r.rows[|s.rows|];
    var h, a, h', a' := s.elos[g.home], s.elos[g.away], r.elos[g.home], r.elos[g.away];
    assert h' + a' == h + a;
    assert row == Written(g, h, a, h', a', h' - h);
    WrittenSumError(h, a, h', a');
    Rounding.RoundError(h' - h, 2);
  }

  /** Four values rounded to 2 places: the rounded sums differ by at most
    * 0.02 when the exact sums agree. */
  lemma WrittenSumError(h: real, a: real, h': real, a': real)
    requires h' + a' == h + a
    ensures -0.02 <= (Rounding.Round(h', 2) + Rounding.Round(a', 2)) - (Rounding.Round(h, 2) + Rounding.Round(a, 2)) <= 0.02
  {
    Rounding.RoundError(h, 2);
    Rounding.RoundError(a, 2);
    Rounding.RoundError(h', 2);
    Rounding.RoundError(a', 2);
  }

  /** Everything written on a day is on the 0.01 grid. */
  lemma {:induction false} DayRowsOnGrid(m: Math, cap: Option<real>, start: map<string, real>, games: seq<Played>)
    requires Lawful(m)
    ensures forall k :: 0 <= k < |Day(m, cap, start, games).rows| ==> RowOnGrid(Day(m, cap, start, games).rows[k])
    decreases |games|
  {
    if |games| > 0 {
      var prev := Day(m, cap, start, games[..|games| - 1]);
      DayRowsOnGrid(m, cap, start, games[..|games| - 1]);
      var next := DayStep(m, cap, prev, games[|games| - 1]);
      assert Day(m, cap, start, games) == next;
      forall k | 0 <= k < |next.rows| ensures RowOnGrid(next.rows[k]) {
        if k < |prev.rows| {
          assert next.rows[k] == next.rows[..|prev.rows|][k];
        }
      }
    }
  }

  /** The history line a written row becomes: the next run re-reads its
    * rounded post-game values. */
  function Persisted(day: string, row: EloRow): (h: HistoryRow)
    ensures h.homeEloPost == row.homeEloPost && h.awayEloPost == row.awayEloPost
  {
    HistoryRow(day, row.homeTeam, row.awayTeam, row.homeEloPost, row.awayEloPost)
  }

  /** Every post-game value of the history file is on the 0.01 grid. */
  predicate HistoryOnGrid(history: seq<HistoryRow>)
  {
    forall i :: 0 <= i < |history| ==> OnGrid(history[i].homeEloPost) && OnGrid(history[i].awayEloPost)
  }

  /** A file made of written rows is on the grid. */
  lemma PersistedOnGrid(history: seq<HistoryRow>, day: string, rows: seq<EloRow>)
    requires HistoryOnGrid(history)
    requires forall k :: 0 <= k < |rows| ==> RowOnGrid(rows[k])
    ensures HistoryOnGrid(history + seq(|rows|, k requires 0 <= k < |rows| => Persisted(day, rows[k])))
  {
  }

  /** So a club that played this season starts the next run from a rounded
    * value, the last post-game value written for it. */
  lemma StartOnGrid(baseline: seq<BaselineRow>, history: seq<HistoryRow>, t: string)
    requires HistoryOnGrid(history) && (HomeIn(history, t) || AwayIn(history, t))
    ensures t in StartRatings(baseline, Some(history))
    ensures OnGrid(StartRatings(baseline, Some(history))[t])
  {
    var sorted := Sort(history, ByDate());
    assert multiset(sorted) == multiset(history);
    if AwayIn(history, t) {
      StartFromLastAway(baseline, history, t);
      var i :| LastKept(sorted, Always, AwayTeamOf, i, t) &&
        StartRatings(baseline, Some(history))[t] == sorted[i].awayEloPost;
      assert sorted[i] in multiset(history);
    } else {
      StartFromLastHome(baseline, history, t);
      var i :| LastKept(sorted, Always, HomeTeamOf, i, t) &&
        StartRatings(baseline, Some(history))[t] == sorted[i].homeEloPost;
      assert sorted[i] in multiset(history);
    }
  }

  /** A game with an unrated club changes nothing. */
  lemma DayStepSkips(m: Math, cap: Option<real>, s: DayState, g: Played)
    requires Lawful(m) && !Rated(s.elos, g)
    ensures DayStep(m, cap, s, g) == s
  {
  }

  /** A tie moves no rating, whatever the ratings (with no cap or a
    * non-negative one). */
  lemma DayStepTie(m: Math, cap: Option<real>, s: DayState, g: Played)
    requires Lawful(m) && Rated(s.elos, g) && g.homeScore == g.awayScore
    requires cap.None? || cap.value >= 0.0
    ensures DayStep(m, cap, s, g).elos == s.elos
  {
    var h := s.elos[g.home];
    var a := s.elos[g.away];
    assert MovMult(m, ScoreDiff(g), h - a, cap) == 0.0;
    ShiftSign(0.0, ResultHome(g) - ExpectedScore(m, h, a, ELO_HFA));
    assert DayShift(m, cap, h, a, g) == 0.0;
  }

  /** A home win never lowers the home rating. */
  lemma DayStepHomeWin(m: Math, cap: Option<real>, s: DayState, g: Played)
    requires Lawful(m) && Rated(s.elos, g) && g.home != g.away && g.homeScore > g.awayScore
    requires cap.None? || cap.value >= 0.0
    ensures DayStep(m, cap, s, g).elos[g.home] >= s.elos[g.home]
    ensures DayStep(m, cap, s, g).elos[g.away] <= s.elos[g.away]
  {
    var h := s.elos[g.home];
    var a := s.elos[g.away];
    var mov := MovMult(m, ScoreDiff(g), h - a, cap);
    var e := ExpectedScore(m, h, a, ELO_HFA);
    ShiftNonNegative(ELO_K * mov, 1.0 - e);
  }

  lemma ShiftNonNegative(c: real, d: real)
    requires c >= 0.0 && d >= 0.0
    ensures c * d >= 0.0
  {
  }

  function RatedCount(start: map<string, real>): Played -> int
  {
    g => if Rated(start, g) then 1 else 0
  }

  /** The clubs never change, and there is exactly one row per game whose
    * two clubs were rated at the start. */
  lemma {:induction false} DayRows(m: Math, cap: Option<real>, start: map<string, real>, games: seq<Played>)
    requires Lawful(m)
    ensures Day(m, cap, start, games).elos.Keys == start.Keys
    ensures |Day(m, cap, start, games).rows| == IntSumOf(games, RatedCount(start))
    decreases |games|
  {
    if |games| > 0 {
      DayRows(m, cap, start, games[..|games| - 1]);
    }
  }

  /** One pass of the day's loop. */
  method PlayGame(m: Math, cap: Option<real>, elos: map<string, real>, rows: seq<EloRow>, g: Played)
    returns (elos': map<string, real>, rows': seq<EloRow>)
    requires Lawful(m)
    ensures DayState(elos', rows') == DayStep(m, cap, DayState(elos, rows), g)
  {
    elos', rows' := elos, rows;
    if g.home in elos && g.away in elos {
      var eloHome := elos[g.home];
      var eloAway := elos[g.away];
      var shift := DayShift(m, cap, eloHome, eloAway, g);
      elos' := elos[g.home := eloHome + shift][g.away := eloAway - shift];
      rows' := rows + [Written(g, eloHome, eloAway, elos'[g.home], elos'[g.away], shift)];
    }
  }

  /** The day's loop over the completed games. */
  method ProcessGames(m: Math, cap: Option<real>, start: map<string, real>, games: seq<Played>)
    returns (elos: map<string, real>, rows: seq<EloRow>)
    requires Lawful(m)
    ensures DayState(elos, rows) == Day(m, cap, start, games)
  {
    elos := start;
    rows := [];
    var i := 0;
    while i < |games|
      invariant 0 <= i <= |games|
      invariant DayState(elos, rows) == Day(m, cap, start, games[..i])
    {
      FinalStep(DayStepFn(m, cap), DayState(start, []), games, i);
      elos, rows := PlayGame(m, cap, elos, rows, games[i]);
      i := i + 1;
    }
    assert games[..i] == games;
  }

  // The published table.

  /** Descending by rating; equal ratings keep their order. */
  function ByRatingDesc(): (le: ((string, real), (string, real)) -> bool)
  {
    (x: (string, real), y: (string, real)) => x.1 >= y.1
  }

  lemma RankedDescending(items: seq<(string, real)>)
    ensures forall i, j :: 0 <= i < j < |Sort(items, ByRatingDesc())| ==>
      Sort(items, ByRatingDesc())[i].1 >= Sort(items, ByRatingDesc())[j].1
  {
    assert TotalPreorder(ByRatingDesc());
    SortSorted(items, ByRatingDesc());
  }

  /** `sorted(team_elo.items(), key=elo, reverse=True)`, with the items
    * visited in code order, each rating then rounded to 2 places. The list
    * is descending in the exact ratings and so in the rounded ones. */
  method PublishRatings(elos: map<string, real>) returns (ranked: seq<(string, real)>)
    ensures forall i :: 0 <= i < |ranked| ==> ranked[i].0 in elos && ranked[i].1 == Rounding.Round(elos[ranked[i].0], 2)
    ensures forall i, j :: 0 <= i < j < |ranked| ==> elos[ranked[i].0] >= elos[ranked[j].0]
    ensures forall i, j :: 0 <= i < j < |ranked| ==> ranked[i].1 >= ranked[j].1
    ensures forall t :: t in elos ==> (t, Rounding.Round(elos[t], 2)) in ranked
    ensures |ranked| == |elos|
  {
    var ks := SortedKeys(elos);
    var items: seq<(string, real)> := [];
    var i := 0;
    while i < |ks|
      invariant 0 <= i <= |ks|
      invariant |items| == i
      invariant forall j :: 0 <= j < i ==> ks[j] in elos && items[j] == (ks[j], elos[ks[j]])
    {
      KeyOf(elos, ks, i);
      items := items + [(ks[i], elos[ks[i]])];
      i := i + 1;
    }
    var sorted := Sort(items, ByRatingDesc());
    RankedDescending(items);
    SortedItems(elos, ks, items, sorted);
    ranked := RoundRatings(sorted);
  }

  lemma KeyOf(elos: map<string, real>, ks: seq<string>, i: int)
    requires multiset(ks) == multiset(elos.Keys) && 0 <= i < |ks|
    ensures ks[i] in elos
  {
    assert ks[i] in multiset(ks);
  }

  /** A permutation of the dict's items holds every club once, with its
    * rating. */
  lemma SortedItems(elos: map<string, real>, ks: seq<string>, items: seq<(string, real)>, sorted: seq<(string, real)>)
    requires multiset(ks) == multiset(elos.Keys) && |items| == |ks|
    requires forall j :: 0 <= j < |ks| ==> ks[j] in elos && items[j] == (ks[j], elos[ks[j]])
    requires multiset(sorted) == multiset(items)
    ensures forall k :: 0 <= k < |sorted| ==> sorted[k].0 in elos && sorted[k].1 == elos[sorted[k].0]
    ensures forall t :: t in elos ==> (t, elos[t]) in sorted
    ensures |sorted| == |elos|
  {
    forall k | 0 <= k < |sorted| ensures sorted[k].0 in elos && sorted[k].1 == elos[sorted[k].0] {
      assert sorted[k] in multiset(items);
    }
    forall t | t in elos ensures (t, elos[t]) in sorted {
      assert t in multiset(ks);
      var j :| 0 <= j < |ks| && ks[j] == t;
      assert items[j] in multiset(sorted);
    }
    assert |sorted| == |ks| == |multiset(elos.Keys)|;
  }

  /** `round(elo, 2)` over a ranked list: the clubs and their order stay,
    * and rounding keeps the list descending. */
  function RoundRatings(sorted: seq<(string, real)>): (r: seq<(string, real)>)
    requires forall i, j :: 0 <= i < j < |sorted| ==> sorted[i].1 >= sorted[j].1
    ensures |r| == |sorted|
    ensures forall k :: 0 <= k < |r| ==> r[k] == (sorted[k].0, Rounding.Round(sorted[k].1, 2))
    ensures forall i, j :: 0 <= i < j < |r| ==> r[i].1 >= r[j].1
  {
    var r := seq(|sorted|, k requires 0 <= k < |sorted| => (sorted[k].0, Rounding.Round(sorted[k].1, 2)));
    assert forall i, j :: 0 <= i < j < |r| ==> r[i].1 >= r[j].1 by {
      forall i, j | 0 <= i < j < |r| ensures r[i].1 >= r[j].1 {
        Rounding.RoundMonotone(sorted[j].1, sorted[i].1, 2);
      }
    }
    r
  }
}
