/** The 2025 playoff-odds backfill: for every Monday of the 2025 season it
  * splits the season's rating history at that date, banks the wins of the
  * games played before it, takes each club's newest post-game rating,
  * simulates the games from that date on, and turns the American League
  * fields of the trials into percentages. */
module Backfill {
  import opened RealMath
  import opened Wrappers
  import opened Sums
  import opened Sorting
  import opened Folds
  import Elo
  import Playoffs
  import MC = MonteCarlo
  import SP = SeasonProjections
  import TeamCodes

  const HFA: real := 55.0
  const SIM_COUNT: nat := 1000

  /** Dates are day numbers as `date.toordinal()` counts them: day 1 is
    * Monday 1 January of year 1. The season runs from Monday 24 March 2025
    * to Monday 29 September 2025. */
  const SEASON_START: int := 739334
  const SEASON_END: int := 739523

  // Snapshot dates.

  /** `date.weekday()`: Monday is 0, Sunday 6. */
  function Weekday(d: int): int
  {
    (d + 6) % 7
  }

  /** Two Mondays are a whole number of weeks apart. */
  lemma MondaysWeeksApart(a: int, b: int)
    requires Weekday(a) == 0 && Weekday(b) == 0 && a < b
    ensures a + 7 <= b
  {
    var p := (a + 6) / 7;
    var q := (b + 6) / 7;
    assert a + 6 == 7 * p && b + 6 == 7 * q;
    assert p < q;
  }

  /** The first Monday on or after `start`: the first loop of
    * `get_monday_dates` stops there. */
  function FirstMonday(start: int): (m: int)
    ensures start <= m < start + 7 && Weekday(m) == 0
    ensures forall d :: start <= d < m ==> Weekday(d) != 0
  {
    var w := Weekday(start);
    var m := start + (7 - w) % 7;
    assert start + 6 == 7 * ((start + 6) / 7) + w;
    assert Weekday(m) == 0 by {
      if w == 0 {
      } else {
        assert m + 6 == 7 * ((start + 6) / 7 + 1);
      }
    }
    forall d | start <= d < m ensures Weekday(d) != 0 {
      assert d + 6 == 7 * ((start + 6) / 7) + w + (d - start);
      assert 0 < w + (d - start) < 7;
    }
    m
  }

  /** The Mondays from Monday `m` up to `end`. */
  function MondaysFrom(m: int, end: int): seq<int>
    decreases end - m
  {
    if m > end then [] else [m] + MondaysFrom(m + 7, end)
  }

  /** `get_monday_dates(start, end)`. */
  function MondayDates(start: int, end: int): seq<int>
  {
    MondaysFrom(FirstMonday(start), end)
  }

  lemma {:induction false} MondaysFromSpec(m: int, end: int)
    requires Weekday(m) == 0
    ensures var ds := MondaysFrom(m, end);
      |ds| == (if m > end then 0 else (end - m) / 7 + 1) &&
      (forall i :: 0 <= i < |ds| ==> ds[i] == m + 7 * i) &&
      forall d :: d in ds <==> m <= d <= end && Weekday(d) == 0
    decreases end - m
  {
    if m <= end {
      var rest := MondaysFrom(m + 7, end);
      assert Weekday(m + 7) == 0;
      MondaysFromSpec(m + 7, end);
      assert MondaysFrom(m, end) == [m] + rest;
      if m + 7 <= end {
        assert (end - m) / 7 == (end - (m + 7)) / 7 + 1;
      } else {
        assert (end - m) / 7 == 0;
      }
      forall d | m <= d <= end && Weekday(d) == 0 ensures d in MondaysFrom(m, end) {
        if d != m {
          MondaysWeeksApart(m, d);
        }
      }
    }
  }

  /** Every Monday from `start` to `end` inclusive, each once, ascending,
    * seven days apart. */
  lemma MondayDatesSpec(start: int, end: int)
    ensures var ds := MondayDates(start, end);
      (forall d :: d in ds <==> start <= d <= end && Weekday(d) == 0) &&
      (forall i :: 0 < i < |ds| ==> ds[i] == ds[i - 1] + 7) &&
      (|ds| > 0 ==> ds[0] == FirstMonday(start))
  {
    var m := FirstMonday(start);
    MondaysFromSpec(m, end);
  }

  /** The 2025 backfill takes 28 snapshots, from the first Monday of the
    * season to the last. */
  lemma SeasonMondays()
    ensures var ds := MondayDates(SEASON_START, SEASON_END);
      |ds| == 28 && ds[0] == SEASON_START && ds[27] == SEASON_END
  {
    assert Weekday(SEASON_START) == 0;
    assert FirstMonday(SEASON_START) == SEASON_START;
    MondaysFromSpec(SEASON_START, SEASON_END);
  }

  /** `get_monday_dates`: step forward to a Monday, then collect a date
    * every seven days until past `end`. */
  method GetMondayDates(start: int, end: int) returns (dates: seq<int>)
    ensures dates == MondayDates(start, end)
  {
    var current := start;
    while Weekday(current) != 0
      invariant start <= current <= FirstMonday(start)
      decreases FirstMonday(start) - current
    {
      current := current + 1;
    }
    dates := [];
    while current <= end
      invariant dates + MondaysFrom(current, end) == MondayDates(start, end)
      decreases end - current
    {
      assert MondaysFrom(current, end) == [current] + MondaysFrom(current + 7, end);
      dates := dates + [current];
      current := current + 7;
    }
  }

  // The history split at a snapshot date.

  /** A row of the season's rating history: the game's date, the clubs, the
    * runs each scored and each club's rating after the game. */
  datatype HistoryRow = HistoryRow(date: int, home: string, away: string, homeScore: int, awayScore: int,
                                   homeEloAfter: real, awayEloAfter: real)

  function Side(snap: int, before: bool): HistoryRow -> Option<HistoryRow>
  {
    (r: HistoryRow) => if (r.date < snap) == before then Some(r) else None
  }

  /** The games played before the snapshot date, in history order. */
  function Completed(history: seq<HistoryRow>, snap: int): seq<HistoryRow>
  {
    FilterMap(Side(snap, true), history)
  }

  /** The games on or after the snapshot date, which are simulated. */
  function Remaining(history: seq<HistoryRow>, snap: int): seq<HistoryRow>
  {
    FilterMap(Side(snap, false), history)
  }

  /** Every row of the history is completed or remaining, never both. */
  lemma HistoryPartition(history: seq<HistoryRow>, snap: int)
    ensures multiset(Completed(history, snap)) + multiset(Remaining(history, snap)) == multiset(history)
    ensures forall r :: r in Completed(history, snap) <==> r in history && r.date < snap
    ensures forall r :: r in Remaining(history, snap) <==> r in history && r.date >= snap
  {
    HistorySplit(history, snap);
    forall r ensures r in Completed(history, snap) <==> r in history && r.date < snap {
      FilterMapMembers(Side(snap, true), history, r);
    }
    forall r ensures r in Remaining(history, snap) <==> r in history && r.date >= snap {
      FilterMapMembers(Side(snap, false), history, r);
    }
  }

  lemma {:induction false} HistorySplit(history: seq<HistoryRow>, snap: int)
    ensures multiset(Completed(history, snap)) + multiset(Remaining(history, snap)) == multiset(history)
    decreases |history|
  {
    if |history| > 0 {
      var n := |history| - 1;
      var init := history[..n];
      var h := history[n];
      HistorySplit(init, snap);
      assert history == init + [h];
      if h.date < snap {
        assert Completed(history, snap) == Completed(init, snap) + [h];
        assert Remaining(history, snap) == Remaining(init, snap);
      } else {
        assert Completed(history, snap) == Completed(init, snap);
        assert Remaining(history, snap) == Remaining(init, snap) + [h];
      }
    }
  }

  // Wins banked before the snapshot.

  /** The club a completed game credits: the home club only when it scored
    * strictly more runs, otherwise the away club (a tie goes to the away
    * club). */
  function WinnerOf(r: HistoryRow): (w: string)
    ensures w == r.home || w == r.away
    ensures r.home != r.away ==> (w == r.home <==> r.homeScore > r.awayScore)
  {
    if r.homeScore > r.awayScore then r.home else r.away
  }

  function AddWin(wins: map<string, int>, r: HistoryRow): map<string, int>
  {
    wins[WinnerOf(r) := MC.Banked(wins, WinnerOf(r)) + 1]
  }

  /** `actual_wins` after the completed games. */
  function ActualWins(completed: seq<HistoryRow>): map<string, int>
  {
    Final((w: map<string, int>, r: HistoryRow) => AddWin(w, r), map[], completed)
  }

  function WonBy(t: string): HistoryRow -> bool
  {
    (r: HistoryRow) => WinnerOf(r) == t
  }

  /** A club's banked wins are the completed games it won. */
  lemma {:induction false} ActualWinsCount(completed: seq<HistoryRow>, t: string)
    ensures MC.Banked(ActualWins(completed), t) == CountWhere(completed, WonBy(t))
    decreases |completed|
  {
    if |completed| > 0 {
      var n := |completed| - 1;
      ActualWinsCount(completed[..n], t);
    }
  }

  /** Summed over the clubs, the banked wins are one per completed game. */
  lemma {:induction false} ActualWinsTotal(completed: seq<HistoryRow>, teams: seq<string>)
    requires Distinct(teams)
    requires forall r :: r in completed ==> WinnerOf(r) in teams
    ensures IntSumOf(teams, MC.BankedFn(ActualWins(completed))) == |completed|
    decreases |completed|
  {
    if |completed| == 0 {
      assert forall t :: MC.BankedFn(ActualWins(completed))(t) == 0;
      MC.IntSumOfSame(teams, MC.BankedFn(ActualWins(completed)), (t: string) => 0);
      SP.ZeroSum(teams);
    } else {
      var n := |completed| - 1;
      var w := WinnerOf(completed[n]);
      assert forall r :: r in completed[..n] ==> r in completed;
      ActualWinsTotal(completed[..n], teams);
      forall t ensures MC.BankedFn(ActualWins(completed))(t) ==
          MC.BankedFn(ActualWins(completed[..n]))(t) + (if t == w then 1 else 0) {
      }
      MC.IntSumOfAdd(teams, MC.BankedFn(ActualWins(completed[..n])), (t: string) => if t == w then 1 else 0,
                     MC.BankedFn(ActualWins(completed)));
      SP.OneHotSum(teams, w);
    }
  }

  /** The `actual_wins` loop. */
  method BankWins(completed: seq<HistoryRow>) returns (wins: map<string, int>)
    ensures wins == ActualWins(completed)
  {
    wins := map[];
    var i := 0;
    while i < |completed|
      invariant 0 <= i <= |completed|
      invariant wins == ActualWins(completed[..i])
    {
      FinalStep((w: map<string, int>, r: HistoryRow) => AddWin(w, r), map[], completed, i);
      var r := completed[i];
      if r.homeScore > r.awayScore {
        wins := wins[r.home := if r.home in wins then wins[r.home] + 1 else 1];
      } else {
        wins := wins[r.away := if r.away in wins then wins[r.away] + 1 else 1];
      }
      i := i + 1;
    }
    assert completed[..i] == completed;
  }

  // Ratings at the snapshot.

  /** A completed game overwrites both clubs' ratings with their post-game
    * ratings, home first, then away. */
  function RateAfter(elo: map<string, real>, r: HistoryRow): map<string, real>
  {
    elo[r.home := r.homeEloAfter][r.away := r.awayEloAfter]
  }

  /** `current_elo`: the baseline, overwritten game by game. */
  function CurrentElo(baseline: map<string, real>, completed: seq<HistoryRow>): map<string, real>
  {
    Final((e: map<string, real>, r: HistoryRow) => RateAfter(e, r), baseline, completed)
  }

  predicate Plays(r: HistoryRow, t: string)
  {
    r.home == t || r.away == t
  }

  /** The rating a game leaves a club with (the away value when the club is
    * listed on both sides, as the second assignment wins). */
  function AfterFor(r: HistoryRow, t: string): real
  {
    if r.away == t then r.awayEloAfter else r.homeEloAfter
  }

  /** Game `i` is the last completed game club `t` played. */
  predicate LastPlayed(completed: seq<HistoryRow>, t: string, i: int)
  {
    0 <= i < |completed| && Plays(completed[i], t) && forall j :: i < j < |completed| ==> !Plays(completed[j], t)
  }

  /** A club has a rating when it has a baseline rating or has played. */
  lemma {:induction false} CurrentEloKeys(baseline: map<string, real>, completed: seq<HistoryRow>, t: string)
    ensures t in CurrentElo(baseline, completed) <==>
      t in baseline || exists i :: 0 <= i < |completed| && Plays(completed[i], t)
    decreases |completed|
  {
    if |completed| > 0 {
      var n := |completed| - 1;
      var init := completed[..n];
      CurrentEloKeys(baseline, init, t);
      assert CurrentElo(baseline, completed) == RateAfter(CurrentElo(baseline, init), completed[n]);
      if exists i :: 0 <= i < |completed| && Plays(completed[i], t) {
        var i :| 0 <= i < |completed| && Plays(completed[i], t);
        if i < n {
          assert Plays(init[i], t);
        }
      }
      if exists i :: 0 <= i < |init| && Plays(init[i], t) {
        var i :| 0 <= i < |init| && Plays(init[i], t);
        assert Plays(completed[i], t);
      }
    }
  }

  /** After playing, a club's rating is the one its last completed game left
    * it with: later rows overwrite earlier ones. */
  lemma {:induction false} CurrentEloLast(baseline: map<string, real>, completed: seq<HistoryRow>, t: string, i: int)
    requires LastPlayed(completed, t, i)
    ensures t in CurrentElo(baseline, completed) && CurrentElo(baseline, completed)[t] == AfterFor(completed[i], t)
    decreases |completed|
  {
    var n := |completed| - 1;
    var init := completed[..n];
    assert CurrentElo(baseline, completed) == RateAfter(CurrentElo(baseline, init), completed[n]);
    if i < n {
      assert !Plays(completed[n], t);
      assert LastPlayed(init, t, i) by {
        assert init[i] == completed[i];
        forall j | i < j < n ensures !Plays(init[j], t) {
          assert init[j] == completed[j];
        }
      }
      CurrentEloLast(baseline, init, t, i);
    }
  }

  /** A club that has not played keeps its baseline rating. */
  lemma {:induction false} CurrentEloBaseline(baseline: map<string, real>, completed: seq<HistoryRow>, t: string)
    requires t in baseline && forall i :: 0 <= i < |completed| ==> !Plays(completed[i], t)
    ensures t in CurrentElo(baseline, completed) && CurrentElo(baseline, completed)[t] == baseline[t]
    decreases |completed|
  {
    if |completed| > 0 {
      var n := |completed| - 1;
      var init := completed[..n];
      assert !Plays(completed[n], t);
      forall i | 0 <= i < |init| ensures !Plays(init[i], t) {
        assert init[i] == completed[i];
      }
      CurrentEloBaseline(baseline, init, t);
      assert CurrentElo(baseline, completed) == RateAfter(CurrentElo(baseline, init), completed[n]);
    }
  }

  /** The `current_elo` loop. */
  method LatestRatings(baseline: map<string, real>, completed: seq<HistoryRow>) returns (elo: map<string, real>)
    ensures elo == CurrentElo(baseline, completed)
  {
    elo := baseline;
    var i := 0;
    while i < |completed|
      invariant 0 <= i <= |completed|
      invariant elo == CurrentElo(baseline, completed[..i])
    {
      FinalStep((e: map<string, real>, r: HistoryRow) => RateAfter(e, r), baseline, completed, i);
      var r := completed[i];
      elo := elo[r.home := r.homeEloAfter];
      elo := elo[r.away := r.awayEloAfter];
      i := i + 1;
    }
    assert completed[..i] == completed;
  }

  // The simulation.

  /** Every club in the history, home or away. */
  function TeamsOf(history: seq<HistoryRow>): set<string>
  {
    (set r | r in history :: r.home) + (set r | r in history :: r.away)
  }

  /** The simulator's view of a remaining game: skipped unless both clubs
    * have a rating, otherwise won at home with the expected score given the
    * home advantage. */
  function SimFixture(m: Math, elo: map<string, real>, r: HistoryRow, draws: seq<real>): (f: MC.Fixture)
    requires Lawful(m)
    ensures f.home == r.home && f.away == r.away && f.draws == draws
    ensures MC.Rated(f) <==> r.home in elo && r.away in elo
    ensures MC.Rated(f) ==> 0.0 < f.pHome.value < 1.0
  {
    MC.Fixture(r.home, r.away,
               if r.home in elo && r.away in elo then Some(Elo.ExpectedScore(m, elo[r.home], elo[r.away], HFA)) else None,
               draws)
  }

  /** `draws[i]` holds the draws of remaining game `i`, one per trial. */
  function Fixtures(m: Math, elo: map<string, real>, remaining: seq<HistoryRow>, draws: seq<seq<real>>): (fs: seq<MC.Fixture>)
    requires Lawful(m) && |draws| == |remaining|
    ensures |fs| == |remaining|
  {
    seq(|remaining|, i requires 0 <= i < |remaining| => SimFixture(m, elo, remaining[i], draws[i]))
  }

  /** The fixtures of a snapshot. */
  function SnapFixtures(m: Math, history: seq<HistoryRow>, snap: int, baseline: map<string, real>,
                        draws: seq<seq<real>>): (fs: seq<MC.Fixture>)
    requires Lawful(m) && |draws| == |Remaining(history, snap)|
  {
    Fixtures(m, CurrentElo(baseline, Completed(history, snap)), Remaining(history, snap), draws)
  }

  /** The simulation matrix as the specification sees it: trial `k`, club
    * `teams[j]`. */
  function Trials(m: Math, history: seq<HistoryRow>, snap: int, baseline: map<string, real>, simCount: nat,
                  draws: seq<seq<real>>, teams: seq<string>): (trials: seq<seq<int>>)
    requires Lawful(m) && |draws| == |Remaining(history, snap)|
    ensures |trials| == simCount
  {
    var seed := ActualWins(Completed(history, snap));
    var fixtures := SnapFixtures(m, history, snap, baseline, draws);
    seq(simCount, k requires 0 <= k < simCount =>
      seq(|teams|, j requires 0 <= j < |teams| => MC.Wins(seed, fixtures, k, teams[j])))
  }

  /** In every trial the clubs' wins add up to the completed games plus one
    * per remaining game between rated clubs: every simulated game hands out
    * exactly one win and a skipped game none. */
  lemma SnapshotTrialTotal(m: Math, history: seq<HistoryRow>, snap: int, baseline: map<string, real>,
                           draws: seq<seq<real>>, teams: seq<string>, trial: nat)
    requires Lawful(m) && |draws| == |Remaining(history, snap)|
    requires Distinct(teams) && forall t :: t in TeamsOf(history) ==> t in teams
    ensures var fixtures := SnapFixtures(m, history, snap, baseline, draws);
      IntSumOf(teams, MC.WinsFn(ActualWins(Completed(history, snap)), fixtures, trial)) ==
        |Completed(history, snap)| + IntSumOf(fixtures, MC.RatedOne)
  {
    var completed := Completed(history, snap);
    var remaining := Remaining(history, snap);
    var fixtures := SnapFixtures(m, history, snap, baseline, draws);
    HistoryPartition(history, snap);
    forall r | r in completed ensures WinnerOf(r) in teams {
      assert r in history;
    }
    ActualWinsTotal(completed, teams);
    forall i | 0 <= i < |fixtures| && MC.Rated(fixtures[i])
      ensures fixtures[i].home in teams && fixtures[i].away in teams
    {
      assert remaining[i] in remaining;
    }
    MC.TrialTotal(ActualWins(completed), fixtures, trial, teams);
  }

  // Odds rows.

  /** An output row: the snapshot date, the club and its three percentages. */
  datatype SnapshotRow = SnapshotRow(date: int, team: string, playoffPct: real, divisionPct: real, wildcardPct: real)

  /** The odds rows with the snapshot date attached. */
  function Dated(date: int, rows: seq<SP.OddsRow>): (out: seq<SnapshotRow>)
    ensures |out| == |rows|
    ensures forall i :: 0 <= i < |rows| ==>
      (out[i].date == date && out[i].team == rows[i].team && out[i].playoffPct == rows[i].playoffPct &&
       out[i].divisionPct == rows[i].divisionPct && out[i].wildcardPct == rows[i].wildcardPct)
  {
    if |rows| == 0 then []
    else
      var n := |rows| - 1;
      var r := rows[n];
      Dated(date, rows[..n]) + [SnapshotRow(date, r.team, r.playoffPct, r.divisionPct, r.wildcardPct)]
  }

  /** The trials' fields: one first-listed best club per American League
    * division, then the three best of the rest. */
  function SnapFields(m: Math, history: seq<HistoryRow>, snap: int, baseline: map<string, real>, simCount: nat,
                      draws: seq<seq<real>>, teams: seq<string>): (fs: seq<Playoffs.Field>)
    requires Lawful(m) && |draws| == |Remaining(history, snap)|
    ensures |fs| == simCount
  {
    SP.Fields(TeamCodes.MlbTables(), Trials(m, history, snap, baseline, simCount, draws, teams), teams)
  }

  /** `compute_snapshot`'s result: one row per American League club in club
    * order, or the division by zero that `round(100 * c / sim_count, 1)`
    * raises when there are no trials but there are clubs to report. */
  function Snapshot(m: Math, history: seq<HistoryRow>, snap: int, baseline: map<string, real>, simCount: nat,
                    draws: seq<seq<real>>, teams: seq<string>): Result<seq<SnapshotRow>>
    requires Lawful(m) && |draws| == |Remaining(history, snap)|
  {
    var al := SP.AlTeams(TeamCodes.MlbTables(), teams);
    if simCount == 0 && |al| > 0 then Err("division by zero")
    else Ok(Dated(snap, SP.OddsRows(al, SnapFields(m, history, snap, baseline, simCount, draws, teams))))
  }

  /** A club makes the field as a division winner or as a wild card, never
    * both, so its playoff count is the sum of the other two. */
  lemma SnapshotCountsSplit(m: Math, history: seq<HistoryRow>, snap: int, baseline: map<string, real>, simCount: nat,
                            draws: seq<seq<real>>, teams: seq<string>, t: string)
    requires Lawful(m) && |draws| == |Remaining(history, snap)|
    ensures var fs := SnapFields(m, history, snap, baseline, simCount, draws, teams);
      SP.Tally(fs, t, SP.Playoff) == SP.Tally(fs, t, SP.Division) + SP.Tally(fs, t, SP.Wildcard)
  {
    var trials := Trials(m, history, snap, baseline, simCount, draws, teams);
    SP.FieldsDisjoint(TeamCodes.MlbTables(), trials, teams);
    SP.TallySplit(SP.Fields(TeamCodes.MlbTables(), trials, teams), t);
  }

  /** The snapshot fails exactly when there are American League clubs but no
    * trials; otherwise it has one row per American League club, in club
    * order, dated with the snapshot, with every percentage between 0 and
    * 100. */
  lemma SnapshotRows(m: Math, history: seq<HistoryRow>, snap: int, baseline: map<string, real>, simCount: nat,
                     draws: seq<seq<real>>, teams: seq<string>)
    requires Lawful(m) && |draws| == |Remaining(history, snap)|
    ensures var al := SP.AlTeams(TeamCodes.MlbTables(), teams);
      var res := Snapshot(m, history, snap, baseline, simCount, draws, teams);
      (res.Err? <==> simCount == 0 && |al| > 0) &&
      (res.Ok? ==>
        (|res.value| == |al| &&
         forall i :: 0 <= i < |al| ==>
           (res.value[i].date == snap && res.value[i].team == al[i] &&
            0.0 <= res.value[i].playoffPct <= 100.0 && 0.0 <= res.value[i].divisionPct <= 100.0 &&
            0.0 <= res.value[i].wildcardPct <= 100.0)))
  {
    var al := SP.AlTeams(TeamCodes.MlbTables(), teams);
    if !(simCount == 0 && |al| > 0) {
      DatedRows(snap, al, SnapFields(m, history, snap, baseline, simCount, draws, teams));
    }
  }

  lemma DatedRows(snap: int, al: seq<string>, fs: seq<Playoffs.Field>)
    requires |fs| > 0 || |al| == 0
    ensures var rows := Dated(snap, SP.OddsRows(al, fs));
      |rows| == |al| &&
      forall i :: 0 <= i < |al| ==>
        (rows[i].date == snap && rows[i].team == al[i] &&
         0.0 <= rows[i].playoffPct <= 100.0 && 0.0 <= rows[i].divisionPct <= 100.0 &&
         0.0 <= rows[i].wildcardPct <= 100.0)
  {
    var rows := SP.OddsRows(al, fs);
    forall i | 0 <= i < |al|
      ensures rows[i].team == al[i] &&
        0.0 <= rows[i].playoffPct <= 100.0 && 0.0 <= rows[i].divisionPct <= 100.0 && 0.0 <= rows[i].wildcardPct <= 100.0
    {
      SP.OddsRowsBounds(al, fs, rows[i]);
    }
  }

  /** `compute_snapshot`, over its inputs: the snapshot date, the season's
    * history, the baseline ratings, the number of trials and the draws of
    * the remaining games. It also returns the clubs in column order. */
  method ComputeSnapshot(m: Math, history: seq<HistoryRow>, snap: int, baseline: map<string, real>, simCount: nat,
                         draws: seq<seq<real>>) returns (teams: seq<string>, result: Result<seq<SnapshotRow>>)
    requires Lawful(m) && |draws| == |Remaining(history, snap)|
    ensures SortedBy(teams, StringLe()) && Distinct(teams) && forall t :: t in teams <==> t in TeamsOf(history)
    ensures result == Snapshot(m, history, snap, baseline, simCount, draws, teams)
  {
    var completed := Completed(history, snap);
    var remaining := Remaining(history, snap);
    var wins := BankWins(completed);
    var elo := LatestRatings(baseline, completed);
    teams := SortedSet(TeamsOf(history));
    var tab := TeamCodes.MlbTables();
    var al := SP.AlTeams(tab, teams);
    var fixtures := Fixtures(m, elo, remaining, draws);
    HistoryPartition(history, snap);
    forall i | 0 <= i < |fixtures| && MC.Rated(fixtures[i])
      ensures fixtures[i].home in teams && fixtures[i].away in teams
    {
      assert remaining[i] in remaining;
    }
    var sim := MC.Simulate(teams, wins, fixtures, simCount);
    var trials := SP.Rows(sim);
    TrialsRead(m, history, snap, baseline, simCount, draws, teams, sim);
    var playoff, division, wildcard := SP.CountFields(tab, trials, teams);
    if simCount == 0 && |al| > 0 {
      result := Err("division by zero");
    } else {
      var rows := SP.RowsFromCounts(al, SP.Fields(tab, trials, teams), simCount, playoff, division, wildcard);
      result := Ok(Dated(snap, rows));
    }
  }

  /** The matrix the simulation filled, read out by trial, is the one the
    * specification defines. */
  lemma TrialsRead(m: Math, history: seq<HistoryRow>, snap: int, baseline: map<string, real>, simCount: nat,
                   draws: seq<seq<real>>, teams: seq<string>, sim: array2<int>)
    requires Lawful(m) && |draws| == |Remaining(history, snap)|
    requires sim.Length0 == simCount && sim.Length1 == |teams|
    requires var fixtures := SnapFixtures(m, history, snap, baseline, draws);
      forall k, j :: 0 <= k < simCount && 0 <= j < |teams| ==>
        sim[k, j] == MC.Wins(ActualWins(Completed(history, snap)), fixtures, k, teams[j])
    ensures SP.Rows(sim) == Trials(m, history, snap, baseline, simCount, draws, teams)
  {
    var rows := SP.Rows(sim);
    var spec := Trials(m, history, snap, baseline, simCount, draws, teams);
    forall k | 0 <= k < simCount ensures rows[k] == spec[k] {
      assert |rows[k]| == |spec[k]|;
    }
  }
}
