/** The season machinery of the fade-curve backtest: the Elo replay up to a
  * snapshot date, the blend of the replayed ratings with the preseason ones
  * by a fade curve, the simulation of the games still to play, and the
  * American League playoff odds with random tie-breaks. The scoring of the
  * forecasts is in FadeBacktestScores. */
module FadeBacktest {
  import opened RealMath
  import opened Wrappers
  import opened Sums
  import opened Sorting
  import opened Folds
  import opened Elo
  import opened Playoffs
  import Fade
  import MC = MonteCarlo
  import SP = SeasonProjections
  import TeamCodes

  /** The backtest's K factor. Home advantage is the shared ELO_HFA (55)
    * and the margin-of-victory constant the shared 2.2. */
  const BACKTEST_K: real := 6.0

  /** `elo_shift(elo, exp, actual, mov)`: K * mov * (actual - exp). The
    * rating argument plays no part. */
  function BacktestShift(elo: real, exp: real, actual: real, mov: real): (s: real)
    ensures mov > 0.0 ==> (s > 0.0 <==> actual > exp) && (s < 0.0 <==> actual < exp)
    ensures actual == exp ==> s == 0.0
  {
    EloShift(BACKTEST_K, mov, exp, actual)
  }

  /** Two calls that differ only in the rating give the same shift. */
  lemma ShiftIgnoresRating(e1: real, e2: real, exp: real, actual: real, mov: real)
    ensures BacktestShift(e1, exp, actual, mov) == BacktestShift(e2, exp, actual, mov)
  {
  }

  /** `mov_mult` with the run's `MOV_CAP`: a configured cap can only lower
    * the multiplier, and leaves it alone when it is already below the cap. */
  lemma CapOnlyLowers(m: Math, scoreDiff: int, eloDiff: real, cap: real)
    requires Lawful(m)
    ensures MovMult(m, scoreDiff, eloDiff, Some(cap)) <= MovMult(m, scoreDiff, eloDiff, None)
    ensures MovMult(m, scoreDiff, eloDiff, None) <= cap ==>
      MovMult(m, scoreDiff, eloDiff, Some(cap)) == MovMult(m, scoreDiff, eloDiff, None)
  {
  }

  // The replay.

  /** A completed game of the season file, its date as a day number. */
  datatype Played = Played(date: int, home: string, away: string, homeScore: int, awayScore: int)

  function ScoreDiff(g: Played): int
  {
    if g.homeScore >= g.awayScore then g.homeScore - g.awayScore else g.awayScore - g.homeScore
  }

  /** 1 for a home win, 0 otherwise (a tie included). */
  function ActualHome(g: Played): real
  {
    if g.homeScore > g.awayScore then 1.0 else 0.0
  }

  predicate Rated(elos: map<string, real>, g: Played)
  {
    g.home in elos && g.away in elos
  }

  /** `games_played.get(t, 0)`. */
  function GetGp(gp: map<string, int>, t: string): int
  {
    if t in gp then gp[t] else 0
  }

  /** The games a game adds to club `t`'s count: one per side it plays. */
  function Appear(g: Played, t: string): int
  {
    (if g.home == t then 1 else 0) + (if g.away == t then 1 else 0)
  }

  /** The shift of one game from the two ratings before it; the rating gap
    * given to the multiplier includes home advantage. */
  function GameShift(m: Math, cap: Option<real>, h: real, a: real, g: Played): real
    requires Lawful(m)
  {
    var exp := ExpectedScore(m, h, a, ELO_HFA);
    var mov := MovMult(m, ScoreDiff(g), h + ELO_HFA - a, cap);
    BacktestShift(h, exp, ActualHome(g), mov)
  }

  /** The ratings and the games played so far. */
  datatype Replay = Replay(elos: map<string, real>, gp: map<string, int>)

  function Count(gp: map<string, int>, t: string): (r: map<string, int>)
    ensures forall u :: GetGp(r, u) == GetGp(gp, u) + (if u == t then 1 else 0)
    ensures r.Keys == gp.Keys + {t}
  {
    gp[t := GetGp(gp, t) + 1]
  }

  /** One game: skipped when a club has no rating; otherwise the shift is
    * added to the home rating, subtracted from the away rating, and both
    * clubs count one more game. */
  function ReplayStep(m: Math, cap: Option<real>, s: Replay, g: Played): (r: Replay)
    requires Lawful(m)
    ensures r.elos.Keys == s.elos.Keys
    ensures r.gp.Keys <= s.gp.Keys + s.elos.Keys
    ensures !Rated(s.elos, g) ==> r == s
    ensures forall t :: GetGp(r.gp, t) == GetGp(s.gp, t) + (if Rated(s.elos, g) then Appear(g, t) else 0)
  {
    if !Rated(s.elos, g) then s
    else
      var h := s.elos[g.home];
      var a := s.elos[g.away];
      var shift := GameShift(m, cap, h, a, g);
      Replay(s.elos[g.home := h + shift][g.away := a - shift], Count(Count(s.gp, g.home), g.away))
  }

  function ReplayFn(m: Math, cap: Option<real>): (Replay, Played) --> Replay
  {
    (s: Replay, g: Played) requires Lawful(m) => ReplayStep(m, cap, s, g)
  }

  /** The games dated strictly before the cutoff, in file order. */
  function Before(schedule: seq<Played>, cutoff: int): seq<Played>
  {
    FilterMap((g: Played) => if g.date < cutoff then Some(g) else None, schedule)
  }

  /** `replay_elo_to_date`: the state after the games before the cutoff,
    * from the preseason ratings and no games played. */
  function ReplayToDate(m: Math, cap: Option<real>, schedule: seq<Played>, preseason: map<string, real>,
                        cutoff: int): Replay
    requires Lawful(m)
  {
    Final(ReplayFn(m, cap), Replay(preseason, map[]), Before(schedule, cutoff))
  }

  /** The replay reads exactly the games before the cutoff. */
  lemma {:induction false} BeforeSpec(schedule: seq<Played>, cutoff: int)
    ensures forall g :: g in Before(schedule, cutoff) <==> g in schedule && g.date < cutoff
    decreases |schedule|
  {
    if |schedule| > 0 {
      var n := |schedule| - 1;
      BeforeSpec(schedule[..n], cutoff);
      assert schedule == schedule[..n] + [schedule[n]];
      assert forall g :: g in schedule <==> g in schedule[..n] || g == schedule[n];
    }
  }

  /** A game on or after the cutoff changes nothing in the replay. */
  lemma LaterGameIgnored(m: Math, cap: Option<real>, schedule: seq<Played>, preseason: map<string, real>,
                         cutoff: int, g: Played)
    requires Lawful(m) && g.date >= cutoff
    ensures ReplayToDate(m, cap, schedule + [g], preseason, cutoff) == ReplayToDate(m, cap, schedule, preseason, cutoff)
  {
    assert (schedule + [g])[..|schedule|] == schedule;
  }

  /** The games between clubs rated at the start in which `t` plays, each
    * side counted. */
  function RatedAppear(preseason: map<string, real>, t: string): Played -> int
  {
    g => if Rated(preseason, g) then Appear(g, t) else 0
  }

  /** No club gains or loses a rating, only rated clubs are counted, and a
    * club's count is its games against rated opponents, home and away. */
  lemma {:induction false} ReplayFacts(m: Math, cap: Option<real>, preseason: map<string, real>, games: seq<Played>)
    requires Lawful(m)
    ensures var r := Final(ReplayFn(m, cap), Replay(preseason, map[]), games);
      r.elos.Keys == preseason.Keys && r.gp.Keys <= preseason.Keys &&
      forall t :: GetGp(r.gp, t) == IntSumOf(games, RatedAppear(preseason, t))
    decreases |games|
  {
    if |games| > 0 {
      var n := |games| - 1;
      ReplayFacts(m, cap, preseason, games[..n]);
    }
  }

  /** Ratings read with 0 for a club that has none. */
  function RatingFn(elos: map<string, real>): string -> real
  {
    t => if t in elos then elos[t] else 0.0
  }

  /** Over distinct clubs, a term that is `c` at `w` and 0 elsewhere sums to
    * `c` when `w` is listed and to 0 otherwise. */
  lemma {:induction false} OneHotSum(teams: seq<string>, f: string -> real, w: string, c: real)
    requires Distinct(teams)
    requires forall t :: f(t) == if t == w then c else 0.0
    ensures SumOf(teams, f) == if w in teams then c else 0.0
    decreases |teams|
  {
    if |teams| > 0 {
      var n := |teams| - 1;
      assert Distinct(teams[..n]);
      OneHotSum(teams[..n], f, w, c);
      assert teams == teams[..n] + [teams[n]];
    }
  }

  /** Adding `shift` to one distinct club and taking it from another leaves
    * the total rating of any list of distinct clubs holding both unchanged. */
  lemma ShiftTotal(elos: map<string, real>, home: string, away: string, shift: real, teams: seq<string>,
                   after: map<string, real>)
    requires Distinct(teams) && home != away && home in elos && away in elos
    requires home in teams && away in teams
    requires after == elos[home := elos[home] + shift][away := elos[away] - shift]
    ensures SumOf(teams, RatingFn(after)) == SumOf(teams, RatingFn(elos))
  {
    var plus := (t: string) => if t == home then shift else 0.0;
    var minus := (t: string) => if t == away then -shift else 0.0;
    var delta := (t: string) => plus(t) + minus(t);
    SumOfLinear(teams, plus, minus, delta, 1.0, 1.0);
    OneHotSum(teams, plus, home, shift);
    OneHotSum(teams, minus, away, -shift);
    forall x ensures RatingFn(after)(x) == 1.0 * RatingFn(elos)(x) + 1.0 * delta(x) {
      if x == away {
      } else if x == home {
      }
    }
    SumOfLinear(teams, RatingFn(elos), delta, RatingFn(after), 1.0, 1.0);
  }

  /** One game between two different clubs leaves the total rating of any
    * list of distinct clubs that holds every rated club unchanged. */
  lemma StepTotal(m: Math, cap: Option<real>, s: Replay, g: Played, teams: seq<string>)
    requires Lawful(m) && Distinct(teams) && g.home != g.away
    requires forall t :: t in s.elos ==> t in teams
    ensures SumOf(teams, RatingFn(ReplayStep(m, cap, s, g).elos)) == SumOf(teams, RatingFn(s.elos))
  {
    var after := ReplayStep(m, cap, s, g).elos;
    if Rated(s.elos, g) {
      var shift := GameShift(m, cap, s.elos[g.home], s.elos[g.away], g);
      StepElos(m, cap, s, g);
      ShiftTotal(s.elos, g.home, g.away, shift, teams, after);
    } else {
      assert after == s.elos;
    }
  }

  /** A game between rated clubs moves the home club up by its shift and
    * the away club down by the same. */
  lemma StepElos(m: Math, cap: Option<real>, s: Replay, g: Played)
    requires Lawful(m) && Rated(s.elos, g)
    ensures var shift := GameShift(m, cap, s.elos[g.home], s.elos[g.away], g);
      ReplayStep(m, cap, s, g).elos == s.elos[g.home := s.elos[g.home] + shift][g.away := s.elos[g.away] - shift]
  {
  }

  /** The replay is zero-sum: when no game pits a club against itself, the
    * total rating of the clubs is what the preseason ratings add up to. */
  lemma {:induction false} ReplayZeroSum(m: Math, cap: Option<real>, preseason: map<string, real>,
                                         games: seq<Played>, teams: seq<string>)
    requires Lawful(m) && Distinct(teams)
    requires forall t :: t in preseason ==> t in teams
    requires forall g :: g in games ==> g.home != g.away
    ensures SumOf(teams, RatingFn(Final(ReplayFn(m, cap), Replay(preseason, map[]), games).elos)) ==
      SumOf(teams, RatingFn(preseason))
    decreases |games|
  {
    if |games| > 0 {
      var n := |games| - 1;
      ReplayZeroSum(m, cap, preseason, games[..n], teams);
      ReplayFacts(m, cap, preseason, games[..n]);
      assert games[n] in games;
      StepTotal(m, cap, Final(ReplayFn(m, cap), Replay(preseason, map[]), games[..n]), games[n], teams);
    }
  }

  /** One pass of the replay loop. */
  method PlayGame(m: Math, cap: Option<real>, elos: map<string, real>, gp: map<string, int>, g: Played)
    returns (elos': map<string, real>, gp': map<string, int>)
    requires Lawful(m)
    ensures Replay(elos', gp') == ReplayStep(m, cap, Replay(elos, gp), g)
  {
    elos', gp' := elos, gp;
    if g.home in elos && g.away in elos {
      var h := elos[g.home];
      var a := elos[g.away];
      var exp := ExpectedScore(m, h, a, ELO_HFA);
      var scoreDiff := if g.homeScore >= g.awayScore then g.homeScore - g.awayScore else g.awayScore - g.homeScore;
      var mov := MovMult(m, scoreDiff, h + ELO_HFA - a, cap);
      var actual := if g.homeScore > g.awayScore then 1.0 else 0.0;
      var shift := BacktestShift(h, exp, actual, mov);
      assert shift == GameShift(m, cap, h, a, g);
      elos' := elos'[g.home := h + shift];
      elos' := elos'[g.away := a - shift];
      gp' := gp'[g.home := if g.home in gp' then gp'[g.home] + 1 else 1];
      gp' := gp'[g.away := if g.away in gp' then gp'[g.away] + 1 else 1];
    }
  }

  /** `replay_elo_to_date`, game by game over the games before the cutoff. */
  method ReplayEloToDate(m: Math, cap: Option<real>, schedule: seq<Played>, preseason: map<string, real>,
                         cutoff: int) returns (elos: map<string, real>, gp: map<string, int>)
    requires Lawful(m)
    ensures Replay(elos, gp) == ReplayToDate(m, cap, schedule, preseason, cutoff)
  {
    elos := preseason;
    gp := map[];
    var before := Before(schedule, cutoff);
    var i := 0;
    while i < |before|
      invariant 0 <= i <= |before|
      invariant Replay(elos, gp) == Final(ReplayFn(m, cap), Replay(preseason, map[]), before[..i])
    {
      FinalStep(ReplayFn(m, cap), Replay(preseason, map[]), before, i);
      elos, gp := PlayGame(m, cap, elos, gp, before[i]);
      i := i + 1;
    }
    assert before[..i] == before;
  }

  // Regression to the preseason ratings.

  /** `preseason_elo.get(team, cur)`. */
  function PreOr(preseason: map<string, real>, t: string, cur: real): real
  {
    if t in preseason then preseason[t] else cur
  }

  /** `fade_pct` raises for some club: the curve name is unknown and some
    * club has played fewer than FADE_GAMES games. */
  predicate CurveFails(current: map<string, real>, gp: map<string, int>, curve: string)
  {
    Fade.ParseCurve(curve).None? && exists t :: t in current && GetGp(gp, t) < Fade.FADE_GAMES
  }

  /** One club's blended rating, or the error `fade_pct` raises for it. */
  function ClubValue(m: Math, cur: real, pre: real, games: int, curve: string): Result<real>
    requires Lawful(m)
  {
    match Fade.FadePct(m, games, curve)
    case Ok(pct) => Ok(Fade.Blend(pct, cur, pre))
    case Err(e) => Err(e)
  }

  function ClubValueOf(m: Math, current: map<string, real>, preseason: map<string, real>, gp: map<string, int>,
                       curve: string, t: string): Result<real>
    requires Lawful(m) && t in current
  {
    ClubValue(m, current[t], PreOr(preseason, t, current[t]), GetGp(gp, t), curve)
  }

  /** `regress_elo`: every rated club's blend of its current and preseason
    * ratings, weighted by the fade curve at its games played. */
  function Regress(m: Math, current: map<string, real>, preseason: map<string, real>, gp: map<string, int>,
                   curve: string): (r: Result<map<string, real>>)
    requires Lawful(m)
    ensures r.Ok? ==> r.value.Keys == current.Keys
  {
    if exists t :: t in current && ClubValueOf(m, current, preseason, gp, curve, t).Err? then
      Err("Unknown fade curve: " + curve)
    else
      Ok(map t | t in current :: ClubValueOf(m, current, preseason, gp, curve, t).value)
  }

  /** What the blend promises per club, for non-negative games played: an
    * unknown curve fails only while someone is short of FADE_GAMES; a club
    * without a preseason rating or past FADE_GAMES keeps its current
    * rating; every rating lies between the current and preseason ones; at
    * no games the linear, cosine and quadratic curves give the preseason
    * rating, while the sigmoid never does unless the two agree. */
  lemma RegressSpec(m: Math, current: map<string, real>, preseason: map<string, real>, gp: map<string, int>,
                    curve: string)
    requires Lawful(m)
    requires forall t :: t in gp ==> gp[t] >= 0
    ensures Regress(m, current, preseason, gp, curve).Err? <==> CurveFails(current, gp, curve)
    ensures var r := Regress(m, current, preseason, gp, curve);
      r.Ok? ==> forall t :: t in current ==>
        var cur := current[t];
        var pre := PreOr(preseason, t, cur);
        (t !in preseason ==> r.value[t] == cur) &&
        (GetGp(gp, t) >= Fade.FADE_GAMES ==> r.value[t] == cur) &&
        ((cur <= r.value[t] <= pre) || (pre <= r.value[t] <= cur)) &&
        (GetGp(gp, t) == 0 && curve in {"linear", "cosine", "quadratic"} ==> r.value[t] == pre) &&
        (curve == "sigmoid" && cur != pre ==> r.value[t] != pre)
  {
    var r := Regress(m, current, preseason, gp, curve);
    forall t | t in current ensures ClubValueOf(m, current, preseason, gp, curve, t).Err? <==>
        Fade.ParseCurve(curve).None? && GetGp(gp, t) < Fade.FADE_GAMES {
      Fade.FadeErrors(m, GetGp(gp, t), curve);
    }
    if r.Ok? {
      forall t | t in current
        ensures var cur := current[t];
          var pre := PreOr(preseason, t, cur);
          (t !in preseason ==> r.value[t] == cur) &&
          (GetGp(gp, t) >= Fade.FADE_GAMES ==> r.value[t] == cur) &&
          ((cur <= r.value[t] <= pre) || (pre <= r.value[t] <= cur)) &&
          (GetGp(gp, t) == 0 && curve in {"linear", "cosine", "quadratic"} ==> r.value[t] == pre) &&
          (curve == "sigmoid" && cur != pre ==> r.value[t] != pre)
      {
        RegressOne(m, current[t], preseason, t, GetGp(gp, t), curve);
      }
    }
  }

  /** The per-club facts of RegressSpec. */
  lemma RegressOne(m: Math, cur: real, preseason: map<string, real>, t: string, g: int, curve: string)
    requires Lawful(m) && g >= 0
    requires Fade.FadePct(m, g, curve).Ok?
    ensures var pct := Fade.FadePct(m, g, curve).value;
      var pre := PreOr(preseason, t, cur);
      var v := Fade.Blend(pct, cur, pre);
      (t !in preseason ==> v == cur) &&
      (g >= Fade.FADE_GAMES ==> v == cur) &&
      ((cur <= v <= pre) || (pre <= v <= cur)) &&
      (g == 0 && curve in {"linear", "cosine", "quadratic"} ==> v == pre) &&
      (curve == "sigmoid" && cur != pre ==> v != pre)
  {
    var pct := Fade.FadePct(m, g, curve).value;
    var pre := PreOr(preseason, t, cur);
    if g >= Fade.FADE_GAMES {
      assert pct == 1.0;
    } else {
      var c := Fade.ParseCurve(curve).value;
      Fade.FadeMonotone(m, c, curve, g, g);
      if g == 0 {
        Fade.FadeAtStart(m);
      }
      if curve == "sigmoid" {
        var e := m.exp(-10.0 * (g as real / Fade.FADE_GAMES as real - 0.5));
        assert e > 0.0;
        Fade.SigmoidBounds(e);
        assert pct > 0.0;
      }
    }
    Fade.BlendBetween(pct, pct, cur, pre);
    assert Fade.Blend(pct, cur, pre) - pre == pct * (cur - pre);
    if curve == "sigmoid" && cur != pre {
      assert pct > 0.0;
      assert pct * (cur - pre) != 0.0;
    }
  }

  /** `regress_elo`, club by club; the first club whose weight raises ends
    * the loop with the error. */
  method RegressElo(m: Math, current: map<string, real>, preseason: map<string, real>, gp: map<string, int>,
                    curve: string) returns (r: Result<map<string, real>>)
    requires Lawful(m)
    ensures r == Regress(m, current, preseason, gp, curve)
  {
    var regressed: map<string, real> := map[];
    var todo := current.Keys;
    while todo != {}
      invariant todo <= current.Keys
      invariant regressed.Keys == current.Keys - todo
      invariant forall t :: t in regressed ==> ClubValueOf(m, current, preseason, gp, curve, t) == Ok(regressed[t])
      decreases |todo|
    {
      var t :| t in todo;
      var games := if t in gp then gp[t] else 0;
      var pct := Fade.FadePct(m, games, curve);
      if pct.Err? {
        assert ClubValueOf(m, current, preseason, gp, curve, t).Err?;
        return Err("Unknown fade curve: " + curve);
      }
      var pre := if t in preseason then preseason[t] else current[t];
      regressed := regressed[t := Fade.Blend(pct.value, current[t], pre)];
      todo := todo - {t};
    }
    assert forall t :: t in current ==> ClubValueOf(m, current, preseason, gp, curve, t) == Ok(regressed[t]);
    assert regressed == map t | t in current :: ClubValueOf(m, current, preseason, gp, curve, t).value;
    r := Ok(regressed);
  }

  // Simulating the rest of the season.

  /** The games dated on or after the snapshot. */
  function Remaining(schedule: seq<Played>, cutoff: int): seq<Played>
  {
    FilterMap((g: Played) => if g.date >= cutoff then Some(g) else None, schedule)
  }

  /** The simulator's view of a remaining game: skipped unless both clubs
    * have a blended rating, else the home club wins with the Elo expected
    * score. */
  function SimFixture(m: Math, elos: map<string, real>, g: Played, draws: seq<real>): (f: MC.Fixture)
    requires Lawful(m)
    ensures f.home == g.home && f.away == g.away && f.draws == draws
    ensures MC.Rated(f) <==> Rated(elos, g)
  {
    MC.Fixture(g.home, g.away,
               if Rated(elos, g) then Some(ExpectedScore(m, elos[g.home], elos[g.away], ELO_HFA)) else None,
               draws)
  }

  function Fixtures(m: Math, elos: map<string, real>, remaining: seq<Played>, draws: seq<seq<real>>): (fs: seq<MC.Fixture>)
    requires Lawful(m) && |draws| == |remaining|
    ensures |fs| == |remaining|
  {
    seq(|remaining|, i requires 0 <= i < |remaining| => SimFixture(m, elos, remaining[i], draws[i]))
  }

  /** `simulate_remaining`: the clubs with a blended rating in sorted order,
    * every trial seeded with the banked wins, then every remaining game
    * between two such clubs played from its draws (`draws[i]` holds game
    * `i`'s draw for each trial). */
  method SimulateRemaining(m: Math, remaining: seq<Played>, regressed: map<string, real>,
                           actualWins: map<string, int>, simCount: nat, draws: seq<seq<real>>)
    returns (sim: array2<int>, teams: seq<string>)
    requires Lawful(m) && |draws| == |remaining|
    ensures SortedBy(teams, StringLe()) && Distinct(teams)
    ensures forall t :: t in teams <==> t in regressed
    ensures fresh(sim) && sim.Length0 == simCount && sim.Length1 == |teams|
    ensures var fixtures := Fixtures(m, regressed, remaining, draws);
      forall k, j :: 0 <= k < simCount && 0 <= j < |teams| ==> sim[k, j] == MC.Wins(actualWins, fixtures, k, teams[j])
  {
    teams := SortedSet(regressed.Keys);
    var fixtures := Fixtures(m, regressed, remaining, draws);
    sim := MC.Simulate(teams, actualWins, fixtures, simCount);
  }

  /** In every trial the clubs' wins add up to the banked wins plus one per
    * remaining game between rated clubs. */
  lemma SimulatedTotal(m: Math, remaining: seq<Played>, regressed: map<string, real>,
                       actualWins: map<string, int>, draws: seq<seq<real>>, teams: seq<string>, trial: nat)
    requires Lawful(m) && |draws| == |remaining|
    requires Distinct(teams) && forall t :: t in regressed ==> t in teams
    ensures var fixtures := Fixtures(m, regressed, remaining, draws);
      IntSumOf(teams, MC.WinsFn(actualWins, fixtures, trial)) ==
        IntSumOf(teams, MC.BankedFn(actualWins)) + IntSumOf(fixtures, MC.RatedOne)
  {
    MC.TrialTotal(actualWins, Fixtures(m, regressed, remaining, draws), trial, teams);
  }

  // American League playoff odds.

  /** A club's standing in one trial: its column of the trial's row and its
    * draw for this stage of the selection. */
  function AuxKey(row: seq<int>, aux: seq<real>, teams: seq<string>): string -> Standing
  {
    t => if t in teams then
           var j := MC.IndexOf(teams, t);
           Standing(if j < |row| then row[j] else 0, if j < |aux| then aux[j] else 0.0)
         else Standing(0, 0.0)
  }

  /** One trial's field: each division's winner by (wins, first draw), then
    * the three best of the rest by (wins, second draw). */
  function TrialField(tab: TeamCodes.Tables, row: seq<int>, divAux: seq<real>, wcAux: seq<real>, teams: seq<string>): Field
  {
    SelectField(SP.AlTeams(tab, teams), SP.DivisionOf(tab), AuxKey(row, divAux, teams), AuxKey(row, wcAux, teams))
  }

  /** The field of every trial; `divAux[k]` and `wcAux[k]` hold trial `k`'s
    * tie-break draws by column. */
  function Fields(tab: TeamCodes.Tables, trials: seq<seq<int>>, divAux: seq<seq<real>>, wcAux: seq<seq<real>>,
                  teams: seq<string>): (fs: seq<Field>)
    requires |divAux| == |trials| && |wcAux| == |trials|
    ensures |fs| == |trials|
  {
    seq(|trials|, k requires 0 <= k < |trials| => TrialField(tab, trials[k], divAux[k], wcAux[k], teams))
  }

  /** In every trial: a division winner has no club of its division above
    * it on (wins, first draw); no wild card is a division winner, there are
    * at most three, and no American League club left out ranks above a
    * wild card on (wins, second draw). */
  lemma TrialFieldFacts(tab: TeamCodes.Tables, row: seq<int>, divAux: seq<real>, wcAux: seq<real>, teams: seq<string>)
    ensures var al := SP.AlTeams(tab, teams);
      var f := TrialField(tab, row, divAux, wcAux, teams);
      var divKey := AuxKey(row, divAux, teams);
      var wcKey := AuxKey(row, wcAux, teams);
      f.division * f.wildcard == {} && |f.wildcard| <= 3 &&
      (forall w, t :: w in f.division && t in al && SP.DivisionOf(tab)(t) == SP.DivisionOf(tab)(w) ==>
         !Above(divKey(t), divKey(w))) &&
      (forall c, o :: c in f.wildcard && o in al && o !in f.Playoff() ==> !Above(wcKey(o), wcKey(c)))
  {
    var al := SP.AlTeams(tab, teams);
    var divOf := SP.DivisionOf(tab);
    var divKey := AuxKey(row, divAux, teams);
    var wcKey := AuxKey(row, wcAux, teams);
    WildcardsFacts(al, divOf, divKey, wcKey);
    forall w, t | w in SelectField(al, divOf, divKey, wcKey).division && t in al && divOf(t) == divOf(w)
      ensures !Above(divKey(t), divKey(w))
    {
      assert w == Best(Group(al, divOf, divOf(w)), divKey);
      assert t in Group(al, divOf, divOf(w));
    }
    forall c, o | c in SelectField(al, divOf, divKey, wcKey).wildcard && o in al &&
                  o !in SelectField(al, divOf, divKey, wcKey).Playoff()
      ensures !Above(wcKey(o), wcKey(c))
    {
      WildcardsRankFirst(al, divOf, divKey, wcKey, c, o);
    }
  }

  /** Per club of `al`, the share of trials whose field takes it. With no
    * trial and some club the division by the trial count raises
    * `ZeroDivisionError`; with no club the dict is empty. */
  function Shares(al: seq<string>, fields: seq<Field>): (r: Result<map<string, real>>)
    ensures r.Err? <==> |fields| == 0 && |al| > 0
  {
    if |fields| == 0 && |al| > 0 then Err("division by zero")
    else Ok(map t | t in al :: SP.Tally(fields, t, SP.Playoff) as real / |fields| as real)
  }

  /** One entry per club of `al`, each a fraction in [0, 1]. */
  lemma SharesSpec(al: seq<string>, fields: seq<Field>)
    ensures Shares(al, fields).Ok? ==>
      (forall t :: t in Shares(al, fields).value <==> t in al) &&
      forall t :: t in Shares(al, fields).value ==> 0.0 <= Shares(al, fields).value[t] <= 1.0
  {
    if Shares(al, fields).Ok? {
      forall t | t in al ensures 0.0 <= Shares(al, fields).value[t] <= 1.0 {
        Fraction(SP.Tally(fields, t, SP.Playoff), |fields|);
      }
    }
  }

  /** The shares computed from counts that agree with the tallies. */
  lemma SharesFromCounts(al: seq<string>, fields: seq<Field>, counts: map<string, int>)
    requires forall t :: SP.Get(counts, t) == SP.Tally(fields, t, SP.Playoff)
    ensures Shares(al, fields).Ok? ==>
      (map t | t in al :: SP.Get(counts, t) as real / |fields| as real) == Shares(al, fields).value
  {
  }

  lemma Fraction(c: nat, n: nat)
    requires 0 < n && c <= n
    ensures 0.0 <= c as real / n as real <= 1.0
  {
    assert c as real <= n as real;
  }

  /** `compute_al_playoff_odds`: per American League club, the share of
    * trials whose field takes it; an error when there is no trial and
    * some American League club. */
  function Odds(tab: TeamCodes.Tables, trials: seq<seq<int>>, divAux: seq<seq<real>>, wcAux: seq<seq<real>>,
                teams: seq<string>): Result<map<string, real>>
    requires |divAux| == |trials| && |wcAux| == |trials|
  {
    Shares(SP.AlTeams(tab, teams), Fields(tab, trials, divAux, wcAux, teams))
  }

  /** An error exactly when there is no trial and some listed club is in the
    * American League; otherwise one entry per American League club, each a
    * fraction in [0, 1]. */
  lemma OddsSpec(tab: TeamCodes.Tables, trials: seq<seq<int>>, divAux: seq<seq<real>>, wcAux: seq<seq<real>>,
                 teams: seq<string>)
    requires |divAux| == |trials| && |wcAux| == |trials|
    ensures var odds := Odds(tab, trials, divAux, wcAux, teams);
      (odds.Err? <==> |trials| == 0 && exists t :: t in teams && SP.IsAl(tab, t)) &&
      (odds.Ok? ==>
        (forall t :: t in odds.value <==> t in teams && SP.IsAl(tab, t)) &&
        forall t :: t in odds.value ==> 0.0 <= odds.value[t] <= 1.0)
  {
    var al := SP.AlTeams(tab, teams);
    SharesSpec(al, Fields(tab, trials, divAux, wcAux, teams));
    AlTeamsSpec(tab, teams);
    if |al| > 0 {
      assert al[0] in al;
    }
  }

  /** The American League clubs are the listed clubs the league table puts
    * in the AL. */
  lemma {:induction false} AlTeamsSpec(tab: TeamCodes.Tables, teams: seq<string>)
    ensures forall t :: t in SP.AlTeams(tab, teams) <==> t in teams && SP.IsAl(tab, t)
    decreases |teams|
  {
    if |teams| > 0 {
      var n := |teams| - 1;
      AlTeamsSpec(tab, teams[..n]);
      assert teams == teams[..n] + [teams[n]];
      assert forall t :: t in teams <==> t in teams[..n] || t == teams[n];
    }
  }

  /** `compute_al_playoff_odds`, trial by trial over the rows of the
    * simulation matrix. */
  method AlPlayoffOdds(tab: TeamCodes.Tables, trials: seq<seq<int>>, divAux: seq<seq<real>>, wcAux: seq<seq<real>>,
                       teams: seq<string>) returns (odds: Result<map<string, real>>)
    requires |divAux| == |trials| && |wcAux| == |trials|
    ensures odds == Odds(tab, trials, divAux, wcAux, teams)
  {
    ghost var fields := Fields(tab, trials, divAux, wcAux, teams);
    var playoff: map<string, int> := map[];
    var k := 0;
    while k < |trials|
      invariant 0 <= k <= |trials|
      invariant forall t :: SP.Get(playoff, t) == SP.Tally(fields[..k], t, SP.Playoff)
    {
      var field := TrialField(tab, trials[k], divAux[k], wcAux[k], teams);
      assert field == fields[k];
      SP.BumpTally(playoff, fields, SP.Playoff, k, field.division + field.wildcard);
      playoff := SP.Bump(playoff, field.division + field.wildcard);
      k := k + 1;
    }
    assert fields[..k] == fields;
    var al := SP.AlTeams(tab, teams);
    SharesFromCounts(al, fields, playoff);
    if |trials| == 0 && |al| > 0 {
      odds := Err("division by zero");
    } else {
      odds := Ok(map t | t in al :: SP.Get(playoff, t) as real / |trials| as real);
    }
  }
}
