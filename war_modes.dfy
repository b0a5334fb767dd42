/** The backtest of the preseason WAR approaches: preseason ratings from each
  * WAR mode (none, transactions, team totals, hybrid), unrounded and with
  * the files' absence handled by falling back, and a replay of a season
  * that predicts every game from ratings faded from the preseason ones to
  * the running ones, then scores the predictions. */
module WarModes {
  import opened Wrappers
  import opened RealMath
  import opened Sums
  import opened Sorting
  import opened Folds
  import opened Elo
  import FB = FadeBacktest
  import PE = PreseasonElo
  import Fg = FangraphsNetFwar
  import Weighted

  // Preseason ratings of every mode.

  /** `load_transaction_war` here: no WAR column for the season or a missing
    * file gives no transactions at all instead of an exit. */
  function TransactionWar(season: int, adds: Option<seq<Fg.FgRow>>, subs: Option<seq<Fg.FgRow>>): (t: PE.TxnWar)
    ensures season !in PE.WAR_COLUMN || adds.None? || subs.None? ==> t == PE.TxnWar([], [])
    ensures season in PE.WAR_COLUMN && adds.Some? && subs.Some? ==> t == PE.TransactionWar(season, adds, subs).value
  {
    var r := PE.TransactionWar(season, adds, subs);
    if r.Ok? then r.value else PE.TxnWar([], [])
  }

  /** Without transaction files every club gains and loses nothing. */
  lemma NoFilesNoTransactions(team: string)
    ensures PE.Gained(PE.TxnWar([], []), team) == 0.0 && PE.Lost(PE.TxnWar([], []), team) == 0.0
  {
  }

  /** Every player row, and every trade departure, counts at most 5 WAR, and
    * a WAR cell that does not parse counts 0. */
  lemma TransactionWarCapped(season: int, adds: Option<seq<Fg.FgRow>>, subs: Option<seq<Fg.FgRow>>)
    ensures forall p :: p in TransactionWar(season, adds, subs).adds ==> p.war <= PE.MAX_PLAYER_WAR
    ensures forall p :: p in TransactionWar(season, adds, subs).subs ==> p.war <= PE.MAX_PLAYER_WAR
    ensures forall r: Fg.FgRow :: r.projWar.None? ==> PE.Load(r).war == 0.0
  {
  }

  /** `load_team_war`: the season's team WAR dict, or none without a file. */
  function TeamWar(season: int, file: Option<seq<(string, real)>>): (d: Option<PE.Dict>)
    ensures d.Some? <==> season in PE.TEAM_WAR_FILE && file.Some?
    ensures d.Some? ==> PE.WellFormed(d.value) && (|d.value.keys| == 0 <==> |file.value| == 0)
  {
    if season in PE.TEAM_WAR_FILE && file.Some? then Some(PE.DictOf(file.value)) else None
  }

  /** `not team_war`: no dict, or an empty one. */
  predicate Missing(d: Option<PE.Dict>)
  {
    d.None? || |d.value.keys| == 0
  }

  /** The uncompressed rating of each mode. */
  function NoneElo(baseline: map<string, real>): string -> real
  {
    team => PE.MeanReverted(PE.EloEnd(baseline, team))
  }

  function TxnElo(baseline: map<string, real>, t: PE.TxnWar): string -> real
  {
    team => PE.MeanReverted(PE.EloEnd(baseline, team)) + (PE.Gained(t, team) - PE.Lost(t, team)) * PE.WAR_TO_ELO
  }

  function TotalsElo(baseline: map<string, real>, d: PE.Dict, avg: real): string -> real
  {
    team => PE.Blend(PE.WarElo(PE.Get(d, team, avg) - avg), PE.MeanReverted(PE.EloEnd(baseline, team)))
  }

  function HybridElo(baseline: map<string, real>, d: PE.Dict, baseAvg: real, t: PE.TxnWar, adjAvg: real): string -> real
  {
    team => PE.Blend(PE.WarElo(PE.AdjustedWar(d, baseAvg, t, team) - adjAvg), PE.MeanReverted(PE.EloEnd(baseline, team)))
  }

  /** The mean of `f` over the clubs. */
  function MeanOver(f: string -> real, teams: seq<string>): real
    requires |teams| > 0
  {
    SumOf(teams, f) / |teams| as real
  }

  /** The ratings `f` of the clubs, compressed toward their mean. */
  function CompressedMap(f: string -> real, teams: seq<string>): (r: map<string, real>)
    requires |teams| > 0
    ensures r.Keys == set t | t in teams
  {
    map t | t in teams :: PE.Compressed(MeanOver(f, teams), f(t))
  }

  /** `generate_preseason_elo(season, mode)` with its files as values: the
    * team-totals mode falls back to no WAR, and the hybrid mode to the
    * transactions alone, when the team WAR dict is missing or empty; any
    * other mode name is an error. */
  function PreseasonFor(mode: string, season: int, baseline: map<string, real>, file: Option<seq<(string, real)>>,
                        adds: Option<seq<Fg.FgRow>>, subs: Option<seq<Fg.FgRow>>): (r: Result<map<string, real>>)
    ensures r.Ok? <==> mode in {"none", "transactions", "team-totals", "hybrid"}
    ensures r.Ok? ==> r.value.Keys == set t | t in PE.ALL_TEAMS
  {
    var teams := PE.ALL_TEAMS;
    if mode == "none" then Ok(CompressedMap(NoneElo(baseline), teams))
    else if mode == "transactions" then Ok(CompressedMap(TxnElo(baseline, TransactionWar(season, adds, subs)), teams))
    else if mode == "team-totals" then
      var d := TeamWar(season, file);
      if Missing(d) then Ok(CompressedMap(NoneElo(baseline), teams))
      else
        var avg := PE.Average(d.value).value;
        Ok(CompressedMap(TotalsElo(baseline, d.value, avg), teams))
    else if mode == "hybrid" then
      var d := TeamWar(season, file);
      var t := TransactionWar(season, adds, subs);
      if Missing(d) then Ok(CompressedMap(TxnElo(baseline, t), teams))
      else
        var baseAvg := PE.Average(d.value).value;
        Ok(CompressedMap(HybridElo(baseline, d.value, baseAvg, t, PE.AdjustedAverage(d.value, baseAvg, t)), teams))
    else Err("Unknown mode: " + mode)
  }

  /** The fallbacks: team totals without team WAR is the no-WAR mode, hybrid
    * without team WAR is the transactions mode. */
  lemma Fallbacks(season: int, baseline: map<string, real>, file: Option<seq<(string, real)>>,
                  adds: Option<seq<Fg.FgRow>>, subs: Option<seq<Fg.FgRow>>)
    ensures Missing(TeamWar(season, file)) ==>
      PreseasonFor("team-totals", season, baseline, file, adds, subs) == PreseasonFor("none", season, baseline, file, adds, subs)
    ensures Missing(TeamWar(season, file)) ==>
      PreseasonFor("hybrid", season, baseline, file, adds, subs) == PreseasonFor("transactions", season, baseline, file, adds, subs)
  {
  }

  /** Without transaction files the transactions mode is the no-WAR mode. */
  lemma NoTransactionsIsNone(season: int, baseline: map<string, real>, file: Option<seq<(string, real)>>,
                             adds: Option<seq<Fg.FgRow>>, subs: Option<seq<Fg.FgRow>>)
    requires season !in PE.WAR_COLUMN || adds.None? || subs.None?
    ensures PreseasonFor("transactions", season, baseline, file, adds, subs) == PreseasonFor("none", season, baseline, file, adds, subs)
  {
    var teams := PE.ALL_TEAMS;
    var f := TxnElo(baseline, PE.TxnWar([], []));
    var g := NoneElo(baseline);
    forall x ensures f(x) == g(x) {
      NoFilesNoTransactions(x);
    }
    SumOfCongruent(teams, f, g);
    assert CompressedMap(f, teams) == CompressedMap(g, teams);
  }

  /** Compression keeps the clubs' total, hence their mean, rating. */
  lemma CompressedKeepsMean(f: string -> real, teams: seq<string>)
    requires |teams| > 0
    ensures SumOf(teams, (t: string) => PE.Compressed(MeanOver(f, teams), f(t))) == SumOf(teams, f)
  {
    var mean := MeanOver(f, teams);
    var one := (t: string) => 1.0;
    var total, n := SumOf(teams, f), |teams| as real;
    SumOfLinear(teams, f, one, (t: string) => PE.Compressed(mean, f(t)), PE.SPREAD_COMPRESSION, (1.0 - PE.SPREAD_COMPRESSION) * mean);
    SumOfConstant(teams, one, 1.0);
    assert SumOf(teams, one) == n;
    CompressionKeepsTotal(total, n);
  }

  /** The total after compression: 0.75 of the total plus 0.25 of the mean
    * for each of the `n` clubs. */
  lemma CompressionKeepsTotal(total: real, n: real)
    requires n > 0.0
    ensures PE.SPREAD_COMPRESSION * total + ((1.0 - PE.SPREAD_COMPRESSION) * (total / n)) * n == total
  {
    Weighted.DivTimes(total, n);
    assert ((1.0 - PE.SPREAD_COMPRESSION) * (total / n)) * n == (1.0 - PE.SPREAD_COMPRESSION) * ((total / n) * n);
  }

  /** Compression scales the gap between any two clubs by 0.75. */
  lemma CompressedGaps(f: string -> real, teams: seq<string>, a: string, b: string)
    requires |teams| > 0 && a in teams && b in teams
    ensures CompressedMap(f, teams)[a] - CompressedMap(f, teams)[b] == PE.SPREAD_COMPRESSION * (f(a) - f(b))
  {
  }

  /** Compression moves no club across the mean. */
  lemma CompressedSameSide(f: string -> real, teams: seq<string>, a: string)
    requires |teams| > 0 && a in teams
    ensures (CompressedMap(f, teams)[a] - MeanOver(f, teams)) * (f(a) - MeanOver(f, teams)) >= 0.0
  {
    var d := f(a) - MeanOver(f, teams);
    assert CompressedMap(f, teams)[a] - MeanOver(f, teams) == PE.SPREAD_COMPRESSION * d;
    assert (PE.SPREAD_COMPRESSION * d) * d == PE.SPREAD_COMPRESSION * (d * d);
  }

  /** A mode's record loop over the clubs, the mean of the records, and the
    * compression loop that rewrites every record in place. */
  method CompressedRatings(f: string -> real, teams: seq<string>) returns (records: map<string, real>)
    requires |teams| > 0 && Distinct(teams)
    ensures records == CompressedMap(f, teams)
  {
    records := RecordsOf(f, teams);
    var total := TotalOf(f, teams);
    var mean := total / |teams| as real;
    assert mean == MeanOver(f, teams);
    records := Compress(f, teams, records, mean);
  }

  /** The record loop: one rating per club. */
  method RecordsOf(f: string -> real, teams: seq<string>) returns (records: map<string, real>)
    ensures records == map t | t in teams :: f(t)
  {
    records := map[];
    var i := 0;
    while i < |teams|
      invariant 0 <= i <= |teams|
      invariant records == map t | t in teams[..i] :: f(t)
    {
      assert teams[..i + 1] == teams[..i] + [teams[i]];
      records := records[teams[i] := f(teams[i])];
      i := i + 1;
    }
    assert teams[..i] == teams;
  }

  /** The sum of the clubs' ratings. */
  method TotalOf(f: string -> real, teams: seq<string>) returns (total: real)
    ensures total == SumOf(teams, f)
  {
    total := 0.0;
    var i := 0;
    while i < |teams|
      invariant 0 <= i <= |teams|
      invariant total == SumOf(teams[..i], f)
    {
      SumOfStep(teams, f, i);
      total := total + f(teams[i]);
      i := i + 1;
    }
    assert teams[..i] == teams;
  }

  /** The compression loop: every record pulled toward `mean`. */
  method Compress(f: string -> real, teams: seq<string>, records0: map<string, real>, mean: real)
    returns (records: map<string, real>)
    requires Distinct(teams) && records0 == map t | t in teams :: f(t)
    ensures records == map t | t in teams :: PE.Compressed(mean, f(t))
  {
    records := records0;
    var i := 0;
    while i < |teams|
      invariant 0 <= i <= |teams|
      invariant records.Keys == set t | t in teams
      invariant forall k :: 0 <= k < i ==> records[teams[k]] == PE.Compressed(mean, f(teams[k]))
      invariant forall k :: i <= k < |teams| ==> records[teams[k]] == f(teams[k])
    {
      records := records[teams[i] := PE.Compressed(mean, records[teams[i]])];
      i := i + 1;
    }
    forall t | t in teams ensures records[t] == PE.Compressed(mean, f(t)) {
      var k :| 0 <= k < |teams| && teams[k] == t;
    }
  }

  /** The fallbacks only ever go to a mode earlier in this order. */
  function ModeRank(mode: string): nat
  {
    if mode == "none" then 0 else if mode == "transactions" then 1 else if mode == "team-totals" then 2 else 3
  }

  /** `generate_preseason_elo`, falling back by calling itself. */
  method GeneratePreseasonElo(mode: string, season: int, baseline: map<string, real>, file: Option<seq<(string, real)>>,
                              adds: Option<seq<Fg.FgRow>>, subs: Option<seq<Fg.FgRow>>) returns (r: Result<map<string, real>>)
    ensures r == PreseasonFor(mode, season, baseline, file, adds, subs)
    decreases ModeRank(mode)
  {
    var teams := PE.ALL_TEAMS;
    PE.AllTeamsDistinct();
    if mode == "none" {
      var records := CompressedRatings(NoneElo(baseline), teams);
      return Ok(records);
    }
    if mode == "transactions" {
      var t := TransactionWar(season, adds, subs);
      var records := CompressedRatings(TxnElo(baseline, t), teams);
      return Ok(records);
    }
    if mode == "team-totals" {
      var d := TeamWar(season, file);
      if Missing(d) {
        r := GeneratePreseasonElo("none", season, baseline, file, adds, subs);
        return;
      }
      var avg := PE.Average(d.value).value;
      var records := CompressedRatings(TotalsElo(baseline, d.value, avg), teams);
      return Ok(records);
    }
    if mode == "hybrid" {
      var d := TeamWar(season, file);
      if Missing(d) {
        r := GeneratePreseasonElo("transactions", season, baseline, file, adds, subs);
        return;
      }
      var t := TransactionWar(season, adds, subs);
      var baseAvg := PE.Average(d.value).value;
      var adjAvg := PE.AdjustedAverage(d.value, baseAvg, t);
      var records := CompressedRatings(HybridElo(baseline, d.value, baseAvg, t, adjAvg), teams);
      return Ok(records);
    }
    return Err("Unknown mode: " + mode);
  }

  // The season replay.

  /** One prediction: the home win probability, the outcome (1 for a home
    * win) and the two clubs. */
  datatype Prediction = Prediction(p: real, actual: real, home: string, away: string)

  /** The replay state: the running ratings and games played, the
    * predictions so far, and each club's predicted wins, actual wins and
    * actual losses. */
  datatype Season = Season(raw: FB.Replay, preds: seq<Prediction>, predWins: map<string, real>,
                           wins: map<string, int>, losses: map<string, int>)

  /** The state before the first game: the running ratings start at the
    * preseason ones. */
  function Start(preseason: map<string, real>): Season
  {
    Season(FB.Replay(preseason, map[]), [], map[], map[], map[])
  }

  /** The share of the running rating in the blend: the clubs' average games
    * played over the fade length, at most 1. */
  function FadePct(gpHome: int, gpAway: int, fade: int): (pct: real)
    requires fade > 0
    ensures gpHome >= 0 && gpAway >= 0 ==> 0.0 <= pct <= 1.0
    ensures pct == 1.0 <==> (gpHome + gpAway) as real / 2.0 >= fade as real
    ensures pct < 1.0 ==> pct * fade as real == (gpHome + gpAway) as real / 2.0
  {
    var avg := (gpHome + gpAway) as real / 2.0;
    var q := avg / fade as real;
    Weighted.DivTimes(avg, fade as real);
    if q < 1.0 then q else 1.0
  }

  /** `pct * raw + (1 - pct) * preseason`. */
  function Regressed(pct: real, raw: real, pre: real): real
  {
    pct * raw + (1.0 - pct) * pre
  }

  /** The blend lies between the running and the preseason rating. */
  lemma RegressedBetween(pct: real, raw: real, pre: real)
    requires 0.0 <= pct <= 1.0
    ensures raw <= pre ==> raw <= Regressed(pct, raw, pre) <= pre
    ensures pre <= raw ==> pre <= Regressed(pct, raw, pre) <= raw
    ensures pct == 1.0 ==> Regressed(pct, raw, pre) == raw
    ensures pct == 0.0 ==> Regressed(pct, raw, pre) == pre
  {
    assert Regressed(pct, raw, pre) == pre + pct * (raw - pre);
    var d := raw - pre;
    if d <= 0.0 {
      assert (1.0 - pct) * (-d) >= 0.0 && pct * (-d) >= 0.0;
    } else {
      assert (1.0 - pct) * d >= 0.0 && pct * d >= 0.0;
    }
  }

  /** The rating a club is predicted with: the running one when there is no
    * fade, the blend with the preseason one otherwise. */
  function PredictionElo(preseason: map<string, real>, s: FB.Replay, team: string, other: string, fade: int): real
    requires team in s.elos
  {
    if fade > 0 then
      var pct := FadePct(FB.GetGp(s.gp, team), FB.GetGp(s.gp, other), fade);
      Regressed(pct, s.elos[team], FB.PreOr(preseason, team, s.elos[team]))
    else s.elos[team]
  }

  /** The home win probability of a rated game, from the blended ratings
    * before the game. */
  function PredictHome(m: Math, preseason: map<string, real>, s: FB.Replay, g: FB.Played, fade: int): (p: real)
    requires Lawful(m) && FB.Rated(s.elos, g)
    ensures 0.0 < p < 1.0
  {
    var h := PredictionElo(preseason, s, g.home, g.away, fade);
    var a := PredictionElo(preseason, s, g.away, g.home, fade);
    ExpectedScore(m, h, a, ELO_HFA)
  }

  /** `d[k] += x` on a dict that starts every key at 0. */
  function AddReal(d: map<string, real>, k: string, x: real): map<string, real>
  {
    d[k := FB.RatingFn(d)(k) + x]
  }

  function AddInt(d: map<string, int>, k: string, x: int): map<string, int>
  {
    d[k := FB.GetGp(d, k) + x]
  }

  /** One game of `backtest_season`: a game with an unrated club is skipped;
    * otherwise the game is predicted from the state before it, the
    * prediction and the outcome are tallied, and only then are the running
    * ratings updated, from the running ratings, with no margin cap. */
  function Step(m: Math, preseason: map<string, real>, fade: int, s: Season, g: FB.Played): (r: Season)
    requires Lawful(m)
    ensures r.raw == FB.ReplayStep(m, None, s.raw, g)
    ensures !FB.Rated(s.raw.elos, g) ==> r == s
    ensures FB.Rated(s.raw.elos, g) ==> r.preds == s.preds + [Prediction(PredictHome(m, preseason, s.raw, g, fade), FB.ActualHome(g), g.home, g.away)]
  {
    if !FB.Rated(s.raw.elos, g) then s
    else Record(s, g, PredictHome(m, preseason, s.raw, g, fade)).(raw := FB.ReplayStep(m, None, s.raw, g))
  }

  /** The tallies of one game predicted at `p`: the prediction is appended,
    * the home club is credited `p` predicted wins and the away club `1 - p`,
    * and the winner (the away club on a tie) a win and the loser a loss. */
  function Record(s: Season, g: FB.Played, p: real): (r: Season)
    ensures r.raw == s.raw
  {
    var homeWon := g.homeScore > g.awayScore;
    s.(preds := s.preds + [Prediction(p, FB.ActualHome(g), g.home, g.away)],
       predWins := AddReal(AddReal(s.predWins, g.home, p), g.away, 1.0 - p),
       wins := if homeWon then AddInt(s.wins, g.home, 1) else AddInt(s.wins, g.away, 1),
       losses := if homeWon then AddInt(s.losses, g.away, 1) else AddInt(s.losses, g.home, 1))
  }

  function StepFn(m: Math, preseason: map<string, real>, fade: int): (Season, FB.Played) --> Season
  {
    (s: Season, g: FB.Played) requires Lawful(m) => Step(m, preseason, fade, s, g)
  }

  /** The state after the season's completed games, in date order. */
  function Replayed(m: Math, preseason: map<string, real>, fade: int, games: seq<FB.Played>): Season
    requires Lawful(m)
  {
    Final(StepFn(m, preseason, fade), Start(preseason), games)
  }

  /** The running ratings and games played are exactly the plain replay of
    * the games: predicting never feeds back into the ratings. */
  lemma {:induction false} RawIsReplay(m: Math, preseason: map<string, real>, fade: int, games: seq<FB.Played>)
    requires Lawful(m)
    ensures Replayed(m, preseason, fade, games).raw == Final(FB.ReplayFn(m, None), FB.Replay(preseason, map[]), games)
    decreases |games|
  {
    if |games| > 0 {
      RawIsReplay(m, preseason, fade, games[..|games| - 1]);
    }
  }

  /** The running-rating update is zero-sum: with no club playing itself,
    * the clubs' total running rating stays the preseason total. */
  lemma BacktestZeroSum(m: Math, preseason: map<string, real>, fade: int, games: seq<FB.Played>, teams: seq<string>)
    requires Lawful(m) && Distinct(teams)
    requires forall t :: t in preseason ==> t in teams
    requires forall g :: g in games ==> g.home != g.away
    ensures SumOf(teams, FB.RatingFn(Replayed(m, preseason, fade, games).raw.elos)) == SumOf(teams, FB.RatingFn(preseason))
  {
    RawIsReplay(m, preseason, fade, games);
    FB.ReplayZeroSum(m, None, preseason, games, teams);
  }

  /** A later game never changes an earlier prediction, and it adds its own
    * only when both clubs are rated, computed from the state before it. */
  lemma EarlierPredictionsKept(m: Math, preseason: map<string, real>, fade: int, games: seq<FB.Played>, g: FB.Played)
    requires Lawful(m)
    ensures var before := Replayed(m, preseason, fade, games);
      var after := Replayed(m, preseason, fade, games + [g]);
      after.preds[..|before.preds|] == before.preds &&
      |after.preds| == |before.preds| + (if FB.Rated(before.raw.elos, g) then 1 else 0) &&
      (FB.Rated(before.raw.elos, g) ==> after.preds[|before.preds|].p == PredictHome(m, preseason, before.raw, g, fade))
  {
    assert (games + [g])[..|games|] == games;
  }

  /** The prediction reads the two clubs and the state, never the score. */
  lemma PredictionIgnoresScore(m: Math, preseason: map<string, real>, s: FB.Replay, g: FB.Played, fade: int, homeScore: int, awayScore: int)
    requires Lawful(m) && FB.Rated(s.elos, g)
    ensures PredictHome(m, preseason, s, g, fade) == PredictHome(m, preseason, s, g.(homeScore := homeScore, awayScore := awayScore), fade)
  {
  }

  /** Without fading, or once the fade is complete, the prediction uses the
    * running ratings alone. */
  lemma FadeEnds(m: Math, preseason: map<string, real>, s: FB.Replay, g: FB.Played, fade: int)
    requires Lawful(m) && FB.Rated(s.elos, g)
    requires fade <= 0 || (FB.GetGp(s.gp, g.home) + FB.GetGp(s.gp, g.away)) as real / 2.0 >= fade as real
    ensures PredictHome(m, preseason, s, g, fade) == ExpectedScore(m, s.elos[g.home], s.elos[g.away], ELO_HFA)
  {
    if fade > 0 {
      var gh := FB.GetGp(s.gp, g.home);
      var ga := FB.GetGp(s.gp, g.away);
      assert FadePct(gh, ga, fade) == 1.0;
      assert FadePct(ga, gh, fade) == 1.0;
    }
  }

  /** Wins counted per club, 0 for a club never seen. */
  function CountFn(d: map<string, int>): string -> int
  {
    t => FB.GetGp(d, t)
  }

  /** Adding `x` to one listed club adds `x` to the total over distinct clubs. */
  lemma AddRealTotal(d: map<string, real>, k: string, x: real, teams: seq<string>)
    requires Distinct(teams) && k in teams
    ensures SumOf(teams, FB.RatingFn(AddReal(d, k, x))) == SumOf(teams, FB.RatingFn(d)) + x
  {
    var delta := (t: string) => if t == k then x else 0.0;
    FB.OneHotSum(teams, delta, k, x);
    SumOfLinear(teams, FB.RatingFn(d), delta, FB.RatingFn(AddReal(d, k, x)), 1.0, 1.0);
  }

  lemma {:induction false} AddIntTotal(d: map<string, int>, k: string, x: int, teams: seq<string>)
    requires Distinct(teams)
    ensures IntSumOf(teams, CountFn(AddInt(d, k, x))) == IntSumOf(teams, CountFn(d)) + (if k in teams then x else 0)
    decreases |teams|
  {
    if |teams| > 0 {
      var n := |teams| - 1;
      assert Distinct(teams[..n]);
      AddIntTotal(d, k, x, teams[..n]);
      assert teams == teams[..n] + [teams[n]];
    }
  }

  /** No club gains or loses a running rating. */
  lemma {:induction false} SeasonKeys(m: Math, preseason: map<string, real>, fade: int, games: seq<FB.Played>)
    requires Lawful(m)
    ensures Replayed(m, preseason, fade, games).raw.elos.Keys == preseason.Keys
    decreases |games|
  {
    if |games| > 0 {
      SeasonKeys(m, preseason, fade, games[..|games| - 1]);
    }
  }

  /** The three tallies of a state, each over the clubs. */
  predicate Balanced(s: Season, teams: seq<string>)
  {
    SumOf(teams, FB.RatingFn(s.predWins)) == |s.preds| as real &&
    IntSumOf(teams, CountFn(s.wins)) == |s.preds| &&
    IntSumOf(teams, CountFn(s.losses)) == |s.preds|
  }

  /** Recording a game between two listed clubs keeps the tallies balanced. */
  lemma RecordBalanced(s: Season, g: FB.Played, p: real, teams: seq<string>)
    requires Distinct(teams) && Balanced(s, teams) && g.home in teams && g.away in teams
    ensures Balanced(Record(s, g, p), teams)
  {
    AddRealTotal(s.predWins, g.home, p, teams);
    AddRealTotal(AddReal(s.predWins, g.home, p), g.away, 1.0 - p, teams);
    AddIntTotal(s.wins, g.home, 1, teams);
    AddIntTotal(s.wins, g.away, 1, teams);
    AddIntTotal(s.losses, g.home, 1, teams);
    AddIntTotal(s.losses, g.away, 1, teams);
  }

  /** Every rated game hands out one predicted win (p to the home club,
    * 1 - p to the away club), one actual win and one actual loss, so over
    * the distinct clubs each total is the number of predictions. */
  lemma {:induction false} SeasonTotals(m: Math, preseason: map<string, real>, fade: int, games: seq<FB.Played>, teams: seq<string>)
    requires Lawful(m) && Distinct(teams)
    requires forall t :: t in preseason ==> t in teams
    ensures Balanced(Replayed(m, preseason, fade, games), teams)
    decreases |games|
  {
    if |games| == 0 {
      SumOfConstant(teams, FB.RatingFn(map[]), 0.0);
      IntZero(teams);
    } else {
      var n := |games| - 1;
      SeasonTotals(m, preseason, fade, games[..n], teams);
      SeasonKeys(m, preseason, fade, games[..n]);
      var s := Replayed(m, preseason, fade, games[..n]);
      var g := games[n];
      if FB.Rated(s.raw.elos, g) {
        RecordBalanced(s, g, PredictHome(m, preseason, s.raw, g, fade), teams);
      }
    }
  }

  lemma {:induction false} IntZero(teams: seq<string>)
    ensures IntSumOf(teams, CountFn(map[])) == 0
    decreases |teams|
  {
    if |teams| > 0 {
      IntZero(teams[..|teams| - 1]);
    }
  }

  // The scores of a season.

  /** Probabilities are clipped this far from 0 and 1 before the logarithm. */
  const CLIP_EPS: real := 0.000001
  /** The early window is the first 650 predictions, the late window the
    * last 650. */
  const WINDOW: nat := 650

  datatype Metrics = Metrics(nGames: nat, brier: real, logloss: real, accuracy: real, winMse: real,
                             earlyBrier: real, earlyAccuracy: real, lateBrier: real)

  function SqErr(x: Prediction): real
  {
    (x.p - x.actual) * (x.p - x.actual)
  }

  /** `np.clip(p, 1e-6, 1 - 1e-6)`. */
  function ClipProb(p: real): (c: real)
    ensures CLIP_EPS <= c <= 1.0 - CLIP_EPS
    ensures CLIP_EPS <= p <= 1.0 - CLIP_EPS ==> c == p
  {
    if p < CLIP_EPS then CLIP_EPS else if p > 1.0 - CLIP_EPS then 1.0 - CLIP_EPS else p
  }

  /** The log-likelihood of one outcome under its clipped prediction. */
  function LogTerm(m: Math): Prediction -> real
  {
    (x: Prediction) => x.actual * m.ln(ClipProb(x.p)) + (1.0 - x.actual) * m.ln(1.0 - ClipProb(x.p))
  }

  /** A hit: the favourite won. A prediction of exactly 0.5 has no
    * favourite and is never a hit. */
  function Hit(x: Prediction): int
  {
    if (x.p > 0.5 && x.actual == 1.0) || (x.p < 0.5 && x.actual == 0.0) then 1 else 0
  }

  /** `np.mean(values)`, 0 for no values. */
  function MeanOf<T>(xs: seq<T>, f: T -> real): real
  {
    if |xs| == 0 then 0.0 else SumOf(xs, f) / |xs| as real
  }

  /** The percentage of hits, 0 for no predictions. */
  function AccuracyOf(ps: seq<Prediction>): (a: real)
    ensures 0.0 <= a <= 100.0
  {
    IntSumOfCount(ps, Hit);
    if |ps| == 0 then 0.0
    else
      Weighted.QuotientBetween(IntSumOf(ps, Hit) as real, |ps| as real, 0.0, 1.0);
      100.0 * (IntSumOf(ps, Hit) as real / |ps| as real)
  }

  /** The squared errors of predicted against actual wins, one per listed
    * club that has an entry in the wins dict (a club with losses only has
    * none). */
  function WinErrors(s: Season, teams: seq<string>): seq<real>
  {
    FilterMap((t: string) => if t in s.wins then Some(Square(FB.RatingFn(s.predWins)(t) - FB.GetGp(s.wins, t) as real)) else None, teams)
  }

  function Square(x: real): real
  {
    x * x
  }

  function Id(x: real): real
  {
    x
  }

  /** The first `WINDOW` predictions and the last `WINDOW`. */
  function Early(ps: seq<Prediction>): seq<Prediction>
  {
    if |ps| <= WINDOW then ps else ps[..WINDOW]
  }

  function Late(ps: seq<Prediction>): seq<Prediction>
  {
    if |ps| <= WINDOW then ps else ps[|ps| - WINDOW..]
  }

  /** The metrics of `backtest_season`; none when no game was predicted. */
  function Scores(m: Math, s: Season, teams: seq<string>): (r: Option<Metrics>)
    ensures r.None? <==> |s.preds| == 0
    ensures r.Some? ==> (r.value.nGames == |s.preds| && 0.0 <= r.value.accuracy <= 100.0 &&
                         0.0 <= r.value.earlyAccuracy <= 100.0)
  {
    var ps := s.preds;
    if |ps| == 0 then None
    else
      Some(Metrics(|ps|, MeanOf(ps, SqErr), -MeanOf(ps, LogTerm(m)), AccuracyOf(ps),
                   MeanOf(WinErrors(s, teams), Id),
                   MeanOf(Early(ps), SqErr), AccuracyOf(Early(ps)), MeanOf(Late(ps), SqErr)))
  }

  /** Predictions of the replay: probabilities strictly between 0 and 1 and
    * outcomes 0 or 1. */
  predicate Valid(ps: seq<Prediction>)
  {
    forall i :: 0 <= i < |ps| ==> 0.0 < ps[i].p < 1.0 && (ps[i].actual == 0.0 || ps[i].actual == 1.0)
  }

  lemma {:induction false} ReplayedValid(m: Math, preseason: map<string, real>, fade: int, games: seq<FB.Played>)
    requires Lawful(m)
    ensures Valid(Replayed(m, preseason, fade, games).preds)
    decreases |games|
  {
    if |games| > 0 {
      ReplayedValid(m, preseason, fade, games[..|games| - 1]);
    }
  }

  lemma SqErrBounds(x: Prediction)
    requires 0.0 < x.p < 1.0 && (x.actual == 0.0 || x.actual == 1.0)
    ensures 0.0 <= SqErr(x) <= 1.0
  {
    var d := x.p - x.actual;
    if d >= 0.0 {
      assert d * d <= d * 1.0;
    } else {
      assert d * d <= (-d) * 1.0;
    }
  }

  /** A Brier score of valid predictions lies in [0, 1]. */
  lemma BrierBetween(ps: seq<Prediction>)
    requires Valid(ps)
    ensures 0.0 <= MeanOf(ps, SqErr) <= 1.0
  {
    forall i | 0 <= i < |ps| ensures 0.0 <= SqErr(ps[i]) <= 1.0 {
      SqErrBounds(ps[i]);
    }
    if |ps| > 0 {
      SumOfAtLeast(ps, SqErr, 0.0);
      SumOfAtMost(ps, SqErr, 1.0);
      Weighted.QuotientBetween(SumOf(ps, SqErr), |ps| as real, 0.0, 1.0);
    }
  }

  /** Each log-likelihood term is negative, so the log loss is positive. */
  lemma LogLossPositive(m: Math, ps: seq<Prediction>)
    requires Lawful(m) && Valid(ps) && |ps| > 0
    ensures -MeanOf(ps, LogTerm(m)) > 0.0
  {
    forall i | 0 <= i < |ps| ensures LogTerm(m)(ps[i]) < 0.0 {
      var c := ClipProb(ps[i].p);
      assert m.ln(c) < m.ln(1.0);
      assert m.ln(1.0 - c) < m.ln(1.0);
    }
    SumOfNegative(ps, LogTerm(m));
  }

  lemma {:induction false} SumOfNegative<T>(s: seq<T>, f: T -> real)
    requires |s| > 0 && forall i :: 0 <= i < |s| ==> f(s[i]) < 0.0
    ensures SumOf(s, f) < 0.0 && SumOf(s, f) / |s| as real < 0.0
    decreases |s|
  {
    var n := |s| - 1;
    if n > 0 {
      SumOfNegative(s[..n], f);
    }
  }

  /** Predictions of exactly 0.5 score no accuracy at all. */
  lemma {:induction false} CoinFlipsMissed(ps: seq<Prediction>)
    requires forall i :: 0 <= i < |ps| ==> ps[i].p == 0.5
    ensures IntSumOf(ps, Hit) == 0 && AccuracyOf(ps) == 0.0
    decreases |ps|
  {
    if |ps| > 0 {
      CoinFlipsMissed(ps[..|ps| - 1]);
    }
  }

  /** The season's scores: every Brier score in [0, 1], a positive log loss,
    * accuracies in [0, 100], a non-negative squared win error. */
  lemma ScoresBounds(m: Math, preseason: map<string, real>, fade: int, games: seq<FB.Played>, teams: seq<string>)
    requires Lawful(m)
    ensures var r := Scores(m, Replayed(m, preseason, fade, games), teams);
      r.Some? ==>
        0.0 <= r.value.brier <= 1.0 && r.value.logloss > 0.0 && r.value.winMse >= 0.0 &&
        0.0 <= r.value.earlyBrier <= 1.0 && 0.0 <= r.value.lateBrier <= 1.0
  {
    var s := Replayed(m, preseason, fade, games);
    ReplayedValid(m, preseason, fade, games);
    SeasonScoresBounds(m, s, teams);
  }

  lemma SeasonScoresBounds(m: Math, s: Season, teams: seq<string>)
    requires Lawful(m) && Valid(s.preds)
    ensures var r := Scores(m, s, teams);
      r.Some? ==>
        0.0 <= r.value.brier <= 1.0 && r.value.logloss > 0.0 && r.value.winMse >= 0.0 &&
        0.0 <= r.value.earlyBrier <= 1.0 && 0.0 <= r.value.lateBrier <= 1.0
  {
    var ps := s.preds;
    if |ps| > 0 {
      BrierBetween(ps);
      LogLossPositive(m, ps);
      BrierBetween(Early(ps));
      BrierBetween(Late(ps));
      WinErrorsMean(s, teams);
    }
  }

  lemma WinErrorsMean(s: Season, teams: seq<string>)
    ensures MeanOf(WinErrors(s, teams), Id) >= 0.0
  {
    var errs := WinErrors(s, teams);
    if |errs| > 0 {
      forall i | 0 <= i < |errs| ensures Id(errs[i]) >= 0.0 {
        ErrorsSquares(s, teams, errs[i]);
      }
      SumOfAtLeast(errs, Id, 0.0);
    }
  }

  lemma ErrorsSquares(s: Season, teams: seq<string>, e: real)
    requires e in WinErrors(s, teams)
    ensures e >= 0.0
  {
    var f := (t: string) => if t in s.wins then Some(Square(FB.RatingFn(s.predWins)(t) - FB.GetGp(s.wins, t) as real)) else None;
    FilterMapMembers(f, teams, e);
    var i :| 0 <= i < |teams| && f(teams[i]) == Some(e);
    var d := FB.RatingFn(s.predWins)(teams[i]) - FB.GetGp(s.wins, teams[i]) as real;
    assert e == d * d;
  }

  /** One pass of the game loop. */
  method PlayOne(m: Math, preseason: map<string, real>, fade: int, s: Season, g: FB.Played) returns (r: Season)
    requires Lawful(m)
    ensures r == Step(m, preseason, fade, s, g)
  {
    r := s;
    if g.home in s.raw.elos && g.away in s.raw.elos {
      var p := PredictHome(m, preseason, s.raw, g, fade);
      r := Tally(s, g, p);
      var rawElo, gp := FB.PlayGame(m, None, s.raw.elos, s.raw.gp, g);
      r := r.(raw := FB.Replay(rawElo, gp));
    }
  }

  /** The tallies of one game predicted at `p`. */
  method Tally(s: Season, g: FB.Played, p: real) returns (r: Season)
    ensures r == Record(s, g, p)
  {
    var preds := s.preds + [Prediction(p, FB.ActualHome(g), g.home, g.away)];
    var predWins := AddReal(AddReal(s.predWins, g.home, p), g.away, 1.0 - p);
    var wins, losses := s.wins, s.losses;
    if g.homeScore > g.awayScore {
      wins := AddInt(wins, g.home, 1);
      losses := AddInt(losses, g.away, 1);
    } else {
      wins := AddInt(wins, g.away, 1);
      losses := AddInt(losses, g.home, 1);
    }
    r := Season(s.raw, preds, predWins, wins, losses);
  }

  /** `backtest_season`: the loop over the completed games in date order,
    * then the scores. */
  method BacktestSeason(m: Math, schedule: seq<FB.Played>, preseason: map<string, real>, fade: int, teams: seq<string>)
    returns (r: Option<Metrics>)
    requires Lawful(m)
    ensures r == Scores(m, Replayed(m, preseason, fade, schedule), teams)
  {
    var s := Start(preseason);
    var i := 0;
    while i < |schedule|
      invariant 0 <= i <= |schedule|
      invariant s == Replayed(m, preseason, fade, schedule[..i])
    {
      FinalStep(StepFn(m, preseason, fade), Start(preseason), schedule, i);
      s := PlayOne(m, preseason, fade, s, schedule[i]);
      i := i + 1;
    }
    assert schedule[..i] == schedule;
    r := Scores(m, s, teams);
  }
}
