/** How well the fade-curve backtest's playoff odds forecast the season:
  * every snapshot's probability for every AL club is one forecast of whether
  * that club reached the playoffs. The forecasts are scored by the Brier
  * score and the clamped log-loss, per club and overall, grouped into ten
  * calibration bins by probability, and traced club by club to find the
  * largest move between consecutive snapshots. */
module FadeBacktestScores {
  import opened RealMath
  import opened Wrappers
  import opened Sums
  import opened Sorting
  import opened Folds
  import EM = EnhancedModel
  import Rounding
  import Weighted

  /** One snapshot of odds: its date and each club's playoff probability. */
  datatype Snapshot = Snapshot(date: int, probs: map<string, real>)

  /** One forecast: the club, the probability given to it, 1 when it made
    * the playoffs and else 0, and what the loop derives from these: the
    * Brier score, the clamped log-loss and the calibration bin. */
  datatype Obs = Obs(team: string, prob: real, made: int, brier: real, loss: real, bin: int)

  /** A club missing from a snapshot is given probability 0. */
  function ProbOf(probs: map<string, real>, t: string): real
  {
    if t in probs then probs[t] else 0.0
  }

  function ObsOf(m: Math, s: Snapshot, t: string, playoff: set<string>): Obs
  {
    var prob, made := ProbOf(s.probs, t), if t in playoff then 1 else 0;
    Obs(t, prob, made, EM.Brier(prob, made), EM.LogLoss(m, prob, made), Bin(prob))
  }

  /** The forecasts of one snapshot, one per AL club in order. */
  function SnapshotObs(m: Math, s: Snapshot, al: seq<string>, playoff: set<string>): (os: seq<Obs>)
    ensures |os| == |al|
  {
    if |al| == 0 then []
    else SnapshotObs(m, s, al[..|al| - 1], playoff) + [ObsOf(m, s, al[|al| - 1], playoff)]
  }

  /** The forecasts of all snapshots, snapshot by snapshot. */
  function Observations(m: Math, preds: seq<Snapshot>, al: seq<string>, playoff: set<string>): (os: seq<Obs>)
    ensures |os| == |preds| * |al|
  {
    if |preds| == 0 then []
    else
      var n := |preds| - 1;
      assert (n + 1) * |al| == n * |al| + |al|;
      Observations(m, preds[..n], al, playoff) + SnapshotObs(m, preds[n], al, playoff)
  }

  /** Every probability a snapshot gives lies in [0, 1]. */
  ghost predicate ValidOdds(preds: seq<Snapshot>)
  {
    forall k, t :: 0 <= k < |preds| && t in preds[k].probs ==> 0.0 <= preds[k].probs[t] <= 1.0
  }

  /** Every forecast has a 0/1 outcome and carries the Brier score, the
    * clamped log-loss and the bin of its probability. */
  ghost predicate Scored(m: Math, obs: seq<Obs>)
  {
    forall o :: o in obs ==>
      (o.made == 0 || o.made == 1) &&
      o.brier == EM.Brier(o.prob, o.made) && o.loss == EM.LogLoss(m, o.prob, o.made) && o.bin == Bin(o.prob)
  }

  /** Every forecast is a probability. */
  ghost predicate ObsValid(obs: seq<Obs>)
  {
    forall o :: o in obs ==> 0.0 <= o.prob <= 1.0
  }

  /** Forecasts are made for AL clubs only, and with valid odds they are valid. */
  lemma {:induction false} SnapshotObsFacts(m: Math, s: Snapshot, al: seq<string>, playoff: set<string>)
    ensures forall o :: o in SnapshotObs(m, s, al, playoff) ==> o.team in al
    ensures Scored(m, SnapshotObs(m, s, al, playoff))
    ensures (forall t :: t in s.probs ==> 0.0 <= s.probs[t] <= 1.0) ==> ObsValid(SnapshotObs(m, s, al, playoff))
    decreases |al|
  {
    if |al| > 0 {
      var n := |al| - 1;
      SnapshotObsFacts(m, s, al[..n], playoff);
      assert forall t :: t in al[..n] ==> t in al;
    }
  }

  lemma {:induction false} ObservationsFacts(m: Math, preds: seq<Snapshot>, al: seq<string>, playoff: set<string>)
    ensures forall o :: o in Observations(m, preds, al, playoff) ==> o.team in al
    ensures Scored(m, Observations(m, preds, al, playoff))
    ensures ValidOdds(preds) ==> ObsValid(Observations(m, preds, al, playoff))
    decreases |preds|
  {
    if |preds| > 0 {
      var n := |preds| - 1;
      ObservationsFacts(m, preds[..n], al, playoff);
      SnapshotObsFacts(m, preds[n], al, playoff);
      if ValidOdds(preds) {
        assert ValidOdds(preds[..n]) by {
          forall k, t | 0 <= k < n && t in preds[..n][k].probs
            ensures 0.0 <= preds[..n][k].probs[t] <= 1.0
          {
            assert preds[..n][k] == preds[k];
          }
        }
        assert forall t :: t in preds[n].probs ==> 0.0 <= preds[n].probs[t] <= 1.0;
      }
    }
  }

  /** `min(int(prob * 10), 9)`: the tenth of [0, 1] a probability falls in. */
  function Bin(prob: real): (b: int)
    ensures b <= 9
    ensures 0.0 <= prob <= 1.0 ==>
      0 <= b && b as real <= 10.0 * prob <= b as real + 1.0 && (b < 9 ==> 10.0 * prob < b as real + 1.0)
  {
    Rounding.TruncBounds(prob * 10.0);
    var k := Rounding.Trunc(prob * 10.0);
    if k < 9 then k else 9
  }

  // What the accumulators collect, defined over the whole run of forecasts.

  function BrierOf(o: Obs): real { o.brier }
  function PredOf(o: Obs): real { o.prob }
  function MadeOf(o: Obs): real { o.made as real }
  function LossOf(o: Obs): real { o.loss }

  /** The forecasts for club `t`, in order. */
  function OfTeam(obs: seq<Obs>, t: string): (r: seq<Obs>)
    ensures |r| <= |obs|
    ensures forall o :: o in r ==> o in obs && o.team == t
  {
    if |obs| == 0 then []
    else
      var o := obs[|obs| - 1];
      OfTeam(obs[..|obs| - 1], t) + (if o.team == t then [o] else [])
  }

  /** The forecasts that fall in calibration bin `b`, in order. */
  function InBin(obs: seq<Obs>, b: int): (r: seq<Obs>)
    ensures |r| <= |obs|
    ensures forall o :: o in r ==> o in obs && o.bin == b
  {
    if |obs| == 0 then []
    else
      var o := obs[|obs| - 1];
      InBin(obs[..|obs| - 1], b) + (if o.bin == b then [o] else [])
  }

  /** The clubs, and the bins, some forecast has. */
  function TeamsOf(obs: seq<Obs>): set<string>
  {
    if |obs| == 0 then {} else TeamsOf(obs[..|obs| - 1]) + {obs[|obs| - 1].team}
  }

  function BinsOf(obs: seq<Obs>): set<int>
  {
    if |obs| == 0 then {} else BinsOf(obs[..|obs| - 1]) + {obs[|obs| - 1].bin}
  }

  /** A club has forecasts exactly when some forecast is for it. */
  lemma {:induction false} OfTeamNonEmpty(obs: seq<Obs>, t: string)
    ensures |OfTeam(obs, t)| > 0 <==> t in TeamsOf(obs)
    decreases |obs|
  {
    if |obs| > 0 {
      OfTeamNonEmpty(obs[..|obs| - 1], t);
    }
  }

  lemma {:induction false} InBinNonEmpty(obs: seq<Obs>, b: int)
    ensures |InBin(obs, b)| > 0 <==> b in BinsOf(obs)
    decreases |obs|
  {
    if |obs| > 0 {
      InBinNonEmpty(obs[..|obs| - 1], b);
    }
  }

  /** The probabilities of a run of forecasts, in order. */
  function Probs(obs: seq<Obs>): (ps: seq<real>)
    ensures |ps| == |obs|
  {
    if |obs| == 0 then [] else Probs(obs[..|obs| - 1]) + [obs[|obs| - 1].prob]
  }

  /** Club `t`'s probability in each snapshot, in order. */
  function Trajectory(preds: seq<Snapshot>, t: string): seq<real>
  {
    seq(|preds|, k requires 0 <= k < |preds| => ProbOf(preds[k].probs, t))
  }

  // The running totals of the scoring loop.

  /** The Brier and log-loss sums and the number of forecasts; per club its
    * Brier sum, its count and its probabilities in order; per bin its sum
    * of probabilities, its number of clubs that made the playoffs and its
    * count; and the clubs in the order their trajectories were started. */
  datatype Totals = Totals(brierSum: real, logLossSum: real, n: int,
                           teamSum: map<string, real>, teamN: map<string, int>,
                           binPred: map<int, real>, binActual: map<int, real>, binN: map<int, int>,
                           traj: map<string, seq<real>>, order: seq<string>)

  const Zero := Totals(0.0, 0.0, 0, map[], map[], map[], map[], map[], map[], [])

  /** One forecast added to every running total; a missing entry counts
    * as zero or empty. */
  function Add(acc: Totals, o: Obs): Totals
  {
    var brier, bin := o.brier, o.bin;
    Totals(acc.brierSum + brier, acc.logLossSum + o.loss, acc.n + 1,
           acc.teamSum[o.team := GetR(acc.teamSum, o.team) + brier],
           acc.teamN[o.team := GetI(acc.teamN, o.team) + 1],
           acc.binPred[bin := GetR(acc.binPred, bin) + o.prob],
           acc.binActual[bin := GetR(acc.binActual, bin) + o.made as real],
           acc.binN[bin := GetI(acc.binN, bin) + 1],
           acc.traj[o.team := GetS(acc.traj, o.team) + [o.prob]],
           if o.team in acc.traj then acc.order else acc.order + [o.team])
  }

  /** The running totals after a run of forecasts. */
  function Accumulate(obs: seq<Obs>): Totals
  {
    if |obs| == 0 then Zero else Add(Accumulate(obs[..|obs| - 1]), obs[|obs| - 1])
  }

  function GetR<K>(m: map<K, real>, k: K): real { if k in m then m[k] else 0.0 }
  function GetI<K>(m: map<K, int>, k: K): int { if k in m then m[k] else 0 }
  function GetS(m: map<string, seq<real>>, k: string): seq<real> { if k in m then m[k] else [] }

  // What the running totals hold.

  lemma {:induction false} OfTeamSnoc(obs: seq<Obs>, t: string, o: Obs)
    ensures o.team == t ==> OfTeam(obs + [o], t) == OfTeam(obs, t) + [o]
    ensures o.team != t ==> OfTeam(obs + [o], t) == OfTeam(obs, t)
  {
    assert (obs + [o])[..|obs|] == obs;
  }

  lemma {:induction false} InBinSnoc(obs: seq<Obs>, b: int, o: Obs)
    ensures o.bin == b ==> InBin(obs + [o], b) == InBin(obs, b) + [o]
    ensures o.bin != b ==> InBin(obs + [o], b) == InBin(obs, b)
  {
    assert (obs + [o])[..|obs|] == obs;
  }

  lemma {:induction false} SumOfSnoc(s: seq<Obs>, o: Obs, f: Obs -> real)
    ensures SumOf(s + [o], f) == SumOf(s, f) + f(o)
  {
    assert (s + [o])[..|s|] == s;
  }

  lemma {:induction false} ProbsSnoc(s: seq<Obs>, o: Obs)
    ensures Probs(s + [o]) == Probs(s) + [o.prob]
  {
    assert (s + [o])[..|s|] == s;
  }

  lemma {:induction false} AccumulateSnoc(obs: seq<Obs>, o: Obs)
    ensures Accumulate(obs + [o]) == Add(Accumulate(obs), o)
  {
    assert (obs + [o])[..|obs|] == obs;
  }

  /** The overall sums are the sums over all forecasts. */
  lemma {:induction false} OverallTotals(obs: seq<Obs>)
    ensures Accumulate(obs).brierSum == SumOf(obs, BrierOf)
    ensures Accumulate(obs).logLossSum == SumOf(obs, LossOf)
    ensures Accumulate(obs).n == |obs|
    decreases |obs|
  {
    if |obs| > 0 {
      OverallTotals(obs[..|obs| - 1]);
    }
  }

  /** There is a per-club entry for each club with a forecast, and a
    * per-bin entry for each bin with one. */
  lemma {:induction false} TeamKeys(obs: seq<Obs>)
    ensures var acc := Accumulate(obs);
      acc.teamSum.Keys == TeamsOf(obs) && acc.teamN.Keys == TeamsOf(obs) && acc.traj.Keys == TeamsOf(obs)
    decreases |obs|
  {
    if |obs| > 0 {
      TeamKeys(obs[..|obs| - 1]);
    }
  }

  lemma {:induction false} BinKeys(obs: seq<Obs>)
    ensures var acc := Accumulate(obs);
      acc.binPred.Keys == BinsOf(obs) && acc.binActual.Keys == BinsOf(obs) && acc.binN.Keys == BinsOf(obs)
    decreases |obs|
  {
    if |obs| > 0 {
      BinKeys(obs[..|obs| - 1]);
    }
  }

  /** Every count is positive. */
  lemma {:induction false} CountsPositive(obs: seq<Obs>)
    ensures forall t :: t in Accumulate(obs).teamN ==> Accumulate(obs).teamN[t] > 0
    ensures forall b :: b in Accumulate(obs).binN ==> Accumulate(obs).binN[b] > 0
    decreases |obs|
  {
    if |obs| > 0 {
      var n := |obs| - 1;
      CountsPositive(obs[..n]);
      var prev, o := Accumulate(obs[..n]), obs[n];
      var acc := Add(prev, o);
      assert Accumulate(obs) == acc;
      forall t | t in acc.teamN ensures acc.teamN[t] > 0 {
        if t != o.team {
          assert t in prev.teamN;
        } else if t in prev.teamN {
          assert prev.teamN[t] > 0;
        }
      }
      forall b | b in acc.binN ensures acc.binN[b] > 0 {
        if b != o.bin {
          assert b in prev.binN;
        } else if b in prev.binN {
          assert prev.binN[b] > 0;
        }
      }
    }
  }

  /** The order lists each club with a forecast. */
  lemma {:induction false} OrderMembers(obs: seq<Obs>)
    ensures forall t :: t in Accumulate(obs).order <==> t in TeamsOf(obs)
    decreases |obs|
  {
    if |obs| > 0 {
      var n := |obs| - 1;
      OrderMembers(obs[..n]);
      TeamKeys(obs[..n]);
    }
  }

  /** The order lists each club once. */
  lemma {:induction false} OrderDistinct(obs: seq<Obs>)
    ensures Distinct(Accumulate(obs).order)
    decreases |obs|
  {
    if |obs| > 0 {
      var n := |obs| - 1;
      var prev, o := Accumulate(obs[..n]), obs[n];
      var order := Accumulate(obs).order;
      assert order == Add(prev, o).order;
      OrderDistinct(obs[..n]);
      if o.team !in prev.traj {
        OrderMembers(obs[..n]);
        TeamKeys(obs[..n]);
        DistinctSnoc(prev.order, o.team);
        assert order == prev.order + [o.team];
      } else {
        assert order == prev.order;
      }
    }
  }

  /** The order lists each club with a forecast once. */
  lemma OrderKeys(obs: seq<Obs>)
    ensures Distinct(Accumulate(obs).order)
    ensures forall t :: t in Accumulate(obs).order <==> t in TeamsOf(obs)
  {
    OrderMembers(obs);
    OrderDistinct(obs);
  }

  /** A club's Brier sum is the sum over exactly its own forecasts. */
  lemma {:induction false} TeamSumTotal(obs: seq<Obs>, t: string)
    requires t in TeamsOf(obs)
    ensures t in Accumulate(obs).teamSum && Accumulate(obs).teamSum[t] == SumOf(OfTeam(obs, t), BrierOf)
    decreases |obs|
  {
    var n := |obs| - 1;
    var init, o := obs[..n], obs[n];
    var prev := Accumulate(init);
    var totals := Accumulate(obs).teamSum;
    assert init + [o] == obs;
    assert totals == prev.teamSum[o.team := GetR(prev.teamSum, o.team) + o.brier];
    TeamKeys(init);
    OfTeamSnoc(init, t, o);
    if o.team == t {
      SumOfSnoc(OfTeam(init, t), o, BrierOf);
      if t in TeamsOf(init) {
        TeamSumTotal(init, t);
      } else {
        OfTeamNonEmpty(init, t);
      }
    } else {
      TeamSumTotal(init, t);
    }
  }

  /** A club's count is the number of its own forecasts. */
  lemma {:induction false} TeamCountTotal(obs: seq<Obs>, t: string)
    requires t in TeamsOf(obs)
    ensures t in Accumulate(obs).teamN && Accumulate(obs).teamN[t] == |OfTeam(obs, t)|
    decreases |obs|
  {
    var n := |obs| - 1;
    var init, o := obs[..n], obs[n];
    var prev := Accumulate(init);
    var totals := Accumulate(obs).teamN;
    assert init + [o] == obs;
    assert totals == prev.teamN[o.team := GetI(prev.teamN, o.team) + 1];
    TeamKeys(init);
    OfTeamSnoc(init, t, o);
    if o.team == t {
      if t in TeamsOf(init) {
        TeamCountTotal(init, t);
      } else {
        OfTeamNonEmpty(init, t);
      }
    } else {
      TeamCountTotal(init, t);
    }
  }

  /** A club's trajectory is the probabilities of its own forecasts. */
  lemma {:induction false} TeamTrajTotal(obs: seq<Obs>, t: string)
    requires t in TeamsOf(obs)
    ensures t in Accumulate(obs).traj && Accumulate(obs).traj[t] == Probs(OfTeam(obs, t))
    decreases |obs|
  {
    var n := |obs| - 1;
    var init, o := obs[..n], obs[n];
    var prev := Accumulate(init);
    var totals := Accumulate(obs).traj;
    assert init + [o] == obs;
    assert totals == prev.traj[o.team := GetS(prev.traj, o.team) + [o.prob]];
    TeamKeys(init);
    OfTeamSnoc(init, t, o);
    if o.team == t {
      ProbsSnoc(OfTeam(init, t), o);
      if t in TeamsOf(init) {
        TeamTrajTotal(init, t);
      } else {
        OfTeamNonEmpty(init, t);
      }
    } else {
      TeamTrajTotal(init, t);
    }
  }

  /** A bin's probability sum is the sum over exactly its forecasts. */
  lemma {:induction false} BinPredTotal(obs: seq<Obs>, b: int)
    requires b in BinsOf(obs)
    ensures b in Accumulate(obs).binPred && Accumulate(obs).binPred[b] == SumOf(InBin(obs, b), PredOf)
    decreases |obs|
  {
    var n := |obs| - 1;
    var init, o := obs[..n], obs[n];
    var prev := Accumulate(init);
    var totals := Accumulate(obs).binPred;
    assert init + [o] == obs;
    assert totals == prev.binPred[o.bin := GetR(prev.binPred, o.bin) + o.prob];
    BinKeys(init);
    InBinSnoc(init, b, o);
    if o.bin == b {
      SumOfSnoc(InBin(init, b), o, PredOf);
      if b in BinsOf(init) {
        BinPredTotal(init, b);
      } else {
        InBinNonEmpty(init, b);
      }
    } else {
      BinPredTotal(init, b);
    }
  }

  /** A bin's playoff count is the sum over exactly its forecasts. */
  lemma {:induction false} BinActualTotal(obs: seq<Obs>, b: int)
    requires b in BinsOf(obs)
    ensures b in Accumulate(obs).binActual && Accumulate(obs).binActual[b] == SumOf(InBin(obs, b), MadeOf)
    decreases |obs|
  {
    var n := |obs| - 1;
    var init, o := obs[..n], obs[n];
    var prev := Accumulate(init);
    var totals := Accumulate(obs).binActual;
    assert init + [o] == obs;
    assert totals == prev.binActual[o.bin := GetR(prev.binActual, o.bin) + o.made as real];
    BinKeys(init);
    InBinSnoc(init, b, o);
    if o.bin == b {
      SumOfSnoc(InBin(init, b), o, MadeOf);
      if b in BinsOf(init) {
        BinActualTotal(init, b);
      } else {
        InBinNonEmpty(init, b);
      }
    } else {
      BinActualTotal(init, b);
    }
  }

  /** A bin's count is the number of its forecasts. */
  lemma {:induction false} BinCountTotal(obs: seq<Obs>, b: int)
    requires b in BinsOf(obs)
    ensures b in Accumulate(obs).binN && Accumulate(obs).binN[b] == |InBin(obs, b)|
    decreases |obs|
  {
    var n := |obs| - 1;
    var init, o := obs[..n], obs[n];
    var prev := Accumulate(init);
    var totals := Accumulate(obs).binN;
    assert init + [o] == obs;
    assert totals == prev.binN[o.bin := GetI(prev.binN, o.bin) + 1];
    BinKeys(init);
    InBinSnoc(init, b, o);
    if o.bin == b {
      if b in BinsOf(init) {
        BinCountTotal(init, b);
      } else {
        InBinNonEmpty(init, b);
      }
    } else {
      BinCountTotal(init, b);
    }
  }

  /** A club's entries hold the Brier sum, the count and the probabilities
    * of exactly its own forecasts. */
  lemma TeamTotals(obs: seq<Obs>, t: string)
    requires t in TeamsOf(obs)
    ensures t in Accumulate(obs).teamSum && Accumulate(obs).teamSum[t] == SumOf(OfTeam(obs, t), BrierOf)
    ensures t in Accumulate(obs).teamN && Accumulate(obs).teamN[t] == |OfTeam(obs, t)|
    ensures t in Accumulate(obs).traj && Accumulate(obs).traj[t] == Probs(OfTeam(obs, t))
  {
    TeamSumTotal(obs, t);
    TeamCountTotal(obs, t);
    TeamTrajTotal(obs, t);
  }

  /** A bin's entries hold the probability sum, the playoff count and the
    * count of exactly the forecasts that fall in it. */
  lemma BinTotals(obs: seq<Obs>, b: int)
    requires b in BinsOf(obs)
    ensures b in Accumulate(obs).binPred && Accumulate(obs).binPred[b] == SumOf(InBin(obs, b), PredOf)
    ensures b in Accumulate(obs).binActual && Accumulate(obs).binActual[b] == SumOf(InBin(obs, b), MadeOf)
    ensures b in Accumulate(obs).binN && Accumulate(obs).binN[b] == |InBin(obs, b)|
  {
    BinPredTotal(obs, b);
    BinActualTotal(obs, b);
    BinCountTotal(obs, b);
  }

  // The report.

  datatype CalRow = CalRow(avgPredicted: real, avgActual: real, count: int)

  datatype Report = Report(brierScore: real, logLoss: real, nPredictions: int,
                           teamBrier: map<string, real>, calibration: map<int, CalRow>,
                           maxChanges: map<string, real>, avgMaxChange: real)

  function Dist(x: real, y: real): real { if x < y then y - x else x - y }

  /** The largest move between consecutive values, 0 with fewer than two. */
  function MaxChange(traj: seq<real>): (r: real)
    ensures r >= 0.0
    ensures |traj| < 2 ==> r == 0.0
    ensures forall i :: 1 <= i < |traj| ==> Dist(traj[i], traj[i - 1]) <= r
    ensures |traj| >= 2 ==> exists i :: 1 <= i < |traj| && r == Dist(traj[i], traj[i - 1])
  {
    if |traj| < 2 then 0.0
    else
      var n := |traj| - 1;
      var last := Dist(traj[n], traj[n - 1]);
      if n == 1 then last
      else
        var prev := MaxChange(traj[..n]);
        assert forall i :: 0 <= i < n ==> traj[..n][i] == traj[i];
        if prev >= last then prev else last
  }

  function Mean(s: seq<Obs>, f: Obs -> real): real
    requires |s| > 0
  {
    SumOf(s, f) / |s| as real
  }

  /** Per club, its sum over its count. */
  function TeamMeans(sum: map<string, real>, count: map<string, int>): map<string, real>
    requires forall t :: t in count ==> t in sum && count[t] > 0
  {
    map t | t in count :: sum[t] / count[t] as real
  }

  /** Per bin, its average probability, its share of clubs that made the
    * playoffs, and its count. */
  function Calibration(pred: map<int, real>, actual: map<int, real>, count: map<int, int>): map<int, CalRow>
    requires forall b :: b in count ==> b in pred && b in actual && count[b] > 0
  {
    map b | b in count :: CalRow(pred[b] / count[b] as real, actual[b] / count[b] as real, count[b])
  }

  /** Per club, the largest move of its trajectory. */
  function MaxChanges(traj: map<string, seq<real>>, order: seq<string>): map<string, real>
    requires forall t :: t in order ==> t in traj
  {
    map t | t in order :: MaxChange(traj[t])
  }

  function ChangeIn(maxChanges: map<string, real>): string -> real
  {
    t => GetR(maxChanges, t)
  }

  /** The mean of the largest moves, summed over the clubs in the order
    * their trajectories were started; 0 when there is none. */
  function AvgMaxChange(maxChanges: map<string, real>, order: seq<string>): real
  {
    if maxChanges == map[] then 0.0 else SumOf(order, ChangeIn(maxChanges)) / |maxChanges| as real
  }

  /** Running totals a report can be made from. */
  ghost predicate Reportable(acc: Totals)
  {
    acc.n > 0 &&
    (forall t :: t in acc.teamN ==> t in acc.teamSum && acc.teamN[t] > 0) &&
    (forall b :: b in acc.binN ==> b in acc.binPred && b in acc.binActual && acc.binN[b] > 0) &&
    (forall t :: t in acc.order ==> t in acc.traj)
  }

  lemma AccumulateReportable(obs: seq<Obs>)
    requires |obs| > 0
    ensures Reportable(Accumulate(obs))
  {
    OverallTotals(obs);
    TeamKeys(obs);
    BinKeys(obs);
    CountsPositive(obs);
    OrderKeys(obs);
  }

  function Summary(acc: Totals): Report
    requires Reportable(acc)
  {
    var maxChanges := MaxChanges(acc.traj, acc.order);
    Report(acc.brierSum / acc.n as real, acc.logLossSum / acc.n as real, acc.n,
           TeamMeans(acc.teamSum, acc.teamN), Calibration(acc.binPred, acc.binActual, acc.binN),
           maxChanges, AvgMaxChange(maxChanges, acc.order))
  }

  /** The report of a run of forecasts, or an error when there was none to
    * divide by. */
  function Scores(obs: seq<Obs>): Result<Report>
  {
    if |obs| == 0 then Err("division by zero")
    else
      AccumulateReportable(obs);
      Ok(Summary(Accumulate(obs)))
  }

  /** The scores of every snapshot's odds for the AL clubs against the set of
    * clubs that made the playoffs. */
  function BrierScores(m: Math, preds: seq<Snapshot>, al: seq<string>, playoff: set<string>): Result<Report>
  {
    Scores(Observations(m, preds, al, playoff))
  }

  // What the report says.

  /** With no forecast there is nothing to divide by; otherwise the overall
    * scores are the mean Brier score and the mean log-loss of all forecasts. */
  lemma ScoresOverall(obs: seq<Obs>)
    ensures Scores(obs).Err? <==> |obs| == 0
    ensures Scores(obs).Ok? ==>
      Scores(obs).value.brierScore == Mean(obs, BrierOf) &&
      Scores(obs).value.logLoss == Mean(obs, LossOf) &&
      Scores(obs).value.nPredictions == |obs|
  {
    if |obs| > 0 {
      OverallTotals(obs);
    }
  }

  /** A club has a Brier score and a largest move exactly when it has a
    * forecast: the mean Brier score of its own forecasts and the largest
    * move between consecutive ones. */
  lemma ScoresClub(obs: seq<Obs>, t: string)
    requires |obs| > 0
    ensures Scores(obs).Ok?
    ensures t in Scores(obs).value.teamBrier <==> t in TeamsOf(obs)
    ensures t in Scores(obs).value.maxChanges <==> t in TeamsOf(obs)
    ensures t in TeamsOf(obs) ==> |OfTeam(obs, t)| > 0
    ensures t in TeamsOf(obs) ==>
      Scores(obs).value.teamBrier[t] == Mean(OfTeam(obs, t), BrierOf) &&
      Scores(obs).value.maxChanges[t] == MaxChange(Probs(OfTeam(obs, t)))
  {
    TeamKeys(obs);
    OrderKeys(obs);
    AccumulateReportable(obs);
    if t in TeamsOf(obs) {
      TeamTotals(obs, t);
      OfTeamNonEmpty(obs, t);
    }
  }

  /** A bin has a calibration row exactly when some forecast falls in it:
    * the mean probability and the share of playoff clubs among those
    * forecasts, and their number. */
  lemma ScoresBin(obs: seq<Obs>, b: int)
    requires |obs| > 0
    ensures Scores(obs).Ok?
    ensures b in Scores(obs).value.calibration <==> b in BinsOf(obs)
    ensures b in BinsOf(obs) ==> |InBin(obs, b)| > 0
    ensures b in BinsOf(obs) ==>
      Scores(obs).value.calibration[b] ==
      CalRow(Mean(InBin(obs, b), PredOf), Mean(InBin(obs, b), MadeOf), |InBin(obs, b)|)
  {
    BinKeys(obs);
    AccumulateReportable(obs);
    if b in BinsOf(obs) {
      BinTotals(obs, b);
      InBinNonEmpty(obs, b);
    }
  }

  lemma MeanWithin(s: seq<Obs>, f: Obs -> real, lo: real, hi: real)
    requires |s| > 0
    requires forall o :: o in s ==> lo <= f(o) <= hi
    ensures lo <= Mean(s, f) <= hi
  {
    assert forall i :: 0 <= i < |s| ==> s[i] in s;
    SumOfAtLeast(s, f, lo);
    SumOfAtMost(s, f, hi);
    Weighted.QuotientBetween(SumOf(s, f), |s| as real, lo, hi);
  }

  lemma {:induction false} ProbsAt(s: seq<Obs>, i: nat)
    requires i < |s|
    ensures Probs(s)[i] == s[i].prob
    decreases |s|
  {
    if i < |s| - 1 {
      ProbsAt(s[..|s| - 1], i);
    }
  }

  /** A mean of positive terms is positive. */
  lemma MeanPositive(s: seq<Obs>, f: Obs -> real)
    requires |s| > 0
    requires forall o :: o in s ==> f(o) > 0.0
    ensures Mean(s, f) > 0.0
  {
    var k := |s| - 1;
    assert forall i :: 0 <= i < k ==> s[..k][i] in s;
    SumOfNonNegative(s[..k], f);
    assert s[k] in s;
    QuotientPositive(SumOf(s, f), |s| as real);
  }

  lemma QuotientPositive(a: real, b: real)
    requires a > 0.0 && b > 0.0
    ensures a / b > 0.0
  {
  }

  /** The largest move between values in [0, 1] is itself in [0, 1]. */
  lemma MaxChangeUnit(ps: seq<real>)
    requires forall i :: 0 <= i < |ps| ==> 0.0 <= ps[i] <= 1.0
    ensures MaxChange(ps) <= 1.0
  {
    if |ps| >= 2 {
      var i :| 1 <= i < |ps| && MaxChange(ps) == Dist(ps[i], ps[i - 1]);
      var x, y := ps[i], ps[i - 1];
      assert 0.0 <= x <= 1.0 && 0.0 <= y <= 1.0;
    }
  }

  /** The largest move of probabilities is itself between 0 and 1. */
  lemma MaxChangeWithin(s: seq<Obs>)
    requires forall o :: o in s ==> 0.0 <= o.prob <= 1.0
    ensures 0.0 <= MaxChange(Probs(s)) <= 1.0
  {
    var ps := Probs(s);
    forall i | 0 <= i < |ps| ensures 0.0 <= ps[i] <= 1.0 {
      ProbsAt(s, i);
      assert s[i] in s;
    }
    MaxChangeUnit(ps);
  }

  /** Valid forecasts give scores within their ranges: a Brier score
    * in [0, 1] and a positive log-loss. */
  lemma ScoresBounded(m: Math, obs: seq<Obs>)
    requires Lawful(m) && Scored(m, obs) && ObsValid(obs) && |obs| > 0
    ensures Scores(obs).Ok?
    ensures 0.0 <= Scores(obs).value.brierScore <= 1.0
    ensures Scores(obs).value.logLoss > 0.0
  {
    ScoresOverall(obs);
    forall o | o in obs ensures 0.0 <= BrierOf(o) <= 1.0 && LossOf(o) > 0.0 {
      EM.BrierBounds(o.prob, o.made);
      EM.LogLossPositive(m, o.prob, o.made);
    }
    MeanWithin(obs, BrierOf, 0.0, 1.0);
    MeanPositive(obs, LossOf);
  }

  /** A club's Brier score and largest move lie in [0, 1]. */
  lemma ClubBounded(m: Math, obs: seq<Obs>, t: string)
    requires Scored(m, obs) && ObsValid(obs) && |obs| > 0
    ensures Scores(obs).Ok?
    ensures t in Scores(obs).value.teamBrier ==> 0.0 <= Scores(obs).value.teamBrier[t] <= 1.0
    ensures t in Scores(obs).value.maxChanges ==> 0.0 <= Scores(obs).value.maxChanges[t] <= 1.0
  {
    ScoresClub(obs, t);
    if t in TeamsOf(obs) {
      var mine := OfTeam(obs, t);
      forall o | o in mine ensures 0.0 <= BrierOf(o) <= 1.0 && 0.0 <= o.prob <= 1.0 {
        EM.BrierBounds(o.prob, o.made);
      }
      MeanWithin(mine, BrierOf, 0.0, 1.0);
      MaxChangeWithin(mine);
    }
  }

  /** The forecasts in bin `b` have probabilities between b/10 and (b+1)/10. */
  lemma BinMeansWithin(m: Math, obs: seq<Obs>, b: int)
    requires Scored(m, obs) && ObsValid(obs) && |InBin(obs, b)| > 0
    ensures RowWithin(b, CalRow(Mean(InBin(obs, b), PredOf), Mean(InBin(obs, b), MadeOf), |InBin(obs, b)|))
  {
    var mine := InBin(obs, b);
    assert mine[0] in mine;
    var lo, hi := b as real / 10.0, (b + 1) as real / 10.0;
    forall o | o in mine ensures lo <= PredOf(o) <= hi && 0.0 <= MadeOf(o) <= 1.0 {
    }
    MeanWithin(mine, PredOf, lo, hi);
    MeanWithin(mine, MadeOf, 0.0, 1.0);
  }

  /** A calibration row for bin `b` averages probabilities between b/10 and
    * (b+1)/10, and its share of playoff clubs lies in [0, 1]. */
  lemma BinBounded(m: Math, obs: seq<Obs>, b: int)
    requires Scored(m, obs) && ObsValid(obs) && |obs| > 0
    ensures Scores(obs).Ok?
    ensures b in Scores(obs).value.calibration ==> RowWithin(b, Scores(obs).value.calibration[b])
  {
    ScoresBin(obs, b);
    if b in BinsOf(obs) {
      InBinNonEmpty(obs, b);
      BinMeansWithin(m, obs, b);
    }
  }

  lemma MaxChangesSize(traj: map<string, seq<real>>, order: seq<string>)
    requires Distinct(order) && forall t :: t in order ==> t in traj
    ensures |MaxChanges(traj, order)| == |order|
  {
    DistinctCard(order);
    assert MaxChanges(traj, order).Keys == set t | t in order;
  }

  /** The mean of values in [0, 1], one per club of the order, lies in [0, 1]. */
  lemma MeanChangeWithin(mc: map<string, real>, order: seq<string>)
    requires |mc| == |order|
    requires forall t :: t in order ==> t in mc && 0.0 <= mc[t] <= 1.0
    ensures 0.0 <= AvgMaxChange(mc, order) <= 1.0
  {
    if mc != map[] {
      forall i | 0 <= i < |order| ensures 0.0 <= ChangeIn(mc)(order[i]) <= 1.0 {
        assert order[i] in order;
      }
      var sum, k := SumOf(order, ChangeIn(mc)), |order| as real;
      assert |mc| > 0;
      SumOfAtLeast(order, ChangeIn(mc), 0.0);
      SumOfAtMost(order, ChangeIn(mc), 1.0);
      Weighted.QuotientBetween(sum, k, 0.0, 1.0);
    }
  }

  /** The mean of largest moves that each lie in [0, 1] lies in [0, 1]. */
  lemma AvgWithin(traj: map<string, seq<real>>, order: seq<string>)
    requires Distinct(order)
    requires forall t :: t in order ==> t in traj && 0.0 <= MaxChange(traj[t]) <= 1.0
    ensures 0.0 <= AvgMaxChange(MaxChanges(traj, order), order) <= 1.0
  {
    MaxChangesSize(traj, order);
    MeanChangeWithin(MaxChanges(traj, order), order);
  }

  /** The mean largest move lies in [0, 1]. */
  lemma AvgBounded(m: Math, obs: seq<Obs>)
    requires Scored(m, obs) && ObsValid(obs) && |obs| > 0
    ensures Scores(obs).Ok?
    ensures 0.0 <= Scores(obs).value.avgMaxChange <= 1.0
  {
    var acc := Accumulate(obs);
    AccumulateReportable(obs);
    OrderKeys(obs);
    var mc := Scores(obs).value.maxChanges;
    assert mc == MaxChanges(acc.traj, acc.order);
    forall t | t in acc.order ensures t in acc.traj && 0.0 <= MaxChange(acc.traj[t]) <= 1.0 {
      ClubBounded(m, obs, t);
    }
    AvgWithin(acc.traj, acc.order);
  }

  /** Bin `b`'s row averages probabilities in that bin's tenth of [0, 1]. */
  ghost predicate RowWithin(b: int, row: CalRow)
  {
    0 <= b <= 9 && row.count > 0 &&
    b as real / 10.0 <= row.avgPredicted <= (b + 1) as real / 10.0 && 0.0 <= row.avgActual <= 1.0
  }

  /** Every score of a report lies in its range. */
  ghost predicate Bounded(rep: Report)
  {
    0.0 <= rep.brierScore <= 1.0 && rep.logLoss > 0.0 && 0.0 <= rep.avgMaxChange <= 1.0 &&
    (forall t :: t in rep.teamBrier ==> 0.0 <= rep.teamBrier[t] <= 1.0) &&
    (forall t :: t in rep.maxChanges ==> 0.0 <= rep.maxChanges[t] <= 1.0) &&
    (forall b :: b in rep.calibration ==> RowWithin(b, rep.calibration[b]))
  }

  /** With probabilities in [0, 1] every score the report holds lies in its
    * range. */
  lemma BrierScoresBounded(m: Math, preds: seq<Snapshot>, al: seq<string>, playoff: set<string>)
    requires Lawful(m) && ValidOdds(preds)
    ensures BrierScores(m, preds, al, playoff).Ok? ==> Bounded(BrierScores(m, preds, al, playoff).value)
  {
    var obs := Observations(m, preds, al, playoff);
    ObservationsFacts(m, preds, al, playoff);
    if |obs| > 0 {
      var rep := Scores(obs).value;
      ScoresBounded(m, obs);
      AvgBounded(m, obs);
      forall t | t in rep.teamBrier ensures 0.0 <= rep.teamBrier[t] <= 1.0 {
        ClubBounded(m, obs, t);
      }
      forall t | t in rep.maxChanges ensures 0.0 <= rep.maxChanges[t] <= 1.0 {
        ClubBounded(m, obs, t);
      }
      forall b | b in rep.calibration ensures RowWithin(b, rep.calibration[b]) {
        BinBounded(m, obs, b);
      }
    }
  }

  /** The scoring fails exactly when there are no snapshots or no AL clubs. */
  lemma BrierScoresErr(m: Math, preds: seq<Snapshot>, al: seq<string>, playoff: set<string>)
    ensures BrierScores(m, preds, al, playoff).Err? <==> |preds| == 0 || |al| == 0
  {
    ScoresOverall(Observations(m, preds, al, playoff));
    if |preds| > 0 && |al| > 0 {
      assert |preds| * |al| >= |al| * 1;
    }
  }

  // A club's trajectory.

  lemma {:induction false} OfTeamAppend(a: seq<Obs>, b: seq<Obs>, t: string)
    ensures OfTeam(a + b, t) == OfTeam(a, t) + OfTeam(b, t)
    decreases |b|
  {
    if |b| > 0 {
      var n := |b| - 1;
      assert a + b == (a + b[..n]) + [b[n]];
      OfTeamAppend(a, b[..n], t);
      OfTeamSnoc(a + b[..n], t, b[n]);
    } else {
      assert a + b == a;
    }
  }

  lemma {:induction false} ProbsAppend(a: seq<Obs>, b: seq<Obs>)
    ensures Probs(a + b) == Probs(a) + Probs(b)
    decreases |b|
  {
    if |b| > 0 {
      var n := |b| - 1;
      assert a + b == (a + b[..n]) + [b[n]];
      ProbsAppend(a, b[..n]);
      ProbsSnoc(a + b[..n], b[n]);
    } else {
      assert a + b == a;
    }
  }

  /** With distinct AL clubs, a snapshot has one forecast for each of them
    * and none for any other club. */
  lemma {:induction false} OfTeamSnapshot(m: Math, s: Snapshot, al: seq<string>, playoff: set<string>, t: string)
    requires Distinct(al)
    ensures t in al ==> OfTeam(SnapshotObs(m, s, al, playoff), t) == [ObsOf(m, s, t, playoff)]
    ensures t !in al ==> OfTeam(SnapshotObs(m, s, al, playoff), t) == []
    decreases |al|
  {
    if |al| > 0 {
      var n := |al| - 1;
      var init := al[..n];
      assert forall i :: 0 <= i < n ==> init[i] == al[i];
      assert al == init + [al[n]];
      assert al[n] !in init;
      OfTeamSnapshot(m, s, init, playoff, t);
      OfTeamSnoc(SnapshotObs(m, s, init, playoff), t, ObsOf(m, s, al[n], playoff));
    }
  }

  lemma TrajectorySnoc(preds: seq<Snapshot>, t: string)
    requires |preds| > 0
    ensures Trajectory(preds, t) == Trajectory(preds[..|preds| - 1], t) + [ProbOf(preds[|preds| - 1].probs, t)]
  {
  }

  /** With distinct AL clubs, one more snapshot adds the club's probability
    * in it to the end of its forecasts' probabilities. */
  lemma ClubStep(m: Math, preds: seq<Snapshot>, al: seq<string>, playoff: set<string>, t: string)
    requires Distinct(al) && t in al && |preds| > 0
    ensures Probs(OfTeam(Observations(m, preds, al, playoff), t)) ==
      Probs(OfTeam(Observations(m, preds[..|preds| - 1], al, playoff), t)) + [ProbOf(preds[|preds| - 1].probs, t)]
  {
    var n := |preds| - 1;
    var done := Observations(m, preds[..n], al, playoff);
    var snap := SnapshotObs(m, preds[n], al, playoff);
    assert Observations(m, preds, al, playoff) == done + snap;
    OfTeamAppend(done, snap, t);
    OfTeamSnapshot(m, preds[n], al, playoff, t);
    ProbsAppend(OfTeam(done, t), [ObsOf(m, preds[n], t, playoff)]);
    assert Probs([ObsOf(m, preds[n], t, playoff)]) == [ProbOf(preds[n].probs, t)];
  }

  /** With distinct AL clubs, an AL club's forecasts give its probability in
    * each snapshot, in order. */
  lemma {:induction false} ClubTrajectory(m: Math, preds: seq<Snapshot>, al: seq<string>, playoff: set<string>, t: string)
    requires Distinct(al) && t in al
    ensures Probs(OfTeam(Observations(m, preds, al, playoff), t)) == Trajectory(preds, t)
    decreases |preds|
  {
    if |preds| > 0 {
      ClubTrajectory(m, preds[..|preds| - 1], al, playoff, t);
      ClubStep(m, preds, al, playoff, t);
      TrajectorySnoc(preds, t);
    }
  }

  /** With distinct AL clubs and at least one snapshot, the report has a
    * Brier score and a largest move for exactly the AL clubs, and a club's
    * largest move is the largest change of its probability between
    * consecutive snapshots. */
  lemma BrierScoresClub(m: Math, preds: seq<Snapshot>, al: seq<string>, playoff: set<string>, t: string)
    requires Distinct(al) && |preds| > 0 && |al| > 0
    ensures BrierScores(m, preds, al, playoff).Ok?
    ensures t in BrierScores(m, preds, al, playoff).value.teamBrier <==> t in al
    ensures t in BrierScores(m, preds, al, playoff).value.maxChanges <==> t in al
    ensures t in al ==> BrierScores(m, preds, al, playoff).value.maxChanges[t] == MaxChange(Trajectory(preds, t))
  {
    var obs := Observations(m, preds, al, playoff);
    BrierScoresErr(m, preds, al, playoff);
    ScoresClub(obs, t);
    OfTeamNonEmpty(obs, t);
    if t in al {
      ClubTrajectory(m, preds, al, playoff, t);
    } else {
      ObservationsFacts(m, preds, al, playoff);
    }
  }

  // The scoring step.

  /** The inner loop: every AL club in one snapshot, in order. */
  method TallySnapshot(m: Math, ghost done: seq<Obs>, s: Snapshot, al: seq<string>, playoff: set<string>,
                       acc: Totals)
    returns (acc': Totals)
    requires acc == Accumulate(done)
    ensures acc' == Accumulate(done + SnapshotObs(m, s, al, playoff))
  {
    ghost var snap := SnapshotObs(m, s, al, playoff);
    acc' := acc;
    var j := 0;
    assert done + snap[..0] == done;
    while j < |al|
      invariant 0 <= j <= |al|
      invariant acc' == Accumulate(done + snap[..j])
    {
      var team := al[j];
      var prob := ProbOf(s.probs, team);
      var actual := if team in playoff then 1 else 0;
      var brier := EM.Brier(prob, actual);
      var loss := EM.LogLoss(m, prob, actual);
      var o := Obs(team, prob, actual, brier, loss, Bin(prob));
      SnapshotAt(m, s, al, playoff, j);
      assert o == ObsOf(m, s, team, playoff);
      AccumulateNext(done, snap, j, o);
      acc' := Add(acc', o);
      j := j + 1;
    }
    assert snap[..|al|] == snap;
  }

  /** The nested loop: every AL club in every snapshot, in order. */
  method TallyAll(m: Math, preds: seq<Snapshot>, al: seq<string>, playoff: set<string>)
    returns (acc: Totals)
    ensures acc == Accumulate(Observations(m, preds, al, playoff))
  {
    acc := Zero;
    var i := 0;
    while i < |preds|
      invariant 0 <= i <= |preds|
      invariant acc == Accumulate(Observations(m, preds[..i], al, playoff))
    {
      acc := TallySnapshot(m, Observations(m, preds[..i], al, playoff), preds[i], al, playoff, acc);
      assert preds[..i + 1][..i] == preds[..i];
      i := i + 1;
    }
    assert preds[..i] == preds;
  }

  /** The loop over the clubs' trajectories, in the order they were started. */
  method MaxChangesOf(traj: map<string, seq<real>>, order: seq<string>) returns (maxChanges: map<string, real>)
    requires forall t :: t in order ==> t in traj
    ensures maxChanges == MaxChanges(traj, order)
  {
    maxChanges := map[];
    var k := 0;
    while k < |order|
      invariant 0 <= k <= |order|
      invariant maxChanges == MaxChanges(traj, order[..k])
    {
      var team := order[k];
      var changes := traj[team];
      if |changes| < 2 {
        maxChanges := maxChanges[team := 0.0];
      } else {
        maxChanges := maxChanges[team := MaxChange(changes)];
      }
      assert order[..k + 1] == order[..k] + [team];
      k := k + 1;
    }
    assert order[..k] == order;
  }

  /** The scoring step: the nested loop, then the loop over the clubs'
    * trajectories, then the report. */
  method ComputeBrierScores(m: Math, preds: seq<Snapshot>, al: seq<string>, playoff: set<string>)
    returns (r: Result<Report>)
    ensures r == BrierScores(m, preds, al, playoff)
  {
    var acc := TallyAll(m, preds, al, playoff);
    ghost var obs := Observations(m, preds, al, playoff);
    OverallTotals(obs);
    if acc.n == 0 {
      return Err("division by zero");
    }
    AccumulateReportable(obs);
    var maxChanges := MaxChangesOf(acc.traj, acc.order);
    r := Ok(Report(acc.brierSum / acc.n as real, acc.logLossSum / acc.n as real, acc.n,
                   TeamMeans(acc.teamSum, acc.teamN), Calibration(acc.binPred, acc.binActual, acc.binN),
                   maxChanges, AvgMaxChange(maxChanges, acc.order)));
  }

  lemma {:induction false} AccumulateNext(done: seq<Obs>, snap: seq<Obs>, j: nat, o: Obs)
    requires j < |snap| && snap[..j + 1] == snap[..j] + [o]
    ensures Accumulate(done + snap[..j + 1]) == Add(Accumulate(done + snap[..j]), o)
  {
    assert done + snap[..j + 1] == (done + snap[..j]) + [o];
    AccumulateSnoc(done + snap[..j], o);
  }

  lemma {:induction false} SnapshotAt(m: Math, s: Snapshot, al: seq<string>, playoff: set<string>, j: nat)
    requires j < |al|
    ensures SnapshotObs(m, s, al, playoff)[j] == ObsOf(m, s, al[j], playoff)
    ensures SnapshotObs(m, s, al, playoff)[..j + 1] == SnapshotObs(m, s, al, playoff)[..j] + [ObsOf(m, s, al[j], playoff)]
    decreases |al|
  {
    var n := |al| - 1;
    if j < n {
      SnapshotAt(m, s, al[..n], playoff, j);
    }
  }
}
