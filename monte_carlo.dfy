/** The season simulator shared by the projections lambda and the fade-curve
  * backtest: every trial starts from the wins already banked, then each
  * remaining fixture whose clubs are both rated draws one uniform number per
  * trial and credits the home club when the draw falls below its win
  * probability, the away club otherwise. The draws are an input, so every
  * trial is a deterministic function of them. */
module MonteCarlo {
  import opened Wrappers
  import opened Sums
  import opened Sorting

  /** A remaining fixture as the simulator sees it: the clubs, the home
    * club's win probability (None when either club has no rating, in which
    * case the fixture is skipped) and the fixture's draws, one per trial. */
  datatype Fixture = Fixture(home: string, away: string, pHome: Option<real>, draws: seq<real>)

  predicate Rated(f: Fixture)
  {
    f.pHome.Some?
  }

  /** `draws < p_home_win` for this trial. */
  predicate HomeWins(f: Fixture, trial: nat)
  {
    f.pHome.Some? && trial < |f.draws| && f.draws[trial] < f.pHome.value
  }

  /** The club the fixture credits in this trial. */
  function Winner(f: Fixture, trial: nat): string
  {
    if HomeWins(f, trial) then f.home else f.away
  }

  /** What the two column updates add to `team` in one trial: the home
    * column gains `home_wins`, the away column gains its negation. */
  function Credit(f: Fixture, trial: nat, team: string): int
  {
    if !Rated(f) then 0
    else (if team == f.home && HomeWins(f, trial) then 1 else 0) +
         (if team == f.away && !HomeWins(f, trial) then 1 else 0)
  }

  /** Each rated fixture credits exactly one club per trial (one win even
    * when a club is listed on both sides), and an unrated one credits none. */
  lemma CreditIsOneWin(f: Fixture, trial: nat, team: string)
    ensures Credit(f, trial, team) == if Rated(f) && team == Winner(f, trial) then 1 else 0
  {
  }

  function CreditFn(f: Fixture, trial: nat): string -> int
  {
    team => Credit(f, trial, team)
  }

  /** Summed over a list of distinct clubs, a fixture credits one win when
    * it is rated and its winner is listed, and none otherwise. */
  lemma {:induction false} CreditTotal(f: Fixture, trial: nat, teams: seq<string>)
    requires Distinct(teams)
    ensures IntSumOf(teams, CreditFn(f, trial)) == if Rated(f) && Winner(f, trial) in teams then 1 else 0
    decreases |teams|
  {
    if |teams| > 0 {
      var n := |teams| - 1;
      var init := teams[..n];
      assert Distinct(init);
      CreditTotal(f, trial, init);
      CreditIsOneWin(f, trial, teams[n]);
      assert teams == init + [teams[n]];
      assert teams[n] !in init;
    }
  }

  /** The banked wins of a club, 0 when it has none. */
  function Banked(seed: map<string, int>, team: string): int
  {
    if team in seed then seed[team] else 0
  }

  /** The wins of `team` in trial `trial` after the banked wins and
    * `fixtures`. Each fixture adds at most one. */
  function Wins(seed: map<string, int>, fixtures: seq<Fixture>, trial: nat, team: string): (w: int)
    ensures Banked(seed, team) <= w <= Banked(seed, team) + |fixtures|
  {
    if |fixtures| == 0 then Banked(seed, team)
    else
      var n := |fixtures| - 1;
      CreditIsOneWin(fixtures[n], trial, team);
      Wins(seed, fixtures[..n], trial, team) + Credit(fixtures[n], trial, team)
  }

  lemma WinsStep(seed: map<string, int>, fixtures: seq<Fixture>, trial: nat, team: string, i: nat)
    requires i < |fixtures|
    ensures Wins(seed, fixtures[..i + 1], trial, team) == Wins(seed, fixtures[..i], trial, team) + Credit(fixtures[i], trial, team)
  {
    assert fixtures[..i + 1][..i] == fixtures[..i];
  }

  function WinsFn(seed: map<string, int>, fixtures: seq<Fixture>, trial: nat): string -> int
  {
    team => Wins(seed, fixtures, trial, team)
  }

  function BankedFn(seed: map<string, int>): string -> int
  {
    team => Banked(seed, team)
  }

  function RatedOne(f: Fixture): int
  {
    if Rated(f) then 1 else 0
  }

  /** A sum of pointwise sums is the sum of the two sums. */
  lemma {:induction false} IntSumOfAdd<T>(s: seq<T>, f: T -> int, g: T -> int, h: T -> int)
    requires forall x :: h(x) == f(x) + g(x)
    ensures IntSumOf(s, h) == IntSumOf(s, f) + IntSumOf(s, g)
    decreases |s|
  {
    if |s| > 0 {
      IntSumOfAdd(s[..|s| - 1], f, g, h);
    }
  }

  /** Pointwise equal terms have equal sums. */
  lemma {:induction false} IntSumOfSame<T>(s: seq<T>, f: T -> int, g: T -> int)
    requires forall x :: f(x) == g(x)
    ensures IntSumOf(s, f) == IntSumOf(s, g)
    decreases |s|
  {
    if |s| > 0 {
      IntSumOfSame(s[..|s| - 1], f, g);
    }
  }

  /** In every trial the clubs' wins add up to the banked wins plus one per
    * rated fixture: the simulator hands out exactly one win per simulated
    * game. */
  lemma {:induction false} TrialTotal(seed: map<string, int>, fixtures: seq<Fixture>, trial: nat, teams: seq<string>)
    requires Distinct(teams)
    requires forall i :: 0 <= i < |fixtures| && Rated(fixtures[i]) ==> fixtures[i].home in teams && fixtures[i].away in teams
    ensures IntSumOf(teams, WinsFn(seed, fixtures, trial)) == IntSumOf(teams, BankedFn(seed)) + IntSumOf(fixtures, RatedOne)
    decreases |fixtures|
  {
    if |fixtures| == 0 {
      IntSumOfSame(teams, WinsFn(seed, fixtures, trial), BankedFn(seed));
    } else {
      var n := |fixtures| - 1;
      var init := fixtures[..n];
      assert forall i :: 0 <= i < |init| ==> init[i] == fixtures[i];
      TrialTotal(seed, init, trial, teams);
      assert Rated(fixtures[n]) ==> Winner(fixtures[n], trial) in teams;
      forall t ensures WinsFn(seed, fixtures, trial)(t) == WinsFn(seed, init, trial)(t) + CreditFn(fixtures[n], trial)(t) {
        assert Wins(seed, fixtures, trial, t) == Wins(seed, init, trial, t) + Credit(fixtures[n], trial, t);
      }
      assert IntSumOf(fixtures, RatedOne) == IntSumOf(init, RatedOne) + RatedOne(fixtures[n]);
      IntSumOfAdd(teams, WinsFn(seed, init, trial), CreditFn(fixtures[n], trial), WinsFn(seed, fixtures, trial));
      CreditTotal(fixtures[n], trial, teams);
      assert IntSumOf(teams, CreditFn(fixtures[n], trial)) == RatedOne(fixtures[n]);
      assert IntSumOf(teams, WinsFn(seed, init, trial)) == IntSumOf(teams, BankedFn(seed)) + IntSumOf(init, RatedOne);
    }
  }

  /** The position of a club in the column list (`team_idx`). */
  function IndexOf(teams: seq<string>, team: string): (i: nat)
    requires team in teams
    ensures i < |teams| && teams[i] == team
  {
    if teams[0] == team then 0 else 1 + IndexOf(teams[1..], team)
  }

  /** The simulation matrix: row `k` is trial `k`, column `j` the club
    * `teams[j]`. It is seeded with the banked wins, then each fixture adds
    * its trial-by-trial credits to the two clubs' columns. */
  method Simulate(teams: seq<string>, seed: map<string, int>, fixtures: seq<Fixture>, nSims: nat)
    returns (sim: array2<int>)
    requires Distinct(teams)
    requires forall i :: 0 <= i < |fixtures| && Rated(fixtures[i]) ==> fixtures[i].home in teams && fixtures[i].away in teams
    ensures fresh(sim) && sim.Length0 == nSims && sim.Length1 == |teams|
    ensures forall k, j :: 0 <= k < nSims && 0 <= j < |teams| ==> sim[k, j] == Wins(seed, fixtures, k, teams[j])
  {
    sim := new int[nSims, |teams|]((k: nat, j: nat) => if j < |teams| then Banked(seed, teams[j]) else 0);
    var i := 0;
    while i < |fixtures|
      invariant 0 <= i <= |fixtures|
      invariant forall k, j :: 0 <= k < nSims && 0 <= j < |teams| ==> sim[k, j] == Wins(seed, fixtures[..i], k, teams[j])
    {
      var f := fixtures[i];
      forall k: nat, t | true
        ensures Wins(seed, fixtures[..i + 1], k, t) == Wins(seed, fixtures[..i], k, t) + Credit(f, k, t)
      {
        WinsStep(seed, fixtures, k, t, i);
      }
      if f.pHome.Some? {
        AddFixture(sim, teams, f);
      } else {
        forall k: nat, t | true ensures Credit(f, k, t) == 0 {
          CreditIsOneWin(f, k, t);
        }
      }
      i := i + 1;
    }
    assert fixtures[..i] == fixtures;
  }

  /** One simulated fixture: in every trial its winner's column gains one. */
  method AddFixture(sim: array2<int>, teams: seq<string>, f: Fixture)
    requires Distinct(teams) && sim.Length1 == |teams|
    requires Rated(f) && f.home in teams && f.away in teams
    modifies sim
    ensures forall k, j :: 0 <= k < sim.Length0 && 0 <= j < |teams| ==> sim[k, j] == old(sim[k, j]) + Credit(f, k, teams[j])
  {
    var h := IndexOf(teams, f.home);
    var a := IndexOf(teams, f.away);
    var k := 0;
    while k < sim.Length0
      invariant 0 <= k <= sim.Length0
      invariant forall k', j :: 0 <= k' < k && 0 <= j < |teams| ==> sim[k', j] == old(sim[k', j]) + Credit(f, k', teams[j])
      invariant forall k', j :: k <= k' < sim.Length0 && 0 <= j < |teams| ==> sim[k', j] == old(sim[k', j])
    {
      var homeWins := HomeWins(f, k);
      forall j | 0 <= j < |teams|
        ensures Credit(f, k, teams[j]) == if (j == h && homeWins) || (j == a && !homeWins) then 1 else 0
      {
        CreditIsOneWin(f, k, teams[j]);
      }
      sim[k, h] := sim[k, h] + (if homeWins then 1 else 0);
      sim[k, a] := sim[k, a] + (if homeWins then 0 else 1);
      k := k + 1;
    }
  }
}
