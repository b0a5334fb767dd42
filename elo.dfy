/** The shared Elo rating math: a logistic expected score, a logarithmic
  * margin-of-victory multiplier and a K-scaled rating shift. The copies of
  * these formulas elsewhere in the pipeline reuse these definitions and
  * differ only in the parameters they pass. */
module Elo {
  import opened RealMath
  import opened Wrappers

  const ELO_K: real := 20.0
  const ELO_HFA: real := 55.0
  const ELO_INIT: real := 1500.0
  const MOV_MULTIPLIER: real := 2.2

  /** Probability that team A beats team B when A gets `hfa` extra points. */
  function ExpectedScore(m: Math, eloA: real, eloB: real, hfa: real): (e: real)
    requires Lawful(m)
    ensures 0.0 < e < 1.0
  {
    var p := m.pow10((eloB - (eloA + hfa)) / 400.0);
    assert p > 0.0;
    Logistic(p)
  }

  /** 1 / (1 + p) for a positive p. */
  function Logistic(p: real): (e: real)
    requires p > 0.0
    ensures 0.0 < e < 1.0
  {
    LogisticBounds(p);
    1.0 / (1.0 + p)
  }

  lemma LogisticBounds(p: real)
    requires p > 0.0
    ensures 0.0 < 1.0 / (1.0 + p) < 1.0
  {
    ReciprocalDecreasing(1.0, 1.0 + p);
  }

  lemma LogisticDecreasing(p: real, q: real)
    requires 0.0 < p < q
    ensures Logistic(q) < Logistic(p)
  {
    ReciprocalDecreasing(1.0 + p, 1.0 + q);
  }

  lemma LogisticComplement(p: real, q: real)
    requires p > 0.0 && q > 0.0 && p * q == 1.0
    ensures Logistic(p) + Logistic(q) == 1.0
  {
    var a := 1.0 / (1.0 + p);
    var b := 1.0 / (1.0 + q);
    assert a * (1.0 + p) == 1.0;
    assert b * (1.0 + q) == 1.0;
    assert (1.0 + q) * p == 1.0 + p;
    assert b * (1.0 + p) == b * (1.0 + q) * p;
    assert b * (1.0 + p) == p;
    assert (a + b) * (1.0 + p) == 1.0 + p;
  }

  /** On neutral ground the two teams' chances add up to one. */
  lemma ExpectedScoreComplement(m: Math, a: real, b: real)
    requires Lawful(m)
    ensures ExpectedScore(m, a, b, 0.0) + ExpectedScore(m, b, a, 0.0) == 1.0
  {
    var x := (b - (a + 0.0)) / 400.0;
    var y := (a - (b + 0.0)) / 400.0;
    assert x + y == 0.0;
    assert m.pow10(x) * m.pow10(y) == 1.0;
    LogisticComplement(m.pow10(x), m.pow10(y));
  }

  /** Equal ratings on neutral ground give an even chance. */
  lemma ExpectedScoreEven(m: Math, a: real)
    requires Lawful(m)
    ensures ExpectedScore(m, a, a, 0.0) == 0.5
  {
    var x := (a - (a + 0.0)) / 400.0;
    assert x == 0.0;
    assert m.pow10(x) == 1.0;
  }

  /** The exponent (b - (a + hfa)) / 400 orders the expected scores. */
  lemma ExpectedScoreOrder(m: Math, a1: real, b1: real, h1: real, a2: real, b2: real, h2: real)
    requires Lawful(m)
    requires b2 - (a2 + h2) < b1 - (a1 + h1)
    ensures ExpectedScore(m, a1, b1, h1) < ExpectedScore(m, a2, b2, h2)
  {
    var x1 := (b1 - (a1 + h1)) / 400.0;
    var x2 := (b2 - (a2 + h2)) / 400.0;
    assert x2 < x1;
    assert m.pow10(x2) < m.pow10(x1);
    assert m.pow10(x2) > 0.0;
    LogisticDecreasing(m.pow10(x2), m.pow10(x1));
  }

  /** Strictly increasing in the team's own rating and in home advantage,
    * strictly decreasing in the opponent's rating. */
  lemma ExpectedScoreMonotone(m: Math, a: real, b: real, hfa: real, d: real)
    requires Lawful(m) && d > 0.0
    ensures ExpectedScore(m, a, b, hfa) < ExpectedScore(m, a + d, b, hfa)
    ensures ExpectedScore(m, a, b, hfa) < ExpectedScore(m, a, b, hfa + d)
    ensures ExpectedScore(m, a, b + d, hfa) < ExpectedScore(m, a, b, hfa)
  {
    ExpectedScoreOrder(m, a, b, hfa, a + d, b, hfa);
    ExpectedScoreOrder(m, a, b, hfa, a, b, hfa + d);
    ExpectedScoreOrder(m, a, b + d, hfa, a, b, hfa);
  }

  function Abs(x: real): real { if x < 0.0 then -x else x }

  /** The uncapped multiplier: ln(|score diff| + 1) damped by the rating gap. */
  function RawMovMult(m: Math, scoreDiff: int, eloDiff: real): real
  {
    m.ln(Abs(scoreDiff as real) + 1.0) * (MOV_MULTIPLIER / (0.001 * Abs(eloDiff) + MOV_MULTIPLIER))
  }

  /** The multiplier, capped when a cap is configured. */
  function MovMult(m: Math, scoreDiff: int, eloDiff: real, cap: Option<real>): (r: real)
    requires Lawful(m)
    ensures cap.Some? ==> r <= cap.value
    ensures (cap.None? || cap.value >= 0.0) ==> r >= 0.0
    ensures scoreDiff == 0 && (cap.None? || cap.value >= 0.0) ==> r == 0.0
  {
    RawMovMultFacts(m, scoreDiff, eloDiff);
    var raw := RawMovMult(m, scoreDiff, eloDiff);
    match cap
    case None => raw
    case Some(c) => if raw < c then raw else c
  }

  /** The numeric settings the shared configuration module defines. */
  const CONFIG_SETTINGS: map<string, real> := map[
    "ELO_K" := 20.0, "ELO_HFA" := 55.0, "ELO_INIT" := 1500.0, "MOV_MULTIPLIER" := 2.2,
    "FIP_WEIGHT" := 50.0, "PROB_SHRINKAGE" := 0.16, "INJURY_WAR_TO_ELO" := 5.5, "SIM_COUNT" := 10000.0]

  /** The multiplier as the shared module writes it: the cap is imported
    * from the configuration, and loading fails when the configuration does
    * not define it. */
  function MovMultAsWritten(m: Math, scoreDiff: int, eloDiff: real, settings: map<string, real>): (r: Result<real>)
    requires Lawful(m)
    ensures r.Err? <==> "MOV_CAP" !in settings
    ensures r.Ok? ==> r.value == MovMult(m, scoreDiff, eloDiff, Some(settings["MOV_CAP"]))
  {
    if "MOV_CAP" in settings then Ok(MovMult(m, scoreDiff, eloDiff, Some(settings["MOV_CAP"])))
    else Err("cannot import name 'MOV_CAP'")
  }

  /** With the shipped configuration every call fails: no cap is defined. */
  lemma ShippedConfigFails(m: Math, scoreDiff: int, eloDiff: real)
    requires Lawful(m)
    ensures MovMultAsWritten(m, scoreDiff, eloDiff, CONFIG_SETTINGS).Err?
  {
    assert "MOV_CAP" !in CONFIG_SETTINGS.Keys;
  }

  lemma DampingBounds(eloDiff: real)
    ensures 0.0 < MOV_MULTIPLIER / (0.001 * Abs(eloDiff) + MOV_MULTIPLIER) <= 1.0
  {
    var den := 0.001 * Abs(eloDiff) + MOV_MULTIPLIER;
    assert den >= MOV_MULTIPLIER;
    if den > MOV_MULTIPLIER {
      ReciprocalDecreasing(MOV_MULTIPLIER, den);
      assert MOV_MULTIPLIER / den == MOV_MULTIPLIER * (1.0 / den);
    }
  }

  lemma RawMovMultFacts(m: Math, scoreDiff: int, eloDiff: real)
    requires Lawful(m)
    ensures RawMovMult(m, scoreDiff, eloDiff) >= 0.0
    ensures scoreDiff == 0 ==> RawMovMult(m, scoreDiff, eloDiff) == 0.0
  {
    var l := m.ln(Abs(scoreDiff as real) + 1.0);
    assert l >= 0.0 by {
      if Abs(scoreDiff as real) + 1.0 > 1.0 { assert m.ln(1.0) < l; }
    }
    DampingBounds(eloDiff);
  }

  /** Only the size of the rating gap matters, not which side leads. */
  lemma MovMultGapSymmetric(m: Math, scoreDiff: int, eloDiff: real, cap: Option<real>)
    requires Lawful(m)
    ensures MovMult(m, scoreDiff, eloDiff, cap) == MovMult(m, scoreDiff, -eloDiff, cap)
    ensures MovMult(m, scoreDiff, eloDiff, cap) == MovMult(m, -scoreDiff, eloDiff, cap)
  {
    assert Abs(-eloDiff) == Abs(eloDiff);
    assert Abs((-scoreDiff) as real) == Abs(scoreDiff as real);
  }

  /** For a fixed run margin, a wider rating gap never raises the uncapped
    * multiplier: blowouts by favourites count less. */
  lemma RawMovMultGapNonIncreasing(m: Math, scoreDiff: int, d1: real, d2: real)
    requires Lawful(m) && Abs(d1) <= Abs(d2)
    ensures RawMovMult(m, scoreDiff, d2) <= RawMovMult(m, scoreDiff, d1)
  {
    var l := m.ln(Abs(scoreDiff as real) + 1.0);
    RawMovMultFacts(m, scoreDiff, d1);
    assert l >= 0.0 by {
      if Abs(scoreDiff as real) + 1.0 > 1.0 { assert m.ln(1.0) < l; }
    }
    var den1 := 0.001 * Abs(d1) + MOV_MULTIPLIER;
    var den2 := 0.001 * Abs(d2) + MOV_MULTIPLIER;
    assert MOV_MULTIPLIER / den2 <= MOV_MULTIPLIER / den1 by {
      if den1 < den2 {
        ReciprocalDecreasing(den1, den2);
        assert MOV_MULTIPLIER / den1 == MOV_MULTIPLIER * (1.0 / den1);
        assert MOV_MULTIPLIER / den2 == MOV_MULTIPLIER * (1.0 / den2);
      }
    }
    MulMonotone(l, MOV_MULTIPLIER / den2, MOV_MULTIPLIER / den1);
  }

  lemma MulMonotone(l: real, x: real, y: real)
    requires l >= 0.0 && x <= y
    ensures l * x <= l * y
  {
  }

  /** The rating shift `k * mov * (actual - expected)`, to be added to one
    * side and subtracted from the other. */
  function EloShift(k: real, mov: real, expected: real, actual: real): (s: real)
    ensures k * mov > 0.0 ==> (s > 0.0 <==> actual > expected)
    ensures k * mov > 0.0 ==> (s < 0.0 <==> actual < expected)
    ensures actual == expected ==> s == 0.0
  {
    ShiftSign(k * mov, actual - expected);
    k * mov * (actual - expected)
  }

  lemma ShiftSign(c: real, d: real)
    ensures c > 0.0 ==> (c * d > 0.0 <==> d > 0.0) && (c * d < 0.0 <==> d < 0.0)
    ensures d == 0.0 ==> c * d == 0.0
  {
    if c > 0.0 {
      if d > 0.0 { assert c * d > 0.0; }
      else if d < 0.0 { assert c * (-d) > 0.0; }
    }
  }

  /** A game's outcome applied as the shared module prescribes: the shift is
    * added to the home rating and subtracted from the away rating, so the
    * two ratings keep their sum. */
  datatype Pair = Pair(home: real, away: real)

  function ApplyShift(before: Pair, shift: real): (after: Pair)
    ensures after.home + after.away == before.home + before.away
    ensures after.home - before.home == before.away - after.away == shift
  {
    Pair(before.home + shift, before.away - shift)
  }
}
