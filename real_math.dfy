/** The transcendental functions the pipeline calls (`10 ** x`, `math.log`,
  * `math.exp`, `math.cos(pi * t)`) are not computed here. A `Math` value
  * carries them as plain functions on reals, and `Lawful` states the facts
  * about them that the proofs rely on. Every claim that needs one of these
  * functions holds for every lawful choice. */
module RealMath {

  datatype Math = Math(
    pow10: real -> real,   // x |-> 10 ** x
    ln: real -> real,      // natural logarithm (only used on positive reals)
    exp: real -> real,     // e ** x
    cosPi: real -> real)   // t |-> cos(pi * t)

  ghost predicate Positive(f: real -> real)
  {
    forall x :: f(x) > 0.0
  }

  ghost predicate Increasing(f: real -> real)
  {
    forall x, y :: x < y ==> f(x) < f(y)
  }

  ghost predicate IncreasingOnPositives(f: real -> real)
  {
    forall x, y :: 0.0 < x < y ==> f(x) < f(y)
  }

  /** f(-x) == 1 / f(x), stated without division. */
  ghost predicate ReciprocalOnNegation(f: real -> real)
  {
    forall x, y :: x + y == 0.0 ==> f(x) * f(y) == 1.0
  }

  ghost predicate DecreasingOnUnit(f: real -> real)
  {
    forall s, t :: 0.0 <= s <= t <= 1.0 ==> f(t) <= f(s)
  }

  ghost predicate BoundedByOne(f: real -> real)
  {
    forall t :: -1.0 <= f(t) <= 1.0
  }

  ghost predicate Pow10Lawful(f: real -> real)
  {
    f(0.0) == 1.0 && Positive(f) && Increasing(f) && ReciprocalOnNegation(f)
  }

  ghost predicate LnLawful(f: real -> real)
  {
    f(1.0) == 0.0 && IncreasingOnPositives(f)
  }

  ghost predicate ExpLawful(f: real -> real)
  {
    f(0.0) == 1.0 && Positive(f) && Increasing(f)
  }

  ghost predicate CosPiLawful(f: real -> real)
  {
    f(0.0) == 1.0 && f(1.0) == -1.0 && BoundedByOne(f) && DecreasingOnUnit(f)
  }

  ghost predicate Lawful(m: Math)
  {
    Pow10Lawful(m.pow10) && LnLawful(m.ln) && ExpLawful(m.exp) && CosPiLawful(m.cosPi)
  }

  /** A positive, increasing function on the reals with f(-x) = 1/f(x). */
  function Growth(x: real): real
  {
    if x >= 0.0 then 1.0 + x else 1.0 / (1.0 - x)
  }

  /** A function that falls from 1 to -1 across [0, 1]. */
  function Ramp(t: real): real
  {
    if t <= 0.0 then 1.0 else if t >= 1.0 then -1.0 else 1.0 - 2.0 * t
  }

  lemma ReciprocalDecreasing(a: real, b: real)
    requires 0.0 < a < b
    ensures 1.0 / b < 1.0 / a
  {
    assert (1.0 / b) * a < (1.0 / b) * b;
    assert 1.0 / b == ((1.0 / b) * a) * (1.0 / a);
  }

  lemma GrowthIncreasing()
    ensures Increasing(Growth)
  {
    forall x, y | x < y ensures Growth(x) < Growth(y) {
      if y < 0.0 {
        ReciprocalDecreasing(1.0 - y, 1.0 - x);
      } else if x < 0.0 {
        ReciprocalDecreasing(1.0, 1.0 - x);
      }
    }
  }

  lemma GrowthReciprocal()
    ensures ReciprocalOnNegation(Growth)
  {
    forall x, y | x + y == 0.0 ensures Growth(x) * Growth(y) == 1.0 {
      if x > 0.0 {
        assert Growth(y) == 1.0 / (1.0 + x);
      } else if x < 0.0 {
        assert Growth(x) == 1.0 / (1.0 + y);
      }
    }
  }

  lemma GrowthPositive()
    ensures Positive(Growth)
  {
    forall x ensures Growth(x) > 0.0 {
      if x < 0.0 { assert 1.0 - x > 0.0; }
    }
  }

  lemma RampLawful()
    ensures CosPiLawful(Ramp)
  {
  }

  /** The stated facts are consistent: some `Math` satisfies all of them, so
    * no claim that assumes a lawful `Math` holds vacuously. */
  lemma LawfulWitness()
    ensures Lawful(Math(Growth, x => x - 1.0, Growth, Ramp))
  {
    GrowthIncreasing();
    GrowthReciprocal();
    GrowthPositive();
    RampLawful();
  }
}
