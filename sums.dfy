/** Sums over sequences, folded from the left as the pipeline's loops and
  * `sum(...)` comprehensions accumulate them. */
module Sums {
  /** Sum of `f` over `s`, peeling off the last element. */
  function SumOf<T>(s: seq<T>, f: T -> real): real
  {
    if |s| == 0 then 0.0 else SumOf(s[..|s| - 1], f) + f(s[|s| - 1])
  }

  function IntSumOf<T>(s: seq<T>, f: T -> int): int
  {
    if |s| == 0 then 0 else IntSumOf(s[..|s| - 1], f) + f(s[|s| - 1])
  }

  /** One more step of a left-to-right accumulation loop. */
  lemma SumOfStep<T>(s: seq<T>, f: T -> real, i: nat)
    requires i < |s|
    ensures SumOf(s[..i + 1], f) == SumOf(s[..i], f) + f(s[i])
  {
    assert s[..i + 1][..i] == s[..i];
  }

  lemma IntSumOfStep<T>(s: seq<T>, f: T -> int, i: nat)
    requires i < |s|
    ensures IntSumOf(s[..i + 1], f) == IntSumOf(s[..i], f) + f(s[i])
  {
    assert s[..i + 1][..i] == s[..i];
  }

  lemma {:induction false} SumOfAppend<T>(a: seq<T>, b: seq<T>, f: T -> real)
    ensures SumOf(a + b, f) == SumOf(a, f) + SumOf(b, f)
    decreases |b|
  {
    if |b| == 0 {
      assert a + b == a;
    } else {
      assert (a + b)[..|a + b| - 1] == a + b[..|b| - 1];
      SumOfAppend(a, b[..|b| - 1], f);
    }
  }

  lemma {:induction false} IntSumOfAppend<T>(a: seq<T>, b: seq<T>, f: T -> int)
    ensures IntSumOf(a + b, f) == IntSumOf(a, f) + IntSumOf(b, f)
    decreases |b|
  {
    if |b| == 0 {
      assert a + b == a;
    } else {
      assert (a + b)[..|a + b| - 1] == a + b[..|b| - 1];
      IntSumOfAppend(a, b[..|b| - 1], f);
    }
  }

  /** The sum of the first element and the rest. */
  lemma SumOfCons<T>(s: seq<T>, f: T -> real)
    requires |s| > 0
    ensures SumOf(s, f) == f(s[0]) + SumOf(s[1..], f)
  {
    SumOfAppend([s[0]], s[1..], f);
    assert [s[0]] + s[1..] == s;
  }

  lemma {:induction false} SumOfNonNegative<T>(s: seq<T>, f: T -> real)
    requires forall i :: 0 <= i < |s| ==> f(s[i]) >= 0.0
    ensures SumOf(s, f) >= 0.0
    decreases |s|
  {
    if |s| > 0 {
      SumOfNonNegative(s[..|s| - 1], f);
    }
  }

  /** Summing pointwise-dominated terms gives a dominated sum. */
  lemma {:induction false} SumOfMonotone<T>(s: seq<T>, f: T -> real, g: T -> real)
    requires forall i :: 0 <= i < |s| ==> f(s[i]) <= g(s[i])
    ensures SumOf(s, f) <= SumOf(s, g)
    decreases |s|
  {
    if |s| > 0 {
      SumOfMonotone(s[..|s| - 1], f, g);
    }
  }

  /** Sums are linear: scaling and adding terms scale and add the sums. */
  lemma {:induction false} SumOfLinear<T>(s: seq<T>, f: T -> real, g: T -> real, h: T -> real, a: real, b: real)
    requires forall x :: h(x) == a * f(x) + b * g(x)
    ensures SumOf(s, h) == a * SumOf(s, f) + b * SumOf(s, g)
    decreases |s|
  {
    if |s| > 0 {
      SumOfLinear(s[..|s| - 1], f, g, h, a, b);
    }
  }

  /** Sums of pointwise-equal terms are equal. */
  lemma {:induction false} SumOfCongruent<T>(s: seq<T>, f: T -> real, g: T -> real)
    requires forall i :: 0 <= i < |s| ==> f(s[i]) == g(s[i])
    ensures SumOf(s, f) == SumOf(s, g)
    decreases |s|
  {
    if |s| > 0 {
      SumOfCongruent(s[..|s| - 1], f, g);
    }
  }

  /** Terms bounded by `c` sum to at most `c` per term. */
  lemma {:induction false} SumOfAtMost<T>(s: seq<T>, f: T -> real, c: real)
    requires forall i :: 0 <= i < |s| ==> f(s[i]) <= c
    ensures SumOf(s, f) <= |s| as real * c
    decreases |s|
  {
    if |s| > 0 {
      var init := s[..|s| - 1];
      assert forall i :: 0 <= i < |init| ==> init[i] == s[i];
      SumOfAtMost(init, f, c);
    }
  }

  /** Terms bounded below by `c` sum to at least `c` per term. */
  lemma {:induction false} SumOfAtLeast<T>(s: seq<T>, f: T -> real, c: real)
    requires forall i :: 0 <= i < |s| ==> f(s[i]) >= c
    ensures SumOf(s, f) >= |s| as real * c
    decreases |s|
  {
    if |s| > 0 {
      var init := s[..|s| - 1];
      assert forall i :: 0 <= i < |init| ==> init[i] == s[i];
      SumOfAtLeast(init, f, c);
    }
  }

  /** Integer terms between 0 and 1 sum to between 0 and the count. */
  lemma {:induction false} IntSumOfCount<T>(s: seq<T>, f: T -> int)
    requires forall i :: 0 <= i < |s| ==> 0 <= f(s[i]) <= 1
    ensures 0 <= IntSumOf(s, f) <= |s|
    decreases |s|
  {
    if |s| > 0 {
      var init := s[..|s| - 1];
      assert forall i :: 0 <= i < |init| ==> init[i] == s[i];
      IntSumOfCount(init, f);
    }
  }

  /** Subtracting a constant from every term subtracts it once per term. */
  lemma {:induction false} SumOfShifted<T>(s: seq<T>, f: T -> real, g: T -> real, c: real)
    requires forall x :: g(x) == f(x) - c
    ensures SumOf(s, g) == SumOf(s, f) - |s| as real * c
    decreases |s|
  {
    if |s| > 0 {
      SumOfShifted(s[..|s| - 1], f, g, c);
    }
  }

  /** A constant term sums to the count times the constant. */
  lemma {:induction false} SumOfConstant<T>(s: seq<T>, f: T -> real, c: real)
    requires forall x :: f(x) == c
    ensures SumOf(s, f) == |s| as real * c
    decreases |s|
  {
    if |s| > 0 {
      SumOfConstant(s[..|s| - 1], f, c);
    }
  }
}
