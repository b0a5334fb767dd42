/** Weighted league averages: a value (a FIP) per entry, weighted by the
  * entry's innings, as the loaders and the constant calculations average
  * them. */
module Weighted {
  import opened Sums
  import opened Wrappers

  datatype Rated = Rated(value: real, weight: real)

  function Weight(r: Rated): real { r.weight }
  function Product(r: Rated): real { r.value * r.weight }

  function TotalWeight(rs: seq<Rated>): real { SumOf(rs, Weight) }
  function WeightedTotal(rs: seq<Rated>): real { SumOf(rs, Product) }

  /** The league average of a loader: `dflt` for an empty list, else the
    * weighted sum over the total weight, which fails when every weight is
    * zero. */
  function LeagueAverage(rs: seq<Rated>, dflt: real): (r: Result<real>)
    ensures rs == [] ==> r == Ok(dflt)
    ensures rs != [] ==> (r.Ok? <==> TotalWeight(rs) != 0.0)
    ensures rs != [] && r.Ok? ==> r.value * TotalWeight(rs) == WeightedTotal(rs)
  {
    if rs == [] then Ok(dflt)
    else if TotalWeight(rs) == 0.0 then Err("division by zero")
    else
      DivTimes(WeightedTotal(rs), TotalWeight(rs));
      Ok(WeightedTotal(rs) / TotalWeight(rs))
  }

  lemma DivTimes(a: real, b: real)
    requires b != 0.0
    ensures (a / b) * b == a
  {
  }

  predicate ValuesWithin(rs: seq<Rated>, lo: real, hi: real)
  {
    forall i :: 0 <= i < |rs| ==> lo <= rs[i].value <= hi
  }

  predicate NonNegativeWeights(rs: seq<Rated>)
  {
    forall i :: 0 <= i < |rs| ==> rs[i].weight >= 0.0
  }

  /** With non-negative weights and a positive total, the weighted mean lies
    * between the smallest and the largest value. */
  lemma MeanBetween(rs: seq<Rated>, lo: real, hi: real)
    requires NonNegativeWeights(rs) && ValuesWithin(rs, lo, hi) && TotalWeight(rs) > 0.0
    ensures LeagueAverage(rs, 0.0).Ok?
    ensures lo <= LeagueAverage(rs, 0.0).value <= hi
  {
    WeightedBounds(rs, lo, hi);
    QuotientBetween(WeightedTotal(rs), TotalWeight(rs), lo, hi);
    assert rs != [];
  }

  lemma {:induction false} WeightedBounds(rs: seq<Rated>, lo: real, hi: real)
    requires NonNegativeWeights(rs) && ValuesWithin(rs, lo, hi)
    ensures lo * TotalWeight(rs) <= WeightedTotal(rs) <= hi * TotalWeight(rs)
  {
    if |rs| > 0 {
      var init := rs[..|rs| - 1];
      var last := rs[|rs| - 1];
      WeightedBounds(init, lo, hi);
      ScaledBetween(last.weight, lo, last.value, hi);
      AddBounds(TotalWeight(init), last.weight, WeightedTotal(init), Product(last), lo, hi);
    }
  }

  lemma AddBounds(t: real, w: real, s: real, p: real, lo: real, hi: real)
    requires lo * t <= s <= hi * t && lo * w <= p <= hi * w
    ensures lo * (t + w) <= s + p <= hi * (t + w)
  {
  }

  lemma ScaledBetween(w: real, lo: real, v: real, hi: real)
    requires w >= 0.0 && lo <= v <= hi
    ensures lo * w <= v * w <= hi * w
  {
  }

  lemma QuotientBetween(s: real, t: real, lo: real, hi: real)
    requires t > 0.0 && lo * t <= s <= hi * t
    ensures lo <= s / t <= hi
  {
  }

  /** Weights bounded below by a positive amount give a positive total. */
  lemma {:induction false} TotalWeightPositive(rs: seq<Rated>, floor: real)
    requires floor > 0.0 && rs != [] && forall i :: 0 <= i < |rs| ==> rs[i].weight >= floor
    ensures TotalWeight(rs) >= floor
  {
    SumOfNonNegative(rs[..|rs| - 1], Weight);
  }

  /** The mean of two values weighted `a` and `b`, as a Bayesian prior pulls
    * an estimate toward a league figure: it fails only when the weights sum
    * to zero. */
  function PriorBlend(x: real, a: real, y: real, b: real): (r: Result<real>)
    ensures r.Ok? <==> a + b != 0.0
  {
    if a + b == 0.0 then Err("division by zero") else Ok((a * x + b * y) / (a + b))
  }

  /** For non-negative weights that are not both zero, the blend lies
    * between the two values. */
  lemma PriorBlendBetween(x: real, a: real, y: real, b: real)
    requires a >= 0.0 && b >= 0.0 && a + b > 0.0
    ensures PriorBlend(x, a, y, b).Ok?
    ensures x <= y ==> x <= PriorBlend(x, a, y, b).value <= y
    ensures y <= x ==> y <= PriorBlend(x, a, y, b).value <= x
  {
    var lo := if x <= y then x else y;
    var hi := if x <= y then y else x;
    ScaledBetween(a, lo, x, hi);
    ScaledBetween(b, lo, y, hi);
    assert lo * (a + b) <= a * x + b * y <= hi * (a + b);
    QuotientBetween(a * x + b * y, a + b, lo, hi);
  }
}
