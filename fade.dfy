/** Fading preseason ratings out as a season is played: a rating used for
  * simulation is `pct * current + (1 - pct) * preseason`, where `pct` grows
  * with a club's games played and reaches 1 at FADE_GAMES. The projections
  * lambda uses the linear weight; the fade-curve backtest compares four
  * curves. */
module Fade {
  import opened RealMath
  import opened Wrappers

  const FADE_GAMES: int := 100

  /** `pct * current + (1 - pct) * preseason`. */
  function Blend(pct: real, current: real, preseason: real): real
  {
    pct * current + (1.0 - pct) * preseason
  }

  /** No games gives the preseason rating, a full weight the current one. */
  lemma BlendEnds(current: real, preseason: real)
    ensures Blend(0.0, current, preseason) == preseason
    ensures Blend(1.0, current, preseason) == current
  {
  }

  /** A weight in [0, 1] gives a rating between the two, and a larger weight
    * one no farther from the current rating. */
  lemma BlendBetween(pct: real, pct2: real, current: real, preseason: real)
    requires 0.0 <= pct <= pct2 <= 1.0
    ensures current <= preseason ==> current <= Blend(pct, current, preseason) <= preseason
    ensures preseason <= current ==> preseason <= Blend(pct, current, preseason) <= current
    ensures current <= preseason ==> Blend(pct2, current, preseason) <= Blend(pct, current, preseason)
    ensures preseason <= current ==> Blend(pct, current, preseason) <= Blend(pct2, current, preseason)
  {
    var d := preseason - current;
    assert Blend(pct, current, preseason) == current + (1.0 - pct) * d;
    assert Blend(pct2, current, preseason) == current + (1.0 - pct2) * d;
    assert Blend(pct, current, preseason) - Blend(pct2, current, preseason) == (pct2 - pct) * d;
    if d >= 0.0 {
      MulNonNegative(1.0 - pct, d);
      MulNonNegative(pct, d);
      MulNonNegative(pct2 - pct, d);
    } else {
      MulNonNegative(1.0 - pct, -d);
      MulNonNegative(pct, -d);
      MulNonNegative(pct2 - pct, -d);
    }
  }

  lemma MulNonNegative(a: real, b: real)
    requires a >= 0.0 && b >= 0.0
    ensures a * b >= 0.0
  {
  }

  /** `min(gp / FADE_GAMES, 1.0)`, the projections lambda's weight. */
  function LinearWeight(gp: int): real
  {
    var t := gp as real / FADE_GAMES as real;
    if t < 1.0 then t else 1.0
  }

  datatype Curve = Linear | Cosine | Sigmoid | Quadratic

  /** The curve names `fade_pct` accepts. */
  function ParseCurve(name: string): (c: Option<Curve>)
    ensures c.None? <==> name !in {"linear", "cosine", "sigmoid", "quadratic"}
  {
    if name == "linear" then Some(Linear)
    else if name == "cosine" then Some(Cosine)
    else if name == "sigmoid" then Some(Sigmoid)
    else if name == "quadratic" then Some(Quadratic)
    else None
  }

  /** The weight at season fraction `t`. */
  function CurveAt(m: Math, c: Curve, t: real): real
    requires Lawful(m)
  {
    match c
    case Linear => t
    case Cosine => 0.5 * (1.0 - m.cosPi(t))
    case Sigmoid => 1.0 / (1.0 + m.exp(-10.0 * (t - 0.5)))
    case Quadratic => 1.0 - (1.0 - t) * (1.0 - t)
  }

  /** `fade_pct(gp, curve)`: 1 once FADE_GAMES are played, whatever the
    * curve name; otherwise the named curve at gp / FADE_GAMES, and an
    * unknown name is an error. */
  function FadePct(m: Math, gp: int, name: string): Result<real>
    requires Lawful(m)
  {
    if gp >= FADE_GAMES then Ok(1.0)
    else
      match ParseCurve(name)
      case None => Err("Unknown fade curve: " + name)
      case Some(c) => Ok(CurveAt(m, c, gp as real / FADE_GAMES as real))
  }

  /** The linear curve is the projections lambda's weight. */
  lemma LinearIsLinearWeight(m: Math, gp: int)
    requires Lawful(m)
    ensures FadePct(m, gp, "linear") == Ok(LinearWeight(gp))
  {
  }

  /** An unknown curve name fails exactly when the fade is not complete. */
  lemma FadeErrors(m: Math, gp: int, name: string)
    requires Lawful(m)
    ensures FadePct(m, gp, name).Err? <==> gp < FADE_GAMES && ParseCurve(name).None?
  {
  }

  /** At the first game the linear, cosine and quadratic curves give the
    * preseason rating its full weight; the sigmoid does not: it starts at
    * 1 / (1 + e^5), above 0. */
  lemma FadeAtStart(m: Math)
    requires Lawful(m)
    ensures FadePct(m, 0, "linear") == Ok(0.0)
    ensures FadePct(m, 0, "cosine") == Ok(0.0)
    ensures FadePct(m, 0, "quadratic") == Ok(0.0)
    ensures FadePct(m, 0, "sigmoid") == Ok(1.0 / (1.0 + m.exp(5.0)))
    ensures FadePct(m, 0, "sigmoid").value > 0.0
  {
    assert m.exp(5.0) > 0.0;
  }

  /** Every curve stays within [0, 1] on [0, 1]. */
  lemma CurveBounds(m: Math, c: Curve, t: real)
    requires Lawful(m) && 0.0 <= t <= 1.0
    ensures 0.0 <= CurveAt(m, c, t) <= 1.0
  {
    match c
    case Linear =>
    case Cosine =>
      assert -1.0 <= m.cosPi(t) <= 1.0;
    case Sigmoid =>
      var e := m.exp(-10.0 * (t - 0.5));
      assert e > 0.0;
      SigmoidBounds(e);
    case Quadratic =>
      MulNonNegative(1.0 - t, 1.0 - t);
      MulAtMostOne(1.0 - t, 1.0 - t);
  }

  lemma SigmoidBounds(e: real)
    requires e > 0.0
    ensures 0.0 < 1.0 / (1.0 + e) < 1.0
  {
  }

  lemma MulAtMostOne(a: real, b: real)
    requires 0.0 <= a <= 1.0 && 0.0 <= b <= 1.0
    ensures a * b <= 1.0
  {
    MulNonNegative(1.0 - a, b);
    assert a * b == b - (1.0 - a) * b;
  }

  /** Every curve rises (never falls) across the season. */
  lemma CurveMonotone(m: Math, c: Curve, s: real, t: real)
    requires Lawful(m) && 0.0 <= s <= t <= 1.0
    ensures CurveAt(m, c, s) <= CurveAt(m, c, t)
  {
    match c
    case Linear =>
    case Cosine =>
      assert m.cosPi(t) <= m.cosPi(s);
    case Sigmoid =>
      var es := m.exp(-10.0 * (s - 0.5));
      var et := m.exp(-10.0 * (t - 0.5));
      assert -10.0 * (t - 0.5) <= -10.0 * (s - 0.5);
      assert et <= es by {
        if -10.0 * (t - 0.5) < -10.0 * (s - 0.5) {
          assert m.exp(-10.0 * (t - 0.5)) < m.exp(-10.0 * (s - 0.5));
        }
      }
      assert et > 0.0;
      ReciprocalOrder(1.0 + et, 1.0 + es);
    case Quadratic =>
      SquareOrder(1.0 - t, 1.0 - s);
  }

  lemma ReciprocalOrder(a: real, b: real)
    requires 0.0 < a <= b
    ensures 1.0 / b <= 1.0 / a
  {
    if a < b {
      ReciprocalDecreasing(a, b);
    }
  }

  lemma SquareOrder(a: real, b: real)
    requires 0.0 <= a <= b
    ensures a * a <= b * b
  {
    assert a * a <= a * b;
    assert a * b <= b * b;
  }

  /** With a known curve, the weight is in [0, 1] for any games played and
    * never falls as games are played, the jump to 1 at FADE_GAMES included. */
  lemma FadeMonotone(m: Math, c: Curve, name: string, gp: int, gp2: int)
    requires Lawful(m) && ParseCurve(name) == Some(c) && 0 <= gp <= gp2
    ensures FadePct(m, gp, name).Ok? && FadePct(m, gp2, name).Ok?
    ensures 0.0 <= FadePct(m, gp, name).value <= FadePct(m, gp2, name).value <= 1.0
  {
    var s := gp as real / FADE_GAMES as real;
    var t := gp2 as real / FADE_GAMES as real;
    if gp < FADE_GAMES {
      CurveBounds(m, c, s);
      if gp2 < FADE_GAMES {
        CurveBounds(m, c, t);
        CurveMonotone(m, c, s, t);
      }
    }
  }
}
