/** Batting and pitching rate helpers. Every rate is guarded by its
  * denominator and rounded half-to-even, as Python's `round` does. */
module Stats {
  import opened Rounding

  /** Within half a unit of the `k`-th decimal of `x`. */
  predicate Near(r: real, x: real, k: Digits)
  {
    -0.5 * Unit(k) <= r - x <= 0.5 * Unit(k)
  }

  /** A value on the grid of `k`-decimal numbers. */
  function GridPoint(n: int, k: Digits): real
  {
    n as real * Unit(k)
  }

  ghost predicate OnGrid(r: real, k: Digits)
  {
    exists n: int :: r == GridPoint(n, k)
  }

  lemma RoundNear(x: real, k: Digits)
    ensures Near(Round(x, k), x, k)
    ensures OnGrid(Round(x, k), k)
  {
    RoundError(x, k);
    assert Round(x, k) == GridPoint(RoundHalfEven(x * Scale(k)), k);
  }

  function BattingAvg(h: int, ab: int): (r: real)
    ensures ab <= 0 ==> r == 0.0
    ensures ab > 0 ==> Near(r, h as real / ab as real, 3) && OnGrid(r, 3)
  {
    if ab > 0 then
      RoundNear(h as real / ab as real, 3);
      Round(h as real / ab as real, 3)
    else 0.0
  }

  function Obp(h: int, bb: int, hbp: int, ab: int, sf: int): (r: real)
    ensures ab + bb + hbp + sf <= 0 ==> r == 0.0
    ensures ab + bb + hbp + sf > 0 ==>
      Near(r, (h + bb + hbp) as real / (ab + bb + hbp + sf) as real, 3) && OnGrid(r, 3)
  {
    var denom := ab + bb + hbp + sf;
    if denom > 0 then
      RoundNear((h + bb + hbp) as real / denom as real, 3);
      Round((h + bb + hbp) as real / denom as real, 3)
    else 0.0
  }

  /** Total bases: every hit counts once, plus one per extra base. */
  function TotalBases(h: int, doubles: int, triples: int, hr: int): (tb: int)
    ensures tb == h + doubles + 2 * triples + 3 * hr
  {
    var singles := h - doubles - triples - hr;
    singles + 2 * doubles + 3 * triples + 4 * hr
  }

  function Slg(h: int, doubles: int, triples: int, hr: int, ab: int): (r: real)
    ensures ab <= 0 ==> r == 0.0
    ensures ab > 0 ==>
      Near(r, (h + doubles + 2 * triples + 3 * hr) as real / ab as real, 3) && OnGrid(r, 3)
  {
    if ab == 0 then 0.0
    else
      var tb := TotalBases(h, doubles, triples, hr);
      if ab > 0 then
        RoundNear(tb as real / ab as real, 3);
        Round(tb as real / ab as real, 3)
      else 0.0
  }

  function Ops(obp: real, slg: real): (r: real)
    ensures Near(r, obp + slg, 3)
  {
    RoundNear(obp + slg, 3);
    Round(obp + slg, 3)
  }

  /** OPS of published OBP and SLG values is their exact sum: both are
    * three-decimal numbers, so rounding their sum changes nothing. */
  lemma OpsOfRounded(obp: real, slg: real)
    requires OnGrid(obp, 3) && OnGrid(slg, 3)
    ensures Ops(obp, slg) == obp + slg
  {
    var a :| obp == GridPoint(a, 3);
    var b :| slg == GridPoint(b, 3);
    assert obp + slg == (a + b) as real * Unit(3);
    RoundOnGrid(a + b, 3);
  }

  const W_BB: real := 0.690
  const W_HBP: real := 0.722
  const W_1B: real := 0.878
  const W_2B: real := 1.242
  const W_3B: real := 1.568
  const W_HR: real := 2.007

  function WobaNumerator(bb: int, hbp: int, singles: int, doubles: int, triples: int, hr: int): real
  {
    W_BB * bb as real + W_HBP * hbp as real + W_1B * singles as real +
    W_2B * doubles as real + W_3B * triples as real + W_HR * hr as real
  }

  /** Only an exactly zero denominator is guarded. */
  function Woba(bb: int, hbp: int, singles: int, doubles: int, triples: int, hr: int, ab: int, sf: int): (r: real)
    ensures ab + bb + sf + hbp == 0 ==> r == 0.0
    ensures ab + bb + sf + hbp != 0 ==>
      Near(r, WobaNumerator(bb, hbp, singles, doubles, triples, hr) / (ab + bb + sf + hbp) as real, 3)
  {
    var denom := ab + bb + sf + hbp;
    if denom == 0 then 0.0
    else
      var x := WobaNumerator(bb, hbp, singles, doubles, triples, hr) / denom as real;
      RoundNear(x, 3);
      Round(x, 3)
  }

  /** A walk is worth less than a single, which is worth less than any
    * extra-base hit: the weights are ordered. */
  lemma WobaWeightsOrdered()
    ensures 0.0 < W_BB < W_HBP < W_1B < W_2B < W_3B < W_HR
  {
  }

  /** Innings in the box-score notation: whole innings, then the extra outs
    * as a tenths digit. */
  function IpFromOuts(outs: int): (r: real)
    ensures r == (outs / 3) as real + (outs % 3) as real / 10.0
  {
    var n := 10 * (outs / 3) + outs % 3;
    assert (outs / 3) as real + (outs % 3) as real / 10.0 == n as real * Unit(1);
    RoundOnGrid(n, 1);
    Round((outs / 3) as real + (outs % 3) as real / 10.0, 1)
  }

  /** Reading the notation back: whole innings and a tenths digit of outs. */
  function OutsFromIp(ip: real): int
  {
    3 * ip.Floor + RoundHalfEven(10.0 * (ip - ip.Floor as real))
  }

  /** The notation loses nothing: the outs can be read back, and the tenths
    * digit is always 0, 1 or 2. */
  lemma IpFromOutsRoundTrip(outs: int)
    ensures OutsFromIp(IpFromOuts(outs)) == outs
    ensures 0.0 <= IpFromOuts(outs) - IpFromOuts(outs).Floor as real <= 0.2
  {
    var q := outs / 3;
    var m := outs % 3;
    var ip := IpFromOuts(outs);
    assert ip == q as real + m as real / 10.0;
    assert q as real <= ip < q as real + 1.0;
    assert ip.Floor == q;
    assert 10.0 * (ip - q as real) == m as real;
    RoundHalfEvenOfInt(m);
  }

  function IpDecimal(outs: int): (ip: real)
    ensures outs > 0 ==> ip * 3.0 == outs as real
    ensures outs <= 0 ==> ip == 0.0
    ensures ip >= 0.0
  {
    if outs > 0 then outs as real / 3.0 else 0.0
  }

  /** `9 * x / (outs / 3)` is `27 * x / outs`. */
  lemma PerNineInnings(x: real, outs: int)
    requires outs > 0
    ensures 9.0 * x / IpDecimal(outs) == 27.0 * x / outs as real
  {
    var ip := IpDecimal(outs);
    var o := outs as real;
    var lhs := 9.0 * x / ip;
    assert lhs * ip == 9.0 * x;
    assert lhs * o == lhs * ip * 3.0;
    assert lhs * o == 27.0 * x;
  }

  /** `x / (outs / 3)` is `3 * x / outs`. */
  lemma PerInning(x: real, outs: int)
    requires outs > 0
    ensures x / IpDecimal(outs) == 3.0 * x / outs as real
  {
    var ip := IpDecimal(outs);
    var lhs := x / ip;
    assert lhs * ip == x;
    assert lhs * outs as real == lhs * ip * 3.0;
  }

  function Era(er: int, outs: int): (r: real)
    ensures outs <= 0 ==> r == 0.0
    ensures outs > 0 ==> Near(r, 27.0 * er as real / outs as real, 2)
  {
    var ip := IpDecimal(outs);
    if ip > 0.0 then
      PerNineInnings(er as real, outs);
      RoundNear(9.0 * er as real / ip, 2);
      Round(9.0 * er as real / ip, 2)
    else 0.0
  }

  function Whip(h: int, bb: int, outs: int): (r: real)
    ensures outs <= 0 ==> r == 0.0
    ensures outs > 0 ==> Near(r, 3.0 * (h + bb) as real / outs as real, 2)
  {
    var ip := IpDecimal(outs);
    if ip > 0.0 then
      PerInning((h + bb) as real, outs);
      RoundNear((h + bb) as real / ip, 2);
      Round((h + bb) as real / ip, 2)
    else 0.0
  }

  const DEFAULT_FIP_CONSTANT: real := 3.10

  /** The FIP numerator: home runs weigh 13, free passes 3, strikeouts -2. */
  function FipNumerator(hr: int, bb: int, hbp: int, so: int): int
  {
    13 * hr + 3 * (bb + hbp) - 2 * so
  }

  function Fip(hr: int, bb: int, hbp: int, so: int, outs: int, constant: real): (r: real)
    ensures outs <= 0 ==> r == 0.0
    ensures outs > 0 ==> Near(r, 3.0 * FipNumerator(hr, bb, hbp, so) as real / outs as real + constant, 2)
  {
    var ip := IpDecimal(outs);
    if ip == 0.0 then 0.0
    else
      var x := FipNumerator(hr, bb, hbp, so) as real / ip + constant;
      PerInning(FipNumerator(hr, bb, hbp, so) as real, outs);
      RoundNear(x, 2);
      Round(x, 2)
  }

  function KPer9(so: int, outs: int): (r: real)
    ensures outs <= 0 ==> r == 0.0
    ensures outs > 0 ==> Near(r, 27.0 * so as real / outs as real, 2)
  {
    var ip := IpDecimal(outs);
    if ip > 0.0 then
      PerNineInnings(so as real, outs);
      RoundNear(9.0 * so as real / ip, 2);
      Round(9.0 * so as real / ip, 2)
    else 0.0
  }

  function BbPer9(bb: int, outs: int): (r: real)
    ensures outs <= 0 ==> r == 0.0
    ensures outs > 0 ==> Near(r, 27.0 * bb as real / outs as real, 2)
  {
    var ip := IpDecimal(outs);
    if ip > 0.0 then
      PerNineInnings(bb as real, outs);
      RoundNear(9.0 * bb as real / ip, 2);
      Round(9.0 * bb as real / ip, 2)
    else 0.0
  }
}
