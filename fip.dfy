/** The shared FIP layer: per-pitcher FIP against a league constant,
  * starter adjustments in rating points, and probability shrinkage. */
module SharedFip {
  import opened Wrappers
  import opened Sums
  import opened Rounding

  /** One row of the season pitching feed; `innings` is the parsed
    * `inningsPitched` field, None when it is missing or empty. */
  datatype Split = Split(id: int, name: string, innings: Option<real>,
                         k: int, bb: int, hbp: int, hr: int, era: real)

  datatype Pitcher = Pitcher(id: int, name: string, ip: real,
                             k: int, bb: int, hbp: int, hr: int, era: real)

  datatype FipEntry = FipEntry(fip: real, ip: real, name: string)

  const DEFAULT_LEAGUE_ERA: real := 4.00

  function SplitIp(s: Split): real
  {
    s.innings.GetOr(0.0)
  }

  /** Pitchers with at least one inning, in feed order. */
  function Qualified(splits: seq<Split>): (ps: seq<Pitcher>)
    ensures |ps| <= |splits|
    ensures forall i :: 0 <= i < |ps| ==> ps[i].ip >= 1.0
  {
    if |splits| == 0 then []
    else
      var s := splits[|splits| - 1];
      var rest := Qualified(splits[..|splits| - 1]);
      if SplitIp(s) < 1.0 then rest
      else rest + [Pitcher(s.id, s.name, SplitIp(s), s.k, s.bb, s.hbp, s.hr, s.era)]
  }

  /** A split is kept exactly when it has an inning or more. */
  lemma QualifiedIds(splits: seq<Split>)
    ensures forall p :: p in Qualified(splits) ==>
      exists s :: s in splits && s.id == p.id && SplitIp(s) == p.ip && SplitIp(s) >= 1.0
    ensures forall s :: s in splits && SplitIp(s) >= 1.0 ==>
      exists p :: p in Qualified(splits) && p.id == s.id && p.ip == SplitIp(s)
  {
    QualifiedSound(splits);
    QualifiedComplete(splits);
  }

  /** The last split's contribution to `Qualified`. */
  lemma QualifiedSnoc(splits: seq<Split>)
    requires |splits| > 0
    ensures var s := splits[|splits| - 1];
      Qualified(splits) == Qualified(splits[..|splits| - 1]) +
        (if SplitIp(s) < 1.0 then [] else [Pitcher(s.id, s.name, SplitIp(s), s.k, s.bb, s.hbp, s.hr, s.era)])
  {
    var s := splits[|splits| - 1];
    if SplitIp(s) < 1.0 {
      assert Qualified(splits[..|splits| - 1]) + [] == Qualified(splits[..|splits| - 1]);
    }
  }

  lemma {:induction false} QualifiedSound(splits: seq<Split>)
    ensures forall p :: p in Qualified(splits) ==>
      exists s :: s in splits && s.id == p.id && SplitIp(s) == p.ip && SplitIp(s) >= 1.0
    decreases |splits|
  {
    if |splits| > 0 {
      var init := splits[..|splits| - 1];
      var last := splits[|splits| - 1];
      QualifiedSound(init);
      QualifiedSnoc(splits);
      forall p | p in Qualified(splits)
        ensures exists s :: s in splits && s.id == p.id && SplitIp(s) == p.ip && SplitIp(s) >= 1.0
      {
        if p in Qualified(init) {
          var s :| s in init && s.id == p.id && SplitIp(s) == p.ip && SplitIp(s) >= 1.0;
          assert s in splits;
        } else {
          assert last in splits;
        }
      }
    }
  }

  lemma {:induction false} QualifiedComplete(splits: seq<Split>)
    ensures forall s :: s in splits && SplitIp(s) >= 1.0 ==>
      exists p :: p in Qualified(splits) && p.id == s.id && p.ip == SplitIp(s)
    decreases |splits|
  {
    if |splits| > 0 {
      var init := splits[..|splits| - 1];
      QualifiedComplete(init);
      QualifiedSnoc(splits);
      assert splits == init + [splits[|splits| - 1]];
      forall s | s in splits && SplitIp(s) >= 1.0
        ensures exists p :: p in Qualified(splits) && p.id == s.id && p.ip == SplitIp(s)
      {
        if s in init {
          var p :| p in Qualified(init) && p.id == s.id && p.ip == SplitIp(s);
          assert p in Qualified(splits);
        } else {
          var p := Pitcher(s.id, s.name, SplitIp(s), s.k, s.bb, s.hbp, s.hr, s.era);
          assert p in Qualified(splits);
        }
      }
    }
  }

  /** The parsing loop keeps the qualified pitchers. */
  method CollectPitchers(splits: seq<Split>) returns (ps: seq<Pitcher>)
    ensures ps == Qualified(splits)
  {
    ps := [];
    var i := 0;
    while i < |splits|
      invariant 0 <= i <= |splits|
      invariant ps == Qualified(splits[..i])
    {
      var s := splits[i];
      assert splits[..i + 1][..i] == splits[..i];
      var ip := SplitIp(s);
      if ip >= 1.0 {
        ps := ps + [Pitcher(s.id, s.name, ip, s.k, s.bb, s.hbp, s.hr, s.era)];
      }
      i := i + 1;
    }
    assert splits[..i] == splits;
  }

  function FipNumerator(p: Pitcher): int
  {
    13 * p.hr + 3 * (p.bb + p.hbp) - 2 * p.k
  }

  function Ip(p: Pitcher): real { p.ip }
  function EarnedRuns(p: Pitcher): real { p.era * p.ip / 9.0 }
  function Numerator(p: Pitcher): real { FipNumerator(p) as real }

  function TotalIp(ps: seq<Pitcher>): real { SumOf(ps, Ip) }

  function LeagueEra(ps: seq<Pitcher>): real
  {
    var total := TotalIp(ps);
    if total > 0.0 then SumOf(ps, EarnedRuns) * 9.0 / total else DEFAULT_LEAGUE_ERA
  }

  /** The league constant and league FIP as the shared layer computes them:
    * the league component divides by total innings with no guard, so an
    * empty pitcher list fails although the ERA line above it is guarded. */
  function LeagueFipAsWritten(ps: seq<Pitcher>): (r: Result<(real, real)>)
    ensures r.Ok? <==> TotalIp(ps) != 0.0
    ensures r.Ok? ==> r.value.1 == LeagueEra(ps)
  {
    var total := TotalIp(ps);
    if total == 0.0 then Err("division by zero")
    else
      var component := SumOf(ps, Numerator) / total;
      var cfip := LeagueEra(ps) - component;
      Ok((cfip, cfip + component))
  }

  /** With no qualified pitcher the ERA fallback is never reached. */
  lemma NoPitchersFails()
    ensures LeagueFipAsWritten([]).Err?
    ensures LeagueEra([]) == DEFAULT_LEAGUE_ERA
  {
  }

  /** The component, guarded as the ERA is: an empty league has FIP 4.00. */
  function LeagueComponent(ps: seq<Pitcher>): real
  {
    var total := TotalIp(ps);
    if total > 0.0 then SumOf(ps, Numerator) / total else 0.0
  }

  function FipConstant(ps: seq<Pitcher>): real
  {
    LeagueEra(ps) - LeagueComponent(ps)
  }

  /** League FIP is league ERA, by construction of the constant. */
  function LeagueFip(ps: seq<Pitcher>): (lg: real)
    ensures lg == LeagueEra(ps)
    ensures ps == [] ==> lg == DEFAULT_LEAGUE_ERA
  {
    FipConstant(ps) + LeagueComponent(ps)
  }

  /** Where the written code succeeds, the guarded one agrees with it. */
  lemma LeagueFipAgrees(ps: seq<Pitcher>)
    requires forall i :: 0 <= i < |ps| ==> ps[i].ip >= 1.0
    requires |ps| > 0
    ensures LeagueFipAsWritten(ps) == Ok((FipConstant(ps), LeagueFip(ps)))
  {
    TotalIpPositive(ps);
  }

  lemma TotalIpPositive(ps: seq<Pitcher>)
    requires forall i :: 0 <= i < |ps| ==> ps[i].ip >= 1.0
    requires |ps| > 0
    ensures TotalIp(ps) >= 1.0
  {
    SumOfNonNegative(ps[..|ps| - 1], Ip);
  }

  /** A pitcher's unrounded FIP. */
  function RawFip(p: Pitcher, cfip: real): real
    requires p.ip != 0.0
  {
    FipNumerator(p) as real / p.ip + cfip
  }

  /** Innings times FIP with the division cancelled: numerator + constant * innings. */
  function IpTimesFip(cfip: real): Pitcher -> real
  {
    (p: Pitcher) => Numerator(p) + cfip * p.ip
  }

  lemma DivTimes(a: real, b: real)
    requires b != 0.0
    ensures (a / b) * b == a
  {
  }

  /** Innings times a pitcher's unrounded FIP cancels the division. */
  lemma IpTimesRawFip(p: Pitcher, cfip: real)
    requires p.ip != 0.0
    ensures p.ip * RawFip(p, cfip) == IpTimesFip(cfip)(p)
  {
    DivTimes(FipNumerator(p) as real, p.ip);
    assert p.ip * RawFip(p, cfip) == (FipNumerator(p) as real / p.ip) * p.ip + cfip * p.ip;
  }

  /** For any constant, summing innings times FIP gives
    * (constant + league component) * total innings. */
  lemma WeightedSum(ps: seq<Pitcher>, cfip: real)
    requires TotalIp(ps) > 0.0
    ensures SumOf(ps, IpTimesFip(cfip)) == (cfip + LeagueComponent(ps)) * TotalIp(ps)
  {
    SumOfLinear(ps, Numerator, Ip, IpTimesFip(cfip), 1.0, cfip);
    ComponentTimesTotal(ps);
    WeightedArith(SumOf(ps, IpTimesFip(cfip)), SumOf(ps, Numerator), cfip, LeagueComponent(ps), TotalIp(ps));
  }

  /** Summing innings times FIP over the league gives league FIP times
    * total innings: the IP-weighted mean of the unrounded individual FIPs
    * is league FIP, which the constant makes equal to league ERA. */
  lemma WeightedMeanIsLeagueFip(ps: seq<Pitcher>)
    requires TotalIp(ps) > 0.0
    ensures SumOf(ps, IpTimesFip(FipConstant(ps))) == LeagueFip(ps) * TotalIp(ps)
  {
    WeightedSum(ps, FipConstant(ps));
    assert LeagueFip(ps) == FipConstant(ps) + LeagueComponent(ps);
  }

  lemma ComponentTimesTotal(ps: seq<Pitcher>)
    requires TotalIp(ps) > 0.0
    ensures LeagueComponent(ps) * TotalIp(ps) == SumOf(ps, Numerator)
  {
    DivTimes(SumOf(ps, Numerator), TotalIp(ps));
  }

  lemma WeightedArith(w: real, n: real, cfip: real, comp: real, total: real)
    requires w == n + cfip * total && comp * total == n
    ensures w == (cfip + comp) * total
  {
  }

  lemma Distribute(a: real, b: real, c: real)
    ensures (a + b) * c == a * c + b * c
  {
  }

  /** The published table: id to FIP rounded to three decimals; a later
    * pitcher with the same id replaces an earlier one. */
  function FipTable(ps: seq<Pitcher>, cfip: real): (t: map<int, FipEntry>)
    requires forall i :: 0 <= i < |ps| ==> ps[i].ip >= 1.0
    ensures forall i :: 0 <= i < |ps| ==> ps[i].id in t
    ensures forall id :: id in t ==> exists i :: 0 <= i < |ps| && ps[i].id == id
  {
    if |ps| == 0 then map[]
    else
      var p := ps[|ps| - 1];
      var t := FipTable(ps[..|ps| - 1], cfip);
      assert forall i :: 0 <= i < |ps| - 1 ==> ps[..|ps| - 1][i] == ps[i];
      t[p.id := FipEntry(Round(RawFip(p, cfip), 3), p.ip, p.name)]
  }

  /** Each entry carries the last listed pitcher with that id, its FIP
    * within half a thousandth of the unrounded value. */
  lemma {:induction false} FipTableEntry(ps: seq<Pitcher>, cfip: real, i: nat)
    requires forall j :: 0 <= j < |ps| ==> ps[j].ip >= 1.0
    requires i < |ps| && forall j :: i < j < |ps| ==> ps[j].id != ps[i].id
    ensures FipTable(ps, cfip)[ps[i].id].ip == ps[i].ip
    ensures FipTable(ps, cfip)[ps[i].id].name == ps[i].name
    ensures -0.0005 <= FipTable(ps, cfip)[ps[i].id].fip - RawFip(ps[i], cfip) <= 0.0005
    decreases |ps|
  {
    RoundError(RawFip(ps[i], cfip), 3);
    if i < |ps| - 1 {
      FipTableEntry(ps[..|ps| - 1], cfip, i);
    }
  }

  method BuildFipTable(ps: seq<Pitcher>, cfip: real) returns (t: map<int, FipEntry>)
    requires forall i :: 0 <= i < |ps| ==> ps[i].ip >= 1.0
    ensures t == FipTable(ps, cfip)
  {
    t := map[];
    var i := 0;
    while i < |ps|
      invariant 0 <= i <= |ps|
      invariant t == FipTable(ps[..i], cfip)
    {
      var p := ps[i];
      assert ps[..i + 1][..i] == ps[..i];
      t := t[p.id := FipEntry(Round(FipNumerator(p) as real / p.ip + cfip, 3), p.ip, p.name)];
      i := i + 1;
    }
    assert ps[..i] == ps;
  }

  /** The whole computation over a fetched feed, failing as written when no
    * pitcher qualifies. */
  method FetchPitcherFip(splits: seq<Split>) returns (r: Result<(map<int, FipEntry>, real)>)
    ensures r.Err? <==> Qualified(splits) == []
    ensures r.Ok? ==> r.value.0 == FipTable(Qualified(splits), FipConstant(Qualified(splits)))
    ensures r.Ok? ==> r.value.1 == LeagueEra(Qualified(splits))
  {
    var ps := CollectPitchers(splits);
    if |ps| > 0 {
      TotalIpPositive(ps);
      LeagueFipAgrees(ps);
    }
    var league := LeagueFipAsWritten(ps);
    if league.Err? {
      return Err(league.error);
    }
    var (cfip, lgFip) := league.value;
    var table := BuildFipTable(ps, cfip);
    r := Ok((table, lgFip));
  }

  /** A pitcher id counts only if it is truthy and in the table. */
  predicate Known(id: Option<int>, table: map<int, FipEntry>)
  {
    id.Some? && id.value != 0 && id.value in table
  }

  function StarterFip(id: Option<int>, table: map<int, FipEntry>, lgFip: real): real
  {
    if Known(id, table) then table[id.value].fip else lgFip
  }

  /** Rating points for each starter: (league FIP - starter FIP) * weight. */
  function FipAdjustment(home: Option<int>, away: Option<int>, table: map<int, FipEntry>,
                         lgFip: real, weight: real): (r: (real, real))
    ensures !Known(home, table) ==> r.0 == 0.0
    ensures !Known(away, table) ==> r.1 == 0.0
    ensures Known(home, table) ==> r.0 == (lgFip - table[home.value].fip) * weight
    ensures Known(away, table) ==> r.1 == (lgFip - table[away.value].fip) * weight
  {
    ((lgFip - StarterFip(home, table, lgFip)) * weight,
     (lgFip - StarterFip(away, table, lgFip)) * weight)
  }

  /** A better-than-league starter earns a bonus, a worse one a penalty. */
  lemma FipAdjustmentSign(home: Option<int>, table: map<int, FipEntry>, lgFip: real, weight: real)
    requires weight > 0.0 && Known(home, table)
    ensures FipAdjustment(home, None, table, lgFip, weight).0 > 0.0 <==> table[home.value].fip < lgFip
    ensures FipAdjustment(home, None, table, lgFip, weight).0 < 0.0 <==> table[home.value].fip > lgFip
  {
    var d := lgFip - table[home.value].fip;
    if d > 0.0 { assert d * weight > 0.0; }
    else if d < 0.0 { assert (-d) * weight > 0.0; }
  }

  lemma MulNonNegative(a: real, b: real)
    requires a >= 0.0 && b >= 0.0
    ensures a * b >= 0.0
  {
  }

  lemma MulPositive(a: real, b: real)
    requires a > 0.0 && b > 0.0
    ensures a * b > 0.0
  {
  }

  /** Pull a probability toward one half by `s`. */
  function Shrink(s: real, p: real): (q: real)
    ensures 0.0 <= s < 0.5 && 0.0 <= p <= 1.0 ==> s <= q <= 1.0 - s
  {
    ShrinkBounds(s, p);
    s + (1.0 - 2.0 * s) * p
  }

  lemma ShrinkBounds(s: real, p: real)
    ensures 0.0 <= s < 0.5 && 0.0 <= p <= 1.0 ==> s <= s + (1.0 - 2.0 * s) * p <= 1.0 - s
  {
    if 0.0 <= s < 0.5 && 0.0 <= p <= 1.0 {
      MulNonNegative(1.0 - 2.0 * s, p);
      MulNonNegative(1.0 - 2.0 * s, 1.0 - p);
    }
  }

  const PROB_SHRINKAGE: real := 0.16

  /** Shrinkage keeps order, fixes one half, and treats the two sides alike. */
  lemma ShrinkSymmetric(s: real, p: real)
    ensures Shrink(s, 0.5) == 0.5
    ensures Shrink(s, 1.0 - p) == 1.0 - Shrink(s, p)
  {
  }

  lemma ShrinkMonotone(s: real, p: real, p2: real)
    requires 0.0 <= s < 0.5 && p < p2
    ensures Shrink(s, p) < Shrink(s, p2)
  {
    var c := 1.0 - 2.0 * s;
    var d := p2 - p;
    MulPositive(c, d);
    ShrinkDifference(s, p, p2);
    assert Shrink(s, p2) - Shrink(s, p) == c * d;
  }

  lemma ShrinkDifference(s: real, p: real, p2: real)
    ensures Shrink(s, p2) - Shrink(s, p) == (1.0 - 2.0 * s) * (p2 - p)
  {
  }

  lemma ShrinkExamples()
    ensures Shrink(PROB_SHRINKAGE, 0.70) == 0.636
    ensures Shrink(PROB_SHRINKAGE, 0.30) == 0.364
    ensures Shrink(PROB_SHRINKAGE, 0.50) == 0.50
  {
  }
}
