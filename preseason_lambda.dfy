/** The preseason-adjustment lambda: a simplified WAR per player from the MLB
  * Stats API's bulk hitting and pitching lines (wOBA for batters, FIP for
  * pitchers), averaged over recent seasons; the offseason's roster moves
  * turned into a net WAR and an Elo shift per club; and the shift applied to
  * the end-of-season ratings, always starting again from the raw backup. */
module PreseasonLambda {
  import opened Wrappers
  import opened Sums
  import opened Folds
  import opened Rounding
  import opened PairTables
  import opened Transactions
  import Sorting
  import Weighted
  import Injury
  import EloCompute

  const WAR_TO_ELO_DEFAULT: real := 5.5
  const WAR_YEARS_DEFAULT: nat := 3

  const WOBA_BB: real := 0.69
  const WOBA_HBP: real := 0.72
  const WOBA_1B: real := 0.89
  const WOBA_2B: real := 1.27
  const WOBA_3B: real := 1.62
  const WOBA_HR: real := 2.10
  const WOBA_SCALE: real := 1.15
  const RUNS_PER_WIN: real := 10.0
  const REPLACEMENT_RUNS_PER_600PA: real := 20.0
  const REPLACEMENT_FIP: real := 5.5

  /** League wOBA when no batter qualifies, and league ERA when no pitcher does. */
  const DEFAULT_LG_WOBA: real := 0.320
  const DEFAULT_LG_ERA: real := 4.0

  /** The WAR a side without a line gets before the per-season maximum. */
  const ABSENT_WAR: real := -999.0

  /** `range(prior - years + 1, prior + 1)`: the seasons WAR is averaged over. */
  function WarSeasons(prior: int, years: int): (ss: seq<int>)
    ensures years >= 0 ==> |ss| == years
    ensures years <= 0 ==> ss == []
    ensures forall i :: 0 <= i < |ss| ==> ss[i] == prior - |ss| + 1 + i
  {
    if years <= 0 then [] else seq(years, i requires 0 <= i < years => prior - years + 1 + i)
  }

  // Batting WAR.

  /** One hitting split; a missing counting stat is 0. */
  datatype BatLine = BatLine(
    id: int, name: string, pa: int, ab: int, h: int, doubles: int, triples: int,
    hr: int, bb: int, ibb: int, hbp: int, sf: int)

  /** A batter kept for the league totals: plate appearances and the wOBA
    * numerator and denominator. */
  datatype Batter = Batter(id: int, name: string, pa: int, num: real, denom: real)

  function WobaNumerator(s: BatLine): real
  {
    var singles := s.h - s.doubles - s.triples - s.hr;
    WOBA_BB * (s.bb - s.ibb) as real + WOBA_HBP * s.hbp as real + WOBA_1B * singles as real +
    WOBA_2B * s.doubles as real + WOBA_3B * s.triples as real + WOBA_HR * s.hr as real
  }

  function WobaDenominator(s: BatLine): int
  {
    s.ab + s.bb + s.sf + s.hbp
  }

  /** A split is kept when it has a plate appearance and a positive wOBA
    * denominator. */
  function BatterOf(s: BatLine): (b: Option<Batter>)
    ensures b.Some? <==> s.pa >= 1 && WobaDenominator(s) > 0
    ensures b.Some? ==> b.value.id == s.id && b.value.pa == s.pa && b.value.denom > 0.0
  {
    if s.pa < 1 then None
    else if WobaDenominator(s) > 0 then
      Some(Batter(s.id, s.name, s.pa, WobaNumerator(s), WobaDenominator(s) as real))
    else None
  }

  function Batters(splits: seq<BatLine>): seq<Batter>
  {
    FilterMap(BatterOf, splits)
  }

  predicate Qualified(b: Batter)
  {
    b.pa >= 1 && b.denom > 0.0
  }

  lemma {:induction false} BattersQualified(splits: seq<BatLine>)
    ensures forall i :: 0 <= i < |Batters(splits)| ==> Qualified(Batters(splits)[i])
  {
    forall i | 0 <= i < |Batters(splits)| ensures Qualified(Batters(splits)[i]) {
      FilterMapFrom(BatterOf, splits, i);
    }
  }

  function Num(b: Batter): real { b.num }
  function Denom(b: Batter): real { b.denom }

  /** `lg_num / lg_denom`, or .320 when nothing was summed. */
  function LeagueWoba(bs: seq<Batter>): real
  {
    var d := SumOf(bs, Denom);
    if d > 0.0 then SumOf(bs, Num) / d else DEFAULT_LG_WOBA
  }

  function Woba(b: Batter): real
    requires b.denom > 0.0
  {
    b.num / b.denom
  }

  /** Runs above average over the batter's plate appearances, plus 20 runs
    * per 600 of them for replacement level, in wins. */
  function BattingRaw(b: Batter, lg: real): real
    requires b.denom > 0.0
  {
    ((Woba(b) - lg) / WOBA_SCALE * b.pa as real + REPLACEMENT_RUNS_PER_600PA * (b.pa as real / 600.0)) / RUNS_PER_WIN
  }

  function BatterId(b: Batter): int { b.id }

  /** A kept batter's WAR, rounded to two places (every kept batter has a
    * positive denominator). */
  function BattingVal(lg: real): Batter -> real
  {
    (b: Batter) => if b.denom > 0.0 then Round(BattingRaw(b, lg), 2) else 0.0
  }

  predicate Always<R>(r: R) { true }

  /** `war_dict`: each kept batter's rounded WAR, a later split of the same
    * id overwriting an earlier one. */
  function BattingTable(bs: seq<Batter>, lg: real): map<int, real>
  {
    PairsToMap(Keyed(bs, Always, BatterId, BattingVal(lg)))
  }

  /** The batting WAR table of a season's splits. */
  function BattingWar(splits: seq<BatLine>): (war: map<int, real>)
    ensures war.Keys == set i | 0 <= i < |Batters(splits)| :: Batters(splits)[i].id
  {
    KeyedKeys(Batters(splits), BatterId, BattingVal(LeagueWoba(Batters(splits))));
    BattingTable(Batters(splits), LeagueWoba(Batters(splits)))
  }

  lemma KeyedKeys<R, K, V>(rows: seq<R>, key: R -> K, val: R -> V)
    ensures PairsToMap(Keyed(rows, Always, key, val)).Keys == set i | 0 <= i < |rows| :: key(rows[i])
  {
    forall k ensures k in PairsToMap(Keyed(rows, Always, key, val)) <==> exists i :: 0 <= i < |rows| && key(rows[i]) == k {
      KeyedMembers(rows, Always, key, val, k);
    }
  }

  /** With no qualifying batter the league wOBA is .320; otherwise it is the
    * batters' denominator-weighted mean wOBA, so it lies between the lowest
    * and the highest individual wOBA. */
  lemma LeagueWobaBetween(bs: seq<Batter>, lo: real, hi: real)
    requires forall i :: 0 <= i < |bs| ==> Qualified(bs[i]) && lo <= Woba(bs[i]) <= hi
    ensures bs == [] ==> LeagueWoba(bs) == DEFAULT_LG_WOBA
    ensures bs != [] ==> lo <= LeagueWoba(bs) <= hi
  {
    if bs != [] {
      var rs := seq(|bs|, i requires 0 <= i < |bs| => Weighted.Rated(Woba(bs[i]), bs[i].denom));
      forall i | 0 <= i < |bs| ensures Weighted.Product(rs[i]) == Num(bs[i]) && Weighted.Weight(rs[i]) == Denom(bs[i]) {
        assert Woba(bs[i]) * bs[i].denom == bs[i].num;
      }
      SameSums(bs, rs);
      assert SumOf(bs, Denom) > 0.0 by {
        PositiveSum(bs);
      }
      Weighted.MeanBetween(rs, lo, hi);
    }
  }

  lemma {:induction false} SameSums(bs: seq<Batter>, rs: seq<Weighted.Rated>)
    requires |rs| == |bs|
    requires forall i :: 0 <= i < |bs| ==> Weighted.Product(rs[i]) == Num(bs[i]) && Weighted.Weight(rs[i]) == Denom(bs[i])
    ensures Weighted.WeightedTotal(rs) == SumOf(bs, Num) && Weighted.TotalWeight(rs) == SumOf(bs, Denom)
    ensures Weighted.NonNegativeWeights(rs) <== forall i :: 0 <= i < |bs| ==> Qualified(bs[i])
    decreases |bs|
  {
    if |bs| > 0 {
      var n := |bs| - 1;
      SameSums(bs[..n], rs[..n]);
    }
  }

  lemma {:induction false} PositiveSum(bs: seq<Batter>)
    requires |bs| > 0 && forall i :: 0 <= i < |bs| ==> Qualified(bs[i])
    ensures SumOf(bs, Denom) > 0.0
    decreases |bs|
  {
    var n := |bs| - 1;
    if n > 0 {
      PositiveSum(bs[..n]);
    } else {
      assert bs[..n] == [];
    }
  }

  /** A batter hitting exactly the league wOBA is worth two wins per 600
    * plate appearances (the replacement allowance); above league average is
    * worth more, at the rate of one run per 1.15 points of wOBA per plate
    * appearance; and the batting WAR is positive exactly when the wOBA beats
    * the league by more than -1.15/30. */
  lemma BattingRawFacts(b: Batter, c: Batter, lg: real)
    requires Qualified(b) && Qualified(c) && b.pa == c.pa
    ensures Woba(b) == lg ==> BattingRaw(b, lg) == b.pa as real / 300.0
    ensures Woba(b) < Woba(c) ==> BattingRaw(b, lg) < BattingRaw(c, lg)
    ensures BattingRaw(b, lg) > 0.0 <==> Woba(b) > lg - WOBA_SCALE / 30.0
  {
    var p := b.pa as real;
    var x := (Woba(b) - lg) / WOBA_SCALE + 1.0 / 30.0;
    assert BattingRaw(b, lg) == p / 10.0 * x;
    assert BattingRaw(c, lg) == p / 10.0 * ((Woba(c) - lg) / WOBA_SCALE + 1.0 / 30.0);
    assert p / 10.0 > 0.0;
    assert x > 0.0 <==> Woba(b) > lg - WOBA_SCALE / 30.0;
    PositiveProduct(p / 10.0, x);
  }

  lemma PositiveProduct(a: real, x: real)
    requires a > 0.0
    ensures a * x > 0.0 <==> x > 0.0
  {
  }

  /** The rounded WAR is within half a hundredth of the raw value. */
  lemma BattingWarNear(b: Batter, lg: real)
    requires Qualified(b)
    ensures -0.005 <= Round(BattingRaw(b, lg), 2) - BattingRaw(b, lg) <= 0.005
  {
    RoundError(BattingRaw(b, lg), 2);
  }

  /** The first loop of `fetch_batting_war`: the kept batters and the
    * league's wOBA numerator and denominator. */
  method BattingTotals(splits: seq<BatLine>) returns (players: seq<Batter>, lgNum: real, lgDenom: real)
    ensures players == Batters(splits)
    ensures lgNum == SumOf(players, Num) && lgDenom == SumOf(players, Denom)
  {
    lgNum, lgDenom := 0.0, 0.0;
    players := [];
    var i := 0;
    while i < |splits|
      invariant 0 <= i <= |splits|
      invariant players == FilterMap(BatterOf, splits[..i])
      invariant lgNum == SumOf(players, Num) && lgDenom == SumOf(players, Denom)
    {
      FilterMapStep(BatterOf, splits, i);
      var b := BatterOf(splits[i]);
      if b.Some? {
        assert (players + [b.value])[..|players|] == players;
        lgNum := lgNum + b.value.num;
        lgDenom := lgDenom + b.value.denom;
        players := players + [b.value];
      }
      i := i + 1;
    }
    assert splits[..|splits|] == splits;
  }

  /** A loop that stores `val(r)` under `key(r)` for every row, later rows
    * overwriting earlier ones. */
  method StoreAll<R>(rows: seq<R>, key: R -> int, val: R -> real) returns (m: map<int, real>)
    ensures m == PairsToMap(Keyed(rows, Always, key, val))
  {
    m := map[];
    var j := 0;
    while j < |rows|
      invariant 0 <= j <= |rows|
      invariant m == PairsToMap(Keyed(rows[..j], Always, key, val))
    {
      KeyedStep(rows, j, Always, key, val);
      m := m[key(rows[j]) := val(rows[j])];
      j := j + 1;
    }
    assert rows[..|rows|] == rows;
  }

  /** `fetch_batting_war` after the request: the league totals, then each
    * kept batter's WAR against the league wOBA. */
  method FetchBattingWar(splits: seq<BatLine>) returns (war: map<int, real>)
    ensures war == BattingWar(splits)
  {
    var players, lgNum, lgDenom := BattingTotals(splits);
    var lg := if lgDenom > 0.0 then lgNum / lgDenom else DEFAULT_LG_WOBA;
    assert lg == LeagueWoba(players);
    war := StoreAll(players, BatterId, BattingVal(lg));
  }

  // Pitching WAR.

  /** One pitching split, with `inningsPitched` already read as a number. */
  datatype PitchLine = PitchLine(id: int, name: string, ip: real, hr: int, bb: int, hbp: int, k: int, era: real)

  /** A split is kept when it reaches one inning. */
  function PitcherOf(s: PitchLine): (p: Option<PitchLine>)
    ensures p.Some? <==> s.ip >= 1.0
    ensures p.Some? ==> p.value == s
  {
    if s.ip < 1.0 then None else Some(s)
  }

  function Pitchers(splits: seq<PitchLine>): seq<PitchLine>
  {
    FilterMap(PitcherOf, splits)
  }

  lemma {:induction false} PitchersQualified(splits: seq<PitchLine>)
    ensures forall i :: 0 <= i < |Pitchers(splits)| ==> Pitchers(splits)[i].ip >= 1.0
  {
    forall i | 0 <= i < |Pitchers(splits)| ensures Pitchers(splits)[i].ip >= 1.0 {
      FilterMapFrom(PitcherOf, splits, i);
    }
  }

  function Ip(p: PitchLine): real { p.ip }
  function Hr(p: PitchLine): int { p.hr }
  function Bb(p: PitchLine): int { p.bb }
  function Hbp(p: PitchLine): int { p.hbp }
  function K(p: PitchLine): int { p.k }

  /** Earned runs implied by the ERA over the innings. */
  function Er(p: PitchLine): real { p.era * p.ip / 9.0 }

  /** The FIP numerator, 13 HR + 3 (BB + HBP) - 2 K. */
  function FipEvents(hr: int, bb: int, hbp: int, k: int): int
  {
    13 * hr + 3 * (bb + hbp) - 2 * k
  }

  function Events(p: PitchLine): int { FipEvents(p.hr, p.bb, p.hbp, p.k) }

  /** The league's FIP numerator from its four totals, as the source forms it. */
  function LeagueEvents(ps: seq<PitchLine>): int
  {
    FipEvents(IntSumOf(ps, Hr), IntSumOf(ps, Bb), IntSumOf(ps, Hbp), IntSumOf(ps, K))
  }

  /** `total_er * 9 / total_ip`, or 4.0 when there are no innings. */
  function LeagueEra(ps: seq<PitchLine>): real
  {
    var ip := SumOf(ps, Ip);
    if ip > 0.0 then SumOf(ps, Er) * 9.0 / ip else DEFAULT_LG_ERA
  }

  /** The FIP constant as the source computes it: the division by the
    * league's innings is not guarded, so a season in which no pitcher
    * reaches one inning fails. */
  function CfipAsWritten(ps: seq<PitchLine>): (r: Result<real>)
    ensures r.Ok? <==> SumOf(ps, Ip) != 0.0
  {
    var ip := SumOf(ps, Ip);
    if ip == 0.0 then Err("division by zero")
    else Ok(LeagueEra(ps) - LeagueEvents(ps) as real / ip)
  }

  function Fip(p: PitchLine, cfip: real): real
    requires p.ip > 0.0
  {
    Events(p) as real / p.ip + cfip
  }

  /** Runs saved against a replacement FIP of 5.5 over the innings, in wins. */
  function PitchingRaw(p: PitchLine, cfip: real): real
    requires p.ip > 0.0
  {
    (REPLACEMENT_FIP - Fip(p, cfip)) * (p.ip / 9.0) / RUNS_PER_WIN
  }

  function PitcherId(p: PitchLine): int { p.id }

  function PitchingVal(cfip: real): PitchLine -> real
  {
    (p: PitchLine) => if p.ip > 0.0 then Round(PitchingRaw(p, cfip), 2) else 0.0
  }

  function PitchingTable(ps: seq<PitchLine>, cfip: real): map<int, real>
  {
    PairsToMap(Keyed(ps, Always, PitcherId, PitchingVal(cfip)))
  }

  /** The pitching WAR table as the source computes it, failing with no
    * qualifying pitcher. */
  function PitchingWarAsWritten(splits: seq<PitchLine>): (r: Result<map<int, real>>)
  {
    var ps := Pitchers(splits);
    match CfipAsWritten(ps)
    case Err(e) => Err(e)
    case Ok(c) => Ok(PitchingTable(ps, c))
  }

  /** The pitching WAR table with the constant computed only when some
    * pitcher qualifies: an empty table otherwise. */
  function PitchingWar(splits: seq<PitchLine>): (war: map<int, real>)
    ensures war.Keys == set i | 0 <= i < |Pitchers(splits)| :: Pitchers(splits)[i].id
  {
    var ps := Pitchers(splits);
    if ps == [] then map[]
    else
      PitchersQualified(splits);
      InningsPositive(ps);
      var c := CfipAsWritten(ps).value;
      KeyedKeys(ps, PitcherId, PitchingVal(c));
      PitchingTable(ps, c)
  }

  lemma {:induction false} InningsPositive(ps: seq<PitchLine>)
    requires forall i :: 0 <= i < |ps| ==> ps[i].ip >= 1.0
    ensures ps != [] ==> SumOf(ps, Ip) >= 1.0
    ensures ps == [] ==> SumOf(ps, Ip) == 0.0
    decreases |ps|
  {
    if ps != [] {
      var n := |ps| - 1;
      InningsPositive(ps[..n]);
    }
  }

  /** The source's table fails exactly when no pitcher reaches one inning;
    * otherwise it is the guarded table. The guarded table never fails, and
    * is empty in that case. */
  lemma PitchingWarGuarded(splits: seq<PitchLine>)
    ensures PitchingWarAsWritten(splits).Err? <==> Pitchers(splits) == []
    ensures PitchingWarAsWritten(splits).Ok? ==> PitchingWarAsWritten(splits).value == PitchingWar(splits)
    ensures Pitchers(splits) == [] ==> PitchingWar(splits) == map[]
  {
    PitchersQualified(splits);
    InningsPositive(Pitchers(splits));
  }

  /** A split list with a single short outing, for which the source's
    * table fails. */
  lemma ShortOutingFails()
    ensures PitchingWarAsWritten([PitchLine(1, "", 0.2, 0, 1, 0, 0, 0.0)]).Err?
    ensures PitchingWar([PitchLine(1, "", 0.2, 0, 1, 0, 0, 0.0)]) == map[]
  {
    var splits := [PitchLine(1, "", 0.2, 0, 1, 0, 0, 0.0)];
    FilterMapStep(PitcherOf, splits, 0);
    assert splits[..1] == splits;
    PitchingWarGuarded(splits);
  }

  function IpTimesFip(cfip: real): PitchLine -> real
  {
    (p: PitchLine) => if p.ip > 0.0 then p.ip * Fip(p, cfip) else 0.0
  }

  function IpTimesEra(p: PitchLine): real { p.ip * p.era }

  function EventsReal(p: PitchLine): real { Events(p) as real }

  lemma {:induction false} EventsSum(ps: seq<PitchLine>)
    ensures SumOf(ps, EventsReal) == LeagueEvents(ps) as real
    decreases |ps|
  {
    if |ps| > 0 {
      EventsSum(ps[..|ps| - 1]);
    }
  }

  /** The FIP constant centres the scale: the innings-weighted mean of the
    * pitchers' FIPs equals their innings-weighted mean ERA, the league ERA. */
  lemma CfipCentresFip(splits: seq<PitchLine>)
    requires Pitchers(splits) != []
    ensures CfipAsWritten(Pitchers(splits)).Ok?
    ensures SumOf(Pitchers(splits), IpTimesFip(CfipAsWritten(Pitchers(splits)).value)) ==
      LeagueEra(Pitchers(splits)) * SumOf(Pitchers(splits), Ip)
    ensures LeagueEra(Pitchers(splits)) * SumOf(Pitchers(splits), Ip) == SumOf(Pitchers(splits), IpTimesEra)
  {
    PitchersQualified(splits);
    CentredOn(Pitchers(splits));
  }

  lemma CentredOn(ps: seq<PitchLine>)
    requires ps != [] && forall i :: 0 <= i < |ps| ==> ps[i].ip >= 1.0
    ensures CfipAsWritten(ps).Ok?
    ensures SumOf(ps, IpTimesFip(CfipAsWritten(ps).value)) == LeagueEra(ps) * SumOf(ps, Ip)
    ensures LeagueEra(ps) * SumOf(ps, Ip) == SumOf(ps, IpTimesEra)
  {
    InningsPositive(ps);
    FipCentred(ps);
    EraTimesInnings(ps);
    EraSum(ps);
  }

  /** Weighted by innings, the pitchers' FIPs sum to the league ERA times the
    * league's innings. */
  lemma FipCentred(ps: seq<PitchLine>)
    requires SumOf(ps, Ip) > 0.0 && forall i :: 0 <= i < |ps| ==> ps[i].ip > 0.0
    ensures CfipAsWritten(ps).Ok?
    ensures SumOf(ps, IpTimesFip(CfipAsWritten(ps).value)) == LeagueEra(ps) * SumOf(ps, Ip)
  {
    CfipValue(ps);
    FipCentredAt(ps, CfipAsWritten(ps).value, LeagueEra(ps));
  }

  /** The same for any constant that is `era` less the league's events per
    * inning. */
  lemma FipCentredAt(ps: seq<PitchLine>, c: real, era: real)
    requires SumOf(ps, Ip) > 0.0 && forall i :: 0 <= i < |ps| ==> ps[i].ip > 0.0
    requires c == era - SumOf(ps, EventsReal) / SumOf(ps, Ip)
    ensures SumOf(ps, IpTimesFip(c)) == era * SumOf(ps, Ip)
  {
    FipSum(ps, c);
    CentreArith(SumOf(ps, EventsReal), SumOf(ps, Ip), era, c, SumOf(ps, IpTimesFip(c)));
  }

  /** The FIP constant is the league ERA less the league's events per inning. */
  lemma CfipValue(ps: seq<PitchLine>)
    requires SumOf(ps, Ip) > 0.0
    ensures CfipAsWritten(ps).Ok?
    ensures CfipAsWritten(ps).value == LeagueEra(ps) - SumOf(ps, EventsReal) / SumOf(ps, Ip)
  {
    EventsSum(ps);
  }

  /** The league ERA times the league's innings is nine times its earned runs. */
  lemma EraTimesInnings(ps: seq<PitchLine>)
    requires SumOf(ps, Ip) > 0.0
    ensures LeagueEra(ps) * SumOf(ps, Ip) == 9.0 * SumOf(ps, Er)
  {
    var ip := SumOf(ps, Ip);
    var er := SumOf(ps, Er);
    assert LeagueEra(ps) == er * 9.0 / ip;
    Weighted.DivTimes(er * 9.0, ip);
  }

  /** Summing `ip * FIP` over the pitchers gives the events plus the
    * constant times the innings. */
  lemma {:induction false} FipSum(ps: seq<PitchLine>, c: real)
    requires forall i :: 0 <= i < |ps| ==> ps[i].ip > 0.0
    ensures SumOf(ps, IpTimesFip(c)) == SumOf(ps, EventsReal) + c * SumOf(ps, Ip)
    decreases |ps|
  {
    if |ps| > 0 {
      var n := |ps| - 1;
      var init := ps[..n];
      assert forall i :: 0 <= i < |init| ==> init[i] == ps[i];
      FipSum(init, c);
      var last := ps[n];
      IpTimesFipStep(last, c);
      assert IpTimesFip(c)(last) == EventsReal(last) + c * Ip(last);
      assert c * SumOf(ps, Ip) == c * SumOf(init, Ip) + c * Ip(last);
    }
  }

  lemma EraSum(ps: seq<PitchLine>)
    ensures SumOf(ps, IpTimesEra) == 9.0 * SumOf(ps, Er)
  {
    forall p: PitchLine ensures IpTimesEra(p) == 9.0 * Er(p) + 0.0 * Er(p) { }
    SumOfLinear(ps, Er, Er, IpTimesEra, 9.0, 0.0);
  }

  lemma IpTimesFipStep(p: PitchLine, c: real)
    requires p.ip > 0.0
    ensures p.ip * Fip(p, c) == Events(p) as real + c * p.ip
  {
    assert p.ip * (Events(p) as real / p.ip) == Events(p) as real;
  }

  lemma CentreArith(events: real, ip: real, era: real, c: real, fipSum: real)
    requires ip > 0.0 && c == era - events / ip && fipSum == events + c * ip
    ensures fipSum == era * ip
  {
    assert c * ip == era * ip - events / ip * ip;
    Weighted.DivTimes(events, ip);
  }

  /** A pitcher at the replacement FIP of 5.5 is worth nothing; below it the
    * WAR is positive and above it negative; and over the same innings a
    * lower FIP is worth strictly more. */
  lemma PitchingRawFacts(p: PitchLine, q: PitchLine, cfip: real)
    requires p.ip >= 1.0 && q.ip == p.ip
    ensures PitchingRaw(p, cfip) > 0.0 <==> Fip(p, cfip) < REPLACEMENT_FIP
    ensures PitchingRaw(p, cfip) == 0.0 <==> Fip(p, cfip) == REPLACEMENT_FIP
    ensures Fip(p, cfip) < Fip(q, cfip) ==> PitchingRaw(p, cfip) > PitchingRaw(q, cfip)
  {
    assert PitchingRaw(p, cfip) == (REPLACEMENT_FIP - Fip(p, cfip)) * (p.ip / 90.0);
    assert PitchingRaw(q, cfip) == (REPLACEMENT_FIP - Fip(q, cfip)) * (p.ip / 90.0);
  }

  /** The six running totals of `fetch_pitching_war` over the kept pitchers. */
  predicate Tallied(ps: seq<PitchLine>, ip: real, er: real, hr: int, bb: int, hbp: int, k: int)
  {
    ip == SumOf(ps, Ip) && er == SumOf(ps, Er) && hr == IntSumOf(ps, Hr) && bb == IntSumOf(ps, Bb)
    && hbp == IntSumOf(ps, Hbp) && k == IntSumOf(ps, K)
  }

  lemma TalliedSnoc(ps: seq<PitchLine>, s: PitchLine, ip: real, er: real, hr: int, bb: int, hbp: int, k: int)
    requires Tallied(ps, ip, er, hr, bb, hbp, k)
    ensures Tallied(ps + [s], ip + s.ip, er + s.era * s.ip / 9.0, hr + s.hr, bb + s.bb, hbp + s.hbp, k + s.k)
  {
    assert (ps + [s])[..|ps|] == ps;
  }

  /** The first loop of `fetch_pitching_war`: the kept pitchers and the
    * league totals. */
  method PitchingTotals(splits: seq<PitchLine>)
    returns (pitchers: seq<PitchLine>, totalIp: real, totalEr: real, totalHr: int, totalBb: int, totalHbp: int, totalK: int)
    ensures pitchers == Pitchers(splits)
    ensures totalIp == SumOf(pitchers, Ip) && totalEr == SumOf(pitchers, Er)
    ensures totalHr == IntSumOf(pitchers, Hr) && totalBb == IntSumOf(pitchers, Bb)
    ensures totalHbp == IntSumOf(pitchers, Hbp) && totalK == IntSumOf(pitchers, K)
  {
    totalIp, totalEr := 0.0, 0.0;
    totalHr, totalBb, totalHbp, totalK := 0, 0, 0, 0;
    pitchers := [];
    var i := 0;
    while i < |splits|
      invariant 0 <= i <= |splits|
      invariant pitchers == FilterMap(PitcherOf, splits[..i])
      invariant Tallied(pitchers, totalIp, totalEr, totalHr, totalBb, totalHbp, totalK)
    {
      FilterMapStep(PitcherOf, splits, i);
      pitchers, totalIp, totalEr, totalHr, totalBb, totalHbp, totalK :=
        KeepPitcher(splits[i], pitchers, totalIp, totalEr, totalHr, totalBb, totalHbp, totalK);
      i := i + 1;
    }
    assert splits[..|splits|] == splits;
  }

  /** One pass of that loop: a pitcher with at least one inning is kept and
    * added to the totals; anyone else changes nothing. */
  method KeepPitcher(s: PitchLine, pitchers: seq<PitchLine>, totalIp: real, totalEr: real, totalHr: int, totalBb: int, totalHbp: int, totalK: int)
    returns (pitchers': seq<PitchLine>, totalIp': real, totalEr': real, totalHr': int, totalBb': int, totalHbp': int, totalK': int)
    requires Tallied(pitchers, totalIp, totalEr, totalHr, totalBb, totalHbp, totalK)
    ensures pitchers' == pitchers + (if PitcherOf(s).Some? then [PitcherOf(s).value] else [])
    ensures Tallied(pitchers', totalIp', totalEr', totalHr', totalBb', totalHbp', totalK')
  {
    pitchers', totalIp', totalEr', totalHr', totalBb', totalHbp', totalK' := pitchers, totalIp, totalEr, totalHr, totalBb, totalHbp, totalK;
    if s.ip >= 1.0 {
      TalliedSnoc(pitchers, s, totalIp, totalEr, totalHr, totalBb, totalHbp, totalK);
      totalIp' := totalIp + s.ip;
      totalHr', totalBb', totalHbp', totalK' := totalHr + s.hr, totalBb + s.bb, totalHbp + s.hbp, totalK + s.k;
      totalEr' := totalEr + s.era * s.ip / 9.0;
      pitchers' := pitchers + [s];
    }
  }

  /** `fetch_pitching_war` after the request: the totals, the league ERA
    * and FIP constant (failing when there are no innings), then each kept
    * pitcher's WAR. */
  method FetchPitchingWar(splits: seq<PitchLine>) returns (r: Result<map<int, real>>)
    ensures r == PitchingWarAsWritten(splits)
  {
    var pitchers, totalIp, totalEr, totalHr, totalBb, totalHbp, totalK := PitchingTotals(splits);
    var lgEra := if totalIp > 0.0 then totalEr * 9.0 / totalIp else DEFAULT_LG_ERA;
    if totalIp == 0.0 {
      return Err("division by zero");
    }
    assert lgEra == LeagueEra(pitchers);
    assert FipEvents(totalHr, totalBb, totalHbp, totalK) == LeagueEvents(pitchers);
    var cfip := lgEra - FipEvents(totalHr, totalBb, totalHbp, totalK) as real / totalIp;
    var war := StoreAll(pitchers, PitcherId, PitchingVal(cfip));
    r := Ok(war);
  }

  // The WAR lookup over several seasons.

  /** One season's batting and pitching WAR tables. */
  datatype SeasonWar = SeasonWar(bat: map<int, real>, pit: map<int, real>)

  /** `max(b, p)`, with -999 for the side the player has no line on. */
  function SeasonBest(s: SeasonWar, id: int): real
  {
    Injury.Max(if id in s.bat then s.bat[id] else ABSENT_WAR, if id in s.pit then s.pit[id] else ABSENT_WAR)
  }

  function Ids(s: SeasonWar): set<int> { s.bat.Keys + s.pit.Keys }

  /** The season's best for a player who appears in it. */
  function BestIn(id: int): SeasonWar -> Option<real>
  {
    (s: SeasonWar) => if id in Ids(s) then Some(SeasonBest(s, id)) else None
  }

  /** `player_wars[id]`: the season bests of the seasons the player appears
    * in, in season order. */
  function Bests(seasons: seq<SeasonWar>, id: int): seq<real>
  {
    FilterMap(BestIn(id), seasons)
  }

  /** Every player with a line in some season. */
  function AllIds(seasons: seq<SeasonWar>): set<int>
  {
    if |seasons| == 0 then {} else AllIds(seasons[..|seasons| - 1]) + Ids(seasons[|seasons| - 1])
  }

  /** A player has a season best exactly when the player appears in some season. */
  lemma {:induction false} BestsNonEmpty(seasons: seq<SeasonWar>, id: int)
    ensures Bests(seasons, id) != [] <==> id in AllIds(seasons)
    decreases |seasons|
  {
    if |seasons| > 0 {
      var n := |seasons| - 1;
      FilterMapStep(BestIn(id), seasons, n);
      assert seasons[..n + 1] == seasons;
      BestsNonEmpty(seasons[..n], id);
    }
  }

  function Identity(x: real): real { x }

  function Average(wars: seq<real>): real
    requires |wars| > 0
  {
    SumOf(wars, Identity) / |wars| as real
  }

  /** A player's WAR: the mean of the player's season bests, rounded to two places. */
  function PlayerWar(seasons: seq<SeasonWar>, id: int): real
    requires id in AllIds(seasons)
  {
    BestsNonEmpty(seasons, id);
    Round(Average(Bests(seasons, id)), 2)
  }

  /** `build_war_lookup` with each season's tables given. */
  function WarLookup(seasons: seq<SeasonWar>): (lookup: map<int, real>)
    ensures lookup.Keys == AllIds(seasons)
  {
    map id | id in AllIds(seasons) :: PlayerWar(seasons, id)
  }

  /** `player_wars` after the given seasons. */
  function PlayerWars(seasons: seq<SeasonWar>): map<int, seq<real>>
  {
    map id | id in AllIds(seasons) :: Bests(seasons, id)
  }

  lemma BestsStep(seasons: seq<SeasonWar>, i: nat, id: int)
    requires i < |seasons|
    ensures Bests(seasons[..i + 1], id) ==
      Bests(seasons[..i], id) + (if id in Ids(seasons[i]) then [SeasonBest(seasons[i], id)] else [])
    ensures AllIds(seasons[..i + 1]) == AllIds(seasons[..i]) + Ids(seasons[i])
  {
    FilterMapStep(BestIn(id), seasons, i);
    assert seasons[..i + 1][..i] == seasons[..i];
  }

  /** How one more season changes `player_wars`: a player of the season
    * gets that season's best appended, every other list stays. */
  lemma SeasonStep(seasons: seq<SeasonWar>, i: nat, id: int)
    requires i < |seasons|
    ensures id in Ids(seasons[i]) ==>
      id in PlayerWars(seasons[..i + 1]) &&
      PlayerWars(seasons[..i + 1])[id] ==
        (if id in PlayerWars(seasons[..i]) then PlayerWars(seasons[..i])[id] else []) + [SeasonBest(seasons[i], id)]
    ensures id !in Ids(seasons[i]) ==>
      (id in PlayerWars(seasons[..i + 1]) <==> id in PlayerWars(seasons[..i])) &&
      (id in PlayerWars(seasons[..i]) ==> PlayerWars(seasons[..i + 1])[id] == PlayerWars(seasons[..i])[id])
  {
    BestsStep(seasons, i, id);
    BestsNonEmpty(seasons[..i], id);
  }

  /** The inner loop of `build_war_lookup`: one more season's best appended
    * for every player of the season. */
  method AddSeason(pw: map<int, seq<real>>, seasons: seq<SeasonWar>, i: nat) returns (next: map<int, seq<real>>)
    requires i < |seasons| && pw == PlayerWars(seasons[..i])
    ensures next == PlayerWars(seasons[..i + 1])
  {
    var s := seasons[i];
    ghost var target := PlayerWars(seasons[..i + 1]);
    var ids := Sorting.SortedInts(s.bat.Keys + s.pit.Keys);
    next := pw;
    var j := 0;
    while j < |ids|
      invariant 0 <= j <= |ids|
      invariant forall id :: id in next <==> id in pw || id in ids[..j]
      invariant forall id :: id in ids[..j] ==> id in target && next[id] == target[id]
      invariant forall id :: id in next && id !in ids[..j] ==> next[id] == pw[id]
    {
      var id := ids[j];
      SeasonStep(seasons, i, id);
      var prev := if id in next then next[id] else [];
      next := next[id := prev + [SeasonBest(s, id)]];
      assert ids[..j + 1] == ids[..j] + [id];
      j := j + 1;
    }
    assert ids[..|ids|] == ids;
    forall id ensures (id in next <==> id in target) && (id in next ==> next[id] == target[id]) {
      SeasonStep(seasons, i, id);
    }
  }

  /** `build_war_lookup` with each season's tables given: the season loop,
    * then the average of each player's list. */
  method BuildWarLookup(seasons: seq<SeasonWar>) returns (lookup: map<int, real>)
    ensures lookup == WarLookup(seasons)
  {
    var playerWars := map[];
    var i := 0;
    while i < |seasons|
      invariant 0 <= i <= |seasons|
      invariant playerWars == PlayerWars(seasons[..i])
    {
      playerWars := AddSeason(playerWars, seasons, i);
      i := i + 1;
    }
    assert seasons[..|seasons|] == seasons;
    forall id | id in playerWars ensures |playerWars[id]| > 0 {
      BestsNonEmpty(seasons, id);
    }
    lookup := map id | id in playerWars :: Round(Average(playerWars[id]), 2);
  }

  /** The season best is the larger WAR when the player has both lines, and
    * the one WAR the player has otherwise (any WAR above the -999 placeholder). */
  lemma SeasonBestFacts(s: SeasonWar, id: int)
    ensures id in s.bat && id in s.pit ==>
      SeasonBest(s, id) >= s.bat[id] && SeasonBest(s, id) >= s.pit[id] &&
      (SeasonBest(s, id) == s.bat[id] || SeasonBest(s, id) == s.pit[id])
    ensures id in s.bat && id !in s.pit && s.bat[id] >= ABSENT_WAR ==> SeasonBest(s, id) == s.bat[id]
    ensures id !in s.bat && id in s.pit && s.pit[id] >= ABSENT_WAR ==> SeasonBest(s, id) == s.pit[id]
  {
  }

  lemma {:induction false} BestsWithin(seasons: seq<SeasonWar>, id: int, lo: real, hi: real)
    requires forall i :: 0 <= i < |seasons| && id in Ids(seasons[i]) ==> lo <= SeasonBest(seasons[i], id) <= hi
    ensures forall k :: 0 <= k < |Bests(seasons, id)| ==> lo <= Bests(seasons, id)[k] <= hi
  {
    forall k | 0 <= k < |Bests(seasons, id)| ensures lo <= Bests(seasons, id)[k] <= hi {
      FilterMapFrom(BestIn(id), seasons, k);
    }
  }

  lemma MeanWithin(wars: seq<real>, lo: real, hi: real)
    requires |wars| > 0 && forall k :: 0 <= k < |wars| ==> lo <= Identity(wars[k]) <= hi
    ensures lo <= Average(wars) <= hi
  {
    SumOfAtMost(wars, Identity, hi);
    SumOfAtLeast(wars, Identity, lo);
    Weighted.QuotientBetween(SumOf(wars, Identity), |wars| as real, lo, hi);
  }

  /** A player's averaged WAR lies within the range of the player's season bests,
    * give or take the rounding to two places. */
  lemma PlayerWarWithin(seasons: seq<SeasonWar>, id: int, lo: real, hi: real)
    requires id in AllIds(seasons)
    requires forall i :: 0 <= i < |seasons| && id in Ids(seasons[i]) ==> lo <= SeasonBest(seasons[i], id) <= hi
    ensures lo - 0.005 <= WarLookup(seasons)[id] <= hi + 0.005
  {
    BestsNonEmpty(seasons, id);
    BestsWithin(seasons, id, lo, hi);
    MeanWithin(Bests(seasons, id), lo, hi);
    RoundError(Average(Bests(seasons, id)), 2);
  }

  /** Over one season the lookup is the season best, rounded. */
  lemma OneSeason(s: SeasonWar, id: int)
    requires id in Ids(s)
    ensures id in WarLookup([s]) && WarLookup([s])[id] == Round(SeasonBest(s, id), 2)
  {
    var x := SeasonBest(s, id);
    BestsStep([s], 0, id);
    assert [s][..1] == [s] && [s][..0] == [];
    assert AllIds([s][..0]) == {};
    assert id in AllIds([s]);
    assert Bests([s][..0], id) == [];
    assert Bests([s], id) == [x];
    SumOfStep([x], Identity, 0);
    assert [x][..1] == [x] && [x][..0] == [];
    assert Average([x]) == x;
  }

  // Team adjustments.

  datatype Adjustment = Adjustment(netWar: real, eloAdj: real, warGained: real, warLost: real)

  /** `war_lookup.get(pid, {}).get('war', 0.0)`: a player without a WAR
    * counts as 0. */
  function LookupWar(lookup: map<int, real>): Move -> real
  {
    (m: Move) => if m.playerId in lookup then lookup[m.playerId] else 0.0
  }

  function AdjustmentOf(gained: real, lost: real, warToElo: real): Adjustment
  {
    Adjustment(Round(gained - lost, 2), Round((gained - lost) * warToElo, 1), Round(gained, 2), Round(lost, 2))
  }

  /** `compute_team_adjustments`: one entry per club some move names. */
  function TeamAdjustments(moves: seq<Move>, lookup: map<int, real>, warToElo: real): (adj: map<string, Adjustment>)
    ensures adj.Keys == Teams(moves)
  {
    map t | t in Teams(moves) ::
      AdjustmentOf(Gained(moves, LookupWar(lookup), t), Lost(moves, LookupWar(lookup), t), warToElo)
  }

  lemma TeamAdjustmentsOf(moves: seq<Move>, lookup: map<int, real>, warToElo: real, adjustments: map<string, Adjustment>)
    requires adjustments.Keys == Teams(moves)
    requires forall t :: t in adjustments ==>
      adjustments[t] == AdjustmentOf(Gained(moves, LookupWar(lookup), t), Lost(moves, LookupWar(lookup), t), warToElo)
    ensures adjustments == TeamAdjustments(moves, lookup, warToElo)
  {
  }

  /** The entry `compute_team_adjustments` writes for a club, from its
    * gains and losses. */
  function AdjustmentFor(warToElo: real): (real, real) -> Adjustment
  {
    (gained: real, lost: real) => AdjustmentOf(gained, lost, warToElo)
  }

  /** `compute_team_adjustments`: the ledger loop, then one entry per club in
    * sorted order. */
  method ComputeTeamAdjustments(moves: seq<Move>, lookup: map<int, real>, warToElo: real)
    returns (adjustments: map<string, Adjustment>)
    ensures adjustments == TeamAdjustments(moves, lookup, warToElo)
  {
    var gains, losses := Tally(moves, LookupWar(lookup));
    adjustments := AdjustmentsFromLedger(moves, lookup, warToElo, gains, losses);
  }

  /** The second half of `compute_team_adjustments`: one entry per club of
    * the ledger, visited in sorted order. */
  method AdjustmentsFromLedger(moves: seq<Move>, lookup: map<int, real>, warToElo: real,
                               gains: map<string, real>, losses: map<string, real>)
    returns (adjustments: map<string, Adjustment>)
    requires SideTracks(moves, ToTeam, LookupWar(lookup), gains) && SideTracks(moves, FromTeam, LookupWar(lookup), losses)
    ensures adjustments == TeamAdjustments(moves, lookup, warToElo)
  {
    var teams := Sorting.SortedSet(gains.Keys + losses.Keys);
    adjustments := Entries(moves, LookupWar(lookup), gains, losses, teams, AdjustmentFor(warToElo));
    TeamAdjustmentsOf(moves, lookup, warToElo, adjustments);
  }

  /** Each published figure is within rounding of the exact one: the net
    * WAR and the totals to half a hundredth, the Elo shift to half a tenth
    * of `net * WAR_TO_ELO`. */
  lemma AdjustmentNear(gained: real, lost: real, warToElo: real)
    ensures -0.005 <= AdjustmentOf(gained, lost, warToElo).netWar - (gained - lost) <= 0.005
    ensures -0.05 <= AdjustmentOf(gained, lost, warToElo).eloAdj - (gained - lost) * warToElo <= 0.05
    ensures -0.005 <= AdjustmentOf(gained, lost, warToElo).warGained - gained <= 0.005
    ensures -0.005 <= AdjustmentOf(gained, lost, warToElo).warLost - lost <= 0.005
  {
    RoundError(gained - lost, 2);
    RoundError((gained - lost) * warToElo, 1);
    RoundError(gained, 2);
    RoundError(lost, 2);
  }

  /** A move whose player has no WAR adds nothing to either of a club's
    * totals. */
  lemma UnknownPlayerTotals(moves: seq<Move>, m: Move, lookup: map<int, real>, side: Move -> Option<string>, t: string)
    requires m.playerId !in lookup
    ensures Total(moves + [m], side, LookupWar(lookup), t) == Total(moves, side, LookupWar(lookup), t)
  {
    var s := moves + [m];
    SumOfStep(s, Share(side, LookupWar(lookup), t), |moves|);
    assert s[..|moves|] == moves && s[..|moves| + 1] == s;
  }

  /** A move whose player has no WAR in the lookup changes no club's
    * figures; a club it names for the first time gets an all-zero entry. */
  lemma UnknownPlayerAddsNothing(moves: seq<Move>, m: Move, lookup: map<int, real>, warToElo: real, t: string)
    requires m.playerId !in lookup && t in Teams(moves + [m])
    ensures t in Teams(moves) ==>
      TeamAdjustments(moves + [m], lookup, warToElo)[t] == TeamAdjustments(moves, lookup, warToElo)[t]
    ensures t !in Teams(moves) ==> TeamAdjustments(moves + [m], lookup, warToElo)[t] == AdjustmentOf(0.0, 0.0, warToElo)
  {
    var war := LookupWar(lookup);
    UnknownPlayerTotals(moves, m, lookup, ToTeam, t);
    UnknownPlayerTotals(moves, m, lookup, FromTeam, t);
    if t !in Teams(moves) {
      UnlistedZero(moves, ToTeam, war, t);
      UnlistedZero(moves, FromTeam, war, t);
    }
  }

  // Applying the shifts.

  datatype EloRow = EloRow(team: string, elo: real)

  /** The stored ratings: the end-of-season file and, once a run has made
    * it, its raw backup. */
  datatype EloStore = EloStore(baseline: seq<EloRow>, raw: Option<seq<EloRow>>)

  datatype SummaryRow = SummaryRow(team: string, preseasonElo: real, eloAdjustment: real, netWar: real)

  /** The ratings a run starts from: the raw backup when there is one, else
    * the end-of-season file. */
  function Starting(store: EloStore): seq<EloRow>
  {
    if store.raw.Some? then store.raw.value else store.baseline
  }

  /** `adj.get('elo_adj', 0.0)` for a club without an entry. */
  function Shift(adjustments: map<string, Adjustment>, team: string): real
  {
    if team in adjustments then adjustments[team].eloAdj else 0.0
  }

  function AdjustRow(adjustments: map<string, Adjustment>, row: EloRow): EloRow
  {
    var t := EloCompute.StandardizeTeam(row.team);
    EloRow(t, Round(row.elo + Shift(adjustments, t), 2))
  }

  function Adjusted(adjustments: map<string, Adjustment>, rows: seq<EloRow>): (out: seq<EloRow>)
    ensures |out| == |rows|
  {
    seq(|rows|, i requires 0 <= i < |rows| => AdjustRow(adjustments, rows[i]))
  }

  /** The store after a run: the adjusted ratings overwrite the end-of-season
    * file, and the backup holds the ratings the run started from. */
  function Apply(adjustments: map<string, Adjustment>, store: EloStore): EloStore
  {
    EloStore(Adjusted(adjustments, Starting(store)), Some(Starting(store)))
  }

  function EloOf(r: EloRow): real { r.elo }

  function SummaryOf(adjustments: map<string, Adjustment>, r: EloRow): SummaryRow
  {
    SummaryRow(r.team, r.elo, Shift(adjustments, r.team),
      if r.team in adjustments then adjustments[r.team].netWar else 0.0)
  }

  /** The frontend summary: the adjusted ratings from the highest down. */
  function Summary(adjustments: map<string, Adjustment>, adjusted: seq<EloRow>): (rows: seq<SummaryRow>)
    ensures |rows| == |adjusted|
  {
    var sorted := Sorting.Sort(adjusted, Sorting.ByKeyDesc(EloOf));
    seq(|sorted|, i requires 0 <= i < |sorted| => SummaryOf(adjustments, sorted[i]))
  }

  /** `apply_adjustments` on the stored ratings: the row loop over the
    * starting ratings, the overwrite, and the summary. */
  method ApplyAdjustments(adjustments: map<string, Adjustment>, store: EloStore)
    returns (next: EloStore, summary: seq<SummaryRow>)
    ensures next == Apply(adjustments, store)
    ensures summary == Summary(adjustments, next.baseline)
  {
    var baseline := Starting(store);
    var results: seq<EloRow> := [];
    var i := 0;
    while i < |baseline|
      invariant 0 <= i <= |baseline|
      invariant results == Adjusted(adjustments, baseline[..i])
    {
      results := results + [AdjustRow(adjustments, baseline[i])];
      i := i + 1;
    }
    assert baseline[..|baseline|] == baseline;
    next := EloStore(results, Some(baseline));
    summary := Summary(adjustments, results);
  }

  /** A run starts from the raw ratings whatever an earlier run wrote: running
    * again, with any adjustments, gives what a single run from the original
    * store gives. In particular a second run with the same adjustments
    * changes nothing. */
  lemma ApplyIdempotent(first: map<string, Adjustment>, second: map<string, Adjustment>, store: EloStore)
    ensures Apply(second, Apply(first, store)) == Apply(second, store)
    ensures Apply(first, Apply(first, store)) == Apply(first, store)
  {
  }

  /** Each rating is the standardised club's starting rating moved by its
    * shift, within rounding; a club without an adjustment keeps its rating
    * rounded to two places. */
  lemma AdjustRowFacts(adjustments: map<string, Adjustment>, row: EloRow)
    ensures AdjustRow(adjustments, row).team == EloCompute.StandardizeTeam(row.team)
    ensures -0.005 <= AdjustRow(adjustments, row).elo - (row.elo + Shift(adjustments, AdjustRow(adjustments, row).team)) <= 0.005
    ensures AdjustRow(adjustments, row).team !in adjustments ==> AdjustRow(adjustments, row).elo == Round(row.elo, 2)
  {
    RoundError(row.elo + Shift(adjustments, EloCompute.StandardizeTeam(row.team)), 2);
  }

  /** A summary row read back as a rating row. */
  function Rated(r: SummaryRow): EloRow { EloRow(r.team, r.preseasonElo) }

  function RatedRows(rows: seq<SummaryRow>): (out: seq<EloRow>)
    ensures |out| == |rows|
  {
    seq(|rows|, i requires 0 <= i < |rows| => Rated(rows[i]))
  }

  /** The summary lists the adjusted ratings from the highest down, each
    * adjusted rating once. */
  lemma SummaryOrdered(adjustments: map<string, Adjustment>, adjusted: seq<EloRow>)
    ensures forall i, j :: 0 <= i < j < |adjusted| ==>
      Summary(adjustments, adjusted)[i].preseasonElo >= Summary(adjustments, adjusted)[j].preseasonElo
    ensures multiset(RatedRows(Summary(adjustments, adjusted))) == multiset(adjusted)
  {
    var le := Sorting.ByKeyDesc(EloOf);
    var sorted := Sorting.Sort(adjusted, le);
    Sorting.ByKeyDescPreorder(EloOf);
    Sorting.SortSorted(adjusted, le);
    var rows := Summary(adjustments, adjusted);
    forall i, j | 0 <= i < j < |adjusted| ensures rows[i].preseasonElo >= rows[j].preseasonElo {
      assert le(sorted[i], sorted[j]);
      assert EloOf(sorted[i]) >= EloOf(sorted[j]);
      assert rows[i] == SummaryOf(adjustments, sorted[i]) && rows[j] == SummaryOf(adjustments, sorted[j]);
    }
    assert RatedRows(rows) == sorted;
  }
}
