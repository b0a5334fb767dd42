/** The offseason adjuster run by hand before a season: prospect and
  * override WAR, Marcel projections, the transaction ledger over blended
  * historical and projected WAR, and the preseason ratings it writes. */
module PreseasonAdjustment {
  import opened Wrappers
  import opened Sums
  import opened Rounding
  import opened PairTables
  import opened Transactions
  import Sorting
  import Weighted

  /** Elo points per win above replacement. */
  const WAR_TO_ELO: real := 5.5

  // Prospect ranks.

  /** A row of the prospect table: ranks up to `maxRank` are worth `war`. */
  datatype Tier = Tier(maxRank: int, war: real)

  const PROSPECT_RANK_TO_WAR: seq<Tier> :=
    [Tier(5, 2.0), Tier(10, 1.5), Tier(25, 1.0), Tier(50, 0.7), Tier(100, 0.4)]

  /** The WAR of a rank past every tier. */
  const PROSPECT_RANK_DEFAULT_WAR: real := 0.2

  /** The WAR of the first tier whose bound the rank is within. */
  function TierWar(tiers: seq<Tier>, rank: int): real
  {
    if |tiers| == 0 then PROSPECT_RANK_DEFAULT_WAR
    else if rank <= tiers[0].maxRank then tiers[0].war
    else TierWar(tiers[1..], rank)
  }

  function RankWar(rank: int): real
  {
    TierWar(PROSPECT_RANK_TO_WAR, rank)
  }

  /** `prospect_rank_to_war`: the scan down the table. */
  method ProspectRankToWar(rank: int) returns (war: real)
    ensures war == RankWar(rank)
  {
    var tiers := PROSPECT_RANK_TO_WAR;
    assert tiers[0..] == tiers;
    var i := 0;
    while i < |tiers|
      invariant 0 <= i <= |tiers|
      invariant TierWar(tiers[i..], rank) == RankWar(rank)
    {
      if rank <= tiers[i].maxRank {
        return tiers[i].war;
      }
      assert tiers[i..][1..] == tiers[i + 1..];
      i := i + 1;
    }
    return PROSPECT_RANK_DEFAULT_WAR;
  }

  /** The table read as a step function of the rank: 2.0 for the top five,
    * then 1.5, 1.0, 0.7 and 0.4, and 0.2 past rank 100. */
  lemma RankWarSteps(rank: int)
    ensures rank <= 5 ==> RankWar(rank) == 2.0
    ensures 5 < rank <= 10 ==> RankWar(rank) == 1.5
    ensures 10 < rank <= 25 ==> RankWar(rank) == 1.0
    ensures 25 < rank <= 50 ==> RankWar(rank) == 0.7
    ensures 50 < rank <= 100 ==> RankWar(rank) == 0.4
    ensures 100 < rank ==> RankWar(rank) == 0.2
  {
    var t0 := PROSPECT_RANK_TO_WAR;
    var t1 := [Tier(10, 1.5), Tier(25, 1.0), Tier(50, 0.7), Tier(100, 0.4)];
    var t2 := [Tier(25, 1.0), Tier(50, 0.7), Tier(100, 0.4)];
    var t3 := [Tier(50, 0.7), Tier(100, 0.4)];
    var t4 := [Tier(100, 0.4)];
    assert t0[1..] == t1 && t1[1..] == t2 && t2[1..] == t3 && t3[1..] == t4 && t4[1..] == [];
    if rank > 5 {
      assert RankWar(rank) == TierWar(t1, rank);
      if rank > 10 {
        assert TierWar(t1, rank) == TierWar(t2, rank);
        if rank > 25 {
          assert TierWar(t2, rank) == TierWar(t3, rank);
          if rank > 50 {
            assert TierWar(t3, rank) == TierWar(t4, rank);
            if rank > 100 {
              assert TierWar(t4, rank) == TierWar([], rank);
            }
          }
        }
      }
    }
  }

  /** A better (lower) rank is never worth less, and every rank is worth
    * between 0.2 and 2.0. */
  lemma RankWarNonIncreasing(r1: int, r2: int)
    requires r1 <= r2
    ensures RankWar(r1) >= RankWar(r2)
    ensures PROSPECT_RANK_DEFAULT_WAR <= RankWar(r1) <= 2.0
  {
    RankWarSteps(r1);
    RankWarSteps(r2);
  }

  // WAR overrides.

  /** A row of the overrides file. A column the file lacks reads as `None`
    * in every row, as does an empty cell. */
  datatype OverrideRow = OverrideRow(playerId: int, warOverride: Option<real>, prospectRank: Option<int>)

  /** The overrides file: absent, present without a `player_id` column, or
    * its rows. */
  datatype OverrideFile = NoFile | NoPlayerIdColumn | Rows(rows: seq<OverrideRow>)

  /** A row's WAR: its override when it has one, else the WAR of its
    * prospect rank, else none. */
  function OverrideWar(row: OverrideRow): Option<real>
  {
    if row.warOverride.Some? then row.warOverride
    else if row.prospectRank.Some? then Some(RankWar(row.prospectRank.value))
    else None
  }

  predicate HasWar(row: OverrideRow) { OverrideWar(row).Some? }

  function RowId(row: OverrideRow): int { row.playerId }

  function RowWar(row: OverrideRow): real { OverrideWar(row).GetOr(0.0) }

  /** `load_war_overrides`: one entry per player some row gives a WAR, the
    * last such row winning; nothing without the file or its id column. */
  function Overrides(file: OverrideFile): map<int, real>
  {
    if file.Rows? then PairsToMap(Keyed(file.rows, HasWar, RowId, RowWar)) else map[]
  }

  /** `load_war_overrides`: the row loop. */
  method LoadWarOverrides(file: OverrideFile) returns (overrides: map<int, real>)
    ensures overrides == Overrides(file)
  {
    if !file.Rows? {
      return map[];
    }
    var rows := file.rows;
    overrides := map[];
    var i := 0;
    while i < |rows|
      invariant 0 <= i <= |rows|
      invariant overrides == PairsToMap(Keyed(rows[..i], HasWar, RowId, RowWar))
    {
      KeyedStep(rows, i, HasWar, RowId, RowWar);
      var row := rows[i];
      if row.warOverride.Some? {
        overrides := overrides[row.playerId := row.warOverride.value];
      } else if row.prospectRank.Some? {
        var war := ProspectRankToWar(row.prospectRank.value);
        overrides := overrides[row.playerId := war];
      }
      i := i + 1;
    }
    assert rows[..|rows|] == rows;
  }

  /** An override beats a prospect rank, a rank alone gives its tier's WAR,
    * and a row with neither gives nothing. */
  lemma OverridePriority(row: OverrideRow)
    ensures row.warOverride.Some? ==> HasWar(row) && RowWar(row) == row.warOverride.value
    ensures row.warOverride.None? && row.prospectRank.Some? ==>
      HasWar(row) && RowWar(row) == RankWar(row.prospectRank.value)
    ensures row.warOverride.None? && row.prospectRank.None? ==> !HasWar(row)
  {
  }

  /** Without the file or its id column there are no overrides; otherwise a
    * player has an override exactly when some row gives one a WAR, and the
    * override is the WAR of the last such row. */
  lemma OverridesFacts(file: OverrideFile, id: int)
    ensures !file.Rows? ==> Overrides(file) == map[]
    ensures file.Rows? ==>
      (id in Overrides(file) <==> exists i :: 0 <= i < |file.rows| && HasWar(file.rows[i]) && file.rows[i].playerId == id)
    ensures file.Rows? && id in Overrides(file) ==>
      exists i :: LastKept(file.rows, HasWar, RowId, i, id) && Overrides(file)[id] == RowWar(file.rows[i])
  {
    if file.Rows? {
      KeyedLastWins(file.rows, HasWar, RowId, RowWar, id);
    }
  }

  // Override filling.

  /** `m.get(id, 0.0)`. */
  function WarOr0(m: map<int, real>, id: int): real
  {
    if id in m then m[id] else 0.0
  }

  /** The lookup after the overrides are applied as fallbacks: a player
    * whose WAR is missing or exactly 0.0 takes the override, every other
    * value stays. */
  function Fill(war: map<int, real>, overrides: map<int, real>): (filled: map<int, real>)
    ensures filled.Keys == war.Keys + overrides.Keys
  {
    map k | k in war.Keys + overrides.Keys :: if k in overrides && WarOr0(war, k) == 0.0 then overrides[k] else war[k]
  }

  /** The fill after the overrides of `done` only. */
  ghost predicate FilledFor(war: map<int, real>, overrides: map<int, real>, done: seq<int>, cur: map<int, real>)
  {
    (forall k :: k in cur <==> k in war || (k in done && k in overrides)) &&
    (forall k :: k in cur ==> cur[k] == if k in done && k in overrides && WarOr0(war, k) == 0.0 then overrides[k] else war[k])
  }

  lemma FillStep(war: map<int, real>, overrides: map<int, real>, ids: seq<int>, j: nat, cur: map<int, real>)
    requires j < |ids| && Sorting.Distinct(ids) && ids[j] in overrides && FilledFor(war, overrides, ids[..j], cur)
    ensures WarOr0(cur, ids[j]) == WarOr0(war, ids[j])
    ensures FilledFor(war, overrides, ids[..j + 1],
      if WarOr0(cur, ids[j]) == 0.0 then cur[ids[j] := overrides[ids[j]]] else cur)
  {
    assert ids[..j + 1] == ids[..j] + [ids[j]];
    assert ids[j] !in ids[..j];
  }

  lemma FilledAll(war: map<int, real>, overrides: map<int, real>, ids: seq<int>, cur: map<int, real>)
    requires FilledFor(war, overrides, ids, cur) && forall k :: k in ids <==> k in overrides
    ensures cur == Fill(war, overrides)
  {
    var filled := Fill(war, overrides);
    forall k ensures (k in cur <==> k in filled) && (k in cur ==> cur[k] == filled[k]) {
    }
    assert cur.Keys == filled.Keys;
  }

  /** The override loop of the script's main step: each override fills the
    * historical lookup and, when there is one, the projected lookup. */
  method ApplyOverrides(lookup: map<int, real>, projected: Option<map<int, real>>, overrides: map<int, real>)
    returns (filled: map<int, real>, filledProjected: Option<map<int, real>>)
    ensures filled == Fill(lookup, overrides)
    ensures filledProjected == if projected.Some? then Some(Fill(projected.value, overrides)) else None
  {
    var ids := Sorting.SortedInts(overrides.Keys);
    assert Sorting.Distinct(ids);
    filled := lookup;
    var proj := if projected.Some? then projected.value else map[];
    var j := 0;
    while j < |ids|
      invariant 0 <= j <= |ids|
      invariant FilledFor(lookup, overrides, ids[..j], filled)
      invariant projected.Some? ==> FilledFor(projected.value, overrides, ids[..j], proj)
    {
      var id := ids[j];
      FillStep(lookup, overrides, ids, j, filled);
      if projected.Some? {
        FillStep(projected.value, overrides, ids, j, proj);
      }
      var histVal := WarOr0(filled, id);
      var projVal := if projected.Some? && proj != map[] then WarOr0(proj, id) else 0.0;
      if histVal == 0.0 {
        filled := filled[id := overrides[id]];
      }
      if projected.Some? && projVal == 0.0 {
        proj := proj[id := overrides[id]];
      }
      j := j + 1;
    }
    assert ids[..|ids|] == ids;
    FilledAll(lookup, overrides, ids, filled);
    if projected.Some? {
      FilledAll(projected.value, overrides, ids, proj);
      filledProjected := Some(proj);
    } else {
      filledProjected := None;
    }
  }

  /** A nonzero WAR is never overridden; a missing or zero one takes the
    * override; a player without an override keeps the value in the lookup. Filling
    * twice is filling once. */
  lemma FillFacts(war: map<int, real>, overrides: map<int, real>, k: int)
    ensures WarOr0(war, k) != 0.0 ==> k in Fill(war, overrides) && Fill(war, overrides)[k] == war[k]
    ensures k in overrides && WarOr0(war, k) == 0.0 ==> Fill(war, overrides)[k] == overrides[k]
    ensures k !in overrides ==>
      ((k in Fill(war, overrides) <==> k in war) && (k in war ==> Fill(war, overrides)[k] == war[k]))
  {
  }

  lemma FillIdempotent(war: map<int, real>, overrides: map<int, real>)
    ensures Fill(Fill(war, overrides), overrides) == Fill(war, overrides)
  {
  }

  // Marcel projections.

  /** The WAR a season line starts from before any row is seen. */
  const ABSENT_WAR: real := -999.0

  /** The age at which the age adjustment is zero. */
  const PEAK_AGE: int := 28

  type Innings = x: real | x >= 0.0

  /** A player's line in one season: the best WAR of the player's
    * batting and pitching rows (-999 when none was better), the most plate appearances
    * and the most innings. */
  datatype SeasonLine = SeasonLine(war: real, pa: nat, ip: Innings)

  /** A season paired with its Marcel weight. */
  datatype Slot = Slot(season: int, weight: nat)

  /** `[3, 4, 5][-n:]`: the newest season weighs 5. Python's slice keeps
    * all three weights when `n` is 0 or at least 3. */
  function MarcelWeights(n: nat): seq<nat>
  {
    if n == 0 || n >= 3 then [3, 4, 5] else [3, 4, 5][3 - n..]
  }

  /** `zip(seasons, weights)`: as many slots as the shorter list has items. */
  function Slots(seasons: seq<int>, weights: seq<nat>): seq<Slot>
  {
    var n := if |seasons| <= |weights| then |seasons| else |weights|;
    seq(n, i requires 0 <= i < n => Slot(seasons[i], weights[i]))
  }

  /** For one to three seasons there is one weight per season, rising by one
    * a season to 5 for the newest. */
  lemma MarcelWeightsFacts(seasons: seq<int>)
    requires 1 <= |seasons| <= 3
    ensures |Slots(seasons, MarcelWeights(|seasons|))| == |seasons|
    ensures forall i :: 0 <= i < |seasons| ==>
      Slots(seasons, MarcelWeights(|seasons|))[i] == Slot(seasons[i], 5 - |seasons| + 1 + i)
  {
  }

  /** The season's WAR with the -999 sentinel read as zero. */
  function WarValue(d: SeasonLine): real
  {
    if d.war > ABSENT_WAR then d.war else 0.0
  }

  function WeightTerm(data: map<int, SeasonLine>): Slot -> real
  {
    (s: Slot) => if s.season in data then s.weight as real else 0.0
  }

  function WarTerm(data: map<int, SeasonLine>): Slot -> real
  {
    (s: Slot) => if s.season in data then s.weight as real * WarValue(data[s.season]) else 0.0
  }

  function PaTerm(data: map<int, SeasonLine>): Slot -> real
  {
    (s: Slot) => if s.season in data then s.weight as real * data[s.season].pa as real else 0.0
  }

  function IpTerm(data: map<int, SeasonLine>): Slot -> real
  {
    (s: Slot) => if s.season in data then s.weight as real * data[s.season].ip else 0.0
  }

  /** The weight of the seasons the player appears in. */
  function TotalWeight(slots: seq<Slot>, data: map<int, SeasonLine>): real
  {
    SumOf(slots, WeightTerm(data))
  }

  lemma NonNegativeTerms(slots: seq<Slot>, data: map<int, SeasonLine>)
    ensures TotalWeight(slots, data) >= 0.0
    ensures SumOf(slots, PaTerm(data)) >= 0.0 && SumOf(slots, IpTerm(data)) >= 0.0
  {
    SumOfNonNegative(slots, WeightTerm(data));
    SumOfNonNegative(slots, PaTerm(data));
    SumOfNonNegative(slots, IpTerm(data));
  }

  lemma QuotientNonNegative(s: real, t: real)
    requires s >= 0.0 && t > 0.0
    ensures s / t >= 0.0
  {
  }

  function WeightedWar(slots: seq<Slot>, data: map<int, SeasonLine>): real
    requires TotalWeight(slots, data) != 0.0
  {
    SumOf(slots, WarTerm(data)) / TotalWeight(slots, data)
  }

  function WeightedPa(slots: seq<Slot>, data: map<int, SeasonLine>): (pa: real)
    requires TotalWeight(slots, data) != 0.0
    ensures pa >= 0.0
  {
    NonNegativeTerms(slots, data);
    QuotientNonNegative(SumOf(slots, PaTerm(data)), TotalWeight(slots, data));
    SumOf(slots, PaTerm(data)) / TotalWeight(slots, data)
  }

  function WeightedIp(slots: seq<Slot>, data: map<int, SeasonLine>): (ip: real)
    requires TotalWeight(slots, data) != 0.0
    ensures ip >= 0.0
  {
    NonNegativeTerms(slots, data);
    QuotientNonNegative(SumOf(slots, IpTerm(data)), TotalWeight(slots, data));
    SumOf(slots, IpTerm(data)) / TotalWeight(slots, data)
  }

  /** Regression to the mean: a pitcher (more weighted innings than a
    * quarter of the weighted plate appearances) is trusted by innings over
    * innings plus 400, anyone else by plate appearances over plate
    * appearances plus 1200. */
  function Reliability(pa: real, ip: real): real
    requires pa >= 0.0 && ip >= 0.0
  {
    if ip > pa / 4.0 then ip / (ip + 400.0) else pa / (pa + 1200.0)
  }

  /** A tenth of a win a year towards age 28, at most half a win either way. */
  function AgeAdjustment(age: int): real
  {
    if age < PEAK_AGE then
      var up := 0.1 * (PEAK_AGE - age) as real;
      if up <= 0.5 then up else 0.5
    else if age > PEAK_AGE then
      var down := -0.1 * (age - PEAK_AGE) as real;
      if down >= -0.5 then down else -0.5
    else 0.0
  }

  /** The age term the projection adds: none without a birth year (a birth
    * year of 0 counts as none). */
  function AgeTerm(birthYear: Option<int>, projectionSeason: int): real
  {
    if birthYear.Some? && birthYear.value != 0 then AgeAdjustment(projectionSeason - birthYear.value) else 0.0
  }

  /** One player's Marcel projection: none without a season in the window. */
  function Marcel(slots: seq<Slot>, data: map<int, SeasonLine>, birthYear: Option<int>, projectionSeason: int): Option<real>
  {
    if data == map[] || TotalWeight(slots, data) == 0.0 then None
    else Some(Shrunk(slots, data) + AgeTerm(birthYear, projectionSeason))
  }

  /** The weighted WAR shrunk by its reliability, before the age term. */
  function Shrunk(slots: seq<Slot>, data: map<int, SeasonLine>): real
    requires TotalWeight(slots, data) != 0.0
  {
    Reliability(WeightedPa(slots, data), WeightedIp(slots, data)) * WeightedWar(slots, data)
  }

  lemma TermsSnoc(slots: seq<Slot>, s: Slot, data: map<int, SeasonLine>)
    ensures SumOf(slots + [s], WeightTerm(data)) == SumOf(slots, WeightTerm(data)) + WeightTerm(data)(s)
    ensures SumOf(slots + [s], WarTerm(data)) == SumOf(slots, WarTerm(data)) + WarTerm(data)(s)
    ensures SumOf(slots + [s], PaTerm(data)) == SumOf(slots, PaTerm(data)) + PaTerm(data)(s)
    ensures SumOf(slots + [s], IpTerm(data)) == SumOf(slots, IpTerm(data)) + IpTerm(data)(s)
  {
    assert (slots + [s])[..|slots|] == slots;
  }

  /** The weighted sums of one player's seasons. */
  method WeightedSums(slots: seq<Slot>, data: map<int, SeasonLine>)
    returns (weightedWar: real, totalWeight: real, weightedPa: real, weightedIp: real)
    ensures totalWeight == TotalWeight(slots, data) && weightedWar == SumOf(slots, WarTerm(data))
    ensures weightedPa == SumOf(slots, PaTerm(data)) && weightedIp == SumOf(slots, IpTerm(data))
  {
    weightedWar, totalWeight, weightedPa, weightedIp := 0.0, 0.0, 0.0, 0.0;
    var i := 0;
    while i < |slots|
      invariant 0 <= i <= |slots|
      invariant totalWeight == SumOf(slots[..i], WeightTerm(data)) && weightedWar == SumOf(slots[..i], WarTerm(data))
      invariant weightedPa == SumOf(slots[..i], PaTerm(data)) && weightedIp == SumOf(slots[..i], IpTerm(data))
    {
      var s := slots[i];
      TermsSnoc(slots[..i], s, data);
      assert slots[..i + 1] == slots[..i] + [s];
      if s.season in data {
        var d := data[s.season];
        var warVal := if d.war > ABSENT_WAR then d.war else 0.0;
        weightedWar := weightedWar + s.weight as real * warVal;
        totalWeight := totalWeight + s.weight as real;
        weightedPa := weightedPa + s.weight as real * d.pa as real;
        weightedIp := weightedIp + s.weight as real * d.ip;
      }
      i := i + 1;
    }
    assert slots[..|slots|] == slots;
  }

  /** The projection step of `build_projected_war_lookup` for one player. */
  method MarcelProjection(slots: seq<Slot>, data: map<int, SeasonLine>, birthYear: Option<int>, projectionSeason: int)
    returns (projection: Option<real>)
    ensures projection == Marcel(slots, data, birthYear, projectionSeason)
  {
    if data == map[] {
      return None;
    }
    var weightedWar, totalWeight, weightedPa, weightedIp := WeightedSums(slots, data);
    if totalWeight == 0.0 {
      return None;
    }
    weightedWar := weightedWar / totalWeight;
    weightedPa := weightedPa / totalWeight;
    weightedIp := weightedIp / totalWeight;
    assert weightedPa == WeightedPa(slots, data) && weightedIp == WeightedIp(slots, data);
    assert weightedWar == WeightedWar(slots, data);
    var reliability := Reliability(weightedPa, weightedIp);
    var projected := reliability * weightedWar;
    ghost var shrunk := projected;
    if birthYear.Some? && birthYear.value != 0 {
      var age := projectionSeason - birthYear.value;
      projected := projected + AgeAdjustment(age);
    }
    assert projected == shrunk + AgeTerm(birthYear, projectionSeason);
    assert shrunk == Shrunk(slots, data);
    return Some(projected);
  }

  /** Reliability lies in [0, 1): no sample is trusted fully. */
  lemma ReliabilityBounds(pa: real, ip: real)
    requires pa >= 0.0 && ip >= 0.0
    ensures 0.0 <= Reliability(pa, ip) < 1.0
  {
    if ip > pa / 4.0 {
      Weighted.QuotientBetween(ip, ip + 400.0, 0.0, 1.0);
    } else {
      Weighted.QuotientBetween(pa, pa + 1200.0, 0.0, 1.0);
    }
  }

  /** The age adjustment lies in [-0.5, 0.5], is zero at 28, is capped from
    * five years either side, and never grows with age. */
  lemma AgeAdjustmentFacts(a1: int, a2: int)
    ensures -0.5 <= AgeAdjustment(a1) <= 0.5
    ensures AgeAdjustment(PEAK_AGE) == 0.0
    ensures a1 <= PEAK_AGE - 5 ==> AgeAdjustment(a1) == 0.5
    ensures a1 >= PEAK_AGE + 5 ==> AgeAdjustment(a1) == -0.5
    ensures a1 <= a2 ==> AgeAdjustment(a1) >= AgeAdjustment(a2)
  {
  }

  /** A projection exists exactly when the player has a weighted season;
    * before the age term it is the weighted WAR shrunk towards zero, and the
    * age term moves it by at most half a win. */
  lemma MarcelShrinks(slots: seq<Slot>, data: map<int, SeasonLine>, birthYear: Option<int>, projectionSeason: int)
    ensures Marcel(slots, data, birthYear, projectionSeason).Some? <==> data != map[] && TotalWeight(slots, data) != 0.0
    ensures Marcel(slots, data, birthYear, projectionSeason).Some? ==>
      var war := WeightedWar(slots, data);
      var p := Marcel(slots, data, birthYear, projectionSeason).value - AgeTerm(birthYear, projectionSeason);
      (0.0 <= war ==> 0.0 <= p <= war) && (war <= 0.0 ==> war <= p <= 0.0)
    ensures -0.5 <= AgeTerm(birthYear, projectionSeason) <= 0.5
  {
    if data != map[] && TotalWeight(slots, data) != 0.0 {
      ReliabilityBounds(WeightedPa(slots, data), WeightedIp(slots, data));
      ShrinkTowardZero(Reliability(WeightedPa(slots, data), WeightedIp(slots, data)), WeightedWar(slots, data));
    }
    AgeAdjustmentFacts(projectionSeason - birthYear.GetOr(0), projectionSeason - birthYear.GetOr(0));
  }

  lemma ShrinkTowardZero(r: real, x: real)
    requires 0.0 <= r < 1.0
    ensures 0.0 <= x ==> 0.0 <= r * x <= x
    ensures x <= 0.0 ==> x <= r * x <= 0.0
  {
  }

  /** A constant times each slot's weight. */
  function ScaledWeight(data: map<int, SeasonLine>, c: real): Slot -> real
  {
    (s: Slot) => c * WeightTerm(data)(s)
  }

  lemma WarTermsBetween(slots: seq<Slot>, data: map<int, SeasonLine>, lo: real, hi: real)
    requires forall i :: 0 <= i < |slots| && slots[i].season in data ==> lo <= WarValue(data[slots[i].season]) <= hi
    ensures SumOf(slots, ScaledWeight(data, lo)) <= SumOf(slots, WarTerm(data)) <= SumOf(slots, ScaledWeight(data, hi))
  {
    forall i | 0 <= i < |slots|
      ensures ScaledWeight(data, lo)(slots[i]) <= WarTerm(data)(slots[i]) <= ScaledWeight(data, hi)(slots[i])
    {
      var s := slots[i];
      if s.season in data {
        assert WarTerm(data)(s) == s.weight as real * WarValue(data[s.season]);
        assert WeightTerm(data)(s) == s.weight as real;
        assert ScaledWeight(data, lo)(s) == lo * WeightTerm(data)(s);
        assert ScaledWeight(data, hi)(s) == hi * WeightTerm(data)(s);
        ScaledBetween(s.weight as real, WarValue(data[s.season]), lo, hi);
      } else {
        assert WarTerm(data)(s) == 0.0 && WeightTerm(data)(s) == 0.0;
      }
    }
    SumOfMonotone(slots, ScaledWeight(data, lo), WarTerm(data));
    SumOfMonotone(slots, WarTerm(data), ScaledWeight(data, hi));
  }

  lemma ScaledWeightSum(slots: seq<Slot>, data: map<int, SeasonLine>, c: real)
    ensures SumOf(slots, ScaledWeight(data, c)) == c * TotalWeight(slots, data)
  {
    SumOfLinear(slots, WeightTerm(data), WeightTerm(data), ScaledWeight(data, c), c, 0.0);
  }

  /** The weighted WAR lies between the lowest and the highest WAR of the
    * seasons the player appears in. */
  lemma WeightedWarBetween(slots: seq<Slot>, data: map<int, SeasonLine>, lo: real, hi: real)
    requires TotalWeight(slots, data) != 0.0
    requires forall i :: 0 <= i < |slots| && slots[i].season in data ==> lo <= WarValue(data[slots[i].season]) <= hi
    ensures lo <= WeightedWar(slots, data) <= hi
  {
    WarTermsBetween(slots, data, lo, hi);
    ScaledWeightSum(slots, data, lo);
    ScaledWeightSum(slots, data, hi);
    NonNegativeTerms(slots, data);
    Weighted.QuotientBetween(SumOf(slots, WarTerm(data)), TotalWeight(slots, data), lo, hi);
  }

  lemma ScaledBetween(w: real, x: real, lo: real, hi: real)
    requires w >= 0.0 && lo <= x <= hi
    ensures lo * w <= w * x <= hi * w
  {
  }

  /** The -999 sentinel counts as zero: a season whose WAR stayed at the
    * sentinel projects exactly as a season of zero WAR. */
  lemma SentinelCountsAsZero(slots: seq<Slot>, data: map<int, SeasonLine>, season: int, pa: nat, ip: Innings,
                             birthYear: Option<int>, projectionSeason: int)
    ensures Marcel(slots, data[season := SeasonLine(ABSENT_WAR, pa, ip)], birthYear, projectionSeason) ==
      Marcel(slots, data[season := SeasonLine(0.0, pa, ip)], birthYear, projectionSeason)
  {
    var d1 := data[season := SeasonLine(ABSENT_WAR, pa, ip)];
    var d2 := data[season := SeasonLine(0.0, pa, ip)];
    SumOfCongruent(slots, WeightTerm(d1), WeightTerm(d2));
    SumOfCongruent(slots, WarTerm(d1), WarTerm(d2));
    SumOfCongruent(slots, PaTerm(d1), PaTerm(d2));
    SumOfCongruent(slots, IpTerm(d1), IpTerm(d2));
    assert season in d1 && season in d2;
    MarcelCongruent(slots, d1, d2, birthYear, projectionSeason);
  }

  /** Two players with the same weighted sums get the same projection. */
  lemma MarcelCongruent(slots: seq<Slot>, d1: map<int, SeasonLine>, d2: map<int, SeasonLine>,
                        birthYear: Option<int>, projectionSeason: int)
    requires d1 != map[] && d2 != map[]
    requires SumOf(slots, WeightTerm(d1)) == SumOf(slots, WeightTerm(d2))
    requires SumOf(slots, WarTerm(d1)) == SumOf(slots, WarTerm(d2))
    requires SumOf(slots, PaTerm(d1)) == SumOf(slots, PaTerm(d2))
    requires SumOf(slots, IpTerm(d1)) == SumOf(slots, IpTerm(d2))
    ensures Marcel(slots, d1, birthYear, projectionSeason) == Marcel(slots, d2, birthYear, projectionSeason)
  {
    if TotalWeight(slots, d1) != 0.0 {
      assert WeightedWar(slots, d1) == WeightedWar(slots, d2);
      assert WeightedPa(slots, d1) == WeightedPa(slots, d2);
      assert WeightedIp(slots, d1) == WeightedIp(slots, d2);
      ShrunkCongruent(slots, d1, d2);
    }
  }

  lemma ShrunkCongruent(slots: seq<Slot>, d1: map<int, SeasonLine>, d2: map<int, SeasonLine>)
    requires TotalWeight(slots, d1) != 0.0 && TotalWeight(slots, d2) != 0.0
    requires WeightedWar(slots, d1) == WeightedWar(slots, d2)
    requires WeightedPa(slots, d1) == WeightedPa(slots, d2) && WeightedIp(slots, d1) == WeightedIp(slots, d2)
    ensures Shrunk(slots, d1) == Shrunk(slots, d2)
  {
    var rel := Reliability(WeightedPa(slots, d1), WeightedIp(slots, d1));
    assert rel == Reliability(WeightedPa(slots, d2), WeightedIp(slots, d2));
  }

  // Net WAR changes.

  /** `blend_weight * proj + (1 - blend_weight) * hist`. */
  function Blend(weight: real, proj: real, hist: real): real
  {
    weight * proj + (1.0 - weight) * hist
  }

  /** The WAR a move carries: the historical WAR, blended with the projected
    * WAR when there is a projection; a player missing from a lookup counts
    * as 0 there. */
  function MoveWar(lookup: map<int, real>, projected: Option<map<int, real>>, weight: real): Move -> real
  {
    (m: Move) =>
      if projected.Some? then Blend(weight, WarOr0(projected.value, m.playerId), WarOr0(lookup, m.playerId))
      else WarOr0(lookup, m.playerId)
  }

  /** A move with the WAR figures the script records on it. */
  datatype AnnotatedMove = AnnotatedMove(move: Move, warHistorical: real, warProjected: Option<real>,
                                         warBlended: Option<real>, war: real)

  function Annotate(lookup: map<int, real>, projected: Option<map<int, real>>, weight: real, m: Move): AnnotatedMove
  {
    var hist := WarOr0(lookup, m.playerId);
    if projected.Some? then
      var proj := WarOr0(projected.value, m.playerId);
      var blended := Blend(weight, proj, hist);
      AnnotatedMove(m, hist, Some(proj), Some(blended), blended)
    else AnnotatedMove(m, hist, None, None, hist)
  }

  function AnnotateAll(lookup: map<int, real>, projected: Option<map<int, real>>, weight: real, moves: seq<Move>): (r: seq<AnnotatedMove>)
    ensures |r| == |moves|
  {
    seq(|moves|, i requires 0 <= i < |moves| => Annotate(lookup, projected, weight, moves[i]))
  }

  /** The WAR recorded on each annotated move is the WAR the ledger posts,
    * and the blended figure is present exactly when there is a projection. */
  lemma AnnotateFacts(lookup: map<int, real>, projected: Option<map<int, real>>, weight: real, m: Move)
    ensures Annotate(lookup, projected, weight, m).move == m
    ensures Annotate(lookup, projected, weight, m).war == MoveWar(lookup, projected, weight)(m)
    ensures Annotate(lookup, projected, weight, m).warBlended.Some? <==> projected.Some?
  {
  }

  /** `team_delta`: one entry per club some move names, its gains less its
    * losses. */
  function NetWarChanges(moves: seq<Move>, lookup: map<int, real>, projected: Option<map<int, real>>, weight: real)
    : (delta: map<string, real>)
    ensures delta.Keys == Teams(moves)
  {
    map t | t in Teams(moves) :: Delta(moves, MoveWar(lookup, projected, weight))(t)
  }

  /** The move loop of `compute_net_war_changes`: each move annotated, and
    * its WAR posted to the ledgers. */
  method AnnotateAndPost(moves: seq<Move>, lookup: map<int, real>, projected: Option<map<int, real>>, weight: real)
    returns (gains: map<string, real>, losses: map<string, real>, annotated: seq<AnnotatedMove>)
    ensures SideTracks(moves, ToTeam, MoveWar(lookup, projected, weight), gains)
    ensures SideTracks(moves, FromTeam, MoveWar(lookup, projected, weight), losses)
    ensures annotated == AnnotateAll(lookup, projected, weight, moves)
  {
    var war := MoveWar(lookup, projected, weight);
    gains, losses, annotated := map[], map[], [];
    var i := 0;
    while i < |moves|
      invariant 0 <= i <= |moves|
      invariant SideTracks(moves[..i], ToTeam, war, gains)
      invariant SideTracks(moves[..i], FromTeam, war, losses)
      invariant annotated == AnnotateAll(lookup, projected, weight, moves[..i])
    {
      var move := moves[i];
      SideStep(moves, ToTeam, war, gains, i);
      SideStep(moves, FromTeam, war, losses, i);
      var a := Annotate(lookup, projected, weight, move);
      AnnotateFacts(lookup, projected, weight, move);
      gains := Post(gains, move.toTeam, a.war);
      losses := Post(losses, move.fromTeam, a.war);
      annotated := annotated + [a];
      i := i + 1;
    }
    assert moves[..|moves|] == moves;
  }

  /** A club's delta, gains less losses. */
  function NetOf(): (real, real) -> real
  {
    (gained: real, lost: real) => gained - lost
  }

  lemma NetWarChangesOf(moves: seq<Move>, lookup: map<int, real>, projected: Option<map<int, real>>, weight: real,
                        delta: map<string, real>)
    requires delta.Keys == Teams(moves)
    requires forall t :: t in delta ==>
      delta[t] == NetOf()(Gained(moves, MoveWar(lookup, projected, weight), t), Lost(moves, MoveWar(lookup, projected, weight), t))
    ensures delta == NetWarChanges(moves, lookup, projected, weight)
  {
    NetTable(moves, MoveWar(lookup, projected, weight), delta);
  }

  /** A table holding each club's net change, for any WAR per move. */
  lemma NetTable(moves: seq<Move>, war: Move -> real, delta: map<string, real>)
    requires delta.Keys == Teams(moves)
    requires forall t :: t in delta ==> delta[t] == NetOf()(Gained(moves, war, t), Lost(moves, war, t))
    ensures delta == map t | t in Teams(moves) :: Delta(moves, war)(t)
  {
    var target := map t | t in Teams(moves) :: Delta(moves, war)(t);
    forall t | t in delta ensures delta[t] == target[t] {
    }
  }

  /** `compute_net_war_changes`. */
  method ComputeNetWarChanges(moves: seq<Move>, lookup: map<int, real>, projected: Option<map<int, real>>, weight: real)
    returns (delta: map<string, real>, annotated: seq<AnnotatedMove>)
    ensures delta == NetWarChanges(moves, lookup, projected, weight)
    ensures annotated == AnnotateAll(lookup, projected, weight, moves)
  {
    var gains, losses;
    gains, losses, annotated := AnnotateAndPost(moves, lookup, projected, weight);
    var teams := Sorting.SortedSet(gains.Keys + losses.Keys);
    delta := Entries(moves, MoveWar(lookup, projected, weight), gains, losses, teams, NetOf());
    NetWarChangesOf(moves, lookup, projected, weight, delta);
  }

  /** The blend gives the historical WAR at weight 0, the projected WAR at
    * weight 1, and a value between the two for any weight in between. */
  lemma BlendFacts(weight: real, proj: real, hist: real)
    ensures Blend(0.0, proj, hist) == hist && Blend(1.0, proj, hist) == proj
    ensures 0.0 <= weight <= 1.0 && hist <= proj ==> hist <= Blend(weight, proj, hist) <= proj
    ensures 0.0 <= weight <= 1.0 && proj <= hist ==> proj <= Blend(weight, proj, hist) <= hist
  {
    var d := proj - hist;
    assert Blend(weight, proj, hist) == hist + weight * d;
    if 0.0 <= weight <= 1.0 {
      if hist <= proj {
        Weighted.ScaledBetween(d, 0.0, weight, 1.0);
        assert 0.0 <= weight * d <= d;
      } else {
        Weighted.ScaledBetween(-d, 0.0, weight, 1.0);
        assert 0.0 <= weight * -d <= -d;
      }
    }
  }

  /** A player missing from every lookup carries no WAR. */
  lemma MissingPlayerCountsZero(lookup: map<int, real>, projected: Option<map<int, real>>, weight: real, m: Move)
    requires m.playerId !in lookup && (projected.Some? ==> m.playerId !in projected.value)
    ensures MoveWar(lookup, projected, weight)(m) == 0.0
  {
  }

  /** A club's delta read from the table, zero for a club without one. */
  function DeltaIn(delta: map<string, real>): string -> real
  {
    (t: string) => if t in delta then delta[t] else 0.0
  }

  lemma DeltaInAgrees(moves: seq<Move>, lookup: map<int, real>, projected: Option<map<int, real>>, weight: real,
                      order: seq<string>)
    requires forall t :: t in order ==> t in Teams(moves)
    ensures SumOf(order, DeltaIn(NetWarChanges(moves, lookup, projected, weight))) ==
      SumOf(order, Delta(moves, MoveWar(lookup, projected, weight)))
  {
    var war := MoveWar(lookup, projected, weight);
    var delta := NetWarChanges(moves, lookup, projected, weight);
    forall i | 0 <= i < |order| ensures DeltaIn(delta)(order[i]) == Delta(moves, war)(order[i]) {
    }
    SumOfCongruent(order, DeltaIn(delta), Delta(moves, war));
  }

  /** Summed over the clubs, the deltas add up to the moves' own net terms
    * (gains count up, losses down, a trade both ways); when every move is a
    * trade they add up to zero. */
  lemma NetWarBalance(moves: seq<Move>, lookup: map<int, real>, projected: Option<map<int, real>>, weight: real,
                      order: seq<string>)
    requires Sorting.Distinct(order) && forall t :: t in order <==> t in Teams(moves)
    ensures SumOf(order, DeltaIn(NetWarChanges(moves, lookup, projected, weight))) ==
      SumOf(moves, NetTerm(MoveWar(lookup, projected, weight)))
    ensures (forall i :: 0 <= i < |moves| ==> Named(moves[i].toTeam) && Named(moves[i].fromTeam)) ==>
      SumOf(order, DeltaIn(NetWarChanges(moves, lookup, projected, weight))) == 0.0
  {
    var war := MoveWar(lookup, projected, weight);
    DeltaInAgrees(moves, lookup, projected, weight, order);
    TeamsCovered(moves, order);
    NetChangesBalance(moves, war, order);
    if forall i :: 0 <= i < |moves| ==> Named(moves[i].toTeam) && Named(moves[i].fromTeam) {
      TradesCancel(moves, war);
    }
  }

  // Preseason ratings.

  datatype BaselineRow = BaselineRow(team: string, elo: real)

  datatype PreseasonRow = PreseasonRow(team: string, eloEndOfSeason: real, netWarChange: real,
                                       eloAdjustment: real, preseasonElo: real)

  /** A club's row: its delta (0 for a club without one) times the Elo per
    * WAR, rounded to a tenth, added to its end-of-season rating. */
  function PreseasonRowOf(delta: map<string, real>, warToElo: real, row: BaselineRow): PreseasonRow
  {
    RatedRow(row.team, row.elo, if row.team in delta then delta[row.team] else 0.0, warToElo)
  }

  function RatedRow(team: string, elo: real, net: real, warToElo: real): PreseasonRow
  {
    var adjustment := Round(net * warToElo, 1);
    PreseasonRow(team, Round(elo, 2), Round(net, 1), adjustment, Round(elo + adjustment, 2))
  }

  function PreseasonElo(r: PreseasonRow): real { r.preseasonElo }

  function PreseasonRows(delta: map<string, real>, warToElo: real, baseline: seq<BaselineRow>): (rows: seq<PreseasonRow>)
    ensures |rows| == |baseline|
  {
    seq(|baseline|, i requires 0 <= i < |baseline| => PreseasonRowOf(delta, warToElo, baseline[i]))
  }

  /** `apply_elo_adjustment`'s table: the rows from the highest preseason
    * rating down. */
  function PreseasonTable(delta: map<string, real>, warToElo: real, baseline: seq<BaselineRow>): seq<PreseasonRow>
  {
    Sorting.Sort(PreseasonRows(delta, warToElo, baseline), Sorting.ByKeyDesc(PreseasonElo))
  }

  /** `apply_elo_adjustment` on the baseline's rows. */
  method ApplyEloAdjustment(baseline: seq<BaselineRow>, delta: map<string, real>, warToElo: real)
    returns (table: seq<PreseasonRow>)
    ensures table == PreseasonTable(delta, warToElo, baseline)
  {
    var rows := AdjustRows(baseline, delta, warToElo);
    table := Sorting.Sort(rows, Sorting.ByKeyDesc(PreseasonElo));
  }

  /** The row loop of `apply_elo_adjustment`. */
  method AdjustRows(baseline: seq<BaselineRow>, delta: map<string, real>, warToElo: real)
    returns (rows: seq<PreseasonRow>)
    ensures rows == PreseasonRows(delta, warToElo, baseline)
  {
    rows := [];
    var i := 0;
    while i < |baseline|
      invariant 0 <= i <= |baseline|
      invariant rows == PreseasonRows(delta, warToElo, baseline[..i])
    {
      var row := baseline[i];
      var netWar := if row.team in delta then delta[row.team] else 0.0;
      rows := rows + [RatedRow(row.team, row.elo, netWar, warToElo)];
      assert baseline[..i + 1] == baseline[..i] + [row];
      PreseasonRowsSnoc(delta, warToElo, baseline[..i], row);
      i := i + 1;
    }
    assert baseline[..|baseline|] == baseline;
  }

  lemma PreseasonRowsSnoc(delta: map<string, real>, warToElo: real, baseline: seq<BaselineRow>, row: BaselineRow)
    ensures PreseasonRows(delta, warToElo, baseline + [row]) ==
      PreseasonRows(delta, warToElo, baseline) + [PreseasonRowOf(delta, warToElo, row)]
  {
  }

  /** A club without a delta keeps its rating, rounded to the hundredth. */
  lemma PreseasonRowAbsent(delta: map<string, real>, warToElo: real, row: BaselineRow)
    requires row.team !in delta
    ensures PreseasonRowOf(delta, warToElo, row).team == row.team
    ensures PreseasonRowOf(delta, warToElo, row).netWarChange == 0.0
    ensures PreseasonRowOf(delta, warToElo, row).eloAdjustment == 0.0
    ensures PreseasonRowOf(delta, warToElo, row).preseasonElo == Round(row.elo, 2)
  {
    assert 0.0 * warToElo == 0.0;
    RoundZero(1);
    assert row.elo + Round(0.0, 1) == row.elo;
  }

  /** Every adjustment is within half a tenth of the delta times the Elo per
    * WAR, and every preseason rating within half a hundredth of the rating
    * plus the adjustment. */
  lemma PreseasonRowNear(delta: map<string, real>, warToElo: real, row: BaselineRow)
    requires row.team in delta
    ensures -0.05 <= PreseasonRowOf(delta, warToElo, row).eloAdjustment - delta[row.team] * warToElo <= 0.05
    ensures -0.005 <= PreseasonRowOf(delta, warToElo, row).preseasonElo -
      (row.elo + PreseasonRowOf(delta, warToElo, row).eloAdjustment) <= 0.005
  {
    RatedRowNear(row.team, row.elo, delta[row.team], warToElo);
  }

  lemma RatedRowNear(team: string, elo: real, net: real, warToElo: real)
    ensures -0.05 <= RatedRow(team, elo, net, warToElo).eloAdjustment - net * warToElo <= 0.05
    ensures -0.005 <= RatedRow(team, elo, net, warToElo).preseasonElo -
      (elo + RatedRow(team, elo, net, warToElo).eloAdjustment) <= 0.005
  {
    RoundError(net * warToElo, 1);
    RoundError(elo + Round(net * warToElo, 1), 2);
  }

  /** The table lists every club's row once, from the highest preseason
    * rating down. */
  lemma PreseasonTableOrdered(delta: map<string, real>, warToElo: real, baseline: seq<BaselineRow>)
    ensures multiset(PreseasonTable(delta, warToElo, baseline)) == multiset(PreseasonRows(delta, warToElo, baseline))
    ensures forall i, j :: 0 <= i < j < |PreseasonTable(delta, warToElo, baseline)| ==>
      PreseasonTable(delta, warToElo, baseline)[i].preseasonElo >= PreseasonTable(delta, warToElo, baseline)[j].preseasonElo
  {
    var le := Sorting.ByKeyDesc(PreseasonElo);
    var table := PreseasonTable(delta, warToElo, baseline);
    Sorting.ByKeyDescPreorder(PreseasonElo);
    Sorting.SortSorted(PreseasonRows(delta, warToElo, baseline), le);
    forall i, j | 0 <= i < j < |table| ensures table[i].preseasonElo >= table[j].preseasonElo {
      assert le(table[i], table[j]);
      assert PreseasonElo(table[i]) >= PreseasonElo(table[j]);
    }
  }
}
