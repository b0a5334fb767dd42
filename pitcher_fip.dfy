/** The season FIP script: innings strings, the starters of a schedule, the
  * league FIP constant and each pitcher's FIP. The stats feed is a
  * parameter: each fetched pitcher arrives as a `PitcherStats`. */
module PitcherFip {
  import opened Wrappers
  import opened Sums
  import Decimal
  import Text
  import Stats
  import Sorting
  import opened Rounding
  import opened Folds

  // Innings pitched.

  /** `parse_ip`: "W.T" is W innings and T thirds of an inning, "W" is W
    * innings, and the empty string is 0. `int()` of a piece that is not
    * a number raises, which is the error case. */
  function ParseIp(s: string): (r: Result<real>)
    ensures s == "" ==> r == Ok(0.0)
  {
    if |s| == 0 then Ok(0.0)
    else
      var parts := Text.Split(s, '.');
      match Decimal.Read(parts[0])
      case None => Err("invalid literal for int()")
      case Some(whole) =>
        if |parts| > 1 then
          match Decimal.Read(parts[1])
          case None => Err("invalid literal for int()")
          case Some(thirds) => Ok(whole as real + thirds as real / 3.0)
        else Ok(whole as real)
  }

  lemma NoDot(n: int)
    ensures '.' !in Decimal.Show(n)
  {
    var s := Decimal.Show(n);
    if n < 0 {
      assert s == "-" + Decimal.NatDigits(-n);
      forall i | 0 <= i < |s| ensures s[i] != '.' {
        if i > 0 {
          assert s[i] == Decimal.NatDigits(-n)[i - 1];
        }
      }
    }
  }

  /** A whole number of innings reads back as itself. */
  lemma ParseIpWhole(w: int)
    ensures ParseIp(Decimal.Show(w)) == Ok(w as real)
  {
    NoDot(w);
    Text.SplitNone(Decimal.Show(w), '.');
    Decimal.ReadShow(w);
  }

  /** "W.T" reads as W + T/3: the digit after the point counts thirds. */
  lemma ParseIpThirds(w: int, t: int)
    ensures ParseIp(Decimal.Show(w) + "." + Decimal.Show(t)) == Ok(w as real + t as real / 3.0)
  {
    NoDot(w);
    NoDot(t);
    Text.SplitAt(Decimal.Show(w), '.', Decimal.Show(t));
    Text.SplitNone(Decimal.Show(t), '.');
    Decimal.ReadShow(w);
    Decimal.ReadShow(t);
  }

  /** The box-score notation of a number of outs, written as whole innings
    * and the outs left over, reads back as those outs over three. */
  lemma ParseIpOuts(outs: nat)
    requires outs > 0
    ensures ParseIp(Decimal.Show(outs / 3) + "." + Decimal.Show(outs % 3)) == Ok(Stats.IpDecimal(outs))
  {
    ParseIpThirds(outs / 3, outs % 3);
    var ip := Stats.IpDecimal(outs);
    assert ip * 3.0 == outs as real;
    assert (outs / 3) as real * 3.0 + (outs % 3) as real == outs as real;
  }

  // Starters from the schedule.

  /** A row of the schedule file; a starter id is `None` when its cell is
    * blank after stripping. */
  datatype ScheduleRow = ScheduleRow(status: string, homeId: Option<int>, homeName: string,
                                     awayId: Option<int>, awayName: string)

  /** The (id, name) pairs a row offers, home first; only final rows count. */
  function RowStarters(row: ScheduleRow): (e: seq<(int, string)>)
    ensures |e| <= 2
  {
    if row.status != "Final" then []
    else
      (if row.homeId.Some? then [(row.homeId.value, row.homeName)] else []) +
      (if row.awayId.Some? then [(row.awayId.value, row.awayName)] else [])
  }

  /** Every offered pair, in file order. */
  function Offered(rows: seq<ScheduleRow>): seq<(int, string)>
  {
    if |rows| == 0 then [] else Offered(rows[..|rows| - 1]) + RowStarters(rows[|rows| - 1])
  }

  /** A dictionary filled only with keys it does not hold yet: the first
    * pair with each key wins. */
  function FirstWins(pairs: seq<(int, string)>): map<int, string>
  {
    if |pairs| == 0 then map[]
    else
      var m := FirstWins(pairs[..|pairs| - 1]);
      var (k, v) := pairs[|pairs| - 1];
      if k in m then m else m[k := v]
  }

  predicate FirstAt(pairs: seq<(int, string)>, i: int, k: int)
  {
    0 <= i < |pairs| && pairs[i].0 == k && forall j :: 0 <= j < i ==> pairs[j].0 != k
  }

  /** A key is held exactly when some pair has it. */
  lemma {:induction false} FirstWinsKeys(pairs: seq<(int, string)>, k: int)
    ensures k in FirstWins(pairs) <==> exists i :: 0 <= i < |pairs| && pairs[i].0 == k
    decreases |pairs|
  {
    if |pairs| > 0 {
      var n := |pairs| - 1;
      var init := pairs[..n];
      FirstWinsKeys(init, k);
      if k in FirstWins(init) {
        var i :| 0 <= i < n && init[i].0 == k;
        assert pairs[i].0 == k;
      }
      if exists i :: 0 <= i < n && pairs[i].0 == k {
        var i :| 0 <= i < n && pairs[i].0 == k;
        assert init[i].0 == k;
      }
    }
  }

  /** A held key carries the name of the first pair with that key. */
  lemma {:induction false} FirstWinsValue(pairs: seq<(int, string)>, k: int, i: int)
    requires FirstAt(pairs, i, k)
    ensures k in FirstWins(pairs) && FirstWins(pairs)[k] == pairs[i].1
    decreases |pairs|
  {
    var n := |pairs| - 1;
    var init := pairs[..n];
    if i < n {
      assert FirstAt(init, i, k);
      FirstWinsValue(init, k, i);
    } else {
      assert forall j :: 0 <= j < n ==> init[j].0 != k;
      FirstWinsKeys(init, k);
    }
  }

  lemma OfferedStep(rows: seq<ScheduleRow>, i: nat)
    requires i < |rows|
    ensures Offered(rows[..i + 1]) == Offered(rows[..i]) + RowStarters(rows[i])
  {
    assert rows[..i + 1][..i] == rows[..i];
  }

  lemma FirstWinsSnoc(pairs: seq<(int, string)>, k: int, v: string)
    ensures FirstWins(pairs + [(k, v)]) == (if k in FirstWins(pairs) then FirstWins(pairs) else FirstWins(pairs)[k := v])
  {
    assert (pairs + [(k, v)])[..|pairs|] == pairs;
  }

  /** One row of the walk: its home starter, then its away starter, each
    * added only when their id is new. */
  method AddRowStarters(starters: map<int, string>, ghost before: seq<(int, string)>, row: ScheduleRow)
    returns (after: map<int, string>)
    requires starters == FirstWins(before)
    ensures after == FirstWins(before + RowStarters(row))
  {
    after := starters;
    ghost var seen := before;
    if row.status == "Final" {
      if row.homeId.Some? {
        FirstWinsSnoc(seen, row.homeId.value, row.homeName);
        if row.homeId.value !in after {
          after := after[row.homeId.value := row.homeName];
        }
        seen := seen + [(row.homeId.value, row.homeName)];
      }
      if row.awayId.Some? {
        FirstWinsSnoc(seen, row.awayId.value, row.awayName);
        if row.awayId.value !in after {
          after := after[row.awayId.value := row.awayName];
        }
        seen := seen + [(row.awayId.value, row.awayName)];
      }
    }
    assert seen == before + RowStarters(row);
  }

  /** `get_starter_ids_from_schedule`: walk the final rows, home then away,
    * keeping the first name seen for each starter id. */
  method GetStarterIds(rows: seq<ScheduleRow>) returns (starters: map<int, string>)
    ensures starters == FirstWins(Offered(rows))
  {
    starters := map[];
    var r := 0;
    while r < |rows|
      invariant 0 <= r <= |rows|
      invariant starters == FirstWins(Offered(rows[..r]))
    {
      OfferedStep(rows, r);
      starters := AddRowStarters(starters, Offered(rows[..r]), rows[r]);
      r := r + 1;
    }
    assert rows[..r] == rows;
  }

  predicate HasKey(pairs: seq<(int, string)>, k: int)
  {
    exists i :: 0 <= i < |pairs| && pairs[i].0 == k
  }

  /** Row `r` is final and names `k` as one of its starters. */
  predicate NamesStarter(rows: seq<ScheduleRow>, r: int, k: int)
  {
    0 <= r < |rows| && rows[r].status == "Final" && (rows[r].homeId == Some(k) || rows[r].awayId == Some(k))
  }

  lemma HasKeyAppend(a: seq<(int, string)>, b: seq<(int, string)>, k: int)
    ensures HasKey(a + b, k) <==> HasKey(a, k) || HasKey(b, k)
  {
    if HasKey(a + b, k) {
      var i :| 0 <= i < |a + b| && (a + b)[i].0 == k;
      if i >= |a| {
        assert b[i - |a|].0 == k;
      }
    }
    if HasKey(b, k) {
      var i :| 0 <= i < |b| && b[i].0 == k;
      assert (a + b)[|a| + i] == b[i];
    }
    if HasKey(a, k) {
      var i :| 0 <= i < |a| && a[i].0 == k;
      assert (a + b)[i] == a[i];
    }
  }

  lemma RowStartersKey(row: ScheduleRow, k: int)
    ensures HasKey(RowStarters(row), k) <==> row.status == "Final" && (row.homeId == Some(k) || row.awayId == Some(k))
  {
    var e := RowStarters(row);
    if row.status == "Final" && (row.homeId == Some(k) || row.awayId == Some(k)) {
      var i := if row.homeId == Some(k) then 0 else |e| - 1;
      assert e[i].0 == k;
    }
  }

  lemma {:induction false} OfferedFrom(rows: seq<ScheduleRow>, k: int)
    ensures HasKey(Offered(rows), k) <==> exists r :: NamesStarter(rows, r, k)
    decreases |rows|
  {
    if |rows| > 0 {
      var n := |rows| - 1;
      OfferedFrom(rows[..n], k);
      HasKeyAppend(Offered(rows[..n]), RowStarters(rows[n]), k);
      RowStartersKey(rows[n], k);
      assert Offered(rows) == Offered(rows[..n]) + RowStarters(rows[n]);
      NamesStarterSplit(rows, rows[..n], k);
    }
  }

  /** A row of `rows` names the starter when one of the earlier rows does or
    * the last one does. */
  lemma NamesStarterSplit(rows: seq<ScheduleRow>, init: seq<ScheduleRow>, k: int)
    requires |rows| > 0 && init == rows[..|rows| - 1]
    ensures (exists r :: NamesStarter(rows, r, k)) <==>
      (exists r :: NamesStarter(init, r, k)) || NamesStarter(rows, |rows| - 1, k)
  {
    var n := |rows| - 1;
    if exists r :: NamesStarter(rows, r, k) {
      var r :| NamesStarter(rows, r, k);
      if r < n {
        assert NamesStarter(rows[..n], r, k);
      }
    }
    if exists r :: NamesStarter(rows[..n], r, k) {
      var r :| NamesStarter(rows[..n], r, k);
      assert NamesStarter(rows, r, k);
    }
  }

  /** A pitcher is among the starters exactly when a final row names them as
    * the home or the away starter; rows of other statuses never count. */
  lemma StartersFromFinalRows(rows: seq<ScheduleRow>, k: int)
    ensures k in FirstWins(Offered(rows)) <==> exists r :: NamesStarter(rows, r, k)
  {
    FirstWinsKeys(Offered(rows), k);
    OfferedFrom(rows, k);
  }

  // FIP.

  /** One pitcher's season line as the stats fetch returns it; innings are
    * positive, since a line with none is dropped there. */
  datatype PitcherStats = PitcherStats(pitcherId: int, name: string, team: string, ip: real,
                                       hr: int, bb: int, hbp: int, k: int, era: real,
                                       gamesStarted: int, gamesPlayed: int)

  const FALLBACK_CFIP: real := 3.10

  function Ip(s: PitcherStats): real { s.ip }
  function EarnedRuns(s: PitcherStats): real { s.era * s.ip / 9.0 }
  function Numerator(s: PitcherStats): real { (13 * s.hr + 3 * (s.bb + s.hbp) - 2 * s.k) as real }

  function TotalIp(all: seq<PitcherStats>): real { SumOf(all, Ip) }

  /** League ERA: earned runs per nine innings over the whole league. */
  function LeagueEra(all: seq<PitcherStats>): real
    requires TotalIp(all) != 0.0
  {
    SumOf(all, EarnedRuns) * 9.0 / TotalIp(all)
  }

  /** League FIP before the constant is added. */
  function RawLeagueFip(all: seq<PitcherStats>): real
    requires TotalIp(all) != 0.0
  {
    SumOf(all, Numerator) / TotalIp(all)
  }

  /** `calculate_fip_constant`: 3.10 for a league without innings, else the
    * constant that lifts raw league FIP to league ERA. */
  function CalculateFipConstant(all: seq<PitcherStats>): (cfip: real)
    ensures TotalIp(all) == 0.0 ==> cfip == FALLBACK_CFIP
    ensures TotalIp(all) != 0.0 ==> cfip + RawLeagueFip(all) == LeagueEra(all)
  {
    if TotalIp(all) == 0.0 then FALLBACK_CFIP else LeagueEra(all) - RawLeagueFip(all)
  }

  /** `calculate_fip`: no FIP without innings. */
  function CalculateFip(s: PitcherStats, cfip: real): (r: Option<real>)
    ensures r.None? <==> s.ip <= 0.0
    ensures r.Some? ==> (r.value - cfip) * s.ip == Numerator(s)
  {
    if s.ip <= 0.0 then None
    else
      var f := Numerator(s) / s.ip + cfip;
      assert (f - cfip) * s.ip == Numerator(s);
      Some(f)
  }

  /** Innings times FIP, written without the division. */
  function IpTimesFip(cfip: real): PitcherStats -> real
  {
    (s: PitcherStats) => Numerator(s) + cfip * s.ip
  }

  lemma IpTimesCalculatedFip(s: PitcherStats, cfip: real)
    requires s.ip > 0.0
    ensures s.ip * CalculateFip(s, cfip).value == IpTimesFip(cfip)(s)
  {
  }

  lemma EraTimesTotal(all: seq<PitcherStats>)
    requires TotalIp(all) != 0.0
    ensures LeagueEra(all) * TotalIp(all) == 9.0 * SumOf(all, EarnedRuns)
    ensures RawLeagueFip(all) * TotalIp(all) == SumOf(all, Numerator)
  {
  }

  /** The constant times total innings is the league's earned runs times
    * nine, less the league numerator. */
  lemma ConstantTimesTotal(all: seq<PitcherStats>)
    requires TotalIp(all) != 0.0
    ensures CalculateFipConstant(all) * TotalIp(all) == 9.0 * SumOf(all, EarnedRuns) - SumOf(all, Numerator)
  {
    var t := TotalIp(all);
    EraTimesTotal(all);
    Distribute(LeagueEra(all), RawLeagueFip(all), t);
  }

  lemma Distribute(a: real, b: real, t: real)
    ensures (a - b) * t == a * t - b * t
  {
  }

  /** For any constant, innings times FIP sums to the league numerator
    * plus the constant times total innings. */
  lemma WeightedSum(all: seq<PitcherStats>, c: real)
    ensures SumOf(all, IpTimesFip(c)) == SumOf(all, Numerator) + c * TotalIp(all)
  {
    SumOfLinear(all, Numerator, Ip, IpTimesFip(c), 1.0, c);
  }

  /** With the constant computed from the same pitchers, innings times FIP
    * summed over the league is nine times the league's earned runs: the
    * IP-weighted mean of the individual FIPs is league ERA. */
  lemma WeightedFipIsLeagueEra(all: seq<PitcherStats>)
    requires TotalIp(all) != 0.0
    ensures SumOf(all, IpTimesFip(CalculateFipConstant(all))) == LeagueEra(all) * TotalIp(all)
    ensures SumOf(all, IpTimesFip(CalculateFipConstant(all))) == 9.0 * SumOf(all, EarnedRuns)
  {
    var c := CalculateFipConstant(all);
    WeightedSum(all, c);
    ConstantTimesTotal(all);
    EraTimesTotal(all);
  }

  // The published table.

  /** A row of the published table. */
  datatype FipRow = FipRow(pitcherId: int, name: string, team: string, ip: real, era: real, fip: real,
                           k: int, bb: int, hbp: int, hr: int, gamesStarted: int)

  function FipOf(row: FipRow): real { row.fip }

  /** The row of a pitcher with a FIP: innings to one decimal, FIP to two. */
  function TableRow(s: PitcherStats, fip: real): FipRow
  {
    FipRow(s.pitcherId, s.name, s.team, Round(s.ip, 1), s.era, Round(fip, 2),
           s.k, s.bb, s.hbp, s.hr, s.gamesStarted)
  }

  function RowOf(cfip: real): PitcherStats -> Option<FipRow>
  {
    (s: PitcherStats) => if s.ip <= 0.0 then None else Some(TableRow(s, CalculateFip(s, cfip).value))
  }

  /** The rows before sorting: one per pitcher with a FIP, in fetch order. */
  function Rows(all: seq<PitcherStats>, cfip: real): seq<FipRow>
  {
    FilterMap(RowOf(cfip), all)
  }

  /** Step 4 of the script: a row per pitcher with a FIP, then the table
    * sorted by FIP, lowest first, ties in fetch order. */
  method BuildFipTable(all: seq<PitcherStats>, cfip: real) returns (table: seq<FipRow>)
    ensures table == Sorting.Sort(Rows(all, cfip), Sorting.ByKeyAsc(FipOf))
  {
    var rows := [];
    var i := 0;
    while i < |all|
      invariant 0 <= i <= |all|
      invariant rows == Rows(all[..i], cfip)
    {
      FilterMapStep(RowOf(cfip), all, i);
      var fip := CalculateFip(all[i], cfip);
      if fip.Some? {
        rows := rows + [TableRow(all[i], fip.value)];
      }
      i := i + 1;
    }
    assert all[..i] == all;
    table := Sorting.Sort(rows, Sorting.ByKeyAsc(FipOf));
  }

  /** The table is ordered by FIP, holds exactly the rows of the pitchers
    * with innings, and each of them once. */
  lemma FipTableSpec(all: seq<PitcherStats>, cfip: real)
    ensures Sorting.SortedBy(Sorting.Sort(Rows(all, cfip), Sorting.ByKeyAsc(FipOf)), Sorting.ByKeyAsc(FipOf))
    ensures multiset(Sorting.Sort(Rows(all, cfip), Sorting.ByKeyAsc(FipOf))) == multiset(Rows(all, cfip))
    ensures (forall i :: 0 <= i < |all| ==> all[i].ip > 0.0) ==>
              Rows(all, cfip) == seq(|all|, i requires 0 <= i < |all| => TableRow(all[i], CalculateFip(all[i], cfip).value))
  {
    Sorting.ByKeyAscPreorder(FipOf);
    Sorting.SortSorted(Rows(all, cfip), Sorting.ByKeyAsc(FipOf));
    if forall i :: 0 <= i < |all| ==> all[i].ip > 0.0 {
      RowsAll(all, cfip);
    }
  }

  lemma {:induction false} RowsAll(all: seq<PitcherStats>, cfip: real)
    requires forall i :: 0 <= i < |all| ==> all[i].ip > 0.0
    ensures Rows(all, cfip) == seq(|all|, i requires 0 <= i < |all| => TableRow(all[i], CalculateFip(all[i], cfip).value))
    decreases |all|
  {
    if |all| > 0 {
      var n := |all| - 1;
      RowsAll(all[..n], cfip);
      FilterMapStep(RowOf(cfip), all, n);
      assert all[..n + 1] == all;
    }
  }
}
