/** The playoff-odds diagnostic: from a saved simulation matrix it flags,
  * trial by trial, the American League clubs that make the field, measures
  * how often a club that reaches a given win total gets in, lists the clubs
  * closest to it by median wins, and reads a FanGraphs file for comparison.
  * The code tables are a parameter; the script uses
  * `TeamCodes.MlbTables()`. */
module FangraphsDiagnostic {
  import opened Wrappers
  import opened Sorting
  import opened Folds
  import opened Playoffs
  import opened PairTables
  import SP = SeasonProjections
  import TeamCodes
  import Rounding
  import CoreBenchmarks
  import FangraphsNetFwar
  import Text

  // Loading the simulation matrix.

  /** A column of the simulation file: its header and one win total per
    * trial. */
  datatype Column = Column(name: string, wins: seq<int>)

  /** The simulation file: `n` trials and its columns in file order. */
  datatype Frame = Frame(n: nat, columns: seq<Column>)

  function Kept(): Column -> Option<Column>
  {
    (c: Column) => if c.name == "sim_id" then None else Some(c)
  }

  /** The column names in file order. */
  function Names(columns: seq<Column>): (names: seq<string>)
    ensures |names| == |columns| && forall i :: 0 <= i < |columns| ==> names[i] == columns[i].name
  {
    if |columns| == 0 then [] else Names(columns[..|columns| - 1]) + [columns[|columns| - 1].name]
  }

  /** `load_sim_matrix`: only a `.parquet` or `.csv` suffix (in any case) is
    * read; the `sim_id` column is dropped; any other column that is not a
    * club code is an error. */
  function LoadSimMatrix(tab: TeamCodes.Tables, suffix: string, raw: Frame): Result<Frame>
  {
    var s := CoreBenchmarks.Lower(suffix);
    if s != ".parquet" && s != ".csv" then Err("Unsupported sim file format")
    else
      var kept := FilterMap(Kept(), raw.columns);
      if exists c :: c in kept && c.name !in tab.league then Err("Simulation file contains unknown team columns")
      else Ok(Frame(raw.n, kept))
  }

  /** The load succeeds exactly when the suffix is supported and every
    * column but `sim_id` is a club code; the loaded frame keeps the trials
    * and exactly the columns other than `sim_id`, in order. */
  lemma LoadSimMatrixSpec(tab: TeamCodes.Tables, suffix: string, raw: Frame)
    ensures var r := LoadSimMatrix(tab, suffix, raw);
      var s := CoreBenchmarks.Lower(suffix);
      (r.Ok? <==> (s == ".parquet" || s == ".csv") &&
                  forall i :: 0 <= i < |raw.columns| && raw.columns[i].name != "sim_id" ==> raw.columns[i].name in tab.league) &&
      (r.Ok? ==>
        (r.value.n == raw.n && r.value.columns == FilterMap(Kept(), raw.columns) &&
         (forall c :: c in r.value.columns <==> c in raw.columns && c.name != "sim_id") &&
         forall c :: c in r.value.columns ==> c.name in tab.league))
  {
    var kept := FilterMap(Kept(), raw.columns);
    forall c ensures c in kept <==> c in raw.columns && c.name != "sim_id" {
      FilterMapMembers(Kept(), raw.columns, c);
      if c in raw.columns && c.name != "sim_id" {
        var i :| 0 <= i < |raw.columns| && raw.columns[i] == c;
        assert Kept()(raw.columns[i]) == Some(c);
      }
    }
    forall i | 0 <= i < |raw.columns| && raw.columns[i].name != "sim_id"
      ensures raw.columns[i] in kept
    {
      assert raw.columns[i] in raw.columns;
    }
  }

  // Per-trial playoff flags.

  /** The wins of club `t` in trial `k`: the first column named `t`. */
  function WinsIn(columns: seq<Column>, t: string, k: nat): int
  {
    if |columns| == 0 then 0
    else if columns[0].name == t then (if k < |columns[0].wins| then columns[0].wins[k] else 0)
    else WinsIn(columns[1..], t, k)
  }

  function AlOf(tab: TeamCodes.Tables): Column -> Option<string>
  {
    (c: Column) => if SP.IsAl(tab, c.name) then Some(c.name) else None
  }

  /** The American League columns, sorted. */
  function AlColumns(tab: TeamCodes.Tables, f: Frame): seq<string>
  {
    SortStrings(FilterMap(AlOf(tab), f.columns))
  }

  /** A club's standing in trial `k`: its wins, no tie-break draw. */
  function TrialKey(f: Frame, k: nat): string -> Standing
  {
    t => Standing(WinsIn(f.columns, t, k), 0.0)
  }

  /** Trial `k`'s field: the first-listed best club of each division, then
    * the three best of the rest. */
  function TrialField(tab: TeamCodes.Tables, f: Frame, k: nat): Field
  {
    SelectField(AlColumns(tab, f), SP.DivisionOf(tab), TrialKey(f, k), TrialKey(f, k))
  }

  predicate Flagged(tab: TeamCodes.Tables, f: Frame, k: nat, t: string)
  {
    t in TrialField(tab, f, k).Playoff()
  }

  /** One club's flags, one per trial. */
  function FlagsOf(tab: TeamCodes.Tables, f: Frame, t: string): (flags: seq<bool>)
    ensures |flags| == f.n && forall k :: 0 <= k < f.n ==> flags[k] == Flagged(tab, f, k, t)
  {
    seq(f.n, k requires 0 <= k < f.n => Flagged(tab, f, k, t))
  }

  /** `compute_playoff_flags`: one flag array per American League column. */
  function PlayoffFlags(tab: TeamCodes.Tables, f: Frame): map<string, seq<bool>>
  {
    map t | t in AlColumns(tab, f) :: FlagsOf(tab, f, t)
  }

  /** In every trial the flagged clubs are American League columns; the
    * best club of each division is flagged, and no one ranks above it in
    * its division; at most three other clubs are flagged, and every club
    * left unflagged has no more wins than each of them. */
  lemma FlaggedField(tab: TeamCodes.Tables, f: Frame, k: nat, t: string)
    requires t in AlColumns(tab, f)
    ensures var al := AlColumns(tab, f);
      var field := TrialField(tab, f, k);
      var w := Best(Group(al, SP.DivisionOf(tab), SP.DivisionOf(tab)(t)), TrialKey(f, k));
      Flagged(tab, f, k, w) && w in field.division && WinsIn(f.columns, t, k) <= WinsIn(f.columns, w, k) &&
      SP.DivisionOf(tab)(w) == SP.DivisionOf(tab)(t) &&
      field.division * field.wildcard == {} && |field.wildcard| <= 3 &&
      (forall c, o :: c in field.wildcard && o in al && !Flagged(tab, f, k, o) ==>
        WinsIn(f.columns, o, k) <= WinsIn(f.columns, c, k)) &&
      forall u :: Flagged(tab, f, k, u) ==> u in al
  {
    var al := AlColumns(tab, f);
    var key := TrialKey(f, k);
    var divOf := SP.DivisionOf(tab);
    OneWinnerPerDivision(al, divOf, key, t);
    WildcardsFacts(al, divOf, key, key);
    forall c, o | c in TrialField(tab, f, k).wildcard && o in al && !Flagged(tab, f, k, o)
      ensures WinsIn(f.columns, o, k) <= WinsIn(f.columns, c, k)
    {
      WildcardsRankFirst(al, divOf, key, key, c, o);
    }
  }

  function Falses(n: nat): (s: seq<bool>)
    ensures |s| == n && forall k :: 0 <= k < n ==> !s[k]
  {
    seq(n, k => false)
  }

  /** The flags written so far: trial `j` is set for the clubs of its field
    * once `j < k`. */
  ghost predicate FlagsUpTo(tab: TeamCodes.Tables, f: Frame, flags: map<string, seq<bool>>, k: nat)
  {
    flags.Keys == (set t | t in AlColumns(tab, f)) &&
    forall t :: t in flags ==>
      (|flags[t]| == f.n && forall j :: 0 <= j < f.n ==> flags[t][j] == (j < k && Flagged(tab, f, j, t)))
  }

  /** `compute_playoff_flags`: all flags start false, then each trial sets
    * the flags of the clubs in its field. */
  method ComputePlayoffFlags(tab: TeamCodes.Tables, f: Frame) returns (flags: map<string, seq<bool>>)
    ensures flags == PlayoffFlags(tab, f)
  {
    var al := AlColumns(tab, f);
    flags := map t | t in al :: Falses(f.n);
    var k := 0;
    while k < f.n
      invariant 0 <= k <= f.n
      invariant FlagsUpTo(tab, f, flags, k)
    {
      var field := TrialField(tab, f, k).Playoff();
      FieldInAl(tab, f, k);
      var marked := MarkTrial(flags, field, k, f.n);
      MarkStep(tab, f, flags, marked, k);
      flags, k := marked, k + 1;
    }
    FlagsDone(tab, f, flags);
  }

  /** Every club of a trial's field is an American League column. */
  lemma FieldInAl(tab: TeamCodes.Tables, f: Frame, k: nat)
    ensures TrialField(tab, f, k).Playoff() <= set t | t in AlColumns(tab, f)
  {
    var al := AlColumns(tab, f);
    var field := TrialField(tab, f, k);
    assert field.division <= set t | t in al;
    assert field.wildcard <= set t | t in al;
  }

  /** Marking trial `k`'s field extends the flags written so far by one
    * trial. */
  lemma MarkStep(tab: TeamCodes.Tables, f: Frame, flags: map<string, seq<bool>>, out: map<string, seq<bool>>, k: nat)
    requires k < f.n && FlagsUpTo(tab, f, flags, k) && out.Keys == flags.Keys
    requires forall t :: t in out ==>
      (|out[t]| == f.n && forall j :: 0 <= j < f.n ==>
        out[t][j] == if j == k && t in TrialField(tab, f, k).Playoff() then true else flags[t][j])
    ensures FlagsUpTo(tab, f, out, k + 1)
  {
  }

  /** Once every trial is marked, the flags are `PlayoffFlags`. */
  lemma FlagsDone(tab: TeamCodes.Tables, f: Frame, flags: map<string, seq<bool>>)
    requires FlagsUpTo(tab, f, flags, f.n)
    ensures flags == PlayoffFlags(tab, f)
  {
    forall t | t in flags ensures flags[t] == FlagsOf(tab, f, t) {
    }
  }

  /** `playoff_flags[team][sim_idx] = True` for every club of the field. */
  method MarkTrial(flags: map<string, seq<bool>>, field: set<string>, k: nat, n: nat) returns (out: map<string, seq<bool>>)
    requires field <= flags.Keys && k < n
    requires forall t :: t in flags ==> |flags[t]| == n
    ensures out.Keys == flags.Keys
    ensures forall t :: t in out ==>
      (|out[t]| == n && forall j :: 0 <= j < n ==> out[t][j] == if j == k && t in field then true else flags[t][j])
  {
    out := flags;
    var todo := field;
    while todo != {}
      invariant todo <= field && out.Keys == flags.Keys
      invariant forall t :: t in out ==>
        (|out[t]| == n && forall j :: 0 <= j < n ==> out[t][j] == if j == k && t in field - todo then true else flags[t][j])
      decreases |todo|
    {
      var t :| t in todo;
      out := out[t := out[t][k := true]];
      todo := todo - {t};
    }
  }

  // Percentages and conditional odds.

  /** `pct(numerator, denominator)`; `None` stands for NaN. */
  function Pct(num: int, den: int): (r: Option<real>)
    ensures r.None? <==> den <= 0
  {
    if den <= 0 then None else Some(Rounding.Round(100.0 * num as real / den as real, 1))
  }

  /** A positive denominator gives the lambda's `round(100 * n / d, 1)`,
    * between 0 and 100 when the numerator is a count out of it. */
  lemma PctSpec(num: nat, den: nat)
    requires 0 < den
    ensures Pct(num, den) == Some(SP.Pct(num, den))
    ensures num <= den ==> 0.0 <= Pct(num, den).value <= 100.0
  {
    if num <= den {
      SP.PctBounds(num, den);
    }
  }

  function InWindow(lo: int, hi: int): int -> bool
  {
    (w: int) => lo <= w <= hi
  }

  /** The indices of the trials whose wins lie in `[lo, hi]` and whose
    * flag is set. */
  function MadeInWindow(wins: seq<int>, flags: seq<bool>, lo: int, hi: int): set<int>
    requires |flags| == |wins|
  {
    set k | 0 <= k < |wins| && lo <= wins[k] <= hi && flags[k]
  }

  /** The trials whose wins lie in `[lo, hi]`, and those of them with the
    * flag set. */
  function Window(wins: seq<int>, flags: seq<bool>, lo: int, hi: int): (r: (nat, nat))
    requires |flags| == |wins|
    ensures r.1 <= r.0 <= |wins|
    ensures r.0 == CountWhere(wins, InWindow(lo, hi))
  {
    if |wins| == 0 then (0, 0)
    else
      var n := |wins| - 1;
      var prev := Window(wins[..n], flags[..n], lo, hi);
      var inside := lo <= wins[n] <= hi;
      (prev.0 + (if inside then 1 else 0), prev.1 + (if inside && flags[n] then 1 else 0))
  }

  /** The second count is the number of flagged trials in the window. */
  lemma {:induction false} WindowMade(wins: seq<int>, flags: seq<bool>, lo: int, hi: int)
    requires |flags| == |wins|
    ensures Window(wins, flags, lo, hi).1 == |MadeInWindow(wins, flags, lo, hi)|
    decreases |wins|
  {
    if |wins| == 0 {
      assert MadeInWindow(wins, flags, lo, hi) == {};
    } else {
      var n := |wins| - 1;
      WindowMade(wins[..n], flags[..n], lo, hi);
      MadeInWindowSnoc(wins, flags, lo, hi);
    }
  }

  /** The last trial joins the flagged trials of the window exactly when it
    * is in the window and flagged. */
  lemma MadeInWindowSnoc(wins: seq<int>, flags: seq<bool>, lo: int, hi: int)
    requires |flags| == |wins| > 0
    ensures var n := |wins| - 1;
      |MadeInWindow(wins, flags, lo, hi)| ==
      |MadeInWindow(wins[..n], flags[..n], lo, hi)| + (if lo <= wins[n] <= hi && flags[n] then 1 else 0)
  {
    var n := |wins| - 1;
    var prev := MadeInWindow(wins[..n], flags[..n], lo, hi);
    assert n !in prev;
    if lo <= wins[n] <= hi && flags[n] {
      assert MadeInWindow(wins, flags, lo, hi) == prev + {n};
    } else {
      assert MadeInWindow(wins, flags, lo, hi) == prev;
    }
  }

  /** `conditional_playoff_pct`: the share of the trials in the window that
    * made the field, and how many trials are in the window; `(NaN, 0)` when
    * none is. */
  function ConditionalPlayoffPct(wins: seq<int>, flags: seq<bool>, lo: int, hi: int): (r: (Option<real>, nat))
    requires |flags| == |wins|
  {
    var (count, made) := Window(wins, flags, lo, hi);
    if count == 0 then (None, 0) else (Pct(made, count), count)
  }

  /** The count is the number of trials in the window; it is 0 exactly when
    * the percentage is NaN, and otherwise the percentage is that of the
    * flagged trials of the window among them, between 0 and 100. */
  lemma ConditionalSpec(wins: seq<int>, flags: seq<bool>, lo: int, hi: int)
    requires |flags| == |wins|
    ensures var r := ConditionalPlayoffPct(wins, flags, lo, hi);
      r.1 == CountWhere(wins, InWindow(lo, hi)) && r.1 <= |wins| &&
      (r.0.None? <==> r.1 == 0) &&
      (r.0.Some? ==> r.0 == Pct(|MadeInWindow(wins, flags, lo, hi)|, r.1) && 0.0 <= r.0.value <= 100.0)
  {
    WindowMade(wins, flags, lo, hi);
    var (count, made) := Window(wins, flags, lo, hi);
    if count > 0 {
      PctSpec(made, count);
    }
  }

  /** A wider window holds at least as many trials, and at least as many of
    * them made the field. */
  lemma {:induction false} WindowMonotone(wins: seq<int>, flags: seq<bool>, lo: int, hi: int, lo': int, hi': int)
    requires |flags| == |wins| && lo' <= lo && hi <= hi'
    ensures Window(wins, flags, lo, hi).0 <= Window(wins, flags, lo', hi').0
    ensures Window(wins, flags, lo, hi).1 <= Window(wins, flags, lo', hi').1
    decreases |wins|
  {
    if |wins| > 0 {
      var n := |wins| - 1;
      WindowMonotone(wins[..n], flags[..n], lo, hi, lo', hi');
    }
  }

  // Wild-card rivals.

  function Gap(median: string -> real, team: string, t: string): real
  {
    var d := median(t) - median(team);
    if d < 0.0 then -d else d
  }

  /** Ascending `(abs(median(t) - median(team)), t)`, compared as a tuple. */
  function ByGap(median: string -> real, team: string): (string, string) -> bool
  {
    (a: string, b: string) =>
      Gap(median, team, a) < Gap(median, team, b) || (Gap(median, team, a) == Gap(median, team, b) && LexLe(a, b))
  }

  lemma ByGapPreorder(median: string -> real, team: string)
    ensures TotalPreorder(ByGap(median, team))
  {
    var le := ByGap(median, team);
    forall x: string, y: string ensures le(x, y) || le(y, x) {
      LexLeTotal(x, y);
    }
    forall x: string, y: string, z: string | le(x, y) && le(y, z) ensures le(x, z) {
      if Gap(median, team, x) == Gap(median, team, y) == Gap(median, team, z) {
        LexLeTransitive(x, y, z);
      }
    }
  }

  function RivalOf(tab: TeamCodes.Tables, team: string): Column -> Option<string>
  {
    (c: Column) => if SP.IsAl(tab, c.name) && c.name != team then Some(c.name) else None
  }

  /** `likely_wildcard_rivals(df_sim, team, k)`, with the columns' medians as
    * an input. With no trials every median is NaN, no key compares below
    * another, and the stable sort keeps column order. */
  function LikelyWildcardRivals(tab: TeamCodes.Tables, f: Frame, team: string, k: nat, median: string -> real): seq<string>
  {
    var al := FilterMap(RivalOf(tab, team), f.columns);
    var ordered := if f.n == 0 then al else Sort(al, ByGap(median, team));
    ordered[..if k < |ordered| then k else |ordered|]
  }

  /** The first `m` of a sorted sequence are in order, and each of them may
    * precede every element left out. */
  lemma SortedPrefix<T(!new)>(s: seq<T>, le: (T, T) -> bool, m: nat)
    requires TotalPreorder(le) && m <= |s|
    ensures SortedBy(Sort(s, le)[..m], le)
    ensures forall i, u :: 0 <= i < m && u in s && u !in Sort(s, le)[..m] ==> le(Sort(s, le)[..m][i], u)
  {
    var sorted := Sort(s, le);
    SortSorted(s, le);
    forall i, u | 0 <= i < m && u in s && u !in sorted[..m] ensures le(sorted[..m][i], u) {
      assert u in multiset(sorted);
      var j :| 0 <= j < |sorted| && sorted[j] == u;
      assert sorted[..m][i] == sorted[i];
    }
  }

  /** Every chosen rival is an American League column other than the club. */
  lemma RivalsMembers(tab: TeamCodes.Tables, f: Frame, team: string, k: nat, median: string -> real)
    ensures forall t :: t in LikelyWildcardRivals(tab, f, team, k, median) ==>
      t != team && SP.IsAl(tab, t) && t in Names(f.columns)
  {
    var al := FilterMap(RivalOf(tab, team), f.columns);
    RivalsFromAl(tab, f, team, k, median);
    forall t | t in LikelyWildcardRivals(tab, f, team, k, median)
      ensures t != team && SP.IsAl(tab, t) && t in Names(f.columns)
    {
      RivalInAl(tab, f, team, t);
    }
  }

  /** The chosen rivals are drawn from the club's American League rivals. */
  lemma RivalsFromAl(tab: TeamCodes.Tables, f: Frame, team: string, k: nat, median: string -> real)
    ensures forall t :: t in LikelyWildcardRivals(tab, f, team, k, median) ==>
      t in FilterMap(RivalOf(tab, team), f.columns)
  {
    var al := FilterMap(RivalOf(tab, team), f.columns);
    var ordered := if f.n == 0 then al else Sort(al, ByGap(median, team));
    var m := if k < |ordered| then k else |ordered|;
    assert multiset(ordered) == multiset(al);
    forall t | t in ordered[..m] ensures t in al {
      assert t in multiset(ordered);
    }
  }

  lemma RivalInAl(tab: TeamCodes.Tables, f: Frame, team: string, t: string)
    requires t in FilterMap(RivalOf(tab, team), f.columns)
    ensures t != team && SP.IsAl(tab, t) && t in Names(f.columns)
  {
    FilterMapMembers(RivalOf(tab, team), f.columns, t);
    var i :| 0 <= i < |f.columns| && RivalOf(tab, team)(f.columns[i]) == Some(t);
    assert Names(f.columns)[i] == t;
  }

  /** The rivals are at most `k` American League columns other than the
    * club itself, as many as there are up to `k`; with trials they come in
    * `(gap, code)` order and no column left out is closer than any chosen
    * one. */
  lemma RivalsSpec(tab: TeamCodes.Tables, f: Frame, team: string, k: nat, median: string -> real)
    ensures var r := LikelyWildcardRivals(tab, f, team, k, median);
      var al := FilterMap(RivalOf(tab, team), f.columns);
      |r| == (if k < |al| then k else |al|) &&
      (forall t :: t in r ==> t != team && SP.IsAl(tab, t) && t in Names(f.columns)) &&
      (f.n > 0 ==>
        (SortedBy(r, ByGap(median, team)) &&
         forall i, u :: 0 <= i < |r| && u in al && u !in r ==> ByGap(median, team)(r[i], u)))
  {
    RivalsMembers(tab, f, team, k, median);
    if f.n > 0 {
      var al := FilterMap(RivalOf(tab, team), f.columns);
      ByGapPreorder(median, team);
      SortedPrefix(al, ByGap(median, team), if k < |al| then k else |al|);
    }
  }

  // Finding columns by name.

  /** `c.lower().strip()`. */
  function Normalize(c: string): string
  {
    FangraphsNetFwar.Strip(CoreBenchmarks.Lower(c))
  }

  /** The pairs `{c.lower().strip(): c for c in df.columns}` is built from. */
  function NormalizedPairs(columns: seq<string>): (pairs: seq<(string, string)>)
    ensures |pairs| == |columns| && forall i :: 0 <= i < |columns| ==> pairs[i] == (Normalize(columns[i]), columns[i])
  {
    seq(|columns|, i requires 0 <= i < |columns| => (Normalize(columns[i]), columns[i]))
  }

  /** The first candidate that is a key of `normalized`, looked up. */
  function FirstFound(normalized: map<string, string>, candidates: seq<string>): Option<string>
  {
    if |candidates| == 0 then None
    else if candidates[0] in normalized then Some(normalized[candidates[0]])
    else FirstFound(normalized, candidates[1..])
  }

  /** `_find_col(df, candidates)`. */
  function FindCol(columns: seq<string>, candidates: seq<string>): Option<string>
  {
    FirstFound(PairsToMap(NormalizedPairs(columns)), candidates)
  }

  /** Some column normalises to `name`. */
  predicate Named(columns: seq<string>, name: string)
  {
    exists p :: 0 <= p < |columns| && Normalize(columns[p]) == name
  }

  /** Candidate `i` is the first one some column normalises to. */
  predicate FirstMatch(columns: seq<string>, candidates: seq<string>, i: int)
  {
    0 <= i < |candidates| && Named(columns, candidates[i]) &&
    forall j :: 0 <= j < i ==> !Named(columns, candidates[j])
  }

  /** Some row of `pairs` has key `k`. */
  predicate Keyed(pairs: seq<(string, string)>, k: string)
  {
    exists p :: 0 <= p < |pairs| && KeyAt(pairs, p) == k
  }

  /** The lookup over any dict built from pairs: nothing when no candidate
    * is a key, else the last value of the first candidate that is one. */
  lemma {:induction false} FirstFoundSpec(pairs: seq<(string, string)>, candidates: seq<string>)
    ensures var r := FirstFound(PairsToMap(pairs), candidates);
      (r.None? <==> forall j :: 0 <= j < |candidates| ==> !Keyed(pairs, candidates[j])) &&
      (r.Some? ==>
        exists i, p :: 0 <= i < |candidates| && LastKeyAt(pairs, p, candidates[i]) && r.value == ValueAt(pairs, p) &&
          forall j :: 0 <= j < i ==> !Keyed(pairs, candidates[j]))
    decreases |candidates|
  {
    if |candidates| > 0 {
      LastRowWins(pairs, candidates[0]);
      if candidates[0] in PairsToMap(pairs) {
        var p :| LastKeyAt(pairs, p, candidates[0]) && PairsToMap(pairs)[candidates[0]] == ValueAt(pairs, p);
        assert 0 <= 0 < |candidates| && LastKeyAt(pairs, p, candidates[0]);
      } else {
        var rest := candidates[1..];
        FirstFoundSpec(pairs, rest);
        assert forall j :: 1 <= j < |candidates| ==> candidates[j] == rest[j - 1];
        var r := FirstFound(PairsToMap(pairs), candidates);
        if r.Some? {
          var i, p :| 0 <= i < |rest| && LastKeyAt(pairs, p, rest[i]) && r.value == ValueAt(pairs, p) &&
            forall j :: 0 <= j < i ==> !Keyed(pairs, rest[j]);
          assert LastKeyAt(pairs, p, candidates[i + 1]);
        }
      }
    }
  }

  /** The normalised pairs have the keys the columns normalise to. */
  lemma KeyedNamed(columns: seq<string>, name: string)
    ensures Keyed(NormalizedPairs(columns), name) <==> Named(columns, name)
  {
    var pairs := NormalizedPairs(columns);
    if Named(columns, name) {
      var p :| 0 <= p < |columns| && Normalize(columns[p]) == name;
      assert KeyAt(pairs, p) == name;
    }
  }

  /** No candidate matches exactly when no column normalises to any
    * candidate; otherwise the match is for the first candidate some column
    * normalises to, and it is the last such column. */
  lemma FindColSpec(columns: seq<string>, candidates: seq<string>)
    ensures var r := FindCol(columns, candidates);
      (r.None? <==> forall j :: 0 <= j < |candidates| ==> !Named(columns, candidates[j])) &&
      (r.Some? ==>
        exists i, p :: FirstMatch(columns, candidates, i) && 0 <= p < |columns| && r.value == columns[p] &&
          Normalize(columns[p]) == candidates[i] &&
          forall q :: p < q < |columns| ==> Normalize(columns[q]) != candidates[i])
  {
    var pairs := NormalizedPairs(columns);
    FirstFoundSpec(pairs, candidates);
    forall j | 0 <= j < |candidates| ensures Keyed(pairs, candidates[j]) <==> Named(columns, candidates[j]) {
      KeyedNamed(columns, candidates[j]);
    }
    var r := FindCol(columns, candidates);
    if r.Some? {
      var i, p :| 0 <= i < |candidates| && LastKeyAt(pairs, p, candidates[i]) && r.value == ValueAt(pairs, p) &&
        forall j :: 0 <= j < i ==> !Keyed(pairs, candidates[j]);
      assert Named(columns, candidates[i]) by {
        assert Normalize(columns[p]) == KeyAt(pairs, p);
      }
      assert FirstMatch(columns, candidates, i);
      forall q | p < q < |columns| ensures Normalize(columns[q]) != candidates[i] {
        assert KeyAt(pairs, q) != candidates[i];
      }
    }
  }

  // The FanGraphs comparison file.

  const POSSIBLE_FG_WINS_COLS: seq<string> := ["wins", "projected_wins", "mean_wins", "win_total"]
  const POSSIBLE_FG_PLAYOFF_COLS: seq<string> := ["playoff_pct", "playoff_odds", "make_playoffs_pct", "make_playoffs"]
  const POSSIBLE_TEAM_COLS: seq<string> := ["team", "team_abbr", "abbr", "code"]

  /** A CSV cell as pandas reads it: empty (NaN), a number or text. */
  datatype Cell = Missing | Num(x: real) | Text(s: string)

  /** A CSV row: the cell under each header; a header the row lacks reads
    * as empty. */
  type FgCsvRow = map<string, Cell>

  function CellAt(row: FgCsvRow, col: string): Cell
  {
    if col in row then row[col] else Missing
  }

  /** A club's FanGraphs figures; a figure the row left empty is absent. */
  datatype FgEntry = FgEntry(wins: Option<real>, playoffPct: Option<real>)

  /** `str(row[team_col]).strip().upper()`, for a text cell; a number or an
    * empty cell prints as digits or `nan`, which is never a club code. */
  function TeamText(c: Cell): Option<string>
  {
    if c.Text? then Some(Text.Upper(FangraphsNetFwar.Strip(c.s))) else None
  }

  /** A figure from an optional column: absent when there is no column or
    * the cell is empty; a text cell is an error, as `float` of it raises. */
  function Figure(row: FgCsvRow, col: Option<string>): Result<Option<real>>
  {
    if col.None? then Ok(None)
    else match CellAt(row, col.value)
      case Missing => Ok(None)
      case Num(x) => Ok(Some(x))
      case Text(_) => Err("could not convert string to float")
  }

  /** A playoff figure of at most 1.0 is read as a fraction and scaled to a
    * percentage. */
  function ScalePlayoff(x: real): (y: real)
  {
    if x <= 1.0 then x * 100.0 else x
  }

  /** Values up to 1.0 are multiplied by 100; larger values are already
    * percentages and are kept, so every result of a fraction in [0, 1] is
    * a percentage in [0, 100]. */
  lemma ScalePlayoffSpec(x: real)
    ensures x <= 1.0 ==> ScalePlayoff(x) == 100.0 * x
    ensures x > 1.0 ==> ScalePlayoff(x) == x
    ensures 0.0 <= x <= 1.0 ==> 0.0 <= ScalePlayoff(x) <= 100.0
  {
  }

  /** The columns `load_fangraphs_map` found: the team column and, when
    * present, the wins and playoff columns. */
  datatype FgCols = FgCols(team: string, wins: Option<string>, playoff: Option<string>)

  /** The entry a row yields, if any: absent when both figures are. */
  function EntryOf(row: FgCsvRow, cols: FgCols): Result<Option<FgEntry>>
  {
    var w := Figure(row, cols.wins);
    if w.Err? then Err(w.error)
    else
      var p := Figure(row, cols.playoff);
      if p.Err? then Err(p.error)
      else
        var pct := if p.value.Some? then Some(ScalePlayoff(p.value.value)) else None;
        if w.value.None? && pct.None? then Ok(None) else Ok(Some(FgEntry(w.value, pct)))
  }

  /** A stored entry has a figure, the wins as read and the playoff figure
    * scaled. */
  lemma EntryOfSpec(row: FgCsvRow, cols: FgCols)
    requires EntryOf(row, cols).Ok? && EntryOf(row, cols).value.Some?
    ensures var e := EntryOf(row, cols).value.value;
      (e.wins.Some? || e.playoffPct.Some?) &&
      e.wins == Figure(row, cols.wins).value &&
      (e.playoffPct.Some? <==> Figure(row, cols.playoff).value.Some?) &&
      (e.playoffPct.Some? ==> e.playoffPct.value == ScalePlayoff(Figure(row, cols.playoff).value.value))
  {
  }

  /** What the loop reads from one row: the cleaned team text, if the cell
    * is text, and the entry its figures make. */
  datatype RowView = RowView(team: Option<string>, entry: Result<Option<FgEntry>>)

  function ViewOf(row: FgCsvRow, cols: FgCols): RowView
  {
    RowView(TeamText(CellAt(row, cols.team)), EntryOf(row, cols))
  }

  function Views(rows: seq<FgCsvRow>, cols: FgCols): (vs: seq<RowView>)
    ensures |vs| == |rows| && forall i :: 0 <= i < |rows| ==> vs[i] == ViewOf(rows[i], cols)
  {
    seq(|rows|, i requires 0 <= i < |rows| => ViewOf(rows[i], cols))
  }

  /** The row is about known club `t` and yields an entry. */
  predicate Hit(league: map<string, string>, v: RowView, t: string)
  {
    v.team == Some(t) && t in league && v.entry.Ok? && v.entry.value.Some?
  }

  /** One row of the `load_fangraphs_map` loop: a row about no known club
    * is skipped; a figure that is text fails; a row with no figure is
    * skipped; otherwise the club's entry is replaced. */
  function AddRow(league: map<string, string>, out: map<string, FgEntry>, v: RowView): Result<map<string, FgEntry>>
  {
    if v.team.None? || v.team.value !in league then Ok(out)
    else if v.entry.Err? then Err(v.entry.error)
    else if v.entry.value.None? then Ok(out)
    else Ok(out[v.team.value := v.entry.value.value])
  }

  /** The rows folded into the map; the first failing row stops it. */
  function ReadRows(league: map<string, string>, vs: seq<RowView>): Result<map<string, FgEntry>>
  {
    if |vs| == 0 then Ok(map[])
    else
      var n := |vs| - 1;
      var prev := ReadRows(league, vs[..n]);
      if prev.Err? then prev else AddRow(league, prev.value, vs[n])
  }

  /** The columns `load_fangraphs_map` looks up, or the error it raises
    * when the team column, or both figure columns, are missing. */
  function FgColumns(headers: seq<string>): Result<FgCols>
  {
    var teamCol := FindCol(headers, POSSIBLE_TEAM_COLS);
    var winsCol := FindCol(headers, POSSIBLE_FG_WINS_COLS);
    var playoffCol := FindCol(headers, POSSIBLE_FG_PLAYOFF_COLS);
    if teamCol.None? then Err("Could not find team column in FanGraphs file")
    else if winsCol.None? && playoffCol.None? then Err("Could not find wins or playoff column in FanGraphs file")
    else Ok(FgCols(teamCol.value, winsCol, playoffCol))
  }

  /** `load_fangraphs_map`, over the file's headers and rows. */
  function FangraphsMap(tab: TeamCodes.Tables, headers: seq<string>, rows: seq<FgCsvRow>): Result<map<string, FgEntry>>
  {
    var cols := FgColumns(headers);
    if cols.Err? then Err(cols.error) else ReadRows(tab.league, Views(rows, cols.value))
  }

  /** Row `i` is the last row about club `t` that yields an entry. */
  predicate LastEntryRow(league: map<string, string>, vs: seq<RowView>, t: string, i: int)
  {
    0 <= i < |vs| && Hit(league, vs[i], t) && forall j :: i < j < |vs| ==> !Hit(league, vs[j], t)
  }

  /** A last row that does not hit `t` leaves the last hit of `t` where it
    * was. */
  lemma LastEntryRowSkip(league: map<string, string>, vs: seq<RowView>, t: string, i: int)
    requires |vs| > 0 && !Hit(league, vs[|vs| - 1], t)
    ensures LastEntryRow(league, vs, t, i) <==> LastEntryRow(league, vs[..|vs| - 1], t, i)
  {
    var init := vs[..|vs| - 1];
    assert forall j :: 0 <= j < |init| ==> init[j] == vs[j];
  }

  /** Only known clubs with at least one figure are stored. */
  lemma {:induction false} ReadRowsKeys(league: map<string, string>, vs: seq<RowView>, t: string)
    requires ReadRows(league, vs).Ok?
    requires forall i :: 0 <= i < |vs| && vs[i].entry.Ok? && vs[i].entry.value.Some? ==>
      vs[i].entry.value.value.wins.Some? || vs[i].entry.value.value.playoffPct.Some?
    ensures var out := ReadRows(league, vs).value;
      t in out ==> t in league && (out[t].wins.Some? || out[t].playoffPct.Some?)
    decreases |vs|
  {
    if |vs| > 0 {
      var n := |vs| - 1;
      assert forall i :: 0 <= i < n ==> vs[..n][i] == vs[i];
      ReadRowsKeys(league, vs[..n], t);
    }
  }

  /** A club is stored exactly when some row about it has a figure, and it
    * holds the entry of the last such row. */
  lemma {:induction false} ReadRowsLast(league: map<string, string>, vs: seq<RowView>, t: string)
    requires ReadRows(league, vs).Ok?
    ensures var out := ReadRows(league, vs).value;
      (t in out <==> exists i :: LastEntryRow(league, vs, t, i)) &&
      forall i :: LastEntryRow(league, vs, t, i) ==> out[t] == vs[i].entry.value.value
    decreases |vs|
  {
    if |vs| > 0 {
      var n := |vs| - 1;
      ReadRowsLast(league, vs[..n], t);
      if Hit(league, vs[n], t) {
        assert LastEntryRow(league, vs, t, n);
      } else {
        forall i ensures LastEntryRow(league, vs, t, i) <==> LastEntryRow(league, vs[..n], t, i) {
          LastEntryRowSkip(league, vs, t, i);
        }
      }
    }
  }

  /** The loaded map holds known clubs only, each with a figure. A club is
    * stored exactly when some row about it has a figure, and it holds the
    * entry of the last such row (whose figures `EntryOfSpec` describes). */
  lemma FangraphsMapSpec(tab: TeamCodes.Tables, headers: seq<string>, rows: seq<FgCsvRow>, cols: FgCols, t: string)
    requires FgColumns(headers) == Ok(cols) && FangraphsMap(tab, headers, rows).Ok?
    ensures var out := FangraphsMap(tab, headers, rows).value;
      var vs := Views(rows, cols);
      (t in out ==> t in tab.league && (out[t].wins.Some? || out[t].playoffPct.Some?)) &&
      (t in out <==> exists i :: LastEntryRow(tab.league, vs, t, i)) &&
      forall i :: LastEntryRow(tab.league, vs, t, i) && t in out ==> out[t] == EntryOf(rows[i], cols).value.value
  {
    var vs := Views(rows, cols);
    forall i | 0 <= i < |vs| && vs[i].entry.Ok? && vs[i].entry.value.Some?
      ensures vs[i].entry.value.value.wins.Some? || vs[i].entry.value.value.playoffPct.Some?
    {
      EntryOfSpec(rows[i], cols);
    }
    ReadRowsKeys(tab.league, vs, t);
    ReadRowsLast(tab.league, vs, t);
  }

  /** The file is refused when no header names a team column, or none
    * names a wins or playoff column. */
  lemma FangraphsMapErrors(tab: TeamCodes.Tables, headers: seq<string>, rows: seq<FgCsvRow>)
    ensures var r := FangraphsMap(tab, headers, rows);
      var named := (cands: seq<string>) => exists j :: 0 <= j < |cands| && Named(headers, cands[j]);
      (!named(POSSIBLE_TEAM_COLS) ==> r.Err?) &&
      (!named(POSSIBLE_FG_WINS_COLS) && !named(POSSIBLE_FG_PLAYOFF_COLS) ==> r.Err?)
  {
    FindColSpec(headers, POSSIBLE_TEAM_COLS);
    FindColSpec(headers, POSSIBLE_FG_WINS_COLS);
    FindColSpec(headers, POSSIBLE_FG_PLAYOFF_COLS);
  }

  /** One more row read. */
  lemma ReadRowsStep(league: map<string, string>, vs: seq<RowView>, i: nat)
    requires i < |vs| && ReadRows(league, vs[..i]).Ok?
    ensures ReadRows(league, vs[..i + 1]) == AddRow(league, ReadRows(league, vs[..i]).value, vs[i])
  {
    assert vs[..i + 1][..i] == vs[..i];
  }

  /** Once a prefix fails, the whole file fails with the same error. */
  lemma {:induction false} ReadRowsErr(league: map<string, string>, vs: seq<RowView>, i: nat)
    requires i <= |vs| && ReadRows(league, vs[..i]).Err?
    ensures ReadRows(league, vs) == ReadRows(league, vs[..i])
    decreases |vs| - i
  {
    if i < |vs| {
      assert vs[..i + 1][..i] == vs[..i];
      ReadRowsErr(league, vs, i + 1);
    } else {
      assert vs[..i] == vs;
    }
  }

  /** The row loop of `load_fangraphs_map`. */
  method LoadFangraphsMap(tab: TeamCodes.Tables, headers: seq<string>, rows: seq<FgCsvRow>)
    returns (r: Result<map<string, FgEntry>>)
    ensures r == FangraphsMap(tab, headers, rows)
  {
    var found := FgColumns(headers);
    if found.Err? {
      return Err(found.error);
    }
    var cols := found.value;
    ghost var vs := Views(rows, cols);
    var out: map<string, FgEntry> := map[];
    var i := 0;
    while i < |rows|
      invariant 0 <= i <= |rows|
      invariant ReadRows(tab.league, vs[..i]) == Ok(out)
    {
      ReadRowsStep(tab.league, vs, i);
      var next := AddRow(tab.league, out, ViewOf(rows[i], cols));
      if next.Err? {
        ReadRowsErr(tab.league, vs, i + 1);
        return next;
      }
      out := next.value;
      i := i + 1;
    }
    assert vs[..i] == vs;
    r := Ok(out);
  }

  // The report's figures.

  /** The figures of the report: the conditional odds at exactly the target,
    * in the window around it and at or above it (up to 200 wins), the
    * club's overall playoff percentage and its closest rivals. */
  datatype Report = Report(exact: (Option<real>, nat), range: (Option<real>, nat), atLeast: (Option<real>, nat),
                           projected: Option<real>, rivals: seq<string>)

  /** A club's win totals, one per trial. */
  function WinsSeries(f: Frame, t: string): (wins: seq<int>)
    ensures |wins| == f.n && forall k :: 0 <= k < f.n ==> wins[k] == WinsIn(f.columns, t, k)
  {
    seq(f.n, k requires 0 <= k < f.n => WinsIn(f.columns, t, k))
  }

  /** `playoff_flags.sum()`. */
  function Trues(flags: seq<bool>): (c: nat)
    ensures c <= |flags|
  {
    if |flags| == 0 then 0 else Trues(flags[..|flags| - 1]) + (if flags[|flags| - 1] then 1 else 0)
  }

  /** The report's figures for a club of the matrix. */
  function Figures(tab: TeamCodes.Tables, f: Frame, team: string, target: int, window: int,
                   median: string -> real): Report
  {
    var wins := WinsSeries(f, team);
    var flags := FlagsOf(tab, f, team);
    Report(ConditionalPlayoffPct(wins, flags, target, target),
           ConditionalPlayoffPct(wins, flags, target - window, target + window),
           ConditionalPlayoffPct(wins, flags, target, 200),
           Pct(Trues(flags), |flags|),
           LikelyWildcardRivals(tab, f, team, 6, median))
  }

  /** For any trials: the exact-target count is within the window's and,
    * for a target up to 200, within the at-or-above count; the overall
    * percentage is NaN only without trials and otherwise between 0 and
    * 100. */
  lemma CountsSpec(wins: seq<int>, flags: seq<bool>, target: int, window: int)
    requires |wins| == |flags|
    ensures window >= 0 ==>
      ConditionalPlayoffPct(wins, flags, target, target).1 <= ConditionalPlayoffPct(wins, flags, target - window, target + window).1
    ensures target <= 200 ==>
      ConditionalPlayoffPct(wins, flags, target, target).1 <= ConditionalPlayoffPct(wins, flags, target, 200).1
    ensures Pct(Trues(flags), |flags|).None? <==> |flags| == 0
    ensures Pct(Trues(flags), |flags|).Some? ==> 0.0 <= Pct(Trues(flags), |flags|).value <= 100.0
  {
    if window >= 0 {
      WindowMonotone(wins, flags, target, target, target - window, target + window);
    }
    if target <= 200 {
      WindowMonotone(wins, flags, target, target, target, 200);
    }
    if |flags| > 0 {
      PctSpec(Trues(flags), |flags|);
    }
  }

  /** The report's counts are related as `CountsSpec` says; the overall
    * percentage is NaN only without trials; there are at most six rivals,
    * none the club itself. */
  lemma FiguresSpec(tab: TeamCodes.Tables, f: Frame, team: string, target: int, window: int, median: string -> real)
    ensures var r := Figures(tab, f, team, target, window, median);
      (window >= 0 ==> r.exact.1 <= r.range.1) &&
      (target <= 200 ==> r.exact.1 <= r.atLeast.1) &&
      (r.projected.None? <==> f.n == 0) &&
      (r.projected.Some? ==> 0.0 <= r.projected.value <= 100.0) &&
      |r.rivals| <= 6 && team !in r.rivals
  {
    CountsSpec(WinsSeries(f, team), FlagsOf(tab, f, team), target, window);
    RivalsMembers(tab, f, team, 6, median);
  }

  /** `build_report` up to the text it renders: a club that is not a column
    * of the matrix, or is not an American League club, is refused. */
  function BuildReport(tab: TeamCodes.Tables, f: Frame, team: string, target: int, window: int,
                       median: string -> real): (r: Result<Report>)
    ensures r.Err? <==> team !in Names(f.columns) || !SP.IsAl(tab, team)
    ensures r.Ok? ==> r.value == Figures(tab, f, team, target, window, median)
  {
    if team !in Names(f.columns) then Err("Team is not in the simulation matrix.")
    else if !SP.IsAl(tab, team) then Err("This diagnostic currently supports AL playoff structure only.")
    else Ok(Figures(tab, f, team, target, window, median))
  }
}
