/** Core benchmarks: every tracked Orioles player has three season targets,
  * each read off the player's FanGraphs season line, rounded, and judged met
  * or not; a bullpen line summed over the club's relievers is judged the
  * same way. Two deployments share the definitions: a script over pybaseball
  * frames, where an empty cell reads as NaN, and a scheduled function over
  * the FanGraphs API rows, which reads every cell through `safe_float` (NaN
  * becomes missing) and picks relievers by games started. */
module CoreBenchmarks {
  import opened Wrappers
  import opened Rounding
  import opened Sums
  import Injury

  // Cells of a stat row.

  /** A cell: absent (`None`), NaN, or a number. */
  datatype Val = Missing | NaN | Num(x: real)

  /** A season line: the display name, the club, and the numeric columns. */
  datatype StatRow = StatRow(name: Option<string>, team: Option<string>, cols: map<string, Val>)

  /** `row.get(col)`. */
  function Get(row: StatRow, col: string): Val
  {
    if col in row.cols then row.cols[col] else Missing
  }

  /** `safe_float`: NaN reads as missing, a number stays itself. */
  function SafeFloat(v: Val): (r: Val)
    ensures !r.NaN?
    ensures r.Num? <==> v.Num?
    ensures r.Num? ==> r.x == v.x
  {
    if v.NaN? then Missing else v
  }

  /** The row with every NaN cell dropped to missing. */
  function Clean(row: StatRow): StatRow
  {
    StatRow(row.name, row.team, map k | k in row.cols :: SafeFloat(row.cols[k]))
  }

  function CleanOpt(row: Option<StatRow>): Option<StatRow>
  {
    if row.Some? then Some(Clean(row.value)) else None
  }

  lemma GetClean(row: StatRow, col: string)
    ensures Get(Clean(row), col) == SafeFloat(Get(row, col))
  {
  }

  predicate NoNaN(row: StatRow)
  {
    forall k :: k in row.cols ==> !row.cols[k].NaN?
  }

  /** Cleaning a row without NaN cells changes nothing. */
  lemma CleanWithoutNaN(row: StatRow)
    requires NoNaN(row)
    ensures Clean(row) == row
  {
    var c := map k | k in row.cols :: SafeFloat(row.cols[k]);
    assert c == row.cols by {
      forall k | k in row.cols ensures c[k] == row.cols[k] {
        assert !row.cols[k].NaN?;
      }
    }
  }

  // Finding a player by name.

  /** Python's `str.isspace` on the ASCII range. */
  predicate IsSpace(c: char)
  {
    c == ' ' || ('\t' <= c <= '\r')
  }

  /** `name.split()` has at least one word. */
  predicate HasWord(s: string)
  {
    exists i :: 0 <= i < |s| && !IsSpace(s[i])
  }

  /** The trailing run of non-space characters. */
  function TrailingRun(s: string): (w: string)
    ensures |w| <= |s| && w == s[|s| - |w|..]
    ensures forall i :: 0 <= i < |w| ==> !IsSpace(w[i])
    ensures |s| > 0 && !IsSpace(s[|s| - 1]) ==> |w| > 0
    ensures |w| < |s| ==> IsSpace(s[|s| - |w| - 1])
    decreases |s|
  {
    if |s| == 0 || IsSpace(s[|s| - 1]) then []
    else TrailingRun(s[..|s| - 1]) + [s[|s| - 1]]
  }

  /** `s.rstrip()`. */
  function TrimEnd(s: string): (t: string)
    ensures |t| <= |s| && t == s[..|t|]
    ensures |t| > 0 ==> !IsSpace(t[|t| - 1])
    ensures forall i :: |t| <= i < |s| ==> IsSpace(s[i])
    decreases |s|
  {
    if |s| > 0 && IsSpace(s[|s| - 1]) then TrimEnd(s[..|s| - 1]) else s
  }

  /** `w` sits at `j` in `s` as its last word: preceded by a space or the
    * start, followed only by spaces. */
  predicate LastWordAt(s: string, w: string, j: int)
  {
    0 <= j <= |s| - |w| && s[j..j + |w|] == w
    && (j == 0 || IsSpace(s[j - 1]))
    && (forall i :: j + |w| <= i < |s| ==> IsSpace(s[i]))
  }

  /** `name.split()[-1]`. */
  function LastWord(s: string): (w: string)
    requires HasWord(s)
    ensures |w| > 0
    ensures forall i :: 0 <= i < |w| ==> !IsSpace(w[i])
    ensures exists j :: LastWordAt(s, w, j)
  {
    var t := TrimEnd(s);
    assert |t| > 0 by {
      var i :| 0 <= i < |s| && !IsSpace(s[i]);
      assert i < |t|;
    }
    var w := TrailingRun(t);
    var j := |t| - |w|;
    assert s[j..j + |w|] == t[j..];
    assert j > 0 ==> s[j - 1] == t[j - 1];
    assert LastWordAt(s, w, j);
    w
  }

  function LowerChar(c: char): char
  {
    if 'A' <= c <= 'Z' then (c as int + 32) as char else c
  }

  /** `s.lower()` on ASCII letters. */
  function Lower(s: string): (t: string)
    ensures |t| == |s|
    ensures forall i :: 0 <= i < |s| ==> t[i] == LowerChar(s[i])
  {
    seq(|s|, i requires 0 <= i < |s| => LowerChar(s[i]))
  }

  predicate Named(row: StatRow, name: string)
  {
    row.name == Some(name)
  }

  predicate HasExact(rows: seq<StatRow>, name: string)
  {
    exists j :: 0 <= j < |rows| && Named(rows[j], name)
  }

  /** Where the first row with exactly this name is, `|rows|` if none. */
  function FirstNamed(rows: seq<StatRow>, name: string): (i: nat)
    ensures i <= |rows|
    ensures forall j :: 0 <= j < i ==> !Named(rows[j], name)
    ensures i < |rows| ==> Named(rows[i], name)
    decreases |rows|
  {
    if |rows| == 0 then 0
    else if Named(rows[0], name) then 0
    else 1 + FirstNamed(rows[1..], name)
  }

  /** The fallback test: the last name occurs in the row's name, ignoring
    * case; a row without a name never matches. */
  predicate FuzzyMatch(row: StatRow, last: string)
  {
    row.name.Some? && Injury.Contains(Lower(row.name.value), Lower(last))
  }

  function FuzzyMatches(rows: seq<StatRow>, last: string): (m: seq<StatRow>)
    ensures |m| <= |rows|
    decreases |rows|
  {
    if |rows| == 0 then []
    else
      var rest := FuzzyMatches(rows[1..], last);
      if FuzzyMatch(rows[0], last) then [rows[0]] + rest else rest
  }

  /** The fallback keeps exactly the matching rows. */
  lemma {:induction false} FuzzyMatchesMembers(rows: seq<StatRow>, last: string)
    ensures forall r :: r in FuzzyMatches(rows, last) <==> r in rows && FuzzyMatch(r, last)
    decreases |rows|
  {
    if |rows| > 0 {
      FuzzyMatchesMembers(rows[1..], last);
      assert forall r :: r in rows <==> r == rows[0] || r in rows[1..];
    }
  }

  /** `find_player_row` / `find_player`: the first row with exactly this
    * name; failing that, the one row whose name contains the last name,
    * ignoring case; otherwise none. */
  function FindPlayer(rows: seq<StatRow>, name: string): (found: Option<StatRow>)
    requires HasWord(name)
    ensures found.Some? ==> found.value in rows
  {
    var i := FirstNamed(rows, name);
    if i < |rows| then Some(rows[i])
    else
      var m := FuzzyMatches(rows, LastWord(name));
      if |m| == 1 then
        FuzzyMatchesMembers(rows, LastWord(name));
        assert m[0] in m;
        Some(m[0])
      else None
  }

  /** An exact name wins, the first one in row order; without one, a row is
    * found exactly when a single row matches the last name. */
  lemma FindPlayerSpec(rows: seq<StatRow>, name: string)
    requires HasWord(name)
    ensures HasExact(rows, name) ==> FindPlayer(rows, name) == Some(rows[FirstNamed(rows, name)])
    ensures !HasExact(rows, name) ==>
      (FindPlayer(rows, name).Some? <==> |FuzzyMatches(rows, LastWord(name))| == 1)
      && (FindPlayer(rows, name).Some? ==> FuzzyMatch(FindPlayer(rows, name).value, LastWord(name)))
  {
    var m := FuzzyMatches(rows, LastWord(name));
    if |m| == 1 {
      FuzzyMatchesMembers(rows, LastWord(name));
      assert m[0] in m;
    }
  }

  // Reading a benchmark's current value.

  const PCT_KEYS: set<string> := {"BB%", "K%", "Barrel%", "Hard%"}

  /** `PACE_RAW_KEYS`: the counting column behind each pace key. */
  function PaceRawKey(key: string): Option<string>
  {
    if key == "hr_pace" then Some("HR")
    else if key == "ip_pace" then Some("IP")
    else if key == "games_pace" then Some("G")
    else if key == "sv_pace" then Some("SV")
    else None
  }

  /** `round(v / d * 162, k)`; NaN stays NaN. */
  function PerSeason(v: Val, d: real, k: Digits): (r: Val)
    requires !v.Missing? && d > 0.0
    ensures r.NaN? <==> v.NaN?
    ensures r.Num? ==> -0.5 * Unit(k) <= r.x - v.x / d * 162.0 <= 0.5 * Unit(k)
  {
    if v.NaN? then NaN
    else
      RoundError(v.x / d * 162.0, k);
      Num(Round(v.x / d * 162.0, k))
  }

  /** The script's `get_stat_value` over a pybaseball row. */
  function ScriptStatValue(row: Option<StatRow>, key: string, teamGames: int): (v: Val)
    ensures row.None? ==> v.Missing?
    ensures v.NaN? ==> PaceRawKey(key).Some?
    ensures key == "hr_pace" && !v.Missing? ==> Get(row.value, "G").Num? && Get(row.value, "G").x > 0.0
    ensures PaceRawKey(key).Some? && key != "hr_pace" && !v.Missing? ==> teamGames > 0
    ensures row.Some? && PaceRawKey(key).None? ==> (v.Num? <==> Get(row.value, key).Num?)
    ensures row.Some? && key in PCT_KEYS && v.Num? ==> v.x == 100.0 * Get(row.value, key).x
    ensures row.Some? && PaceRawKey(key).None? && key !in PCT_KEYS && v.Num? ==> v == Get(row.value, key)
    ensures key == "hr_pace" && v.Num? ==>
      var hr, g := Get(row.value, "HR"), Get(row.value, "G");
      hr.Num? && g.Num? && g.x > 0.0 && -0.05 <= v.x - hr.x / g.x * 162.0 <= 0.05
    ensures key == "games_pace" && v.Num? ==>
      var g := Get(row.value, "G");
      g.Num? && -0.5 <= v.x - g.x / teamGames as real * 162.0 <= 0.5
    ensures (key == "ip_pace" || key == "sv_pace") && v.Num? ==>
      var raw := Get(row.value, PaceRawKey(key).value);
      raw.Num? && -0.05 <= v.x - raw.x / teamGames as real * 162.0 <= 0.05
  {
    match row
    case None => Missing
    case Some(r) =>
      if key == "hr_pace" then
        var g := Get(r, "G");
        var hr := Get(r, "HR");
        if g.Num? && g.x > 0.0 && !hr.Missing? then PerSeason(hr, g.x, 1) else Missing
      else if key == "games_pace" then
        var g := Get(r, "G");
        if !g.Missing? && teamGames > 0 then PerSeason(g, teamGames as real, 0) else Missing
      else if key == "ip_pace" then
        var ip := Get(r, "IP");
        if !ip.Missing? && teamGames > 0 then PerSeason(ip, teamGames as real, 1) else Missing
      else if key == "sv_pace" then
        var sv := Get(r, "SV");
        if !sv.Missing? && teamGames > 0 then PerSeason(sv, teamGames as real, 1) else Missing
      else
        var val := Get(r, key);
        if !val.Num? then Missing
        else if key in PCT_KEYS then Num(val.x * 100.0)
        else val
  }

  /** The function's `get_stat_value`: the same steps, every cell through
    * `safe_float`. */
  function LambdaStatValue(row: Option<StatRow>, key: string, teamGames: int): (v: Val)
    ensures !v.NaN?
    ensures row.None? ==> v.Missing?
  {
    match row
    case None => Missing
    case Some(r) =>
      if key == "hr_pace" then
        var g := SafeFloat(Get(r, "G"));
        var hr := SafeFloat(Get(r, "HR"));
        if g.Num? && g.x > 0.0 && !hr.Missing? then PerSeason(hr, g.x, 1) else Missing
      else if key == "games_pace" then
        var g := SafeFloat(Get(r, "G"));
        if !g.Missing? && teamGames > 0 then PerSeason(g, teamGames as real, 0) else Missing
      else if key == "ip_pace" then
        var ip := SafeFloat(Get(r, "IP"));
        if !ip.Missing? && teamGames > 0 then PerSeason(ip, teamGames as real, 1) else Missing
      else if key == "sv_pace" then
        var sv := SafeFloat(Get(r, "SV"));
        if !sv.Missing? && teamGames > 0 then PerSeason(sv, teamGames as real, 1) else Missing
      else
        var val := SafeFloat(Get(r, key));
        if val.Missing? then Missing
        else if key in PCT_KEYS then Num(val.x * 100.0)
        else val
  }

  /** The function reads a row as the script reads the same row with its NaN
    * cells emptied. */
  lemma LambdaStatIsScriptOnClean(row: Option<StatRow>, key: string, teamGames: int)
    ensures LambdaStatValue(row, key, teamGames) == ScriptStatValue(CleanOpt(row), key, teamGames)
  {
    if row.Some? {
      GetClean(row.value, "G");
      GetClean(row.value, "HR");
      GetClean(row.value, "IP");
      GetClean(row.value, "SV");
      GetClean(row.value, key);
    }
  }

  /** On a row without NaN cells both deployments read the same value. */
  lemma StatValuesAgreeWithoutNaN(row: StatRow, key: string, teamGames: int)
    requires NoNaN(row)
    ensures LambdaStatValue(Some(row), key, teamGames) == ScriptStatValue(Some(row), key, teamGames)
  {
    LambdaStatIsScriptOnClean(Some(row), key, teamGames);
    CleanWithoutNaN(row);
  }

  /** The script's `get_raw_value`: the counting stat behind a pace key,
    * to one decimal. */
  function ScriptRawValue(row: Option<StatRow>, key: string): (v: Val)
    ensures !v.Missing? ==> row.Some? && PaceRawKey(key).Some?
    ensures v.Num? ==> Get(row.value, PaceRawKey(key).value).Num?
    ensures v.Num? ==> -0.05 <= v.x - Get(row.value, PaceRawKey(key).value).x <= 0.05
    ensures v.NaN? ==> Get(row.value, PaceRawKey(key).value).NaN?
  {
    match PaceRawKey(key)
    case None => Missing
    case Some(raw) =>
      if row.None? then Missing
      else
        var val := Get(row.value, raw);
        if val.Num? then
          RoundError(val.x, 1);
          Num(Round(val.x, 1))
        else val
  }

  /** The function's `get_raw_value`. */
  function LambdaRawValue(row: Option<StatRow>, key: string): (v: Val)
    ensures !v.NaN?
    ensures !v.Missing? ==> row.Some? && PaceRawKey(key).Some?
  {
    match PaceRawKey(key)
    case None => Missing
    case Some(raw) =>
      if row.None? then Missing
      else
        var val := SafeFloat(Get(row.value, raw));
        if val.Num? then Num(Round(val.x, 1)) else Missing
  }

  lemma LambdaRawIsScriptOnClean(row: Option<StatRow>, key: string)
    ensures LambdaRawValue(row, key) == ScriptRawValue(CleanOpt(row), key)
  {
    if row.Some? && PaceRawKey(key).Some? {
      GetClean(row.value, PaceRawKey(key).value);
    }
  }

  /** The decimals a stat is shown with. */
  function StatDigits(stat: string): Digits
  {
    if stat in {"OBP", "SLG", "OPS", "AVG", "ISO"} then 3
    else if stat in PCT_KEYS then 1
    else if stat in {"EV", "ERA", "FIP", "WHIP", "K/9"} then 2
    else if stat == "wRC+" then 0
    else 1
  }

  /** `round_stat`, and the script's inline rounding: a number moves by at
    * most half a unit of its stat's last decimal and lands on that grid;
    * missing and NaN pass through. */
  function RoundStat(current: Val, stat: string): (r: Val)
    ensures r.Missing? <==> current.Missing?
    ensures r.NaN? <==> current.NaN?
    ensures r.Num? ==> -0.5 * Unit(StatDigits(stat)) <= r.x - current.x <= 0.5 * Unit(StatDigits(stat))
    ensures r.Num? ==> Round(r.x, StatDigits(stat)) == r.x
  {
    if current.Num? then
      RoundError(current.x, StatDigits(stat));
      RoundIdempotent(current.x, StatDigits(stat));
      Num(Round(current.x, StatDigits(stat)))
    else current
  }

  /** `evaluate_benchmark`: met only by a number on the right side of the
    * target; NaN and an unknown direction are never met. */
  function Evaluate(current: Val, target: real, direction: string): (met: bool)
    ensures met ==> current.Num?
    ensures current.Num? && direction == "gte" ==> (met <==> current.x >= target)
    ensures current.Num? && direction == "lte" ==> (met <==> current.x <= target)
    ensures direction != "gte" && direction != "lte" ==> !met
  {
    match current
    case Num(x) =>
      if direction == "gte" then x >= target
      else if direction == "lte" then x <= target
      else false
    case _ => false
  }

  // The tracked players.

  /** One target: the output key, the target value, "gte" or "lte", and the
    * column it is read from. */
  datatype Benchmark = Benchmark(key: string, target: real, direction: string, stat: string)

  datatype PlayerDef = PlayerDef(name: string, playerId: string, position: string, benchmarks: seq<Benchmark>)

  const BATTERS: seq<PlayerDef> := [
    PlayerDef("Gunnar Henderson", "683002", "SS", [
      Benchmark("barrel_pct", 10.0, "gte", "Barrel%"),
      Benchmark("wrc_plus", 140.0, "gte", "wRC+"),
      Benchmark("hr_pace", 30.0, "gte", "hr_pace")]),
    PlayerDef("Adley Rutschman", "668939", "C", [
      Benchmark("obp", 0.34, "gte", "OBP"),
      Benchmark("bb_pct", 10.0, "gte", "BB%"),
      Benchmark("wrc_plus", 115.0, "gte", "wRC+")]),
    PlayerDef("Jordan Westburg", "682614", "2B/3B", [
      Benchmark("ops", 0.8, "gte", "OPS"),
      Benchmark("iso", 0.18, "gte", "ISO"),
      Benchmark("games_pace", 140.0, "gte", "games_pace")]),
    PlayerDef("Colton Cowser", "681297", "OF", [
      Benchmark("k_pct", 22.0, "lte", "K%"),
      Benchmark("hard_pct", 38.0, "gte", "Hard%"),
      Benchmark("wrc_plus", 110.0, "gte", "wRC+")]),
    PlayerDef("Pete Alonso", "624413", "1B", [
      Benchmark("hr_pace", 30.0, "gte", "hr_pace"),
      Benchmark("exit_velo", 91.0, "gte", "EV"),
      Benchmark("slg", 0.47, "gte", "SLG")]),
    PlayerDef("Jackson Holliday", "696137", "2B", [
      Benchmark("k_pct", 25.0, "lte", "K%"),
      Benchmark("bb_pct", 9.0, "gte", "BB%"),
      Benchmark("avg", 0.25, "gte", "AVG")])
  ]

  const PITCHERS: seq<PlayerDef> := [
    PlayerDef("Kyle Bradish", "669062", "SP", [
      Benchmark("era", 3.5, "lte", "ERA"),
      Benchmark("k_per_9", 9.0, "gte", "K/9"),
      Benchmark("ip_pace", 160.0, "gte", "ip_pace")]),
    PlayerDef("Trevor Rogers", "669432", "SP", [
      Benchmark("era", 4.0, "lte", "ERA"),
      Benchmark("whip", 1.25, "lte", "WHIP"),
      Benchmark("k_pct", 22.0, "gte", "K%")]),
    PlayerDef("Shane Baz", "669358", "SP", [
      Benchmark("era", 3.75, "lte", "ERA"),
      Benchmark("fip", 3.75, "lte", "FIP"),
      Benchmark("ip_pace", 140.0, "gte", "ip_pace")]),
    PlayerDef("Ryan Helsley", "664854", "CL", [
      Benchmark("era", 2.5, "lte", "ERA"),
      Benchmark("k_per_9", 11.0, "gte", "K/9"),
      Benchmark("sv_pace", 35.0, "gte", "sv_pace")])
  ]

  /** The bullpen's targets, read from the aggregate by key. */
  datatype BullpenBenchmark = BullpenBenchmark(key: string, target: real, direction: string)

  const BULLPEN_BENCHMARKS: seq<BullpenBenchmark> := [
    BullpenBenchmark("era", 3.75, "lte"),
    BullpenBenchmark("k_per_9", 9.5, "gte"),
    BullpenBenchmark("whip", 1.25, "lte")
  ]

  function Players(): seq<PlayerDef>
  {
    BATTERS + PITCHERS
  }

  function PitcherNames(): set<string>
  {
    set i | 0 <= i < |PITCHERS| :: PITCHERS[i].name
  }

  /** The players' names in list order. */
  function NamesOf(defs: seq<PlayerDef>): (names: seq<string>)
    ensures |names| == |defs|
    ensures forall i :: 0 <= i < |names| ==> names[i] == defs[i].name
  {
    if |defs| == 0 then [] else NamesOf(defs[..|defs| - 1]) + [defs[|defs| - 1].name]
  }

  function BatterNames(): (names: seq<string>)
    ensures |names| == |BATTERS|
    ensures forall i :: 0 <= i < |names| ==> names[i] == BATTERS[i].name
  {
    NamesOf(BATTERS)
  }

  predicate AllHaveWords(names: seq<string>)
  {
    forall i :: 0 <= i < |names| ==> HasWord(names[i])
  }

  /** Every tracked name has a last word, so the fallback lookup is defined. */
  lemma PlayerNamesHaveWords()
    ensures AllHaveWords(BatterNames())
    ensures forall i :: 0 <= i < |Players()| ==> HasWord(Players()[i].name)
  {
    forall i | 0 <= i < |Players()| ensures HasWord(Players()[i].name) {
      assert !IsSpace(Players()[i].name[0]);
    }
    forall i | 0 <= i < |BATTERS| ensures HasWord(BatterNames()[i]) {
      assert Players()[i] == BATTERS[i];
    }
  }

  // Team games.

  /** The `G` cell of a batter's row, missing when the batter is not found. */
  function GamesOf(rows: seq<StatRow>, name: string): Val
    requires HasWord(name)
  {
    match FindPlayer(rows, name)
    case None => Missing
    case Some(r) => Get(r, "G")
  }

  /** The `G` cells of the named batters, in order. */
  function GamesColumn(rows: seq<StatRow>, names: seq<string>): (gs: seq<Val>)
    requires AllHaveWords(names)
    ensures |gs| == |names|
    ensures forall i :: 0 <= i < |names| ==> gs[i] == GamesOf(rows, names[i])
  {
    seq(|names|, i requires 0 <= i < |names| => GamesOf(rows, names[i]))
  }

  /** The running maximum of `int(g)` over the cells, starting at 0; a NaN
    * or missing cell never raises it. */
  function MaxGames(gs: seq<Val>): nat
    decreases |gs|
  {
    if |gs| == 0 then 0
    else
      var m := MaxGames(gs[..|gs| - 1]);
      var g := gs[|gs| - 1];
      if g.Num? && g.x > m as real then g.x.Floor else m
  }

  lemma MaxGamesStep(gs: seq<Val>, i: nat)
    requires i < |gs|
    ensures MaxGames(gs[..i + 1]) ==
      if gs[i].Num? && gs[i].x > MaxGames(gs[..i]) as real then gs[i].x.Floor else MaxGames(gs[..i])
  {
    assert gs[..i + 1][..i] == gs[..i];
  }

  /** The maximum bounds every number's floor and is one of them. */
  lemma {:induction false} MaxGamesIsMax(gs: seq<Val>)
    ensures forall i :: 0 <= i < |gs| && gs[i].Num? ==> gs[i].x.Floor <= MaxGames(gs)
    ensures MaxGames(gs) == 0 || exists i :: 0 <= i < |gs| && gs[i].Num? && gs[i].x.Floor == MaxGames(gs)
    decreases |gs|
  {
    if |gs| > 0 {
      var init := gs[..|gs| - 1];
      MaxGamesIsMax(init);
      var m := MaxGames(init);
      var g := gs[|gs| - 1];
      if g.Num? && g.x > m as real {
        assert m <= g.x.Floor;
      } else if MaxGames(gs) != 0 {
        var i :| 0 <= i < |init| && init[i].Num? && init[i].x.Floor == m;
        assert gs[i] == init[i];
      }
    }
  }

  /** `estimate_team_games`: the most games any tracked batter has played,
    * 162 when none is found. */
  function TeamGames(rows: seq<StatRow>): (games: int)
    ensures games >= 1
  {
    PlayerNamesHaveWords();
    var m := MaxGames(GamesColumn(rows, BatterNames()));
    if m > 0 then m else 162
  }

  /** The estimate is at least every found batter's games, and is one of
    * them unless it is the 162 fallback. */
  lemma TeamGamesBound(rows: seq<StatRow>)
    ensures AllHaveWords(BatterNames())
    ensures forall i :: 0 <= i < |BATTERS| && GamesOf(rows, BatterNames()[i]).Num? ==>
      GamesOf(rows, BatterNames()[i]).x.Floor <= TeamGames(rows)
    ensures TeamGames(rows) == 162 || exists i :: (0 <= i < |BATTERS| && GamesOf(rows, BatterNames()[i]).Num?
      && GamesOf(rows, BatterNames()[i]).x.Floor == TeamGames(rows))
  {
    PlayerNamesHaveWords();
    var gs := GamesColumn(rows, BatterNames());
    MaxGamesIsMax(gs);
  }

  /** The loop of `estimate_team_games` over the given names. */
  method MaxGamesOf(rows: seq<StatRow>, names: seq<string>) returns (maxG: nat)
    requires AllHaveWords(names)
    ensures maxG == MaxGames(GamesColumn(rows, names))
  {
    ghost var gs := GamesColumn(rows, names);
    maxG := 0;
    var i := 0;
    while i < |names|
      invariant 0 <= i <= |names|
      invariant maxG == MaxGames(gs[..i])
    {
      MaxGamesStep(gs, i);
      var row := FindPlayer(rows, names[i]);
      if row.Some? {
        var g := Get(row.value, "G");
        assert g == gs[i];
        if g.Num? && g.x > maxG as real {
          maxG := g.x.Floor;
        }
      } else {
        assert gs[i] == Missing;
      }
      i := i + 1;
    }
    assert gs[..|names|] == gs;
  }

  method EstimateTeamGames(rows: seq<StatRow>) returns (games: int)
    ensures games == TeamGames(rows)
  {
    PlayerNamesHaveWords();
    var maxG := MaxGamesOf(rows, BatterNames());
    games := if maxG > 0 then maxG else 162;
  }

  // The bullpen.

  datatype BullpenStats = BullpenStats(era: real, kPer9: real, whip: real)

  /** A cell in a sum: NaN and missing count as zero. */
  function OrZero(v: Val): real
  {
    if v.Num? then v.x else 0.0
  }

  function Total(rows: seq<StatRow>, col: string): real
  {
    SumOf(rows, (r: StatRow) => OrZero(Get(r, col)))
  }

  function Filter(rows: seq<StatRow>, keep: StatRow -> bool): (kept: seq<StatRow>)
    ensures |kept| <= |rows|
    ensures forall r :: r in kept <==> r in rows && keep(r)
    decreases |rows|
  {
    if |rows| == 0 then []
    else
      var rest := Filter(rows[1..], keep);
      assert forall r :: r in rows <==> r == rows[0] || r in rows[1..];
      if keep(rows[0]) then [rows[0]] + rest else rest
  }

  /** The totals over the relievers as rates: none without relievers or
    * without innings; each rate within half a hundredth of its exact value. */
  function BullpenOf(relievers: seq<StatRow>): (b: Option<BullpenStats>)
    ensures b.Some? <==> |relievers| > 0 && Total(relievers, "IP") > 0.0
    ensures b.Some? ==> -0.005 <= b.value.era - Total(relievers, "ER") / Total(relievers, "IP") * 9.0 <= 0.005
    ensures b.Some? ==> -0.005 <= b.value.kPer9 - Total(relievers, "SO") / Total(relievers, "IP") * 9.0 <= 0.005
    ensures b.Some? ==>
      -0.005 <= b.value.whip - (Total(relievers, "BB") + Total(relievers, "H")) / Total(relievers, "IP") <= 0.005
  {
    if |relievers| == 0 then None
    else
      var ip := Total(relievers, "IP");
      if ip <= 0.0 then None
      else
        var era := Total(relievers, "ER") / ip * 9.0;
        var k9 := Total(relievers, "SO") / ip * 9.0;
        var whip := (Total(relievers, "BB") + Total(relievers, "H")) / ip;
        RoundError(era, 2);
        RoundError(k9, 2);
        RoundError(whip, 2);
        Some(BullpenStats(Round(era, 2), Round(k9, 2), Round(whip, 2)))
  }

  predicate IsBal(r: StatRow)
  {
    r.team == Some("BAL")
  }

  /** More relief innings than starting innings, empty cells as zero. */
  predicate Relieves(r: StatRow)
  {
    OrZero(Get(r, "Relief-IP")) > OrZero(Get(r, "Start-IP"))
  }

  /** `safe_float(GS) == 0`. */
  predicate NoStarts(r: StatRow)
  {
    SafeFloat(Get(r, "GS")) == Num(0.0)
  }

  /** The script's `aggregate_bullpen`: BAL rows, then relievers. */
  function ScriptBullpen(rows: seq<StatRow>): Option<BullpenStats>
  {
    var bal := Filter(rows, IsBal);
    if |bal| == 0 then None else BullpenOf(Filter(bal, Relieves))
  }

  /** The function's `aggregate_bullpen`: rows with no games started (the
    * rows are the club's already). */
  function LambdaBullpen(rows: seq<StatRow>): Option<BullpenStats>
  {
    BullpenOf(Filter(rows, NoStarts))
  }

  /** The script's early return for a club with no rows is the relievers'
    * own empty case: its bullpen is the aggregate over exactly the BAL
    * relievers. */
  lemma ScriptBullpenIsBalRelievers(rows: seq<StatRow>)
    ensures ScriptBullpen(rows) == BullpenOf(Filter(Filter(rows, IsBal), Relieves))
    ensures forall r :: r in Filter(Filter(rows, IsBal), Relieves) <==> r in rows && IsBal(r) && Relieves(r)
  {
  }

  // The output.

  /** `[f(x) for x in s]`, built as a loop appends it. */
  function Map<A(!new), B>(f: A --> B, s: seq<A>): (r: seq<B>)
    requires forall i :: 0 <= i < |s| ==> f.requires(s[i])
    ensures |r| == |s|
    ensures forall i :: 0 <= i < |s| ==> r[i] == f(s[i])
    decreases |s|
  {
    if |s| == 0 then [] else Map(f, s[..|s| - 1]) + [f(s[|s| - 1])]
  }

  lemma MapSnoc<A(!new), B>(f: A --> B, s: seq<A>, i: nat)
    requires i < |s|
    requires forall j :: 0 <= j < |s| ==> f.requires(s[j])
    ensures Map(f, s[..i + 1]) == Map(f, s[..i]) + [f(s[i])]
  {
    assert s[..i + 1][..i] == s[..i];
  }

  /** Which deployment reads the rows. */
  datatype Deployment = Script | Lambda

  function StatValue(d: Deployment, row: Option<StatRow>, key: string, teamGames: int): Val
  {
    if d.Script? then ScriptStatValue(row, key, teamGames) else LambdaStatValue(row, key, teamGames)
  }

  function RawValue(d: Deployment, row: Option<StatRow>, key: string): Val
  {
    if d.Script? then ScriptRawValue(row, key) else LambdaRawValue(row, key)
  }

  function Bullpen(d: Deployment, rows: seq<StatRow>): Option<BullpenStats>
  {
    if d.Script? then ScriptBullpen(rows) else LambdaBullpen(rows)
  }

  /** One judged target; `actual` is missing when the output leaves it out. */
  datatype Entry = Entry(key: string, target: real, direction: string, current: Val, met: bool, actual: Val)

  datatype PlayerOut = PlayerOut(name: string, playerId: string, position: string, isPitcher: bool, benchmarks: seq<Entry>)

  /** The entry of one target: the current value rounded for its stat,
    * judged against the target, with the raw count behind a pace. */
  function EntryOf(d: Deployment, row: Option<StatRow>, bm: Benchmark, teamGames: int): Entry
  {
    var current := RoundStat(StatValue(d, row, bm.stat, teamGames), bm.stat);
    Entry(bm.key, bm.target, bm.direction, current, Evaluate(current, bm.target, bm.direction), RawValue(d, row, bm.key))
  }

  /** An entry keeps its definition's key, target and direction; it is met
    * only by a number on the right side of the target; its current value is
    * the stat read off the row within half a unit of the stat's last
    * decimal; and only a pace carries a raw count. */
  lemma EntryOfSpec(d: Deployment, row: Option<StatRow>, bm: Benchmark, teamGames: int)
    ensures var e := EntryOf(d, row, bm, teamGames);
      e.key == bm.key && e.target == bm.target && e.direction == bm.direction
      && (e.met ==> (e.current.Num? && ((bm.direction == "gte" && e.current.x >= bm.target)
        || (bm.direction == "lte" && e.current.x <= bm.target))))
      && (e.current.Num? ==> (StatValue(d, row, bm.stat, teamGames).Num?
        && -0.5 * Unit(StatDigits(bm.stat)) <= e.current.x - StatValue(d, row, bm.stat, teamGames).x
        && e.current.x - StatValue(d, row, bm.stat, teamGames).x <= 0.5 * Unit(StatDigits(bm.stat))))
      && (!e.actual.Missing? ==> PaceRawKey(bm.key).Some?)
  {
  }

  /** The function judges a row as the script judges it with NaN cells
    * emptied. */
  lemma LambdaEntryIsScriptOnClean(row: Option<StatRow>, bm: Benchmark, teamGames: int)
    ensures EntryOf(Lambda, row, bm, teamGames) == EntryOf(Script, CleanOpt(row), bm, teamGames)
  {
    LambdaStatIsScriptOnClean(row, bm.stat, teamGames);
    LambdaRawIsScriptOnClean(row, bm.key);
  }

  function PlayerOutOf(d: Deployment, p: PlayerDef, batting: seq<StatRow>, pitching: seq<StatRow>, teamGames: int): PlayerOut
    requires HasWord(p.name)
  {
    var pitcher := p.name in PitcherNames();
    var row := FindPlayer(if pitcher then pitching else batting, p.name);
    PlayerOut(p.name, p.playerId, p.position, pitcher, EntriesOf(d, row, p.benchmarks, teamGames))
  }

  /** The entries of one player's targets, in order. */
  function EntriesOf(d: Deployment, row: Option<StatRow>, bms: seq<Benchmark>, teamGames: int): seq<Entry>
  {
    Map((bm: Benchmark) => EntryOf(d, row, bm, teamGames), bms)
  }

  /** A bullpen rate by its key. */
  function BullpenStat(stats: Option<BullpenStats>, key: string): Val
  {
    if stats.None? then Missing
    else if key == "era" then Num(stats.value.era)
    else if key == "k_per_9" then Num(stats.value.kPer9)
    else if key == "whip" then Num(stats.value.whip)
    else Missing
  }

  function BullpenEntry(stats: Option<BullpenStats>, bm: BullpenBenchmark): Entry
  {
    var current := BullpenStat(stats, bm.key);
    Entry(bm.key, bm.target, bm.direction, current, Evaluate(current, bm.target, bm.direction), Missing)
  }

  function BullpenOut(stats: Option<BullpenStats>): PlayerOut
  {
    PlayerOut("Team Bullpen", "bullpen", "RP", true, BullpenEntries(stats, BULLPEN_BENCHMARKS))
  }

  function BullpenEntries(stats: Option<BullpenStats>, bms: seq<BullpenBenchmark>): seq<Entry>
  {
    Map((bm: BullpenBenchmark) => BullpenEntry(stats, bm), bms)
  }

  predicate DefsHaveWords(defs: seq<PlayerDef>)
  {
    forall i :: 0 <= i < |defs| ==> HasWord(defs[i].name)
  }

  /** The judged players, one per definition, in order. */
  function PlayersOut(d: Deployment, defs: seq<PlayerDef>, batting: seq<StatRow>, pitching: seq<StatRow>, teamGames: int): seq<PlayerOut>
    requires DefsHaveWords(defs)
  {
    Map((p: PlayerDef) requires HasWord(p.name) => PlayerOutOf(d, p, batting, pitching, teamGames), defs)
  }

  /** `build_benchmarks`: the tracked players in order, then the bullpen. */
  function Benchmarks(d: Deployment, batting: seq<StatRow>, pitching: seq<StatRow>): seq<PlayerOut>
  {
    PlayerNamesHaveWords();
    PlayersOut(d, Players(), batting, pitching, TeamGames(batting)) + [BullpenOut(Bullpen(d, pitching))]
  }

  /** The inner loop of `build_benchmarks`: one entry per target. */
  method PlayerEntries(d: Deployment, row: Option<StatRow>, bms: seq<Benchmark>, teamGames: int) returns (entries: seq<Entry>)
    ensures entries == EntriesOf(d, row, bms, teamGames)
  {
    entries := [];
    var k := 0;
    while k < |bms|
      invariant 0 <= k <= |bms|
      invariant entries == EntriesOf(d, row, bms[..k], teamGames)
    {
      MapSnoc((bm: Benchmark) => EntryOf(d, row, bm, teamGames), bms, k);
      var bm := bms[k];
      var current := RoundStat(StatValue(d, row, bm.stat, teamGames), bm.stat);
      var met := Evaluate(current, bm.target, bm.direction);
      var actual := RawValue(d, row, bm.key);
      entries := entries + [Entry(bm.key, bm.target, bm.direction, current, met, actual)];
      k := k + 1;
    }
    assert bms[..|bms|] == bms;
  }

  /** One pass of the outer loop of `build_benchmarks`. */
  method JudgePlayer(d: Deployment, p: PlayerDef, batting: seq<StatRow>, pitching: seq<StatRow>, teamGames: int)
    returns (out: PlayerOut)
    requires HasWord(p.name)
    ensures out == PlayerOutOf(d, p, batting, pitching, teamGames)
  {
    var pitcher := p.name in PitcherNames();
    var row := FindPlayer(if pitcher then pitching else batting, p.name);
    var entries := PlayerEntries(d, row, p.benchmarks, teamGames);
    out := PlayerOut(p.name, p.playerId, p.position, pitcher, entries);
  }

  /** The outer loop of `build_benchmarks` over the given definitions. */
  method JudgePlayers(d: Deployment, defs: seq<PlayerDef>, batting: seq<StatRow>, pitching: seq<StatRow>, teamGames: int)
    returns (players: seq<PlayerOut>)
    requires DefsHaveWords(defs)
    ensures players == PlayersOut(d, defs, batting, pitching, teamGames)
  {
    players := [];
    var i := 0;
    while i < |defs|
      invariant 0 <= i <= |defs|
      invariant DefsHaveWords(defs[..i])
      invariant players == PlayersOut(d, defs[..i], batting, pitching, teamGames)
    {
      MapSnoc((p: PlayerDef) requires HasWord(p.name) => PlayerOutOf(d, p, batting, pitching, teamGames), defs, i);
      var out := JudgePlayer(d, defs[i], batting, pitching, teamGames);
      players := players + [out];
      i := i + 1;
    }
    assert defs[..|defs|] == defs;
  }

  /** The bullpen loop of `build_benchmarks`. */
  method JudgeBullpen(stats: Option<BullpenStats>) returns (out: PlayerOut)
    ensures out == BullpenOut(stats)
  {
    var pen := [];
    var k := 0;
    while k < |BULLPEN_BENCHMARKS|
      invariant 0 <= k <= |BULLPEN_BENCHMARKS|
      invariant pen == BullpenEntries(stats, BULLPEN_BENCHMARKS[..k])
    {
      MapSnoc((bm: BullpenBenchmark) => BullpenEntry(stats, bm), BULLPEN_BENCHMARKS, k);
      pen := pen + [BullpenEntry(stats, BULLPEN_BENCHMARKS[k])];
      k := k + 1;
    }
    assert BULLPEN_BENCHMARKS[..|BULLPEN_BENCHMARKS|] == BULLPEN_BENCHMARKS;
    out := PlayerOut("Team Bullpen", "bullpen", "RP", true, pen);
  }

  /** `build_benchmarks`, given the two season tables. */
  method BuildBenchmarks(d: Deployment, batting: seq<StatRow>, pitching: seq<StatRow>) returns (players: seq<PlayerOut>)
    ensures players == Benchmarks(d, batting, pitching)
  {
    var teamGames := EstimateTeamGames(batting);
    PlayerNamesHaveWords();
    players := JudgePlayers(d, Players(), batting, pitching, teamGames);
    var stats := Bullpen(d, pitching);
    var pen := JudgeBullpen(stats);
    players := players + [pen];
  }

  /** The output has the ten tracked players, then the bullpen. */
  lemma BenchmarksShape(d: Deployment, batting: seq<StatRow>, pitching: seq<StatRow>)
    ensures |Benchmarks(d, batting, pitching)| == |BATTERS| + |PITCHERS| + 1 == 11
    ensures Benchmarks(d, batting, pitching)[10] == BullpenOut(Bullpen(d, pitching))
  {
    PlayerNamesHaveWords();
  }

  /** Each tracked player comes out in definition order with one entry per
    * target, and is a pitcher exactly when it is a pitcher definition. */
  lemma PlayersKeepDefinitions(d: Deployment, batting: seq<StatRow>, pitching: seq<StatRow>, i: int)
    requires 0 <= i < |Players()|
    ensures i < |Benchmarks(d, batting, pitching)|
    ensures Benchmarks(d, batting, pitching)[i].name == Players()[i].name
    ensures |Benchmarks(d, batting, pitching)[i].benchmarks| == |Players()[i].benchmarks|
    ensures Benchmarks(d, batting, pitching)[i].isPitcher <==> i >= |BATTERS|
  {
    PlayerNamesHaveWords();
    PitcherFlags();
    var p := Players()[i];
    var players := PlayersOut(d, Players(), batting, pitching, TeamGames(batting));
    assert Benchmarks(d, batting, pitching)[i] == players[i];
    var row := FindPlayer(if p.name in PitcherNames() then pitching else batting, p.name);
    assert players[i] == PlayerOut(p.name, p.playerId, p.position, p.name in PitcherNames(),
      EntriesOf(d, row, p.benchmarks, TeamGames(batting)));
  }

  /** The pitcher test picks out exactly the pitcher definitions. */
  lemma PitcherFlags()
    ensures forall i :: 0 <= i < |Players()| ==> (Players()[i].name in PitcherNames() <==> i >= |BATTERS|)
  {
    forall i | 0 <= i < |Players()|
      ensures Players()[i].name in PitcherNames() <==> i >= |BATTERS|
    {
      if i >= |BATTERS| {
        assert Players()[i] == PITCHERS[i - |BATTERS|];
      } else {
        forall j | 0 <= j < |PITCHERS| ensures PITCHERS[j].name != Players()[i].name {
          assert PITCHERS[j].name[0] != Players()[i].name[0];
        }
      }
    }
  }

  /** A met entry anywhere in the output holds a number on the right side
    * of its target. */
  lemma MetMeansOnTarget(d: Deployment, batting: seq<StatRow>, pitching: seq<StatRow>, i: int, k: int)
    requires 0 <= i < |Benchmarks(d, batting, pitching)|
    requires 0 <= k < |Benchmarks(d, batting, pitching)[i].benchmarks|
    ensures var e := Benchmarks(d, batting, pitching)[i].benchmarks[k];
      e.met ==> (e.current.Num? && ((e.direction == "gte" && e.current.x >= e.target)
        || (e.direction == "lte" && e.current.x <= e.target)))
  {
    if i < |Players()| {
      PlayerNamesHaveWords();
      var p := Players()[i];
      var row := FindPlayer(if p.name in PitcherNames() then pitching else batting, p.name);
      EntryOfSpec(d, row, p.benchmarks[k], TeamGames(batting));
    }
  }

  /** The function's output never holds NaN: each current value and raw
    * count is a number or missing. */
  lemma LambdaNeverNaN(batting: seq<StatRow>, pitching: seq<StatRow>, i: int, k: int)
    requires 0 <= i < |Benchmarks(Lambda, batting, pitching)|
    requires 0 <= k < |Benchmarks(Lambda, batting, pitching)[i].benchmarks|
    ensures !Benchmarks(Lambda, batting, pitching)[i].benchmarks[k].current.NaN?
    ensures !Benchmarks(Lambda, batting, pitching)[i].benchmarks[k].actual.NaN?
  {
    PlayerNamesHaveWords();
    BenchmarksNeverNaN(Players(), batting, pitching, TeamGames(batting), Benchmarks(Lambda, batting, pitching), i, k);
  }

  /** The entries of the players, then the bullpen, hold no NaN, whatever
    * the list of tracked players. */
  lemma BenchmarksNeverNaN(defs: seq<PlayerDef>, batting: seq<StatRow>, pitching: seq<StatRow>, teamGames: int,
                           all: seq<PlayerOut>, i: int, k: int)
    requires DefsHaveWords(defs)
    requires all == PlayersOut(Lambda, defs, batting, pitching, teamGames) + [BullpenOut(Bullpen(Lambda, pitching))]
    requires 0 <= i < |all| && 0 <= k < |all[i].benchmarks|
    ensures !all[i].benchmarks[k].current.NaN? && !all[i].benchmarks[k].actual.NaN?
  {
    if i < |defs| {
      PlayersOutNeverNaN(defs, batting, pitching, teamGames, i, k);
    } else {
      BullpenNeverNaN(Bullpen(Lambda, pitching), BULLPEN_BENCHMARKS, k);
    }
  }

  /** The bullpen's entries hold no NaN. */
  lemma BullpenNeverNaN(stats: Option<BullpenStats>, bms: seq<BullpenBenchmark>, k: int)
    requires 0 <= k < |bms|
    ensures !BullpenEntries(stats, bms)[k].current.NaN?
    ensures BullpenEntries(stats, bms)[k].actual.Missing?
  {
  }

  /** The players' entries of the function hold no NaN, whatever the list
    * of tracked players. */
  lemma PlayersOutNeverNaN(defs: seq<PlayerDef>, batting: seq<StatRow>, pitching: seq<StatRow>, teamGames: int, i: int, k: int)
    requires DefsHaveWords(defs)
    requires 0 <= i < |defs|
    requires 0 <= k < |PlayersOut(Lambda, defs, batting, pitching, teamGames)[i].benchmarks|
    ensures !PlayersOut(Lambda, defs, batting, pitching, teamGames)[i].benchmarks[k].current.NaN?
    ensures !PlayersOut(Lambda, defs, batting, pitching, teamGames)[i].benchmarks[k].actual.NaN?
  {
    var p := defs[i];
    var row := FindPlayer(if p.name in PitcherNames() then pitching else batting, p.name);
    LambdaEntryNeverNaN(row, p.benchmarks[k], teamGames);
  }

  /** One entry of the function holds no NaN. */
  lemma LambdaEntryNeverNaN(row: Option<StatRow>, bm: Benchmark, teamGames: int)
    ensures !EntryOf(Lambda, row, bm, teamGames).current.NaN?
    ensures !EntryOf(Lambda, row, bm, teamGames).actual.NaN?
  {
  }
}
