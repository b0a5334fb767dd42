/** Net projected fWAR per club from FanGraphs' offseason exports: the line
  * cleaning of the additions file, the code and WAR normalisation, the trade
  * departures read from "Acquired from <club> for/with ..." notes, and the
  * per-club summary sorted by net projected WAR. */
module FangraphsNetFwar {
  import opened Wrappers
  import opened Rounding
  import opened PairTables
  import opened Folds
  import Sums
  import Sorting
  import TeamCodes
  import CoreBenchmarks

  // Cleaning the additions file, one line at a time.

  predicate IsSpace(c: char)
  {
    CoreBenchmarks.IsSpace(c)
  }

  /** `s.lstrip()`. */
  function TrimStart(s: string): (t: string)
    ensures |t| <= |s| && t == s[|s| - |t|..]
    ensures |t| > 0 ==> !IsSpace(t[0])
    ensures forall i :: 0 <= i < |s| - |t| ==> IsSpace(s[i])
    decreases |s|
  {
    if |s| > 0 && IsSpace(s[0]) then TrimStart(s[1..]) else s
  }

  /** `s.strip()`: `s[lo..lo + |t|]` with only whitespace on either side. */
  function Strip(s: string): (t: string)
    ensures |t| > 0 ==> !IsSpace(t[0]) && !IsSpace(t[|t| - 1])
    ensures exists lo :: StrippedAt(s, t, lo)
  {
    var e := CoreBenchmarks.TrimEnd(s);
    var t := TrimStart(e);
    assert StrippedAt(s, t, |e| - |t|) by {
      assert s[|e| - |t|..|e|] == e[|e| - |t|..];
    }
    t
  }

  ghost predicate StrippedAt(s: string, t: string, lo: int)
  {
    0 <= lo && lo + |t| <= |s| && s[lo..lo + |t|] == t &&
    (forall i :: 0 <= i < lo ==> IsSpace(s[i])) &&
    (forall i :: lo + |t| <= i < |s| ==> IsSpace(s[i]))
  }

  /** A string already without surrounding whitespace is left alone. */
  lemma StripKeeps(s: string)
    requires |s| > 0 ==> !IsSpace(s[0]) && !IsSpace(s[|s| - 1])
    ensures Strip(s) == s
  {
    var t := Strip(s);
    var lo :| StrippedAt(s, t, lo);
    if |s| > 0 {
      assert lo == 0;
      assert |t| == |s|;
      assert s[..|s|] == s;
    }
  }

  /** `s.replace('""', '"')`: pairs of quotes are collapsed left to right,
    * never overlapping. */
  function Collapse(s: string): (r: string)
    ensures |r| <= |s|
    decreases |s|
  {
    if |s| == 0 then []
    else if |s| >= 2 && s[0] == '"' && s[1] == '"' then "\"" + Collapse(s[2..])
    else [s[0]] + Collapse(s[1..])
  }

  /** Doubled-quote escaping, the inverse of `Collapse`. */
  function Escape(s: string): (r: string)
    ensures |r| >= |s|
    decreases |s|
  {
    if |s| == 0 then []
    else if s[0] == '"' then "\"\"" + Escape(s[1..])
    else [s[0]] + Escape(s[1..])
  }

  /** The characters of `s` other than quotes, in order. */
  function Unquoted(s: string): (r: string)
    ensures |r| <= |s|
    decreases |s|
  {
    if |s| == 0 then []
    else if s[0] == '"' then Unquoted(s[1..])
    else [s[0]] + Unquoted(s[1..])
  }

  lemma {:induction false} UnquotedAppend(a: string, b: string)
    ensures Unquoted(a + b) == Unquoted(a) + Unquoted(b)
    decreases |a|
  {
    if |a| > 0 {
      assert (a + b)[0] == a[0];
      assert (a + b)[1..] == a[1..] + b;
      UnquotedAppend(a[1..], b);
      if a[0] != '"' {
        assert Unquoted(a + b) == [a[0]] + (Unquoted(a[1..]) + Unquoted(b));
        assert Unquoted(a) == [a[0]] + Unquoted(a[1..]);
      }
    } else {
      assert a + b == b;
    }
  }

  /** Collapsing undoes escaping. */
  lemma {:induction false} CollapseEscape(s: string)
    ensures Collapse(Escape(s)) == s
    decreases |s|
  {
    if |s| > 0 {
      CollapseEscape(s[1..]);
      var e := Escape(s);
      if s[0] == '"' {
        assert e[2..] == Escape(s[1..]);
      } else {
        assert e[1..] == Escape(s[1..]);
      }
      assert s == [s[0]] + s[1..];
    }
  }

  /** Collapsing removes quotes only: every other character survives, in order. */
  lemma {:induction false} CollapseKeepsText(s: string)
    ensures Unquoted(Collapse(s)) == Unquoted(s)
    decreases |s|
  {
    if |s| > 0 {
      if |s| >= 2 && s[0] == '"' && s[1] == '"' {
        CollapseKeepsText(s[2..]);
        UnquotedAppend("\"", Collapse(s[2..]));
        assert s[1..][1..] == s[2..];
      } else {
        CollapseKeepsText(s[1..]);
        UnquotedAppend([s[0]], Collapse(s[1..]));
      }
    }
  }

  /** A line without a doubled quote is not changed by collapsing. */
  lemma {:induction false} CollapseNoPairs(s: string)
    requires forall i :: 0 <= i < |s| - 1 ==> !(s[i] == '"' && s[i + 1] == '"')
    ensures Collapse(s) == s
    decreases |s|
  {
    if |s| > 0 {
      CollapseNoPairs(s[1..]);
      assert s == [s[0]] + s[1..];
    }
  }

  /** A record as the export writes it: wrapped in quotes, inner quotes doubled. */
  function Quote(record: string): string
  {
    "\"" + Escape(record) + "\""
  }

  /** `s[1:-1]` when `s` starts and ends with a quote, else `s`. A string of
    * a single quote is both its own first and last character, and leaves
    * the empty string. */
  function Unwrap(s: string): (inner: string)
    requires |s| > 0
    ensures |inner| <= |s|
    ensures Unquoted(inner) == Unquoted(s)
  {
    if s[0] == '"' && s[|s| - 1] == '"' then
      if |s| >= 2 then
        var inner := s[1..|s| - 1];
        assert s == "\"" + inner + "\"";
        UnquotedAppend("\"", inner);
        UnquotedAppend("\"" + inner, "\"");
        inner
      else
        assert s == "\"";
        ""
    else s
  }

  /** One raw line: `None` for a blank line, otherwise the line stripped, with
    * one outer quote pair removed when it is present at both ends and
    * doubled quotes collapsed. */
  function CleanLine(line: string): (r: Option<string>)
    ensures r.None? <==> Strip(line) == ""
    ensures r.Some? ==> |r.value| <= |Strip(line)| && Unquoted(r.value) == Unquoted(Strip(line))
  {
    var s := Strip(line);
    if s == "" then None
    else
      CollapseKeepsText(Unwrap(s));
      Some(Collapse(Unwrap(s)))
  }

  /** A record written the way the export quotes it comes back unchanged. */
  lemma CleanLineQuoted(record: string)
    ensures CleanLine(Quote(record)) == Some(record)
  {
    var q := Quote(record);
    StripKeeps(q);
    assert Unwrap(q) == Escape(record);
    CollapseEscape(record);
  }

  /** The cleaned lines of a file, blank lines dropped. */
  function CleanLines(lines: seq<string>): (out: seq<string>)
    ensures |out| <= |lines|
  {
    FilterMap(CleanLine, lines)
  }

  /** The number of lines that are not blank. */
  function NonBlank(lines: seq<string>): nat
  {
    CountWhere(lines, (l: string) => Strip(l) != "")
  }

  /** One cleaned line per non-blank raw line. */
  lemma CleanLinesCount(lines: seq<string>)
    ensures |CleanLines(lines)| == NonBlank(lines)
  {
    FilterMapCount(CleanLine, lines, (l: string) => Strip(l) != "");
  }

  /** Each record quoted as the export writes it, one per line. */
  function QuoteAll(records: seq<string>): (lines: seq<string>)
    ensures |lines| == |records|
    ensures forall i :: 0 <= i < |records| ==> lines[i] == Quote(records[i])
  {
    seq(|records|, i requires 0 <= i < |records| => Quote(records[i]))
  }

  /** A file of quoted records cleans back to the records themselves. */
  lemma CleanLinesQuoted(records: seq<string>)
    ensures CleanLines(QuoteAll(records)) == records
  {
    var lines := QuoteAll(records);
    forall i | 0 <= i < |lines| ensures CleanLine(lines[i]) == Some(records[i]) {
      CleanLineQuoted(records[i]);
    }
    FilterMapAll(CleanLine, lines, records);
  }

  /** The cleaning loop of the additions loader. */
  method LoadAdditions(lines: seq<string>) returns (cleaned: seq<string>)
    ensures cleaned == CleanLines(lines)
  {
    cleaned := [];
    var i := 0;
    while i < |lines|
      invariant 0 <= i <= |lines|
      invariant cleaned == CleanLines(lines[..i])
    {
      FilterMapStep(CleanLine, lines, i);
      var line := CleanLine(lines[i]);
      if line.Some? {
        cleaned := cleaned + [line.value];
      }
      i := i + 1;
    }
    assert lines[..i] == lines;
  }

  // Club codes and WAR values.

  /** FanGraphs' own club codes and the pipeline's codes for the same clubs. */
  const FG_PAIRS: seq<(string, string)> :=
    [("ARI", "AZ"), ("CHW", "CWS"), ("KCR", "KC"), ("SDP", "SD"), ("SFG", "SF"), ("TBR", "TB"), ("WSN", "WSH")]

  function FgToCanonical(): map<string, string> { PairsToMap(FG_PAIRS) }

  /** `FG_TO_CANONICAL.get(code, code)`. */
  function Canonical(code: string): string
  {
    if code in FgToCanonical() then FgToCanonical()[code] else code
  }

  /** Rows 25, 5, 8, 28, 29, 3 and 19 of the division table hold the seven
    * codes the FanGraphs table maps to. */
  lemma FgValuesAreClubs()
    ensures forall k :: k in FgToCanonical() ==> FgToCanonical()[k] in TeamCodes.TeamDivision()
  {
    var d := TeamCodes.DIVISION_PAIRS;
    var clubs := TeamCodes.TeamDivision().Keys;
    assert d[25].0 == "AZ" && d[5].0 == "CWS" && d[8].0 == "KC" && d[28].0 == "SD";
    assert d[29].0 == "SF" && d[3].0 == "TB" && d[19].0 == "WSH";
    assert d[25].0 in clubs && d[5].0 in clubs && d[8].0 in clubs && d[28].0 in clubs;
    assert d[29].0 in clubs && d[3].0 in clubs && d[19].0 in clubs;
    forall i | 0 <= i < |FG_PAIRS| ensures ValueAt(FG_PAIRS, i) in clubs {
      if i == 0 { assert ValueAt(FG_PAIRS, i) == d[25].0; }
      else if i == 1 { assert ValueAt(FG_PAIRS, i) == d[5].0; }
      else if i == 2 { assert ValueAt(FG_PAIRS, i) == d[8].0; }
      else if i == 3 { assert ValueAt(FG_PAIRS, i) == d[28].0; }
      else if i == 4 { assert ValueAt(FG_PAIRS, i) == d[29].0; }
      else if i == 5 { assert ValueAt(FG_PAIRS, i) == d[3].0; }
      else { assert ValueAt(FG_PAIRS, i) == d[19].0; }
    }
    forall k | k in FgToCanonical() ensures FgToCanonical()[k] in TeamCodes.TeamDivision() {
      MapValueFromRow(FG_PAIRS, k);
      var i :| 0 <= i < |FG_PAIRS| && KeyAt(FG_PAIRS, i) == k && FgToCanonical()[k] == ValueAt(FG_PAIRS, i);
    }
  }

  /** The codes only FanGraphs uses. */
  function FgOnlyCodes(): set<string>
  {
    {"ARI", "CHW", "KCR", "SDP", "SFG", "TBR", "WSN"}
  }

  /** No row of the division table is keyed by a FanGraphs-only code. */
  lemma DivisionKeysOutside()
    ensures forall i :: 0 <= i < |TeamCodes.DIVISION_PAIRS| ==> KeyAt(TeamCodes.DIVISION_PAIRS, i) !in FgOnlyCodes()
  {
    var outside := FgOnlyCodes();
    forall i | 0 <= i < |TeamCodes.DIVISION_PAIRS| ensures KeyAt(TeamCodes.DIVISION_PAIRS, i) !in outside {
      if i == 0 {}
      else if i == 1 {}
      else if i == 2 {}
      else if i == 3 {}
      else if i == 4 {}
      else if i == 5 {}
      else if i == 6 {}
      else if i == 7 {}
      else if i == 8 {}
      else if i == 9 {}
      else if i == 10 {}
      else if i == 11 {}
      else if i == 12 {}
      else if i == 13 {}
      else if i == 14 {}
      else if i == 15 {}
      else if i == 16 {}
      else if i == 17 {}
      else if i == 18 {}
      else if i == 19 {}
      else if i == 20 {}
      else if i == 21 {}
      else if i == 22 {}
      else if i == 23 {}
      else if i == 24 {}
      else if i == 25 {}
      else if i == 26 {}
      else if i == 27 {}
      else if i == 28 {}
      else {}
    }
  }

  /** No FanGraphs-only code is a club code of the division table. */
  lemma FgKeysAreNotClubs()
    ensures forall k :: k in FgToCanonical() ==> k !in TeamCodes.TeamDivision()
  {
    var outside := FgOnlyCodes();
    DivisionKeysOutside();
    KeysOutside(TeamCodes.DIVISION_PAIRS, outside);
    forall k | k in FgToCanonical() ensures k in outside {
      var i :| 0 <= i < |FG_PAIRS| && FG_PAIRS[i].0 == k;
    }
  }

  /** Canonical codes: every club code is kept, every FanGraphs code becomes
    * a club code, and mapping twice is mapping once. */
  lemma CanonicalCodes(code: string)
    ensures code in TeamCodes.TeamDivision() ==> Canonical(code) == code
    ensures code in FgToCanonical() ==> Canonical(code) in TeamCodes.TeamDivision()
    ensures Canonical(code) !in FgToCanonical()
    ensures Canonical(Canonical(code)) == Canonical(code)
  {
    FgKeysAreNotClubs();
    FgValuesAreClubs();
  }

  /** An export row: the club as FanGraphs writes it, the player, the
    * projected WAR cell (`None` when it does not parse as a number) and the
    * transaction note (`None` when the cell is empty). */
  datatype FgRow = FgRow(team: string, name: string, projWar: Option<real>, details: Option<string>)

  /** A row after normalisation: canonical club code and a WAR number. */
  datatype Player = Player(team: string, name: string, war: real, details: Option<string>)

  /** The column transform: canonical club code, and a WAR cell that does not
    * parse counts as 0. */
  function Prepare(r: FgRow): (p: Player)
    ensures p.team !in FgToCanonical()
    ensures r.team in TeamCodes.TeamDivision() || r.team in FgToCanonical() ==> p.team in TeamCodes.TeamDivision()
    ensures r.projWar.None? ==> p.war == 0.0
    ensures p.name == r.name && p.details == r.details
  {
    CanonicalCodes(r.team);
    Player(Canonical(r.team), r.name, r.projWar.GetOr(0.0), r.details)
  }

  function PrepareAll(rows: seq<FgRow>): (ps: seq<Player>)
    ensures |ps| == |rows|
    ensures forall i :: 0 <= i < |rows| ==> ps[i] == Prepare(rows[i])
  {
    seq(|rows|, i requires 0 <= i < |rows| => Prepare(rows[i]))
  }

  /** Preparing twice changes nothing more: the codes are already canonical. */
  lemma PrepareStable(r: FgRow)
    ensures var p := Prepare(r); Prepare(FgRow(p.team, p.name, Some(p.war), p.details)) == p
  {
    CanonicalCodes(r.team);
  }

  // The trade note pattern `Acquired from ([\w\s]+?) (?:for|with)`, searched
  // case-insensitively. The words that may close the group are a parameter:
  // the preseason generator's pattern also accepts ` as` and ` (`.

  /** The literal that opens the pattern, lower-cased. */
  const ACQUIRED: string := "acquired from "

  /** The closing words of this script's pattern. */
  const FOR_WITH: seq<string> := ["for", "with"]

  /** `\w`: a letter, digit or underscore. */
  predicate IsWordChar(c: char)
  {
    ('a' <= c <= 'z') || ('A' <= c <= 'Z') || ('0' <= c <= '9') || c == '_'
  }

  /** The group's character class `[\w\s]`. */
  predicate InClass(c: char)
  {
    IsWordChar(c) || IsSpace(c)
  }

  /** The lower-case literal `lit` occurs at `at`, ignoring case. */
  predicate LiteralAt(s: string, at: int, lit: string)
  {
    0 <= at && at + |lit| <= |s| &&
    forall i :: 0 <= i < |lit| ==> CoreBenchmarks.LowerChar(s[at + i]) == lit[i]
  }

  /** A space followed by one of the closing words starts at `e`: where the
    * group may end. A space is its own lower case. */
  predicate Closes(s: string, e: int, closers: seq<string>)
  {
    0 <= e < |s| && s[e] == ' ' && exists k :: 0 <= k < |closers| && LiteralAt(s, e + 1, closers[k])
  }

  /** The pattern matches at `p` with its group spanning `s[p + 14..e]`. */
  ghost predicate MatchSpan(s: string, p: int, e: int, closers: seq<string>)
  {
    LiteralAt(s, p, ACQUIRED) && p + |ACQUIRED| < e <= |s| &&
    (forall i :: p + |ACQUIRED| <= i < e ==> InClass(s[i])) && Closes(s, e, closers)
  }

  /** The lazy group starting at `b`, tried with end `j`, then `j + 1`, and so
    * on: the first end after class characters only at which the pattern
    * closes. */
  function GroupEnd(s: string, b: nat, j: nat, closers: seq<string>): (r: Option<nat>)
    requires b < j <= |s|
    requires forall i :: b <= i < j - 1 ==> InClass(s[i])
    ensures r.Some? ==> j <= r.value <= |s| && Closes(s, r.value, closers)
    ensures r.Some? ==> forall i :: b <= i < r.value ==> InClass(s[i])
    ensures r.Some? ==> forall e :: j <= e < r.value ==> !Closes(s, e, closers)
    ensures r.None? ==> forall e :: j <= e <= |s| && (forall i :: b <= i < e ==> InClass(s[i])) ==> !Closes(s, e, closers)
    decreases |s| - j
  {
    if !InClass(s[j - 1]) then None
    else if Closes(s, j, closers) then Some(j)
    else if j == |s| then None
    else GroupEnd(s, b, j + 1, closers)
  }

  /** The end of the group of the match at `p`, if the pattern matches there. */
  function MatchAt(s: string, p: nat, closers: seq<string>): (r: Option<nat>)
    requires p <= |s|
    ensures r.Some? ==> MatchSpan(s, p, r.value, closers)
    ensures r.Some? ==> forall e :: e < r.value ==> !MatchSpan(s, p, e, closers)
    ensures r.None? ==> forall e :: !MatchSpan(s, p, e, closers)
  {
    var b := p + |ACQUIRED|;
    if LiteralAt(s, p, ACQUIRED) && b < |s| then GroupEnd(s, b, b + 1, closers) else None
  }

  /** `search` from `p` on: the leftmost start at which the pattern matches,
    * with the shortest group there. */
  function SearchFrom(s: string, p: nat, closers: seq<string>): (r: Option<(nat, nat)>)
    requires p <= |s|
    ensures r.Some? ==> p <= r.value.0 && MatchSpan(s, r.value.0, r.value.1, closers)
    ensures r.Some? ==> forall q, e :: p <= q < r.value.0 ==> !MatchSpan(s, q, e, closers)
    ensures r.Some? ==> forall e :: e < r.value.1 ==> !MatchSpan(s, r.value.0, e, closers)
    ensures r.None? ==> forall q, e :: p <= q ==> !MatchSpan(s, q, e, closers)
    decreases |s| - p
  {
    match MatchAt(s, p, closers)
    case Some(e) => Some((p, e))
    case None => if p == |s| then None else SearchFrom(s, p + 1, closers)
  }

  /** `m.group(1)` of the search, or `None` when the note does not match. */
  function AcquiredFrom(note: string, closers: seq<string>): (g: Option<string>)
    ensures g.Some? ==> |g.value| > 0
  {
    match SearchFrom(note, 0, closers)
    case None => None
    case Some((p, e)) => Some(note[p + |ACQUIRED|..e])
  }

  /** The group is that of a match, and there is none when the note has no
    * match anywhere. */
  lemma AcquiredFromMatches(note: string, closers: seq<string>)
    ensures AcquiredFrom(note, closers).Some? ==>
      exists p, e :: MatchSpan(note, p, e, closers) && AcquiredFrom(note, closers).value == note[p + |ACQUIRED|..e]
    ensures AcquiredFrom(note, closers).None? ==> forall p, e :: !MatchSpan(note, p, e, closers)
  {
  }

  /** The first match starting at the very front, given that the group may
    * not close earlier, is the one the search finds. */
  lemma AcquiredFromFront(note: string, e: int, closers: seq<string>)
    requires MatchSpan(note, 0, e, closers)
    requires forall k :: |ACQUIRED| < k < e ==> !Closes(note, k, closers)
    ensures AcquiredFrom(note, closers) == Some(note[|ACQUIRED|..e])
  {
    var r := SearchFrom(note, 0, closers);
    assert r.Some? && r.value.0 == 0;
    assert r.value.1 == e;
  }

  /** The trade note of the example the loader's documentation gives. */
  const EXAMPLE_NOTE: string := "Acquired from Orioles for OF Taylor Ward"

  lemma ExampleOpens() ensures LiteralAt(EXAMPLE_NOTE, 0, ACQUIRED) {}
  lemma ExampleCloses() ensures Closes(EXAMPLE_NOTE, 21, FOR_WITH) {
    assert LiteralAt(EXAMPLE_NOTE, 22, FOR_WITH[0]);
  }
  lemma ExampleClass() ensures forall i :: 14 <= i < 21 ==> InClass(EXAMPLE_NOTE[i]) {}
  lemma ExampleGroup() ensures EXAMPLE_NOTE[14..21] == "Orioles" {
    var a, b, c := "Acquired from ", "Orioles", " for OF Taylor Ward";
    assert EXAMPLE_NOTE == a + b + c;
    assert (a + b + c)[|a|..|a| + |b|] == b;
  }
  lemma ExampleNoEarlierClose() ensures forall k :: 14 < k < 21 ==> EXAMPLE_NOTE[k] != ' ' {}

  /** The example's note names the Orioles. */
  lemma AcquiredFromExample()
    ensures AcquiredFrom(EXAMPLE_NOTE, FOR_WITH) == Some("Orioles")
  {
    ExampleOpens();
    ExampleCloses();
    ExampleClass();
    ExampleNoEarlierClose();
    assert MatchSpan(EXAMPLE_NOTE, 0, 21, FOR_WITH);
    AcquiredFromFront(EXAMPLE_NOTE, 21, FOR_WITH);
    ExampleGroup();
  }

  // Club nicknames in trade notes.

  /** Nicknames as trade notes write them, and their club codes. */
  const NICKNAME_PAIRS: seq<(string, string)> :=
    [("Angels", "LAA"), ("Astros", "HOU"), ("Athletics", "ATH"), ("Blue Jays", "TOR"), ("Braves", "ATL")] +
    [("Brewers", "MIL"), ("Cardinals", "STL"), ("Cubs", "CHC"), ("Diamondbacks", "AZ"), ("Dodgers", "LAD")] +
    [("Giants", "SF"), ("Guardians", "CLE"), ("Mariners", "SEA"), ("Marlins", "MIA"), ("Mets", "NYM")] +
    [("Nationals", "WSH"), ("Orioles", "BAL"), ("Padres", "SD"), ("Phillies", "PHI"), ("Pirates", "PIT")] +
    [("Rangers", "TEX"), ("Rays", "TB"), ("Red Sox", "BOS"), ("Reds", "CIN"), ("Rockies", "COL")] +
    [("Royals", "KC"), ("Tigers", "DET"), ("Twins", "MIN"), ("White Sox", "CWS"), ("Yankees", "NYY")]

  function NicknameTeam(): map<string, string> { PairsToMap(NICKNAME_PAIRS) }

  /** Where each nickname row's club sits in the league table, and back. */
  ghost const NICK_ORDER: seq<int> :=
    [11, 10, 12, 4, 15, 22, 24, 20, 25, 27, 29, 6, 13, 16, 17, 19, 0, 28, 18, 23, 14, 3, 1, 21, 26, 8, 7, 9, 5, 2]
  ghost const NICK_INVERSE: seq<int> :=
    [16, 22, 29, 21, 3, 28, 11, 26, 25, 27, 1, 0, 2, 12, 20, 4, 13, 14, 18, 15, 7, 23, 5, 19, 6, 8, 24, 9, 17, 10]

  lemma NickRowsFirst()
    ensures RowsFollow(NICKNAME_PAIRS, TeamCodes.LEAGUE_PAIRS, NICK_ORDER, 0, 15)
  {
    forall i | 0 <= i < 15
      ensures 0 <= NICK_ORDER[i] < |TeamCodes.LEAGUE_PAIRS| && ValueAt(NICKNAME_PAIRS, i) == KeyAt(TeamCodes.LEAGUE_PAIRS, NICK_ORDER[i])
    {
      // one case per row, so that each row is checked on its own
      if i == 0 {} else if i == 1 {} else if i == 2 {} else if i == 3 {} else if i == 4 {} else if i == 5 {} else if i == 6 {} else if i == 7 {} else if i == 8 {} else if i == 9 {} else if i == 10 {} else if i == 11 {} else if i == 12 {} else if i == 13 {} else {}
    }
  }

  lemma NickRowsSecond()
    ensures RowsFollow(NICKNAME_PAIRS, TeamCodes.LEAGUE_PAIRS, NICK_ORDER, 15, 30)
  {
    forall i | 15 <= i < 30
      ensures 0 <= NICK_ORDER[i] < |TeamCodes.LEAGUE_PAIRS| && ValueAt(NICKNAME_PAIRS, i) == KeyAt(TeamCodes.LEAGUE_PAIRS, NICK_ORDER[i])
    {
      // one case per row, so that each row is checked on its own
      if i == 15 {} else if i == 16 {} else if i == 17 {} else if i == 18 {} else if i == 19 {} else if i == 20 {} else if i == 21 {} else if i == 22 {} else if i == 23 {} else if i == 24 {} else if i == 25 {} else if i == 26 {} else if i == 27 {} else if i == 28 {} else {}
    }
  }

  lemma NickOrderInverse()
    ensures |NICKNAME_PAIRS| == |NICK_ORDER| == |NICK_INVERSE| == 30
    ensures forall i :: 0 <= i < 30 ==> 0 <= NICK_ORDER[i] < 30 && NICK_INVERSE[NICK_ORDER[i]] == i
  {
    forall i | 0 <= i < 30 ensures 0 <= NICK_ORDER[i] < 30 && NICK_INVERSE[NICK_ORDER[i]] == i {
      // one case per row, so that each row is checked on its own
      if i == 0 {} else if i == 1 {} else if i == 2 {} else if i == 3 {} else if i == 4 {} else if i == 5 {} else if i == 6 {} else if i == 7 {} else if i == 8 {} else if i == 9 {} else if i == 10 {} else if i == 11 {} else if i == 12 {} else if i == 13 {} else if i == 14 {} else if i == 15 {} else if i == 16 {} else if i == 17 {} else if i == 18 {} else if i == 19 {} else if i == 20 {} else if i == 21 {} else if i == 22 {} else if i == 23 {} else if i == 24 {} else if i == 25 {} else if i == 26 {} else if i == 27 {} else if i == 28 {} else {}
    }
  }

  lemma NickKeys0x0() ensures KeyBlocks(NICKNAME_PAIRS, 0, 0) {}
  lemma NickKeys0x5() ensures KeyBlocks(NICKNAME_PAIRS, 0, 5) {}
  lemma NickKeys0x10() ensures KeyBlocks(NICKNAME_PAIRS, 0, 10) {}
  lemma NickKeys0x15() ensures KeyBlocks(NICKNAME_PAIRS, 0, 15) {}
  lemma NickKeys0x20() ensures KeyBlocks(NICKNAME_PAIRS, 0, 20) {}
  lemma NickKeys0x25() ensures KeyBlocks(NICKNAME_PAIRS, 0, 25) {}
  lemma NickKeys5x5() ensures KeyBlocks(NICKNAME_PAIRS, 5, 5) {}
  lemma NickKeys5x10() ensures KeyBlocks(NICKNAME_PAIRS, 5, 10) {}
  lemma NickKeys5x15() ensures KeyBlocks(NICKNAME_PAIRS, 5, 15) {}
  lemma NickKeys5x20() ensures KeyBlocks(NICKNAME_PAIRS, 5, 20) {}
  lemma NickKeys5x25() ensures KeyBlocks(NICKNAME_PAIRS, 5, 25) {}
  lemma NickKeys10x10() ensures KeyBlocks(NICKNAME_PAIRS, 10, 10) {}
  lemma NickKeys10x15() ensures KeyBlocks(NICKNAME_PAIRS, 10, 15) {}
  lemma NickKeys10x20() ensures KeyBlocks(NICKNAME_PAIRS, 10, 20) {}
  lemma NickKeys10x25() ensures KeyBlocks(NICKNAME_PAIRS, 10, 25) {}
  lemma NickKeys15x15() ensures KeyBlocks(NICKNAME_PAIRS, 15, 15) {}
  lemma NickKeys15x20() ensures KeyBlocks(NICKNAME_PAIRS, 15, 20) {}
  lemma NickKeys15x25() ensures KeyBlocks(NICKNAME_PAIRS, 15, 25) {}
  lemma NickKeys20x20() ensures KeyBlocks(NICKNAME_PAIRS, 20, 20) {}
  lemma NickKeys20x25() ensures KeyBlocks(NICKNAME_PAIRS, 20, 25) {}
  lemma NickKeys25x25() ensures KeyBlocks(NICKNAME_PAIRS, 25, 25) {}

  lemma NickKeysDistinct()
    ensures |NICKNAME_PAIRS| == 30 && DistinctKeys(NICKNAME_PAIRS)
  {
    NickKeys0x0();
    NickKeys0x5();
    NickKeys0x10();
    NickKeys0x15();
    NickKeys0x20();
    NickKeys0x25();
    NickKeys5x5();
    NickKeys5x10();
    NickKeys5x15();
    NickKeys5x20();
    NickKeys5x25();
    NickKeys10x10();
    NickKeys10x15();
    NickKeys10x20();
    NickKeys10x25();
    NickKeys15x15();
    NickKeys15x20();
    NickKeys15x25();
    NickKeys20x20();
    NickKeys20x25();
    NickKeys25x25();
    KeyBlocksDistinct(NICKNAME_PAIRS);
  }

  /** The nickname table names each of the 30 clubs exactly once. */
  lemma NicknamesNameEveryClub()
    ensures NicknameTeam().Values == TeamCodes.TeamDivision().Keys && |NicknameTeam()| == 30
    ensures forall a, b :: a in NicknameTeam() && b in NicknameTeam() && a != b ==> NicknameTeam()[a] != NicknameTeam()[b]
  {
    NickRowsFirst();
    NickRowsSecond();
    FollowJoin(NICKNAME_PAIRS, TeamCodes.LEAGUE_PAIRS, NICK_ORDER, 0, 15, 30);
    NickOrderInverse();
    NickKeysDistinct();
    TeamCodes.LeagueKeysDistinct();
    ReorderedBijective(NICKNAME_PAIRS, TeamCodes.LEAGUE_PAIRS, NICK_ORDER, NICK_INVERSE);
    TeamCodes.LeagueDivisionSameKeys();
  }

  // Trade departures.

  /** The losing club's row for a traded player: the club the note names
    * after "Acquired from", looked up in `nicknames`, the same player and
    * WAR, and a note naming the acquiring club. `None` when the note is
    * missing, does not match, or names an unknown nickname. */
  function Departure(nicknames: map<string, string>, add: Player, closers: seq<string>): (d: Option<Player>)
    ensures d.Some? ==> d.value.name == add.name && d.value.war == add.war
    ensures d.Some? ==> d.value.details == Some("Traded to " + add.team)
    ensures d.Some? ==> d.value.team in nicknames.Values
    ensures add.details.None? ==> d.None?
  {
    if add.details.None? then None
    else
      match AcquiredFrom(add.details.value, closers)
      case None => None
      case Some(group) =>
        var nickname := Strip(group);
        if nickname in nicknames then
          Some(Player(nicknames[nickname], add.name, add.war, Some("Traded to " + add.team)))
        else None
  }

  /** With the pipeline's nickname table a departure is charged to one of the
    * 30 clubs, never to an unknown code; a note the pattern does not match,
    * or a nickname outside the table, yields none. */
  lemma DepartureFacts(add: Player, closers: seq<string>)
    ensures Departure(NicknameTeam(), add, closers).Some? ==> Departure(NicknameTeam(), add, closers).value.team in TeamCodes.TeamDivision()
    ensures add.details.Some? && (forall p, e :: !MatchSpan(add.details.value, p, e, closers)) ==> Departure(NicknameTeam(), add, closers).None?
    ensures (add.details.Some? && AcquiredFrom(add.details.value, closers).Some? &&
      Strip(AcquiredFrom(add.details.value, closers).value) !in NicknameTeam()) ==> Departure(NicknameTeam(), add, closers).None?
  {
    NicknamesNameEveryClub();
    if add.details.Some? {
      AcquiredFromMatches(add.details.value, closers);
    }
  }

  lemma OriolesNickname()
    ensures "Orioles" in NicknameTeam() && NicknameTeam()["Orioles"] == "BAL"
  {
    NickKeysDistinct();
    PairsToMapLookup(NICKNAME_PAIRS, 16);
  }

  lemma TradedToLAA() ensures "Traded to " + "LAA" == "Traded to LAA" {}

  /** The example the extraction's documentation gives: the Angels acquired
    * Grayson Rodriguez from the Orioles, so Baltimore loses that 2.1 WAR. */
  lemma DepartureExample()
    ensures Departure(NicknameTeam(), Player("LAA", "Grayson Rodriguez", 2.1, Some(EXAMPLE_NOTE)), FOR_WITH) ==
      Some(Player("BAL", "Grayson Rodriguez", 2.1, Some("Traded to LAA")))
  {
    AcquiredFromExample();
    StripKeeps("Orioles");
    OriolesNickname();
    TradedToLAA();
  }

  /** The departures of a list of additions, in order. */
  function TradeDepartures(nicknames: map<string, string>, adds: seq<Player>, closers: seq<string>): (ds: seq<Player>)
    ensures |ds| <= |adds|
  {
    FilterMap((a: Player) => Departure(nicknames, a, closers), adds)
  }

  /** Every departure comes from an addition, and every addition that has one
    * contributes it. */
  lemma DeparturesFromAdditions(nicknames: map<string, string>, adds: seq<Player>, d: Player, closers: seq<string>)
    ensures d in TradeDepartures(nicknames, adds, closers) <==> exists i :: 0 <= i < |adds| && Departure(nicknames, adds[i], closers) == Some(d)
  {
    FilterMapMembers((a: Player) => Departure(nicknames, a, closers), adds, d);
  }

  /** The extraction loop over the additions. */
  method ExtractTradeDepartures(nicknames: map<string, string>, adds: seq<Player>, closers: seq<string>) returns (ds: seq<Player>)
    ensures ds == TradeDepartures(nicknames, adds, closers)
  {
    ds := [];
    var i := 0;
    while i < |adds|
      invariant 0 <= i <= |adds|
      invariant ds == FilterMap((a: Player) => Departure(nicknames, a, closers), adds[..i])
    {
      FilterMapStep((a: Player) => Departure(nicknames, a, closers), adds, i);
      var d := Departure(nicknames, adds[i], closers);
      if d.Some? {
        ds := ds + [d.value];
      }
      i := i + 1;
    }
    assert adds[..i] == adds;
  }

  // The per-club summary.

  /** One summary row: the club, its division, how many rows added and
    * subtracted it, and the gained, lost and net projected WAR. */
  datatype NetRow = NetRow(team: string, division: string, additions: nat, subtractions: nat,
                           gained: real, lost: real, net: real)

  /** The projected WAR of the rows of `team`: the group sum, 0 for a club
    * without rows. */
  function TeamWar(rows: seq<Player>, team: string): real
  {
    Sums.SumOf(rows, (p: Player) => if p.team == team then p.war else 0.0)
  }

  /** How many rows name `team`. */
  function TeamRows(rows: seq<Player>, team: string): (n: nat)
    ensures n <= |rows|
  {
    if |rows| == 0 then 0
    else TeamRows(rows[..|rows| - 1], team) + (if rows[|rows| - 1].team == team then 1 else 0)
  }

  type Tables = TeamCodes.Tables

  /** The row of one club: gained and lost rounded to one decimal, and their
    * difference rounded again. */
  function Record(tab: Tables, adds: seq<Player>, subs: seq<Player>, team: string): NetRow
    requires team in tab.division
  {
    var gained := Round(TeamWar(adds, team), 1);
    var lost := Round(TeamWar(subs, team), 1);
    NetRow(team, tab.division[team], TeamRows(adds, team), TeamRows(subs, team), gained, lost, Round(gained - lost, 1))
  }

  /** The rows of `teams`, in that order. */
  function Records(tab: Tables, adds: seq<Player>, subs: seq<Player>, teams: seq<string>): (rs: seq<NetRow>)
    requires forall t :: t in teams ==> t in tab.division
    ensures |rs| == |teams|
    ensures forall k :: 0 <= k < |teams| ==> rs[k] == Record(tab, adds, subs, teams[k])
  {
    seq(|teams|, k requires 0 <= k < |teams| => Record(tab, adds, subs, teams[k]))
  }

  /** Records of a prefix of the clubs, one more club at a time. */
  lemma RecordsStep(tab: Tables, adds: seq<Player>, subs: seq<Player>, teams: seq<string>, i: nat)
    requires forall t :: t in teams ==> t in tab.division
    requires i < |teams|
    ensures forall t :: t in teams[..i + 1] ==> t in tab.division
    ensures forall t :: t in teams[..i] ==> t in tab.division
    ensures Records(tab, adds, subs, teams[..i + 1]) == Records(tab, adds, subs, teams[..i]) + [Record(tab, adds, subs, teams[i])]
  {
    assert forall t :: t in teams[..i + 1] ==> t in teams;
    assert forall t :: t in teams[..i] ==> t in teams;
  }

  /** Ascending order keeps the same clubs. */
  lemma SortedTeams(order: seq<string>)
    ensures forall t :: t in Sorting.SortStrings(order) <==> t in order
  {
    var teams := Sorting.SortStrings(order);
    forall t ensures t in teams <==> t in order {
      assert t in teams <==> t in multiset(teams);
      assert t in order <==> t in multiset(order);
    }
  }

  function ByNet(): (le: (NetRow, NetRow) -> bool)
  {
    Sorting.ByKeyDesc((r: NetRow) => r.net)
  }

  /** The summary: one row per club of the division table, visited in
    * ascending code order, then ordered by net WAR, largest first. `order`
    * lists the table's clubs. */
  function NetFwar(tab: Tables, order: seq<string>, adds: seq<Player>, subs: seq<Player>): seq<NetRow>
    requires forall t :: t in order ==> t in tab.division
  {
    SortedTeams(order);
    Sorting.Sort(Records(tab, adds, subs, Sorting.SortStrings(order)), ByNet())
  }

  /** The summary loop: one record per club in ascending code order, then
    * the sort by net WAR. */
  method ComputeNetFwar(tab: Tables, order: seq<string>, adds: seq<Player>, subs: seq<Player>) returns (summary: seq<NetRow>)
    requires forall t :: t in order ==> t in tab.division
    ensures summary == NetFwar(tab, order, adds, subs)
  {
    var teams := Sorting.SortStrings(order);
    SortedTeams(order);
    var records: seq<NetRow> := [];
    var i := 0;
    while i < |teams|
      invariant 0 <= i <= |teams|
      invariant forall t :: t in teams[..i] ==> t in tab.division
      invariant records == Records(tab, adds, subs, teams[..i])
    {
      RecordsStep(tab, adds, subs, teams, i);
      records := records + [Record(tab, adds, subs, teams[i])];
      i := i + 1;
    }
    assert teams[..i] == teams;
    summary := Sorting.Sort(records, ByNet());
  }

  /** A club's row: its division and row counts, and totals within rounding
    * distance of the raw sums (the net figure is rounded three times). */
  lemma RecordNear(tab: Tables, adds: seq<Player>, subs: seq<Player>, team: string)
    requires team in tab.division
    ensures var r := Record(tab, adds, subs, team);
      r.team == team && r.division == tab.division[team] &&
      r.additions == TeamRows(adds, team) && r.subtractions == TeamRows(subs, team) &&
      -0.05 <= r.gained - TeamWar(adds, team) <= 0.05 &&
      -0.05 <= r.lost - TeamWar(subs, team) <= 0.05 &&
      -0.15 <= r.net - (TeamWar(adds, team) - TeamWar(subs, team)) <= 0.15
  {
    var g := Round(TeamWar(adds, team), 1);
    var l := Round(TeamWar(subs, team), 1);
    RoundError(TeamWar(adds, team), 1);
    RoundError(TeamWar(subs, team), 1);
    RoundError(g - l, 1);
  }

  /** The summary holds one row per listed club, each that club's record,
    * ordered by net WAR with the largest first. */
  lemma NetFwarOrdered(tab: Tables, order: seq<string>, adds: seq<Player>, subs: seq<Player>)
    requires forall t :: t in order ==> t in tab.division
    ensures var s := NetFwar(tab, order, adds, subs);
      |s| == |order| &&
      (forall i, j :: 0 <= i < j < |s| ==> s[i].net >= s[j].net) &&
      (forall k :: 0 <= k < |s| ==> s[k].team in order && s[k] == Record(tab, adds, subs, s[k].team)) &&
      (forall t :: t in order ==> exists k :: 0 <= k < |s| && s[k].team == t)
  {
    var teams := Sorting.SortStrings(order);
    SortedTeams(order);
    var rs := Records(tab, adds, subs, teams);
    var s := NetFwar(tab, order, adds, subs);
    assert s == Sorting.Sort(rs, ByNet());
    Sorting.ByKeyDescPreorder((r: NetRow) => r.net);
    Sorting.SortSorted(rs, ByNet());
    forall k | 0 <= k < |s| ensures s[k].team in order && s[k] == Record(tab, adds, subs, s[k].team) {
      assert s[k] in multiset(rs);
      var j :| 0 <= j < |rs| && rs[j] == s[k];
    }
    forall t | t in order ensures exists k :: 0 <= k < |s| && s[k].team == t {
      assert t in multiset(teams);
      var j :| 0 <= j < |teams| && teams[j] == t;
      assert rs[j] in multiset(s);
      var k :| 0 <= k < |s| && s[k] == rs[j];
    }
  }

  /** With the pipeline's division table: 30 rows, and a row for a code
    * exactly when it is one of the 30 clubs. */
  lemma EveryClubListed(adds: seq<Player>, subs: seq<Player>)
    ensures forall t :: t in TeamCodes.TableOrder() ==> t in TeamCodes.MlbTables().division
    ensures var s := NetFwar(TeamCodes.MlbTables(), TeamCodes.TableOrder(), adds, subs);
      |s| == 30 &&
      (forall t :: t in TeamCodes.TeamDivision() <==> exists k :: 0 <= k < |s| && s[k].team == t)
  {
    var order := TeamCodes.TableOrder();
    NetFwarOrdered(TeamCodes.MlbTables(), order, adds, subs);
  }

  /** A row whose code is neither a club's nor mapped to one. */
  lemma OtherClubUnchanged(rows: seq<Player>, p: Player, team: string)
    requires p.team != team
    ensures TeamWar(rows + [p], team) == TeamWar(rows, team)
    ensures TeamRows(rows + [p], team) == TeamRows(rows, team)
  {
    assert (rows + [p])[..|rows|] == rows;
  }

  /** Records that agree club by club agree as lists. */
  lemma SameRecords(tab: Tables, adds: seq<Player>, subs: seq<Player>, adds': seq<Player>, subs': seq<Player>, teams: seq<string>)
    requires forall t :: t in teams ==> t in tab.division
    requires forall t :: t in teams ==> Record(tab, adds', subs', t) == Record(tab, adds, subs, t)
    ensures Records(tab, adds', subs', teams) == Records(tab, adds, subs, teams)
  {
  }

  /** A row whose code is not a listed club changes no club's record. */
  lemma RecordsIgnore(tab: Tables, adds: seq<Player>, subs: seq<Player>, p: Player, t: string)
    requires t in tab.division && p.team !in tab.division
    ensures Record(tab, adds + [p], subs, t) == Record(tab, adds, subs, t)
    ensures Record(tab, adds, subs + [p], t) == Record(tab, adds, subs, t)
  {
    OtherClubUnchanged(adds, p, t);
    OtherClubUnchanged(subs, p, t);
  }

  /** An addition whose code is not a listed club changes no row of the
    * summary: unknown codes are reported, never counted. */
  lemma UnlistedAdditionIgnored(tab: Tables, order: seq<string>, adds: seq<Player>, subs: seq<Player>, p: Player)
    requires forall t :: t in order ==> t in tab.division
    requires p.team !in tab.division
    ensures NetFwar(tab, order, adds + [p], subs) == NetFwar(tab, order, adds, subs)
  {
    var teams := Sorting.SortStrings(order);
    SortedTeams(order);
    forall t | t in teams ensures Record(tab, adds + [p], subs, t) == Record(tab, adds, subs, t) {
      RecordsIgnore(tab, adds, subs, p, t);
    }
    SameRecords(tab, adds, subs, adds + [p], subs, teams);
  }

  /** The same for a subtraction. */
  lemma UnlistedSubtractionIgnored(tab: Tables, order: seq<string>, adds: seq<Player>, subs: seq<Player>, p: Player)
    requires forall t :: t in order ==> t in tab.division
    requires p.team !in tab.division
    ensures NetFwar(tab, order, adds, subs + [p]) == NetFwar(tab, order, adds, subs)
  {
    var teams := Sorting.SortStrings(order);
    SortedTeams(order);
    forall t | t in teams ensures Record(tab, adds, subs + [p], t) == Record(tab, adds, subs, t) {
      RecordsIgnore(tab, adds, subs, p, t);
    }
    SameRecords(tab, adds, subs, adds, subs + [p], teams);
  }

  /** The WAR the departures take from the selling clubs is the WAR of the
    * additions that were trades. */
  lemma {:induction false} DeparturesCarryTradedWar(nicknames: map<string, string>, adds: seq<Player>, closers: seq<string>)
    ensures Sums.SumOf(TradeDepartures(nicknames, adds, closers), (p: Player) => p.war) ==
      Sums.SumOf(adds, (a: Player) => if Departure(nicknames, a, closers).Some? then a.war else 0.0)
  {
    if |adds| > 0 {
      var init := adds[..|adds| - 1];
      DeparturesCarryTradedWar(nicknames, init, closers);
      var d := Departure(nicknames, adds[|adds| - 1], closers);
      if d.Some? {
        Sums.SumOfAppend(TradeDepartures(nicknames, init, closers), [d.value], (p: Player) => p.war);
      }
    }
  }
}
