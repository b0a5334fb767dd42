/** The Retrosheet bootstrap: per-game batting and pitching lines of one
  * club, read from the daily output of the event-file tool, then season
  * totals per player with the shared rate helpers, the roster-name map and
  * the player id map. Downloads, the external tool, the files it reads and
  * writes and the upload are inputs and outputs outside the model. */
module BootstrapRetrosheet {
  import opened Wrappers
  import opened Sums
  import Decimal
  import Sorting
  import Stats
  import Text

  // Year range.

  /** `s.split(c, 1)` when `c` occurs: the text before its first occurrence
    * and the text after it. */
  function SplitOnce(s: string, c: char): (r: (string, string))
    requires c in s
    ensures s == r.0 + [c] + r.1 && c !in r.0
  {
    if s[0] == c then ("", s[1..])
    else
      var rest := SplitOnce(s[1..], c);
      assert s == [s[0]] + s[1..];
      ([s[0]] + rest.0, rest.1)
  }

  /** `list(range(a, b + 1))`. */
  function Range(a: int, b: int): (r: seq<int>)
    ensures |r| == if a <= b then b - a + 1 else 0
    ensures forall i :: 0 <= i < |r| ==> r[i] == a + i
    decreases b - a
  {
    if a > b then [] else [a] + Range(a + 1, b)
  }

  /** `parse_year_range`: 'a-b' is every year from a to b, a single year is
    * itself; text `int` cannot read is an error. */
  function ParseYearRange(s: string): Result<seq<int>>
  {
    if '-' in s then
      var (start, end) := SplitOnce(s, '-');
      var a := Decimal.Read(start);
      var b := Decimal.Read(end);
      if a.Some? && b.Some? then Ok(Range(a.value, b.value)) else Err("invalid literal for int()")
    else
      var y := Decimal.Read(s);
      if y.Some? then Ok([y.value]) else Err("invalid literal for int()")
  }

  /** 'a-b' for a non-negative start year gives a through b, inclusive, and
    * nothing when b comes before a. */
  lemma ParseYearRangeSpan(a: nat, b: int)
    ensures ParseYearRange(Decimal.Show(a) + "-" + Decimal.Show(b)) == Ok(Range(a, b))
  {
    var s := Decimal.Show(a) + "-" + Decimal.Show(b);
    assert '-' !in Decimal.Show(a) by {
      assert Decimal.Show(a) == Decimal.NatDigits(a);
    }
    assert s == Decimal.Show(a) + ['-'] + Decimal.Show(b);
    assert s[|Decimal.Show(a)|] == '-';
    var (start, end) := SplitOnce(s, '-');
    SplitOnceUnique(s, '-', Decimal.Show(a), Decimal.Show(b));
    Decimal.ReadShow(a);
    Decimal.ReadShow(b);
  }

  lemma {:induction false} SplitOnceUnique(s: string, c: char, x: string, y: string)
    requires s == x + [c] + y && c !in x
    ensures c in s && SplitOnce(s, c) == (x, y)
    decreases |x|
  {
    assert s[|x|] == c;
    if |x| > 0 {
      assert s[0] == x[0] && s[1..] == x[1..] + [c] + y;
      SplitOnceUnique(s[1..], c, x[1..], y);
      assert [x[0]] + x[1..] == x;
    }
  }

  /** A single year reads back as itself when it is not negative; a minus
    * sign is taken for a range separator, so a negative year is an error. */
  lemma ParseSingleYear(y: int)
    ensures y >= 0 ==> ParseYearRange(Decimal.Show(y)) == Ok([y])
    ensures y < 0 ==> ParseYearRange(Decimal.Show(y)).Err?
  {
    Decimal.ReadShow(y);
    var s := Decimal.Show(y);
    if y >= 0 {
      assert s == Decimal.NatDigits(y);
      assert '-' !in s;
    } else {
      assert s[0] == '-';
      SplitOnceUnique(s, '-', "", s[1..]);
    }
  }

  // The tool's daily rows and the per-game lines.

  /** One player-game row of the tool's output, with the columns used. */
  datatype DailyRow = DailyRow(
    gameId: string, team: string, playerId: string,
    bG: int, bPa: int, bAb: int, bR: int, bH: int, b2b: int, b3b: int, bHr: int, bRbi: int,
    bBb: int, bSo: int, bHp: int, bSf: int, bSb: int, bCs: int,
    pGs: int, pW: int, pL: int, pSv: int, pOut: int, pTbf: int, pR: int, pEr: int, pH: int,
    pHr: int, pBb: int, pSo: int, pHp: int)

  /** Eight ASCII digits. */
  predicate EightDigits(s: string)
  {
    |s| == 8 && forall i :: 0 <= i < 8 ==> Decimal.IsDigit(s[i])
  }

  predicate LeapYear(y: int)
  {
    y % 4 == 0 && (y % 100 != 0 || y % 400 == 0)
  }

  /** Days in a month of the Gregorian calendar. */
  function DaysIn(y: int, m: int): int
    requires 1 <= m <= 12
  {
    if m == 2 then (if LeapYear(y) then 29 else 28)
    else if m == 4 || m == 6 || m == 9 || m == 11 then 30
    else 31
  }

  /** A calendar day that a nanosecond timestamp can hold: from 1677-09-22
    * to 2262-04-11. */
  predicate TimestampDay(y: int, m: int, d: int)
  {
    1 <= m <= 12 && 1 <= d <= DaysIn(y, m) &&
    (y > 1677 || (y == 1677 && (m > 9 || (m == 9 && d >= 22)))) &&
    (y < 2262 || (y == 2262 && (m < 4 || (m == 4 && d <= 11))))
  }

  /** Eight digits read as year, month and day. */
  predicate ValidYmd(s: string)
  {
    EightDigits(s) &&
    TimestampDay(Decimal.DigitsValue(s[..4]), Decimal.DigitsValue(s[4..6]), Decimal.DigitsValue(s[6..]))
  }

  /** `pd.to_datetime(s, format="%Y%m%d", errors="coerce")` on one cell,
    * written back with `strftime("%Y-%m-%d")`: a day that is not a
    * calendar date, or that a timestamp cannot hold, is NaT, which stays
    * missing. */
  function ParseYmd(s: string): (d: Option<string>)
    ensures d.Some? <==> ValidYmd(s)
    ensures d.Some? ==> (|d.value| == 10 && d.value[4] == '-' && d.value[7] == '-' &&
                         d.value[..4] + d.value[5..7] + d.value[8..] == s)
  {
    if ValidYmd(s) then
      var d := s[..4] + "-" + s[4..6] + "-" + s[6..];
      assert d[..4] == s[..4] && d[5..7] == s[4..6] && d[8..] == s[6..];
      assert s == s[..4] + s[4..6] + s[6..];
      Some(d)
    else None
  }

  /** The game date as written: `(\d{8})$` takes the last eight characters
    * of the game id when they are digits, and `ParseYmd` reads them. */
  function GameDate(gameId: string): (d: Option<string>)
    ensures d.Some? <==> |gameId| >= 8 && ValidYmd(gameId[|gameId| - 8..])
    ensures d.Some? ==> |d.value| == 10 && d.value[..4] + d.value[5..7] + d.value[8..] == gameId[|gameId| - 8..]
  {
    if |gameId| < 8 then None else ParseYmd(gameId[|gameId| - 8..])
  }

  /** The value of four digits. */
  lemma FourDigits(s: string)
    requires |s| == 4 && forall i :: 0 <= i < 4 ==> Decimal.IsDigit(s[i])
    ensures Decimal.DigitsValue(s) ==
      1000 * Decimal.DigitValue(s[0]) + 100 * Decimal.DigitValue(s[1]) + 10 * Decimal.DigitValue(s[2]) + Decimal.DigitValue(s[3])
  {
    assert s[..3][..2] == s[..2] && s[..3][2] == s[2];
    assert s[..2][..1] == s[..1] && s[..2][1] == s[1];
    assert s[..1][..0] == [] && s[..1][0] == s[0];
    assert Decimal.DigitsValue(s[..1]) == Decimal.DigitValue(s[0]);
    assert Decimal.DigitsValue(s[..2]) == 10 * Decimal.DigitValue(s[0]) + Decimal.DigitValue(s[1]);
    assert Decimal.DigitsValue(s[..3]) == 100 * Decimal.DigitValue(s[0]) + 10 * Decimal.DigitValue(s[1]) + Decimal.DigitValue(s[2]);
  }

  /** The value of two digits. */
  lemma TwoDigits(s: string)
    requires |s| == 2 && Decimal.IsDigit(s[0]) && Decimal.IsDigit(s[1])
    ensures Decimal.DigitsValue(s) == 10 * Decimal.DigitValue(s[0]) + Decimal.DigitValue(s[1])
  {
    assert s[..1][..0] == [] && s[..1][0] == s[0];
    assert Decimal.DigitsValue(s[..1]) == Decimal.DigitValue(s[0]);
  }

  /** A Retrosheet game id is a club code, the date as YYYYMMDD and a game
    * number: twelve characters. Its last eight characters start with the
    * year's last three digits, so for every id of a year from 1800 to 2099
    * (hundreds digit 8, 9 or 0) they read as a year outside 1677..2262 and
    * the written date is always missing. */
  lemma GameDateNeverSet(gameId: string)
    requires |gameId| == 12 && gameId[4] in {'0', '8', '9'}
    ensures GameDate(gameId).None?
  {
    var tail := gameId[4..];
    assert gameId[|gameId| - 8..] == tail;
    if EightDigits(tail) {
      FourDigits(tail[..4]);
      assert tail[..4][0] == gameId[4];
    }
  }

  /** Baltimore's 2024 opener: the written date is missing. */
  lemma OpenerDateAsWritten()
    ensures GameDate("BAL202404010").None?
  {
    GameDateNeverSet("BAL202404010");
  }

  /** The date as evidently intended: the eight digits before the game
    * number, `(\d{8})\d$`. */
  function IntendedGameDate(gameId: string): (d: Option<string>)
    ensures d.Some? <==> (|gameId| >= 9 && Decimal.IsDigit(gameId[|gameId| - 1]) &&
                          ValidYmd(gameId[|gameId| - 9..|gameId| - 1]))
    ensures d.Some? ==> |d.value| == 10 && d.value[..4] + d.value[5..7] + d.value[8..] == gameId[|gameId| - 9..|gameId| - 1]
  {
    if |gameId| < 9 || !Decimal.IsDigit(gameId[|gameId| - 1]) then None
    else ParseYmd(gameId[|gameId| - 9..|gameId| - 1])
  }

  /** For a club code, a valid YYYYMMDD and a game number, the intended
    * date is that day. */
  lemma IntendedGameDateReads(club: string, ymd: string, n: char)
    requires |club| == 3 && ValidYmd(ymd) && Decimal.IsDigit(n)
    ensures IntendedGameDate(club + ymd + [n]) == Some(ymd[..4] + "-" + ymd[4..6] + "-" + ymd[6..])
  {
    var id := club + ymd + [n];
    assert id[|id| - 9..|id| - 1] == ymd;
  }

  /** Baltimore's 2024 opener is dated 2024-04-01. */
  lemma OpenerDateIntended()
    ensures IntendedGameDate("BAL202404010") == Some("2024-04-01")
  {
    var ymd := "20240401";
    assert EightDigits(ymd);
    FourDigits(ymd[..4]);
    TwoDigits(ymd[4..6]);
    TwoDigits(ymd[6..]);
    assert ValidYmd(ymd);
    assert "BAL202404010" == "BAL" + ymd + ['0'];
    IntendedGameDateReads("BAL", ymd, '0');
    assert ymd[..4] + "-" + ymd[4..6] + "-" + ymd[6..] == "2024-04-01";
  }

  /** `names.get(player_id, player_id)`. */
  function DisplayName(names: map<string, string>, playerId: string): string
  {
    if playerId in names then names[playerId] else playerId
  }

  datatype BattingLine = BattingLine(
    playerId: string, name: string, team: string, date: Option<string>, season: int,
    g: int, pa: int, ab: int, r: int, h: int, doubles: int, triples: int, hr: int, rbi: int,
    bb: int, so: int, hbp: int, sf: int, sb: int, cs: int)

  datatype PitchingLine = PitchingLine(
    playerId: string, name: string, team: string, date: Option<string>, season: int,
    ipOuts: int, h: int, r: int, er: int, bb: int, so: int, hr: int, bf: int, hbp: int,
    w: int, l: int, sv: int, gs: int)

  predicate Batted(team: string, row: DailyRow) { row.team == team && row.bPa > 0 }
  predicate Pitched(team: string, row: DailyRow) { row.team == team && row.pOut > 0 }

  function BattingLineOf(team: string, names: map<string, string>, year: int, row: DailyRow): BattingLine
  {
    BattingLine(row.playerId, DisplayName(names, row.playerId), team, GameDate(row.gameId), year,
                row.bG, row.bPa, row.bAb, row.bR, row.bH, row.b2b, row.b3b, row.bHr, row.bRbi,
                row.bBb, row.bSo, row.bHp, row.bSf, row.bSb, row.bCs)
  }

  function PitchingLineOf(team: string, names: map<string, string>, year: int, row: DailyRow): PitchingLine
  {
    PitchingLine(row.playerId, DisplayName(names, row.playerId), team, GameDate(row.gameId), year,
                 row.pOut, row.pH, row.pR, row.pEr, row.pBb, row.pSo, row.pHr, row.pTbf, row.pHp,
                 row.pW, row.pL, row.pSv, row.pGs)
  }

  /** `extract_batting`: the club's rows with a plate appearance, in row
    * order. */
  function ExtractBatting(rows: seq<DailyRow>, team: string, names: map<string, string>, year: int): seq<BattingLine>
  {
    if |rows| == 0 then []
    else
      var init := ExtractBatting(rows[..|rows| - 1], team, names, year);
      var row := rows[|rows| - 1];
      if Batted(team, row) then init + [BattingLineOf(team, names, year, row)] else init
  }

  /** `extract_pitching`: the club's rows with an out recorded, in row
    * order. */
  function ExtractPitching(rows: seq<DailyRow>, team: string, names: map<string, string>, year: int): seq<PitchingLine>
  {
    if |rows| == 0 then []
    else
      var init := ExtractPitching(rows[..|rows| - 1], team, names, year);
      var row := rows[|rows| - 1];
      if Pitched(team, row) then init + [PitchingLineOf(team, names, year, row)] else init
  }

  /** The batting lines are exactly the club's rows with a plate appearance,
    * each under the club, the season and the player's display name. */
  lemma {:induction false} ExtractBattingExact(rows: seq<DailyRow>, team: string, names: map<string, string>, year: int)
    ensures forall l :: l in ExtractBatting(rows, team, names, year) <==>
      exists row :: row in rows && Batted(team, row) && l == BattingLineOf(team, names, year, row)
    ensures forall l :: l in ExtractBatting(rows, team, names, year) ==>
      l.pa > 0 && l.team == team && l.season == year && l.name == DisplayName(names, l.playerId)
    decreases |rows|
  {
    if |rows| > 0 {
      var init := rows[..|rows| - 1];
      ExtractBattingExact(init, team, names, year);
      assert rows == init + [rows[|rows| - 1]];
    }
  }

  /** The pitching lines are exactly the club's rows with an out recorded. */
  lemma {:induction false} ExtractPitchingExact(rows: seq<DailyRow>, team: string, names: map<string, string>, year: int)
    ensures forall l :: l in ExtractPitching(rows, team, names, year) <==>
      exists row :: row in rows && Pitched(team, row) && l == PitchingLineOf(team, names, year, row)
    ensures forall l :: l in ExtractPitching(rows, team, names, year) ==>
      l.ipOuts > 0 && l.team == team && l.season == year && l.name == DisplayName(names, l.playerId)
    decreases |rows|
  {
    if |rows| > 0 {
      var init := rows[..|rows| - 1];
      ExtractPitchingExact(init, team, names, year);
      assert rows == init + [rows[|rows| - 1]];
    }
  }

  // Grouping by (player id, name, club).

  type Key = (string, string, string)

  /** The order `groupby` lists its keys in: by player id, then name, then
    * club. */
  function KeyLe(): (le: (Key, Key) -> bool)
  {
    (a: Key, b: Key) =>
      Sorting.LexLe(a.0, b.0) && (a.0 == b.0 ==> Sorting.LexLe(a.1, b.1) && (a.1 == b.1 ==> Sorting.LexLe(a.2, b.2)))
  }

  lemma KeyLePreorder()
    ensures Sorting.TotalPreorder(KeyLe())
  {
    forall a: Key, b: Key ensures KeyLe()(a, b) || KeyLe()(b, a) {
      Sorting.LexLeTotal(a.0, b.0);
      Sorting.LexLeTotal(a.1, b.1);
      Sorting.LexLeTotal(a.2, b.2);
      if Sorting.LexLe(a.0, b.0) && Sorting.LexLe(b.0, a.0) {
        Sorting.LexLeAntisymmetric(a.0, b.0);
      }
      if Sorting.LexLe(a.1, b.1) && Sorting.LexLe(b.1, a.1) {
        Sorting.LexLeAntisymmetric(a.1, b.1);
      }
    }
    forall a: Key, b: Key, c: Key | KeyLe()(a, b) && KeyLe()(b, c) ensures KeyLe()(a, c) {
      Sorting.LexLeTransitive(a.0, b.0, c.0);
      if a.0 == c.0 {
        Sorting.LexLeAntisymmetric(a.0, b.0);
        Sorting.LexLeTransitive(a.1, b.1, c.1);
        if a.1 == c.1 {
          Sorting.LexLeAntisymmetric(a.1, b.1);
          Sorting.LexLeTransitive(a.2, b.2, c.2);
        }
      }
    }
  }

  function BattingKey(l: BattingLine): Key { (l.playerId, l.name, l.team) }
  function PitchingKey(l: PitchingLine): Key { (l.playerId, l.name, l.team) }

  /** The sum of a column over one group's lines. */
  function GroupSum<T>(lines: seq<T>, key: T -> Key, k: Key, f: T -> int): int
  {
    IntSumOf(lines, (l: T) => if key(l) == k then f(l) else 0)
  }

  function GroupSums<T>(lines: seq<T>, key: T -> Key, f: T -> int): Key -> int
  {
    (k: Key) => GroupSum(lines, key, k, f)
  }

  /** A value counted at the one place its key occupies. */
  lemma {:induction false} CountedOnce(ks: seq<Key>, x: Key, v: int)
    requires Sorting.Distinct(ks)
    ensures IntSumOf(ks, (k: Key) => if k == x then v else 0) == if x in ks then v else 0
    decreases |ks|
  {
    if |ks| > 0 {
      var init := ks[..|ks| - 1];
      assert Sorting.Distinct(init);
      CountedOnce(init, x, v);
      if ks[|ks| - 1] == x {
        assert x !in init;
      }
      assert ks == init + [ks[|ks| - 1]];
    }
  }

  lemma {:induction false} IntSumOfAdd<T>(s: seq<T>, f: T -> int, g: T -> int, h: T -> int)
    requires forall x :: h(x) == f(x) + g(x)
    ensures IntSumOf(s, h) == IntSumOf(s, f) + IntSumOf(s, g)
    decreases |s|
  {
    if |s| > 0 {
      IntSumOfAdd(s[..|s| - 1], f, g, h);
    }
  }

  /** Summing a column group by group over every group gives its total:
    * `groupby(...).sum()` neither loses nor repeats a line. */
  lemma {:induction false} GroupsPartition<T>(lines: seq<T>, key: T -> Key, ks: seq<Key>, f: T -> int)
    requires Sorting.Distinct(ks)
    requires forall i :: 0 <= i < |lines| ==> key(lines[i]) in ks
    ensures IntSumOf(ks, GroupSums(lines, key, f)) == IntSumOf(lines, f)
    decreases |lines|
  {
    if |lines| == 0 {
      ZeroSum(ks, GroupSums(lines, key, f));
    } else {
      var init := lines[..|lines| - 1];
      var last := lines[|lines| - 1];
      GroupsPartition(init, key, ks, f);
      var one := (k: Key) => if k == key(last) then f(last) else 0;
      forall k ensures GroupSums(lines, key, f)(k) == GroupSums(init, key, f)(k) + one(k) {
      }
      IntSumOfAdd(ks, GroupSums(init, key, f), one, GroupSums(lines, key, f));
      CountedOnce(ks, key(last), f(last));
    }
  }

  lemma {:induction false} ZeroSum<T>(s: seq<T>, f: T -> int)
    requires forall x :: f(x) == 0
    ensures IntSumOf(s, f) == 0
    decreases |s|
  {
    if |s| > 0 {
      ZeroSum(s[..|s| - 1], f);
    }
  }

  // Season totals.

  datatype BattingSeason = BattingSeason(
    playerId: string, name: string, team: string,
    g: int, pa: int, ab: int, r: int, h: int, doubles: int, triples: int, hr: int, rbi: int,
    bb: int, so: int, hbp: int, sf: int, sb: int, cs: int,
    season: int, avg: real, obp: real, slg: real, ops: real, woba: real)

  datatype PitchingSeason = PitchingSeason(
    playerId: string, name: string, team: string,
    g: int, gs: int, ipOuts: int, h: int, r: int, er: int, bb: int, so: int, hr: int, bf: int, hbp: int,
    w: int, l: int, sv: int,
    season: int, ip: real, era: real, whip: real, kPer9: real, bbPer9: real, fip: real)

  // The summed columns of a batting line.
  function LineG(l: BattingLine): int { l.g }
  function LinePa(l: BattingLine): int { l.pa }
  function LineAb(l: BattingLine): int { l.ab }
  function LineR(l: BattingLine): int { l.r }
  function LineH(l: BattingLine): int { l.h }
  function LineDoubles(l: BattingLine): int { l.doubles }
  function LineTriples(l: BattingLine): int { l.triples }
  function LineHr(l: BattingLine): int { l.hr }
  function LineRbi(l: BattingLine): int { l.rbi }
  function LineBb(l: BattingLine): int { l.bb }
  function LineSo(l: BattingLine): int { l.so }
  function LineHbp(l: BattingLine): int { l.hbp }
  function LineSf(l: BattingLine): int { l.sf }
  function LineSb(l: BattingLine): int { l.sb }
  function LineCs(l: BattingLine): int { l.cs }
  function LineSingles(l: BattingLine): int { l.h - l.doubles - l.triples - l.hr }
  function SeasonPa(r: BattingSeason): int { r.pa }

  // The counted and summed columns of a pitching line.
  function Appearance(l: PitchingLine): int { 1 }
  function LineGs(l: PitchingLine): int { l.gs }
  function LineOuts(l: PitchingLine): int { l.ipOuts }
  function LineHits(l: PitchingLine): int { l.h }
  function LineRuns(l: PitchingLine): int { l.r }
  function LineEr(l: PitchingLine): int { l.er }
  function LineWalks(l: PitchingLine): int { l.bb }
  function LineStrikeouts(l: PitchingLine): int { l.so }
  function LineHomers(l: PitchingLine): int { l.hr }
  function LineBf(l: PitchingLine): int { l.bf }
  function LineHitBatters(l: PitchingLine): int { l.hbp }
  function LineW(l: PitchingLine): int { l.w }
  function LineL(l: PitchingLine): int { l.l }
  function LineSv(l: PitchingLine): int { l.sv }
  function SeasonG(r: PitchingSeason): int { r.g }
  function SeasonOuts(r: PitchingSeason): int { r.ipOuts }

  /** A column summed over one player's batting lines. */
  function BatSum(lines: seq<BattingLine>, k: Key, f: BattingLine -> int): int
  {
    GroupSum(lines, BattingKey, k, f)
  }

  /** One player's season batting: every counting column is the group's
    * sum, and the rates are the shared helpers over those sums, singles
    * being hits less extra-base hits. */
  function BattingSeasonOf(lines: seq<BattingLine>, k: Key, year: int): (r: BattingSeason)
    ensures BattingKeyOf(r) == k && r.season == year
    ensures r.g == BatSum(lines, k, LineG)
    ensures r.pa == BatSum(lines, k, LinePa)
    ensures r.ab == BatSum(lines, k, LineAb)
    ensures r.r == BatSum(lines, k, LineR)
    ensures r.h == BatSum(lines, k, LineH)
    ensures r.doubles == BatSum(lines, k, LineDoubles)
    ensures r.triples == BatSum(lines, k, LineTriples)
    ensures r.hr == BatSum(lines, k, LineHr)
    ensures r.rbi == BatSum(lines, k, LineRbi)
    ensures r.bb == BatSum(lines, k, LineBb)
    ensures r.so == BatSum(lines, k, LineSo)
    ensures r.hbp == BatSum(lines, k, LineHbp)
    ensures r.sf == BatSum(lines, k, LineSf)
    ensures r.sb == BatSum(lines, k, LineSb)
    ensures r.cs == BatSum(lines, k, LineCs)
    ensures r.avg == Stats.BattingAvg(r.h, r.ab) && r.obp == Stats.Obp(r.h, r.bb, r.hbp, r.ab, r.sf)
    ensures r.slg == Stats.Slg(r.h, r.doubles, r.triples, r.hr, r.ab) && r.ops == Stats.Ops(r.obp, r.slg)
    ensures r.woba == Stats.Woba(r.bb, r.hbp, r.h - r.doubles - r.triples - r.hr, r.doubles, r.triples, r.hr, r.ab, r.sf)
  {
    var h, ab, bb := BatSum(lines, k, LineH), BatSum(lines, k, LineAb), BatSum(lines, k, LineBb);
    var hbp, sf := BatSum(lines, k, LineHbp), BatSum(lines, k, LineSf);
    var doubles, triples, hr := BatSum(lines, k, LineDoubles), BatSum(lines, k, LineTriples), BatSum(lines, k, LineHr);
    var obp := Stats.Obp(h, bb, hbp, ab, sf);
    var slg := Stats.Slg(h, doubles, triples, hr, ab);
    BattingSeason(k.0, k.1, k.2, BatSum(lines, k, LineG), BatSum(lines, k, LinePa), ab, BatSum(lines, k, LineR),
                  h, doubles, triples, hr, BatSum(lines, k, LineRbi), bb, BatSum(lines, k, LineSo), hbp, sf,
                  BatSum(lines, k, LineSb), BatSum(lines, k, LineCs),
                  year, Stats.BattingAvg(h, ab), obp, slg, Stats.Ops(obp, slg),
                  Stats.Woba(bb, hbp, h - doubles - triples - hr, doubles, triples, hr, ab, sf))
  }

  /** The singles that feed wOBA are the group's sum of per-game singles. */
  lemma SeasonSingles(lines: seq<BattingLine>, k: Key, year: int)
    ensures var r := BattingSeasonOf(lines, k, year);
      r.h - r.doubles - r.triples - r.hr == GroupSum(lines, BattingKey, k, LineSingles)
  {
    var xbh := (l: BattingLine) => l.doubles + l.triples + l.hr;
    var dt := (l: BattingLine) => l.doubles + l.triples;
    GroupSumAdd(lines, BattingKey, k, LineDoubles, LineTriples, dt);
    GroupSumAdd(lines, BattingKey, k, dt, LineHr, xbh);
    GroupSumAdd(lines, BattingKey, k, LineSingles, xbh, LineH);
  }

  /** A group's sum is linear in the column. */
  lemma GroupSumAdd<T>(lines: seq<T>, key: T -> Key, k: Key, f: T -> int, g: T -> int, h: T -> int)
    requires forall l :: h(l) == f(l) + g(l)
    ensures GroupSum(lines, key, k, h) == GroupSum(lines, key, k, f) + GroupSum(lines, key, k, g)
  {
    IntSumOfAdd(lines, (l: T) => if key(l) == k then f(l) else 0, (l: T) => if key(l) == k then g(l) else 0,
                (l: T) => if key(l) == k then h(l) else 0);
  }

  /** A column summed over one player's pitching lines. */
  function PitchSum(lines: seq<PitchingLine>, k: Key, f: PitchingLine -> int): int
  {
    GroupSum(lines, PitchingKey, k, f)
  }

  /** One player's season pitching: appearances counted, every other
    * column the group's sum, innings from the summed outs and the rates
    * from the sums. */
  function PitchingSeasonOf(lines: seq<PitchingLine>, k: Key, year: int): (r: PitchingSeason)
    ensures PitchingKeyOf(r) == k && r.season == year
    ensures r.g == PitchSum(lines, k, Appearance)
    ensures r.gs == PitchSum(lines, k, LineGs)
    ensures r.ipOuts == PitchSum(lines, k, LineOuts)
    ensures r.h == PitchSum(lines, k, LineHits)
    ensures r.r == PitchSum(lines, k, LineRuns)
    ensures r.er == PitchSum(lines, k, LineEr)
    ensures r.bb == PitchSum(lines, k, LineWalks)
    ensures r.so == PitchSum(lines, k, LineStrikeouts)
    ensures r.hr == PitchSum(lines, k, LineHomers)
    ensures r.bf == PitchSum(lines, k, LineBf)
    ensures r.hbp == PitchSum(lines, k, LineHitBatters)
    ensures r.w == PitchSum(lines, k, LineW)
    ensures r.l == PitchSum(lines, k, LineL)
    ensures r.sv == PitchSum(lines, k, LineSv)
    ensures r.ip == Stats.IpFromOuts(r.ipOuts) && r.era == Stats.Era(r.er, r.ipOuts)
    ensures r.whip == Stats.Whip(r.h, r.bb, r.ipOuts) && r.kPer9 == Stats.KPer9(r.so, r.ipOuts)
    ensures r.bbPer9 == Stats.BbPer9(r.bb, r.ipOuts)
    ensures r.fip == Stats.Fip(r.hr, r.bb, r.hbp, r.so, r.ipOuts, Stats.DEFAULT_FIP_CONSTANT)
  {
    var outs, h, er := PitchSum(lines, k, LineOuts), PitchSum(lines, k, LineHits), PitchSum(lines, k, LineEr);
    var bb, so, hr := PitchSum(lines, k, LineWalks), PitchSum(lines, k, LineStrikeouts), PitchSum(lines, k, LineHomers);
    var hbp := PitchSum(lines, k, LineHitBatters);
    PitchingSeason(k.0, k.1, k.2, PitchSum(lines, k, Appearance), PitchSum(lines, k, LineGs), outs, h,
                   PitchSum(lines, k, LineRuns), er, bb, so, hr, PitchSum(lines, k, LineBf), hbp,
                   PitchSum(lines, k, LineW), PitchSum(lines, k, LineL), PitchSum(lines, k, LineSv),
                   year, Stats.IpFromOuts(outs), Stats.Era(er, outs), Stats.Whip(h, bb, outs),
                   Stats.KPer9(so, outs), Stats.BbPer9(bb, outs), Stats.Fip(hr, bb, hbp, so, outs, Stats.DEFAULT_FIP_CONSTANT))
  }

  function BattingKeyOf(r: BattingSeason): Key { (r.playerId, r.name, r.team) }
  function PitchingKeyOf(r: PitchingSeason): Key { (r.playerId, r.name, r.team) }

  /** Groups listed in key order, each once. */
  predicate StrictlyOrdered(ks: seq<Key>)
  {
    Sorting.SortedBy(ks, KeyLe()) && Sorting.Distinct(ks)
  }

  /** The groups the lines fall into. */
  function KeysOf<T>(lines: seq<T>, key: T -> Key): set<Key>
  {
    set j | 0 <= j < |lines| :: key(lines[j])
  }

  /** The rows' keys, in row order. */
  function RowKeys<R>(rows: seq<R>, key: R -> Key): seq<Key>
  {
    seq(|rows|, i requires 0 <= i < |rows| => key(rows[i]))
  }

  function BattingSeasons(lines: seq<BattingLine>, ks: seq<Key>, year: int): (agg: seq<BattingSeason>)
    ensures RowKeys(agg, BattingKeyOf) == ks
    ensures forall i :: 0 <= i < |agg| ==> agg[i] == BattingSeasonOf(lines, BattingKeyOf(agg[i]), year)
    ensures forall i :: 0 <= i < |agg| ==> SeasonPa(agg[i]) == GroupSums(lines, BattingKey, LinePa)(ks[i])
  {
    seq(|ks|, i requires 0 <= i < |ks| => BattingSeasonOf(lines, ks[i], year))
  }

  function PitchingSeasons(lines: seq<PitchingLine>, ks: seq<Key>, year: int): (agg: seq<PitchingSeason>)
    ensures RowKeys(agg, PitchingKeyOf) == ks
    ensures forall i :: 0 <= i < |agg| ==> agg[i] == PitchingSeasonOf(lines, PitchingKeyOf(agg[i]), year)
    ensures forall i :: 0 <= i < |agg| ==> SeasonG(agg[i]) == GroupSums(lines, PitchingKey, Appearance)(ks[i])
    ensures forall i :: 0 <= i < |agg| ==> SeasonOuts(agg[i]) == GroupSums(lines, PitchingKey, LineOuts)(ks[i])
  {
    seq(|ks|, i requires 0 <= i < |ks| => PitchingSeasonOf(lines, ks[i], year))
  }

  /** `groupby`'s keys: each group once, in key order. */
  method GroupKeys<T>(lines: seq<T>, key: T -> Key) returns (ks: seq<Key>)
    ensures StrictlyOrdered(ks)
    ensures forall k :: k in ks <==> k in KeysOf(lines, key)
    ensures forall j :: 0 <= j < |lines| ==> key(lines[j]) in ks
  {
    KeyLePreorder();
    ks := Sorting.SortedMembers(KeysOf(lines, key), KeyLe());
  }

  /** `aggregate_batting_season`: one row per group in key order; a plate
    * appearance, like every other column, is counted in exactly one row. */
  method AggregateBattingSeason(lines: seq<BattingLine>, year: int) returns (agg: seq<BattingSeason>)
    ensures StrictlyOrdered(RowKeys(agg, BattingKeyOf))
    ensures forall k :: k in RowKeys(agg, BattingKeyOf) <==> k in KeysOf(lines, BattingKey)
    ensures forall i :: 0 <= i < |agg| ==> agg[i] == BattingSeasonOf(lines, BattingKeyOf(agg[i]), year)
    ensures IntSumOf(agg, SeasonPa) == IntSumOf(lines, LinePa)
  {
    var ks := GroupKeys(lines, BattingKey);
    agg := BattingSeasons(lines, ks, year);
    GroupsPartition(lines, BattingKey, ks, LinePa);
    MappedSum(ks, agg, GroupSums(lines, BattingKey, LinePa), SeasonPa);
  }

  /** `aggregate_pitching_season`: one row per group in key order; every
    * appearance is counted once, as is every out. */
  method AggregatePitchingSeason(lines: seq<PitchingLine>, year: int) returns (agg: seq<PitchingSeason>)
    ensures StrictlyOrdered(RowKeys(agg, PitchingKeyOf))
    ensures forall k :: k in RowKeys(agg, PitchingKeyOf) <==> k in KeysOf(lines, PitchingKey)
    ensures forall i :: 0 <= i < |agg| ==> agg[i] == PitchingSeasonOf(lines, PitchingKeyOf(agg[i]), year)
    ensures IntSumOf(agg, SeasonG) == |lines|
    ensures IntSumOf(agg, SeasonOuts) == IntSumOf(lines, LineOuts)
  {
    var ks := GroupKeys(lines, PitchingKey);
    agg := PitchingSeasons(lines, ks, year);
    GroupsPartition(lines, PitchingKey, ks, Appearance);
    CountIsLength(lines);
    MappedSum(ks, agg, GroupSums(lines, PitchingKey, Appearance), SeasonG);
    GroupsPartition(lines, PitchingKey, ks, LineOuts);
    MappedSum(ks, agg, GroupSums(lines, PitchingKey, LineOuts), SeasonOuts);
  }

  lemma {:induction false} CountIsLength(lines: seq<PitchingLine>)
    ensures IntSumOf(lines, Appearance) == |lines|
    decreases |lines|
  {
    if |lines| > 0 {
      CountIsLength(lines[..|lines| - 1]);
    }
  }

  /** Summing a column of rows built one per key is summing the per-key
    * values. */
  lemma {:induction false} MappedSum<R>(ks: seq<Key>, rows: seq<R>, f: Key -> int, g: R -> int)
    requires |rows| == |ks|
    requires forall i :: 0 <= i < |ks| ==> g(rows[i]) == f(ks[i])
    ensures IntSumOf(rows, g) == IntSumOf(ks, f)
    decreases |ks|
  {
    if |ks| > 0 {
      MappedSum(ks[..|ks| - 1], rows[..|rows| - 1], f, g);
    }
  }

  /** Within one club's extracted lines the name and the club follow from
    * the player id, so there is exactly one group per player. */
  lemma OneGroupPerPlayer(rows: seq<DailyRow>, team: string, names: map<string, string>, year: int,
                          a: BattingLine, b: BattingLine)
    requires a in ExtractBatting(rows, team, names, year) && b in ExtractBatting(rows, team, names, year)
    ensures a.playerId == b.playerId ==> BattingKey(a) == BattingKey(b)
  {
    ExtractBattingExact(rows, team, names, year);
  }

  // Roster names and the player id map.

  predicate RosterRow(row: seq<string>) { |row| >= 3 }
  function RosterId(row: seq<string>): string requires RosterRow(row) { row[0] }
  function RosterName(row: seq<string>): string requires RosterRow(row) { row[2] + " " + row[1] }

  /** `parse_roster_files` over the rows of the roster files, in reading
    * order: rows of at least three fields map the id to "first last"; a
    * later row for the same id wins. */
  function RosterNames(rows: seq<seq<string>>): (names: map<string, string>)
    ensures forall id :: id in names ==> exists row :: row in rows && RosterRow(row) && row[0] == id
  {
    if |rows| == 0 then map[]
    else
      var init := RosterNames(rows[..|rows| - 1]);
      var row := rows[|rows| - 1];
      assert forall r :: r in rows[..|rows| - 1] ==> r in rows;
      if RosterRow(row) then init[RosterId(row) := RosterName(row)] else init
  }

  /** A roster id is named by the last row that lists it. */
  lemma {:induction false} RosterNamesLastWins(rows: seq<seq<string>>, i: nat)
    requires i < |rows| && RosterRow(rows[i])
    requires forall j :: i < j < |rows| && RosterRow(rows[j]) ==> rows[j][0] != rows[i][0]
    ensures rows[i][0] in RosterNames(rows) && RosterNames(rows)[rows[i][0]] == rows[i][2] + " " + rows[i][1]
    decreases |rows|
  {
    if i < |rows| - 1 {
      RosterNamesLastWins(rows[..|rows| - 1], i);
    }
  }

  /** `build_player_id_map`: every id once, ascending, with its name. */
  method BuildPlayerIdMap(names: map<string, string>) returns (idMap: seq<(string, string)>)
    ensures Sorting.SortedBy(seq(|idMap|, i requires 0 <= i < |idMap| => idMap[i].0), Sorting.StringLe())
    ensures forall i, j :: 0 <= i < j < |idMap| ==> idMap[i].0 != idMap[j].0
    ensures forall id :: id in names <==> exists i :: 0 <= i < |idMap| && idMap[i].0 == id
    ensures forall i :: 0 <= i < |idMap| ==> idMap[i].0 in names && idMap[i].1 == names[idMap[i].0]
  {
    var ids := Sorting.SortedSet(names.Keys);
    idMap := seq(|ids|, i requires 0 <= i < |ids| => (ids[i], names[ids[i]]));
    assert seq(|idMap|, i requires 0 <= i < |idMap| => idMap[i].0) == ids;
    forall id | id in names ensures exists i :: 0 <= i < |idMap| && idMap[i].0 == id {
      var i :| 0 <= i < |ids| && ids[i] == id;
      assert idMap[i].0 == id;
    }
  }

  // The year loop.

  /** What the download and the external tool give for one year: the daily
    * rows and the roster-file rows; `None` when either step failed. */
  datatype YearFeed = YearFeed(rows: seq<DailyRow>, roster: seq<seq<string>>)

  datatype YearOutput = YearOutput(year: int, batting: seq<BattingLine>, pitching: seq<PitchingLine>)

  function YearOutputOf(year: int, team: string, f: YearFeed): YearOutput
  {
    var names := RosterNames(f.roster);
    YearOutput(year, ExtractBatting(f.rows, team, names, year), ExtractPitching(f.rows, team, names, year))
  }

  /** The daily lines of every year whose files could be read, in year
    * order. */
  function Outputs(years: seq<int>, team: string, feed: int -> Option<YearFeed>): seq<YearOutput>
  {
    if |years| == 0 then []
    else
      var y := years[|years| - 1];
      var init := Outputs(years[..|years| - 1], team, feed);
      if feed(y).Some? then init + [YearOutputOf(y, team, feed(y).value)] else init
  }

  /** The accumulated roster names: later years overwrite earlier ones. */
  function AllNames(years: seq<int>, feed: int -> Option<YearFeed>): map<string, string>
  {
    if |years| == 0 then map[]
    else
      var y := years[|years| - 1];
      var init := AllNames(years[..|years| - 1], feed);
      if feed(y).Some? then init + RosterNames(feed(y).value.roster) else init
  }

  /** The lines of the last year in the list that equals `latest` and could
    * be read; none when there is no such year. */
  function Latest(years: seq<int>, team: string, feed: int -> Option<YearFeed>, latest: int): YearOutput
  {
    if |years| == 0 then YearOutput(latest, [], [])
    else
      var y := years[|years| - 1];
      if y == latest && feed(y).Some? then YearOutputOf(y, team, feed(y).value)
      else Latest(years[..|years| - 1], team, feed, latest)
  }

  function MaxOf(years: seq<int>): (m: int)
    requires |years| > 0
    ensures m in years && forall i :: 0 <= i < |years| ==> years[i] <= m
  {
    if |years| == 1 then years[0]
    else
      var m := MaxOf(years[..|years| - 1]);
      var y := years[|years| - 1];
      assert forall i :: 0 <= i < |years| - 1 ==> years[..|years| - 1][i] == years[i];
      if y > m then y else m
  }

  datatype Bootstrapped = Bootstrapped(outputs: seq<YearOutput>, names: map<string, string>, latest: YearOutput)

  /** `main` over the fetched inputs: an unreadable year range, or one with
    * no year (the `max` of nothing), is an error; years whose files could
    * not be read are skipped. The team code is upper-cased first. */
  method Bootstrap(yearsArg: string, team: string, feed: int -> Option<YearFeed>) returns (r: Result<Bootstrapped>)
    ensures ParseYearRange(yearsArg).Err? ==> r.Err?
    ensures ParseYearRange(yearsArg).Ok? ==> (r.Err? <==> |ParseYearRange(yearsArg).value| == 0)
    ensures r.Ok? ==> var years, club := ParseYearRange(yearsArg).value, Text.Upper(team);
      r.value == Bootstrapped(Outputs(years, club, feed), AllNames(years, feed), Latest(years, club, feed, MaxOf(years)))
  {
    var club := Text.Upper(team);
    var parsed := ParseYearRange(yearsArg);
    if parsed.Err? {
      return Err(parsed.error);
    }
    var years := parsed.value;
    if |years| == 0 {
      return Err("max() arg is an empty sequence");
    }
    var latestYear := MaxOf(years);
    var outputs: seq<YearOutput> := [];
    var names: map<string, string> := map[];
    var latest := YearOutput(latestYear, [], []);
    var i := 0;
    while i < |years|
      invariant 0 <= i <= |years|
      invariant outputs == Outputs(years[..i], club, feed)
      invariant names == AllNames(years[..i], feed)
      invariant latest == Latest(years[..i], club, feed, latestYear)
    {
      assert years[..i + 1][..i] == years[..i];
      var year := years[i];
      var f := feed(year);
      if f.Some? {
        var out := YearOutputOf(year, club, f.value);
        names := names + RosterNames(f.value.roster);
        outputs := outputs + [out];
        if year == latestYear {
          latest := out;
        }
      }
      i := i + 1;
    }
    assert years[..i] == years;
    r := Ok(Bootstrapped(outputs, names, latest));
  }

  /** For a parsed range the latest year is the last one: its lines when its
    * files could be read, else none. */
  lemma {:induction false} LatestOfRange(a: int, b: int, team: string, feed: int -> Option<YearFeed>)
    requires a <= b
    ensures MaxOf(Range(a, b)) == b
    ensures Latest(Range(a, b), team, feed, b) ==
      if feed(b).Some? then YearOutputOf(b, team, feed(b).value) else YearOutput(b, [], [])
  {
    var years := Range(a, b);
    assert years[|years| - 1] == b;
    if feed(b).None? {
      NoLaterLatest(years[..|years| - 1], team, feed, b);
    }
  }

  lemma {:induction false} NoLaterLatest(years: seq<int>, team: string, feed: int -> Option<YearFeed>, latest: int)
    requires forall i :: 0 <= i < |years| ==> years[i] < latest
    ensures Latest(years, team, feed, latest) == YearOutput(latest, [], [])
    decreases |years|
  {
    if |years| > 0 {
      NoLaterLatest(years[..|years| - 1], team, feed, latest);
    }
  }
}
