/** The feature pre-computation script: the season FIP constant read back
  * from the FIP file, each starter's game log, rolling FIP over the
  * previous starts, and bullpen FIP per team. The game-log request is a
  * parameter: it yields the log entries of a pitcher. */
module PrecomputeFeatures {
  import opened Wrappers
  import opened Sums
  import opened Rounding
  import Sorting
  import PitcherFip

  const ROLLING_WINDOW: int := 7
  const DEFAULT_LEAGUE_ERA: real := 4.0

  // The FIP file and the season constant.

  /** A row of the season's FIP file. */
  datatype FipFileRow = FipFileRow(pitcherId: int, name: string, team: string, ip: real, era: real,
                                   k: int, bb: int, hbp: int, hr: int, gamesStarted: int)

  function RowIp(r: FipFileRow): real { r.ip }
  function RowEarned(r: FipFileRow): real { r.era * r.ip / 9.0 }
  function RowNumerator(r: FipFileRow): real { (13 * r.hr + 3 * (r.bb + r.hbp) - 2 * r.k) as real }

  /** League ERA as the script computes it: 4.0 unless innings are positive. */
  function FileLeagueEra(rows: seq<FipFileRow>): real
  {
    var total := SumOf(rows, RowIp);
    if total > 0.0 then SumOf(rows, RowEarned) * 9.0 / total else DEFAULT_LEAGUE_ERA
  }

  /** The FIP constant of `process_season`. League ERA is guarded, but the
    * component below it divides by total innings without a guard, so a
    * file without innings stops the script. */
  function SeasonConstant(rows: seq<FipFileRow>): (r: Result<real>)
    ensures r.Err? <==> SumOf(rows, RowIp) == 0.0
    ensures r.Ok? ==> (FileLeagueEra(rows) - r.value) * SumOf(rows, RowIp) == SumOf(rows, RowNumerator)
  {
    var total := SumOf(rows, RowIp);
    if total == 0.0 then Err("division by zero")
    else
      var cfip := FileLeagueEra(rows) - SumOf(rows, RowNumerator) / total;
      assert (FileLeagueEra(rows) - cfip) * total == SumOf(rows, RowNumerator);
      Ok(cfip)
  }

  /** The 4.0 fallback never shapes a constant: on a file whose innings are
    * not negative, whenever a constant exists (the innings are not zero)
    * league ERA is the real one. */
  lemma FallbackUnused(rows: seq<FipFileRow>)
    requires forall i :: 0 <= i < |rows| ==> rows[i].ip >= 0.0
    requires SumOf(rows, RowIp) != 0.0
    ensures SumOf(rows, RowIp) > 0.0
    ensures FileLeagueEra(rows) == SumOf(rows, RowEarned) * 9.0 / SumOf(rows, RowIp)
  {
    SumOfNonNegative(rows, RowIp);
  }

  // Game logs.

  /** One game of a pitcher's log, as the stats request returns it;
    * `inningsPitched` is "0" when the feed has none. */
  datatype LogEntry = LogEntry(date: string, gamesStarted: int, inningsPitched: string,
                               k: int, bb: int, hbp: int, hr: int)

  /** A start kept for rolling FIP. */
  datatype Start = Start(date: string, ip: real, k: int, bb: int, hbp: int, hr: int)

  /** The starts of a log in log order: relief appearances and starts
    * without innings are skipped; an innings string that does not parse
    * fails the whole log. */
  function Kept(entries: seq<LogEntry>): (r: Result<seq<Start>>)
    ensures r.Ok? ==> |r.value| <= |entries| && forall i :: 0 <= i < |r.value| ==> r.value[i].ip > 0.0
  {
    if |entries| == 0 then Ok([])
    else
      var e := entries[|entries| - 1];
      match Kept(entries[..|entries| - 1])
      case Err(m) => Err(m)
      case Ok(prev) =>
        if e.gamesStarted == 0 then Ok(prev)
        else
          match PitcherFip.ParseIp(e.inningsPitched)
          case Err(m) => Err(m)
          case Ok(ip) => if ip <= 0.0 then Ok(prev) else Ok(prev + [Start(e.date, ip, e.k, e.bb, e.hbp, e.hr)])
  }

  function ByDate(): (le: (Start, Start) -> bool)
  {
    (a: Start, b: Start) => Sorting.LexLe(a.date, b.date)
  }

  lemma ByDatePreorder()
    ensures Sorting.TotalPreorder(ByDate())
  {
    forall x: Start, y: Start ensures Sorting.LexLe(x.date, y.date) || Sorting.LexLe(y.date, x.date) {
      Sorting.LexLeTotal(x.date, y.date);
    }
    forall x: Start, y: Start, z: Start | Sorting.LexLe(x.date, y.date) && Sorting.LexLe(y.date, z.date)
      ensures Sorting.LexLe(x.date, z.date)
    {
      Sorting.LexLeTransitive(x.date, y.date, z.date);
    }
  }

  /** `fetch_game_log` after the request: the kept starts sorted by date,
    * ties in log order; any failure gives no starts. */
  function GameLog(entries: seq<LogEntry>): seq<Start>
  {
    match Kept(entries)
    case Err(_) => []
    case Ok(starts) => Sorting.Sort(starts, ByDate())
  }

  lemma KeptStep(entries: seq<LogEntry>, i: nat)
    requires i < |entries|
    ensures Kept(entries[..i + 1]) == (
      var e := entries[i];
      match Kept(entries[..i])
      case Err(m) => Err(m)
      case Ok(prev) =>
        if e.gamesStarted == 0 then Ok(prev)
        else
          match PitcherFip.ParseIp(e.inningsPitched)
          case Err(m) => Err(m)
          case Ok(ip) => if ip <= 0.0 then Ok(prev) else Ok(prev + [Start(e.date, ip, e.k, e.bb, e.hbp, e.hr)]))
  {
    assert entries[..i + 1][..i] == entries[..i];
  }

  /** Once a prefix of the log fails, the whole log fails. */
  lemma {:induction false} KeptErrSticks(entries: seq<LogEntry>, j: nat)
    requires j <= |entries| && Kept(entries[..j]).Err?
    ensures Kept(entries).Err?
    decreases |entries| - j
  {
    if j == |entries| {
      assert entries[..j] == entries;
    } else {
      KeptStep(entries, j);
      KeptErrSticks(entries, j + 1);
    }
  }

  /** The loop of `fetch_game_log`: skip relief appearances, parse the
    * innings (a failure ends the fetch with no starts), skip starts without
    * innings, then sort by date. */
  method FetchGameLog(entries: seq<LogEntry>) returns (games: seq<Start>)
    ensures games == GameLog(entries)
  {
    var kept: seq<Start> := [];
    var i := 0;
    while i < |entries|
      invariant 0 <= i <= |entries|
      invariant Kept(entries[..i]) == Ok(kept)
    {
      KeptStep(entries, i);
      var e := entries[i];
      if e.gamesStarted != 0 {
        var ip := PitcherFip.ParseIp(e.inningsPitched);
        if ip.Err? {
          KeptErrSticks(entries, i + 1);
          return [];
        }
        if ip.value > 0.0 {
          kept := kept + [Start(e.date, ip.value, e.k, e.bb, e.hbp, e.hr)];
        }
      }
      i := i + 1;
    }
    assert entries[..i] == entries;
    games := Sorting.Sort(kept, ByDate());
  }

  /** A fetched log is in date order, every start in it has innings, and it
    * holds exactly the kept starts. */
  lemma GameLogSpec(entries: seq<LogEntry>)
    ensures Sorting.SortedBy(GameLog(entries), ByDate())
    ensures forall i :: 0 <= i < |GameLog(entries)| ==> GameLog(entries)[i].ip > 0.0
    ensures Kept(entries).Ok? ==> multiset(GameLog(entries)) == multiset(Kept(entries).value)
    ensures Kept(entries).Err? ==> GameLog(entries) == []
  {
    if Kept(entries).Ok? {
      var starts := Kept(entries).value;
      ByDatePreorder();
      Sorting.SortSorted(starts, ByDate());
      var games := GameLog(entries);
      forall i | 0 <= i < |games| ensures games[i].ip > 0.0 {
        assert games[i] in multiset(starts);
      }
    }
  }

  // Rolling FIP.

  /** One entry of `compute_rolling_fip`. */
  datatype Rolling = Rolling(date: string, rollingFip: Option<real>, startsInWindow: nat)

  function StartIp(s: Start): real { s.ip }
  function StartNumerator(s: Start): real { (13 * s.hr + 3 * (s.bb + s.hbp) - 2 * s.k) as real }

  /** `max(0, i - window)`. */
  function WindowStart(i: int, window: int): int
  {
    if i - window > 0 then i - window else 0
  }

  /** `games[max(0, i - window):i]`: the starts before start `i`, at most
    * `window` of them; a slice whose start is past its end is empty. */
  function Prior(games: seq<Start>, i: int, window: int): (prior: seq<Start>)
    requires 0 <= i <= |games|
    ensures |prior| <= i
  {
    var lo := WindowStart(i, window);
    if lo <= i then games[lo..i] else []
  }

  /** FIP over a window with innings: (13 HR + 3 (BB + HBP) - 2 K) / IP + cfip. */
  function WindowFip(prior: seq<Start>, cfip: real): real
    requires SumOf(prior, StartIp) > 0.0
  {
    SumOf(prior, StartNumerator) / SumOf(prior, StartIp) + cfip
  }

  /** The entry for start `i`: no FIP for a first start or a window without
    * innings, else the window's FIP to two decimals. */
  function RollingAt(games: seq<Start>, cfip: real, window: int, i: int): (r: Rolling)
    requires 0 <= i < |games|
    ensures r.date == games[i].date
  {
    var prior := Prior(games, i, window);
    if |prior| == 0 then Rolling(games[i].date, None, 0)
    else if SumOf(prior, StartIp) <= 0.0 then Rolling(games[i].date, None, |prior|)
    else Rolling(games[i].date, Some(Round(WindowFip(prior, cfip), 2)), |prior|)
  }

  /** `compute_rolling_fip`: one entry per start, in order. */
  method ComputeRollingFip(games: seq<Start>, cfip: real, window: int) returns (rolling: seq<Rolling>)
    ensures |rolling| == |games|
    ensures forall i :: 0 <= i < |games| ==> rolling[i] == RollingAt(games, cfip, window, i)
  {
    rolling := [];
    var i := 0;
    while i < |games|
      invariant 0 <= i <= |games|
      invariant |rolling| == i
      invariant forall j :: 0 <= j < i ==> rolling[j] == RollingAt(games, cfip, window, j)
    {
      var prior := Prior(games, i, window);
      var entry;
      if |prior| == 0 {
        entry := Rolling(games[i].date, None, 0);
      } else {
        var totalIp := SumOf(prior, StartIp);
        if totalIp <= 0.0 {
          entry := Rolling(games[i].date, None, |prior|);
        } else {
          var fip := SumOf(prior, StartNumerator) / totalIp + cfip;
          entry := Rolling(games[i].date, Some(Round(fip, 2)), |prior|);
        }
      }
      rolling := rolling + [entry];
      i := i + 1;
    }
  }

  /** No lookahead: the entry of start `i` depends only on that start's
    * date and the starts before it. */
  lemma RollingNoLookahead(games: seq<Start>, other: seq<Start>, cfip: real, window: int, i: int)
    requires 0 <= i < |games| && i < |other|
    requires games[..i] == other[..i] && games[i].date == other[i].date
    ensures RollingAt(games, cfip, window, i) == RollingAt(other, cfip, window, i)
  {
    var lo := WindowStart(i, window);
    if lo <= i {
      assert games[lo..i] == games[..i][lo..];
      assert other[lo..i] == other[..i][lo..];
    }
  }

  /** The window holds the last `window` starts, or all earlier starts when
    * there are fewer; the first start never has a FIP. */
  lemma RollingWindow(games: seq<Start>, cfip: real, window: int, i: int)
    requires 0 <= i < |games|
    ensures window >= 0 ==> RollingAt(games, cfip, window, i).startsInWindow == (if i < window then i else window)
    ensures window >= 0 ==> Prior(games, i, window) == games[i - RollingAt(games, cfip, window, i).startsInWindow..i]
    ensures window < 0 ==> RollingAt(games, cfip, window, i).startsInWindow == 0
    ensures i == 0 ==> RollingAt(games, cfip, window, i).rollingFip == None
  {
  }

  /** A window whose starts all have innings always yields a FIP, within
    * half a hundredth of the window's unrounded FIP. */
  lemma RollingValue(games: seq<Start>, cfip: real, window: int, i: int)
    requires 0 <= i < |games|
    requires forall j :: 0 <= j < |games| ==> games[j].ip > 0.0
    requires |Prior(games, i, window)| > 0
    ensures SumOf(Prior(games, i, window), StartIp) > 0.0
    ensures RollingAt(games, cfip, window, i).rollingFip.Some?
    ensures var f := RollingAt(games, cfip, window, i).rollingFip.value;
      -0.005 <= f - WindowFip(Prior(games, i, window), cfip) <= 0.005
  {
    var prior := Prior(games, i, window);
    assert forall j :: 0 <= j < |prior| ==> prior[j].ip > 0.0;
    PositiveTotal(prior);
    RoundError(WindowFip(prior, cfip), 2);
  }

  lemma {:induction false} PositiveTotal(s: seq<Start>)
    requires |s| > 0 && forall j :: 0 <= j < |s| ==> s[j].ip > 0.0
    ensures SumOf(s, StartIp) > 0.0
  {
    SumOfNonNegative(s[..|s| - 1], StartIp);
  }

  // Bullpen FIP.

  /** `games_started < 5` and at least five innings. */
  predicate IsReliever(r: FipFileRow)
  {
    !(r.gamesStarted >= 5 || r.ip < 5.0)
  }

  /** The relievers of a team, in file order. */
  function Relievers(rows: seq<FipFileRow>, team: string): (rel: seq<FipFileRow>)
    ensures |rel| <= |rows|
    ensures forall j :: 0 <= j < |rel| ==> IsReliever(rel[j]) && rel[j].team == team
  {
    if |rows| == 0 then []
    else
      var r := rows[|rows| - 1];
      Relievers(rows[..|rows| - 1], team) + (if IsReliever(r) && r.team == team then [r] else [])
  }

  /** One row of the bullpen table. */
  datatype BullpenRow = BullpenRow(team: string, bullpenFip: real, bullpenIp: real, numRelievers: nat)

  /** A team's row: FIP over its relievers' totals to two decimals, innings
    * to one; no row when the relievers have no innings. */
  function BullpenRowOf(team: string, rel: seq<FipFileRow>, cfip: real): Option<BullpenRow>
  {
    var total := SumOf(rel, RowIp);
    if total <= 0.0 then None
    else Some(BullpenRow(team, Round(SumOf(rel, RowNumerator) / total + cfip, 2), Round(total, 1), |rel|))
  }

  /** The grouping loop so far: the teams with a reliever, each with its
    * relievers in file order. */
  ghost predicate GroupedUpTo(groups: map<string, seq<FipFileRow>>, rows: seq<FipFileRow>)
  {
    (forall t :: t in groups <==> Relievers(rows, t) != []) &&
    (forall t :: t in groups ==> groups[t] == Relievers(rows, t))
  }

  lemma RelieversStep(rows: seq<FipFileRow>, i: nat, team: string)
    requires i < |rows|
    ensures Relievers(rows[..i + 1], team) ==
      Relievers(rows[..i], team) + (if IsReliever(rows[i]) && rows[i].team == team then [rows[i]] else [])
  {
    assert rows[..i + 1][..i] == rows[..i];
  }

  method GroupRelievers(rows: seq<FipFileRow>) returns (groups: map<string, seq<FipFileRow>>)
    ensures GroupedUpTo(groups, rows)
  {
    groups := map[];
    var i := 0;
    while i < |rows|
      invariant 0 <= i <= |rows|
      invariant GroupedUpTo(groups, rows[..i])
    {
      var r := rows[i];
      forall t ensures Relievers(rows[..i + 1], t) ==
        Relievers(rows[..i], t) + (if IsReliever(r) && r.team == t then [r] else [])
      {
        RelieversStep(rows, i, t);
      }
      if IsReliever(r) {
        var prev := if r.team in groups then groups[r.team] else [];
        groups := groups[r.team := prev + [r]];
      }
      i := i + 1;
    }
    assert rows[..i] == rows;
  }

  /** A reliever has at least five innings, so a team with relievers always
    * has positive bullpen innings. */
  lemma {:induction false} RelieverInnings(rel: seq<FipFileRow>)
    requires |rel| > 0 && forall j :: 0 <= j < |rel| ==> IsReliever(rel[j])
    ensures SumOf(rel, RowIp) >= 5.0
  {
    var n := |rel| - 1;
    assert rel[n].ip >= 5.0;
    forall j | 0 <= j < n ensures rel[..n][j].ip >= 0.0 {
      assert IsReliever(rel[j]);
    }
    SumOfNonNegative(rel[..n], RowIp);
  }

  /** The second loop of `compute_bullpen_fip`: a row per listed team. */
  method TeamRows(teams: seq<string>, groups: map<string, seq<FipFileRow>>, ghost rows: seq<FipFileRow>, cfip: real)
    returns (results: seq<BullpenRow>)
    requires forall j :: 0 <= j < |teams| ==> teams[j] in groups
    requires GroupedUpTo(groups, rows)
    ensures |results| == |teams|
    ensures forall j :: 0 <= j < |teams| ==> results[j].team == teams[j]
    ensures forall j :: 0 <= j < |teams| ==> Some(results[j]) == BullpenRowOf(teams[j], Relievers(rows, teams[j]), cfip)
  {
    results := [];
    var i := 0;
    while i < |teams|
      invariant 0 <= i <= |teams|
      invariant |results| == i
      invariant forall j :: 0 <= j < i ==> results[j].team == teams[j]
      invariant forall j :: 0 <= j < i ==> Some(results[j]) == BullpenRowOf(teams[j], Relievers(rows, teams[j]), cfip)
    {
      var team := teams[i];
      var rel := groups[team];
      RelieverInnings(rel);
      var row := BullpenRowOf(team, rel, cfip);
      results := results + [row.value];
      i := i + 1;
    }
  }

  /** `compute_bullpen_fip`: relievers grouped by team, one row per team in
    * ascending team order. */
  method ComputeBullpenFip(rows: seq<FipFileRow>, cfip: real) returns (results: seq<BullpenRow>)
    ensures forall i, j :: 0 <= i < j < |results| ==> Sorting.LexLe(results[i].team, results[j].team) && results[i].team != results[j].team
    ensures forall t :: (exists i :: 0 <= i < |results| && results[i].team == t) <==> Relievers(rows, t) != []
    ensures forall i :: 0 <= i < |results| ==> Some(results[i]) == BullpenRowOf(results[i].team, Relievers(rows, results[i].team), cfip)
  {
    var groups := GroupRelievers(rows);
    var teams := Sorting.SortedSet(groups.Keys);
    results := TeamRows(teams, groups, rows, cfip);
    assert forall i, j :: 0 <= i < j < |teams| ==> Sorting.LexLe(teams[i], teams[j]) && teams[i] != teams[j];
    forall t ensures (exists i :: 0 <= i < |results| && results[i].team == t) <==> Relievers(rows, t) != [] {
      if Relievers(rows, t) != [] {
        var i :| 0 <= i < |teams| && teams[i] == t;
        assert results[i].team == t;
      }
    }
  }

  /** The published bullpen FIP of a team is its relievers' innings-weighted
    * FIP against the constant, within rounding, and its innings are their
    * total to one decimal. */
  lemma BullpenRowValue(team: string, rel: seq<FipFileRow>, cfip: real)
    requires |rel| > 0 && forall j :: 0 <= j < |rel| ==> IsReliever(rel[j])
    ensures BullpenRowOf(team, rel, cfip).Some?
    ensures var row := BullpenRowOf(team, rel, cfip).value;
      row.team == team && row.numRelievers == |rel| &&
      -0.005 <= row.bullpenFip - (SumOf(rel, RowNumerator) / SumOf(rel, RowIp) + cfip) <= 0.005 &&
      -0.05 <= row.bullpenIp - SumOf(rel, RowIp) <= 0.05
  {
    RelieverInnings(rel);
    RoundError(SumOf(rel, RowNumerator) / SumOf(rel, RowIp) + cfip, 2);
    RoundError(SumOf(rel, RowIp), 1);
  }

  // The season run.

  /** A row of the rolling-FIP file. */
  datatype RollingRow = RollingRow(pitcherId: int, date: string, rollingFip: real, startsInWindow: nat)

  /** The pitchers whose logs are fetched: three or more starts in the FIP
    * file. */
  function StarterIds(rows: seq<FipFileRow>): set<int>
  {
    set i | 0 <= i < |rows| && rows[i].gamesStarted >= 3 :: rows[i].pitcherId
  }

  /** The entries of one pitcher that reach the file: those with a FIP. */
  function WrittenOf(pid: int, rolling: seq<Rolling>): (out: seq<RollingRow>)
    ensures |out| <= |rolling|
    ensures forall j :: 0 <= j < |out| ==> out[j].pitcherId == pid
  {
    if |rolling| == 0 then []
    else
      var e := rolling[|rolling| - 1];
      WrittenOf(pid, rolling[..|rolling| - 1]) +
        (if e.rollingFip.Some? then [RollingRow(pid, e.date, e.rollingFip.value, e.startsInWindow)] else [])
  }

  /** All rolling entries of a log, as `compute_rolling_fip` lists them. */
  function RollingOf(games: seq<Start>, cfip: real): (r: seq<Rolling>)
    ensures |r| == |games|
  {
    seq(|games|, i requires 0 <= i < |games| => RollingAt(games, cfip, ROLLING_WINDOW, i))
  }

  /** The rolling-FIP file: the pitchers in ascending id order, each with the
    * entries of their fetched log that have a FIP. */
  function RollingFile(ids: seq<int>, fetchLog: int -> seq<LogEntry>, cfip: real): seq<RollingRow>
  {
    if |ids| == 0 then []
    else
      var n := |ids| - 1;
      RollingFile(ids[..n], fetchLog, cfip) + WrittenOf(ids[n], RollingOf(GameLog(fetchLog(ids[n])), cfip))
  }

  lemma WrittenStep(pid: int, rolling: seq<Rolling>, i: nat)
    requires i < |rolling|
    ensures WrittenOf(pid, rolling[..i + 1]) == WrittenOf(pid, rolling[..i]) +
      (if rolling[i].rollingFip.Some? then [RollingRow(pid, rolling[i].date, rolling[i].rollingFip.value, rolling[i].startsInWindow)] else [])
  {
    assert rolling[..i + 1][..i] == rolling[..i];
  }

  /** The write step for one pitcher: append the entries that have a FIP. */
  method AppendWritten(pid: int, rolling: seq<Rolling>, acc: seq<RollingRow>) returns (out: seq<RollingRow>)
    ensures out == acc + WrittenOf(pid, rolling)
  {
    out := acc;
    var i := 0;
    while i < |rolling|
      invariant 0 <= i <= |rolling|
      invariant out == acc + WrittenOf(pid, rolling[..i])
    {
      WrittenStep(pid, rolling, i);
      var e := rolling[i];
      if e.rollingFip.Some? {
        out := out + [RollingRow(pid, e.date, e.rollingFip.value, e.startsInWindow)];
      }
      i := i + 1;
    }
    assert rolling[..i] == rolling;
  }

  /** One pitcher of the season loop: fetch the log and, when it has
    * starts, append its rolling entries that have a FIP. */
  method AddPitcher(pid: int, entries: seq<LogEntry>, cfip: real, written: seq<RollingRow>) returns (out: seq<RollingRow>)
    ensures out == written + WrittenOf(pid, RollingOf(GameLog(entries), cfip))
  {
    var games := FetchGameLog(entries);
    if |games| > 0 {
      var rolling := ComputeRollingFip(games, cfip, ROLLING_WINDOW);
      assert rolling == RollingOf(games, cfip);
      out := AppendWritten(pid, rolling, written);
    } else {
      out := written;
    }
  }

  /** The loop of `process_season` over the pitcher ids, with the write of
    * the entries that have a FIP. */
  method RollingRows(ids: seq<int>, fetchLog: int -> seq<LogEntry>, cfip: real) returns (written: seq<RollingRow>)
    ensures written == RollingFile(ids, fetchLog, cfip)
  {
    written := [];
    var k := 0;
    while k < |ids|
      invariant 0 <= k <= |ids|
      invariant written == RollingFile(ids[..k], fetchLog, cfip)
    {
      assert ids[..k + 1][..k] == ids[..k];
      written := AddPitcher(ids[k], fetchLog(ids[k]), cfip, written);
      k := k + 1;
    }
    assert ids[..k] == ids;
  }

  /** The ids in ascending order, each once. */
  ghost predicate Ascending(ids: seq<int>, members: set<int>)
  {
    (forall i, j :: 0 <= i < j < |ids| ==> ids[i] < ids[j]) && (forall x :: x in ids <==> x in members)
  }

  /** The bullpen table of a FIP file against a constant. */
  ghost predicate BullpenTable(results: seq<BullpenRow>, rows: seq<FipFileRow>, cfip: real)
  {
    (forall i, j :: 0 <= i < j < |results| ==> Sorting.LexLe(results[i].team, results[j].team) && results[i].team != results[j].team) &&
    (forall t :: (exists i :: 0 <= i < |results| && results[i].team == t) <==> Relievers(rows, t) != []) &&
    (forall i :: 0 <= i < |results| ==> Some(results[i]) == BullpenRowOf(results[i].team, Relievers(rows, results[i].team), cfip))
  }

  /** `process_season` once the FIP file is read: the constant (the script
    * stops when the file has no innings), then the rolling-FIP rows of
    * every pitcher with three or more starts, in id order, and the bullpen
    * table. */
  method ProcessSeason(rows: seq<FipFileRow>, fetchLog: int -> seq<LogEntry>)
    returns (result: Result<(real, seq<RollingRow>, seq<BullpenRow>)>)
    ensures result.Err? <==> SumOf(rows, RowIp) == 0.0
    ensures result.Ok? ==> Ok(result.value.0) == SeasonConstant(rows)
    ensures result.Ok? ==> exists ids :: (Ascending(ids, StarterIds(rows)) &&
              result.value.1 == RollingFile(ids, fetchLog, result.value.0))
    ensures result.Ok? ==> BullpenTable(result.value.2, rows, result.value.0)
  {
    var c := SeasonConstant(rows);
    if c.Err? {
      return Err(c.error);
    }
    var cfip := c.value;
    var ids := Sorting.SortedInts(StarterIds(rows));
    var written := RollingRows(ids, fetchLog, cfip);
    assert Ascending(ids, StarterIds(rows));
    var bullpen := ComputeBullpenFip(rows, cfip);
    result := Ok((cfip, written, bullpen));
  }

  /** Every row of the rolling file belongs to a listed pitcher, had at
    * least one earlier start in its window and at most seven. */
  lemma {:induction false} RollingFileRows(ids: seq<int>, fetchLog: int -> seq<LogEntry>, cfip: real)
    ensures forall j :: 0 <= j < |RollingFile(ids, fetchLog, cfip)| ==>
      RollingFile(ids, fetchLog, cfip)[j].pitcherId in ids &&
      1 <= RollingFile(ids, fetchLog, cfip)[j].startsInWindow <= ROLLING_WINDOW
    decreases |ids|
  {
    if |ids| > 0 {
      var n := |ids| - 1;
      RollingFileRows(ids[..n], fetchLog, cfip);
      var games := GameLog(fetchLog(ids[n]));
      WrittenWindow(ids[n], games, cfip, |games|);
      assert RollingOf(games, cfip)[..|games|] == RollingOf(games, cfip);
      var prev: seq<RollingRow> := RollingFile(ids[..n], fetchLog, cfip);
      var last: seq<RollingRow> := WrittenOf(ids[n], RollingOf(games, cfip));
      forall j | 0 <= j < |prev + last|
        ensures (prev + last)[j].pitcherId in ids && 1 <= (prev + last)[j].startsInWindow <= ROLLING_WINDOW
      {
        if j < |prev| {
          assert prev[j].pitcherId in ids[..n];
        }
      }
    }
  }

  lemma {:induction false} WrittenWindow(pid: int, games: seq<Start>, cfip: real, m: nat)
    requires m <= |games|
    ensures forall j :: 0 <= j < |WrittenOf(pid, RollingOf(games, cfip)[..m])| ==>
      1 <= WrittenOf(pid, RollingOf(games, cfip)[..m])[j].startsInWindow <= ROLLING_WINDOW
    decreases m
  {
    if m > 0 {
      var r := RollingOf(games, cfip);
      WrittenWindow(pid, games, cfip, m - 1);
      WrittenStep(pid, r, m - 1);
      RollingWindow(games, cfip, ROLLING_WINDOW, m - 1);
    }
  }
}
