/** The schedule sync job: every regular-season game of the season feed
  * becomes one CSV row, scores of final games missing from the feed are
  * fetched again from the live game feed, and a game listed on several
  * dates is written once. The feeds are parameters. */
module ScheduleSync {
  import opened Wrappers
  import Decimal

  /** A cell of the CSV file; `Blank` is what the writer prints for `None`
    * and for the empty string default. */
  datatype Cell = Text(s: string) | Int(n: int) | Blank

  /** A game of the hydrated schedule feed. Every optional field is `None`
    * when the feed leaves it out; `hasTeams` says whether the feed has the
    * `teams` object with a `team` for both sides, which the row reads by
    * subscript. */
  datatype Game = Game(gamePk: int, gameType: Option<string>, status: Option<string>, hasTeams: bool,
                       homeTeam: Option<string>, awayTeam: Option<string>,
                       homeScore: Option<int>, awayScore: Option<int>, venue: Option<string>,
                       homePitcherId: Option<int>, homePitcherName: Option<string>,
                       awayPitcherId: Option<int>, awayPitcherName: Option<string>)

  /** A date of the feed with its games. */
  datatype Block = Block(date: Option<string>, games: seq<Game>)

  /** What the live game feed answers for a game: the home and away runs,
    * `None` where it has none (a failed request answers `None` for both). */
  type Backfill = int -> (Option<int>, Option<int>)

  const CSV_FIELDS: seq<string> := [
    "date", "gamePk", "status", "homeTeam", "awayTeam",
    "homeScore", "awayScore", "venueName",
    "homeStartingPitcherId", "homeStartingPitcherName",
    "awayStartingPitcherId", "awayStartingPitcherName"]

  function TextCell(v: Option<string>): Cell
  {
    match v
    case Some(s) => Text(s)
    case None => Blank
  }

  function IntCell(v: Option<int>): Cell
  {
    match v
    case Some(n) => Int(n)
    case None => Blank
  }

  predicate IsFinal(g: Game) { g.status == Some("Final") }

  predicate MissingScore(home: Option<int>, away: Option<int>) { home.None? || away.None? }

  /** A backfilled value replaces the feed's only when it is present. */
  function Prefer(backfilled: Option<int>, feed: Option<int>): (r: Option<int>)
    ensures backfilled.Some? ==> r == backfilled
    ensures backfilled.None? ==> r == feed
  {
    if backfilled.Some? then backfilled else feed
  }

  /** The scores the row is written with: for a final game missing a score,
    * the live feed's values where it has them. */
  function Scores(g: Game, backfill: Backfill): (Option<int>, Option<int>)
  {
    if IsFinal(g) && MissingScore(g.homeScore, g.awayScore) then
      var (bhs, bas) := backfill(g.gamePk);
      (Prefer(bhs, g.homeScore), Prefer(bas, g.awayScore))
    else (g.homeScore, g.awayScore)
  }

  /** The twelve cells of a game, one per column of the header, or `None`
    * for a final game still missing a score after the backfill. */
  function GameRow(g: Game, date: Option<string>, backfill: Backfill): (r: Option<seq<Cell>>)
    ensures r.Some? ==> |r.value| == |CSV_FIELDS|
  {
    var (home, away) := Scores(g, backfill);
    if IsFinal(g) && MissingScore(home, away) then None
    else
      Some([TextCell(date), Text(Decimal.Show(g.gamePk)), TextCell(g.status), TextCell(g.homeTeam),
            TextCell(g.awayTeam), IntCell(home), IntCell(away), Text(g.venue.GetOr("")),
            IntCell(g.homePitcherId), TextCell(g.homePitcherName),
            IntCell(g.awayPitcherId), TextCell(g.awayPitcherName)])
  }

  /** `extract_game_row`: one cell per column of the header. A game without
    * its teams raises `KeyError`. */
  function ExtractGameRow(g: Game, date: Option<string>, backfill: Backfill): (r: Result<Option<seq<Cell>>>)
    ensures r.Err? <==> !g.hasTeams
    ensures r.Ok? && r.value.Some? ==> |r.value.value| == |CSV_FIELDS|
  {
    if !g.hasTeams then Err("KeyError: 'teams'") else Ok(GameRow(g, date, backfill))
  }

  /** A game without its teams raises; otherwise it is dropped exactly when
    * it is final and a score is still missing once the live feed has been
    * asked. */
  lemma ExtractSkips(g: Game, date: Option<string>, backfill: Backfill)
    ensures ExtractGameRow(g, date, backfill).Err? <==> !g.hasTeams
    ensures ExtractGameRow(g, date, backfill) == Ok(None) <==>
      g.hasTeams && IsFinal(g) && MissingScore(Scores(g, backfill).0, Scores(g, backfill).1)
  {
  }

  /** A score the feed has is never replaced by a missing backfill, and a
    * game that is not final is never backfilled. */
  lemma ScoresKept(g: Game, backfill: Backfill)
    ensures g.homeScore.Some? ==> Scores(g, backfill).0.Some?
    ensures g.awayScore.Some? ==> Scores(g, backfill).1.Some?
    ensures !IsFinal(g) ==> Scores(g, backfill) == (g.homeScore, g.awayScore)
    ensures !MissingScore(g.homeScore, g.awayScore) ==> Scores(g, backfill) == (g.homeScore, g.awayScore)
  {
  }

  /** The row's cells under their column names: the date, the decimal game
    * id, the scores (blank only for a game that is not final), the venue. */
  lemma RowColumns(g: Game, date: Option<string>, backfill: Backfill)
    requires GameRow(g, date, backfill).Some?
    ensures var row := GameRow(g, date, backfill).value;
      CSV_FIELDS[0] == "date" && row[0] == TextCell(date) &&
      CSV_FIELDS[1] == "gamePk" && row[1] == Text(Decimal.Show(g.gamePk)) &&
      CSV_FIELDS[5] == "homeScore" && row[5] == IntCell(Scores(g, backfill).0) &&
      CSV_FIELDS[6] == "awayScore" && row[6] == IntCell(Scores(g, backfill).1) &&
      CSV_FIELDS[7] == "venueName" && row[7] == Text(g.venue.GetOr(""))
    ensures var row := GameRow(g, date, backfill).value;
      IsFinal(g) ==> row[5].Int? && row[6].Int?
  {
  }

  // The de-duplicating loop of the handler, over the games of all dates in order.

  /** A game with the date of its block. */
  datatype Entry = Entry(date: Option<string>, game: Game)

  function BlockEntries(b: Block): (es: seq<Entry>)
    ensures |es| == |b.games|
    ensures forall i :: 0 <= i < |es| ==> es[i] == Entry(b.date, b.games[i])
  {
    seq(|b.games|, i requires 0 <= i < |b.games| => Entry(b.date, b.games[i]))
  }

  /** All games of the feed, date after date. */
  function Entries(blocks: seq<Block>): seq<Entry>
  {
    if |blocks| == 0 then [] else Entries(blocks[..|blocks| - 1]) + BlockEntries(blocks[|blocks| - 1])
  }

  predicate IsRegular(g: Game) { g.gameType == Some("R") }

  /** The loop state: the game ids seen, as strings, and the rows written. */
  datatype Sync = Sync(seen: set<string>, rows: seq<seq<Cell>>)

  /** One game of the loop: skip it unless it is a regular-season game not
    * seen before; otherwise remember its id and write its row if it has
    * one. A raised error ends the loop. */
  function Step(st: Result<Sync>, e: Entry, backfill: Backfill): Result<Sync>
  {
    if st.Err? then st
    else
      var pk := Decimal.Show(e.game.gamePk);
      if !IsRegular(e.game) || pk in st.value.seen then st
      else
        match ExtractGameRow(e.game, e.date, backfill)
        case Err(msg) => Err(msg)
        case Ok(Some(row)) => Ok(Sync(st.value.seen + {pk}, st.value.rows + [row]))
        case Ok(None) => Ok(Sync(st.value.seen + {pk}, st.value.rows))
  }

  function Run(es: seq<Entry>, backfill: Backfill): Result<Sync>
  {
    if |es| == 0 then Ok(Sync({}, [])) else Step(Run(es[..|es| - 1], backfill), es[|es| - 1], backfill)
  }

  /** Entry `k` is the first regular-season listing of its game. */
  predicate FirstListing(es: seq<Entry>, k: int)
    requires 0 <= k < |es|
  {
    IsRegular(es[k].game) &&
    forall j :: 0 <= j < k && IsRegular(es[j].game) ==> es[j].game.gamePk != es[k].game.gamePk
  }

  /** Some game reaches `extract_game_row` without its teams. */
  predicate Fails(es: seq<Entry>)
  {
    exists k :: 0 <= k < |es| && FirstListing(es, k) && !es[k].game.hasTeams
  }

  /** The rows the handler writes, stated without the `seen` set: the row of
    * every first regular-season listing that has one, in feed order. */
  function Expected(es: seq<Entry>, backfill: Backfill): (rows: seq<seq<Cell>>)
    ensures forall k :: 0 <= k < |rows| ==> |rows[k]| == |CSV_FIELDS|
  {
    if |es| == 0 then []
    else
      var n := |es| - 1;
      var row := ExtractGameRow(es[n].game, es[n].date, backfill);
      Expected(es[..n], backfill) + (if FirstListing(es, n) && row.Ok? && row.value.Some? then [row.value.value] else [])
  }

  /** The ids seen are those of the regular-season games so far. */
  lemma {:induction false} RunSeen(es: seq<Entry>, backfill: Backfill)
    ensures Run(es, backfill).Ok? ==>
      Run(es, backfill).value.seen == set j | 0 <= j < |es| && IsRegular(es[j].game) :: Decimal.Show(es[j].game.gamePk)
    decreases |es|
  {
    if |es| > 0 && Run(es, backfill).Ok? {
      var n := |es| - 1;
      RunSeen(es[..n], backfill);
      var seen := Run(es, backfill).value.seen;
      var before := Run(es[..n], backfill).value.seen;
      var pk := Decimal.Show(es[n].game.gamePk);
      assert seen == if IsRegular(es[n].game) then before + {pk} else before;
      assert forall j :: 0 <= j < n ==> es[..n][j] == es[j];
    }
  }

  /** An id is new to the loop exactly when no earlier regular-season game
    * has the same game id: the string key `str(gamePk)` loses nothing. */
  lemma SeenIsFirst(es: seq<Entry>, backfill: Backfill, n: nat)
    requires n < |es| && IsRegular(es[n].game) && Run(es[..n], backfill).Ok?
    ensures Decimal.Show(es[n].game.gamePk) !in Run(es[..n], backfill).value.seen <==> FirstListing(es, n)
  {
    RunSeen(es[..n], backfill);
    var pk := es[n].game.gamePk;
    if Decimal.Show(pk) in Run(es[..n], backfill).value.seen {
      var j :| 0 <= j < n && IsRegular(es[..n][j].game) && Decimal.Show(es[..n][j].game.gamePk) == Decimal.Show(pk);
      Decimal.ShowInjective(es[..n][j].game.gamePk, pk);
      assert es[..n][j] == es[j];
    } else {
      forall j | 0 <= j < n && IsRegular(es[j].game) ensures es[j].game.gamePk != pk {
        assert es[..n][j] == es[j];
      }
    }
  }

  /** A first listing of a prefix is a first listing of the whole. */
  lemma FirstListingPrefix(es: seq<Entry>, n: nat, k: nat)
    requires k < n <= |es|
    ensures FirstListing(es[..n], k) <==> FirstListing(es, k)
  {
    assert forall j :: 0 <= j <= k ==> es[..n][j] == es[j];
  }

  /** Failing is decided by the prefix and the last entry. */
  lemma FailsSnoc(es: seq<Entry>)
    requires |es| > 0
    ensures var n := |es| - 1;
      Fails(es) <==> Fails(es[..n]) || (FirstListing(es, n) && !es[n].game.hasTeams)
  {
    var n := |es| - 1;
    if Fails(es[..n]) {
      var k :| 0 <= k < n && FirstListing(es[..n], k) && !es[..n][k].game.hasTeams;
      FirstListingPrefix(es, n, k);
      assert es[..n][k] == es[k];
    }
    if Fails(es) && !(FirstListing(es, n) && !es[n].game.hasTeams) {
      var k :| 0 <= k < |es| && FirstListing(es, k) && !es[k].game.hasTeams;
      FirstListingPrefix(es, n, k);
      assert es[..n][k] == es[k];
    }
  }

  /** The loop fails exactly when some game reaches `extract_game_row`
    * without its teams, and otherwise writes exactly the rows of the first
    * listings. */
  lemma {:induction false} RunRows(es: seq<Entry>, backfill: Backfill)
    ensures Run(es, backfill).Ok? <==> !Fails(es)
    ensures Run(es, backfill).Ok? ==> Run(es, backfill).value.rows == Expected(es, backfill)
    decreases |es|
  {
    if |es| > 0 {
      var n := |es| - 1;
      RunRows(es[..n], backfill);
      FailsSnoc(es);
      assert es[..n + 1] == es;
      if Run(es[..n], backfill).Ok? && IsRegular(es[n].game) {
        SeenIsFirst(es, backfill, n);
      }
    }
  }

  /** Each row written is the row of a regular-season game of the feed. */
  lemma {:induction false} ExpectedFrom(es: seq<Entry>, backfill: Backfill, k: nat)
    requires k < |Expected(es, backfill)|
    ensures exists j :: (0 <= j < |es| && FirstListing(es, j) &&
                         ExtractGameRow(es[j].game, es[j].date, backfill) == Ok(Some(Expected(es, backfill)[k])))
    decreases |es|
  {
    var n := |es| - 1;
    var rest := Expected(es[..n], backfill);
    if k < |rest| {
      ExpectedFrom(es[..n], backfill, k);
      var j :| 0 <= j < n && FirstListing(es[..n], j) &&
        ExtractGameRow(es[..n][j].game, es[..n][j].date, backfill) == Ok(Some(rest[k]));
      assert es[..n][j] == es[j];
      FirstListingPrefix(es, n, j);
    }
  }

  /** No game id is written twice. */
  lemma {:induction false} ExpectedDistinct(es: seq<Entry>, backfill: Backfill)
    ensures forall a, b :: 0 <= a < b < |Expected(es, backfill)| ==>
      Expected(es, backfill)[a][1] != Expected(es, backfill)[b][1]
    decreases |es|
  {
    if |es| > 0 {
      var n := |es| - 1;
      var rest := Expected(es[..n], backfill);
      ExpectedDistinct(es[..n], backfill);
      var row := ExtractGameRow(es[n].game, es[n].date, backfill);
      if FirstListing(es, n) && row.Ok? && row.value.Some? {
        var rows := Expected(es, backfill);
        assert rows == rest + [row.value.value];
        forall a | 0 <= a < |rest| ensures rest[a][1] != row.value.value[1] {
          ExpectedFrom(es[..n], backfill, a);
          var j :| 0 <= j < n && FirstListing(es[..n], j) &&
            ExtractGameRow(es[..n][j].game, es[..n][j].date, backfill) == Ok(Some(rest[a]));
          assert es[..n][j] == es[j];
          RowColumns(es[j].game, es[j].date, backfill);
          RowColumns(es[n].game, es[n].date, backfill);
          Decimal.ShowInjective(es[j].game.gamePk, es[n].game.gamePk);
        }
      }
    }
  }

  lemma EntriesSnoc(blocks: seq<Block>, b: nat)
    requires b < |blocks|
    ensures Entries(blocks[..b + 1]) == Entries(blocks[..b]) + BlockEntries(blocks[b])
  {
    assert blocks[..b + 1][..b] == blocks[..b];
  }

  lemma RunSnoc(es: seq<Entry>, e: Entry, backfill: Backfill)
    ensures Run(es + [e], backfill) == Step(Run(es, backfill), e, backfill)
  {
    assert (es + [e])[..|es|] == es;
  }

  /** Once raised, an error ends the loop whatever follows. */
  lemma {:induction false} RunErrSticky(es: seq<Entry>, more: seq<Entry>, backfill: Backfill)
    requires Run(es, backfill).Err?
    ensures Run(es + more, backfill).Err?
    decreases |more|
  {
    if |more| == 0 {
      assert es + more == es;
    } else {
      var m := |more| - 1;
      RunErrSticky(es, more[..m], backfill);
      assert es + more == (es + more[..m]) + [more[m]];
      RunSnoc(es + more[..m], more[m], backfill);
    }
  }

  /** The games of the first dates come first among the games of all. */
  lemma {:induction false} EntriesPrefix(blocks: seq<Block>, b: nat)
    requires b <= |blocks|
    ensures exists more :: Entries(blocks) == Entries(blocks[..b]) + more
    decreases |blocks| - b
  {
    if b == |blocks| {
      assert blocks[..b] == blocks;
      assert Entries(blocks) == Entries(blocks[..b]) + [];
    } else {
      EntriesPrefix(blocks, b + 1);
      EntriesSnoc(blocks, b);
      var more :| Entries(blocks) == Entries(blocks[..b + 1]) + more;
      assert Entries(blocks) == Entries(blocks[..b]) + (BlockEntries(blocks[b]) + more);
    }
  }

  /** One date's games taken in order from the state `st`. */
  function RunGames(st: Result<Sync>, date: Option<string>, games: seq<Game>, backfill: Backfill): Result<Sync>
  {
    if |games| == 0 then st
    else Step(RunGames(st, date, games[..|games| - 1], backfill), Entry(date, games[|games| - 1]), backfill)
  }

  lemma RunGamesSnoc(st: Result<Sync>, date: Option<string>, games: seq<Game>, k: nat, backfill: Backfill)
    requires k < |games|
    ensures RunGames(st, date, games[..k + 1], backfill) ==
            Step(RunGames(st, date, games[..k], backfill), Entry(date, games[k]), backfill)
  {
    assert games[..k + 1][..k] == games[..k];
  }

  /** Once a date's games raise, the rest of the date keeps the error. */
  lemma {:induction false} RunGamesErrSticky(st: Result<Sync>, date: Option<string>, games: seq<Game>, k: nat,
                                             backfill: Backfill)
    requires k <= |games| && RunGames(st, date, games[..k], backfill).Err?
    ensures RunGames(st, date, games, backfill).Err?
    decreases |games| - k
  {
    if k < |games| {
      RunGamesSnoc(st, date, games, k, backfill);
      RunGamesErrSticky(st, date, games, k + 1, backfill);
    } else {
      assert games[..k] == games;
    }
  }

  /** The run over the games before a date, then that date's first `k`
    * games, is that date's games taken from the earlier run's state. */
  lemma {:induction false} RunBlock(before: seq<Entry>, block: Block, k: nat, backfill: Backfill)
    requires k <= |block.games|
    ensures Run(before + BlockEntries(block)[..k], backfill) ==
            RunGames(Run(before, backfill), block.date, block.games[..k], backfill)
  {
    var es := BlockEntries(block);
    if k == 0 {
      assert before + es[..k] == before;
    } else {
      RunBlock(before, block, k - 1, backfill);
      AppendOneMore(before, es, k - 1);
      RunSnoc(before + es[..k - 1], es[k - 1], backfill);
      RunGamesSnoc(Run(before, backfill), block.date, block.games, k - 1, backfill);
    }
  }

  /** The inner loop of the handler over one date's games: a regular-season
    * game seen for the first time is marked seen, and its row is kept when
    * it has one; a game without its teams ends the loop with an error. */
  method SyncBlock(block: Block, backfill: Backfill, seen0: set<string>, rows0: seq<seq<Cell>>, count0: nat)
    returns (ok: bool, seen: set<string>, rows: seq<seq<Cell>>, count: nat)
    requires count0 == |rows0|
    ensures ok ==> Ok(Sync(seen, rows)) == RunGames(Ok(Sync(seen0, rows0)), block.date, block.games, backfill)
    ensures !ok ==> RunGames(Ok(Sync(seen0, rows0)), block.date, block.games, backfill).Err?
    ensures count == |rows|
  {
    seen, rows, count := seen0, rows0, count0;
    ghost var start := Ok(Sync(seen0, rows0));
    var g := 0;
    while g < |block.games|
      invariant 0 <= g <= |block.games|
      invariant Ok(Sync(seen, rows)) == RunGames(start, block.date, block.games[..g], backfill)
      invariant count == |rows|
    {
      RunGamesSnoc(start, block.date, block.games, g, backfill);
      ok, seen, rows, count := SyncGame(Entry(block.date, block.games[g]), backfill, seen, rows, count);
      if !ok {
        RunGamesErrSticky(start, block.date, block.games, g + 1, backfill);
        return;
      }
      g := g + 1;
    }
    assert block.games[..g] == block.games;
    ok := true;
  }

  /** One game of the inner loop; `ok` is false when it raised. */
  method SyncGame(e: Entry, backfill: Backfill, seen0: set<string>, rows0: seq<seq<Cell>>, count0: nat)
    returns (ok: bool, seen: set<string>, rows: seq<seq<Cell>>, count: nat)
    requires count0 == |rows0|
    ensures ok ==> Ok(Sync(seen, rows)) == Step(Ok(Sync(seen0, rows0)), e, backfill)
    ensures !ok ==> Step(Ok(Sync(seen0, rows0)), e, backfill).Err?
    ensures count == |rows|
  {
    seen, rows, count := seen0, rows0, count0;
    var pk := Decimal.Show(e.game.gamePk);
    if IsRegular(e.game) && pk !in seen {
      var row := ExtractGameRow(e.game, e.date, backfill);
      if row.Err? {
        return false, seen, rows, count;
      }
      seen := seen + {pk};
      if row.value.Some? {
        rows := rows + [row.value.value];
        count := count + 1;
      }
    }
    ok := true;
  }

  lemma AppendOneMore<T>(before: seq<T>, s: seq<T>, k: nat)
    requires k < |s|
    ensures before + s[..k + 1] == (before + s[..k]) + [s[k]]
  {
    assert s[..k + 1] == s[..k] + [s[k]];
  }

  /** `lambda_handler`: on a failed feed fetch, or when a game reaches
    * `extract_game_row` without its teams, status 500; otherwise the
    * header row then one row per first regular-season listing, the number
    * of dates and the number of games written, with status 200. */
  method LambdaHandler(fetched: Result<seq<Block>>, backfill: Backfill)
    returns (statusCode: int, days: nat, gameCount: nat, csv: seq<seq<Cell>>)
    ensures fetched.Err? ==> statusCode == 500 && csv == []
    ensures fetched.Ok? && Fails(Entries(fetched.value)) ==> statusCode == 500 && csv == []
    ensures fetched.Ok? && !Fails(Entries(fetched.value)) ==> statusCode == 200 && days == |fetched.value|
    ensures fetched.Ok? && !Fails(Entries(fetched.value)) ==>
      csv == [Header()] + Expected(Entries(fetched.value), backfill) && gameCount == |csv| - 1
  {
    if fetched.Err? {
      return 500, 0, 0, [];
    }
    var blocks := fetched.value;
    days := |blocks|;
    var seen: set<string> := {};
    var rows: seq<seq<Cell>> := [];
    gameCount := 0;
    var b := 0;
    while b < |blocks|
      invariant 0 <= b <= |blocks|
      invariant Ok(Sync(seen, rows)) == Run(Entries(blocks[..b]), backfill)
      invariant gameCount == |rows|
    {
      EntriesSnoc(blocks, b);
      RunBlock(Entries(blocks[..b]), blocks[b], |blocks[b].games|, backfill);
      assert BlockEntries(blocks[b])[..|blocks[b].games|] == BlockEntries(blocks[b]);
      assert blocks[b].games[..|blocks[b].games|] == blocks[b].games;
      var ok;
      ok, seen, rows, gameCount := SyncBlock(blocks[b], backfill, seen, rows, gameCount);
      if !ok {
        EntriesPrefix(blocks, b + 1);
        var more :| Entries(blocks) == Entries(blocks[..b + 1]) + more;
        RunErrSticky(Entries(blocks[..b + 1]), more, backfill);
        RunRows(Entries(blocks), backfill);
        return 500, 0, 0, [];
      }
      b := b + 1;
    }
    assert blocks[..b] == blocks;
    RunRows(Entries(blocks), backfill);
    csv := [Header()] + rows;
    statusCode := 200;
  }

  /** Text cells for the given names, in order. */
  function TextCells(names: seq<string>): (h: seq<Cell>)
    ensures |h| == |names|
    ensures forall i :: 0 <= i < |h| ==> h[i] == Text(names[i])
  {
    if |names| == 0 then [] else TextCells(names[..|names| - 1]) + [Text(names[|names| - 1])]
  }

  /** The header row: the column names. */
  function Header(): (h: seq<Cell>)
    ensures |h| == |CSV_FIELDS|
    ensures forall i :: 0 <= i < |h| ==> h[i] == Text(CSV_FIELDS[i])
  {
    TextCells(CSV_FIELDS)
  }
}
