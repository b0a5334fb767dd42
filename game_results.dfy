/** The daily game-results job: each Orioles game of yesterday and of today
  * becomes a stored item, with the result fields added once the game is
  * final. The schedule feed and the table writes are parameters. */
module GameResults {
  import opened Wrappers
  import Decimal

  /** A value of a stored item. */
  datatype Value = Str(s: string) | Num(n: int)

  /** The fields an item can have. */
  datatype Field =
    | Id | HomeTeam | AwayTeam | Date | Datetime | Venue | Status
    | WinningTeam | LosingTeam | AwayScore | HomeScore | WinningPitcher | LosingPitcher | SavePitcher

  /** The name each field is stored under. */
  function FieldName(f: Field): string
  {
    match f
    case Id => "id"
    case HomeTeam => "home_team"
    case AwayTeam => "away_team"
    case Date => "date"
    case Datetime => "datetime"
    case Venue => "venue"
    case Status => "status"
    case WinningTeam => "winning_team"
    case LosingTeam => "losing_team"
    case AwayScore => "away_score"
    case HomeScore => "home_score"
    case WinningPitcher => "winning_pitcher"
    case LosingPitcher => "losing_pitcher"
    case SavePitcher => "save_pitcher"
  }

  type Item = map<Field, Value>

  /** A game of the schedule feed; the result fields are `None` when the
    * feed leaves them out. */
  datatype Game = Game(gameId: int, homeName: string, awayName: string, gameDate: string, gameDatetime: string,
                       venueName: string, status: string,
                       winningTeam: Option<string>, losingTeam: Option<string>,
                       awayScore: Option<int>, homeScore: Option<int>,
                       winningPitcher: Option<string>, losingPitcher: Option<string>, savePitcher: Option<string>)

  /** The fields every item has. */
  const BASE_KEYS: set<Field> := {Id, HomeTeam, AwayTeam, Date, Datetime, Venue, Status}

  /** The fields a final game adds. */
  const RESULT_KEYS: set<Field> := {WinningTeam, LosingTeam, AwayScore, HomeScore, WinningPitcher, LosingPitcher, SavePitcher}

  /** `game.get(key, default)` for a text field. */
  function TextOr(v: Option<string>, default: string): Value
  {
    Str(v.GetOr(default))
  }

  /** `game.get(key, default)` for a score. */
  function ScoreOr(v: Option<int>, default: int): Value
  {
    Num(v.GetOr(default))
  }

  predicate IsFinal(g: Game) { g.status == "Final" }

  /** `build_game_item`: the base fields, and for a final game the result
    * fields with "" or 0 for what the feed leaves out. */
  function BuildGameItem(g: Game): Item
  {
    var base := map[Id := Str(Decimal.Show(g.gameId)), HomeTeam := Str(g.homeName), AwayTeam := Str(g.awayName),
                    Date := Str(g.gameDate), Datetime := Str(g.gameDatetime), Venue := Str(g.venueName),
                    Status := Str(g.status)];
    if IsFinal(g) then
      base + map[WinningTeam := TextOr(g.winningTeam, ""), LosingTeam := TextOr(g.losingTeam, ""),
                 AwayScore := ScoreOr(g.awayScore, 0), HomeScore := ScoreOr(g.homeScore, 0),
                 WinningPitcher := TextOr(g.winningPitcher, ""), LosingPitcher := TextOr(g.losingPitcher, ""),
                 SavePitcher := TextOr(g.savePitcher, "")]
    else base
  }

  /** The two field groups are disjoint, of seven fields each. */
  lemma KeyCounts()
    ensures |BASE_KEYS| == 7 && |RESULT_KEYS| == 7 && BASE_KEYS !! RESULT_KEYS
    ensures |BASE_KEYS + RESULT_KEYS| == 14
  {
  }

  /** A final game's item has the fourteen fields; any other item has
    * exactly the seven base fields. */
  lemma ItemFields(g: Game)
    ensures IsFinal(g) ==> BuildGameItem(g).Keys == BASE_KEYS + RESULT_KEYS
    ensures !IsFinal(g) ==> BuildGameItem(g).Keys == BASE_KEYS
  {
  }

  /** A final game's result fields hold the feed's value, or "" or 0 when
    * the feed has none. */
  lemma ItemDefaults(g: Game)
    requires IsFinal(g)
    ensures BuildGameItem(g)[WinningTeam] == (if g.winningTeam.Some? then Str(g.winningTeam.value) else Str(""))
    ensures BuildGameItem(g)[LosingTeam] == (if g.losingTeam.Some? then Str(g.losingTeam.value) else Str(""))
    ensures BuildGameItem(g)[HomeScore] == (if g.homeScore.Some? then Num(g.homeScore.value) else Num(0))
    ensures BuildGameItem(g)[AwayScore] == (if g.awayScore.Some? then Num(g.awayScore.value) else Num(0))
    ensures BuildGameItem(g)[WinningPitcher] == (if g.winningPitcher.Some? then Str(g.winningPitcher.value) else Str(""))
    ensures BuildGameItem(g)[LosingPitcher] == (if g.losingPitcher.Some? then Str(g.losingPitcher.value) else Str(""))
    ensures BuildGameItem(g)[SavePitcher] == (if g.savePitcher.Some? then Str(g.savePitcher.value) else Str(""))
  {
  }

  /** The item key is the decimal game id, so games with different ids are
    * stored under different keys, and the id can be read back. */
  lemma ItemIds(g: Game, h: Game)
    ensures Decimal.Read(BuildGameItem(g)[Id].s) == Some(g.gameId)
    ensures g.gameId != h.gameId ==> BuildGameItem(g)[Id] != BuildGameItem(h)[Id]
  {
    assert BuildGameItem(g)[Id] == Str(Decimal.Show(g.gameId));
    assert BuildGameItem(h)[Id] == Str(Decimal.Show(h.gameId));
    Decimal.ReadShow(g.gameId);
    Decimal.ShowInjective(g.gameId, h.gameId);
  }

  // The handler.

  /** The dates visited, as day numbers: yesterday, then today. */
  function Dates(today: int): seq<int>
  {
    [today - 1, today]
  }

  function Items(games: seq<Game>): (items: seq<Item>)
    ensures |items| == |games|
    ensures forall i :: 0 <= i < |games| ==> items[i] == BuildGameItem(games[i])
  {
    seq(|games|, i requires 0 <= i < |games| => BuildGameItem(games[i]))
  }

  /** The items the handler tries to store: those of every date whose
    * schedule fetch succeeded (`None` is a failed fetch), in date order. */
  function Attempted(dates: seq<int>, schedule: int -> Option<seq<Game>>): seq<Item>
  {
    if |dates| == 0 then []
    else
      var n := |dates| - 1;
      Attempted(dates[..n], schedule) + DateItems(schedule(dates[n]))
  }

  /** The items of one date's fetch: none when it failed. */
  function DateItems(fetched: Option<seq<Game>>): seq<Item>
  {
    match fetched
    case None => []
    case Some(games) => Items(games)
  }

  /** How many of `items` the table accepted. */
  function CountStored(items: seq<Item>, stored: Item -> bool): (c: nat)
    ensures c <= |items|
  {
    if |items| == 0 then 0
    else CountStored(items[..|items| - 1], stored) + (if stored(items[|items| - 1]) then 1 else 0)
  }

  /** The number of games the handler reports saved is the number of games
    * fetched when every write succeeds, and no write succeeding saves none. */
  lemma {:induction false} CountStoredBounds(items: seq<Item>, stored: Item -> bool)
    ensures (forall i :: 0 <= i < |items| ==> stored(items[i])) ==> CountStored(items, stored) == |items|
    ensures (forall i :: 0 <= i < |items| ==> !stored(items[i])) ==> CountStored(items, stored) == 0
    decreases |items|
  {
    if |items| > 0 {
      var n := |items| - 1;
      assert forall i :: 0 <= i < n ==> items[..n][i] == items[i];
      CountStoredBounds(items[..n], stored);
    }
  }

  /** Yesterday's items come first, then today's; a failed fetch adds
    * nothing for its date. */
  lemma AttemptedDates(today: int, schedule: int -> Option<seq<Game>>)
    ensures Attempted(Dates(today), schedule) == DateItems(schedule(today - 1)) + DateItems(schedule(today))
  {
    var dates := Dates(today);
    var yesterday, current := DateItems(schedule(today - 1)), DateItems(schedule(today));
    AttemptedSnoc(dates, schedule, 0);
    AttemptedSnoc(dates, schedule, 1);
    assert Attempted(dates[..0], schedule) == [];
    assert Attempted(dates[..1], schedule) == yesterday;
    assert dates[..2] == dates;
  }

  lemma CountStoredSnoc(items: seq<Item>, item: Item, stored: Item -> bool)
    ensures CountStored(items + [item], stored) == CountStored(items, stored) + (if stored(item) then 1 else 0)
  {
    assert (items + [item])[..|items|] == items;
  }

  lemma AttemptedSnoc(dates: seq<int>, schedule: int -> Option<seq<Game>>, i: nat)
    requires i < |dates|
    ensures Attempted(dates[..i + 1], schedule) == Attempted(dates[..i], schedule) + DateItems(schedule(dates[i]))
  {
    assert dates[..i + 1][..i] == dates[..i];
  }

  /** The inner loop of the handler: try to store each item in turn,
    * counting the writes that succeed. */
  method StoreGames(items: seq<Item>, stored: Item -> bool, written0: seq<Item>, saved0: nat)
    returns (written: seq<Item>, saved: nat)
    requires saved0 == CountStored(written0, stored)
    ensures written == written0 + items
    ensures saved == CountStored(written, stored)
  {
    written, saved := written0, saved0;
    var j := 0;
    while j < |items|
      invariant 0 <= j <= |items|
      invariant written == written0 + items[..j]
      invariant saved == CountStored(written, stored)
    {
      var item := items[j];
      CountStoredSnoc(written, item, stored);
      if stored(item) {
        saved := saved + 1;
      }
      assert items[..j + 1] == items[..j] + [item];
      written := written + [item];
      j := j + 1;
    }
    assert items[..j] == items;
  }

  /** `lambda_handler`: for yesterday and then today, fetch the schedule
    * and try to store an item per game, counting the writes that succeed.
    * It returns the status code, the count it reports and the items it
    * tried to store. */
  method LambdaHandler(today: int, schedule: int -> Option<seq<Game>>, stored: Item -> bool)
    returns (statusCode: int, gamesSaved: nat, written: seq<Item>)
    ensures statusCode == 200
    ensures written == Attempted(Dates(today), schedule)
    ensures gamesSaved == CountStored(written, stored)
  {
    var dates := Dates(today);
    gamesSaved := 0;
    written := [];
    var d := 0;
    while d < |dates|
      invariant 0 <= d <= |dates|
      invariant written == Attempted(dates[..d], schedule)
      invariant gamesSaved == CountStored(written, stored)
    {
      AttemptedSnoc(dates, schedule, d);
      var fetched := schedule(dates[d]);
      written, gamesSaved := StoreGames(DateItems(fetched), stored, written, gamesSaved);
      d := d + 1;
    }
    assert dates[..d] == dates;
    statusCode := 200;
  }
}
