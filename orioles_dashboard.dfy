/** The Orioles dashboard job: the club's wild-card and division games back
  * from the standings feed, and the list of recent games shown on the
  * dashboard, with its fallbacks to spring training and to earlier seasons.
  * The feeds and the games table are parameters. */
module OriolesDashboard {
  import opened Wrappers
  import Sorting

  // Games back.

  /** A games-back entry of the standings feed: "-" for the leader, else the
    * number of games. */
  datatype GamesBack = Dash | Behind(games: real)

  datatype TeamRecord = TeamRecord(teamId: int, wildCardGamesBack: GamesBack, gamesBack: GamesBack)

  datatype Standing = Standing(wildcardGb: real, divisionGb: real)

  /** "-" reads as zero games back. */
  function GbValue(gb: GamesBack): (v: real)
    ensures gb.Dash? ==> v == 0.0
    ensures gb.Behind? ==> v == gb.games
  {
    match gb
    case Dash => 0.0
    case Behind(g) => g
  }

  /** `fetch_actual_games_back` after the request, over the team records
    * of all standings records in feed order: the games back of the first
    * record of the club, or `None` when the club is absent. */
  function FetchActualGamesBack(records: seq<TeamRecord>, clubId: int): (r: Option<Standing>)
  {
    if |records| == 0 then None
    else if records[0].teamId == clubId then
      Some(Standing(GbValue(records[0].wildCardGamesBack), GbValue(records[0].gamesBack)))
    else FetchActualGamesBack(records[1..], clubId)
  }

  /** The club's standing comes from its first record; without one there is
    * none. */
  lemma {:induction false} GamesBackFound(records: seq<TeamRecord>, clubId: int)
    ensures FetchActualGamesBack(records, clubId).None? <==> forall i :: 0 <= i < |records| ==> records[i].teamId != clubId
    ensures FetchActualGamesBack(records, clubId).Some? ==>
      exists i :: (0 <= i < |records| && records[i].teamId == clubId &&
                   (forall j :: 0 <= j < i ==> records[j].teamId != clubId) &&
                   FetchActualGamesBack(records, clubId).value ==
                     Standing(GbValue(records[i].wildCardGamesBack), GbValue(records[i].gamesBack)))
    decreases |records|
  {
    if |records| > 0 && records[0].teamId != clubId {
      var r := FetchActualGamesBack(records, clubId);
      GamesBackFound(records[1..], clubId);
      assert r == FetchActualGamesBack(records[1..], clubId);
      if r.Some? {
        var i :| 0 <= i < |records[1..]| && records[1..][i].teamId == clubId &&
          (forall j :: 0 <= j < i ==> records[1..][j].teamId != clubId) &&
          r.value == Standing(GbValue(records[1..][i].wildCardGamesBack), GbValue(records[1..][i].gamesBack));
        assert records[i + 1] == records[1..][i];
        assert forall j :: 1 <= j < i + 1 ==> records[j] == records[1..][j - 1];
      } else {
        forall i | 0 <= i < |records| ensures records[i].teamId != clubId {
          if i > 0 { assert records[i] == records[1..][i - 1]; }
        }
      }
    }
  }

  // Recent games.

  /** A stored game item as the table returns it; `None` where the item
    * has no such field. */
  datatype Item = Item(id: Option<string>, status: Option<string>, date: Option<string>, datetime: Option<string>,
                       homeTeam: Option<string>, awayTeam: Option<string>,
                       homeScore: Option<int>, awayScore: Option<int>,
                       winningTeam: Option<string>, losingTeam: Option<string>,
                       winningPitcher: Option<string>, losingPitcher: Option<string>, savePitcher: Option<string>,
                       venue: Option<string>)

  /** A game of the dashboard's list. */
  datatype RecentGame = RecentGame(id: Option<string>, date: Option<string>, homeTeam: Option<string>, awayTeam: Option<string>,
                                   homeScore: int, awayScore: int, winningTeam: string, losingTeam: string,
                                   winningPitcher: string, losingPitcher: string, savePitcher: string, venue: string)

  /** How many games the list shows. */
  const RECENT_COUNT := 10

  predicate IsFinal(g: Item) { g.status == Some("Final") }

  predicate StartsWith(s: string, prefix: string) { |prefix| <= |s| && s[..|prefix|] == prefix }

  /** A final game of the season whose year, as text, is `year`. */
  predicate InSeason(g: Item, year: string) { IsFinal(g) && StartsWith(g.date.GetOr(""), year) }

  function DatetimeKey(g: Item): string { g.datetime.GetOr("") }

  /** Latest first; among equal keys the table's order is kept, as a
    * stable reverse sort keeps it. */
  function LatestFirst(): (le: (Item, Item) -> bool)
  {
    (x: Item, y: Item) => Sorting.LexLe(DatetimeKey(y), DatetimeKey(x))
  }

  lemma LatestFirstPreorder()
    ensures Sorting.TotalPreorder(LatestFirst())
  {
    forall x: Item, y: Item ensures LatestFirst()(x, y) || LatestFirst()(y, x) {
      Sorting.LexLeTotal(DatetimeKey(y), DatetimeKey(x));
    }
    forall x: Item, y: Item, z: Item | LatestFirst()(x, y) && LatestFirst()(y, z) ensures LatestFirst()(x, z) {
      Sorting.LexLeTransitive(DatetimeKey(z), DatetimeKey(y), DatetimeKey(x));
    }
  }

  function Filter(items: seq<Item>, keep: Item -> bool): (r: seq<Item>)
    ensures |r| <= |items|
    ensures forall i :: 0 <= i < |r| ==> keep(r[i])
    ensures multiset(r) <= multiset(items)
  {
    if |items| == 0 then []
    else
      var n := |items| - 1;
      assert items == items[..n] + [items[n]];
      Filter(items[..n], keep) + (if keep(items[n]) then [items[n]] else [])
  }

  /** Every kept item is in the result. */
  lemma {:induction false} FilterKeeps(items: seq<Item>, keep: Item -> bool, i: nat)
    requires i < |items| && keep(items[i])
    ensures items[i] in Filter(items, keep)
    decreases |items|
  {
    var n := |items| - 1;
    if i < n {
      FilterKeeps(items[..n], keep, i);
      assert items[..n][i] == items[i];
    }
  }

  /** The first ten of the sorted finals picked by `keep`, latest first. */
  function Latest(items: seq<Item>, keep: Item -> bool): (r: seq<Item>)
  {
    var sorted := Sorting.Sort(Filter(items, keep), LatestFirst());
    sorted[..if |sorted| < RECENT_COUNT then |sorted| else RECENT_COUNT]
  }

  /** The list holds ten of the items `keep` picks, or all of them when
    * there are fewer; they are latest first, each is a picked item, and no
    * picked item left out is later than one shown. */
  lemma LatestSpec(items: seq<Item>, keep: Item -> bool)
    ensures var picked := Filter(items, keep);
      |Latest(items, keep)| == (if |picked| < RECENT_COUNT then |picked| else RECENT_COUNT)
    ensures Sorting.SortedBy(Latest(items, keep), LatestFirst())
    ensures forall i :: 0 <= i < |Latest(items, keep)| ==> keep(Latest(items, keep)[i]) && Latest(items, keep)[i] in items
    ensures var sorted := Sorting.Sort(Filter(items, keep), LatestFirst());
      multiset(sorted) == multiset(Filter(items, keep)) &&
      forall i, j :: 0 <= i < |Latest(items, keep)| <= j < |sorted| ==>
        Sorting.LexLe(DatetimeKey(sorted[j]), DatetimeKey(sorted[i]))
  {
    var picked := Filter(items, keep);
    var sorted := Sorting.Sort(picked, LatestFirst());
    LatestFirstPreorder();
    Sorting.SortSorted(picked, LatestFirst());
    var r := Latest(items, keep);
    assert r == sorted[..|r|];
    forall i | 0 <= i < |r| ensures keep(r[i]) && r[i] in items {
      assert r[i] == sorted[i];
      assert sorted[i] in multiset(picked);
      assert r[i] in multiset(items);
    }
    forall i, j | 0 <= i < |r| <= j < |sorted|
      ensures Sorting.LexLe(DatetimeKey(sorted[j]), DatetimeKey(sorted[i]))
    {
      assert LatestFirst()(sorted[i], sorted[j]);
    }
  }

  /** The summary the dashboard keeps of a stored game: scores default to
    * 0 and the result fields to "". */
  function Summary(g: Item): (r: RecentGame)
    ensures r.id == g.id && r.date == g.date
    ensures r.homeScore == g.homeScore.GetOr(0) && r.awayScore == g.awayScore.GetOr(0)
    ensures r.winningTeam == g.winningTeam.GetOr("") && r.venue == g.venue.GetOr("")
  {
    RecentGame(g.id, g.date, g.homeTeam, g.awayTeam, g.homeScore.GetOr(0), g.awayScore.GetOr(0),
               g.winningTeam.GetOr(""), g.losingTeam.GetOr(""), g.winningPitcher.GetOr(""),
               g.losingPitcher.GetOr(""), g.savePitcher.GetOr(""), g.venue.GetOr(""))
  }

  function Summaries(games: seq<Item>): (r: seq<RecentGame>)
    ensures |r| == |games|
    ensures forall i :: 0 <= i < |games| ==> r[i] == Summary(games[i])
  {
    seq(|games|, i requires 0 <= i < |games| => Summary(games[i]))
  }

  // Spring training.

  /** A spring-training game of the schedule feed; missing names read as "". */
  datatype SpringGame = SpringGame(gamePk: Option<string>, status: Option<string>, officialDate: string,
                                   homeName: string, awayName: string, homeScore: int, awayScore: int,
                                   homeWon: bool, winnerPitcher: string, loserPitcher: string, savePitcher: string,
                                   venue: string)

  /** The row the dashboard shows for a spring game: the winner is the home
    * club when the feed marks it the winner, else the away club. */
  function SpringRow(g: SpringGame): (r: RecentGame)
    ensures r.homeTeam == Some(g.homeName) && r.awayTeam == Some(g.awayName)
    ensures g.homeWon ==> r.winningTeam == g.homeName && r.losingTeam == g.awayName
    ensures !g.homeWon ==> r.winningTeam == g.awayName && r.losingTeam == g.homeName
  {
    RecentGame(Some(g.gamePk.GetOr("")), Some(g.officialDate), Some(g.homeName), Some(g.awayName),
               g.homeScore, g.awayScore,
               if g.homeWon then g.homeName else g.awayName,
               if g.homeWon then g.awayName else g.homeName,
               g.winnerPitcher, g.loserPitcher, g.savePitcher, g.venue)
  }

  /** The final spring games of every date, in feed order. */
  function SpringRows(dates: seq<seq<SpringGame>>): (r: seq<RecentGame>)
  {
    if |dates| == 0 then []
    else
      var n := |dates| - 1;
      SpringRows(dates[..n]) + FinalRows(dates[n])
  }

  function FinalRows(games: seq<SpringGame>): (r: seq<RecentGame>)
    ensures |r| <= |games|
  {
    if |games| == 0 then []
    else
      var n := |games| - 1;
      FinalRows(games[..n]) + (if games[n].status == Some("Final") then [SpringRow(games[n])] else [])
  }

  /** Every row comes from a final game, with its winner chosen by the feed's
    * winner flag. */
  lemma {:induction false} FinalRowsFrom(games: seq<SpringGame>, k: nat)
    requires k < |FinalRows(games)|
    ensures exists i :: 0 <= i < |games| && games[i].status == Some("Final") && FinalRows(games)[k] == SpringRow(games[i])
    decreases |games|
  {
    var n := |games| - 1;
    if k < |FinalRows(games[..n])| {
      FinalRowsFrom(games[..n], k);
      var i :| 0 <= i < n && games[..n][i].status == Some("Final") && FinalRows(games[..n])[k] == SpringRow(games[..n][i]);
      assert games[..n][i] == games[i];
    }
  }

  function OfficialDateKey(g: RecentGame): string { g.date.GetOr("") }

  function DateFirst(): (le: (RecentGame, RecentGame) -> bool)
  {
    (x: RecentGame, y: RecentGame) => Sorting.LexLe(OfficialDateKey(y), OfficialDateKey(x))
  }

  lemma DateFirstPreorder()
    ensures Sorting.TotalPreorder(DateFirst())
  {
    forall x: RecentGame, y: RecentGame ensures DateFirst()(x, y) || DateFirst()(y, x) {
      Sorting.LexLeTotal(OfficialDateKey(y), OfficialDateKey(x));
    }
    forall x: RecentGame, y: RecentGame, z: RecentGame | DateFirst()(x, y) && DateFirst()(y, z)
      ensures DateFirst()(x, z)
    {
      Sorting.LexLeTransitive(OfficialDateKey(z), OfficialDateKey(y), OfficialDateKey(x));
    }
  }

  /** `fetch_spring_training_games`: "S" with the ten latest final spring
    * games by date, and none when the request fails (`None`). */
  function FetchSpringTrainingGames(fetched: Option<seq<seq<SpringGame>>>): (string, seq<RecentGame>)
  {
    match fetched
    case None => ("S", [])
    case Some(dates) =>
      var sorted := Sorting.Sort(SpringRows(dates), DateFirst());
      ("S", sorted[..if |sorted| < RECENT_COUNT then |sorted| else RECENT_COUNT])
  }

  /** The spring list holds at most ten games, latest first. */
  lemma SpringSpec(fetched: Option<seq<seq<SpringGame>>>)
    ensures FetchSpringTrainingGames(fetched).0 == "S"
    ensures |FetchSpringTrainingGames(fetched).1| <= RECENT_COUNT
    ensures Sorting.SortedBy(FetchSpringTrainingGames(fetched).1, DateFirst())
    ensures fetched.None? ==> FetchSpringTrainingGames(fetched).1 == []
  {
    if fetched.Some? {
      var sorted := Sorting.Sort(SpringRows(fetched.value), DateFirst());
      DateFirstPreorder();
      Sorting.SortSorted(SpringRows(fetched.value), DateFirst());
      var r := FetchSpringTrainingGames(fetched).1;
      assert r == sorted[..|r|];
    }
  }

  /** `build_recent_games_json`: the season's latest finals as "R"; without
    * any, the spring-training list; without that, the latest finals of
    * any season as "R"; and otherwise "S" with no games. */
  function BuildRecentGames(items: seq<Item>, year: string, spring: Option<seq<seq<SpringGame>>>): (r: (string, seq<RecentGame>))
  {
    var recent := Latest(items, g => InSeason(g, year));
    if |recent| > 0 then ("R", Summaries(recent))
    else
      var (gameType, springGames) := FetchSpringTrainingGames(spring);
      if |springGames| > 0 then (gameType, springGames)
      else
        var fallback := Latest(items, IsFinal);
        if |fallback| > 0 then ("R", Summaries(fallback)) else ("S", [])
  }

  /** `keep` picks some item exactly when the filter is not empty. */
  lemma FilterEmpty(items: seq<Item>, keep: Item -> bool)
    ensures |Filter(items, keep)| == 0 <==> forall i :: 0 <= i < |items| ==> !keep(items[i])
  {
    var r := Filter(items, keep);
    if |r| > 0 {
      assert keep(r[0]);
      assert r[0] in multiset(items);
      var j :| 0 <= j < |items| && items[j] == r[0];
    }
    if i :| 0 <= i < |items| && keep(items[i]) {
      FilterKeeps(items, keep, i);
    }
  }

  /** The list is empty exactly when no item is picked. */
  lemma LatestEmpty(items: seq<Item>, keep: Item -> bool)
    ensures |Latest(items, keep)| == 0 <==> forall i :: 0 <= i < |items| ==> !keep(items[i])
  {
    LatestSpec(items, keep);
    FilterEmpty(items, keep);
  }

  /** Every list the dashboard shows holds at most ten games. */
  lemma RecentGamesBounded(items: seq<Item>, year: string, spring: Option<seq<seq<SpringGame>>>)
    ensures |BuildRecentGames(items, year, spring).1| <= RECENT_COUNT
  {
    LatestSpec(items, g => InSeason(g, year));
    LatestSpec(items, IsFinal);
    SpringSpec(spring);
  }

  /** The current season's finals come first when there are any. */
  lemma RecentGamesSeason(items: seq<Item>, year: string, spring: Option<seq<seq<SpringGame>>>)
    requires exists i :: 0 <= i < |items| && InSeason(items[i], year)
    ensures BuildRecentGames(items, year, spring) == ("R", Summaries(Latest(items, g => InSeason(g, year))))
  {
    LatestEmpty(items, g => InSeason(g, year));
  }

  /** Without them the spring-training list is shown when it has a game. */
  lemma RecentGamesSpring(items: seq<Item>, year: string, spring: Option<seq<seq<SpringGame>>>)
    requires forall i :: 0 <= i < |items| ==> !InSeason(items[i], year)
    requires |FetchSpringTrainingGames(spring).1| > 0
    ensures BuildRecentGames(items, year, spring) == FetchSpringTrainingGames(spring)
  {
    LatestEmpty(items, g => InSeason(g, year));
  }

  /** Without either, the finals of any season are shown. */
  lemma RecentGamesAnySeason(items: seq<Item>, year: string, spring: Option<seq<seq<SpringGame>>>)
    requires forall i :: 0 <= i < |items| ==> !InSeason(items[i], year)
    requires |FetchSpringTrainingGames(spring).1| == 0
    ensures BuildRecentGames(items, year, spring) ==
      if exists i :: 0 <= i < |items| && IsFinal(items[i]) then ("R", Summaries(Latest(items, IsFinal))) else ("S", [])
  {
    LatestEmpty(items, g => InSeason(g, year));
    LatestEmpty(items, IsFinal);
  }
}
