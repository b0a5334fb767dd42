/** A completed game of the schedule the win-probability model replays,
  * as the schedule loader hands it on (Final games only, ordered by date). */
module ModelSchedule {
  import opened Wrappers

  /** `homeSpId`/`awaySpId` are `None` when the schedule leaves the starter
    * blank; the starter names are "" then. */
  datatype Game = Game(date: string, home: string, away: string, homeScore: int, awayScore: int,
                       homeSpId: Option<int>, awaySpId: Option<int>, homeSpName: string, awaySpName: string)

  /** Whether `team` plays in `g`. */
  predicate Plays(g: Game, team: string)
  {
    g.home == team || g.away == team
  }

  /** 1 when the home side scored more runs, else 0 (a tie counts as a loss). */
  function HomeWon(g: Game): (w: int)
    ensures w == 1 <==> g.homeScore > g.awayScore
    ensures w == 0 <==> g.homeScore <= g.awayScore
  {
    if g.homeScore > g.awayScore then 1 else 0
  }
}
