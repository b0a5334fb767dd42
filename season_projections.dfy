/** The season-projections lambda: it takes the newest rating of each club,
  * adjusts the ratings for injuries and fades them toward the preseason
  * baseline, predicts each club's next game, simulates the rest of the
  * season from uniform draws, and turns the simulated seasons into American
  * League playoff odds and a games-back figure for Baltimore. */
module SeasonProjections {
  import opened RealMath
  import opened Wrappers
  import opened Sums
  import opened Sorting
  import opened Folds
  import opened Elo
  import opened SharedFip
  import opened Playoffs
  import MC = MonteCarlo
  import Fade
  import TeamCodes
  import Rounding

  const FIP_WEIGHT: real := 50.0
  const SIM_COUNT: nat := 10000

  // The newest rating of each club.

  /** A rating record as the ratings table holds it; `updated` is "" when the
    * record has no `last_updated`. */
  datatype EloItem = EloItem(team: string, elo: real, updated: string)

  datatype Latest = Latest(elo: real, updated: string)

  /** Keep a record when its club is new or it is strictly newer, comparing
    * the timestamps as strings. */
  function KeepNewer(latest: map<string, Latest>, item: EloItem): (r: map<string, Latest>)
    ensures r.Keys == latest.Keys + {item.team}
  {
    if item.team !in latest || !LexLe(item.updated, latest[item.team].updated)
    then latest[item.team := Latest(item.elo, item.updated)]
    else latest
  }

  function LatestOf(items: seq<EloItem>): map<string, Latest>
  {
    Final((s: map<string, Latest>, i: EloItem) => KeepNewer(s, i), map[], items)
  }

  /** Record `i` is the one kept for its club: no record of the club is
    * newer, and every earlier one is strictly older. */
  predicate KeptAt(items: seq<EloItem>, i: int)
  {
    0 <= i < |items| &&
    (forall j :: 0 <= j < |items| && items[j].team == items[i].team ==> LexLe(items[j].updated, items[i].updated)) &&
    (forall j :: 0 <= j < i && items[j].team == items[i].team ==> items[j].updated != items[i].updated)
  }

  /** A club has a rating iff it has a record, and the rating is the one of
    * its newest record, the first of them on a tie. */
  lemma {:induction false} LatestSpec(items: seq<EloItem>, t: string)
    ensures t in LatestOf(items) <==> exists i :: 0 <= i < |items| && items[i].team == t
    ensures t in LatestOf(items) ==>
      exists i :: KeptAt(items, i) && items[i].team == t && LatestOf(items)[t] == Latest(items[i].elo, items[i].updated)
    decreases |items|
  {
    if |items| > 0 {
      var n := |items| - 1;
      var init := items[..n];
      var x := items[n];
      LatestSpec(init, t);
      assert forall j :: 0 <= j < n ==> init[j] == items[j];
      var prev := LatestOf(init);
      assert LatestOf(items) == KeepNewer(prev, x);
      if x.team != t {
        if t in prev {
          var i :| KeptAt(init, i) && init[i].team == t && prev[t] == Latest(init[i].elo, init[i].updated);
          assert KeptAt(items, i);
        }
      } else if t !in prev {
        LexLeTotal(x.updated, x.updated);
        assert KeptAt(items, n);
      } else {
        var i :| KeptAt(init, i) && init[i].team == t && prev[t] == Latest(init[i].elo, init[i].updated);
        var cur := init[i].updated;
        if !LexLe(x.updated, cur) {
          LexLeTotal(x.updated, cur);
          forall j | 0 <= j < |items| && items[j].team == t ensures LexLe(items[j].updated, x.updated) {
            if j < n {
              LexLeTransitive(items[j].updated, cur, x.updated);
            } else {
              LexLeTotal(x.updated, x.updated);
            }
          }
          forall j | 0 <= j < n && items[j].team == t ensures items[j].updated != x.updated {
            assert LexLe(items[j].updated, cur);
          }
          assert KeptAt(items, n);
        } else {
          assert KeptAt(items, i);
        }
      }
    }
  }

  function LatestRatings(items: seq<EloItem>): map<string, real>
  {
    var latest := LatestOf(items);
    map t | t in latest :: latest[t].elo
  }

  /** `fetch_latest_elo_ratings`, over the scanned records. */
  method FetchLatestEloRatings(items: seq<EloItem>) returns (ratings: map<string, real>)
    ensures ratings == LatestRatings(items)
  {
    var latest: map<string, Latest> := map[];
    var i := 0;
    while i < |items|
      invariant 0 <= i <= |items|
      invariant latest == LatestOf(items[..i])
    {
      FinalStep((s: map<string, Latest>, it: EloItem) => KeepNewer(s, it), map[], items, i);
      var item := items[i];
      if item.team !in latest || !LexLe(item.updated, latest[item.team].updated) {
        latest := latest[item.team := Latest(item.elo, item.updated)];
      }
      i := i + 1;
    }
    assert items[..i] == items;
    ratings := map t | t in latest :: latest[t].elo;
  }

  // Win probabilities.

  /** The FIP table and league FIP, present only when both loaded. */
  datatype FipData = FipData(table: map<int, FipEntry>, lgFip: real)

  /** `enhanced_probability`: starter adjustments when FIP data is present,
    * then the logistic with home-field advantage, then shrinkage. */
  function EnhancedProbability(m: Math, eloHome: real, eloAway: real, homeSp: Option<int>, awaySp: Option<int>,
                               fip: Option<FipData>): (p: real)
    requires Lawful(m)
    ensures PROB_SHRINKAGE <= p <= 1.0 - PROB_SHRINKAGE
  {
    var adj := if fip.Some? then FipAdjustment(homeSp, awaySp, fip.value.table, fip.value.lgFip, FIP_WEIGHT) else (0.0, 0.0);
    Shrink(PROB_SHRINKAGE, ExpectedScore(m, eloHome + adj.0, eloAway + adj.1, ELO_HFA))
  }

  /** Without FIP data, or with neither starter in the table, the probability
    * is the shrunk Elo probability. */
  lemma EnhancedWithoutFip(m: Math, eloHome: real, eloAway: real, homeSp: Option<int>, awaySp: Option<int>,
                           fip: Option<FipData>)
    requires Lawful(m)
    requires fip.None? || (!Known(homeSp, fip.value.table) && !Known(awaySp, fip.value.table))
    ensures EnhancedProbability(m, eloHome, eloAway, homeSp, awaySp, fip) ==
      Shrink(PROB_SHRINKAGE, ExpectedScore(m, eloHome, eloAway, ELO_HFA))
  {
  }

  /** A higher home rating always raises the home probability. */
  lemma EnhancedMonotone(m: Math, eloHome: real, eloAway: real, homeSp: Option<int>, awaySp: Option<int>,
                         fip: Option<FipData>, d: real)
    requires Lawful(m) && d > 0.0
    ensures EnhancedProbability(m, eloHome, eloAway, homeSp, awaySp, fip) <
      EnhancedProbability(m, eloHome + d, eloAway, homeSp, awaySp, fip)
  {
    var adj := if fip.Some? then FipAdjustment(homeSp, awaySp, fip.value.table, fip.value.lgFip, FIP_WEIGHT) else (0.0, 0.0);
    var h := eloHome + adj.0;
    var a := eloAway + adj.1;
    assert eloHome + d + adj.0 == h + d;
    ShrunkMonotone(m, h, a, d);
  }

  /** The shrunk Elo probability rises strictly with the home rating. */
  lemma ShrunkMonotone(m: Math, h: real, a: real, d: real)
    requires Lawful(m) && d > 0.0
    ensures Shrink(PROB_SHRINKAGE, ExpectedScore(m, h, a, ELO_HFA)) < Shrink(PROB_SHRINKAGE, ExpectedScore(m, h + d, a, ELO_HFA))
  {
    ExpectedScoreMonotone(m, h, a, ELO_HFA, d);
    ShrinkMonotone(PROB_SHRINKAGE, ExpectedScore(m, h, a, ELO_HFA), ExpectedScore(m, h + d, a, ELO_HFA));
  }

  // Next-game predictions.

  /** A schedule row: scores and starter ids are None when blank, starter
    * names "" when blank. Dates are ISO strings, which order as dates. */
  datatype Game = Game(date: string, home: string, away: string, homeScore: Option<int>, awayScore: Option<int>,
                       homeSp: Option<int>, awaySp: Option<int>, homeSpName: string, awaySpName: string)

  datatype Side = Home | Away

  datatype Prediction = Prediction(team: string, opponent: string, date: string, side: Side,
                                   winProbability: real, rawWinProbability: real,
                                   eloTeam: real, eloOpp: real, teamStarter: string, oppStarter: string)

  /** Both clubs are rated. */
  predicate Playable(elos: map<string, real>, g: Game)
  {
    g.home in elos && g.away in elos
  }

  predicate Plays(g: Game, t: string)
  {
    g.home == t || g.away == t
  }

  function HomePrediction(m: Math, elos: map<string, real>, fip: Option<FipData>, g: Game): (p: Prediction)
    requires Lawful(m) && Playable(elos, g)
    ensures p.team == g.home
  {
    Prediction(g.home, g.away, g.date, Home,
               EnhancedProbability(m, elos[g.home], elos[g.away], g.homeSp, g.awaySp, fip),
               ExpectedScore(m, elos[g.home], elos[g.away], ELO_HFA),
               elos[g.home], elos[g.away], g.homeSpName, g.awaySpName)
  }

  function AwayPrediction(m: Math, elos: map<string, real>, fip: Option<FipData>, g: Game): (p: Prediction)
    requires Lawful(m) && Playable(elos, g)
    ensures p.team == g.away
  {
    Prediction(g.away, g.home, g.date, Away,
               1.0 - EnhancedProbability(m, elos[g.home], elos[g.away], g.homeSp, g.awaySp, fip),
               1.0 - ExpectedScore(m, elos[g.home], elos[g.away], ELO_HFA),
               elos[g.away], elos[g.home], g.awaySpName, g.homeSpName)
  }

  /** The two rows of one game are mirror images: the probabilities add up
    * to 1, and teams, ratings and starters swap. */
  lemma SidesMirror(m: Math, elos: map<string, real>, fip: Option<FipData>, g: Game)
    requires Lawful(m) && Playable(elos, g)
    ensures var h := HomePrediction(m, elos, fip, g);
      var a := AwayPrediction(m, elos, fip, g);
      h.winProbability + a.winProbability == 1.0 && h.rawWinProbability + a.rawWinProbability == 1.0 &&
      a.team == h.opponent && a.opponent == h.team && a.eloTeam == h.eloOpp && a.eloOpp == h.eloTeam &&
      a.teamStarter == h.oppStarter && a.oppStarter == h.teamStarter &&
      PROB_SHRINKAGE <= a.winProbability <= 1.0 - PROB_SHRINKAGE
  {
  }

  /** The prediction for club `t` from a game it plays. */
  function PredictionFor(m: Math, elos: map<string, real>, fip: Option<FipData>, g: Game, t: string): Prediction
    requires Lawful(m) && Playable(elos, g)
  {
    if g.home == t then HomePrediction(m, elos, fip, g) else AwayPrediction(m, elos, fip, g)
  }

  /** The reference: club `t`'s prediction comes from the first game, in
    * schedule order, in which it plays a rated opponent. */
  function Expected(m: Math, elos: map<string, real>, fip: Option<FipData>, games: seq<Game>, t: string): Option<Prediction>
    requires Lawful(m)
  {
    if |games| == 0 then None
    else
      var n := |games| - 1;
      var prev := Expected(m, elos, fip, games[..n], t);
      if prev.Some? then prev
      else if Playable(elos, games[n]) && Plays(games[n], t) then Some(PredictionFor(m, elos, fip, games[n], t))
      else None
  }

  /** The clubs already predicted and the rows so far. */
  datatype Picked = Picked(seen: set<string>, rows: seq<Prediction>)

  /** One game of the loop: the home club's row, then the away club's. */
  function PickStep(m: Math, elos: map<string, real>, fip: Option<FipData>, st: Picked, g: Game): Picked
    requires Lawful(m)
  {
    var st1 :=
      if g.home !in st.seen && Playable(elos, g)
      then Picked(st.seen + {g.home}, st.rows + [HomePrediction(m, elos, fip, g)])
      else st;
    if g.away !in st1.seen && Playable(elos, g)
    then Picked(st1.seen + {g.away}, st1.rows + [AwayPrediction(m, elos, fip, g)])
    else st1
  }

  function PickFn(m: Math, elos: map<string, real>, fip: Option<FipData>): (Picked, Game) --> Picked
  {
    (st: Picked, g: Game) requires Lawful(m) => PickStep(m, elos, fip, st, g)
  }

  function NextGames(m: Math, elos: map<string, real>, fip: Option<FipData>, games: seq<Game>): Picked
    requires Lawful(m)
  {
    Final(PickFn(m, elos, fip), Picked({}, []), games)
  }

  /** What the loop keeps true, against an expectation `exp`: a club is
    * seen iff `exp` has a prediction for it, every row is its club's
    * expected prediction, no club has two rows, and every seen club has one. */
  ghost predicate PickedBy(exp: string -> Option<Prediction>, st: Picked)
  {
    (forall t :: t in st.seen <==> exp(t).Some?) &&
    (forall i :: 0 <= i < |st.rows| ==> exp(st.rows[i].team) == Some(st.rows[i])) &&
    (forall i, j :: 0 <= i < j < |st.rows| ==> st.rows[i].team != st.rows[j].team) &&
    (forall t :: t in st.seen ==> exists i :: 0 <= i < |st.rows| && st.rows[i].team == t)
  }

  function Extend(exp: string -> Option<Prediction>, p: Prediction): string -> Option<Prediction>
  {
    t => if t == p.team then Some(p) else exp(t)
  }

  /** Appending the row of a club not yet seen. */
  lemma AddOne(exp: string -> Option<Prediction>, st: Picked, p: Prediction)
    requires PickedBy(exp, st) && p.team !in st.seen
    ensures PickedBy(Extend(exp, p), Picked(st.seen + {p.team}, st.rows + [p]))
  {
    var st' := Picked(st.seen + {p.team}, st.rows + [p]);
    forall t | t in st'.seen ensures exists i :: 0 <= i < |st'.rows| && st'.rows[i].team == t {
      if t == p.team {
        assert st'.rows[|st.rows|].team == t;
      } else {
        var i :| 0 <= i < |st.rows| && st.rows[i].team == t;
        assert st'.rows[i].team == t;
      }
    }
  }

  function ExpectedFn(m: Math, elos: map<string, real>, fip: Option<FipData>, games: seq<Game>): string -> Option<Prediction>
    requires Lawful(m)
  {
    t => Expected(m, elos, fip, games, t)
  }

  lemma PickedBySame(e1: string -> Option<Prediction>, e2: string -> Option<Prediction>, st: Picked)
    requires PickedBy(e1, st) && forall t :: e1(t) == e2(t)
    ensures PickedBy(e2, st)
  {
  }

  /** The reference after one more game. */
  lemma ExpectedLast(m: Math, elos: map<string, real>, fip: Option<FipData>, games: seq<Game>, t: string)
    requires Lawful(m) && |games| > 0
    ensures var n := |games| - 1;
      ExpectedFn(m, elos, fip, games)(t) == After(m, elos, fip, ExpectedFn(m, elos, fip, games[..n]), games[n], t)
  {
  }

  /** What an expectation becomes after game `g`: a club without a
    * prediction takes the one from `g` when it plays in it. */
  function After(m: Math, elos: map<string, real>, fip: Option<FipData>, exp: string -> Option<Prediction>,
                 g: Game, t: string): Option<Prediction>
    requires Lawful(m)
  {
    if exp(t).Some? then exp(t)
    else if Playable(elos, g) && Plays(g, t) then Some(PredictionFor(m, elos, fip, g, t))
    else None
  }

  /** Appending one row, against any expectation equal to the extended one. */
  lemma AddOneTo(exp0: string -> Option<Prediction>, e: string -> Option<Prediction>, st: Picked, p: Prediction)
    requires PickedBy(exp0, st) && p.team !in st.seen
    requires forall t :: e(t) == Extend(exp0, p)(t)
    ensures PickedBy(e, Picked(st.seen + {p.team}, st.rows + [p]))
  {
    AddOne(exp0, st, p);
    PickedBySame(Extend(exp0, p), e, Picked(st.seen + {p.team}, st.rows + [p]));
  }

  /** A game that adds no row. */
  lemma StepNone(m: Math, elos: map<string, real>, fip: Option<FipData>, exp0: string -> Option<Prediction>,
                 e: string -> Option<Prediction>, st: Picked, g: Game)
    requires Lawful(m) && PickedBy(exp0, st)
    requires forall t :: e(t) == After(m, elos, fip, exp0, g, t)
    requires !Playable(elos, g) || (g.home in st.seen && g.away in st.seen)
    ensures PickedBy(e, PickStep(m, elos, fip, st, g))
  {
    forall t ensures exp0(t) == e(t) {
      assert Plays(g, t) && Playable(elos, g) ==> t in st.seen;
    }
    PickedBySame(exp0, e, st);
  }

  /** A game that adds the home club's row only. */
  lemma StepHome(m: Math, elos: map<string, real>, fip: Option<FipData>, exp0: string -> Option<Prediction>,
                 e: string -> Option<Prediction>, st: Picked, g: Game)
    requires Lawful(m) && PickedBy(exp0, st)
    requires forall t :: e(t) == After(m, elos, fip, exp0, g, t)
    requires Playable(elos, g) && g.home !in st.seen && (g.away in st.seen || g.away == g.home)
    ensures PickedBy(e, PickStep(m, elos, fip, st, g))
  {
    var h := HomePrediction(m, elos, fip, g);
    forall t ensures e(t) == Extend(exp0, h)(t) {
      assert t == g.away && t != g.home ==> t in st.seen;
    }
    AddOneTo(exp0, e, st, h);
  }

  /** A game that adds the away club's row only. */
  lemma StepAway(m: Math, elos: map<string, real>, fip: Option<FipData>, exp0: string -> Option<Prediction>,
                 e: string -> Option<Prediction>, st: Picked, g: Game)
    requires Lawful(m) && PickedBy(exp0, st)
    requires forall t :: e(t) == After(m, elos, fip, exp0, g, t)
    requires Playable(elos, g) && g.home in st.seen && g.away !in st.seen
    ensures PickedBy(e, PickStep(m, elos, fip, st, g))
  {
    var a := AwayPrediction(m, elos, fip, g);
    forall t ensures e(t) == Extend(exp0, a)(t) {
      assert t == g.home ==> t in st.seen;
    }
    AddOneTo(exp0, e, st, a);
  }

  /** A game that adds both clubs' rows. */
  lemma StepBoth(m: Math, elos: map<string, real>, fip: Option<FipData>, exp0: string -> Option<Prediction>,
                 e: string -> Option<Prediction>, st: Picked, g: Game)
    requires Lawful(m) && PickedBy(exp0, st)
    requires forall t :: e(t) == After(m, elos, fip, exp0, g, t)
    requires Playable(elos, g) && g.home !in st.seen && g.away !in st.seen && g.away != g.home
    ensures PickedBy(e, PickStep(m, elos, fip, st, g))
  {
    var h := HomePrediction(m, elos, fip, g);
    var a := AwayPrediction(m, elos, fip, g);
    var exp1 := Extend(exp0, h);
    AddOne(exp0, st, h);
    var st1 := Picked(st.seen + {g.home}, st.rows + [h]);
    forall t ensures e(t) == Extend(exp1, a)(t) {
    }
    AddOneTo(exp1, e, st1, a);
  }

  /** One game of the loop keeps its rows in step with the reference. */
  lemma PickStepKeeps(m: Math, elos: map<string, real>, fip: Option<FipData>, exp0: string -> Option<Prediction>,
                      e: string -> Option<Prediction>, st: Picked, g: Game)
    requires Lawful(m) && PickedBy(exp0, st)
    requires forall t :: e(t) == After(m, elos, fip, exp0, g, t)
    ensures PickedBy(e, PickStep(m, elos, fip, st, g))
  {
    if !Playable(elos, g) || (g.home in st.seen && g.away in st.seen) {
      StepNone(m, elos, fip, exp0, e, st, g);
    } else if g.home !in st.seen && (g.away in st.seen || g.away == g.home) {
      StepHome(m, elos, fip, exp0, e, st, g);
    } else if g.home in st.seen {
      StepAway(m, elos, fip, exp0, e, st, g);
    } else {
      StepBoth(m, elos, fip, exp0, e, st, g);
    }
  }

  /** The loop's rows are the reference predictions: one per club that plays
    * a rated opponent, from its first such game. */
  lemma {:induction false} NextGamesSpec(m: Math, elos: map<string, real>, fip: Option<FipData>, games: seq<Game>)
    requires Lawful(m)
    ensures PickedBy(ExpectedFn(m, elos, fip, games), NextGames(m, elos, fip, games))
    decreases |games|
  {
    if |games| > 0 {
      var n := |games| - 1;
      var init := games[..n];
      NextGamesSpec(m, elos, fip, init);
      forall t ensures ExpectedFn(m, elos, fip, games)(t) == After(m, elos, fip, ExpectedFn(m, elos, fip, init), games[n], t) {
        ExpectedLast(m, elos, fip, games, t);
      }
      assert NextGames(m, elos, fip, games) == PickStep(m, elos, fip, NextGames(m, elos, fip, init), games[n]);
      PickStepKeeps(m, elos, fip, ExpectedFn(m, elos, fip, init), ExpectedFn(m, elos, fip, games),
                    NextGames(m, elos, fip, init), games[n]);
    }
  }

  /** Schedule order: by date. */
  function ByDate(): (Game, Game) -> bool
  {
    (x: Game, y: Game) => LexLe(x.date, y.date)
  }

  lemma ByDatePreorder()
    ensures TotalPreorder(ByDate())
  {
    forall x: Game, y: Game ensures ByDate()(x, y) || ByDate()(y, x) {
      LexLeTotal(x.date, y.date);
    }
    forall x: Game, y: Game, z: Game | ByDate()(x, y) && ByDate()(y, z) ensures ByDate()(x, z) {
      LexLeTransitive(x.date, y.date, z.date);
    }
  }

  function FromToday(today: string): Game -> Option<Game>
  {
    (g: Game) => if LexLe(today, g.date) then Some(g) else None
  }

  /** The games dated today or later, in date order. */
  function Future(schedule: seq<Game>, today: string): seq<Game>
  {
    Sort(FilterMap(FromToday(today), schedule), ByDate())
  }

  /** The future games are exactly the schedule's games dated today or later,
    * each as often as it is listed, and they are in date order. */
  lemma FutureSpec(schedule: seq<Game>, today: string)
    ensures SortedBy(Future(schedule, today), ByDate())
    ensures forall g :: g in Future(schedule, today) <==> g in schedule && LexLe(today, g.date)
  {
    ByDatePreorder();
    var kept := FilterMap(FromToday(today), schedule);
    SortSorted(kept, ByDate());
    forall g ensures g in Future(schedule, today) <==> g in schedule && LexLe(today, g.date) {
      calc {
        g in Future(schedule, today);
        g in multiset(Future(schedule, today));
        g in multiset(kept);
        g in kept;
      }
      if g in kept {
        var k :| 0 <= k < |kept| && kept[k] == g;
        FilterMapFrom(FromToday(today), schedule, k);
      }
      if g in schedule && LexLe(today, g.date) {
        var i :| 0 <= i < |schedule| && schedule[i] == g;
        FilterMapKeeps(FromToday(today), schedule, i);
      }
    }
  }

  /** `generate_next_game_predictions`: walking the future games in date
    * order, each club gets one row, from the first game in which both clubs
    * are rated. */
  method GenerateNextGamePredictions(m: Math, schedule: seq<Game>, today: string, elos: map<string, real>,
                                     fip: Option<FipData>) returns (rows: seq<Prediction>)
    requires Lawful(m)
    ensures var future := Future(schedule, today);
      rows == NextGames(m, elos, fip, future).rows &&
      (forall i :: 0 <= i < |rows| ==> Expected(m, elos, fip, future, rows[i].team) == Some(rows[i])) &&
      (forall i, j :: 0 <= i < j < |rows| ==> rows[i].team != rows[j].team) &&
      (forall t :: Expected(m, elos, fip, future, t).Some? ==> exists i :: 0 <= i < |rows| && rows[i].team == t)
  {
    var future := Future(schedule, today);
    var seen: set<string> := {};
    rows := [];
    var i := 0;
    while i < |future|
      invariant 0 <= i <= |future|
      invariant Picked(seen, rows) == NextGames(m, elos, fip, future[..i])
    {
      FinalStep(PickFn(m, elos, fip), Picked({}, []), future, i);
      var g := future[i];
      if g.home !in seen && g.home in elos && g.away in elos {
        seen := seen + {g.home};
        rows := rows + [HomePrediction(m, elos, fip, g)];
      }
      if g.away !in seen && g.away in elos && g.home in elos {
        seen := seen + {g.away};
        rows := rows + [AwayPrediction(m, elos, fip, g)];
      }
      i := i + 1;
    }
    assert future[..i] == future;
    NextGamesSpec(m, elos, fip, future);
    forall t | Expected(m, elos, fip, future, t).Some? ensures exists i :: 0 <= i < |rows| && rows[i].team == t {
      assert ExpectedFn(m, elos, fip, future)(t).Some?;
    }
    forall i | 0 <= i < |rows| ensures Expected(m, elos, fip, future, rows[i].team) == Some(rows[i]) {
      assert ExpectedFn(m, elos, fip, future)(rows[i].team) == Some(rows[i]);
    }
  }

  // Simulating the rest of the season.

  /** A game with both scores in. */
  predicate Completed(g: Game)
  {
    g.homeScore.Some? && g.awayScore.Some?
  }

  function Keep(completed: bool): Game -> Option<Game>
  {
    (g: Game) => if Completed(g) == completed then Some(g) else None
  }

  /** The completed games and the remaining ones, each in schedule order. */
  function CompletedGames(schedule: seq<Game>): seq<Game>
  {
    FilterMap(Keep(true), schedule)
  }

  function RemainingGames(schedule: seq<Game>): seq<Game>
  {
    FilterMap(Keep(false), schedule)
  }

  /** Every game is either completed or remaining, never both. */
  lemma {:induction false} SchedulePartition(schedule: seq<Game>)
    ensures |CompletedGames(schedule)| + |RemainingGames(schedule)| == |schedule|
    ensures forall g :: g in CompletedGames(schedule) <==> g in schedule && Completed(g)
    ensures forall g :: g in RemainingGames(schedule) <==> g in schedule && !Completed(g)
    decreases |schedule|
  {
    if |schedule| > 0 {
      var n := |schedule| - 1;
      SchedulePartition(schedule[..n]);
      assert schedule == schedule[..n] + [schedule[n]];
      assert forall g :: g in schedule <==> g in schedule[..n] || g == schedule[n];
    }
  }

  /** The winner of a completed game: the home club when it scored more,
    * otherwise the away club (a tie counts for the away club). */
  function WinnerOf(g: Game): string
  {
    if g.homeScore.Some? && g.awayScore.Some? && g.homeScore.value > g.awayScore.value then g.home else g.away
  }

  function AddWin(wins: map<string, int>, g: Game): (r: map<string, int>)
    ensures r.Keys == wins.Keys + {WinnerOf(g)}
  {
    wins[WinnerOf(g) := MC.Banked(wins, WinnerOf(g)) + 1]
  }

  /** The wins already banked, per club. */
  function ActualWins(completed: seq<Game>): map<string, int>
  {
    Final((w: map<string, int>, g: Game) => AddWin(w, g), map[], completed)
  }

  /** Each completed game banks one win, for its winner. */
  lemma ActualWinsStep(completed: seq<Game>, t: string)
    requires |completed| > 0
    ensures var n := |completed| - 1;
      MC.Banked(ActualWins(completed), t) ==
        MC.Banked(ActualWins(completed[..n]), t) + (if t == WinnerOf(completed[n]) then 1 else 0)
  {
  }

  /** The wins of a club are the completed games it won. */
  lemma {:induction false} ActualWinsCount(completed: seq<Game>, t: string)
    ensures MC.Banked(ActualWins(completed), t) == |FilterMap((g: Game) => if WinnerOf(g) == t then Some(g) else None, completed)|
    decreases |completed|
  {
    if |completed| > 0 {
      var n := |completed| - 1;
      ActualWinsCount(completed[..n], t);
      ActualWinsStep(completed, t);
    }
  }

  /** A list of distinct clubs holds one of them at most once. */
  lemma {:induction false} OneHotSum(teams: seq<string>, w: string)
    requires Distinct(teams)
    ensures IntSumOf(teams, (t: string) => if t == w then 1 else 0) == if w in teams then 1 else 0
    decreases |teams|
  {
    if |teams| > 0 {
      var n := |teams| - 1;
      assert Distinct(teams[..n]);
      OneHotSum(teams[..n], w);
      assert teams == teams[..n] + [teams[n]];
    }
  }

  /** Summed over the clubs, the banked wins are one per completed game. */
  lemma {:induction false} ActualWinsTotal(completed: seq<Game>, teams: seq<string>)
    requires Distinct(teams)
    requires forall g :: g in completed ==> WinnerOf(g) in teams
    ensures IntSumOf(teams, MC.BankedFn(ActualWins(completed))) == |completed|
    decreases |completed|
  {
    if |completed| == 0 {
      assert forall t :: MC.BankedFn(ActualWins(completed))(t) == 0;
      MC.IntSumOfSame(teams, MC.BankedFn(ActualWins(completed)), (t: string) => 0);
      ZeroSum(teams);
    } else {
      var n := |completed| - 1;
      var w := WinnerOf(completed[n]);
      ActualWinsTotal(completed[..n], teams);
      forall t ensures MC.BankedFn(ActualWins(completed))(t) ==
          MC.BankedFn(ActualWins(completed[..n]))(t) + (if t == w then 1 else 0) {
        ActualWinsStep(completed, t);
      }
      MC.IntSumOfAdd(teams, MC.BankedFn(ActualWins(completed[..n])), (t: string) => if t == w then 1 else 0,
                     MC.BankedFn(ActualWins(completed)));
      OneHotSum(teams, w);
    }
  }

  lemma {:induction false} ZeroSum(teams: seq<string>)
    ensures IntSumOf(teams, (t: string) => 0) == 0
    decreases |teams|
  {
    if |teams| > 0 {
      ZeroSum(teams[..|teams| - 1]);
    }
  }

  /** Every club in the schedule, home or away. */
  function TeamSet(schedule: seq<Game>): set<string>
  {
    (set g | g in schedule :: g.home) + (set g | g in schedule :: g.away)
  }

  /** The simulator's view of a remaining game, with the game's draws: it is
    * skipped when either club is unrated. */
  function SimFixture(m: Math, elos: map<string, real>, fip: Option<FipData>, g: Game, draws: seq<real>): (f: MC.Fixture)
    requires Lawful(m)
    ensures f.home == g.home && f.away == g.away && f.draws == draws
    ensures MC.Rated(f) <==> Playable(elos, g)
  {
    MC.Fixture(g.home, g.away,
               if Playable(elos, g) then Some(EnhancedProbability(m, elos[g.home], elos[g.away], g.homeSp, g.awaySp, fip))
               else None,
               draws)
  }

  function Fixtures(m: Math, elos: map<string, real>, fip: Option<FipData>, remaining: seq<Game>,
                    draws: seq<seq<real>>): (fs: seq<MC.Fixture>)
    requires Lawful(m) && |draws| == |remaining|
    ensures |fs| == |remaining|
  {
    seq(|remaining|, i requires 0 <= i < |remaining| => SimFixture(m, elos, fip, remaining[i], draws[i]))
  }

  /** `simulate_season`, up to the simulation matrix: the clubs in sorted
    * order, every trial seeded with the banked wins, then every remaining
    * game between rated clubs simulated from its draws. `draws[i]` holds the
    * draws of remaining game `i`, one per trial. */
  method SimulateSeason(m: Math, schedule: seq<Game>, elos: map<string, real>, fip: Option<FipData>,
                        draws: seq<seq<real>>) returns (teams: seq<string>, sim: array2<int>)
    requires Lawful(m) && |draws| == |RemainingGames(schedule)|
    ensures SortedBy(teams, StringLe()) && Distinct(teams)
    ensures forall t :: t in teams <==> t in TeamSet(schedule)
    ensures fresh(sim) && sim.Length0 == SIM_COUNT && sim.Length1 == |teams|
    ensures var fixtures := Fixtures(m, elos, fip, RemainingGames(schedule), draws);
      forall k, j :: 0 <= k < SIM_COUNT && 0 <= j < |teams| ==>
        sim[k, j] == MC.Wins(ActualWins(CompletedGames(schedule)), fixtures, k, teams[j])
  {
    var completed := CompletedGames(schedule);
    var remaining := RemainingGames(schedule);
    teams := SortedSet(TeamSet(schedule));
    var actual: map<string, int> := map[];
    var i := 0;
    while i < |completed|
      invariant 0 <= i <= |completed|
      invariant actual == ActualWins(completed[..i])
    {
      FinalStep((w: map<string, int>, g: Game) => AddWin(w, g), map[], completed, i);
      var g := completed[i];
      var winner := if g.homeScore.Some? && g.awayScore.Some? && g.homeScore.value > g.awayScore.value
                     then g.home else g.away;
      actual := actual[winner := if winner in actual then actual[winner] + 1 else 1];
      i := i + 1;
    }
    assert completed[..i] == completed;
    var fixtures := Fixtures(m, elos, fip, remaining, draws);
    SchedulePartition(schedule);
    forall i | 0 <= i < |fixtures| && MC.Rated(fixtures[i])
      ensures fixtures[i].home in teams && fixtures[i].away in teams
    {
      assert remaining[i] in remaining;
    }
    sim := MC.Simulate(teams, actual, fixtures, SIM_COUNT);
  }

  /** In every trial the clubs' simulated wins add up to the completed
    * games plus the remaining games between rated clubs. */
  lemma SeasonTotal(m: Math, schedule: seq<Game>, elos: map<string, real>, fip: Option<FipData>,
                    draws: seq<seq<real>>, teams: seq<string>, trial: nat)
    requires Lawful(m) && |draws| == |RemainingGames(schedule)|
    requires Distinct(teams) && forall t :: t in TeamSet(schedule) ==> t in teams
    ensures var fixtures := Fixtures(m, elos, fip, RemainingGames(schedule), draws);
      IntSumOf(teams, MC.WinsFn(ActualWins(CompletedGames(schedule)), fixtures, trial)) ==
        |CompletedGames(schedule)| + IntSumOf(fixtures, MC.RatedOne)
  {
    var completed := CompletedGames(schedule);
    var remaining := RemainingGames(schedule);
    var fixtures := Fixtures(m, elos, fip, remaining, draws);
    SchedulePartition(schedule);
    forall g | g in completed ensures WinnerOf(g) in teams {
      assert g in schedule;
    }
    ActualWinsTotal(completed, teams);
    forall i | 0 <= i < |fixtures| && MC.Rated(fixtures[i])
      ensures fixtures[i].home in teams && fixtures[i].away in teams
    {
      assert remaining[i] in remaining;
    }
    MC.TrialTotal(ActualWins(completed), fixtures, trial, teams);
  }

  // Summaries of the simulated seasons.

  function IntLe(): (int, int) -> bool
  {
    (a: int, b: int) => a <= b
  }

  /** `int(np.median(values))`: the middle value, or with an even count the
    * mean of the two middle values truncated toward zero. */
  function Median(values: seq<int>): int
    requires |values| > 0
  {
    var s := Sort(values, IntLe());
    var n := |s|;
    if n % 2 == 1 then s[n / 2]
    else Rounding.Trunc((s[n / 2 - 1] + s[n / 2]) as real / 2.0)
  }

  /** The median lies between two of the values. */
  lemma MedianBounds(values: seq<int>)
    requires |values| > 0
    ensures exists i :: 0 <= i < |values| && values[i] <= Median(values)
    ensures exists j :: 0 <= j < |values| && Median(values) <= values[j]
  {
    var s := Sort(values, IntLe());
    var n := |s|;
    SortSorted(values, IntLe());
    var lo := if n % 2 == 1 then n / 2 else n / 2 - 1;
    var hi := n / 2;
    assert s[lo] <= s[hi];
    var x := (s[lo] + s[hi]) as real / 2.0;
    Rounding.TruncBounds(x);
    assert s[lo] <= Median(values) <= s[hi];
    assert s[lo] in multiset(values) && s[hi] in multiset(values);
    var i :| 0 <= i < |values| && values[i] == s[lo];
    var j :| 0 <= j < |values| && values[j] == s[hi];
  }

  // Playoff odds.

  predicate IsAl(tab: TeamCodes.Tables, t: string)
  {
    t in tab.league && tab.league[t] == "AL"
  }

  /** The American League clubs, in the order of `teams`. */
  function AlTeams(tab: TeamCodes.Tables, teams: seq<string>): seq<string>
  {
    FilterMap((t: string) => if IsAl(tab, t) then Some(t) else None, teams)
  }

  /** `TEAM_DIVISION.get(t, 'Unknown')`. */
  function DivisionOf(tab: TeamCodes.Tables): string -> string
  {
    t => if t in tab.division then tab.division[t] else "Unknown"
  }

  /** A club's wins in one trial, read from the trial's row by the club's
    * column; no tie-break draw. */
  function TrialKey(row: seq<int>, teams: seq<string>): string -> Standing
  {
    t => Standing(if t in teams && MC.IndexOf(teams, t) < |row| then row[MC.IndexOf(teams, t)] else 0, 0.0)
  }

  function TrialField(tab: TeamCodes.Tables, row: seq<int>, teams: seq<string>): Field
  {
    SelectField(AlTeams(tab, teams), DivisionOf(tab), TrialKey(row, teams), TrialKey(row, teams))
  }

  /** The field of every trial. */
  function Fields(tab: TeamCodes.Tables, trials: seq<seq<int>>, teams: seq<string>): (fs: seq<Field>)
    ensures |fs| == |trials|
  {
    seq(|trials|, k requires 0 <= k < |trials| => TrialField(tab, trials[k], teams))
  }

  /** No trial's field takes a division winner as a wild card. */
  lemma FieldsDisjoint(tab: TeamCodes.Tables, trials: seq<seq<int>>, teams: seq<string>)
    ensures forall k :: 0 <= k < |trials| ==> Fields(tab, trials, teams)[k].division * Fields(tab, trials, teams)[k].wildcard == {}
  {
    forall k | 0 <= k < |trials|
      ensures Fields(tab, trials, teams)[k].division * Fields(tab, trials, teams)[k].wildcard == {}
    {
      var key := TrialKey(trials[k], teams);
      WildcardsFacts(AlTeams(tab, teams), DivisionOf(tab), key, key);
    }
  }

  datatype Kind = Playoff | Division | Wildcard

  predicate InKind(f: Field, kind: Kind, t: string)
  {
    match kind
    case Playoff => t in f.Playoff()
    case Division => t in f.division
    case Wildcard => t in f.wildcard
  }

  /** The trials in which club `t` makes the field in the given way. */
  function Tally(fields: seq<Field>, t: string, kind: Kind): (c: nat)
    ensures c <= |fields|
  {
    if |fields| == 0 then 0
    else
      var n := |fields| - 1;
      Tally(fields[..n], t, kind) + (if InKind(fields[n], kind, t) then 1 else 0)
  }

  /** A club makes the playoffs in a trial as a division winner or as a wild
    * card, never both, so its playoff count is the sum of the other two. */
  lemma {:induction false} TallySplit(fields: seq<Field>, t: string)
    requires forall k :: 0 <= k < |fields| ==> fields[k].division * fields[k].wildcard == {}
    ensures Tally(fields, t, Playoff) == Tally(fields, t, Division) + Tally(fields, t, Wildcard)
    decreases |fields|
  {
    if |fields| > 0 {
      var n := |fields| - 1;
      TallySplit(fields[..n], t);
      assert t !in fields[n].division * fields[n].wildcard;
    }
  }

  /** `round(100 * c / n, 1)`. */
  function Pct(c: nat, n: nat): real
    requires n > 0
  {
    Rounding.Round(100.0 * c as real / n as real, 1)
  }

  /** A count out of `n` is a percentage between 0 and 100. */
  lemma PctBounds(c: nat, n: nat)
    requires 0 < n && c <= n
    ensures 0.0 <= Pct(c, n) <= 100.0
  {
    var x := 100.0 * c as real / n as real;
    assert x <= 100.0 by {
      assert c as real / n as real <= 1.0;
    }
    Rounding.RoundSign(x, 1);
    var r := Rounding.RoundHalfEven(x * 10.0);
    assert r as real <= x * 10.0 + 0.5;
    assert r <= 1000;
  }

  datatype OddsRow = OddsRow(team: string, playoffPct: real, divisionPct: real, wildcardPct: real)

  function OddsRowFor(fields: seq<Field>, t: string): OddsRow
    requires |fields| > 0
  {
    var n := |fields|;
    OddsRow(t, Pct(Tally(fields, t, Playoff), n), Pct(Tally(fields, t, Division), n), Pct(Tally(fields, t, Wildcard), n))
  }

  /** One row per club of `al`, in order. */
  function OddsRows(al: seq<string>, fields: seq<Field>): (rows: seq<OddsRow>)
    requires |fields| > 0 || |al| == 0
    ensures |rows| == |al|
  {
    seq(|al|, i requires 0 <= i < |al| => OddsRowFor(fields, al[i]))
  }

  function ByPlayoffPct(): (OddsRow, OddsRow) -> bool
  {
    ByKeyDesc((r: OddsRow) => r.playoffPct)
  }

  function Get(counts: map<string, int>, t: string): int
  {
    if t in counts then counts[t] else 0
  }

  /** Adds one for every member of `s`. */
  function Bump(counts: map<string, int>, s: set<string>): (r: map<string, int>)
    ensures forall t :: Get(r, t) == Get(counts, t) + (if t in s then 1 else 0)
  {
    map t | t in counts.Keys + s :: Get(counts, t) + (if t in s then 1 else 0)
  }

  /** Counting one more trial: `s` holds the clubs the trial's field takes
    * in the given way. */
  lemma BumpTally(counts: map<string, int>, fields: seq<Field>, kind: Kind, k: nat, s: set<string>)
    requires k < |fields|
    requires forall t :: Get(counts, t) == Tally(fields[..k], t, kind)
    requires forall t :: t in s <==> InKind(fields[k], kind, t)
    ensures forall t :: Get(Bump(counts, s), t) == Tally(fields[..k + 1], t, kind)
  {
    assert fields[..k + 1][..k] == fields[..k];
  }

  /** The three counts of `compute_playoff_odds`, trial by trial. */
  method CountFields(tab: TeamCodes.Tables, trials: seq<seq<int>>, teams: seq<string>)
    returns (playoff: map<string, int>, division: map<string, int>, wildcard: map<string, int>)
    ensures var fields := Fields(tab, trials, teams);
      forall t :: Get(playoff, t) == Tally(fields, t, Playoff) && Get(division, t) == Tally(fields, t, Division) &&
        Get(wildcard, t) == Tally(fields, t, Wildcard)
  {
    ghost var fields := Fields(tab, trials, teams);
    playoff, division, wildcard := map[], map[], map[];
    var k := 0;
    while k < |trials|
      invariant 0 <= k <= |trials|
      invariant forall t :: Get(playoff, t) == Tally(fields[..k], t, Playoff)
      invariant forall t :: Get(division, t) == Tally(fields[..k], t, Division)
      invariant forall t :: Get(wildcard, t) == Tally(fields[..k], t, Wildcard)
    {
      var field := TrialField(tab, trials[k], teams);
      assert field == fields[k];
      BumpTally(division, fields, Division, k, field.division);
      BumpTally(wildcard, fields, Wildcard, k, field.wildcard);
      BumpTally(playoff, fields, Playoff, k, field.division + field.wildcard);
      division := Bump(division, field.division);
      wildcard := Bump(wildcard, field.wildcard);
      playoff := Bump(playoff, field.division + field.wildcard);
      k := k + 1;
    }
    assert fields[..k] == fields;
  }

  /** `compute_playoff_odds`, over the rows of the simulation matrix: the
    * three counts per club over all trials, then one row of percentages
    * per American League club, best playoff odds first. */
  method PlayoffOdds(tab: TeamCodes.Tables, trials: seq<seq<int>>, teams: seq<string>) returns (odds: seq<OddsRow>)
    requires |trials| > 0 || |AlTeams(tab, teams)| == 0
    ensures odds == Sort(OddsRows(AlTeams(tab, teams), Fields(tab, trials, teams)), ByPlayoffPct())
  {
    var al := AlTeams(tab, teams);
    ghost var fields := Fields(tab, trials, teams);
    var playoff, division, wildcard := CountFields(tab, trials, teams);
    var rows := RowsFromCounts(al, fields, |trials|, playoff, division, wildcard);
    odds := Sort(rows, ByPlayoffPct());
  }

  /** One row per club of `al`, its three tallies as percentages of `n` trials. */
  method RowsFromCounts(al: seq<string>, ghost fields: seq<Field>, n: nat,
                        playoff: map<string, int>, division: map<string, int>, wildcard: map<string, int>)
    returns (rows: seq<OddsRow>)
    requires n == |fields| && (n > 0 || |al| == 0)
    requires forall t :: (Get(playoff, t) == Tally(fields, t, Playoff) && Get(division, t) == Tally(fields, t, Division) &&
      Get(wildcard, t) == Tally(fields, t, Wildcard))
    ensures rows == OddsRows(al, fields)
  {
    rows := [];
    var i := 0;
    while i < |al|
      invariant 0 <= i <= |al|
      invariant rows == OddsRows(al, fields)[..i]
    {
      var t := al[i];
      rows := rows + [OddsRow(t, Pct(Get(playoff, t), n), Pct(Get(division, t), n), Pct(Get(wildcard, t), n))];
      i := i + 1;
    }
  }

  /** Every row's percentages are between 0 and 100. */
  lemma OddsRowsBounds(al: seq<string>, fields: seq<Field>, r: OddsRow)
    requires |fields| > 0 || |al| == 0
    requires r in OddsRows(al, fields)
    ensures 0.0 <= r.playoffPct <= 100.0 && 0.0 <= r.divisionPct <= 100.0 && 0.0 <= r.wildcardPct <= 100.0
  {
    var rows := OddsRows(al, fields);
    var j :| 0 <= j < |rows| && rows[j] == r;
    var t := al[j];
    assert r == OddsRowFor(fields, t);
    PctBounds(Tally(fields, t, Playoff), |fields|);
    PctBounds(Tally(fields, t, Division), |fields|);
    PctBounds(Tally(fields, t, Wildcard), |fields|);
  }

  /** The odds list one row per club of `al`, best playoff odds first,
    * every percentage between 0 and 100. */
  lemma OddsSpec(al: seq<string>, fields: seq<Field>)
    requires |fields| > 0 || |al| == 0
    ensures var odds := Sort(OddsRows(al, fields), ByPlayoffPct());
      SortedBy(odds, ByPlayoffPct()) &&
      (forall t :: (exists i :: 0 <= i < |odds| && odds[i].team == t) <==> t in al) &&
      forall i :: 0 <= i < |odds| ==>
        0.0 <= odds[i].playoffPct <= 100.0 && 0.0 <= odds[i].divisionPct <= 100.0 && 0.0 <= odds[i].wildcardPct <= 100.0
  {
    var rows := OddsRows(al, fields);
    var odds := Sort(rows, ByPlayoffPct());
    ByKeyDescPreorder((r: OddsRow) => r.playoffPct);
    SortSorted(rows, ByPlayoffPct());
    forall t ensures (exists i :: 0 <= i < |odds| && odds[i].team == t) <==> t in al {
      if t in al {
        var j :| 0 <= j < |al| && al[j] == t;
        assert rows[j].team == t;
        assert rows[j] in multiset(odds);
        var i :| 0 <= i < |odds| && odds[i] == rows[j];
      }
      if exists i :: 0 <= i < |odds| && odds[i].team == t {
        var i :| 0 <= i < |odds| && odds[i].team == t;
        assert odds[i] in multiset(rows);
        var j :| 0 <= j < |rows| && rows[j] == odds[i];
        assert rows[j].team == al[j];
      }
    }
    forall i | 0 <= i < |odds|
      ensures 0.0 <= odds[i].playoffPct <= 100.0 && 0.0 <= odds[i].divisionPct <= 100.0 && 0.0 <= odds[i].wildcardPct <= 100.0
    {
      assert odds[i] in multiset(rows);
      OddsRowsBounds(al, fields, odds[i]);
    }
  }

  // Standings and games back.

  /** A club's projected wins: the median over the trials. */
  datatype SummaryRow = SummaryRow(team: string, medianWins: int, avgWins: real)

  function ByMedianDesc(): (SummaryRow, SummaryRow) -> bool
  {
    (x: SummaryRow, y: SummaryRow) => x.medianWins >= y.medianWins
  }

  /** The American League rows, most projected wins first. */
  function AlStandings(tab: TeamCodes.Tables, summary: seq<SummaryRow>): seq<SummaryRow>
  {
    Sort(FilterMap((r: SummaryRow) => if IsAl(tab, r.team) then Some(r) else None, summary), ByMedianDesc())
  }

  /** The position of the first row of `team`. */
  function FirstRow(s: seq<SummaryRow>, team: string): (i: Option<nat>)
    ensures i.Some? ==> i.value < |s| && s[i.value].team == team && forall j :: 0 <= j < i.value ==> s[j].team != team
    ensures i.None? ==> forall j :: 0 <= j < |s| ==> s[j].team != team
  {
    if |s| == 0 then None
    else if s[0].team == team then Some(0)
    else match FirstRow(s[1..], team)
      case None => None
      case Some(k) => Some(k + 1)
  }

  /** Baltimore's games back from the third wild card: the sixth club's
    * projected wins minus Baltimore's, when there are six clubs and
    * Baltimore is among them. */
  function GamesBack(tab: TeamCodes.Tables, summary: seq<SummaryRow>): Option<int>
  {
    var s := AlStandings(tab, summary);
    if |s| < 6 then None
    else match FirstRow(s, "BAL")
      case None => None
      case Some(b) => Some(s[5].medianWins - s[b].medianWins)
  }

  /** In a list ordered by projected wins, the sixth club's wins minus
    * club `b`'s is positive only when all of the first six clubs project
    * more wins than `b`, and zero or less only when `b` projects at least
    * as many as every club from the sixth on. */
  lemma SixthGap(s: seq<SummaryRow>, b: nat)
    requires SortedBy(s, ByMedianDesc()) && 6 <= |s| && b < |s|
    ensures s[5].medianWins - s[b].medianWins > 0 ==> b > 5 && forall i :: 0 <= i <= 5 ==> s[i].medianWins > s[b].medianWins
    ensures s[5].medianWins - s[b].medianWins <= 0 ==> forall i :: 5 <= i < |s| ==> s[i].medianWins <= s[b].medianWins
  {
    if s[5].medianWins > s[b].medianWins {
      forall i | 0 <= i <= 5 ensures s[i].medianWins > s[b].medianWins {
        if i < 5 {
          assert ByMedianDesc()(s[i], s[5]);
        }
      }
    } else {
      forall i | 5 <= i < |s| ensures s[i].medianWins <= s[b].medianWins {
        if i > 5 {
          assert ByMedianDesc()(s[5], s[i]);
        }
      }
    }
  }

  /** There is a figure exactly when there are six clubs and Baltimore is
    * among them; a positive one means every one of the first six clubs
    * projects strictly more wins than Baltimore, zero or less that
    * Baltimore projects at least as many wins as every club from the sixth
    * on. */
  lemma GamesBackSpec(tab: TeamCodes.Tables, summary: seq<SummaryRow>)
    ensures var s := AlStandings(tab, summary);
      GamesBack(tab, summary).Some? <==> |s| >= 6 && exists i :: 0 <= i < |s| && s[i].team == "BAL"
    ensures var s := AlStandings(tab, summary);
      GamesBack(tab, summary).Some? ==>
        var b := FirstRow(s, "BAL").value;
        (GamesBack(tab, summary).value > 0 ==> b > 5 && forall i :: 0 <= i <= 5 ==> s[i].medianWins > s[b].medianWins) &&
        (GamesBack(tab, summary).value <= 0 ==> forall i :: 5 <= i < |s| ==> s[i].medianWins <= s[b].medianWins)
  {
    var kept := FilterMap((r: SummaryRow) => if IsAl(tab, r.team) then Some(r) else None, summary);
    var s := AlStandings(tab, summary);
    SortSorted(kept, ByMedianDesc());
    var fr := FirstRow(s, "BAL");
    if |s| >= 6 && fr.Some? {
      SixthGap(s, fr.value);
    }
  }

  // The matrix as values.

  /** Column `j` of the matrix: one club's wins over all trials. */
  function Column(sim: array2<int>, j: nat): (c: seq<int>)
    reads sim
    requires j < sim.Length1
    ensures |c| == sim.Length0 && forall k :: 0 <= k < sim.Length0 ==> c[k] == sim[k, j]
  {
    seq(sim.Length0, k requires 0 <= k < sim.Length0 reads sim => sim[k, j])
  }

  /** The rows of the matrix: one trial each. */
  function Rows(sim: array2<int>): (r: seq<seq<int>>)
    reads sim
    ensures |r| == sim.Length0
    ensures forall k :: 0 <= k < sim.Length0 ==> |r[k]| == sim.Length1 && forall j :: 0 <= j < sim.Length1 ==> r[k][j] == sim[k, j]
  {
    seq(sim.Length0, k requires 0 <= k < sim.Length0 reads sim =>
      seq(sim.Length1, j requires 0 <= j < sim.Length1 reads sim => sim[k, j]))
  }

  function AsReal(v: int): real { v as real }

  /** `values.mean()`. */
  function Mean(values: seq<int>): real
    requires |values| > 0
  {
    SumOf(values, AsReal) / |values| as real
  }

  /** The mean lies between the fewest and the most wins of any trial, and
    * `round(mean, 2)` is within half a hundredth of it. */
  lemma MeanSpec(values: seq<int>, lo: int, hi: int)
    requires |values| > 0
    requires forall i :: 0 <= i < |values| ==> lo <= values[i] <= hi
    ensures lo as real <= Mean(values) <= hi as real
    ensures -0.005 <= Rounding.Round(Mean(values), 2) - Mean(values) <= 0.005
  {
    SumOfAtMost(values, AsReal, hi as real);
    SumOfAtLeast(values, AsReal, lo as real);
    QuotientBetween(SumOf(values, AsReal), |values| as real, lo as real, hi as real);
    Rounding.RoundError(Mean(values), 2);
  }

  lemma QuotientBetween(sum: real, n: real, lo: real, hi: real)
    requires n > 0.0 && n * lo <= sum <= n * hi
    ensures lo <= sum / n <= hi
  {
    var q := sum / n;
    assert q * n == sum;
  }

  /** A club's summary row: its median wins, and its mean wins rounded to
    * two decimals. */
  function SummaryOf(team: string, values: seq<int>): (r: SummaryRow)
    requires |values| > 0
    ensures r.team == team && r.medianWins == Median(values)
    ensures -0.005 <= r.avgWins - Mean(values) <= 0.005
  {
    Rounding.RoundError(Mean(values), 2);
    SummaryRow(team, Median(values), Rounding.Round(Mean(values), 2))
  }

  /** The per-club summary `simulate_season` writes, reduced to the median
    * the standings use and the mean wins. */
  method Summarize(sim: array2<int>, teams: seq<string>) returns (summary: seq<SummaryRow>)
    requires sim.Length0 > 0 && sim.Length1 == |teams|
    ensures |summary| == |teams|
    ensures forall j :: 0 <= j < |teams| ==> summary[j] == SummaryOf(teams[j], Column(sim, j))
  {
    summary := [];
    var j := 0;
    while j < |teams|
      invariant 0 <= j <= |teams| && |summary| == j
      invariant forall i :: 0 <= i < j ==> summary[i] == SummaryOf(teams[i], Column(sim, i))
    {
      summary := summary + [SummaryOf(teams[j], Column(sim, j))];
      j := j + 1;
    }
  }

  // Fading toward the preseason ratings.

  /** What one game adds to a club's games played: one per side it is on. */
  function Appearances(t: string): Game -> int
  {
    (g: Game) => (if g.home == t then 1 else 0) + (if g.away == t then 1 else 0)
  }

  /** A club's games played: its appearances, home or away, in the
    * completed games. */
  function GamesPlayed(completed: seq<Game>, t: string): nat
  {
    if |completed| == 0 then 0
    else
      var n := |completed| - 1;
      GamesPlayed(completed[..n], t) + Appearances(t)(completed[n])
  }

  /** A club's simulation rating: unchanged without a preseason rating,
    * otherwise the blend at its games played, rounded to two decimals. */
  function RegressedOne(current: real, preseason: map<string, real>, t: string, gp: int): real
  {
    if t !in preseason then current
    else Rounding.Round(Fade.Blend(Fade.LinearWeight(gp), current, preseason[t]), 2)
  }

  function Regressed(current: map<string, real>, preseason: map<string, real>, completed: seq<Game>): (r: map<string, real>)
    ensures r.Keys == current.Keys
  {
    map t | t in current :: RegressedOne(current[t], preseason, t, GamesPlayed(completed, t))
  }

  /** The games-played count of `regress_elo_to_preseason`. */
  method CountGamesPlayed(completed: seq<Game>) returns (gp: map<string, int>)
    ensures forall t :: Get(gp, t) == GamesPlayed(completed, t)
  {
    gp := map[];
    var i := 0;
    while i < |completed|
      invariant 0 <= i <= |completed|
      invariant forall t :: Get(gp, t) == GamesPlayed(completed[..i], t)
    {
      var g := completed[i];
      assert completed[..i + 1][..i] == completed[..i];
      gp := gp[g.home := Get(gp, g.home) + 1];
      gp := gp[g.away := Get(gp, g.away) + 1];
      i := i + 1;
    }
    assert completed[..i] == completed;
  }

  /** `regress_elo_to_preseason`: games played per club over the completed
    * games, then each club's rating faded toward its preseason one. */
  method RegressEloToPreseason(current: map<string, real>, preseason: map<string, real>, schedule: seq<Game>)
    returns (regressed: map<string, real>)
    ensures regressed == Regressed(current, preseason, CompletedGames(schedule))
  {
    var completed := CompletedGames(schedule);
    var gp := CountGamesPlayed(completed);
    regressed := map[];
    var todo := current.Keys;
    while todo != {}
      invariant todo <= current.Keys && regressed.Keys == current.Keys - todo
      invariant forall t :: t in regressed ==> regressed[t] == RegressedOne(current[t], preseason, t, GamesPlayed(completed, t))
      decreases todo
    {
      var t :| t in todo;
      var elo := current[t];
      var value := elo;
      if t in preseason {
        var pct := Fade.LinearWeight(Get(gp, t));
        value := Rounding.Round(Fade.Blend(pct, elo, preseason[t]), 2);
      }
      assert value == RegressedOne(current[t], preseason, t, GamesPlayed(completed, t));
      regressed := regressed[t := value];
      todo := todo - {t};
    }
  }

  /** A faded rating is within half a hundredth of a point between the
    * current and the preseason rating: the preseason one (rounded) before
    * the first game, the current one (rounded) from the hundredth on. */
  lemma RegressedSpec(current: map<string, real>, preseason: map<string, real>, completed: seq<Game>, t: string)
    requires t in current
    ensures t !in preseason ==> Regressed(current, preseason, completed)[t] == current[t]
    ensures t in preseason ==>
      var r := Regressed(current, preseason, completed)[t];
      var lo := if current[t] <= preseason[t] then current[t] else preseason[t];
      var hi := if current[t] <= preseason[t] then preseason[t] else current[t];
      lo - 0.005 <= r <= hi + 0.005 &&
      (GamesPlayed(completed, t) <= 0 ==> r == Rounding.Round(preseason[t], 2)) &&
      (GamesPlayed(completed, t) >= Fade.FADE_GAMES ==> r == Rounding.Round(current[t], 2))
  {
    if t in preseason {
      var gp := GamesPlayed(completed, t);
      var pct := Fade.LinearWeight(gp);
      var x := Fade.Blend(pct, current[t], preseason[t]);
      Fade.BlendBetween(pct, pct, current[t], preseason[t]);
      Rounding.RoundError(x, 2);
      assert Rounding.Unit(2) == 0.01;
      Fade.BlendEnds(current[t], preseason[t]);
    }
  }

  /** Every completed game counts once for each side, so the games played
    * add up to twice the completed games (the source halves this sum for
    * its log line). */
  lemma {:induction false} GamesPlayedTotal(completed: seq<Game>, teams: seq<string>)
    requires Distinct(teams)
    requires forall g :: g in completed ==> g.home in teams && g.away in teams
    ensures IntSumOf(teams, (t: string) => GamesPlayed(completed, t)) == 2 * |completed|
    decreases |completed|
  {
    if |completed| == 0 {
      MC.IntSumOfSame(teams, (t: string) => GamesPlayed(completed, t), (t: string) => 0);
      ZeroSum(teams);
    } else {
      var n := |completed| - 1;
      var g := completed[n];
      GamesPlayedTotal(completed[..n], teams);
      var home := (t: string) => if t == g.home then 1 else 0;
      var away := (t: string) => if t == g.away then 1 else 0;
      var both := (t: string) => home(t) + away(t);
      var before := (t: string) => GamesPlayed(completed[..n], t);
      assert forall t :: GamesPlayed(completed, t) == before(t) + both(t);
      MC.IntSumOfAdd(teams, before, both, (t: string) => GamesPlayed(completed, t));
      MC.IntSumOfAdd(teams, home, away, both);
      OneHotSum(teams, g.home);
      OneHotSum(teams, g.away);
      MC.IntSumOfSame(teams, home, (t: string) => if t == g.home then 1 else 0);
      MC.IntSumOfSame(teams, away, (t: string) => if t == g.away then 1 else 0);
    }
  }

  // The handler.

  /** The ratings adjusted for injuries: every rated club keeps its key, and
    * a club without an adjustment keeps its rating. */
  function AdjustedRatings(elos: map<string, real>, injury: map<string, real>): (r: map<string, real>)
    ensures r.Keys == elos.Keys
    ensures forall t :: t in elos && t !in injury ==> r[t] == elos[t]
  {
    map t | t in elos :: elos[t] + (if t in injury then injury[t] else 0.0)
  }

  /** The ratings the predictions and the simulation use: adjusted for
    * injuries, then faded toward the preseason ratings when a non-empty
    * preseason table loaded. */
  function SimulationRatings(elos: map<string, real>, injury: map<string, real>, preseason: Option<map<string, real>>,
                             completed: seq<Game>): (r: map<string, real>)
    ensures r.Keys == elos.Keys
  {
    var adjusted := AdjustedRatings(elos, injury);
    if preseason.Some? && |preseason.value| > 0 then Regressed(adjusted, preseason.value, completed) else adjusted
  }

  /** The simulated matrix as the specification sees it: trial `k`, club
    * `teams[j]`. */
  function SimRows(m: Math, schedule: seq<Game>, elos: map<string, real>, fip: Option<FipData>,
                   draws: seq<seq<real>>, teams: seq<string>): seq<seq<int>>
    requires Lawful(m) && |draws| == |RemainingGames(schedule)|
  {
    var fixtures := Fixtures(m, elos, fip, RemainingGames(schedule), draws);
    seq(SIM_COUNT, k requires 0 <= k < SIM_COUNT =>
      seq(|teams|, j requires 0 <= j < |teams| => MC.Wins(ActualWins(CompletedGames(schedule)), fixtures, k, teams[j])))
  }

  /** `lambda_handler`, over its inputs: the rating records, the schedule,
    * today's date, the FIP data, the injury adjustments, the preseason
    * ratings and the simulation's draws. It returns what it writes: the
    * next-game rows, the clubs and the per-club summary, the playoff odds
    * and Baltimore's games back. */
  method LambdaHandler(m: Math, items: seq<EloItem>, schedule: seq<Game>, today: string, fip: Option<FipData>,
                       injury: map<string, real>, preseason: Option<map<string, real>>, draws: seq<seq<real>>)
    returns (predictions: seq<Prediction>, teams: seq<string>, summary: seq<SummaryRow>, odds: seq<OddsRow>,
             gamesBack: Option<int>)
    requires Lawful(m) && |draws| == |RemainingGames(schedule)|
    ensures var ratings := SimulationRatings(LatestRatings(items), injury, preseason, CompletedGames(schedule));
      predictions == NextGames(m, ratings, fip, Future(schedule, today)).rows &&
      SortedBy(teams, StringLe()) && Distinct(teams) && (forall t :: t in teams <==> t in TeamSet(schedule)) &&
      |summary| == |teams| && (forall j :: 0 <= j < |teams| ==> summary[j].team == teams[j]) &&
      gamesBack == GamesBack(TeamCodes.MlbTables(), summary) &&
      odds == Sort(OddsRows(AlTeams(TeamCodes.MlbTables(), teams),
                            Fields(TeamCodes.MlbTables(), SimRows(m, schedule, ratings, fip, draws, teams), teams)), ByPlayoffPct())
  {
    var elos := FetchLatestEloRatings(items);
    var adjusted := map t | t in elos :: elos[t] + (if t in injury then injury[t] else 0.0);
    assert adjusted == AdjustedRatings(elos, injury);
    if preseason.Some? && |preseason.value| > 0 {
      adjusted := RegressEloToPreseason(adjusted, preseason.value, schedule);
    }
    assert adjusted == SimulationRatings(LatestRatings(items), injury, preseason, CompletedGames(schedule));
    predictions := GenerateNextGamePredictions(m, schedule, today, adjusted, fip);
    var sim;
    teams, sim := SimulateSeason(m, schedule, adjusted, fip, draws);
    summary := Summarize(sim, teams);
    gamesBack := GamesBack(TeamCodes.MlbTables(), summary);
    var trials := Rows(sim);
    SimulatedRows(m, schedule, adjusted, fip, draws, teams, sim);
    odds := PlayoffOdds(TeamCodes.MlbTables(), trials, teams);
  }

  /** The matrix the simulation filled, read out by trial, is the one the
    * specification defines. */
  lemma SimulatedRows(m: Math, schedule: seq<Game>, elos: map<string, real>, fip: Option<FipData>,
                      draws: seq<seq<real>>, teams: seq<string>, sim: array2<int>)
    requires Lawful(m) && |draws| == |RemainingGames(schedule)|
    requires sim.Length0 == SIM_COUNT && sim.Length1 == |teams|
    requires var fixtures := Fixtures(m, elos, fip, RemainingGames(schedule), draws);
      forall k, j :: 0 <= k < SIM_COUNT && 0 <= j < |teams| ==>
        sim[k, j] == MC.Wins(ActualWins(CompletedGames(schedule)), fixtures, k, teams[j])
    ensures Rows(sim) == SimRows(m, schedule, elos, fip, draws, teams)
  {
    var trials := Rows(sim);
    var spec := SimRows(m, schedule, elos, fip, draws, teams);
    forall k | 0 <= k < SIM_COUNT ensures trials[k] == spec[k] {
      assert |trials[k]| == |spec[k]|;
    }
  }
}
