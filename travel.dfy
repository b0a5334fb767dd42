/** Travel fatigue for the win-probability model: where each club played
  * its previous game, and the rating penalty for a long eastward trip. */
module Travel {
  import opened Wrappers
  import opened Sorting
  import opened ModelSchedule

  // Previous venues.

  /** One game of a club: its date and the home club, whose park it is. */
  datatype Visit = Visit(date: string, venueTeam: string)

  /** A club's games in schedule order; a club listed as both sides of a
    * game gets two entries, as the tracker appends once per side. */
  function History(games: seq<Game>, team: string): seq<Visit>
  {
    if |games| == 0 then []
    else
      var g := games[|games| - 1];
      History(games[..|games| - 1], team) + Sides(g, team)
  }

  /** The entries one game adds to a club's history: one per side it is
    * listed on. */
  function Sides(g: Game, team: string): seq<Visit>
  {
    (if g.home == team then [Visit(g.date, g.home)] else []) + (if g.away == team then [Visit(g.date, g.home)] else [])
  }

  function ByDate(): (le: (Visit, Visit) -> bool)
  {
    (a: Visit, b: Visit) => LexLe(a.date, b.date)
  }

  /** A club's games in date order; the sort is stable. */
  function DatedHistory(games: seq<Game>, team: string): seq<Visit>
  {
    Sort(History(games, team), ByDate())
  }

  /** `o` with `t` appended unless it is already there. */
  function AddTeam(o: seq<string>, t: string): (r: seq<string>)
    ensures forall x :: x in r <==> x in o || x == t
  {
    if t in o then o else o + [t]
  }

  /** The clubs in order of first appearance, as the tracker's dict holds
    * them. */
  function TeamOrder(games: seq<Game>): seq<string>
  {
    if |games| == 0 then []
    else
      var g := games[|games| - 1];
      AddTeam(AddTeam(TeamOrder(games[..|games| - 1]), g.home), g.away)
  }

  /** The entries for a club's visits 1 .. k-1: visit i maps to the venue
    * of visit i - 1; a later visit on the same date wins. */
  function TrackerUpTo(team: string, h: seq<Visit>, k: nat): map<(string, string), string>
    requires k <= |h|
  {
    if k <= 1 then map[]
    else TrackerUpTo(team, h, k - 1)[(team, h[k - 1].date) := h[k - 2].venueTeam]
  }

  /** One club's entries: built from its games in date order. */
  function TeamPart(games: seq<Game>, team: string): map<(string, string), string>
  {
    var h := DatedHistory(games, team);
    TrackerUpTo(team, h, |h|)
  }

  /** The tracker's entries for the clubs of `order`, one club after the
    * other. */
  function TrackerOver(games: seq<Game>, order: seq<string>): map<(string, string), string>
  {
    if |order| == 0 then map[]
    else TrackerOver(games, order[..|order| - 1]) + TeamPart(games, order[|order| - 1])
  }

  function Tracker(games: seq<Game>): map<(string, string), string>
  {
    TrackerOver(games, TeamOrder(games))
  }

  /** `team_games[t].append(v)` on a defaultdict of lists. */
  function Append(tg: map<string, seq<Visit>>, t: string, v: Visit): (r: map<string, seq<Visit>>)
    ensures r.Keys == tg.Keys + {t}
    ensures r[t] == (if t in tg then tg[t] else []) + [v]
    ensures forall u :: u in tg && u != t ==> r[u] == tg[u]
  {
    tg[t := (if t in tg then tg[t] else []) + [v]]
  }

  /** Appending a game to both its clubs' lists adds its `Sides` to
    * every club's list. */
  lemma AppendSides(tg: map<string, seq<Visit>>, g: Game, t: string)
    ensures var v := Visit(g.date, g.home);
      var r := Append(Append(tg, g.home, v), g.away, v);
      (if t in r then r[t] else []) == (if t in tg then tg[t] else []) + Sides(g, t)
  {
    var v := Visit(g.date, g.home);
    var r1 := Append(tg, g.home, v);
    var r := Append(r1, g.away, v);
    var before := if t in tg then tg[t] else [];
    if t == g.home && t == g.away {
      assert Sides(g, t) == [v] + [v];
      assert r[t] == before + [v] + [v];
    } else if t == g.home {
      assert Sides(g, t) == [v];
    } else if t == g.away {
      assert Sides(g, t) == [v];
    } else {
      assert Sides(g, t) == [];
    }
  }

  /** The lists the first loop of `build_travel_tracker` builds. */
  function Grouped(games: seq<Game>): map<string, seq<Visit>>
  {
    if |games| == 0 then map[]
    else
      var g := games[|games| - 1];
      var v := Visit(g.date, g.home);
      Append(Append(Grouped(games[..|games| - 1]), g.home, v), g.away, v)
  }

  /** The lists hold every club of the schedule, each with its history. */
  lemma {:induction false} GroupedIsHistory(games: seq<Game>, t: string)
    ensures t in Grouped(games) <==> t in TeamOrder(games)
    ensures History(games, t) == if t in Grouped(games) then Grouped(games)[t] else []
    decreases |games|
  {
    if |games| > 0 {
      var init := games[..|games| - 1];
      var g := games[|games| - 1];
      GroupedIsHistory(init, t);
      AppendSides(Grouped(init), g, t);
    }
  }

  /** The first loop of `build_travel_tracker`: each club's games in
    * schedule order, and the clubs in order of first appearance. */
  method GroupByTeam(games: seq<Game>) returns (teamGames: map<string, seq<Visit>>, order: seq<string>)
    ensures order == TeamOrder(games)
    ensures forall t :: t in teamGames <==> t in order
    ensures forall t :: t in teamGames ==> teamGames[t] == History(games, t)
  {
    teamGames := map[];
    order := [];
    var i := 0;
    while i < |games|
      invariant 0 <= i <= |games|
      invariant order == TeamOrder(games[..i])
      invariant teamGames == Grouped(games[..i])
    {
      var g := games[i];
      var v := Visit(g.date, g.home);
      assert games[..i + 1][..i] == games[..i];
      teamGames := Append(Append(teamGames, g.home, v), g.away, v);
      order := AddTeam(AddTeam(order, g.home), g.away);
      i := i + 1;
    }
    assert games[..i] == games;
    forall t ensures (t in teamGames <==> t in order) && (t in teamGames ==> teamGames[t] == History(games, t)) {
      GroupedIsHistory(games, t);
    }
  }

  /** The second loop of `build_travel_tracker` for one club: `tg` is its
    * games in date order. */
  method AddTeamPart(prevVenue: map<(string, string), string>, team: string, tg: seq<Visit>)
    returns (r: map<(string, string), string>)
    ensures r == prevVenue + TrackerUpTo(team, tg, |tg|)
  {
    r := prevVenue;
    var k := 1;
    while k < |tg|
      invariant 1 <= k
      invariant r == prevVenue + TrackerUpTo(team, tg, if k <= |tg| then k else |tg|)
    {
      r := r[(team, tg[k].date) := tg[k - 1].venueTeam];
      k := k + 1;
    }
  }

  /** `build_travel_tracker`: group the games by club, sort each club's games
    * by date, and record for every game after the first where the club
    * played before. */
  method BuildTravelTracker(games: seq<Game>) returns (prevVenue: map<(string, string), string>)
    ensures prevVenue == Tracker(games)
  {
    var teamGames, order := GroupByTeam(games);
    prevVenue := map[];
    var j := 0;
    while j < |order|
      invariant 0 <= j <= |order|
      invariant prevVenue == TrackerOver(games, order[..j])
    {
      var t := order[j];
      var tg := Sort(teamGames[t], ByDate());
      assert tg == DatedHistory(games, t);
      prevVenue := AddTeamPart(prevVenue, t, tg);
      assert order[..j + 1][..j] == order[..j];
      j := j + 1;
    }
    assert order[..j] == order;
  }

  /** Visit `i` is, among visits 1 .. k-1, the last one on date `d`. */
  predicate LastOn(h: seq<Visit>, k: nat, i: nat, d: string)
    requires k <= |h|
  {
    1 <= i < k && h[i].date == d && forall j :: i < j < k ==> h[j].date != d
  }

  /** Visit i of a club (i >= 1) maps to the venue of visit i - 1, for the
    * last visit i with that date; the first visit has no entry. */
  lemma {:induction false} TrackerUpToSpec(team: string, h: seq<Visit>, k: nat, key: (string, string))
    requires k <= |h|
    ensures key in TrackerUpTo(team, h, k) <==>
      key.0 == team && exists i :: 1 <= i < k && h[i].date == key.1
    ensures key in TrackerUpTo(team, h, k) ==>
      exists i :: LastOn(h, k, i, key.1) && TrackerUpTo(team, h, k)[key] == h[i - 1].venueTeam
    decreases k
  {
    if k > 1 {
      TrackerUpToSpec(team, h, k - 1, key);
      var m := TrackerUpTo(team, h, k - 1);
      var newKey := (team, h[k - 1].date);
      assert TrackerUpTo(team, h, k) == m[newKey := h[k - 2].venueTeam];
      if key == newKey {
        assert LastOn(h, k, k - 1, key.1);
      } else if key in m {
        var i :| LastOn(h, k - 1, i, key.1) && m[key] == h[i - 1].venueTeam;
        assert LastOn(h, k, i, key.1);
      }
    }
  }

  /** Every entry of a club's part of the tracker is keyed by that club. */
  lemma TeamPartOwned(games: seq<Game>, team: string, key: (string, string))
    requires key in TeamPart(games, team)
    ensures key.0 == team
  {
    var h := DatedHistory(games, team);
    TrackerUpToSpec(team, h, |h|, key);
  }

  /** A club's entries in the whole tracker are exactly the entries built
    * from its own dated games. */
  lemma {:induction false} TrackerOverLookup(games: seq<Game>, order: seq<string>, t: string, key: (string, string))
    requires key.0 == t
    ensures key in TrackerOver(games, order) <==> t in order && key in TeamPart(games, t)
    ensures key in TrackerOver(games, order) ==> TrackerOver(games, order)[key] == TeamPart(games, t)[key]
    decreases |order|
  {
    if |order| > 0 {
      var u := order[|order| - 1];
      var init := order[..|order| - 1];
      TrackerOverLookup(games, init, t, key);
      var a := TrackerOver(games, init);
      var p := TeamPart(games, u);
      assert TrackerOver(games, order) == a + p;
      UnionLookup(a, p, key);
      if key in p {
        TeamPartOwned(games, u, key);
      }
      InitLast(order);
    }
  }

  lemma InitLast<T>(s: seq<T>)
    requires |s| > 0
    ensures forall x :: x in s <==> x in s[..|s| - 1] || x == s[|s| - 1]
  {
    assert s == s[..|s| - 1] + [s[|s| - 1]];
  }

  lemma UnionLookup<K, V>(a: map<K, V>, b: map<K, V>, key: K)
    ensures key in a + b <==> key in a || key in b
    ensures key in a + b ==> (a + b)[key] == if key in b then b[key] else a[key]
  {
  }

  /** A club with a game is among the clubs the tracker goes through. */
  lemma {:induction false} HistoryInOrder(games: seq<Game>, t: string)
    requires History(games, t) != []
    ensures t in TeamOrder(games)
    decreases |games|
  {
    var init := games[..|games| - 1];
    var g := games[|games| - 1];
    if g.home != t && g.away != t {
      assert Sides(g, t) == [];
      HistoryInOrder(init, t);
    }
  }

  /** `build_travel_tracker` maps (club, date) to the home club of the
    * club's previous game in date order, exactly for its games after the
    * first; on a date with two games the later one wins. */
  lemma TrackerSpec(games: seq<Game>, t: string, d: string)
    ensures var h := DatedHistory(games, t);
      (t, d) in Tracker(games) <==> exists i :: 1 <= i < |h| && h[i].date == d
    ensures var h := DatedHistory(games, t);
      (t, d) in Tracker(games) ==> exists i :: LastOn(h, |h|, i, d) && Tracker(games)[(t, d)] == h[i - 1].venueTeam
  {
    var h := DatedHistory(games, t);
    TrackerOverLookup(games, TeamOrder(games), t, (t, d));
    TrackerUpToSpec(t, h, |h|, (t, d));
    if |h| > 0 {
      assert |History(games, t)| == |h|;
      HistoryInOrder(games, t);
    }
  }

  // The penalty.

  const TRAVEL_PENALTY: real := 10.0
  /** The offset assumed for a park missing from the timezone table. */
  const DEFAULT_TZ_OFFSET: int := -6

  /** `get_travel_penalty` for a club arriving at `venueTeam`'s park. */
  function TravelPenalty(team: string, date: string, venueTeam: string, prevVenue: map<(string, string), string>,
                         tz: map<string, int>, distances: map<(string, string), real>, penalty: real): (r: real)
    ensures r == 0.0 || r == penalty
  {
    if (team, date) !in prevVenue || prevVenue[(team, date)] == venueTeam then 0.0
    else
      var prev := prevVenue[(team, date)];
      var dist := if (prev, venueTeam) in distances then distances[(prev, venueTeam)] else 0.0;
      if dist < 1000.0 then 0.0
      else
        var tzFrom := if prev in tz then tz[prev] else DEFAULT_TZ_OFFSET;
        var tzTo := if venueTeam in tz then tz[venueTeam] else DEFAULT_TZ_OFFSET;
        if tzTo - tzFrom >= 2 then penalty else 0.0
  }

  /** The penalty applies exactly when the club comes from a different park
    * at least 1000 miles away (a missing distance counts as 0) and moves at
    * least two time zones east. */
  lemma TravelPenaltyIff(team: string, date: string, venueTeam: string, prevVenue: map<(string, string), string>,
                         tz: map<string, int>, distances: map<(string, string), real>, penalty: real)
    requires penalty != 0.0
    ensures TravelPenalty(team, date, venueTeam, prevVenue, tz, distances, penalty) == penalty <==>
      (team, date) in prevVenue && prevVenue[(team, date)] != venueTeam &&
      (prevVenue[(team, date)], venueTeam) in distances && distances[(prevVenue[(team, date)], venueTeam)] >= 1000.0 &&
      (if venueTeam in tz then tz[venueTeam] else DEFAULT_TZ_OFFSET) -
        (if prevVenue[(team, date)] in tz then tz[prevVenue[(team, date)]] else DEFAULT_TZ_OFFSET) >= 2
  {
  }
}
