/** The ballpark table behind the travel penalty: the 30 parks with their
  * coordinates and UTC offsets, the pairwise distance table, the list of
  * unordered park pairs with their distance, time-zone shift and direction,
  * and the west-to-east trips long enough to tire a club. The great-circle
  * distance is a parameter. */
module BallparkDistances {
  import opened PairTables
  import opened TeamCodes
  import Sorting
  import Rounding

  /** A park's latitude and longitude in degrees and its UTC offset in
    * hours. */
  datatype Park = Park(lat: real, lon: real, tzOffset: int)

  const BALLPARK_ROWS: seq<(string, Park)> :=
    [("AZ", Park(33.4455, -112.0667, -7)), ("ATL", Park(33.8907, -84.4677, -5)), ("BAL", Park(39.2838, -76.6216, -5))] +
    [("BOS", Park(42.3467, -71.0972, -5)), ("CHC", Park(41.9484, -87.6553, -6)), ("CIN", Park(39.0974, -84.5082, -5))] +
    [("CLE", Park(41.4962, -81.6852, -5)), ("COL", Park(39.7559, -104.9942, -7)), ("CWS", Park(41.8299, -87.6338, -6))] +
    [("DET", Park(42.3390, -83.0485, -5)), ("HOU", Park(29.7573, -95.3555, -6)), ("KC", Park(39.0517, -94.4803, -6))] +
    [("LAA", Park(33.8003, -117.8827, -8)), ("LAD", Park(34.0739, -118.2400, -8)), ("MIA", Park(25.7781, -80.2196, -5))] +
    [("MIL", Park(43.0280, -87.9712, -6)), ("MIN", Park(44.9818, -93.2775, -6)), ("NYM", Park(40.7571, -73.8458, -5))] +
    [("NYY", Park(40.8296, -73.9262, -5)), ("ATH", Park(38.5802, -121.5111, -8)), ("PHI", Park(39.9061, -75.1665, -5))] +
    [("PIT", Park(40.4469, -80.0057, -5)), ("SD", Park(32.7076, -117.1570, -8)), ("SEA", Park(47.5914, -122.3325, -8))] +
    [("SF", Park(37.7786, -122.3893, -8)), ("STL", Park(38.6226, -90.1928, -6)), ("TB", Park(27.7682, -82.6534, -5))] +
    [("TEX", Park(32.7512, -97.0832, -6)), ("TOR", Park(43.6414, -79.3894, -5)), ("WSH", Park(38.8730, -77.0074, -5))]

  /** `BALLPARKS`. */
  function Ballparks(): map<string, Park> { PairsToMap(BALLPARK_ROWS) }

  // Row facts about the literal table.

  /** Where each park row's club sits in the league table, and back. */
  ghost const BALLPARK_ORDER: seq<int> :=
    [25, 15, 0, 1, 20, 21, 6, 26, 5, 7, 10, 8, 11, 27, 16, 22, 9, 17, 2, 12, 18, 23, 28, 13, 29, 24, 3, 14, 4, 19]
  ghost const BALLPARK_BACK: seq<int> :=
    [2, 3, 18, 26, 28, 8, 6, 9, 11, 16, 10, 12, 19, 23, 27, 1, 14, 17, 20, 29, 4, 5, 15, 21, 25, 0, 7, 13, 22, 24]

  lemma BallparkRowsFollowLeague()
    ensures |BALLPARK_ROWS| == |BALLPARK_ORDER| == 30 && KeysFollow(BALLPARK_ROWS, LEAGUE_PAIRS, BALLPARK_ORDER)
  {
    forall i | 0 <= i < 30
      ensures 0 <= BALLPARK_ORDER[i] < |LEAGUE_PAIRS| && KeyAt(BALLPARK_ROWS, i) == KeyAt(LEAGUE_PAIRS, BALLPARK_ORDER[i])
    {
      // one case per row, so that each row is checked on its own
      if i == 0 {} else if i == 1 {} else if i == 2 {} else if i == 3 {} else if i == 4 {} else if i == 5 {} else if i == 6 {} else if i == 7 {} else if i == 8 {} else if i == 9 {} else if i == 10 {} else if i == 11 {} else if i == 12 {} else if i == 13 {} else if i == 14 {} else if i == 15 {} else if i == 16 {} else if i == 17 {} else if i == 18 {} else if i == 19 {} else if i == 20 {} else if i == 21 {} else if i == 22 {} else if i == 23 {} else if i == 24 {} else if i == 25 {} else if i == 26 {} else if i == 27 {} else if i == 28 {} else {}
    }
  }

  lemma LeagueRowsFollowBallparks()
    ensures |LEAGUE_PAIRS| == |BALLPARK_BACK| == 30 && KeysFollow(LEAGUE_PAIRS, BALLPARK_ROWS, BALLPARK_BACK)
  {
    forall i | 0 <= i < 30
      ensures 0 <= BALLPARK_BACK[i] < |BALLPARK_ROWS| && KeyAt(LEAGUE_PAIRS, i) == KeyAt(BALLPARK_ROWS, BALLPARK_BACK[i])
    {
      // one case per row, so that each row is checked on its own
      if i == 0 {} else if i == 1 {} else if i == 2 {} else if i == 3 {} else if i == 4 {} else if i == 5 {} else if i == 6 {} else if i == 7 {} else if i == 8 {} else if i == 9 {} else if i == 10 {} else if i == 11 {} else if i == 12 {} else if i == 13 {} else if i == 14 {} else if i == 15 {} else if i == 16 {} else if i == 17 {} else if i == 18 {} else if i == 19 {} else if i == 20 {} else if i == 21 {} else if i == 22 {} else if i == 23 {} else if i == 24 {} else if i == 25 {} else if i == 26 {} else if i == 27 {} else if i == 28 {} else {}
    }
  }

  lemma BallparkOrderBack()
    ensures forall i :: 0 <= i < 30 ==> 0 <= BALLPARK_ORDER[i] < 30 && BALLPARK_BACK[BALLPARK_ORDER[i]] == i
  {
    forall i | 0 <= i < 30 ensures 0 <= BALLPARK_ORDER[i] < 30 && BALLPARK_BACK[BALLPARK_ORDER[i]] == i {
      // one case per row, so that each row is checked on its own
      if i == 0 {} else if i == 1 {} else if i == 2 {} else if i == 3 {} else if i == 4 {} else if i == 5 {} else if i == 6 {} else if i == 7 {} else if i == 8 {} else if i == 9 {} else if i == 10 {} else if i == 11 {} else if i == 12 {} else if i == 13 {} else if i == 14 {} else if i == 15 {} else if i == 16 {} else if i == 17 {} else if i == 18 {} else if i == 19 {} else if i == 20 {} else if i == 21 {} else if i == 22 {} else if i == 23 {} else if i == 24 {} else if i == 25 {} else if i == 26 {} else if i == 27 {} else if i == 28 {} else {}
    }
  }

  lemma BallparkRowOffsets()
    ensures forall i :: 0 <= i < |BALLPARK_ROWS| ==> -8 <= ValueAt(BALLPARK_ROWS, i).tzOffset <= -5
  {
    forall i | 0 <= i < |BALLPARK_ROWS| ensures -8 <= ValueAt(BALLPARK_ROWS, i).tzOffset <= -5 {
      // one case per row, so that each row is checked on its own
      if i == 0 {} else if i == 1 {} else if i == 2 {} else if i == 3 {} else if i == 4 {} else if i == 5 {} else if i == 6 {} else if i == 7 {} else if i == 8 {} else if i == 9 {} else if i == 10 {} else if i == 11 {} else if i == 12 {} else if i == 13 {} else if i == 14 {} else if i == 15 {} else if i == 16 {} else if i == 17 {} else if i == 18 {} else if i == 19 {} else if i == 20 {} else if i == 21 {} else if i == 22 {} else if i == 23 {} else if i == 24 {} else if i == 25 {} else if i == 26 {} else if i == 27 {} else if i == 28 {} else {}
    }
  }

  /** The table lists exactly the 30 clubs of the league table, each with
    * a UTC offset from -8 (Pacific) to -5 (Eastern). */
  lemma BallparksCanonical()
    ensures Ballparks().Keys == TeamLeague().Keys && |Ballparks()| == 30
    ensures forall t :: t in Ballparks() ==> -8 <= Ballparks()[t].tzOffset <= -5
  {
    LeagueKeysDistinct();
    BallparkRowsFollowLeague();
    LeagueRowsFollowBallparks();
    BallparkOrderBack();
    MatchedKeys(BALLPARK_ROWS, LEAGUE_PAIRS, BALLPARK_ORDER, BALLPARK_BACK);
    BallparkRowOffsets();
    forall t | t in Ballparks() ensures -8 <= Ballparks()[t].tzOffset <= -5 {
      MapValueFromRow(BALLPARK_ROWS, t);
    }
  }

  // Time zones and distances.

  /** `timezone_change`: hours gained going east (positive) or lost going
    * west (negative). */
  function TimezoneChange(tzFrom: int, tzTo: int): int
  {
    tzTo - tzFrom
  }

  /** The shift back is the opposite of the shift out, and staying put is no
    * shift. */
  lemma TimezoneChangeAntisymmetric(a: int, b: int)
    ensures TimezoneChange(a, b) == -TimezoneChange(b, a)
    ensures TimezoneChange(a, a) == 0
    ensures TimezoneChange(a, b) > 0 <==> a < b
  {
  }

  /** The great-circle distance in miles between two latitude/longitude
    * points. */
  type Haversine = (real, real, real, real) -> real

  /** The distance entry for a pair of parks: 0 from a park to itself. */
  function PairDistance(parks: map<string, Park>, hav: Haversine, t1: string, t2: string): real
    requires t1 in parks && t2 in parks
  {
    if t1 == t2 then 0.0 else hav(parks[t1].lat, parks[t1].lon, parks[t2].lat, parks[t2].lon)
  }

  /** The distance loop of `main`: an entry for every ordered pair of the
    * clubs, 0 on the diagonal and the great-circle distance elsewhere. */
  method BuildDistances(teams: seq<string>, parks: map<string, Park>, hav: Haversine)
    returns (distances: map<(string, string), real>)
    requires forall t :: t in teams ==> t in parks
    ensures forall a, b :: (a, b) in distances <==> a in teams && b in teams
    ensures forall a, b :: (a, b) in distances ==> distances[(a, b)] == PairDistance(parks, hav, a, b)
    ensures forall t :: t in teams ==> distances[(t, t)] == 0.0
  {
    distances := map[];
    var i := 0;
    while i < |teams|
      invariant 0 <= i <= |teams|
      invariant forall a, b :: (a, b) in distances <==> a in teams[..i] && b in teams
      invariant forall a, b :: (a, b) in distances ==> distances[(a, b)] == PairDistance(parks, hav, a, b)
    {
      var t1 := teams[i];
      var j := 0;
      while j < |teams|
        invariant 0 <= j <= |teams|
        invariant forall a, b :: (a, b) in distances <==> (a in teams[..i] && b in teams) || (a == t1 && b in teams[..j])
        invariant forall a, b :: (a, b) in distances ==> distances[(a, b)] == PairDistance(parks, hav, a, b)
      {
        var t2 := teams[j];
        if t1 == t2 {
          distances := distances[(t1, t2) := 0.0];
        } else {
          var p1, p2 := parks[t1], parks[t2];
          distances := distances[(t1, t2) := hav(p1.lat, p1.lon, p2.lat, p2.lon)];
        }
        assert teams[..j + 1] == teams[..j] + [t2];
        j := j + 1;
      }
      assert teams[..j] == teams;
      assert teams[..i + 1] == teams[..i] + [t1];
      i := i + 1;
    }
    assert teams[..i] == teams;
  }

  // The pair list.

  /** A row of the pair list. */
  datatype PairRow = PairRow(teamA: string, teamB: string, distanceMiles: real, tzShift: int, direction: string)

  /** "east" for a positive shift, "west" for a negative one, else "same". */
  function Direction(shift: int): (d: string)
    ensures d == "east" <==> shift > 0
    ensures d == "west" <==> shift < 0
    ensures d == "same" <==> shift == 0
  {
    if shift > 0 then "east" else if shift < 0 then "west" else "same"
  }

  function MakeRow(parks: map<string, Park>, hav: Haversine, t1: string, t2: string): (r: PairRow)
    requires t1 in parks && t2 in parks
    ensures r.teamA == t1 && r.teamB == t2
    ensures r.tzShift == TimezoneChange(parks[t1].tzOffset, parks[t2].tzOffset)
    ensures r.direction == Direction(r.tzShift)
  {
    var shift := TimezoneChange(parks[t1].tzOffset, parks[t2].tzOffset);
    PairRow(t1, t2, Rounding.Round(PairDistance(parks, hav, t1, t2), 1), shift, Direction(shift))
  }

  /** The rows of `t1` against every club of `ts` that sorts after it; the
    * loop skips `t2` when `t1 >= t2`. */
  function RowsFrom(parks: map<string, Park>, hav: Haversine, t1: string, ts: seq<string>): seq<PairRow>
    requires t1 in parks && forall t :: t in ts ==> t in parks
  {
    if |ts| == 0 then []
    else
      var n := |ts| - 1;
      RowsFrom(parks, hav, t1, ts[..n]) + (if Sorting.LexLe(ts[n], t1) then [] else [MakeRow(parks, hav, t1, ts[n])])
  }

  /** The rows of every club of `outer` in turn. */
  function AllRows(parks: map<string, Park>, hav: Haversine, outer: seq<string>, teams: seq<string>): seq<PairRow>
    requires forall t :: t in outer ==> t in parks
    requires forall t :: t in teams ==> t in parks
  {
    if |outer| == 0 then []
    else
      var n := |outer| - 1;
      AllRows(parks, hav, outer[..n], teams) + RowsFrom(parks, hav, outer[n], teams)
  }

  /** The pair loop of `main`, before the rows are sorted. */
  method PairRows(teams: seq<string>, parks: map<string, Park>, hav: Haversine) returns (rows: seq<PairRow>)
    requires forall t :: t in teams ==> t in parks
    ensures rows == AllRows(parks, hav, teams, teams)
  {
    rows := [];
    var i := 0;
    while i < |teams|
      invariant 0 <= i <= |teams|
      invariant rows == AllRows(parks, hav, teams[..i], teams)
    {
      assert teams[..i + 1][..i] == teams[..i];
      var more := RowsFor(teams, parks, hav, teams[i]);
      rows := rows + more;
      i := i + 1;
    }
    assert teams[..i] == teams;
  }

  /** The inner loop of the pair loop: the rows of one club against every
    * later club. */
  method RowsFor(teams: seq<string>, parks: map<string, Park>, hav: Haversine, t1: string) returns (rows: seq<PairRow>)
    requires t1 in parks && forall t :: t in teams ==> t in parks
    ensures rows == RowsFrom(parks, hav, t1, teams)
  {
    rows := [];
    var j := 0;
    while j < |teams|
      invariant 0 <= j <= |teams|
      invariant rows == RowsFrom(parks, hav, t1, teams[..j])
    {
      var t2 := teams[j];
      assert teams[..j + 1][..j] == teams[..j];
      if !Sorting.LexLe(t2, t1) {
        rows := rows + [MakeRow(parks, hav, t1, t2)];
      }
      j := j + 1;
    }
    assert teams[..j] == teams;
  }

  /** Every row names two clubs in ascending order, each in `teams`. */
  lemma {:induction false} RowsFromOrdered(parks: map<string, Park>, hav: Haversine, t1: string, ts: seq<string>, k: nat)
    requires t1 in parks && forall t :: t in ts ==> t in parks
    requires k < |RowsFrom(parks, hav, t1, ts)|
    ensures var r := RowsFrom(parks, hav, t1, ts)[k];
      r.teamA == t1 && r.teamB in ts && !Sorting.LexLe(r.teamB, r.teamA)
    decreases |ts|
  {
    var n := |ts| - 1;
    if k < |RowsFrom(parks, hav, t1, ts[..n])| {
      RowsFromOrdered(parks, hav, t1, ts[..n], k);
      var r := RowsFrom(parks, hav, t1, ts)[k];
      assert r.teamB in ts[..n];
    }
  }

  /** In an ascending list of distinct clubs, club `i` has a row against
    * each club after it among the first `n`, and no other. */
  lemma {:induction false} RowsFromCount(parks: map<string, Park>, hav: Haversine, teams: seq<string>, i: nat, n: nat)
    requires i < |teams| && n <= |teams|
    requires forall t :: t in teams ==> t in parks
    requires Sorting.SortedBy(teams, Sorting.StringLe()) && Sorting.Distinct(teams)
    ensures |RowsFrom(parks, hav, teams[i], teams[..n])| == if n <= i then 0 else n - i - 1
    decreases n
  {
    if n > 0 {
      var m := n - 1;
      assert teams[..n][..m] == teams[..m];
      assert teams[..n][m] == teams[m];
      RowsFromCount(parks, hav, teams, i, m);
      if m < i {
        assert Sorting.StringLe()(teams[m], teams[i]);
      } else if m == i {
        Sorting.LexLeTotal(teams[i], teams[i]);
      } else {
        assert Sorting.StringLe()(teams[i], teams[m]);
        if Sorting.LexLe(teams[m], teams[i]) {
          Sorting.LexLeAntisymmetric(teams[m], teams[i]);
          assert false;
        }
      }
    }
  }

  /** The rows of the first `m` of `n` clubs, each against those after it. */
  function PairsUpTo(m: nat, n: int): int
  {
    if m == 0 then 0 else PairsUpTo(m - 1, n) + (n - m)
  }

  /** `n` clubs make `n(n - 1)/2` unordered pairs. */
  lemma {:induction false} PairsUpToAll(m: nat, n: int)
    ensures 2 * PairsUpTo(m, n) == m * (2 * n - m - 1)
  {
    if m > 0 {
      PairsUpToAll(m - 1, n);
    }
  }

  /** The first `m` clubs have a row against each club after them. */
  lemma {:induction false} AllRowsCount(parks: map<string, Park>, hav: Haversine, teams: seq<string>, m: nat)
    requires m <= |teams|
    requires forall t :: t in teams ==> t in parks
    requires Sorting.SortedBy(teams, Sorting.StringLe()) && Sorting.Distinct(teams)
    ensures |AllRows(parks, hav, teams[..m], teams)| == PairsUpTo(m, |teams|)
    decreases m
  {
    if m > 0 {
      var k := m - 1;
      AllRowsSnoc(parks, hav, teams, m);
      AllRowsCount(parks, hav, teams, k);
      assert teams[..|teams|] == teams;
      RowsFromCount(parks, hav, teams, k, |teams|);
    } else {
      assert teams[..m] == [];
    }
  }

  /** The rows of the first `m` clubs: those of the first `m - 1`, then the
    * `m`-th club's. */
  lemma AllRowsSnoc(parks: map<string, Park>, hav: Haversine, teams: seq<string>, m: nat)
    requires 0 < m <= |teams|
    requires forall t :: t in teams ==> t in parks
    ensures AllRows(parks, hav, teams[..m], teams) ==
      AllRows(parks, hav, teams[..m - 1], teams) + RowsFrom(parks, hav, teams[m - 1], teams)
  {
    assert teams[..m][..m - 1] == teams[..m - 1];
    assert teams[..m][m - 1] == teams[m - 1];
  }

  /** Every row of the list is a pair of distinct clubs in ascending order,
    * made from the two clubs' parks: their rounded distance, the shift of
    * travelling from the first to the second and its direction. */
  lemma {:induction false} AllRowsOrdered(parks: map<string, Park>, hav: Haversine, outer: seq<string>, teams: seq<string>, k: nat)
    requires forall t :: t in outer ==> t in parks
    requires forall t :: t in teams ==> t in parks
    requires k < |AllRows(parks, hav, outer, teams)|
    ensures var r := AllRows(parks, hav, outer, teams)[k];
      r.teamA in outer && r.teamB in teams && !Sorting.LexLe(r.teamB, r.teamA) &&
      r == MakeRow(parks, hav, r.teamA, r.teamB)
    decreases |outer|
  {
    var n := |outer| - 1;
    var rest := AllRows(parks, hav, outer[..n], teams);
    if k < |rest| {
      AllRowsOrdered(parks, hav, outer[..n], teams, k);
      assert rest[k].teamA in outer[..n];
    } else {
      RowsFromOrdered(parks, hav, outer[n], teams, k - |rest|);
      var r := RowsFrom(parks, hav, outer[n], teams)[k - |rest|];
      assert r == MakeRow(parks, hav, r.teamA, r.teamB) by {
        RowsFromMade(parks, hav, outer[n], teams, k - |rest|);
      }
    }
  }

  lemma {:induction false} RowsFromMade(parks: map<string, Park>, hav: Haversine, t1: string, ts: seq<string>, k: nat)
    requires t1 in parks && forall t :: t in ts ==> t in parks
    requires k < |RowsFrom(parks, hav, t1, ts)|
    ensures var r := RowsFrom(parks, hav, t1, ts)[k];
      r.teamB in parks && r == MakeRow(parks, hav, t1, r.teamB)
    decreases |ts|
  {
    var n := |ts| - 1;
    if k < |RowsFrom(parks, hav, t1, ts[..n])| {
      RowsFromMade(parks, hav, t1, ts[..n], k);
    }
  }

  /** The row of `t1` against a later club of `ts` is in the list. */
  lemma {:induction false} RowsFromHas(parks: map<string, Park>, hav: Haversine, t1: string, ts: seq<string>, t2: string)
    requires t1 in parks && forall t :: t in ts ==> t in parks
    requires t2 in ts && !Sorting.LexLe(t2, t1)
    ensures MakeRow(parks, hav, t1, t2) in RowsFrom(parks, hav, t1, ts)
    decreases |ts|
  {
    var n := |ts| - 1;
    if ts[n] != t2 {
      assert t2 in ts[..n] by {
        var k :| 0 <= k < |ts| && ts[k] == t2;
        assert k < n && ts[..n][k] == t2;
      }
      RowsFromHas(parks, hav, t1, ts[..n], t2);
    }
  }

  /** Every ascending pair of a club of `outer` and a club of `teams` has
    * its row in the list. */
  lemma {:induction false} AllRowsHas(parks: map<string, Park>, hav: Haversine, outer: seq<string>, teams: seq<string>,
                                      a: string, b: string)
    requires forall t :: t in outer ==> t in parks
    requires forall t :: t in teams ==> t in parks
    requires a in outer && b in teams && !Sorting.LexLe(b, a)
    ensures MakeRow(parks, hav, a, b) in AllRows(parks, hav, outer, teams)
    decreases |outer|
  {
    var n := |outer| - 1;
    if outer[n] == a {
      RowsFromHas(parks, hav, a, teams, b);
    } else {
      assert a in outer[..n] by {
        var k :| 0 <= k < |outer| && outer[k] == a;
        assert k < n && outer[..n][k] == a;
      }
      AllRowsHas(parks, hav, outer[..n], teams, a, b);
    }
  }

  /** Longest first, as the rows are written. */
  function ByDistance(): (le: (PairRow, PairRow) -> bool)
  {
    Sorting.ByKeyDesc((r: PairRow) => r.distanceMiles)
  }

  /** A west-to-east trip of two or more time zones and 1000 miles or more. */
  predicate IsFatigueTrip(r: PairRow) { r.tzShift >= 2 && r.distanceMiles >= 1000.0 }

  function FatigueFilter(rows: seq<PairRow>): (r: seq<PairRow>)
    ensures |r| <= |rows|
    ensures forall k :: 0 <= k < |r| ==> IsFatigueTrip(r[k]) && r[k] in rows
  {
    if |rows| == 0 then []
    else
      var n := |rows| - 1;
      var rest := FatigueFilter(rows[..n]);
      assert forall k :: 0 <= k < |rest| ==> rest[k] in rows by {
        forall k | 0 <= k < |rest| ensures rest[k] in rows {
          assert rest[k] in rows[..n];
        }
      }
      rest + (if IsFatigueTrip(rows[n]) then [rows[n]] else [])
  }

  /** `main` without its output: the pair list sorted longest first, and the
    * fatigue trips among them, longest first. */
  method DistanceTable(parks: map<string, Park>, hav: Haversine)
    returns (distances: map<(string, string), real>, rows: seq<PairRow>, fatigue: seq<PairRow>)
    ensures forall a, b :: (a, b) in distances <==> a in parks && b in parks
    ensures forall a, b :: (a, b) in distances ==> distances[(a, b)] == PairDistance(parks, hav, a, b)
    ensures 2 * |rows| == |parks| * (|parks| - 1)
    ensures Sorting.SortedBy(rows, ByDistance())
    ensures forall k :: 0 <= k < |rows| ==>
      rows[k].teamA in parks && rows[k].teamB in parks && !Sorting.LexLe(rows[k].teamB, rows[k].teamA) &&
      rows[k] == MakeRow(parks, hav, rows[k].teamA, rows[k].teamB)
    ensures forall a, b :: a in parks && b in parks && !Sorting.LexLe(b, a) ==> MakeRow(parks, hav, a, b) in rows
    ensures Sorting.SortedBy(fatigue, ByDistance())
    ensures forall k :: 0 <= k < |fatigue| ==> IsFatigueTrip(fatigue[k]) && fatigue[k] in rows
    ensures forall r :: r in rows && IsFatigueTrip(r) ==> r in fatigue
  {
    var teams := Sorting.SortedSet(parks.Keys);
    distances := BuildDistances(teams, parks, hav);
    var pairs := PairRows(teams, parks, hav);
    PairCount(parks, hav, teams);
    rows := Sorting.Sort(pairs, ByDistance());
    SortedPairs(parks, hav, teams);
    PairsCovered(parks, hav, teams);
    fatigue := Sorting.Sort(FatigueFilter(rows), ByDistance());
    FatigueTrips(rows);
  }

  /** The clubs of the table, listed once each in ascending order, make one
    * row per unordered pair. */
  lemma PairCount(parks: map<string, Park>, hav: Haversine, teams: seq<string>)
    requires Sorting.SortedBy(teams, Sorting.StringLe()) && Sorting.Distinct(teams)
    requires forall x :: x in teams <==> x in parks
    ensures 2 * |AllRows(parks, hav, teams, teams)| == |parks| * (|parks| - 1)
  {
    var n := |teams|;
    assert |parks| == n by {
      Sorting.DistinctCard(teams);
      assert (set x | x in teams) == parks.Keys;
    }
    assert |AllRows(parks, hav, teams, teams)| == PairsUpTo(n, n) by {
      AllRowsCount(parks, hav, teams, n);
      assert teams[..n] == teams;
    }
    PairsAll(n);
  }

  lemma PairsAll(n: nat)
    ensures 2 * PairsUpTo(n, n) == n * (n - 1)
  {
    PairsUpToAll(n, n);
  }

  /** The sorted pair list is longest first and each of its rows is the row
    * of an ascending pair of clubs. */
  lemma SortedPairs(parks: map<string, Park>, hav: Haversine, teams: seq<string>)
    requires forall t :: t in teams ==> t in parks
    ensures var rows := Sorting.Sort(AllRows(parks, hav, teams, teams), ByDistance());
      Sorting.SortedBy(rows, ByDistance()) &&
      forall k :: 0 <= k < |rows| ==>
        rows[k].teamA in parks && rows[k].teamB in parks && !Sorting.LexLe(rows[k].teamB, rows[k].teamA) &&
        rows[k] == MakeRow(parks, hav, rows[k].teamA, rows[k].teamB)
  {
    var pairs := AllRows(parks, hav, teams, teams);
    Sorting.ByKeyDescPreorder((r: PairRow) => r.distanceMiles);
    Sorting.SortSorted(pairs, ByDistance());
    var rows := Sorting.Sort(pairs, ByDistance());
    forall k | 0 <= k < |rows|
      ensures rows[k].teamA in parks && rows[k].teamB in parks && !Sorting.LexLe(rows[k].teamB, rows[k].teamA) &&
        rows[k] == MakeRow(parks, hav, rows[k].teamA, rows[k].teamB)
    {
      assert rows[k] in multiset(pairs);
      var j :| 0 <= j < |pairs| && pairs[j] == rows[k];
      AllRowsOrdered(parks, hav, teams, teams, j);
    }
  }

  /** The sorted pair list has the row of every ascending pair of clubs. */
  lemma PairsCovered(parks: map<string, Park>, hav: Haversine, teams: seq<string>)
    requires forall t :: t in teams <==> t in parks
    ensures forall a, b :: a in parks && b in parks && !Sorting.LexLe(b, a) ==>
      MakeRow(parks, hav, a, b) in Sorting.Sort(AllRows(parks, hav, teams, teams), ByDistance())
  {
    var pairs := AllRows(parks, hav, teams, teams);
    forall a, b | a in parks && b in parks && !Sorting.LexLe(b, a)
      ensures MakeRow(parks, hav, a, b) in Sorting.Sort(pairs, ByDistance())
    {
      AllRowsHas(parks, hav, teams, teams, a, b);
      assert MakeRow(parks, hav, a, b) in multiset(pairs);
    }
  }

  /** The fatigue list is longest first and holds exactly the fatigue trips
    * of the pair list. */
  lemma FatigueTrips(rows: seq<PairRow>)
    ensures var fatigue := Sorting.Sort(FatigueFilter(rows), ByDistance());
      Sorting.SortedBy(fatigue, ByDistance()) &&
      (forall k :: 0 <= k < |fatigue| ==> IsFatigueTrip(fatigue[k]) && fatigue[k] in rows) &&
      (forall r :: r in rows && IsFatigueTrip(r) ==> r in fatigue)
  {
    var trips := FatigueFilter(rows);
    Sorting.ByKeyDescPreorder((r: PairRow) => r.distanceMiles);
    Sorting.SortSorted(trips, ByDistance());
    var fatigue := Sorting.Sort(trips, ByDistance());
    forall k | 0 <= k < |fatigue| ensures IsFatigueTrip(fatigue[k]) && fatigue[k] in rows {
      assert fatigue[k] in multiset(trips);
    }
    forall r | r in rows && IsFatigueTrip(r) ensures r in fatigue {
      FatigueKept(rows, r);
      assert r in multiset(trips);
    }
  }

  lemma {:induction false} FatigueKept(rows: seq<PairRow>, r: PairRow)
    requires r in rows && IsFatigueTrip(r)
    ensures r in FatigueFilter(rows)
    decreases |rows|
  {
    var n := |rows| - 1;
    if rows[n] != r {
      assert r in rows[..n] by {
        var k :| 0 <= k < |rows| && rows[k] == r;
        assert k < n && rows[..n][k] == r;
      }
      FatigueKept(rows[..n], r);
    }
  }

  /** With the real table the pair list of `DistanceTable` has 435 rows,
    * one per pair of the 30 clubs. */
  lemma FullTableRows(hav: Haversine, rows: seq<PairRow>)
    requires 2 * |rows| == |Ballparks()| * (|Ballparks()| - 1)
    ensures |rows| == 435
  {
    BallparksCanonical();
  }
}
