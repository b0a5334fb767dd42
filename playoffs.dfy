/** The playoff field of one simulated season, as every odds calculation in
  * the pipeline picks it: the best club of each division, then the three
  * best of the rest as wild cards. Clubs are ranked by wins, then by an
  * auxiliary draw; where the source breaks ties by list order the draw is 0
  * for every club, and `max` and the stable sort then keep the club listed
  * first. */
module Playoffs {
  import opened Sorting

  /** A club's standing in one trial. */
  datatype Standing = Standing(wins: int, aux: real)

  /** `a` ranks strictly above `b`, comparing (wins, aux) as a tuple. */
  predicate Above(a: Standing, b: Standing)
  {
    a.wins > b.wins || (a.wins == b.wins && a.aux > b.aux)
  }

  /** `max(teams, key=key)`: scanning in order, a club replaces the best so
    * far only when it ranks strictly above it. */
  function Best(teams: seq<string>, key: string -> Standing): (b: string)
    requires |teams| > 0
    ensures b in teams
    ensures forall t :: t in teams ==> !Above(key(t), key(b))
  {
    if |teams| == 1 then teams[0]
    else
      var n := |teams| - 1;
      var prev := Best(teams[..n], key);
      assert forall t :: t in teams ==> t in teams[..n] || t == teams[n];
      if Above(key(teams[n]), key(prev)) then teams[n] else prev
  }

  /** Club `i` is `b`, and `b` ranks strictly above every club before it. */
  predicate FirstAt(teams: seq<string>, key: string -> Standing, b: string, i: int)
  {
    0 <= i < |teams| && teams[i] == b && forall j :: 0 <= j < i ==> Above(key(b), key(teams[j]))
  }

  /** The club `max` returns ranks strictly above every club listed before
    * it: ties go to the first listed. */
  lemma {:induction false} BestIsFirst(teams: seq<string>, key: string -> Standing)
    requires |teams| > 0
    ensures exists i :: FirstAt(teams, key, Best(teams, key), i)
    decreases |teams|
  {
    var n := |teams| - 1;
    if n == 0 {
      assert FirstAt(teams, key, Best(teams, key), 0);
    } else {
      var init := teams[..n];
      BestIsFirst(init, key);
      var i :| FirstAt(init, key, Best(init, key), i);
      if Above(key(teams[n]), key(Best(init, key))) {
        forall j | 0 <= j < n ensures Above(key(teams[n]), key(teams[j])) {
          assert teams[j] == init[j] && teams[j] in init;
        }
        assert FirstAt(teams, key, Best(teams, key), n);
      } else {
        assert FirstAt(teams, key, Best(teams, key), i);
      }
    }
  }

  /** The clubs of `al` in division `d`, in list order, as
    * `al_divisions.setdefault(div, []).append(t)` collects them. */
  function Group(al: seq<string>, divOf: string -> string, d: string): (g: seq<string>)
    ensures forall t :: t in g <==> t in al && divOf(t) == d
  {
    if |al| == 0 then []
    else
      var n := |al| - 1;
      var prev := Group(al[..n], divOf, d);
      assert forall t :: t in al <==> t in al[..n] || t == al[n];
      if divOf(al[n]) == d then prev + [al[n]] else prev
  }

  /** The division winners: each division's `max`. */
  function Winners(al: seq<string>, divOf: string -> string, key: string -> Standing): set<string>
  {
    set t | t in al && t == Best(Group(al, divOf, divOf(t)), key)
  }

  /** "May come first" for `sort(key=..., reverse=True)`: ranks at least as
    * high. */
  function ByStanding(key: string -> Standing): (string, string) -> bool
  {
    (x: string, y: string) => !Above(key(y), key(x))
  }

  lemma ByStandingPreorder(key: string -> Standing)
    ensures TotalPreorder(ByStanding(key))
  {
  }

  /** The clubs that did not win their division, in list order. */
  function NonWinners(al: seq<string>, winners: set<string>): (r: seq<string>)
    ensures forall t :: t in r <==> t in al && t !in winners
  {
    if |al| == 0 then []
    else
      var n := |al| - 1;
      var prev := NonWinners(al[..n], winners);
      assert forall t :: t in al <==> t in al[..n] || t == al[n];
      if al[n] in winners then prev else prev + [al[n]]
  }

  /** The non-winners ranked best first, ties in list order. */
  function Ranked(al: seq<string>, winners: set<string>, key: string -> Standing): seq<string>
  {
    Sort(NonWinners(al, winners), ByStanding(key))
  }

  /** The wild cards: the first three of the ranked non-winners. */
  function Wildcards(al: seq<string>, winners: set<string>, key: string -> Standing): set<string>
  {
    var r := Ranked(al, winners, key);
    set i | 0 <= i < |r| && i < 3 :: r[i]
  }

  datatype Field = Field(division: set<string>, wildcard: set<string>)
  {
    function Playoff(): set<string> { division + wildcard }
  }

  /** One trial's field; `divKey` ranks clubs inside a division and `wcKey`
    * ranks the wild-card race. */
  function SelectField(al: seq<string>, divOf: string -> string, divKey: string -> Standing,
                       wcKey: string -> Standing): (f: Field)
    ensures f.division <= set t | t in al
    ensures f.wildcard <= set t | t in al
  {
    var w := Winners(al, divOf, divKey);
    var wc := Wildcards(al, w, wcKey);
    assert forall t :: t in wc ==> t in multiset(Ranked(al, w, wcKey));
    Field(w, wc)
  }

  /** Every division represented in `al` has exactly one winner, that winner
    * is a club of the division, and no club of the division ranks above it. */
  lemma OneWinnerPerDivision(al: seq<string>, divOf: string -> string, key: string -> Standing, t: string)
    requires t in al
    ensures var w := Best(Group(al, divOf, divOf(t)), key);
      w in Winners(al, divOf, key) && divOf(w) == divOf(t) && !Above(key(t), key(w)) &&
      forall u :: u in Winners(al, divOf, key) && divOf(u) == divOf(t) ==> u == w
  {
  }

  /** The wild cards are not division winners, and there are at most three. */
  lemma WildcardsFacts(al: seq<string>, divOf: string -> string, divKey: string -> Standing, wcKey: string -> Standing)
    ensures var f := SelectField(al, divOf, divKey, wcKey);
      f.division * f.wildcard == {} && |f.wildcard| <= 3
  {
    var w := Winners(al, divOf, divKey);
    var r := Ranked(al, w, wcKey);
    var wc := Wildcards(al, w, wcKey);
    forall t | t in wc ensures t !in w {
      assert t in multiset(r);
      assert t in multiset(NonWinners(al, w));
    }
    var firstThree := r[..if |r| < 3 then |r| else 3];
    assert wc == set t | t in firstThree;
    CardAtMost(firstThree);
  }

  /** A sequence has at least as many positions as distinct members. */
  lemma {:induction false} CardAtMost(s: seq<string>)
    ensures |set t | t in s| <= |s|
    decreases |s|
  {
    if |s| > 0 {
      var init := s[..|s| - 1];
      CardAtMost(init);
      assert (set t | t in s) == (set t | t in init) + {s[|s| - 1]};
    }
  }

  /** No club left out of the field ranks above a wild card in the wild-card
    * race. */
  lemma WildcardsRankFirst(al: seq<string>, divOf: string -> string, divKey: string -> Standing,
                           wcKey: string -> Standing, c: string, o: string)
    requires var f := SelectField(al, divOf, divKey, wcKey);
      c in f.wildcard && o in al && o !in f.Playoff()
    ensures !Above(wcKey(o), wcKey(c))
  {
    var w := Winners(al, divOf, divKey);
    var r := Ranked(al, w, wcKey);
    ByStandingPreorder(wcKey);
    SortSorted(NonWinners(al, w), ByStanding(wcKey));
    assert o in multiset(NonWinners(al, w));
    assert o in multiset(r);
    var j :| 0 <= j < |r| && r[j] == o;
    var i :| 0 <= i < |r| && i < 3 && r[i] == c;
    assert j >= 3;
    assert ByStanding(wcKey)(r[i], r[j]);
  }

  /** With distinct clubs and at least three non-winners, the field takes
    * exactly three wild cards. */
  lemma ThreeWildcards(al: seq<string>, divOf: string -> string, divKey: string -> Standing,
                       wcKey: string -> Standing)
    requires Distinct(al)
    requires 3 <= |NonWinners(al, Winners(al, divOf, divKey))|
    ensures |SelectField(al, divOf, divKey, wcKey).wildcard| == 3
  {
    var w := Winners(al, divOf, divKey);
    var nw := NonWinners(al, w);
    NonWinnersDistinct(al, w);
    var r := Ranked(al, w, wcKey);
    SortDistinct(nw, ByStanding(wcKey));
    var firstThree := r[..3];
    assert Wildcards(al, w, wcKey) == set t | t in firstThree;
    DistinctSeqCard3(firstThree);
  }

  lemma DistinctSeqCard3(s: seq<string>)
    requires |s| == 3 && Distinct(s)
    ensures |set t | t in s| == 3
  {
    assert (set t | t in s) == {s[0], s[1], s[2]};
  }

  lemma {:induction false} NonWinnersDistinct(al: seq<string>, winners: set<string>)
    requires Distinct(al)
    ensures Distinct(NonWinners(al, winners))
    decreases |al|
  {
    if |al| > 0 {
      var n := |al| - 1;
      assert Distinct(al[..n]);
      NonWinnersDistinct(al[..n], winners);
      assert al[n] !in al[..n];
    }
  }

  /** Sorting keeps a sequence free of repeats. */
  lemma {:induction false} SortDistinct<T>(s: seq<T>, le: (T, T) -> bool)
    requires Distinct(s)
    ensures Distinct(Sort(s, le))
    decreases |s|
  {
    if |s| > 0 {
      assert s == [s[0]] + s[1..];
      assert Distinct(s[1..]);
      SortDistinct(s[1..], le);
      assert s[0] !in multiset(s[1..]);
      assert s[0] !in multiset(Sort(s[1..], le));
      InsertDistinct(s[0], Sort(s[1..], le), le);
    }
  }
}
