/** Stable sorting, as Python's `sorted` and `list.sort` do it, over an
  * arbitrary "may come first" relation `le`. With `le(x, y) == key(x) >= key(y)`
  * this is `sorted(..., key=key, reverse=True)`; with a lexicographic `le`
  * it is the plain ascending sort of team codes and ids. */
module Sorting {
  /** `le` is total and transitive: a total preorder. */
  ghost predicate TotalPreorder<T(!new)>(le: (T, T) -> bool)
  {
    (forall x, y :: le(x, y) || le(y, x)) &&
    (forall x, y, z :: le(x, y) && le(y, z) ==> le(x, z))
  }

  predicate SortedBy<T>(s: seq<T>, le: (T, T) -> bool)
  {
    forall i, j :: 0 <= i < j < |s| ==> le(s[i], s[j])
  }

  /** Place `x` in front of the first element it may precede. Since `x`
    * came earlier in the input, it stays ahead of equal elements. */
  function Insert<T>(x: T, s: seq<T>, le: (T, T) -> bool): (r: seq<T>)
    ensures multiset(r) == multiset(s) + multiset{x}
    ensures |r| == |s| + 1
  {
    if |s| == 0 then [x]
    else if le(x, s[0]) then [x] + s
    else
      assert s == [s[0]] + s[1..];
      [s[0]] + Insert(x, s[1..], le)
  }

  function Sort<T>(s: seq<T>, le: (T, T) -> bool): (r: seq<T>)
    ensures multiset(r) == multiset(s)
    ensures |r| == |s|
  {
    if |s| == 0 then []
    else
      assert s == [s[0]] + s[1..];
      Insert(s[0], Sort(s[1..], le), le)
  }

  lemma {:induction false} InsertSorted<T(!new)>(x: T, s: seq<T>, le: (T, T) -> bool)
    requires TotalPreorder(le) && SortedBy(s, le)
    ensures SortedBy(Insert(x, s, le), le)
    decreases |s|
  {
    if |s| > 0 && !le(x, s[0]) {
      InsertSorted(x, s[1..], le);
      var r := Insert(x, s[1..], le);
      assert le(s[0], x);
      forall k | 0 <= k < |r| ensures le(s[0], r[k]) {
        assert r[k] in multiset(r);
        assert r[k] in multiset(s[1..]) + multiset{x};
        if r[k] != x {
          assert r[k] in multiset(s[1..]);
          var j :| 0 <= j < |s[1..]| && s[1..][j] == r[k];
          assert s[1 + j] == r[k];
        }
      }
    }
  }

  /** The result is ordered by `le`, and it is a permutation of the input. */
  lemma {:induction false} SortSorted<T(!new)>(s: seq<T>, le: (T, T) -> bool)
    requires TotalPreorder(le)
    ensures SortedBy(Sort(s, le), le)
    ensures multiset(Sort(s, le)) == multiset(s)
    decreases |s|
  {
    if |s| > 0 {
      SortSorted(s[1..], le);
      InsertSorted(s[0], Sort(s[1..], le), le);
    }
  }

  /** Sorting an ordered sequence leaves it as it is. */
  lemma {:induction false} SortOfSorted<T(!new)>(s: seq<T>, le: (T, T) -> bool)
    requires SortedBy(s, le)
    ensures Sort(s, le) == s
    decreases |s|
  {
    if |s| > 0 {
      assert SortedBy(s[1..], le);
      SortOfSorted(s[1..], le);
      if |s| > 1 {
        assert le(s[0], s[1]);
      }
    }
  }

  /** Ascending order by a real key, first-seen first among equal keys. */
  function ByKeyAsc<T>(key: T -> real): (le: (T, T) -> bool)
  {
    (x: T, y: T) => key(x) <= key(y)
  }

  lemma ByKeyAscPreorder<T(!new)>(key: T -> real)
    ensures TotalPreorder(ByKeyAsc(key))
  {
  }

  /** Descending order by a real key, first-seen first among equal keys. */
  function ByKeyDesc<T>(key: T -> real): (le: (T, T) -> bool)
  {
    (x: T, y: T) => key(x) >= key(y)
  }

  lemma ByKeyDescPreorder<T(!new)>(key: T -> real)
    ensures TotalPreorder(ByKeyDesc(key))
  {
  }

  /** Lexicographic order on strings, as Python compares them. */
  predicate LexLe(a: string, b: string)
    decreases |a|
  {
    if |a| == 0 then true
    else if |b| == 0 then false
    else if a[0] < b[0] then true
    else if a[0] > b[0] then false
    else LexLe(a[1..], b[1..])
  }

  lemma {:induction false} LexLeTotal(a: string, b: string)
    ensures LexLe(a, b) || LexLe(b, a)
    decreases |a|
  {
    if |a| > 0 && |b| > 0 && a[0] == b[0] {
      LexLeTotal(a[1..], b[1..]);
    }
  }

  lemma {:induction false} LexLeTransitive(a: string, b: string, c: string)
    requires LexLe(a, b) && LexLe(b, c)
    ensures LexLe(a, c)
    decreases |a|
  {
    if |a| > 0 && |b| > 0 && |c| > 0 && a[0] == b[0] && b[0] == c[0] {
      LexLeTransitive(a[1..], b[1..], c[1..]);
    }
  }

  lemma {:induction false} LexLeAntisymmetric(a: string, b: string)
    requires LexLe(a, b) && LexLe(b, a)
    ensures a == b
    decreases |a|
  {
    if |a| > 0 {
      LexLeAntisymmetric(a[1..], b[1..]);
      assert a == [a[0]] + a[1..];
      assert b == [b[0]] + b[1..];
    }
  }

  function StringLe(): (le: (string, string) -> bool)
  {
    (a: string, b: string) => LexLe(a, b)
  }

  lemma StringLePreorder()
    ensures TotalPreorder(StringLe())
  {
    forall x: string, y: string ensures LexLe(x, y) || LexLe(y, x) {
      LexLeTotal(x, y);
    }
    forall x: string, y: string, z: string | LexLe(x, y) && LexLe(y, z) ensures LexLe(x, z) {
      LexLeTransitive(x, y, z);
    }
  }

  /** Ascending string sort, as `sorted(teams)`. */
  function SortStrings(s: seq<string>): (r: seq<string>)
    ensures multiset(r) == multiset(s)
  {
    Sort(s, StringLe())
  }

  lemma SortStringsSorted(s: seq<string>)
    ensures SortedBy(SortStrings(s), StringLe())
    ensures forall i, j :: 0 <= i < j < |SortStrings(s)| ==> LexLe(SortStrings(s)[i], SortStrings(s)[j])
  {
    StringLePreorder();
    SortSorted(s, StringLe());
  }

  /** The keys of a dict in ascending order, as `sorted(d)` and
    * `sorted(d.items())` visit them. */
  method SortedKeys<V>(m: map<string, V>) returns (ks: seq<string>)
    ensures SortedBy(ks, StringLe())
    ensures multiset(ks) == multiset(m.Keys)
  {
    StringLePreorder();
    ks := [];
    var rest := m.Keys;
    while rest != {}
      invariant rest <= m.Keys
      invariant SortedBy(ks, StringLe())
      invariant multiset(ks) + multiset(rest) == multiset(m.Keys)
      decreases |rest|
    {
      var k :| k in rest;
      InsertSorted(k, ks, StringLe());
      ks := Insert(k, ks, StringLe());
      assert multiset(rest) == multiset(rest - {k}) + multiset{k};
      rest := rest - {k};
    }
  }

  predicate Distinct<T(==)>(s: seq<T>)
  {
    forall i, j :: 0 <= i < j < |s| ==> s[i] != s[j]
  }

  /** The members of a set in `le` order, each once. */
  method SortedMembers<T(==,!new)>(members: set<T>, le: (T, T) -> bool) returns (ks: seq<T>)
    requires TotalPreorder(le)
    ensures SortedBy(ks, le)
    ensures Distinct(ks)
    ensures forall x :: x in ks <==> x in members
  {
    ks := [];
    var rest := members;
    while rest != {}
      invariant rest <= members
      invariant SortedBy(ks, le) && Distinct(ks)
      invariant forall x :: x in ks <==> x in members && x !in rest
      decreases |rest|
    {
      var k :| k in rest;
      InsertSorted(k, ks, le);
      InsertDistinct(k, ks, le);
      var next := Insert(k, ks, le);
      assert forall x :: x in next <==> x in multiset(next);
      ks := next;
      rest := rest - {k};
    }
  }

  /** The members of a set of strings in ascending order, as
    * `sorted(set(...))` lists them: each member once. */
  method SortedSet(members: set<string>) returns (ks: seq<string>)
    ensures SortedBy(ks, StringLe())
    ensures Distinct(ks)
    ensures forall x :: x in ks <==> x in members
  {
    StringLePreorder();
    ks := SortedMembers(members, StringLe());
  }

  function IntLe(): (le: (int, int) -> bool)
  {
    (a: int, b: int) => a <= b
  }

  /** The members of a set of ids in ascending order, each once. */
  method SortedInts(members: set<int>) returns (ks: seq<int>)
    ensures forall i, j :: 0 <= i < j < |ks| ==> ks[i] < ks[j]
    ensures forall x :: x in ks <==> x in members
  {
    ks := SortedMembers(members, IntLe());
  }

  /** Inserting a new value keeps a sequence free of repeats. */
  lemma {:induction false} InsertDistinct<T>(x: T, s: seq<T>, le: (T, T) -> bool)
    requires Distinct(s) && x !in s
    ensures Distinct(Insert(x, s, le))
    decreases |s|
  {
    if |s| > 0 && !le(x, s[0]) {
      InsertDistinct(x, s[1..], le);
      var r := Insert(x, s[1..], le);
      assert s[0] !in multiset(s[1..]);
      assert s[0] !in multiset(r);
      assert Insert(x, s, le) == [s[0]] + r;
    }
  }

  /** Appending a new value keeps a sequence free of repeats. */
  lemma DistinctSnoc<T>(s: seq<T>, x: T)
    requires Distinct(s) && x !in s
    ensures Distinct(s + [x])
  {
    forall i, j | 0 <= i < j < |s| + 1 ensures (s + [x])[i] != (s + [x])[j] {
      if j == |s| {
        assert (s + [x])[i] == s[i] && s[i] in s;
      }
    }
  }

  /** A sequence free of repeats has as many members as elements. */
  lemma {:induction false} DistinctCard<T>(s: seq<T>)
    requires Distinct(s)
    ensures |(set x | x in s)| == |s|
    decreases |s|
  {
    if |s| > 0 {
      var n := |s| - 1;
      var init := s[..n];
      assert forall i :: 0 <= i < n ==> init[i] == s[i];
      DistinctCard(init);
      assert s[n] !in init;
      assert (set x | x in s) == (set x | x in init) + {s[n]} by {
        assert s == init + [s[n]];
      }
    }
  }
}
