/** Dict literals written as sequences of key/value pairs, and what follows
  * about the dict from facts about its rows. Nothing here mentions a
  * particular table, so these proofs never see a long literal. */
module PairTables {

  /** A dict built from key/value pairs: a later pair overwrites an earlier one. */
  function PairsToMap<K, V>(pairs: seq<(K, V)>): (m: map<K, V>)
    ensures m.Keys == set i | 0 <= i < |pairs| :: pairs[i].0
  {
    if |pairs| == 0 then map[]
    else
      var init := pairs[..|pairs| - 1];
      var last := pairs[|pairs| - 1];
      assert (set i | 0 <= i < |pairs| :: pairs[i].0) == (set i | 0 <= i < |init| :: init[i].0) + {last.0} by {
        assert forall i :: 0 <= i < |init| ==> init[i] == pairs[i];
      }
      PairsToMap(init)[last.0 := last.1]
  }

  /** The pairs with key and value exchanged, as `{v: k for k, v in d.items()}`. */
  function Swap<K, V>(pairs: seq<(K, V)>): (r: seq<(V, K)>)
    ensures |r| == |pairs| && forall i :: 0 <= i < |pairs| ==> r[i] == (pairs[i].1, pairs[i].0)
  {
    seq(|pairs|, i requires 0 <= i < |pairs| => (pairs[i].1, pairs[i].0))
  }

  /** The keys of the pairs in row order, as iterating the dict they build
    * yields them when the keys are distinct. */
  function KeysOf<K, V>(pairs: seq<(K, V)>): (ks: seq<K>)
    ensures |ks| == |pairs| && forall i :: 0 <= i < |pairs| ==> ks[i] == pairs[i].0
  {
    if |pairs| == 0 then [] else KeysOf(pairs[..|pairs| - 1]) + [pairs[|pairs| - 1].0]
  }

  /** Row accessors; facts about rows are stated through them so that the
    * solver only looks at the rows a proof names. */
  function KeyAt<K, V>(pairs: seq<(K, V)>, i: int): K
    requires 0 <= i < |pairs|
  {
    pairs[i].0
  }

  function ValueAt<K, V>(pairs: seq<(K, V)>, i: int): V
    requires 0 <= i < |pairs|
  {
    pairs[i].1
  }

  ghost predicate DistinctKeys<K, V>(pairs: seq<(K, V)>)
  {
    forall i, j :: 0 <= i < j < |pairs| ==> KeyAt(pairs, i) != KeyAt(pairs, j)
  }

  ghost predicate DistinctValues<K, V>(pairs: seq<(K, V)>)
  {
    forall i, j :: 0 <= i < j < |pairs| ==> ValueAt(pairs, i) != ValueAt(pairs, j)
  }

  /** Every key of the dict comes from a row, and holds the value of some
    * row with that key (the last one). */
  lemma {:induction false} MapValueFromRow<K, V>(pairs: seq<(K, V)>, k: K)
    requires k in PairsToMap(pairs)
    ensures exists i :: 0 <= i < |pairs| && KeyAt(pairs, i) == k && PairsToMap(pairs)[k] == ValueAt(pairs, i)
    decreases |pairs|
  {
    var init := pairs[..|pairs| - 1];
    if KeyAt(pairs, |pairs| - 1) != k {
      MapValueFromRow(init, k);
      var i :| 0 <= i < |init| && KeyAt(init, i) == k && PairsToMap(init)[k] == ValueAt(init, i);
      assert KeyAt(pairs, i) == k && ValueAt(pairs, i) == ValueAt(init, i);
    }
  }

  /** Row `i` is the last row with key `k`. */
  predicate LastKeyAt<K(==), V>(pairs: seq<(K, V)>, i: int, k: K)
  {
    0 <= i < |pairs| && KeyAt(pairs, i) == k && forall j :: i < j < |pairs| ==> KeyAt(pairs, j) != k
  }

  /** A key is in the dict iff some row has it, and it holds the value of
    * the last such row. */
  lemma {:induction false} LastRowWins<K, V>(pairs: seq<(K, V)>, k: K)
    ensures k in PairsToMap(pairs) <==> exists i :: 0 <= i < |pairs| && KeyAt(pairs, i) == k
    ensures k in PairsToMap(pairs) ==> exists i :: LastKeyAt(pairs, i, k) && PairsToMap(pairs)[k] == ValueAt(pairs, i)
    decreases |pairs|
  {
    if |pairs| > 0 {
      var n := |pairs| - 1;
      var init := pairs[..n];
      LastRowWins(init, k);
      assert forall i :: 0 <= i < n ==> KeyAt(init, i) == KeyAt(pairs, i) && ValueAt(init, i) == ValueAt(pairs, i);
      if KeyAt(pairs, n) == k {
        assert LastKeyAt(pairs, n, k);
      } else if k in PairsToMap(init) {
        var i :| LastKeyAt(init, i, k) && PairsToMap(init)[k] == ValueAt(init, i);
        assert LastKeyAt(pairs, i, k);
      }
    }
  }

  /** No row's key in `outside` means no dict key in it. */
  lemma KeysOutside<K, V>(pairs: seq<(K, V)>, outside: set<K>)
    requires forall i :: 0 <= i < |pairs| ==> KeyAt(pairs, i) !in outside
    ensures forall k :: k in outside ==> k !in PairsToMap(pairs)
  {
    forall k | k in PairsToMap(pairs) ensures k !in outside {
      var i :| 0 <= i < |pairs| && pairs[i].0 == k;
      assert KeyAt(pairs, i) == k;
    }
  }

  /** Appending a pair to the rows assigns it in the dict. */
  lemma PairsToMapAppend<K, V>(pairs: seq<(K, V)>, extra: seq<(K, V)>)
    requires |extra| <= 1
    ensures PairsToMap(pairs + extra) == if extra == [] then PairsToMap(pairs) else PairsToMap(pairs)[extra[0].0 := extra[0].1]
  {
    if extra == [] {
      assert pairs + extra == pairs;
    } else {
      assert (pairs + extra)[..|pairs|] == pairs;
    }
  }

  /** The pairs a loop over `rows` assigns into a dict: `d[key(r)] = val(r)`
    * for each row `r` that passes `keep`. */
  function Keyed<R, K, V>(rows: seq<R>, keep: R -> bool, key: R -> K, val: R -> V): seq<(K, V)>
  {
    if |rows| == 0 then []
    else
      var r := rows[|rows| - 1];
      Keyed(rows[..|rows| - 1], keep, key, val) + (if keep(r) then [(key(r), val(r))] else [])
  }

  /** Row `i` is the last kept row with key `k`. */
  predicate LastKept<R, K(==)>(rows: seq<R>, keep: R -> bool, key: R -> K, i: int, k: K)
  {
    0 <= i < |rows| && keep(rows[i]) && key(rows[i]) == k &&
    forall j :: i < j < |rows| && keep(rows[j]) ==> key(rows[j]) != k
  }

  /** The dict such a loop builds has a key iff a kept row has it. */
  lemma {:induction false} KeyedMembers<R, K, V>(rows: seq<R>, keep: R -> bool, key: R -> K, val: R -> V, k: K)
    ensures k in PairsToMap(Keyed(rows, keep, key, val)) <==> exists i :: 0 <= i < |rows| && keep(rows[i]) && key(rows[i]) == k
    decreases |rows|
  {
    if |rows| > 0 {
      var n := |rows| - 1;
      var init := rows[..n];
      var r := rows[n];
      var extra := if keep(r) then [(key(r), val(r))] else [];
      KeyedMembers(init, keep, key, val, k);
      PairsToMapAppend(Keyed(init, keep, key, val), extra);
      assert forall i :: 0 <= i < n ==> init[i] == rows[i];
      if keep(r) && key(r) == k {
      } else if k in PairsToMap(Keyed(init, keep, key, val)) {
        var i :| 0 <= i < n && keep(init[i]) && key(init[i]) == k;
        assert keep(rows[i]) && key(rows[i]) == k;
      }
    }
  }

  /** A key of the dict such a loop builds holds the value of the last kept
    * row that has it. */
  lemma {:induction false} KeyedLast<R, K, V>(rows: seq<R>, keep: R -> bool, key: R -> K, val: R -> V, k: K)
    ensures k in PairsToMap(Keyed(rows, keep, key, val)) ==>
      exists i :: LastKept(rows, keep, key, i, k) && PairsToMap(Keyed(rows, keep, key, val))[k] == val(rows[i])
    decreases |rows|
  {
    if |rows| > 0 {
      var n := |rows| - 1;
      var init := rows[..n];
      var r := rows[n];
      var extra := if keep(r) then [(key(r), val(r))] else [];
      KeyedLast(init, keep, key, val, k);
      PairsToMapAppend(Keyed(init, keep, key, val), extra);
      assert forall i :: 0 <= i < n ==> init[i] == rows[i];
      var m0 := PairsToMap(Keyed(init, keep, key, val));
      if keep(r) && key(r) == k {
        assert LastKept(rows, keep, key, n, k);
      } else if k in m0 {
        var i :| LastKept(init, keep, key, i, k) && m0[k] == val(init[i]);
        assert LastKept(rows, keep, key, i, k);
      }
    }
  }

  /** The dict such a loop builds: a key is present iff a kept row has it,
    * with the value of the last kept row that has it. */
  lemma KeyedLastWins<R, K, V>(rows: seq<R>, keep: R -> bool, key: R -> K, val: R -> V, k: K)
    ensures var m := PairsToMap(Keyed(rows, keep, key, val));
      k in m <==> exists i :: 0 <= i < |rows| && keep(rows[i]) && key(rows[i]) == k
    ensures var m := PairsToMap(Keyed(rows, keep, key, val));
      k in m ==> exists i :: LastKept(rows, keep, key, i, k) && m[k] == val(rows[i])
  {
    KeyedMembers(rows, keep, key, val, k);
    KeyedLast(rows, keep, key, val, k);
  }

  /** The step a loop takes on one more row. */
  lemma KeyedStep<R, K, V>(rows: seq<R>, i: nat, keep: R -> bool, key: R -> K, val: R -> V)
    requires i < |rows|
    ensures PairsToMap(Keyed(rows[..i + 1], keep, key, val)) ==
      if keep(rows[i]) then PairsToMap(Keyed(rows[..i], keep, key, val))[key(rows[i]) := val(rows[i])]
      else PairsToMap(Keyed(rows[..i], keep, key, val))
  {
    assert rows[..i + 1][..i] == rows[..i];
    var extra := if keep(rows[i]) then [(key(rows[i]), val(rows[i]))] else [];
    PairsToMapAppend(Keyed(rows[..i], keep, key, val), extra);
  }

  /** With distinct keys every row survives into the dict. */
  lemma {:induction false} PairsToMapLookup<K, V>(pairs: seq<(K, V)>, i: nat)
    requires DistinctKeys(pairs) && i < |pairs|
    ensures KeyAt(pairs, i) in PairsToMap(pairs) && PairsToMap(pairs)[KeyAt(pairs, i)] == ValueAt(pairs, i)
    decreases |pairs|
  {
    if i < |pairs| - 1 {
      var init := pairs[..|pairs| - 1];
      assert KeyAt(init, i) == KeyAt(pairs, i) && ValueAt(init, i) == ValueAt(pairs, i);
      assert forall a, b :: 0 <= a < b < |init| ==> KeyAt(init, a) == KeyAt(pairs, a) && KeyAt(init, b) == KeyAt(pairs, b);
      PairsToMapLookup(init, i);
      assert KeyAt(pairs, |pairs| - 1) != KeyAt(pairs, i);
    }
  }

  /** Swapping the rows of an injective table inverts its dict. */
  lemma SwapInverts<K, V>(pairs: seq<(K, V)>)
    requires DistinctKeys(pairs) && DistinctValues(pairs)
    ensures forall k :: k in PairsToMap(pairs) ==>
      PairsToMap(pairs)[k] in PairsToMap(Swap(pairs)) && PairsToMap(Swap(pairs))[PairsToMap(pairs)[k]] == k
    ensures forall v :: v in PairsToMap(Swap(pairs)) ==>
      PairsToMap(Swap(pairs))[v] in PairsToMap(pairs) && PairsToMap(pairs)[PairsToMap(Swap(pairs))[v]] == v
  {
    var m := PairsToMap(pairs);
    var sw := Swap(pairs);
    var r := PairsToMap(sw);
    assert forall i :: 0 <= i < |pairs| ==> KeyAt(sw, i) == ValueAt(pairs, i) && ValueAt(sw, i) == KeyAt(pairs, i);
    assert DistinctKeys(sw);
    forall k | k in m ensures m[k] in r && r[m[k]] == k {
      var i :| 0 <= i < |pairs| && pairs[i].0 == k;
      assert KeyAt(pairs, i) == k;
      PairsToMapLookup(pairs, i);
      PairsToMapLookup(sw, i);
    }
    forall v | v in r ensures r[v] in m && m[r[v]] == v {
      var i :| 0 <= i < |sw| && sw[i].0 == v;
      assert KeyAt(sw, i) == v;
      PairsToMapLookup(pairs, i);
      PairsToMapLookup(sw, i);
    }
  }

  /** Distinct keys give as many dict entries as rows. */
  lemma {:induction false} DistinctKeysCard<K, V>(pairs: seq<(K, V)>)
    requires DistinctKeys(pairs)
    ensures |PairsToMap(pairs)| == |pairs|
    decreases |pairs|
  {
    if |pairs| > 0 {
      var init := pairs[..|pairs| - 1];
      assert forall i :: 0 <= i < |init| ==> KeyAt(init, i) == KeyAt(pairs, i);
      DistinctKeysCard(init);
      forall i | 0 <= i < |init| ensures init[i].0 != pairs[|pairs| - 1].0 {
        assert KeyAt(pairs, i) != KeyAt(pairs, |pairs| - 1);
      }
      assert pairs[|pairs| - 1].0 !in PairsToMap(init);
    }
  }

  /** Distinct values give as many entries in the swapped dict as rows. */
  lemma DistinctValuesCard<K, V>(pairs: seq<(K, V)>)
    requires DistinctValues(pairs)
    ensures |PairsToMap(Swap(pairs))| == |pairs|
  {
    var sw := Swap(pairs);
    assert forall i :: 0 <= i < |pairs| ==> KeyAt(sw, i) == ValueAt(pairs, i);
    DistinctKeysCard(sw);
  }

  /** Two tables whose rows have the same keys, row by row, give dicts
    * with the same keys. */
  lemma SameKeys<V, W>(p: seq<(string, V)>, q: seq<(string, W)>)
    requires |p| == |q| && forall i :: 0 <= i < |p| ==> KeyAt(p, i) == KeyAt(q, i)
    ensures PairsToMap(p).Keys == PairsToMap(q).Keys
  {
    assert forall i :: 0 <= i < |p| ==> p[i].0 == KeyAt(q, i);
  }

  /** If each row of `q` starts with the value of the same row of `p`, and
    * the keys agree and are distinct, the dicts agree in the same way. */
  lemma PrefixCarried(p: seq<(string, string)>, q: seq<(string, string)>)
    requires |p| == |q| && DistinctKeys(p)
    requires forall i :: 0 <= i < |p| ==> KeyAt(p, i) == KeyAt(q, i)
    requires forall i :: 0 <= i < |q| ==> |ValueAt(q, i)| >= 2 && ValueAt(q, i)[..2] == ValueAt(p, i)
    ensures forall t :: t in PairsToMap(q) ==>
      t in PairsToMap(p) && |PairsToMap(q)[t]| >= 2 && PairsToMap(q)[t][..2] == PairsToMap(p)[t]
  {
    assert DistinctKeys(q);
    forall t | t in PairsToMap(q)
      ensures t in PairsToMap(p) && |PairsToMap(q)[t]| >= 2 && PairsToMap(q)[t][..2] == PairsToMap(p)[t]
    {
      MapValueFromRow(q, t);
      var i :| 0 <= i < |q| && KeyAt(q, i) == t && PairsToMap(q)[t] == ValueAt(q, i);
      PairsToMapLookup(p, i);
    }
  }

  /** Every value of the dict is one of the values its rows draw from. */
  lemma ValuesDrawnFrom(pairs: seq<(string, string)>, names: seq<string>)
    requires forall i :: 0 <= i < |pairs| ==> ValueAt(pairs, i) in names
    ensures forall t :: t in PairsToMap(pairs) ==> PairsToMap(pairs)[t] in names
  {
    forall t | t in PairsToMap(pairs) ensures PairsToMap(pairs)[t] in names {
      MapValueFromRow(pairs, t);
    }
  }

  /** The keys of a slice of rows, read off a copy of that slice. */
  lemma SliceKeys<K, V>(pairs: seq<(K, V)>, lo: nat, block: seq<(K, V)>)
    requires lo + |block| <= |pairs| && pairs[lo..lo + |block|] == block
    ensures forall j :: 0 <= j < |block| ==> KeyAt(pairs, lo + j) == block[j].0
  {
    forall j | 0 <= j < |block| ensures KeyAt(pairs, lo + j) == block[j].0 {
      assert pairs[lo..lo + |block|][j] == pairs[lo + j];
    }
  }

  /** The keys holding value `v`. */
  ghost function KeysWith(m: map<string, string>, v: string): set<string>
  {
    set t | t in m && m[t] == v
  }

  lemma {:induction false} DistinctSeqCard<T>(s: seq<T>)
    requires forall i, j :: 0 <= i < j < |s| ==> s[i] != s[j]
    ensures |set x | x in s| == |s|
    decreases |s|
  {
    if |s| > 0 {
      var init := s[..|s| - 1];
      DistinctSeqCard(init);
      assert (set x | x in s) == (set x | x in init) + {s[|s| - 1]};
    }
  }

  /** A key whose value is the name of block `k` sits in block `k`. */
  lemma InBlock(pairs: seq<(string, string)>, names: seq<string>, k: nat, t: string)
    requires |pairs| == 5 * |names| && k < |names|
    requires forall i, j :: 0 <= i < j < |names| ==> names[i] != names[j]
    requires forall i :: 0 <= i < |pairs| ==> ValueAt(pairs, i) == names[i / 5]
    requires t in KeysWith(PairsToMap(pairs), names[k])
    ensures t in {KeyAt(pairs, 5 * k), KeyAt(pairs, 5 * k + 1), KeyAt(pairs, 5 * k + 2),
                  KeyAt(pairs, 5 * k + 3), KeyAt(pairs, 5 * k + 4)}
  {
    MapValueFromRow(pairs, t);
    var i :| 0 <= i < |pairs| && KeyAt(pairs, i) == t && PairsToMap(pairs)[t] == ValueAt(pairs, i);
    var q := i / 5;
    assert names[q] == names[k];
    assert q == k;
    assert 5 * k <= i < 5 * k + 5;
  }

  /** A table laid out in blocks of five rows, block `k` carrying `names[k]`,
    * maps exactly the five keys of block `k` to `names[k]`. */
  lemma BlockKeys(pairs: seq<(string, string)>, names: seq<string>, k: nat)
    requires DistinctKeys(pairs) && |pairs| == 5 * |names| && k < |names|
    requires forall i, j :: 0 <= i < j < |names| ==> names[i] != names[j]
    requires forall i :: 0 <= i < |pairs| ==> ValueAt(pairs, i) == names[i / 5]
    ensures KeysWith(PairsToMap(pairs), names[k]) == {KeyAt(pairs, 5 * k), KeyAt(pairs, 5 * k + 1),
      KeyAt(pairs, 5 * k + 2), KeyAt(pairs, 5 * k + 3), KeyAt(pairs, 5 * k + 4)}
    ensures |KeysWith(PairsToMap(pairs), names[k])| == 5
  {
    var lo := 5 * k;
    var five := {KeyAt(pairs, lo), KeyAt(pairs, lo + 1), KeyAt(pairs, lo + 2), KeyAt(pairs, lo + 3), KeyAt(pairs, lo + 4)};
    forall t | t in KeysWith(PairsToMap(pairs), names[k]) ensures t in five {
      InBlock(pairs, names, k, t);
    }
    forall i | lo <= i < lo + 5 ensures KeyAt(pairs, i) in KeysWith(PairsToMap(pairs), names[k]) {
      PairsToMapLookup(pairs, i);
    }
    FiveDistinct(pairs, lo);
  }

  lemma FiveDistinct(pairs: seq<(string, string)>, lo: nat)
    requires DistinctKeys(pairs) && lo + 5 <= |pairs|
    ensures |{KeyAt(pairs, lo), KeyAt(pairs, lo + 1), KeyAt(pairs, lo + 2), KeyAt(pairs, lo + 3), KeyAt(pairs, lo + 4)}| == 5
  {
    var codes := [KeyAt(pairs, lo), KeyAt(pairs, lo + 1), KeyAt(pairs, lo + 2), KeyAt(pairs, lo + 3), KeyAt(pairs, lo + 4)];
    forall a, b | 0 <= a < b < 5 ensures codes[a] != codes[b] {
      assert KeyAt(pairs, lo + a) != KeyAt(pairs, lo + b);
    }
    DistinctSeqCard(codes);
    assert (set x | x in codes) == {KeyAt(pairs, lo), KeyAt(pairs, lo + 1), KeyAt(pairs, lo + 2), KeyAt(pairs, lo + 3), KeyAt(pairs, lo + 4)};
  }

  lemma SubsetCardLe<T>(a: set<T>, b: set<T>)
    requires a <= b
    ensures |a| <= |b|
  {
    assert b == a + (b - a);
  }

  lemma SubsetSameCard<T>(a: set<T>, b: set<T>)
    requires a <= b && |a| == |b|
    ensures a == b
  {
    if a != b {
      var x :| x in b && x !in a;
      assert |b - {x}| == |b| - 1;
      SubsetCardLe(a, b - {x});
    }
  }

  /** Rows `lo` to `hi - 1` of `pairs` carry the key of the row of `reference`
    * that `order` points at. */
  ghost predicate RowsFollow<K, V>(pairs: seq<(K, string)>, reference: seq<(string, V)>, order: seq<int>, lo: nat, hi: nat)
  {
    hi <= |pairs| && hi <= |order| &&
    forall i :: lo <= i < hi ==> 0 <= order[i] < |reference| && ValueAt(pairs, i) == KeyAt(reference, order[i])
  }

  /** Two adjacent ranges of rows that follow `order` join into one. */
  lemma FollowJoin<K, V>(pairs: seq<(K, string)>, reference: seq<(string, V)>, order: seq<int>, lo: nat, mid: nat, hi: nat)
    requires lo <= mid <= hi
    requires RowsFollow(pairs, reference, order, lo, mid) && RowsFollow(pairs, reference, order, mid, hi)
    ensures RowsFollow(pairs, reference, order, lo, hi)
  {
  }

  /** Re-ordering the distinct keys of `reference` by a permutation gives
    * distinct values. */
  lemma ReorderedDistinct<K, V>(pairs: seq<(K, string)>, reference: seq<(string, V)>, order: seq<int>, inverse: seq<int>)
    requires DistinctKeys(reference) && |pairs| == |order| == |inverse|
    requires RowsFollow(pairs, reference, order, 0, |pairs|)
    requires forall i :: 0 <= i < |order| ==> 0 <= order[i] < |inverse| && inverse[order[i]] == i
    ensures DistinctValues(pairs)
  {
    forall i, j | 0 <= i < j < |pairs| ensures ValueAt(pairs, i) != ValueAt(pairs, j) {
      assert order[i] != order[j];
      if order[i] < order[j] {
        assert KeyAt(reference, order[i]) != KeyAt(reference, order[j]);
      } else {
        assert KeyAt(reference, order[j]) != KeyAt(reference, order[i]);
      }
    }
  }

  /** The values of a table with distinct keys and distinct values, all keys
    * of `reference` and as many as its rows, are exactly those keys. */
  lemma ValuesAreKeys<K, V>(pairs: seq<(K, string)>, reference: seq<(string, V)>)
    requires DistinctKeys(pairs) && DistinctValues(pairs) && DistinctKeys(reference)
    requires |pairs| == |reference|
    requires forall i :: 0 <= i < |pairs| ==> ValueAt(pairs, i) in PairsToMap(reference)
    ensures PairsToMap(pairs).Values == PairsToMap(reference).Keys
  {
    var m := PairsToMap(pairs);
    var vs := seq(|pairs|, i requires 0 <= i < |pairs| => ValueAt(pairs, i));
    forall i, j | 0 <= i < j < |vs| ensures vs[i] != vs[j] {
      assert ValueAt(pairs, i) != ValueAt(pairs, j);
    }
    DistinctSeqCard(vs);
    var vset := set x | x in vs;
    DistinctKeysCard(reference);
    SubsetSameCard(vset, PairsToMap(reference).Keys);
    forall v | v in m.Values ensures v in vset {
      var k :| k in m && m[k] == v;
      MapValueFromRow(pairs, k);
    }
    forall v | v in vset ensures v in m.Values {
      var i :| 0 <= i < |vs| && vs[i] == v;
      PairsToMapLookup(pairs, i);
    }
  }

  /** A table whose values are the keys of `reference` re-ordered by a
    * permutation (`inverse` undoes `order`) is a bijection onto those keys. */
  lemma ReorderedBijective<K, V>(pairs: seq<(K, string)>, reference: seq<(string, V)>, order: seq<int>, inverse: seq<int>)
    requires DistinctKeys(pairs) && DistinctKeys(reference)
    requires |pairs| == |order| == |inverse| == |reference|
    requires RowsFollow(pairs, reference, order, 0, |pairs|)
    requires forall i :: 0 <= i < |order| ==> 0 <= order[i] < |inverse| && inverse[order[i]] == i
    ensures PairsToMap(pairs).Values == PairsToMap(reference).Keys && |PairsToMap(pairs)| == |reference|
    ensures forall a, b :: a in PairsToMap(pairs) && b in PairsToMap(pairs) && a != b ==>
      PairsToMap(pairs)[a] != PairsToMap(pairs)[b]
  {
    ReorderedDistinct(pairs, reference, order, inverse);
    forall i | 0 <= i < |pairs| ensures ValueAt(pairs, i) in PairsToMap(reference) {
      assert ValueAt(pairs, i) == reference[order[i]].0;
    }
    ValuesAreKeys(pairs, reference);
    DistinctKeysCard(pairs);
    SwapInverts(pairs);
  }

  /** Keys in rows `a` to `a + 4` differ from keys in rows `b` to `b + 4`. */
  ghost predicate KeyBlocks<V>(pairs: seq<(string, V)>, a: nat, b: nat)
  {
    forall i, j :: a <= i < a + 5 && b <= j < b + 5 && i < j < |pairs| ==> KeyAt(pairs, i) != KeyAt(pairs, j)
  }

  /** Every pair of five-row blocks of a 30-row table has distinct keys. */
  ghost predicate AllKeyBlocks<V>(pairs: seq<(string, V)>)
  {
    KeyBlocks(pairs, 0, 0) && KeyBlocks(pairs, 0, 5) && KeyBlocks(pairs, 0, 10) && KeyBlocks(pairs, 0, 15) &&
    KeyBlocks(pairs, 0, 20) && KeyBlocks(pairs, 0, 25) && KeyBlocks(pairs, 5, 5) && KeyBlocks(pairs, 5, 10) &&
    KeyBlocks(pairs, 5, 15) && KeyBlocks(pairs, 5, 20) && KeyBlocks(pairs, 5, 25) && KeyBlocks(pairs, 10, 10) &&
    KeyBlocks(pairs, 10, 15) && KeyBlocks(pairs, 10, 20) && KeyBlocks(pairs, 10, 25) && KeyBlocks(pairs, 15, 15) &&
    KeyBlocks(pairs, 15, 20) && KeyBlocks(pairs, 15, 25) && KeyBlocks(pairs, 20, 20) && KeyBlocks(pairs, 20, 25) &&
    KeyBlocks(pairs, 25, 25)
  }

  lemma KeyBlocksDistinct<V>(pairs: seq<(string, V)>)
    requires |pairs| == 30 && AllKeyBlocks(pairs)
    ensures DistinctKeys(pairs)
  {
    forall i, j | 0 <= i < j < |pairs| ensures KeyAt(pairs, i) != KeyAt(pairs, j) {
      assert KeyBlocks(pairs, 5 * (i / 5), 5 * (j / 5));
    }
  }

  lemma {:induction false} AscendingKeysDistinct<V>(pairs: seq<(int, V)>)
    requires forall i :: 0 <= i < |pairs| - 1 ==> KeyAt(pairs, i) < KeyAt(pairs, i + 1)
    ensures forall i, j :: 0 <= i < j < |pairs| ==> KeyAt(pairs, i) < KeyAt(pairs, j)
    ensures DistinctKeys(pairs)
    decreases |pairs|
  {
    if |pairs| > 1 {
      var init := pairs[..|pairs| - 1];
      assert forall i :: 0 <= i < |init| ==> KeyAt(init, i) == KeyAt(pairs, i);
      AscendingKeysDistinct(init);
      forall i | 0 <= i < |pairs| - 1 ensures KeyAt(pairs, i) < KeyAt(pairs, |pairs| - 1) {
        if i < |pairs| - 2 {
          assert KeyAt(init, i) < KeyAt(init, |pairs| - 2);
        }
      }
    }
  }

  /** Row `i` of `p` has the key of row `order[i]` of `q`. */
  ghost predicate KeysFollow<V, W>(p: seq<(string, V)>, q: seq<(string, W)>, order: seq<int>)
  {
    |order| == |p| && forall i :: 0 <= i < |p| ==> 0 <= order[i] < |q| && KeyAt(p, i) == KeyAt(q, order[i])
  }

  /** Two tables whose rows are matched both ways, the second with distinct
    * keys, have the same keys; the first then has distinct keys as well. */
  lemma MatchedKeys<V, W>(p: seq<(string, V)>, q: seq<(string, W)>, order: seq<int>, back: seq<int>)
    requires DistinctKeys(q) && KeysFollow(p, q, order) && KeysFollow(q, p, back)
    requires forall i :: 0 <= i < |p| ==> back[order[i]] == i
    ensures PairsToMap(p).Keys == PairsToMap(q).Keys
    ensures DistinctKeys(p) && |PairsToMap(p)| == |p|
  {
    forall k | k in PairsToMap(p) ensures k in PairsToMap(q) {
      var i :| 0 <= i < |p| && p[i].0 == k;
      assert KeyAt(p, i) == KeyAt(q, order[i]);
    }
    forall k | k in PairsToMap(q) ensures k in PairsToMap(p) {
      var j :| 0 <= j < |q| && q[j].0 == k;
      assert KeyAt(q, j) == KeyAt(p, back[j]);
    }
    forall i, j | 0 <= i < j < |p| ensures KeyAt(p, i) != KeyAt(p, j) {
      assert order[i] != order[j];
      if order[i] < order[j] {
        assert KeyAt(q, order[i]) != KeyAt(q, order[j]);
      } else {
        assert KeyAt(q, order[j]) != KeyAt(q, order[i]);
      }
    }
    DistinctKeysCard(p);
  }

  /** Replacing the value of one row of a table with distinct keys updates
    * that one entry of its dict. */
  lemma {:induction false} ReplaceValue<V>(p: seq<(string, V)>, i: nat, v: V)
    requires DistinctKeys(p) && i < |p|
    ensures PairsToMap(p[i := (KeyAt(p, i), v)]) == PairsToMap(p)[KeyAt(p, i) := v]
    decreases |p|
  {
    var k := KeyAt(p, i);
    var r := p[i := (k, v)];
    var n := |p| - 1;
    var pre := p[..n];
    assert PairsToMap(p) == PairsToMap(pre)[p[n].0 := p[n].1];
    if i < n {
      assert r[..n] == pre[i := (k, v)];
      assert r[n] == p[n];
      assert PairsToMap(r) == PairsToMap(pre[i := (k, v)])[p[n].0 := p[n].1];
      DistinctPrefix(p, n);
      assert KeyAt(pre, i) == k;
      ReplaceValue(pre, i, v);
      assert p[n].0 != k by {
        assert KeyAt(p, i) != KeyAt(p, n);
      }
      UpdatesCommute(PairsToMap(pre), k, v, p[n].0, p[n].1);
    } else {
      assert r[..n] == pre;
      assert PairsToMap(r) == PairsToMap(pre)[k := v];
    }
  }

  lemma DistinctPrefix<V>(p: seq<(string, V)>, n: nat)
    requires DistinctKeys(p) && n <= |p|
    ensures DistinctKeys(p[..n])
  {
    assert forall a :: 0 <= a < n ==> KeyAt(p[..n], a) == KeyAt(p, a);
  }

  lemma UpdatesCommute<K, V>(m: map<K, V>, k: K, v: V, k2: K, w: V)
    requires k != k2
    ensures m[k := v][k2 := w] == m[k2 := w][k := v]
  {
  }

  /** Every value of the dict lies in `[lo, hi]` when every row's does. */
  lemma ValuesWithin<K>(p: seq<(K, int)>, lo: int, hi: int)
    requires forall i :: 0 <= i < |p| ==> lo <= ValueAt(p, i) <= hi
    ensures forall k :: k in PairsToMap(p) ==> lo <= PairsToMap(p)[k] <= hi
  {
    forall k | k in PairsToMap(p) ensures lo <= PairsToMap(p)[k] <= hi {
      MapValueFromRow(p, k);
    }
  }
}
