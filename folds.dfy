/** Left folds over a run of games, as the pipeline's replay loops take
  * them: the state after each prefix, one output row per game computed from
  * the state before it, a filter-and-map over input lines, and snapshots of
  * the state taken whenever a key (the season) changes. Nothing here knows
  * what the state is, so lemmas about these never unfold the rating
  * arithmetic. */
module Folds {
  import opened Wrappers

  /** The state after every game of `games`, from `init`. */
  function Final<S(!new), G(!new)>(next: (S, G) --> S, init: S, games: seq<G>): S
    requires forall s, g :: next.requires(s, g)
  {
    if |games| == 0 then init else next(Final(next, init, games[..|games| - 1]), games[|games| - 1])
  }

  lemma FinalStep<S(!new), G(!new)>(next: (S, G) --> S, init: S, games: seq<G>, i: nat)
    requires forall s, g :: next.requires(s, g)
    requires i < |games|
    ensures Final(next, init, games[..i + 1]) == next(Final(next, init, games[..i]), games[i])
  {
    assert games[..i + 1][..i] == games[..i];
  }

  /** One row per game, each from the state the earlier games left. */
  function Trace<S(!new), G(!new), R>(row: (S, G) --> R, next: (S, G) --> S, init: S, games: seq<G>): (rows: seq<R>)
    requires forall s, g :: row.requires(s, g) && next.requires(s, g)
    ensures |rows| == |games|
  {
    if |games| == 0 then []
    else
      var n := |games| - 1;
      Trace(row, next, init, games[..n]) + [row(Final(next, init, games[..n]), games[n])]
  }

  lemma TraceStep<S(!new), G(!new), R>(row: (S, G) --> R, next: (S, G) --> S, init: S, games: seq<G>, i: nat)
    requires forall s, g :: row.requires(s, g) && next.requires(s, g)
    requires i < |games|
    ensures Trace(row, next, init, games[..i + 1]) ==
      Trace(row, next, init, games[..i]) + [row(Final(next, init, games[..i]), games[i])]
  {
    assert games[..i + 1][..i] == games[..i];
  }

  /** Row `i` is game `i` scored from the state after the first `i` games. */
  lemma {:induction false} TraceAt<S(!new), G(!new), R>(row: (S, G) --> R, next: (S, G) --> S, init: S,
                                                      games: seq<G>, i: nat)
    requires forall s, g :: row.requires(s, g) && next.requires(s, g)
    requires i < |games|
    ensures Trace(row, next, init, games)[i] == row(Final(next, init, games[..i]), games[i])
    decreases |games|
  {
    var n := |games| - 1;
    if i < n {
      TraceAt(row, next, init, games[..n], i);
      assert games[..n][..i] == games[..i];
    } else {
      assert games[..n] == games[..i];
    }
  }

  /** The items `parse` accepts, in input order. */
  function FilterMap<A, B>(parse: A -> Option<B>, lines: seq<A>): (items: seq<B>)
    ensures |items| <= |lines|
  {
    if |lines| == 0 then []
    else
      var prev := FilterMap(parse, lines[..|lines| - 1]);
      match parse(lines[|lines| - 1])
      case None => prev
      case Some(b) => prev + [b]
  }

  lemma FilterMapStep<A, B>(parse: A -> Option<B>, lines: seq<A>, i: nat)
    requires i < |lines|
    ensures FilterMap(parse, lines[..i + 1]) ==
      FilterMap(parse, lines[..i]) + (if parse(lines[i]).Some? then [parse(lines[i]).value] else [])
  {
    assert lines[..i + 1][..i] == lines[..i];
  }

  /** Every item comes from a line that `parse` accepted, and the items keep
    * the order of their lines. */
  lemma {:induction false} FilterMapFrom<A, B>(parse: A -> Option<B>, lines: seq<A>, k: nat)
    requires k < |FilterMap(parse, lines)|
    ensures exists i :: 0 <= i < |lines| && parse(lines[i]) == Some(FilterMap(parse, lines)[k])
    decreases |lines|
  {
    var init := lines[..|lines| - 1];
    var prev := FilterMap(parse, init);
    if k < |prev| {
      FilterMapFrom(parse, init, k);
      var i :| 0 <= i < |init| && parse(init[i]) == Some(prev[k]);
      assert lines[i] == init[i];
    }
  }

  /** Every accepted line yields an item. */
  lemma {:induction false} FilterMapKeeps<A, B>(parse: A -> Option<B>, lines: seq<A>, i: nat)
    requires i < |lines| && parse(lines[i]).Some?
    ensures parse(lines[i]).value in FilterMap(parse, lines)
    decreases |lines|
  {
    var n := |lines| - 1;
    if i < n {
      FilterMapKeeps(parse, lines[..n], i);
    }
  }

  /** An item is kept exactly when some element maps to it. */
  lemma {:induction false} FilterMapMembers<A, B>(f: A -> Option<B>, s: seq<A>, b: B)
    ensures b in FilterMap(f, s) <==> exists i :: 0 <= i < |s| && f(s[i]) == Some(b)
  {
    if |s| > 0 {
      var init := s[..|s| - 1];
      FilterMapMembers(f, init, b);
      if exists i :: 0 <= i < |s| && f(s[i]) == Some(b) {
        var i :| 0 <= i < |s| && f(s[i]) == Some(b);
        if i < |init| {
          assert init[i] == s[i];
        }
      }
      if exists i :: 0 <= i < |init| && f(init[i]) == Some(b) {
        var i :| 0 <= i < |init| && f(init[i]) == Some(b);
        assert s[i] == init[i];
      }
    }
  }

  /** When `f` is defined everywhere, nothing is dropped. */
  lemma {:induction false} FilterMapAll<A, B>(f: A -> Option<B>, s: seq<A>, r: seq<B>)
    requires |r| == |s| && forall i :: 0 <= i < |s| ==> f(s[i]) == Some(r[i])
    ensures FilterMap(f, s) == r
  {
    if |s| > 0 {
      FilterMapAll(f, s[..|s| - 1], r[..|r| - 1]);
      assert r == r[..|r| - 1] + [r[|r| - 1]];
    }
  }

  /** How many elements of `s` satisfy `p`. */
  function CountWhere<A>(s: seq<A>, p: A -> bool): (n: nat)
    ensures n <= |s|
  {
    if |s| == 0 then 0
    else CountWhere(s[..|s| - 1], p) + (if p(s[|s| - 1]) then 1 else 0)
  }

  lemma {:induction false} FilterMapCount<A, B>(f: A -> Option<B>, s: seq<A>, p: A -> bool)
    requires forall x :: f(x).Some? <==> p(x)
    ensures |FilterMap(f, s)| == CountWhere(s, p)
  {
    if |s| > 0 {
      FilterMapCount(f, s[..|s| - 1], p);
    }
  }

  // Season-end snapshots.

  /** Game `i` is the last of a run of games with one key. */
  predicate Boundary<G, K(==)>(key: G -> K, games: seq<G>, i: int)
  {
    0 <= i < |games| && (i + 1 == |games| || key(games[i + 1]) != key(games[i]))
  }

  /** Game `i` is the last boundary with key `y`. */
  predicate LastBoundary<G, K(==)>(key: G -> K, games: seq<G>, i: int, y: K)
  {
    Boundary(key, games, i) && key(games[i]) == y &&
    forall j :: i < j < |games| && Boundary(key, games, j) ==> key(games[j]) != y
  }

  /** The snapshots taken inside the loop: when the key changes, the previous
    * key gets `view` of the state before the first game of the new key. */
  function Snapshots<S(!new), G(!new), K, V>(key: G -> K, view: S -> V, next: (S, G) --> S, init: S, games: seq<G>):
    map<K, V>
    requires forall s, g :: next.requires(s, g)
  {
    if |games| <= 1 then map[]
    else
      var n := |games| - 1;
      var prev := Snapshots(key, view, next, init, games[..n]);
      if key(games[n]) != key(games[n - 1]) then prev[key(games[n - 1]) := view(Final(next, init, games[..n]))]
      else prev
  }

  /** All snapshots, with the last key's taken after the loop. */
  function SeasonEnd<S(!new), G(!new), K, V>(key: G -> K, view: S -> V, next: (S, G) --> S, init: S, games: seq<G>):
    map<K, V>
    requires forall s, g :: next.requires(s, g)
  {
    if |games| == 0 then map[]
    else Snapshots(key, view, next, init, games)[key(games[|games| - 1]) := view(Final(next, init, games))]
  }

  lemma SnapshotsStep<S(!new), G(!new), K, V>(key: G -> K, view: S -> V, next: (S, G) --> S, init: S, games: seq<G>, i: nat)
    requires forall s, g :: next.requires(s, g)
    requires 0 < i < |games|
    ensures Snapshots(key, view, next, init, games[..i + 1]) ==
      if key(games[i]) != key(games[i - 1])
      then Snapshots(key, view, next, init, games[..i])[key(games[i - 1]) := view(Final(next, init, games[..i]))]
      else Snapshots(key, view, next, init, games[..i])
  {
    assert games[..i + 1][..i] == games[..i];
  }

  /** Game `i` is the last boundary with key `y` before the last game. */
  predicate LastInLoop<G, K(==)>(key: G -> K, games: seq<G>, i: int, y: K)
  {
    Boundary(key, games, i) && i + 1 < |games| && key(games[i]) == y &&
    forall j :: i < j && j + 1 < |games| && Boundary(key, games, j) ==> key(games[j]) != y
  }

  /** The in-loop snapshots hold key `y` iff a boundary before the last game
    * has key `y`. */
  lemma {:induction false} SnapshotsKeys<S(!new), G(!new), K, V>(key: G -> K, view: S -> V, next: (S, G) --> S, init: S,
                                                               games: seq<G>, y: K)
    requires forall s, g :: next.requires(s, g)
    ensures y in Snapshots(key, view, next, init, games) <==>
      exists i :: Boundary(key, games, i) && i + 1 < |games| && key(games[i]) == y
    decreases |games|
  {
    if |games| > 1 {
      var n := |games| - 1;
      var init' := games[..n];
      SnapshotsKeys(key, view, next, init, init', y);
      assert forall i :: 0 <= i < n ==> init'[i] == games[i];
      assert forall i :: i + 1 < n ==> (Boundary(key, init', i) <==> Boundary(key, games, i));
      if key(games[n]) != key(games[n - 1]) && key(games[n - 1]) == y {
        assert Boundary(key, games, n - 1);
      } else if y in Snapshots(key, view, next, init, init') {
        var i :| Boundary(key, init', i) && i + 1 < n && key(init'[i]) == y;
        assert Boundary(key, games, i);
      } else {
        assert forall i :: i + 1 < n && Boundary(key, games, i) ==> Boundary(key, init', i);
      }
    }
  }

  /** An in-loop snapshot for key `y` holds the view after the last boundary
    * with key `y` before the last game. */
  lemma {:induction false} SnapshotsValue<S(!new), G(!new), K, V>(key: G -> K, view: S -> V, next: (S, G) --> S, init: S,
                                                                games: seq<G>, y: K)
    requires forall s, g :: next.requires(s, g)
    ensures y in Snapshots(key, view, next, init, games) ==>
      exists i :: LastInLoop(key, games, i, y) &&
        Snapshots(key, view, next, init, games)[y] == view(Final(next, init, games[..i + 1]))
    decreases |games|
  {
    if |games| > 1 {
      var n := |games| - 1;
      var init' := games[..n];
      SnapshotsValue(key, view, next, init, init', y);
      assert forall i :: 0 <= i < n ==> init'[i] == games[i];
      assert forall i :: i + 1 < n ==> (Boundary(key, init', i) <==> Boundary(key, games, i));
      if key(games[n]) != key(games[n - 1]) && key(games[n - 1]) == y {
        assert LastInLoop(key, games, n - 1, y);
        assert games[..n - 1 + 1] == init';
      } else if y in Snapshots(key, view, next, init, init') {
        var i :| LastInLoop(key, init', i, y) &&
          Snapshots(key, view, next, init, init')[y] == view(Final(next, init, init'[..i + 1]));
        assert init'[..i + 1] == games[..i + 1];
        assert Boundary(key, games, n - 1) ==> key(games[n - 1]) != y;
        assert LastInLoop(key, games, i, y);
      }
    }
  }

  /** From any game, the run of its key ends at a boundary. */
  lemma {:induction false} BoundaryAfter<G, K>(key: G -> K, games: seq<G>, i: nat)
    requires i < |games|
    ensures exists j :: i <= j && Boundary(key, games, j) && key(games[j]) == key(games[i])
    decreases |games| - i
  {
    if !Boundary(key, games, i) {
      BoundaryAfter(key, games, i + 1);
    }
  }

  /** A key has a season-end entry iff some game has it, and the entry is
    * the view after the last game of its last run. */
  lemma SeasonEndSpec<S(!new), G(!new), K, V>(key: G -> K, view: S -> V, next: (S, G) --> S, init: S,
                                             games: seq<G>, y: K)
    requires forall s, g :: next.requires(s, g)
    ensures y in SeasonEnd(key, view, next, init, games) <==> exists i :: 0 <= i < |games| && key(games[i]) == y
    ensures y in SeasonEnd(key, view, next, init, games) ==>
      exists i :: LastBoundary(key, games, i, y) &&
        SeasonEnd(key, view, next, init, games)[y] == view(Final(next, init, games[..i + 1]))
  {
    if |games| > 0 {
      var n := |games| - 1;
      SnapshotsKeys(key, view, next, init, games, y);
      SnapshotsValue(key, view, next, init, games, y);
      assert games[..n + 1] == games;
      if key(games[n]) == y {
        assert LastBoundary(key, games, n, y);
      } else if y in Snapshots(key, view, next, init, games) {
        var i :| LastInLoop(key, games, i, y) &&
          Snapshots(key, view, next, init, games)[y] == view(Final(next, init, games[..i + 1]));
        assert LastBoundary(key, games, i, y);
      } else {
        forall i | 0 <= i < |games| && key(games[i]) == y ensures false {
          BoundaryAfter(key, games, i);
        }
      }
    }
  }
}
