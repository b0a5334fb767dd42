/** A season replayed in order: each game is scored from the state (the
  * ratings) the earlier games left, then the state is updated from it. A
  * game that cannot be scored ends the replay with its error. */
module SeasonReplay {
  import opened Wrappers

  /** The per-game scores so far and the state after them. */
  function Replay<S(!new), G(!new), R>(score: (S, G) --> Result<R>, next: (S, G) --> S, init: S, games: seq<G>):
    (r: Result<(seq<R>, S)>)
    requires forall s, g :: score.requires(s, g) && next.requires(s, g)
    ensures r.Ok? ==> |r.value.0| == |games|
  {
    if |games| == 0 then Ok(([], init))
    else
      var prev := Replay(score, next, init, games[..|games| - 1]);
      if prev.Err? then prev
      else
        var g := games[|games| - 1];
        var res := score(prev.value.1, g);
        if res.Err? then Err(res.error)
        else Ok((prev.value.0 + [res.value], next(prev.value.1, g)))
  }

  /** Each game's score is the one computed from the state left by the
    * games before it. */
  lemma {:induction false} ReplayUsesPriorState<S(!new), G(!new), R>(score: (S, G) --> Result<R>, next: (S, G) --> S,
                                                         init: S, games: seq<G>, i: nat)
    requires forall s, g :: score.requires(s, g) && next.requires(s, g)
    requires i < |games| && Replay(score, next, init, games).Ok?
    ensures Replay(score, next, init, games[..i]).Ok?
    ensures score(Replay(score, next, init, games[..i]).value.1, games[i]) ==
            Ok(Replay(score, next, init, games).value.0[i])
    decreases |games|
  {
    var n := |games| - 1;
    var init' := games[..n];
    if i < n {
      assert init'[..i] == games[..i];
      ReplayUsesPriorState(score, next, init, init', i);
    } else {
      assert init' == games[..i];
    }
  }

  /** Once a prefix fails, the whole replay fails. */
  lemma {:induction false} ErrorPersists<S(!new), G(!new), R>(score: (S, G) --> Result<R>, next: (S, G) --> S,
                                                  init: S, games: seq<G>, k: nat)
    requires forall s, g :: score.requires(s, g) && next.requires(s, g)
    requires k <= |games| && Replay(score, next, init, games[..k]).Err?
    ensures Replay(score, next, init, games).Err?
    decreases |games| - k
  {
    if k < |games| {
      assert games[..k + 1][..k] == games[..k];
      ErrorPersists(score, next, init, games, k + 1);
    } else {
      assert games[..k] == games;
    }
  }

  /** The replay of one more game, as a loop takes it. */
  lemma ReplayStep<S(!new), G(!new), R>(score: (S, G) --> Result<R>, next: (S, G) --> S, init: S, games: seq<G>, i: nat)
    requires forall s, g :: score.requires(s, g) && next.requires(s, g)
    requires i < |games| && Replay(score, next, init, games[..i]).Ok?
    ensures var prev := Replay(score, next, init, games[..i]).value;
      Replay(score, next, init, games[..i + 1]) ==
        if score(prev.1, games[i]).Err? then Err(score(prev.1, games[i]).error)
        else Ok((prev.0 + [score(prev.1, games[i]).value], next(prev.1, games[i])))
  {
    assert games[..i + 1][..i] == games[..i];
  }
}
