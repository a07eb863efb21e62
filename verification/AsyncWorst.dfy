/** The cost bounds of the async class are attained, for any calls of a key. */
module AsyncWorst {
  import opened Basics
  import opened AsyncMachine
  import opened AsyncRuns
  import opened AsyncCost
  import opened AsyncSteps
  import opened Runs
  import opened Sums
  import Front

  // Every call leads in turn

  /** The calls in `todo` have not begun to lead; the others for `k` have run their factory. */
  ghost predicate SomeMade(w: World, s: State, k: Key, todo: set<nat>) {
    && k !in s.flight.inflight && |s.hist.made| == |w.calls|
    && (forall i | i in todo :: IsLooking(s, i))
    && (forall i | i in Front.CallsFor(w, k) && i !in todo :: s.hist.made[i].Some?)
  }

  lemma {:induction false} EachInTurn(w: World, k: Key, run: seq<Label>, todo: set<nat>, e: Exc)
    returns (run': seq<Label>)
    requires Valid(Sys(w), run) && todo <= Front.CallsFor(w, k) && SomeMade(w, End(w, run), k, todo)
    ensures Valid(Sys(w), run') && SomeMade(w, End(w, run'), k, {})
    decreases |todo|
  {
    if todo == {} {
      run' := run;
    } else {
      var i :| i in todo;
      run' := Fails(w, run, i, k, e);
      run' := EachInTurn(w, k, run', todo - {i}, e);
    }
  }

  /** N calls can run the factory N times, one after another. */
  lemma FactoryBoundAttained(w: World, k: Key, e: Exc) returns (run: seq<Label>)
    ensures Valid(Sys(w), run) && Count(Sys(w), run, |run|, IsFactoryCall(k)) == |Front.CallsFor(w, k)|
  {
    run := EachInTurn(w, k, [], Front.CallsFor(w, k), e);
    FactoryCallsCounted(w, run, k);
    assert Present(Front.CallsFor(w, k), End(w, run).hist.made) == Front.CallsFor(w, k);
  }

  // One leads, the rest await

  lemma {:induction false} AllArrive(w: World, k: Key, run: seq<Label>, todo: set<nat>) returns (run': seq<Label>)
    requires Valid(Sys(w), run) && todo <= Front.CallsFor(w, k) && k in End(w, run).flight.inflight
    requires forall i | i in todo :: IsLooking(End(w, run), i)
    ensures Valid(Sys(w), run')
    ensures |Followers(w, k, End(w, run'))| == |Followers(w, k, End(w, run))| + |todo|
    decreases |todo|
  {
    if todo == {} {
      run' := run;
    } else {
      var i :| i in todo;
      run' := Arrive(w, run, i);
      run' := AllArrive(w, k, run', todo - {i});
    }
  }

  /** Of N calls all but one can await. */
  lemma AwaitBoundAttained(w: World, k: Key) returns (run: seq<Label>)
    ensures Valid(Sys(w), run)
    ensures Count(Sys(w), run, |run|, IsAwait(k)) ==
            if Front.CallsFor(w, k) == {} then 0 else |Front.CallsFor(w, k)| - 1
  {
    assert Followers(w, k, End(w, [])) == {};
    if i :| i in Front.CallsFor(w, k) {
      run := Arrive(w, [], i);
      run := AllArrive(w, k, run, Front.CallsFor(w, k) - {i});
    } else {
      run := [];
    }
    AwaitsCounted(w, run, k);
  }
}
