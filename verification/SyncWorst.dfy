/** The cost bounds of the sync class are attained, for any calls of a key: by a run in which
    every call leads in turn, and by one in which as many as possible wait again. */
module SyncWorst {
  import opened Basics
  import opened SyncMachine
  import opened SyncRuns
  import opened SyncCost
  import opened SyncSteps
  import opened Runs
  import Front

  // Every call leads in turn

  /** The calls in `todo` have not begun to lead; the others for `k` have run their factory. */
  ghost predicate SomeMade(w: World, s: State, k: Key, todo: set<nat>) {
    && k !in s.flight.inflight && |s.hist.made| == |w.calls|
    && (forall i | i in todo :: IsLooking(s, i))
    && (forall i | i in Front.CallsFor(w, k) && i !in todo :: s.hist.made[i].Some?)
  }

  lemma {:induction false} EachInTurn(w: World, k: Key, run: seq<Label>, todo: set<nat>, e: Exc)
    returns (run': seq<Label>)
    requires Valid(Sys(w), run) && todo <= Front.CallsFor(w, k) && SomeMade(w, End(w, run), k, todo)
    ensures Valid(Sys(w), run') && SomeMade(w, End(w, run'), k, {})
    decreases |todo|
  {
    if todo == {} {
      run' := run;
    } else {
      var i :| i in todo;
      run' := Fails(w, run, i, k, e);
      run' := EachInTurn(w, k, run', todo - {i}, e);
    }
  }

  /** N calls can run the factory N times, one after another: every lookup misses, every
      factory call raises. */
  lemma FactoryBoundAttained(w: World, k: Key, e: Exc) returns (run: seq<Label>)
    ensures Valid(Sys(w), run) && Count(Sys(w), run, |run|, IsFactoryCall(k)) == |Front.CallsFor(w, k)|
  {
    run := EachInTurn(w, k, [], Front.CallsFor(w, k), e);
    FactoryCallsCounted(w, run, k);
    assert Makers(w, k, End(w, run)) == Front.CallsFor(w, k);
  }

  /** In every run the blocking factory for `k` is called at most once. */
  ghost predicate AtMostOnce(w: World, k: Key) {
    forall run: seq<Label> :: Valid(Sys(w), run) ==> Count(Sys(w), run, |run|, IsFactoryCall(k)) <= 1
  }

  /** The condition under which the factory runs at most once: at most one call. */
  lemma OnceExactly(w: World, k: Key, e: Exc)
    ensures AtMostOnce(w, k) <==> |Front.CallsFor(w, k)| <= 1
  {
    if |Front.CallsFor(w, k)| <= 1 {
      forall run: seq<Label> | Valid(Sys(w), run)
        ensures Count(Sys(w), run, |run|, IsFactoryCall(k)) <= 1
      {
        CostPerKey(w, run, k);
      }
    } else {
      var run := FactoryBoundAttained(w, k, e);
    }
  }

  // As many waits as possible

  /** The calls in `todo` look the key up; nothing is in flight or stored for it. */
  ghost predicate Ready(s: State, k: Key, todo: set<nat>) {
    && k !in s.flight.inflight && !Holds(s, k)
    && (forall i | i in todo :: IsLooking(s, i))
  }

  /** The calls in `todo` wait for `ev`, or have been woken by it. */
  ghost predicate AllWait(s: State, todo: set<nat>, ev: nat) {
    forall i | i in todo :: i < |s.pcs| && s.pcs[i] == Waiting(ev)
  }

  ghost predicate AllWoken(s: State, todo: set<nat>) {
    forall i | i in todo :: i < |s.pcs| && s.pcs[i].Collecting?
  }

  ghost predicate AllLook(s: State, todo: set<nat>) {
    forall i | i in todo :: IsLooking(s, i)
  }

  lemma {:induction false} AllArrive(w: World, k: Key, run: seq<Label>, todo: set<nat>, ev: nat)
    returns (run': seq<Label>)
    requires Valid(Sys(w), run) && todo <= Front.CallsFor(w, k) && AllLook(End(w, run), todo)
    requires k in End(w, run).flight.inflight && End(w, run).flight.inflight[k] == ev
    ensures Valid(Sys(w), run') && AllWait(End(w, run'), todo, ev)
    ensures OnlyMoved(End(w, run), End(w, run'), todo) && End(w, run').flight == End(w, run).flight
    ensures |WaitedFor(w, k, End(w, run'))| == |WaitedFor(w, k, End(w, run))| + |todo|
    decreases |todo|
  {
    if todo == {} {
      run' := run;
    } else {
      var i :| i in todo;
      var one := Arrive(w, run, i);
      run' := AllArrive(w, k, one, todo - {i}, ev);
      assert End(w, run').pcs[i] == End(w, one).pcs[i];
    }
  }

  lemma WakeOne(w: World, run: seq<Label>, i: nat) returns (run': seq<Label>)
    requires Valid(Sys(w), run) && i < |End(w, run).pcs| && End(w, run).pcs[i].Waiting?
    requires IsSet(End(w, run), End(w, run).pcs[i].ev)
    ensures Valid(Sys(w), run')
    ensures var s, s' := End(w, run), End(w, run');
            && OnlyMoved(s, s', {i}) && s'.flight == s.flight && s'.hist == s.hist
            && i < |s'.pcs| && s'.pcs[i].Collecting?
  {
    GoodAt(w, run, |run|);
    run' := Then(w, run, Wake(i));
  }

  lemma {:induction false} AllWake(w: World, run: seq<Label>, todo: set<nat>, ev: nat) returns (run': seq<Label>)
    requires Valid(Sys(w), run) && AllWait(End(w, run), todo, ev) && IsSet(End(w, run), ev)
    ensures Valid(Sys(w), run') && AllWoken(End(w, run'), todo)
    ensures OnlyMoved(End(w, run), End(w, run'), todo)
    ensures End(w, run').flight == End(w, run).flight && End(w, run').hist == End(w, run).hist
    decreases |todo|
  {
    if todo == {} {
      run' := run;
    } else {
      var i :| i in todo;
      var one := WakeOne(w, run, i);
      run' := AllWake(w, one, todo - {i}, ev);
      assert End(w, run').pcs[i] == End(w, one).pcs[i];
    }
  }

  lemma ReturnOne(w: World, k: Key, run: seq<Label>, i: nat) returns (run': seq<Label>)
    requires Valid(Sys(w), run) && i in Front.CallsFor(w, k) && i < |End(w, run).pcs| && End(w, run).pcs[i].Collecting?
    requires !Holds(End(w, run), k)
    ensures Valid(Sys(w), run')
    ensures var s, s' := End(w, run), End(w, run');
            OnlyMoved(s, s', {i}) && s'.flight == s.flight && s'.hist == s.hist && IsLooking(s', i)
  {
    GoodAt(w, run, |run|);
    run' := Then(w, run, Collect(i));
  }

  lemma {:induction false} AllReturn(w: World, k: Key, run: seq<Label>, todo: set<nat>) returns (run': seq<Label>)
    requires Valid(Sys(w), run) && todo <= Front.CallsFor(w, k) && AllWoken(End(w, run), todo)
    requires !Holds(End(w, run), k)
    ensures Valid(Sys(w), run') && AllLook(End(w, run'), todo)
    ensures OnlyMoved(End(w, run), End(w, run'), todo)
    ensures End(w, run').flight == End(w, run).flight && End(w, run').hist == End(w, run).hist
    decreases |todo|
  {
    if todo == {} {
      run' := run;
    } else {
      var i :| i in todo;
      var one := ReturnOne(w, k, run, i);
      run' := AllReturn(w, k, one, todo - {i});
      assert End(w, run').front.callers[i] == End(w, one).front.callers[i];
    }
  }

  lemma TakeError(w: World, k: Key, run: seq<Label>, i: nat) returns (run': seq<Label>)
    requires Valid(Sys(w), run) && i in Front.CallsFor(w, k) && i < |End(w, run).pcs| && End(w, run).pcs[i].Collecting?
    requires k in End(w, run).flight.errors && k !in End(w, run).flight.results
    ensures Valid(Sys(w), run')
    ensures var s, s' := End(w, run), End(w, run');
            OnlyMoved(s, s', {i}) && !Holds(s', k) && s'.flight.inflight == s.flight.inflight
            && s'.hist.waited == s.hist.waited
  {
    GoodAt(w, run, |run|);
    run' := Then(w, run, Collect(i));
  }

  /** One round: `a` leads while the rest wait, it fails, `b` takes the exception, and the
      others find nothing and start over. */
  lemma Round(w: World, k: Key, run: seq<Label>, todo: set<nat>, a: nat, b: nat, e: Exc) returns (run': seq<Label>)
    requires Valid(Sys(w), run) && todo <= Front.CallsFor(w, k) && Ready(End(w, run), k, todo)
    requires a in todo && b in todo && a != b
    ensures Valid(Sys(w), run') && Ready(End(w, run'), k, todo - {a, b})
    ensures |WaitedFor(w, k, End(w, run'))| == |WaitedFor(w, k, End(w, run))| + |todo| - 1
  {
    var ev := |End(w, run).flight.isSet|;
    var led := Arrive(w, run, a);
    var waiting := AllArrive(w, k, led, todo - {a}, ev);
    assert End(w, waiting).pcs[a] == Running(ev);
    var failed := LeaderFails(w, waiting, a, k, e);
    assert AllWait(End(w, failed), todo - {a}, ev);
    run' := Scatter(w, k, failed, todo - {a}, b, ev);
  }

  lemma Scatter(w: World, k: Key, run: seq<Label>, todo: set<nat>, b: nat, ev: nat) returns (run': seq<Label>)
    requires Valid(Sys(w), run) && todo <= Front.CallsFor(w, k) && b in todo
    requires AllWait(End(w, run), todo, ev) && IsSet(End(w, run), ev)
    requires k in End(w, run).flight.errors && k !in End(w, run).flight.results
    requires k !in End(w, run).flight.inflight
    ensures Valid(Sys(w), run') && Ready(End(w, run'), k, todo - {b})
    ensures |WaitedFor(w, k, End(w, run'))| == |WaitedFor(w, k, End(w, run))|
  {
    var woken := AllWake(w, run, todo, ev);
    var taken := TakeError(w, k, woken, b);
    assert AllWoken(End(w, taken), todo - {b});
    run' := AllReturn(w, k, taken, todo - {b});
  }

  lemma {:induction false} Rounds(w: World, k: Key, run: seq<Label>, todo: set<nat>, e: Exc) returns (run': seq<Label>)
    requires Valid(Sys(w), run) && todo <= Front.CallsFor(w, k) && Ready(End(w, run), k, todo)
    ensures Valid(Sys(w), run')
    ensures |WaitedFor(w, k, End(w, run'))| == |WaitedFor(w, k, End(w, run))| + |todo| * |todo| / 4
    decreases |todo|
  {
    TwoFewer(|todo|);
    if |todo| <= 1 {
      run' := run;
    } else {
      var a, b := TwoOf(todo);
      run' := Round(w, k, run, todo, a, b, e);
      run' := Rounds(w, k, run', todo - {a, b}, e);
    }
  }

  lemma TwoOf(todo: set<nat>) returns (a: nat, b: nat)
    requires |todo| >= 2
    ensures a in todo && b in todo && a != b && |todo - {a, b}| == |todo| - 2
  {
    a :| a in todo;
    var others := todo - {a};
    assert |others| == |todo| - 1;
    b :| b in others;
    assert todo - {a, b} == others - {b};
  }

  lemma TwoFewer(n: nat)
    ensures n * n / 4 == if n <= 1 then 0 else n - 1 + (n - 2) * (n - 2) / 4
  {
    assert n * n == (n - 2) * (n - 2) + 4 * (n - 1);
  }

  /** N calls can wait N N / 4 times: each round one call leads and one collects. */
  lemma WaitBoundAttained(w: World, k: Key, e: Exc) returns (run: seq<Label>)
    ensures Valid(Sys(w), run)
    ensures Count(Sys(w), run, |run|, IsWait(k)) == |Front.CallsFor(w, k)| * |Front.CallsFor(w, k)| / 4
  {
    assert WaitedFor(w, k, End(w, [])) == {};
    run := Rounds(w, k, [], Front.CallsFor(w, k), e);
    WaitsCounted(w, run, k);
  }
}
