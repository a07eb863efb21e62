/** How old can a value be that a waiter returns? CONSISTENCY.md (line 49) has the hard TTL bound
    how long a value is served; a result nobody collected has no TTL and may be handed to a
    waiter that began long after. This says exactly when. */
module SyncFreshness {
  import opened Basics
  import opened SyncFlight
  import opened SyncMachine
  import opened SyncHandOff
  import opened SyncRuns
  import opened SyncCost
  import opened SyncSteps
  import opened SyncAgreement
  import opened Runs
  import Front
  import Revalidation

  /** Call `i` has taken no step yet. */
  ghost predicate NotBegun(w: World, s: State, i: nat) {
    i < |w.calls| == |s.front.callers| && s.front.callers[i] == Start(w.calls, w.clock).front.callers[i]
  }

  /** Call `t` publishes in step `p`, before `i` begins; in step `n` the waiter `i` takes what `t`
      published and returns it. */
  ghost predicate ReturnsOld(w: World, run: seq<Label>, p: nat, n: nat, i: nat, t: nat) {
    && p < n < |run| && run[p] == Publish(t) && NotBegun(w, At(Sys(w), run, p + 1), i)
    && run[n] == Collect(i)
    && var s' := At(Sys(w), run, n + 1);
       && i < |s'.hist.source| && s'.hist.source[i] == Some(t)
       && i < |s'.front.callers| && s'.front.callers[i].pc.Done? && s'.front.callers[i].pc.fin.Gave?
  }

  /** In no run does a waiter for `k` return a value published before its own call began. */
  ghost predicate AlwaysFresh(w: World, k: Key) {
    forall run: seq<Label>, p: nat, n: nat, i: nat, t: nat ::
      Valid(Sys(w), run) && i in Front.CallsFor(w, k) ==> !ReturnsOld(w, run, p, n, i, t)
  }

  // At most three calls

  /** The result of `t` is not what a waiter of leader `o` would take now: it is not stored, or
      an exception would be taken first, or somebody else has collected already. */
  ghost predicate Covered(s: State, i: nat, t: nat, o: nat)
    requires Shape(s) && i < |s.pcs|
  {
    var k := KeyOf(s, i);
    || (k, false) !in s.hist.from || s.hist.from[(k, false)] != t
    || (k, true) in s.hist.from
    || exists x: nat :: Fourth(s, i, t, o, x)
  }

  /** Call `x` for the key, none of the other three, has collected something. */
  ghost predicate Fourth(s: State, i: nat, t: nat, o: nat, x: nat)
    requires Shape(s) && i < |s.pcs|
  {
    x < |s.pcs| && x != i && x != t && x != o && KeyOf(s, x) == KeyOf(s, i) && s.hist.source[x].Some?
  }

  /** `t` published before `i` began: `i` waits for somebody else, and is covered once woken. */
  ghost predicate After(w: World, s: State, i: nat, t: nat) {
    && Told(w, s) && i < |s.pcs| && Published(s, t) && i != t
    && (s.pcs[i].Waiting? || s.pcs[i].Collecting? ==>
          && s.pcs[i].ev < |s.hist.owner| && s.hist.owner[s.pcs[i].ev] != t
          && (IsSet(s, s.pcs[i].ev) ==> Covered(s, i, t, s.hist.owner[s.pcs[i].ev])))
  }

  lemma AfterStep(w: World, s: State, l: Label, i: nat, t: nat)
    requires After(w, s, i, t) && Enabled(s, l)
    ensures After(w, Next(w.config, s, l), i, t)
  {
    GoodStep(w, s, l);
    CollectInvStep(w.config, s, l);
    StaysPublished(w.config, s, l, t);
    var s' := Next(w.config, s, l);
    if l != Collect(i) && (s'.pcs[i].Waiting? || s'.pcs[i].Collecting?) {
      EventKept(w, s, l, i, t);
      if IsSet(s', s'.pcs[i].ev) {
        CoverStep(w, s, l, i, t);
      }
    }
  }

  /** A waiter keeps its event; a new one is led by a call that has not published. */
  lemma EventKept(w: World, s: State, l: Label, i: nat, t: nat)
    requires After(w, s, i, t) && Enabled(s, l) && l != Collect(i)
    requires var s' := Next(w.config, s, l); i < |s'.pcs| && (s'.pcs[i].Waiting? || s'.pcs[i].Collecting?)
    ensures var s' := Next(w.config, s, l);
            var ev := s'.pcs[i].ev;
            && ev < |s.hist.owner| && ev < |s'.hist.owner|
            && s'.hist.owner[ev] == s.hist.owner[ev] && s.hist.owner[ev] != t
            && (if s.pcs[i].Waiting? || s.pcs[i].Collecting? then s.pcs[i].ev == ev else !IsSet(s', ev))
  {
    FlightStep(w.config, s, l);
    EventFrom(w.config, s, l, i);
    if l == Join(i) {
      assert Registered(s, KeyOf(s, i));
    }
  }

  lemma EventFrom(c: Revalidation.Config, s: State, l: Label, i: nat)
    requires Shape(s) && Enabled(s, l) && i < |s.pcs| && l != Collect(i)
    requires var s' := Next(c, s, l); i < |s'.pcs| && (s'.pcs[i].Waiting? || s'.pcs[i].Collecting?)
    ensures var s' := Next(c, s, l);
            || ((s.pcs[i].Waiting? || s.pcs[i].Collecting?) && s'.pcs[i].ev == s.pcs[i].ev)
            || (l == Join(i) && KeyOf(s, i) in s.flight.inflight
                && s'.pcs[i].ev == s.flight.inflight[KeyOf(s, i)] && s'.flight == s.flight)
  {
  }

  lemma CoverStep(w: World, s: State, l: Label, i: nat, t: nat)
    requires After(w, s, i, t) && Enabled(s, l) && l != Collect(i)
    requires s.pcs[i].Waiting? || s.pcs[i].Collecting?
    requires Shape(Next(w.config, s, l)) && i < |Next(w.config, s, l).pcs|
    requires s.pcs[i].ev < |s.hist.owner| && IsSet(Next(w.config, s, l), s.pcs[i].ev)
    ensures Covered(Next(w.config, s, l), i, t, s.hist.owner[s.pcs[i].ev])
  {
    ShapeStep(w.config, s, l);
    match l
    case Publish(j) => CoverPublish(w, s, j, i, t);
    case Collect(j) => CoverCollect(w, s, j, i, t);
    case _ =>
      OtherSteps(w.config, s, l);
      SetBefore(w, s, l, i);
      CoverSame(s, Next(w.config, s, l), i, t, s.hist.owner[s.pcs[i].ev]);
  }

  lemma SetBefore(w: World, s: State, l: Label, i: nat)
    requires Good(w, s) && Enabled(s, l) && !l.Publish? && i < |s.pcs| && (s.pcs[i].Waiting? || s.pcs[i].Collecting?)
    requires s.pcs[i].ev < |s.flight.isSet|
    ensures IsSet(Next(w.config, s, l), s.pcs[i].ev) ==> IsSet(s, s.pcs[i].ev)
  {
    SetsStep(w.config, s, l);
  }

  lemma CoverSame(s: State, s': State, i: nat, t: nat, o: nat)
    requires Shape(s) && Shape(s') && i < |s.pcs| && Untouched(s, s') && Covered(s, i, t, o)
    ensures Covered(s', i, t, o)
  {
    if x: nat :| Fourth(s, i, t, o, x) {
      assert Fourth(s', i, t, o, x);
    }
  }

  lemma CoverPublish(w: World, s: State, j: nat, i: nat, t: nat)
    requires After(w, s, i, t) && Enabled(s, Publish(j)) && (s.pcs[i].Waiting? || s.pcs[i].Collecting?)
    requires Shape(Next(w.config, s, Publish(j))) && s.pcs[i].ev < |s.hist.owner|
    requires IsSet(Next(w.config, s, Publish(j)), s.pcs[i].ev)
    ensures i < |Next(w.config, s, Publish(j)).pcs|
    ensures Covered(Next(w.config, s, Publish(j)), i, t, s.hist.owner[s.pcs[i].ev])
  {
    PublishEffect(w.config, s, j);
    SetsStep(w.config, s, Publish(j));
    if s.pcs[i].Waiting? {
      assert Attended(s, i);
    } else {
      assert Woken(s, i);
    }
    CoverStored(s, Next(w.config, s, Publish(j)), j, s.pcs[j].out, i, t, s.hist.owner[s.pcs[i].ev],
                IsSet(s, s.pcs[i].ev));
  }

  /** Call `j`, not `t`, has stored its outcome; it is the waiter's leader if it has just woken it. */
  lemma CoverStored(s: State, s': State, j: nat, out: Outcome, i: nat, t: nat, o: nat, wasSet: bool)
    requires Shape(s) && Shape(s') && j < |s.pcs| && i < |s.pcs| && Stored(s, s', j, out) && j != t
    requires wasSet ==> Covered(s, i, t, o)
    requires !wasSet ==> KeyOf(s, j) == KeyOf(s, i)
    ensures Covered(s', i, t, o)
  {
    if wasSet {
      if x: nat :| Fourth(s, i, t, o, x) {
        assert Fourth(s', i, t, o, x);
      }
    }
  }

  lemma CoverCollect(w: World, s: State, j: nat, i: nat, t: nat)
    requires After(w, s, i, t) && Enabled(s, Collect(j)) && j != i && (s.pcs[i].Waiting? || s.pcs[i].Collecting?)
    requires Shape(Next(w.config, s, Collect(j))) && s.pcs[i].ev < |s.hist.owner|
    requires IsSet(Next(w.config, s, Collect(j)), s.pcs[i].ev)
    ensures i < |Next(w.config, s, Collect(j)).pcs|
    ensures Covered(Next(w.config, s, Collect(j)), i, t, s.hist.owner[s.pcs[i].ev])
  {
    SetBefore(w, s, Collect(j), i);
    var k, o := KeyOf(s, j), s.hist.owner[s.pcs[i].ev];
    assert Published(s, o);
    assert SlotOk(s, k, k in s.flight.errors);
    if Slot(s.flight, k, k in s.flight.errors).Some? {
      CollectEffect(w.config, s, j);
      CoverTook(s, Next(w.config, s, Collect(j)), j, k in s.flight.errors, i, t, o);
    } else {
      CollectsNothing(w.config, s, j);
      CoverSame(s, Next(w.config, s, Collect(j)), i, t, o);
    }
  }

  lemma CollectsNothing(c: Revalidation.Config, s: State, j: nat)
    requires Shape(s) && Enabled(s, Collect(j)) && Shape(Next(c, s, Collect(j)))
    requires Slot(s.flight, KeyOf(s, j), KeyOf(s, j) in s.flight.errors) == None
    ensures Untouched(s, Next(c, s, Collect(j)))
  {
  }

  lemma CoverTook(s: State, s': State, j: nat, error: bool, i: nat, t: nat, o: nat)
    requires Shape(s) && Shape(s') && j < |s.pcs| && i < |s.pcs| && SyncHandOff.Took(s, s', j, error)
    requires j != i && j != t && j != o && Covered(s, i, t, o)
    ensures Covered(s', i, t, o)
  {
    if x: nat :| Fourth(s, i, t, o, x) {
      assert Fourth(s', i, t, o, x);
    } else if KeyOf(s, j) == KeyOf(s, i) {
      assert Fourth(s', i, t, o, j);
    }
  }

  lemma AfterStart(w: World, run: seq<Label>, p: nat, i: nat, t: nat)
    requires Valid(Sys(w), run) && p < |run| && run[p] == Publish(t) && NotBegun(w, At(Sys(w), run, p + 1), i)
    ensures After(w, At(Sys(w), run, p + 1), i, t)
  {
    ToldAt(w, run, p);
    ToldAt(w, run, p + 1);
    assert Sys(w).enabled(At(Sys(w), run, p), run[p]);
    JustPublished(w, At(Sys(w), run, p), i, t);
  }

  lemma JustPublished(w: World, s: State, i: nat, t: nat)
    requires Told(w, s) && Enabled(s, Publish(t)) && Told(w, Next(w.config, s, Publish(t)))
    requires NotBegun(w, Next(w.config, s, Publish(t)), i)
    ensures After(w, Next(w.config, s, Publish(t)), i, t)
  {
    PublishedNow(w.config, s, t);
  }

  lemma AfterAt(w: World, run: seq<Label>, p: nat, n: nat, i: nat, t: nat)
    requires Valid(Sys(w), run) && p < n <= |run| && run[p] == Publish(t) && NotBegun(w, At(Sys(w), run, p + 1), i)
    ensures After(w, At(Sys(w), run, n), i, t)
  {
    AfterStart(w, run, p, i, t);
    AfterOnwards(w, run, p + 1, n, i, t);
  }

  lemma AfterOnwards(w: World, run: seq<Label>, m: nat, n: nat, i: nat, t: nat)
    requires Valid(Sys(w), run) && m <= n <= |run| && After(w, At(Sys(w), run, m), i, t)
    ensures After(w, At(Sys(w), run, n), i, t)
  {
    AfterSurvives(w, i, t);
    Persists(Sys(w), IsGood(w), IsAfter(w, i, t), Never(), run, m, n);
  }

  ghost function IsAfter(w: World, i: nat, t: nat): State -> bool {
    s => After(w, s, i, t)
  }

  function Never(): (State, Label) -> bool {
    (s: State, l: Label) => false
  }

  lemma AfterSurvives(w: World, i: nat, t: nat)
    ensures Inductive(Sys(w), IsGood(w)) && Survives(Sys(w), IsGood(w), IsAfter(w, i, t), Never())
  {
    GoodInductive(w);
    forall s, l | After(w, s, i, t) && Enabled(s, l) ensures After(w, Next(w.config, s, l), i, t) {
      AfterStep(w, s, l, i, t);
    }
  }

  /** If a waiter takes an old result, a fourth call has taken what its leader published. */
  lemma FourthCaller(w: World, s: State, i: nat, t: nat) returns (x: nat)
    requires After(w, s, i, t) && Enabled(s, Collect(i))
    requires var s' := Next(w.config, s, Collect(i));
             && i < |s'.hist.source| && s'.hist.source[i] == Some(t)
             && i < |s'.front.callers| && s'.front.callers[i].pc.Done? && s'.front.callers[i].pc.fin.Gave?
    ensures Woken(s, i) && KeyOf(s, t) == KeyOf(s, i) && s.hist.owner[s.pcs[i].ev] != t
    ensures Fourth(s, i, t, s.hist.owner[s.pcs[i].ev], x)
  {
    var k := KeyOf(s, i);
    assert Woken(s, i) && MadeOk(s, i);
    assert SlotOk(s, k, true) && SlotOk(s, k, false);
    TakesResult(w, s, i, t);
    x :| Fourth(s, i, t, s.hist.owner[s.pcs[i].ev], x);
  }

  /** What returns a value came from the results, with no exception stored. */
  lemma TakesResult(w: World, s: State, i: nat, t: nat)
    requires Told(w, s) && Enabled(s, Collect(i)) && i < |s.pcs|
    requires var s' := Next(w.config, s, Collect(i));
             && i < |s'.hist.source| && s'.hist.source[i] == Some(t)
             && i < |s'.front.callers| && s'.front.callers[i].pc.Done? && s'.front.callers[i].pc.fin.Gave?
    ensures var k := KeyOf(s, i);
            k !in s.flight.errors && (k, false) in s.hist.from && s.hist.from[(k, false)] == t
  {
    var k := KeyOf(s, i);
    assert MadeOk(s, i);
    assert SlotOk(s, k, true) && SlotOk(s, k, false);
    assert s.hist.source[i].Some? ==> Collected(s, s.hist.source[i].value, i);
  }

  lemma OldNeedsFour(w: World, run: seq<Label>, p: nat, n: nat, i: nat, t: nat, k: Key)
    requires Valid(Sys(w), run) && i in Front.CallsFor(w, k) && ReturnsOld(w, run, p, n, i, t)
    ensures |Front.CallsFor(w, k)| >= 4
  {
    AfterAt(w, run, p, n, i, t);
    assert Sys(w).enabled(At(Sys(w), run, n), run[n]);
    FourCallers(w, At(Sys(w), run, n), i, t, k);
  }

  lemma FourCallers(w: World, s: State, i: nat, t: nat, k: Key)
    requires After(w, s, i, t) && Enabled(s, Collect(i)) && i in Front.CallsFor(w, k)
    requires var s' := Next(w.config, s, Collect(i));
             && i < |s'.hist.source| && s'.hist.source[i] == Some(t)
             && i < |s'.front.callers| && s'.front.callers[i].pc.Done? && s'.front.callers[i].pc.fin.Gave?
    ensures |Front.CallsFor(w, k)| >= 4
  {
    var x := FourthCaller(w, s, i, t);
    FourInCalls(w, s, i, t, s.hist.owner[s.pcs[i].ev], x, k);
  }

  lemma FourInCalls(w: World, s: State, i: nat, t: nat, o: nat, x: nat, k: Key)
    requires Good(w, s) && i in Front.CallsFor(w, k)
    requires t < |s.pcs| && KeyOf(s, t) == k && o < |s.pcs| && KeyOf(s, o) == k
    requires i != t && o != t && o != i && Fourth(s, i, t, o, x)
    ensures |Front.CallsFor(w, k)| >= 4
  {
    AtLeastFour(Front.CallsFor(w, k), i, t, o, x);
  }

  lemma AtLeastFour(s: set<nat>, a: nat, b: nat, c: nat, d: nat)
    requires {a, b, c, d} <= s && a != b && a != c && a != d && b != c && b != d && c != d
    ensures |s| >= 4
  {
    SubsetSize({a, b, c, d}, s);
  }

  // Four calls

  /** Call `a` leads, returns `v` and ends; its result stays stored. */
  lemma Succeeds(w: World, k: Key, a: nat, v: Value) returns (run: seq<Label>)
    requires a in Front.CallsFor(w, k)
    ensures Valid(Sys(w), run) && run != [] && run[|run| - 1] == Publish(a)
    ensures var s := End(w, run);
            && OnlyMoved(Start(w.calls, w.clock), s, {a})
            && s.flight.results == map[k := v] && s.flight.errors == map[] && s.flight.inflight == map[]
            && s.hist.from == map[(k, false) := a]
  {
    run := Arrive(w, [], a);
    GoodAt(w, run, |run|);
    run := Then(w, run, RunFactory(a, Returns(v)));
    GoodAt(w, run, |run|);
    run := Then(w, run, Write(a, true));
    run := PublishesResult(w, k, run, a, v);
  }

  lemma PublishesResult(w: World, k: Key, run: seq<Label>, a: nat, v: Value) returns (run': seq<Label>)
    requires Valid(Sys(w), run) && a in Front.CallsFor(w, k) && a < |End(w, run).pcs|
    requires End(w, run).pcs[a].Publishing? && End(w, run).pcs[a].out == Returns(v)
    requires var s := End(w, run);
             && OnlyMoved(Start(w.calls, w.clock), s, {a}) && s.hist.from == map[]
             && s.flight.results == map[] && s.flight.errors == map[] && s.flight.inflight.Keys == {k}
    ensures Valid(Sys(w), run') && run' != [] && run'[|run'| - 1] == Publish(a)
    ensures var s := End(w, run');
            && OnlyMoved(Start(w.calls, w.clock), s, {a})
            && s.flight.results == map[k := v] && s.flight.errors == map[] && s.flight.inflight == map[]
            && s.hist.from == map[(k, false) := a]
  {
    GoodAt(w, run, |run|);
    run' := Then(w, run, Publish(a));
  }

  /** The result of `a` is stored, `b` leads, and `c` and `d` wait for it. */
  ghost predicate TwoWait(s: State, k: Key, a: nat, b: nat, c: nat, d: nat, v: Value) {
    && b < |s.pcs| && c < |s.pcs| && d < |s.pcs|
    && s.pcs[b].Running? && s.pcs[c] == Waiting(s.pcs[b].ev) && s.pcs[d] == Waiting(s.pcs[b].ev)
    && k in s.flight.results && s.flight.results[k] == v
    && (k, false) in s.hist.from && s.hist.from[(k, false)] == a
  }

  lemma ThreeMore(w: World, k: Key, run: seq<Label>, a: nat, b: nat, c: nat, d: nat, v: Value)
    returns (run': seq<Label>)
    requires Valid(Sys(w), run) && {b, c, d} <= Front.CallsFor(w, k) && b != c && b != d && c != d
    requires var s := End(w, run);
             && IsLooking(s, b) && IsLooking(s, c) && IsLooking(s, d) && k !in s.flight.inflight
             && s.flight.results == map[k := v] && s.hist.from == map[(k, false) := a]
    ensures Valid(Sys(w), run') && run <= run' && TwoWait(End(w, run'), k, a, b, c, d, v)
  {
    run' := Arrive(w, run, b);
    run' := Arrive(w, run', c);
    run' := Arrive(w, run', d);
  }

  /** `b` raises; `c` takes the exception; `d` takes the old result. */
  lemma TakesOld(w: World, k: Key, run: seq<Label>, a: nat, b: nat, c: nat, d: nat, e: Exc, v: Value)
    returns (run': seq<Label>)
    requires Valid(Sys(w), run) && {b, c, d} <= Front.CallsFor(w, k) && b != c && b != d && c != d
    requires TwoWait(End(w, run), k, a, b, c, d, v)
    ensures Valid(Sys(w), run') && run < run' && |run'| >= 1 && run'[|run'| - 1] == Collect(d)
    ensures var s := End(w, run');
            && d < |s.hist.source| && s.hist.source[d] == Some(a)
            && EndsWith(s, d, Returns(v))
  {
    run' := LeaderFails(w, run, b, k, e);
    run' := WakesAndTakes(w, k, run', c);
    run' := WakesAndReturns(w, k, run', a, d, v);
  }

  lemma WakesAndTakes(w: World, k: Key, run: seq<Label>, c: nat) returns (run': seq<Label>)
    requires Valid(Sys(w), run) && c in Front.CallsFor(w, k) && c < |End(w, run).pcs| && End(w, run).pcs[c].Waiting?
    requires IsSet(End(w, run), End(w, run).pcs[c].ev) && k in End(w, run).flight.errors
    ensures Valid(Sys(w), run') && run <= run'
    ensures var s, s' := End(w, run), End(w, run');
            && OnlyMoved(s, s', {c}) && s'.flight == s.flight.(errors := s.flight.errors - {k})
            && s'.hist.from == s.hist.from - {(k, true)}
  {
    GoodAt(w, run, |run|);
    run' := Then(w, run, Wake(c));
    GoodAt(w, run', |run'|);
    run' := Then(w, run', Collect(c));
  }

  lemma WakesAndReturns(w: World, k: Key, run: seq<Label>, a: nat, d: nat, v: Value) returns (run': seq<Label>)
    requires Valid(Sys(w), run) && d in Front.CallsFor(w, k) && d < |End(w, run).pcs| && End(w, run).pcs[d].Waiting?
    requires var s := End(w, run);
             && IsSet(s, s.pcs[d].ev) && k !in s.flight.errors
             && k in s.flight.results && s.flight.results[k] == v
             && (k, false) in s.hist.from && s.hist.from[(k, false)] == a
    ensures Valid(Sys(w), run') && run < run' && |run'| >= 1 && run'[|run'| - 1] == Collect(d)
    ensures var s := End(w, run');
            && d < |s.hist.source| && s.hist.source[d] == Some(a)
            && EndsWith(s, d, Returns(v))
  {
    GoodAt(w, run, |run|);
    run' := Then(w, run, Wake(d));
    GoodAt(w, run', |run'|);
    run' := Then(w, run', Collect(d));
  }

  /** For any four calls of a key: `a` returns `v` and ends with nobody waiting; `b` leads and
      raises while `c` and `d`, which began later, wait; `c` takes the exception and `d` returns
      `v`, however long ago it was made. */
  lemma OldValueReturned(w: World, k: Key, a: nat, b: nat, c: nat, d: nat, e: Exc, v: Value)
    returns (run: seq<Label>, p: nat, n: nat)
    requires {a, b, c, d} <= Front.CallsFor(w, k)
    requires a != b && a != c && a != d && b != c && b != d && c != d
    ensures Valid(Sys(w), run) && ReturnsOld(w, run, p, n, d, a) && EndsWith(End(w, run), d, Returns(v))
  {
    var stored := Stores(w, k, a, b, c, d, v);
    p := |stored| - 1;
    var waiting := ThreeMore(w, k, stored, a, b, c, d, v);
    run := TakesOld(w, k, waiting, a, b, c, d, e, v);
    n := |run| - 1;
    Prefix(Sys(w), stored, run, p + 1);
  }

  lemma Stores(w: World, k: Key, a: nat, b: nat, c: nat, d: nat, v: Value) returns (run: seq<Label>)
    requires {a, b, c, d} <= Front.CallsFor(w, k) && a != b && a != c && a != d
    ensures Valid(Sys(w), run) && run != [] && run[|run| - 1] == Publish(a)
    ensures var s := End(w, run);
            && IsLooking(s, b) && IsLooking(s, c) && IsLooking(s, d) && NotBegun(w, s, d)
            && s.flight.results == map[k := v] && s.flight.inflight == map[] && s.hist.from == map[(k, false) := a]
  {
    run := Succeeds(w, k, a, v);
    SizesAt(w, run, |run|);
  }

  /** The condition under which no waiter returns a value published before its call began, in
      every run: at most three calls. */
  lemma FreshExactly(w: World, k: Key, e: Exc, v: Value)
    ensures AlwaysFresh(w, k) <==> |Front.CallsFor(w, k)| <= 3
  {
    if |Front.CallsFor(w, k)| <= 3 {
      forall run: seq<Label>, p: nat, n: nat, i: nat, t: nat | Valid(Sys(w), run) && i in Front.CallsFor(w, k)
        ensures !ReturnsOld(w, run, p, n, i, t)
      {
        if ReturnsOld(w, run, p, n, i, t) {
          OldNeedsFour(w, run, p, n, i, t, k);
        }
      }
    } else {
      var a, b, c, d := FourOf(Front.CallsFor(w, k));
      var run, p, n := OldValueReturned(w, k, a, b, c, d, e, v);
    }
  }

  lemma FourOf(s: set<nat>) returns (a: nat, b: nat, c: nat, d: nat)
    requires |s| >= 4
    ensures {a, b, c, d} <= s && a != b && a != c && a != d && b != c && b != d && c != d
  {
    a :| a in s;
    assert |s - {a}| == |s| - 1;
    b, c, d := ThreeOf(s - {a});
  }
}
