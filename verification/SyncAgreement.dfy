/** When does a sync waiter get the outcome of the leader it waited for? The design promises
    it always (DESIGN.md, lines 332-334); the code delivers it in every run exactly when at
    most two calls are made for the key. */
module SyncAgreement {
  import opened Basics
  import opened SyncMachine
  import opened SyncHandOff
  import opened SyncRuns
  import opened SyncSteps
  import opened Runs
  import Front
  import Revalidation

  /** The event of a woken waiter is that of another caller of its key, which published. */
  ghost predicate CollectInv(s: State)
    requires Shape(s)
  {
    && (forall ev | 0 <= ev < |s.flight.isSet| && s.flight.isSet[ev] :: Published(s, s.hist.owner[ev]))
    && (forall i | 0 <= i < |s.pcs| && s.pcs[i].Collecting? :: Woken(s, i))
  }

  ghost predicate Woken(s: State, i: nat)
    requires Shape(s) && i < |s.pcs| && s.pcs[i].Collecting?
  {
    && IsSet(s, s.pcs[i].ev)
    && var leader := s.hist.owner[s.pcs[i].ev];
       leader < |s.pcs| && leader != i && KeyOf(s, leader) == KeyOf(s, i)
  }

  lemma CollectInvStep(c: Revalidation.Config, s: State, l: Label)
    requires SyncRuns.Inv(c, s) && CollectInv(s) && Enabled(s, l) && Shape(Next(c, s, l))
    ensures CollectInv(Next(c, s, l))
  {
    var s' := Next(c, s, l);
    ShapeStep(c, s, l);
    FlightStep(c, s, l);
    EventSet(c, s, l);
    forall i | 0 <= i < |s'.pcs| && s'.pcs[i].Collecting? ensures Woken(s', i) {
      if l == Wake(i) {
        assert Attended(s, i);
      } else {
        assert s.pcs[i] == s'.pcs[i];
        assert Woken(s, i);
      }
    }
  }

  /** An event is set only by its own leader, as it publishes. */
  lemma EventSet(c: Revalidation.Config, s: State, l: Label)
    requires SyncRuns.Inv(c, s) && CollectInv(s) && Enabled(s, l) && Shape(Next(c, s, l))
    ensures var s' := Next(c, s, l);
            forall ev | 0 <= ev < |s'.flight.isSet| && s'.flight.isSet[ev] :: Published(s', s'.hist.owner[ev])
  {
    var s' := Next(c, s, l);
    SetsOwn(c, s, l);
    forall ev | 0 <= ev < |s'.flight.isSet| && s'.flight.isSet[ev]
      ensures Published(s', s'.hist.owner[ev])
    {
      if ev < |s.flight.isSet| && s.flight.isSet[ev] {
        StaysPublished(c, s, l, s.hist.owner[ev]);
      } else {
        PublishedNow(c, s, l.i);
      }
    }
  }

  lemma SetsOwn(c: Revalidation.Config, s: State, l: Label)
    requires Shape(s) && LeadInv(s) && Enabled(s, l)
    ensures var s' := Next(c, s, l);
            && Shape(s')
            && (forall ev | 0 <= ev < |s.flight.isSet| :: s'.hist.owner[ev] == s.hist.owner[ev])
            && (forall ev | 0 <= ev < |s'.flight.isSet| && s'.flight.isSet[ev] ::
                  || (ev < |s.flight.isSet| && s.flight.isSet[ev])
                  || (l.Publish? && s'.hist.owner[ev] == l.i))
  {
    ShapeStep(c, s, l);
    if !l.Join? && !l.Publish? {
      LeadsStay(c, s, l);
    }
  }

  lemma StaysPublished(c: Revalidation.Config, s: State, l: Label, t: nat)
    requires Shape(s) && Enabled(s, l) && Shape(Next(c, s, l)) && Published(s, t)
    ensures Published(Next(c, s, l), t)
  {
    ShapeStep(c, s, l);
  }

  lemma PublishedNow(c: Revalidation.Config, s: State, i: nat)
    requires Shape(s) && MadeInv(s) && Enabled(s, Publish(i)) && Shape(Next(c, s, Publish(i)))
    ensures Published(Next(c, s, Publish(i)), i)
  {
    assert MadeOk(s, i);
  }

  ghost predicate Told(w: World, s: State) {
    Good(w, s) && CollectInv(s)
  }

  ghost function IsTold(w: World): State -> bool {
    s => Told(w, s)
  }

  lemma ToldAt(w: World, run: seq<Label>, n: nat)
    requires Valid(Sys(w), run) && n <= |run|
    ensures Told(w, At(Sys(w), run, n))
  {
    GoodInductive(w);
    forall s, l | Told(w, s) && Enabled(s, l) ensures Told(w, Next(w.config, s, l)) {
      GoodStep(w, s, l);
      CollectInvStep(w.config, s, l);
    }
    Invariant(Sys(w), IsTold(w), run, n);
  }

  /** Caller `i`, woken by its leader's event, ends in this step with its leader's outcome. */
  ghost predicate Delivers(c: Revalidation.Config, s: State, i: nat)
    requires Enabled(s, Collect(i))
  {
    var s' := Next(c, s, Collect(i));
    && s.pcs[i].ev < |s.hist.owner|
    && var leader := s.hist.owner[s.pcs[i].ev];
       && leader < |s.hist.made| && s.hist.made[leader].Some?
       && s'.front.callers[i].pc.Done?
       && Front.Agrees(s'.front.callers[i].pc.fin, s.hist.made[leader].value)
  }

  /** In every run, every waiter for `k` gets what its leader published. */
  ghost predicate AlwaysDelivers(w: World, k: Key) {
    forall run: seq<Label>, n: nat, i: nat
      {:trigger At(Sys(w), run, n), Collect(i)} ::
      Valid(Sys(w), run) && n < |run| && run[n] == Collect(i) && i in Front.CallsFor(w, k)
      ==> Enabled(At(Sys(w), run, n), Collect(i)) && Delivers(w.config, At(Sys(w), run, n), i)
  }

  // At most two calls

  /** Call `x` is why what its leader published does not reach a waiter: it collected that
      itself, or overwrote it, or left an exception that is taken before it. */
  ghost predicate ToBlame(s: State, leader: nat, x: nat)
    requires Shape(s) && leader < |s.pcs|
  {
    || (x < |s.pcs| && s.hist.source[x] == Some(leader))
    || (leader in s.hist.lost && s.hist.lost[leader] == x)
    || (&& (KeyOf(s, leader), true) in s.hist.from && s.hist.from[(KeyOf(s, leader), true)] == x
        && x < |s.pcs| && s.hist.made[x].Some? && s.hist.made[x].value.Raises?
        && InSlot(s, leader, false))
  }

  /** If the leader's outcome is not the one the waiter takes, a third call for the key has
      ended, and is to blame. */
  lemma ThirdCaller(w: World, s: State, i: nat) returns (x: nat)
    requires Told(w, s) && Enabled(s, Collect(i)) && !Delivers(w.config, s, i)
    ensures Woken(s, i)
    ensures x < |s.pcs| && x != i && x != s.hist.owner[s.pcs[i].ev] && KeyOf(s, x) == KeyOf(s, i)
    ensures Ended(s, x) && ToBlame(s, s.hist.owner[s.pcs[i].ev], x)
  {
    var k := KeyOf(s, i);
    assert Woken(s, i) && MadeOk(s, i);
    var leader := s.hist.owner[s.pcs[i].ev];
    assert Accounted(s, leader);
    assert SlotOk(s, k, true) && SlotOk(s, k, false);
    if leader in s.hist.taken {
      assert Collected(s, leader, s.hist.taken[leader]);
      x := s.hist.taken[leader];
    } else if leader in s.hist.lost {
      assert Overwritten(s, leader, s.hist.lost[leader]);
      x := s.hist.lost[leader];
    } else {
      assert InSlot(s, leader, false) && k in s.flight.errors;
      x := s.hist.from[(k, true)];
    }
  }

  lemma TwoCallsAgree(w: World, s: State, i: nat)
    requires Told(w, s) && Enabled(s, Collect(i)) && |Front.CallsFor(w, KeyOf(s, i))| <= 2
    ensures Delivers(w.config, s, i)
  {
    if !Delivers(w.config, s, i) {
      var x := ThirdCaller(w, s, i);
      AtLeastThree(Front.CallsFor(w, KeyOf(s, i)), i, x, s.hist.owner[s.pcs[i].ev]);
      assert false;
    }
  }

  // Three calls

  /** Calls `a`, `b` and `c` arrive: `a` leads and the others wait for it. */
  lemma ThreeArrive(w: World, k: Key, a: nat, b: nat, c: nat) returns (run: seq<Label>)
    requires a in Front.CallsFor(w, k) && b in Front.CallsFor(w, k) && c in Front.CallsFor(w, k)
    requires a != b && a != c && b != c
    ensures Valid(Sys(w), run)
    ensures var s := End(w, run);
            && a < |s.pcs| && b < |s.pcs| && c < |s.pcs|
            && s.pcs[a] == Running(0) && s.pcs[b] == Waiting(0) && s.pcs[c] == Waiting(0)
            && c < |s.front.callers| && s.front.callers[c].pc == Front.Blocked(false)
            && s.flight.isSet == [false] && s.flight.results == map[] && s.flight.errors == map[]
  {
    run := [];
    run := Arrive(w, run, a);
    run := Arrive(w, run, b);
    run := Arrive(w, run, c);
  }

  /** `a` raises and publishes; both waiters wake. */
  lemma TwoWake(w: World, k: Key, a: nat, b: nat, c: nat, e: Exc) returns (run: seq<Label>)
    requires a in Front.CallsFor(w, k) && b in Front.CallsFor(w, k) && c in Front.CallsFor(w, k)
    requires a != b && a != c && b != c
    ensures Valid(Sys(w), run)
    ensures var s := End(w, run);
            && b < |s.pcs| && c < |s.pcs| && s.pcs[b] == Collecting(0) && s.pcs[c] == Collecting(0)
            && s.flight.results == map[] && s.flight.errors == map[k := e] && k !in s.flight.inflight
            && c < |s.front.callers| && s.front.callers[c].pc == Front.Blocked(false)
  {
    run := ThreeArrive(w, k, a, b, c);
    GoodAt(w, run, |run|);
    run := Then(w, run, RunFactory(a, Raises(e)));
    GoodAt(w, run, |run|);
    run := Then(w, run, Publish(a));
    GoodAt(w, run, |run|);
    run := Then(w, run, Wake(b));
    GoodAt(w, run, |run|);
    run := Then(w, run, Wake(c));
  }

  /** With three calls for a key the design's promise fails: the leader raises, one waiter
      takes the exception, and the other finds nothing and starts over. */
  lemma ThreeCallsDisagree(w: World, k: Key, a: nat, b: nat, c: nat, e: Exc) returns (run: seq<Label>, n: nat)
    requires a in Front.CallsFor(w, k) && b in Front.CallsFor(w, k) && c in Front.CallsFor(w, k)
    requires a != b && a != c && b != c
    ensures Valid(Sys(w), run) && n < |run| && run[n] == Collect(c)
    ensures Enabled(At(Sys(w), run, n), Collect(c)) && !Delivers(w.config, At(Sys(w), run, n), c)
    ensures var s := End(w, run);
            && c < |s.front.callers| && s.front.callers[c].pc == Front.Looking(Front.Block, Some(false))
            && w.calls[a].key !in s.flight.inflight
  {
    run := TwoWake(w, k, a, b, c, e);
    GoodAt(w, run, |run|);
    run := Then(w, run, Collect(b));
    GoodAt(w, run, |run|);
    n := |run|;
    ghost var before := run;
    run := Then(w, run, Collect(c));
    Prefix(Sys(w), before, run, n);
  }

  /** Nothing clears an exception nobody collected: call `a` raises `e` and ends (step `n`)
      before `c` begins; then `b` leads with `c` waiting for it (step `m`), `b` returns `v`,
      and `c` raises `e`. */
  lemma OldErrorRaised(w: World, k: Key, a: nat, b: nat, c: nat, e: Exc, v: Value)
    returns (run: seq<Label>, n: nat, m: nat)
    requires a in Front.CallsFor(w, k) && b in Front.CallsFor(w, k) && c in Front.CallsFor(w, k)
    requires a != b && a != c && b != c
    ensures Valid(Sys(w), run) && n <= m <= |run|
    ensures var s := At(Sys(w), run, n);
            && a < |s.front.callers| && s.front.callers[a].pc == Front.Done(Front.Threw(e))
            && c < |s.front.callers| && s.front.callers[c] == Front.Start(w.calls, w.clock).callers[c]
    ensures LedBy(At(Sys(w), run, m), b, c)
    ensures EndsWith(End(w, run), b, Returns(v)) && EndsWith(End(w, run), c, Raises(e))
  {
    var failed := Fails(w, [], a, k, e);
    n := |failed|;
    var waiting := LeadAndWait(w, failed, k, b, c);
    m := |waiting|;
    run := ReturnsButRaises(w, waiting, k, b, c, e, v);
    Prefix(Sys(w), failed, run, n);
    Prefix(Sys(w), waiting, run, m);
  }

  /** Caller `b` runs its factory as a leader, and `c` waits for its event. */
  ghost predicate LedBy(s: State, b: nat, c: nat) {
    b < |s.pcs| && c < |s.pcs| && s.pcs[b].Running? && s.pcs[c] == Waiting(s.pcs[b].ev)
  }

  ghost predicate EndsWith(s: State, i: nat, out: Outcome) {
    && i < |s.front.callers| && s.front.callers[i].pc.Done?
    && Front.Agrees(s.front.callers[i].pc.fin, out)
  }

  lemma LeadAndWait(w: World, run: seq<Label>, k: Key, b: nat, c: nat) returns (run': seq<Label>)
    requires Valid(Sys(w), run) && b in Front.CallsFor(w, k) && c in Front.CallsFor(w, k) && b != c
    requires var s := End(w, run);
             && k !in s.flight.inflight
             && b < |s.front.callers| && s.front.callers[b].pc.Looking?
             && c < |s.front.callers| && s.front.callers[c].pc.Looking?
    ensures Valid(Sys(w), run') && run <= run' && LedBy(End(w, run'), b, c)
    ensures End(w, run').flight.errors == End(w, run).flight.errors
  {
    run' := Arrive(w, run, b);
    run' := Arrive(w, run', c);
  }

  lemma ReturnsButRaises(w: World, run: seq<Label>, k: Key, b: nat, c: nat, e: Exc, v: Value)
    returns (run': seq<Label>)
    requires Valid(Sys(w), run) && b in Front.CallsFor(w, k) && c in Front.CallsFor(w, k) && b != c
    requires LedBy(End(w, run), b, c)
    requires k in End(w, run).flight.errors && End(w, run).flight.errors[k] == e
    ensures Valid(Sys(w), run') && run <= run'
    ensures EndsWith(End(w, run'), b, Returns(v)) && EndsWith(End(w, run'), c, Raises(e))
  {
    run' := LeaderReturns(w, run, b, c, v);
    run' := WakeAndRaise(w, run', k, b, c, e, v);
  }

  lemma LeaderReturns(w: World, run: seq<Label>, b: nat, c: nat, v: Value) returns (run': seq<Label>)
    requires Valid(Sys(w), run) && b < |w.calls| && c < |w.calls| && b != c
    requires LedBy(End(w, run), b, c)
    ensures Valid(Sys(w), run') && run <= run'
    ensures var s := End(w, run');
            && EndsWith(s, b, Returns(v)) && s.flight.errors == End(w, run).flight.errors
            && c < |s.pcs| && s.pcs[c].Waiting? && IsSet(s, s.pcs[c].ev)
  {
    run' := LeaderMakes(w, run, b, c, v);
    GoodAt(w, run', |run'|);
    run' := Then(w, run', Publish(b));
  }

  lemma LeaderMakes(w: World, run: seq<Label>, b: nat, c: nat, v: Value) returns (run': seq<Label>)
    requires Valid(Sys(w), run) && b < |w.calls| && c < |w.calls| && b != c
    requires LedBy(End(w, run), b, c)
    ensures Valid(Sys(w), run') && run <= run'
    ensures var s, s' := End(w, run), End(w, run');
            && b < |s'.pcs| && c < |s'.pcs|
            && s'.pcs[b] == Publishing(s.pcs[b].ev, Returns(v)) && s'.pcs[c] == Waiting(s.pcs[b].ev)
            && s'.flight == s.flight
  {
    GoodAt(w, run, |run|);
    run' := Then(w, run, RunFactory(b, Returns(v)));
    GoodAt(w, run', |run'|);
    run' := Then(w, run', Write(b, true));
  }

  lemma WakeAndRaise(w: World, run: seq<Label>, k: Key, b: nat, c: nat, e: Exc, v: Value)
    returns (run': seq<Label>)
    requires Valid(Sys(w), run) && c in Front.CallsFor(w, k) && b != c
    requires var s := End(w, run);
             && EndsWith(s, b, Returns(v)) && k in s.flight.errors && s.flight.errors[k] == e
             && c < |s.pcs| && s.pcs[c].Waiting? && IsSet(s, s.pcs[c].ev)
    ensures Valid(Sys(w), run') && run <= run'
    ensures EndsWith(End(w, run'), b, Returns(v)) && EndsWith(End(w, run'), c, Raises(e))
  {
    GoodAt(w, run, |run|);
    run' := Then(w, run, Wake(c));
    GoodAt(w, run', |run'|);
    run' := Then(w, run', Collect(c));
  }

  /** The condition under which the promise holds, in every run: at most two calls. */
  lemma DeliversExactly(w: World, k: Key, e: Exc)
    ensures AlwaysDelivers(w, k) <==> |Front.CallsFor(w, k)| <= 2
  {
    if |Front.CallsFor(w, k)| <= 2 {
      forall run: seq<Label>, n: nat, i: nat
        | Valid(Sys(w), run) && n < |run| && run[n] == Collect(i) && i in Front.CallsFor(w, k)
        ensures Enabled(At(Sys(w), run, n), Collect(i)) && Delivers(w.config, At(Sys(w), run, n), i)
      {
        ToldAt(w, run, n);
        assert Sys(w).enabled(At(Sys(w), run, n), run[n]);
        TwoCallsAgree(w, At(Sys(w), run, n), i);
      }
    } else {
      var a, b, c := ThreeOf(Front.CallsFor(w, k));
      var run, n := ThreeCallsDisagree(w, k, a, b, c, e);
      assert run[n] == Collect(c);
    }
  }

  lemma AtLeastThree(s: set<nat>, a: nat, b: nat, c: nat)
    requires {a, b, c} <= s && a != b && a != c && b != c
    ensures |s| >= 3
  {
    SubsetSize({a, b, c}, s);
  }

  lemma ThreeOf(s: set<nat>) returns (a: nat, b: nat, c: nat)
    requires |s| >= 3
    ensures {a, b, c} <= s && a != b && a != c && b != c
  {
    a :| a in s;
    var rest := s - {a};
    assert |rest| == |s| - 1;
    b :| b in rest;
    var more := rest - {b};
    assert |more| == |s| - 2;
    c :| c in more;
  }
}
