/** Does a call that should serve a stale entry ever regenerate it itself? DESIGN.md (lines
    286-287) and CONSISTENCY.md (lines 19-20) promise not; a waiter that starts over is treated
    as a BLOCK call, so it may, and this says exactly when. */
module SyncServe {
  import opened Basics
  import opened Memory
  import opened Policy
  import opened SyncMachine
  import opened SyncRuns
  import opened SyncSteps
  import opened SyncPolicy
  import opened SyncAgreement
  import opened Runs
  import Front
  import Revalidation

  /** At step `m` call `i` judges the entry its lookup found stale, and at step `n` it runs the
      factory as a leader. */
  ghost predicate Regenerates(w: World, run: seq<Label>, m: nat, n: nat, i: nat) {
    && m < n < |run| && run[m].FrontStep? && run[m].l.Judge? && run[m].l.i == i
    && i < |At(Sys(w), run, m).front.callers|
    && At(Sys(w), run, m).front.callers[i].pc.Judging?
    && At(Sys(w), run, m).front.callers[i].pc.env.IsStale(run[m].l.now)
    && run[n].RunFactory? && run[n].i == i
  }

  /** In no run does a call for `k` with this policy regenerate what it found stale. */
  ghost predicate NeverRegenerates(w: World, k: Key, policy: Front.StalePolicy) {
    forall run: seq<Label>, m: nat, n: nat, i: nat ::
      Valid(Sys(w), run) && i in Front.CallsFor(w, k) && w.calls[i].policy == policy
      ==> !Regenerates(w, run, m, n, i)
  }

  // At most two calls: nobody starts over

  ghost predicate FirstPass(w: World, s: State, k: Key) {
    forall i | i in Front.CallsFor(w, k) && i < |s.front.callers| :: OnFirstPass(s.front.callers[i].pc)
  }

  predicate OnFirstPass(pc: Front.Pc) {
    (pc.Looking? ==> pc.outer == None) && (pc.Judging? ==> pc.outer == None)
  }

  lemma FirstPassStep(w: World, s: State, l: Label, k: Key)
    requires Told(w, s) && FirstPass(w, s, k) && Enabled(s, l) && |Front.CallsFor(w, k)| <= 2
    ensures FirstPass(w, Next(w.config, s, l), k)
  {
    if l.Collect? && l.i in Front.CallsFor(w, k) {
      TwoCallsAgree(w, s, l.i);
    }
    ShapeStep(w.config, s, l);
    forall i | i in Front.CallsFor(w, k) && i < |s.front.callers| && !(l == Collect(i))
      ensures OnFirstPass(Next(w.config, s, l).front.callers[i].pc)
    {
      PassStays(w.config, s, l, i);
    }
  }

  /** Only a woken waiter that finds nothing starts over. */
  lemma PassStays(c: Revalidation.Config, s: State, l: Label, i: nat)
    requires Enabled(s, l) && i < |s.front.callers| && OnFirstPass(s.front.callers[i].pc) && l != Collect(i)
    ensures i < |Next(c, s, l).front.callers| && OnFirstPass(Next(c, s, l).front.callers[i].pc)
  {
  }

  lemma FirstPassAt(w: World, run: seq<Label>, n: nat, k: Key)
    requires Valid(Sys(w), run) && n <= |run| && |Front.CallsFor(w, k)| <= 2
    ensures FirstPass(w, At(Sys(w), run, n), k)
  {
    GoodInductive(w);
    ToldAt(w, [], 0);
    var inv := (s: State) => Told(w, s) && FirstPass(w, s, k);
    forall s, l | inv(s) && Enabled(s, l) ensures inv(Next(w.config, s, l)) {
      GoodStep(w, s, l);
      CollectInvStep(w.config, s, l);
      FirstPassStep(w, s, l, k);
    }
    Invariant(Sys(w), inv, run, n);
  }

  /** The call will end without blocking. */
  predicate Settled(pc: Front.Pc) {
    pc.Clocking? || pc.Reserving? || pc.Submitting? || pc.Returning? || pc.Done?
  }

  lemma SettledStays(c: Revalidation.Config, s: State, l: Label, i: nat)
    requires Enabled(s, l) && i < |s.front.callers| && Settled(s.front.callers[i].pc)
    ensures i < |Next(c, s, l).front.callers| && Settled(Next(c, s, l).front.callers[i].pc)
  {
  }

  lemma {:induction false} StaysSettled(w: World, run: seq<Label>, m: nat, n: nat, i: nat)
    requires Valid(Sys(w), run) && m <= n <= |run|
    requires i < |At(Sys(w), run, m).front.callers| && Settled(At(Sys(w), run, m).front.callers[i].pc)
    ensures i < |At(Sys(w), run, n).front.callers| && Settled(At(Sys(w), run, n).front.callers[i].pc)
    decreases n
  {
    if m < n {
      StaysSettled(w, run, m, n - 1, i);
      assert Sys(w).enabled(At(Sys(w), run, n - 1), run[n - 1]);
      SettledStays(w.config, At(Sys(w), run, n - 1), run[n - 1], i);
    }
  }

  /** On its first pass a call that does not block settles when it finds a stale entry. */
  lemma JudgeSettles(w: World, run: seq<Label>, m: nat, n: nat, i: nat, k: Key)
    requires Valid(Sys(w), run) && Regenerates(w, run, m, n, i) && i in Front.CallsFor(w, k)
    requires |Front.CallsFor(w, k)| <= 2 && !w.calls[i].policy.Block?
    ensures i < |At(Sys(w), run, m + 1).front.callers| && Settled(At(Sys(w), run, m + 1).front.callers[i].pc)
  {
    FollowsAt(w, run, m);
    FirstPassAt(w, run, m, k);
    var caller := At(Sys(w), run, m).front.callers[i];
    assert PolicyOk(caller) && OnFirstPass(caller.pc);
  }

  lemma TwoNeverRegenerate(w: World, run: seq<Label>, m: nat, n: nat, i: nat, k: Key)
    requires Valid(Sys(w), run) && i in Front.CallsFor(w, k)
    requires |Front.CallsFor(w, k)| <= 2 && !w.calls[i].policy.Block?
    ensures !Regenerates(w, run, m, n, i)
  {
    if Regenerates(w, run, m, n, i) {
      JudgeSettles(w, run, m, n, i, k);
      StaysSettled(w, run, m + 1, n, i);
      SettledNeverRuns(w, run, n, i);
    }
  }

  lemma SettledNeverRuns(w: World, run: seq<Label>, n: nat, i: nat)
    requires Valid(Sys(w), run) && n < |run| && run[n].RunFactory? && run[n].i == i
    requires i < |At(Sys(w), run, n).front.callers|
    ensures !Settled(At(Sys(w), run, n).front.callers[i].pc)
  {
    FollowsAt(w, run, n);
  }

  // Three calls

  /** For any call and two others of its key: it waits, finds nothing, starts over, finds a
      stale entry, and runs the factory, whatever its policy. */
  lemma ThirdRegenerates(w: World, k: Key, a: nat, b: nat, i: nat, e: Exc, v: Value)
    returns (run: seq<Label>, m: nat, n: nat)
    requires a in Front.CallsFor(w, k) && b in Front.CallsFor(w, k) && i in Front.CallsFor(w, k)
    requires a != b && a != i && b != i
    ensures Valid(Sys(w), run) && Regenerates(w, run, m, n, i)
  {
    var over, _ := ThreeCallsDisagree(w, k, a, b, i, e);
    m := |over| + 1;
    var judging := FindsAgain(w, over, i, v);
    run, n := JudgesAndRuns(w, k, judging, i, e);
    Prefix(Sys(w), judging, run, m);
  }

  lemma FindsAgain(w: World, run: seq<Label>, i: nat, v: Value) returns (run': seq<Label>)
    requires Valid(Sys(w), run) && i < |End(w, run).front.callers|
    requires End(w, run).front.callers[i].pc == Front.Looking(Front.Block, Some(false))
    ensures Valid(Sys(w), run') && |run'| == |run| + 1
    ensures var s := End(w, run');
            && s.flight == End(w, run).flight && i < |s.front.callers|
            && s.front.callers[i].pc == Front.Judging(Front.Block, Some(false), Envelope(v, 0.0, 0.0))
  {
    GoodAt(w, run, |run|);
    run' := Then(w, run, FrontStep(Front.LookUp(i, Front.Found(Envelope(v, 0.0, 0.0)))));
  }

  lemma JudgesAndRuns(w: World, k: Key, run: seq<Label>, i: nat, e: Exc) returns (run': seq<Label>, n: nat)
    requires Valid(Sys(w), run) && i in Front.CallsFor(w, k) && k !in End(w, run).flight.inflight
    requires i < |End(w, run).front.callers|
    requires var pc := End(w, run).front.callers[i].pc; pc.Judging? && pc.policy.Block? && pc.env.IsStale(0.0)
    ensures Valid(Sys(w), run') && |run| < n < |run'| && run < run'
    ensures run'[|run|] == FrontStep(Front.Judge(i, 0.0)) && run'[n] == RunFactory(i, Raises(e))
  {
    var blocked := JudgesStale(w, k, run, i);
    run', n := JoinsAndRuns(w, k, blocked, i, e);
  }

  lemma JudgesStale(w: World, k: Key, run: seq<Label>, i: nat) returns (run': seq<Label>)
    requires Valid(Sys(w), run) && i in Front.CallsFor(w, k) && k !in End(w, run).flight.inflight
    requires i < |End(w, run).front.callers|
    requires var pc := End(w, run).front.callers[i].pc; pc.Judging? && pc.policy.Block? && pc.env.IsStale(0.0)
    ensures Valid(Sys(w), run') && |run'| == |run| + 1 && run < run' && run'[|run|] == FrontStep(Front.Judge(i, 0.0))
    ensures var s := End(w, run');
            k !in s.flight.inflight && i < |s.pcs| == |s.front.callers| && s.pcs[i].Joining?
  {
    GoodAt(w, run, |run|);
    run' := Then(w, run, FrontStep(Front.Judge(i, 0.0)));
    GoodAt(w, run', |run'|);
  }

  lemma JoinsAndRuns(w: World, k: Key, run: seq<Label>, i: nat, e: Exc) returns (run': seq<Label>, n: nat)
    requires Valid(Sys(w), run) && i in Front.CallsFor(w, k) && k !in End(w, run).flight.inflight
    requires i < |End(w, run).pcs| == |End(w, run).front.callers| && End(w, run).pcs[i].Joining?
    ensures Valid(Sys(w), run') && |run| < n < |run'| && run < run' && run'[n] == RunFactory(i, Raises(e))
  {
    GoodAt(w, run, |run|);
    run' := Then(w, run, Join(i));
    GoodAt(w, run', |run'|);
    n := |run'|;
    run' := Then(w, run', RunFactory(i, Raises(e)));
  }

  /** The condition under which calls with a policy other than BLOCK never regenerate what they
      found stale, in every run: at most two calls, or none with that policy. */
  lemma NeverRegeneratesExactly(w: World, k: Key, policy: Front.StalePolicy, e: Exc, v: Value)
    requires !policy.Block?
    ensures NeverRegenerates(w, k, policy) <==>
              |Front.CallsFor(w, k)| <= 2 || forall c | c in Front.CallsFor(w, k) :: w.calls[c].policy != policy
  {
    if |Front.CallsFor(w, k)| <= 2 {
      forall run: seq<Label>, m: nat, n: nat, i: nat
        | Valid(Sys(w), run) && i in Front.CallsFor(w, k) && w.calls[i].policy == policy
        ensures !Regenerates(w, run, m, n, i)
      {
        TwoNeverRegenerate(w, run, m, n, i, k);
      }
    } else if c :| c in Front.CallsFor(w, k) && w.calls[c].policy == policy {
      var a, b := TwoOthers(Front.CallsFor(w, k), c);
      var run, m, n := ThirdRegenerates(w, k, a, b, c, e, v);
    }
  }

  lemma TwoOthers(s: set<nat>, c: nat) returns (a: nat, b: nat)
    requires |s| >= 3 && c in s
    ensures a in s && b in s && a != b && a != c && b != c
  {
    var x, y, z := ThreeOf(s);
    if c == x {
      a, b := y, z;
    } else if c == y {
      a, b := x, z;
    } else {
      a, b := x, y;
    }
  }
}
