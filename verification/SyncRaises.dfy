/** When a call of the sync class raises. CONSISTENCY.md (lines 22 and 24) has `@cached` fall
    through to the function when the backend or the codec fails; the code lets the exception
    out, and this says exactly which calls end with which exception. */
module SyncRaises {
  import opened Basics
  import opened SyncFlight
  import opened SyncMachine
  import opened SyncHandOff
  import opened SyncRuns
  import opened SyncSteps
  import opened Runs
  import Front
  import FrontRuns
  import Policy
  import Revalidation

  /** Among the first `n` steps, a lookup of call `i` raised `e`. */
  ghost predicate Broke(run: seq<Label>, n: nat, i: nat, e: Exc)
    requires n <= |run|
  {
    exists m :: 0 <= m < n && run[m] == FrontStep(Front.LookUp(i, Front.Broken(e)))
  }

  /** Among the first `n` steps, call `i` ran its factory as a leader and the factory raised `e`. */
  ghost predicate Raised(run: seq<Label>, n: nat, i: nat, e: Exc)
    requires n <= |run|
  {
    exists m :: 0 <= m < n && run[m] == RunFactory(i, Raises(e))
  }

  /** Step `c` of the first `n` is call `i` collecting the outcome of call `t`, another call for
      its key, whose factory had raised `e`. */
  ghost predicate TookIt(w: World, run: seq<Label>, n: nat, i: nat, e: Exc, c: nat, t: nat)
    requires n <= |run|
  {
    && c < n && run[c] == Collect(i) && i < |At(Sys(w), run, c + 1).hist.source|
    && At(Sys(w), run, c + 1).hist.source[i] == Some(t)
    && i < |w.calls| && t < |w.calls| && t != i && w.calls[t].key == w.calls[i].key
    && Raised(run, c, t, e)
  }

  ghost predicate TookRaised(w: World, run: seq<Label>, n: nat, i: nat, e: Exc)
    requires n <= |run|
  {
    exists c: nat, t: nat :: TookIt(w, run, n, i, e, c, t)
  }

  ghost predicate Threw(w: World, run: seq<Label>, n: nat, i: nat, e: Exc)
    requires n <= |run|
  {
    var callers := At(Sys(w), run, n).front.callers;
    i < |callers| && callers[i].pc == Front.Done(Front.Threw(e))
  }

  // What ends stays ended

  lemma EndStays(c: Revalidation.Config, s: State, l: Label, i: nat)
    requires Enabled(s, l) && i < |s.front.callers| && s.front.callers[i].pc.Done?
    ensures i < |Next(c, s, l).front.callers| && Next(c, s, l).front.callers[i] == s.front.callers[i]
  {
    FrontMoves(c, s, l);
    Policy.EndStays(c, s.front, FrontStepOf(l), Next(c, s, l).front, i);
  }

  lemma {:induction false} ThrewStays(w: World, run: seq<Label>, m: nat, n: nat, i: nat, e: Exc)
    requires Valid(Sys(w), run) && m <= n <= |run| && Threw(w, run, m, i, e)
    ensures Threw(w, run, n, i, e)
    decreases n
  {
    if m < n {
      ThrewStays(w, run, m, n - 1, i, e);
      assert Sys(w).enabled(At(Sys(w), run, n - 1), run[n - 1]);
      EndStays(w.config, At(Sys(w), run, n - 1), run[n - 1], i);
    }
  }

  function HasMade(i: nat, out: Outcome): State -> bool {
    (s: State) => i < |s.hist.made| && s.hist.made[i] == Some(out)
  }

  lemma MadeSurvives(w: World, i: nat, out: Outcome)
    ensures Inductive(Sys(w), IsGood(w))
    ensures Survives(Sys(w), IsGood(w), HasMade(i, out), FrontRuns.Never())
  {
    GoodInductive(w);
    forall s, l | Good(w, s) && HasMade(i, out)(s) && Enabled(s, l) ensures HasMade(i, out)(Next(w.config, s, l)) {
      MadeGrows(w.config, s, l);
    }
  }

  lemma MadeLasts(w: World, run: seq<Label>, a: nat, b: nat, i: nat, out: Outcome)
    requires Valid(Sys(w), run) && a <= b <= |run| && HasMade(i, out)(At(Sys(w), run, a))
    ensures HasMade(i, out)(At(Sys(w), run, b))
  {
    MadeSurvives(w, i, out);
    Persists(Sys(w), IsGood(w), HasMade(i, out), FrontRuns.Never(), run, a, b);
  }

  lemma JustMade(w: World, run: seq<Label>, m: nat, i: nat, out: Outcome)
    requires Valid(Sys(w), run) && m < |run| && run[m] == RunFactory(i, out)
    ensures HasMade(i, out)(At(Sys(w), run, m + 1))
  {
    MadeOneStep(w, run, m, i);
    OnlyOnce(w, run, m);
  }

  /** A caller's own factory step is remembered ever after. */
  lemma MadeAfter(w: World, run: seq<Label>, m: nat, n: nat, i: nat, out: Outcome)
    requires Valid(Sys(w), run) && m < n <= |run| && run[m] == RunFactory(i, out)
    ensures HasMade(i, out)(At(Sys(w), run, n))
  {
    JustMade(w, run, m, i, out);
    MadeLasts(w, run, m + 1, n, i, out);
  }

  lemma OnlyOnce(w: World, run: seq<Label>, n: nat)
    requires Valid(Sys(w), run) && n < |run|
    ensures run[n].RunFactory? ==>
              run[n].i < |At(Sys(w), run, n).hist.made| && At(Sys(w), run, n).hist.made[run[n].i] == None
  {
    GoodAt(w, run, n);
    assert Sys(w).enabled(At(Sys(w), run, n), run[n]);
    MadeGrows(w.config, At(Sys(w), run, n), run[n]);
  }

  // Each cause ends the call with its exception

  lemma BrokeThrows(w: World, run: seq<Label>, n: nat, i: nat, e: Exc)
    requires Valid(Sys(w), run) && n <= |run| && Broke(run, n, i, e)
    ensures Threw(w, run, n, i, e)
  {
    var m :| 0 <= m < n && run[m] == FrontStep(Front.LookUp(i, Front.Broken(e)));
    LookupThrows(w, run, m, i, e);
    ThrewStays(w, run, m + 1, n, i, e);
  }

  lemma LookupThrows(w: World, run: seq<Label>, n: nat, i: nat, e: Exc)
    requires Valid(Sys(w), run) && n < |run| && run[n] == FrontStep(Front.LookUp(i, Front.Broken(e)))
    ensures Threw(w, run, n + 1, i, e)
  {
    assert Sys(w).enabled(At(Sys(w), run, n), run[n]);
  }

  /** A call that ran its own factory ends with exactly what that returned or raised. */
  lemma LeaderEnds(w: World, run: seq<Label>, m: nat, n: nat, i: nat, out: Outcome)
    requires Valid(Sys(w), run) && m < n <= |run| && run[m] == RunFactory(i, out)
    requires i < |At(Sys(w), run, n).front.callers| && At(Sys(w), run, n).front.callers[i].pc.Done?
    ensures Front.Agrees(At(Sys(w), run, n).front.callers[i].pc.fin, out)
  {
    MadeAfter(w, run, m, n, i, out);
    GoodAt(w, run, n);
    assert Published(At(Sys(w), run, n), i) && Accounted(At(Sys(w), run, n), i);
  }

  lemma RaisedThrows(w: World, run: seq<Label>, n: nat, i: nat, e: Exc)
    requires Valid(Sys(w), run) && n <= |run| && Raised(run, n, i, e)
    requires i < |At(Sys(w), run, n).front.callers| && At(Sys(w), run, n).front.callers[i].pc.Done?
    ensures Threw(w, run, n, i, e)
  {
    var m :| 0 <= m < n && run[m] == RunFactory(i, Raises(e));
    LeaderEnds(w, run, m, n, i, Raises(e));
  }

  lemma TookThrows(w: World, run: seq<Label>, n: nat, i: nat, e: Exc)
    requires Valid(Sys(w), run) && n <= |run| && TookRaised(w, run, n, i, e)
    ensures Threw(w, run, n, i, e)
  {
    var c: nat, t: nat :| TookIt(w, run, n, i, e, c, t);
    CollectThrows(w, run, c, i, e, t);
    ThrewStays(w, run, c + 1, n, i, e);
  }

  lemma CollectThrows(w: World, run: seq<Label>, c: nat, i: nat, e: Exc, t: nat)
    requires Valid(Sys(w), run) && c < |run| && TookIt(w, run, c + 1, i, e, c, t)
    ensures Threw(w, run, c + 1, i, e)
  {
    SourceThrows(w, run, c, c + 1, i, t, e);
  }

  lemma RaisedMade(w: World, run: seq<Label>, b: nat, n: nat, t: nat, e: Exc)
    requires Valid(Sys(w), run) && b <= n <= |run| && Raised(run, b, t, e)
    ensures HasMade(t, Raises(e))(At(Sys(w), run, n))
  {
    var m :| 0 <= m < b && run[m] == RunFactory(t, Raises(e));
    MadeAfter(w, run, m, n, t, Raises(e));
  }

  lemma SourceThrows(w: World, run: seq<Label>, b: nat, n: nat, i: nat, t: nat, e: Exc)
    requires Valid(Sys(w), run) && b <= n <= |run| && i < |w.calls| && i < |At(Sys(w), run, n).hist.source|
    requires Raised(run, b, t, e) && At(Sys(w), run, n).hist.source[i] == Some(t)
    ensures Threw(w, run, n, i, e)
  {
    RaisedMade(w, run, b, n, t, e);
    SizesAt(w, run, n);
    ProvenanceOverRuns(w, run, n, i);
  }

  // and there is no other

  lemma EndsBy(c: Revalidation.Config, s: State, l: Label, i: nat, e: Exc)
    requires Enabled(s, l) && i < |s.front.callers| && !s.front.callers[i].pc.Done?
    requires i < |Next(c, s, l).front.callers| && Next(c, s, l).front.callers[i].pc == Front.Done(Front.Threw(e))
    ensures || l == FrontStep(Front.LookUp(i, Front.Broken(e)))
            || (l == Publish(i) && s.pcs[i].out == Raises(e))
            || (l == Collect(i) && i < |Next(c, s, l).hist.source| && Next(c, s, l).hist.source[i].Some?)
  {
  }

  lemma {:induction false} Causes(w: World, run: seq<Label>, n: nat, i: nat, e: Exc)
    requires Valid(Sys(w), run) && n <= |run| && Threw(w, run, n, i, e)
    ensures Broke(run, n, i, e) || Raised(run, n, i, e) || TookRaised(w, run, n, i, e)
  {
    if n > 0 {
      if Threw(w, run, n - 1, i, e) {
        Causes(w, run, n - 1, i, e);
        StillCauses(w, run, n - 1, i, e);
      } else {
        Cause(w, run, n - 1, i, e);
      }
    }
  }

  lemma StillCauses(w: World, run: seq<Label>, n: nat, i: nat, e: Exc)
    requires n < |run|
    ensures Broke(run, n, i, e) ==> Broke(run, n + 1, i, e)
    ensures Raised(run, n, i, e) ==> Raised(run, n + 1, i, e)
    ensures TookRaised(w, run, n, i, e) ==> TookRaised(w, run, n + 1, i, e)
  {
    if TookRaised(w, run, n, i, e) {
      var c: nat, t: nat :| TookIt(w, run, n, i, e, c, t);
      assert TookIt(w, run, n + 1, i, e, c, t);
    }
  }

  /** The step that ends a call with an exception shows the cause. */
  lemma Cause(w: World, run: seq<Label>, n: nat, i: nat, e: Exc)
    requires Valid(Sys(w), run) && n < |run| && !Threw(w, run, n, i, e) && Threw(w, run, n + 1, i, e)
    ensures Broke(run, n + 1, i, e) || Raised(run, n + 1, i, e) || TookRaised(w, run, n + 1, i, e)
  {
    EndingStep(w, run, n, i, e);
    if run[n] == Publish(i) {
      PublishCause(w, run, n, i, e);
    } else if run[n] == Collect(i) {
      CollectCause(w, run, n, i, e);
    }
  }

  lemma EndingStep(w: World, run: seq<Label>, n: nat, i: nat, e: Exc)
    requires Valid(Sys(w), run) && n < |run| && !Threw(w, run, n, i, e) && Threw(w, run, n + 1, i, e)
    ensures var s, s' := At(Sys(w), run, n), At(Sys(w), run, n + 1);
            || run[n] == FrontStep(Front.LookUp(i, Front.Broken(e)))
            || (run[n] == Publish(i) && Enabled(s, run[n]) && s.pcs[i].out == Raises(e))
            || (run[n] == Collect(i) && i < |s'.hist.source| && s'.hist.source[i].Some?)
  {
    GoodAt(w, run, n);
    var s := At(Sys(w), run, n);
    assert Sys(w).enabled(s, run[n]);
    ShapeStep(w.config, s, run[n]);
    if s.front.callers[i].pc.Done? {
      EndStays(w.config, s, run[n], i);
    } else {
      EndsBy(w.config, s, run[n], i, e);
    }
  }

  lemma PublishCause(w: World, run: seq<Label>, n: nat, i: nat, e: Exc)
    requires Valid(Sys(w), run) && n < |run| && run[n] == Publish(i)
    requires Enabled(At(Sys(w), run, n), run[n]) && At(Sys(w), run, n).pcs[i].out == Raises(e)
    ensures Raised(run, n + 1, i, e)
  {
    GoodAt(w, run, n);
    assert MadeOk(At(Sys(w), run, n), i);
    var m := MadeByStep(w, run, n, i);
  }

  lemma CollectCause(w: World, run: seq<Label>, n: nat, i: nat, e: Exc)
    requires Valid(Sys(w), run) && n < |run| && run[n] == Collect(i) && Threw(w, run, n + 1, i, e)
    requires i < |At(Sys(w), run, n + 1).hist.source| && At(Sys(w), run, n + 1).hist.source[i].Some?
    ensures TookRaised(w, run, n + 1, i, e)
  {
    SizesAt(w, run, n + 1);
    var m := SourceWasMade(w, run, n + 1, i);
    assert run[m] != run[n];
    assert run[m] == RunFactory(run[m].i, Raises(e));
    assert Raised(run, n, run[m].i, e);
    Collecting(w, run, n, i, e, run[m].i);
  }

  lemma Collecting(w: World, run: seq<Label>, n: nat, i: nat, e: Exc, t: nat)
    requires n < |run| && run[n] == Collect(i) && i < |At(Sys(w), run, n + 1).hist.source|
    requires At(Sys(w), run, n + 1).hist.source[i] == Some(t) && Raised(run, n, t, e)
    requires i < |w.calls| && t < |w.calls| && t != i && w.calls[t].key == w.calls[i].key
    ensures TookRaised(w, run, n + 1, i, e)
  {
    assert TookIt(w, run, n + 1, i, e, n, t);
  }

  /** A call that has ended, ended with `e` if and only if a lookup of its own raised `e`, or it
      led and its factory raised `e`, or it collected what another call for its key had made
      when that one's factory raised `e`. */
  lemma RaisesExactly(w: World, run: seq<Label>, n: nat, i: nat, e: Exc)
    requires Valid(Sys(w), run) && n <= |run|
    requires i < |At(Sys(w), run, n).front.callers| && At(Sys(w), run, n).front.callers[i].pc.Done?
    ensures At(Sys(w), run, n).front.callers[i].pc.fin == Front.Threw(e) <==>
              Broke(run, n, i, e) || Raised(run, n, i, e) || TookRaised(w, run, n, i, e)
  {
    if Threw(w, run, n, i, e) {
      Causes(w, run, n, i, e);
    } else {
      if Broke(run, n, i, e) {
        BrokeThrows(w, run, n, i, e);
      }
      if Raised(run, n, i, e) {
        RaisedThrows(w, run, n, i, e);
      }
      if TookRaised(w, run, n, i, e) {
        TookThrows(w, run, n, i, e);
      }
    }
  }

  /** For any call, a run in which its lookup breaks, it raises, and no factory has run. */
  lemma BrokenLookupRaises(w: World, i: nat, e: Exc) returns (run: seq<Label>)
    requires i < |w.calls|
    ensures Valid(Sys(w), run) && Threw(w, run, |run|, i, e)
    ensures forall n | 0 <= n < |run| :: !run[n].RunFactory?
  {
    run := Then(w, [], FrontStep(Front.LookUp(i, Front.Broken(e))));
  }
}
