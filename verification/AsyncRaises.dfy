/** When a call of the async class raises: exactly when its own lookup did, or the leader of
    the future it joined (itself, perhaps) had a factory that did. */
module AsyncRaises {
  import opened Basics
  import opened AsyncMachine
  import opened AsyncRuns
  import opened AsyncCost
  import opened Runs
  import Front
  import FrontRuns
  import Policy
  import Revalidation

  /** Among the first `n` steps, a lookup of call `i` raised `e`. */
  ghost predicate Broke(run: seq<Label>, n: nat, i: nat, e: Exc)
    requires n <= |run|
  {
    exists m :: 0 <= m < n && run[m] == FrontStep(Front.LookUp(i, Front.Broken(e)))
  }

  /** Among the first `n` steps, call `i` ran its factory as a leader and the factory raised `e`. */
  ghost predicate Raised(run: seq<Label>, n: nat, i: nat, e: Exc)
    requires n <= |run|
  {
    exists m :: 0 <= m < n && run[m] == RunFactory(i, Raises(e))
  }

  ghost predicate Threw(w: World, run: seq<Label>, n: nat, i: nat, e: Exc)
    requires n <= |run|
  {
    var callers := At(Sys(w), run, n).front.callers;
    i < |callers| && callers[i].pc == Front.Done(Front.Threw(e))
  }

  /** The leader of the future call `i` joined or created, if it has one. */
  function Leader(s: State, i: nat): Option<nat> {
    if i < |s.hist.joined| && s.hist.joined[i].Some? && s.hist.joined[i].value < |s.hist.owner|
    then Some(s.hist.owner[s.hist.joined[i].value]) else None
  }

  // Factory calls and what is remembered of them

  lemma MadeOneStep(w: World, run: seq<Label>, n: nat, t: nat)
    requires Valid(Sys(w), run) && n < |run|
    ensures var made, made' := At(Sys(w), run, n).hist.made, At(Sys(w), run, n + 1).hist.made;
            && |made'| == |made|
            && (t < |made| ==>
                  made'[t] == if run[n].RunFactory? && run[n].i == t then Some(run[n].out) else made[t])
            && (run[n].RunFactory? ==> run[n].i < |made| && made[run[n].i] == None)
  {
    GoodAt(w, run, n);
    assert Sys(w).enabled(At(Sys(w), run, n), run[n]);
    MadeGrows(w.config, At(Sys(w), run, n), run[n]);
  }

  function HasMade(i: nat, out: Outcome): State -> bool {
    (s: State) => i < |s.hist.made| && s.hist.made[i] == Some(out)
  }

  lemma MadeSurvives(w: World, i: nat, out: Outcome)
    ensures Inductive(Sys(w), IsGood(w))
    ensures Survives(Sys(w), IsGood(w), HasMade(i, out), FrontRuns.Never())
  {
    GoodInductive(w);
    forall s, l | Good(w, s) && HasMade(i, out)(s) && Enabled(s, l) ensures HasMade(i, out)(Next(w.config, s, l)) {
      MadeGrows(w.config, s, l);
    }
  }

  lemma MadeLasts(w: World, run: seq<Label>, a: nat, b: nat, i: nat, out: Outcome)
    requires Valid(Sys(w), run) && a <= b <= |run| && HasMade(i, out)(At(Sys(w), run, a))
    ensures HasMade(i, out)(At(Sys(w), run, b))
  {
    MadeSurvives(w, i, out);
    Persists(Sys(w), IsGood(w), HasMade(i, out), FrontRuns.Never(), run, a, b);
  }

  lemma JustMade(w: World, run: seq<Label>, m: nat, i: nat, out: Outcome)
    requires Valid(Sys(w), run) && m < |run| && run[m] == RunFactory(i, out)
    ensures HasMade(i, out)(At(Sys(w), run, m + 1))
  {
    MadeOneStep(w, run, m, i);
  }

  /** A caller's own factory step is remembered ever after. */
  lemma MadeAfter(w: World, run: seq<Label>, m: nat, n: nat, i: nat, out: Outcome)
    requires Valid(Sys(w), run) && m < n <= |run| && run[m] == RunFactory(i, out)
    ensures HasMade(i, out)(At(Sys(w), run, n))
  {
    JustMade(w, run, m, i, out);
    MadeLasts(w, run, m + 1, n, i, out);
  }

  /** What is remembered of a caller is its own factory step. */
  lemma MadeByStep(w: World, run: seq<Label>, n: nat, i: nat, out: Outcome) returns (m: nat)
    requires Valid(Sys(w), run) && n <= |run| && HasMade(i, out)(At(Sys(w), run, n))
    ensures m < n && run[m] == RunFactory(i, out)
  {
    GoodInductive(w);
    var not := (s: State) => !HasMade(i, out)(s);
    assert not(At(Sys(w), run, 0));
    m := Falls(Sys(w), IsGood(w), not, run, 0, n);
    MadeGrows(w.config, At(Sys(w), run, m), run[m]);
  }

  lemma MadeExactly(w: World, run: seq<Label>, n: nat, i: nat, e: Exc)
    requires Valid(Sys(w), run) && n <= |run|
    ensures HasMade(i, Raises(e))(At(Sys(w), run, n)) <==> Raised(run, n, i, e)
  {
    if HasMade(i, Raises(e))(At(Sys(w), run, n)) {
      var _ := MadeByStep(w, run, n, i, Raises(e));
    }
    if m :| 0 <= m < n && run[m] == RunFactory(i, Raises(e)) {
      MadeAfter(w, run, m, n, i, Raises(e));
    }
  }

  lemma OneMoreStep(run: seq<Label>, n: nat, i: nat, e: Exc)
    requires n < |run|
    ensures Raised(run, n + 1, i, e) <==> Raised(run, n, i, e) || run[n] == RunFactory(i, Raises(e))
    ensures Broke(run, n + 1, i, e) <==>
              Broke(run, n, i, e) || run[n] == FrontStep(Front.LookUp(i, Front.Broken(e)))
  {
  }

  // Broken lookups

  lemma EndStays(c: Revalidation.Config, s: State, l: Label, i: nat)
    requires Enabled(s, l) && i < |s.front.callers| && s.front.callers[i].pc.Done?
    ensures i < |Next(c, s, l).front.callers| && Next(c, s, l).front.callers[i] == s.front.callers[i]
  {
    FrontMoves(c, s, l);
    Policy.EndStays(c, s.front, FrontStepOf(l), Next(c, s, l).front, i);
  }

  lemma {:induction false} ThrewStays(w: World, run: seq<Label>, m: nat, n: nat, i: nat, e: Exc)
    requires Valid(Sys(w), run) && m <= n <= |run| && Threw(w, run, m, i, e)
    ensures Threw(w, run, n, i, e)
    decreases n
  {
    if m < n {
      ThrewStays(w, run, m, n - 1, i, e);
      assert Sys(w).enabled(At(Sys(w), run, n - 1), run[n - 1]);
      EndStays(w.config, At(Sys(w), run, n - 1), run[n - 1], i);
    }
  }

  lemma BrokeThrows(w: World, run: seq<Label>, n: nat, i: nat, e: Exc)
    requires Valid(Sys(w), run) && n <= |run| && Broke(run, n, i, e)
    ensures Threw(w, run, n, i, e)
  {
    var m :| 0 <= m < n && run[m] == FrontStep(Front.LookUp(i, Front.Broken(e)));
    LookupThrows(w, run, m, i, e);
    ThrewStays(w, run, m + 1, n, i, e);
  }

  lemma LookupThrows(w: World, run: seq<Label>, n: nat, i: nat, e: Exc)
    requires Valid(Sys(w), run) && n < |run| && run[n] == FrontStep(Front.LookUp(i, Front.Broken(e)))
    ensures Threw(w, run, n + 1, i, e)
  {
    assert Sys(w).enabled(At(Sys(w), run, n), run[n]);
  }

  /** A call without a future can only be ended by its lookup. */
  lemma LoneStep(w: World, s: State, l: Label, i: nat, e: Exc)
    requires Good(w, s) && Enabled(s, l) && i < |s.pcs| && !s.front.callers[i].pc.Done?
    requires var s' := Next(w.config, s, l);
             && i < |s'.front.callers| && s'.front.callers[i].pc == Front.Done(Front.Threw(e))
             && i < |s'.hist.joined| && s'.hist.joined[i] == None
    ensures l == FrontStep(Front.LookUp(i, Front.Broken(e)))
  {
    assert MemberOk(s, i);
    JoinedStep(w, s, l);
  }

  /** Call `i` raised `e` without ever joining or creating a future. */
  ghost predicate Lone(w: World, run: seq<Label>, n: nat, i: nat, e: Exc)
    requires n <= |run|
  {
    && Threw(w, run, n, i, e)
    && i < |At(Sys(w), run, n).hist.joined| && At(Sys(w), run, n).hist.joined[i] == None
  }

  lemma {:induction false} LoneBroke(w: World, run: seq<Label>, n: nat, i: nat, e: Exc)
    requires Valid(Sys(w), run) && n <= |run| && Lone(w, run, n, i, e)
    ensures Broke(run, n, i, e)
  {
    if n > 0 {
      OneMoreStep(run, n - 1, i, e);
      if run[n - 1] != FrontStep(Front.LookUp(i, Front.Broken(e))) {
        LoneBack(w, run, n - 1, i, e);
        LoneBroke(w, run, n - 1, i, e);
      }
    }
  }

  lemma LoneBack(w: World, run: seq<Label>, n: nat, i: nat, e: Exc)
    requires Valid(Sys(w), run) && n < |run| && Lone(w, run, n + 1, i, e)
    requires run[n] != FrontStep(Front.LookUp(i, Front.Broken(e)))
    ensures Lone(w, run, n, i, e)
  {
    GoodAt(w, run, n);
    var s := At(Sys(w), run, n);
    assert Sys(w).enabled(s, run[n]);
    ShapeStep(w.config, s, run[n]);
    JoinedStep(w, s, run[n]);
    if s.front.callers[i].pc.Done? {
      EndStays(w.config, s, run[n], i);
    } else {
      LoneStep(w, s, run[n], i, e);
      assert false;
    }
  }

  // Joined futures

  lemma JoinedEnds(w: World, s: State, i: nat, e: Exc)
    requires Good(w, s) && i < |s.pcs| && Ended(s, i) && s.hist.joined[i].Some?
    ensures Leader(s, i).Some?
    ensures s.front.callers[i].pc.fin == Front.Threw(e) <==> HasMade(Leader(s, i).value, Raises(e))(s)
  {
    assert MemberOk(s, i);
    assert FutureOk(s, s.hist.joined[i].value);
  }

  lemma JoinedThrows(w: World, run: seq<Label>, n: nat, i: nat, e: Exc)
    requires Valid(Sys(w), run) && n <= |run|
    requires i < |At(Sys(w), run, n).front.callers| && At(Sys(w), run, n).front.callers[i].pc.Done?
    requires i < |At(Sys(w), run, n).hist.joined| && At(Sys(w), run, n).hist.joined[i].Some?
    ensures var s := At(Sys(w), run, n);
            && Leader(s, i).Some?
            && (Threw(w, run, n, i, e) <==> Raised(run, n, Leader(s, i).value, e))
  {
    var s := At(Sys(w), run, n);
    GoodAt(w, run, n);
    JoinedEnds(w, s, i, e);
    MadeExactly(w, run, n, Leader(s, i).value, e);
  }

  /** A call that has ended, ended with `e` if and only if its own lookup raised `e`, or the
      factory of its future's leader did. */
  lemma RaisesExactly(w: World, run: seq<Label>, n: nat, i: nat, e: Exc)
    requires Valid(Sys(w), run) && n <= |run|
    requires i < |At(Sys(w), run, n).front.callers| && At(Sys(w), run, n).front.callers[i].pc.Done?
    ensures var s := At(Sys(w), run, n);
            s.front.callers[i].pc.fin == Front.Threw(e) <==>
              || Broke(run, n, i, e)
              || (Leader(s, i).Some? && Raised(run, n, Leader(s, i).value, e))
  {
    var s := At(Sys(w), run, n);
    GoodAt(w, run, n);
    if Broke(run, n, i, e) {
      BrokeThrows(w, run, n, i, e);
    }
    if s.hist.joined[i].Some? {
      JoinedThrows(w, run, n, i, e);
    } else if Threw(w, run, n, i, e) {
      LoneBroke(w, run, n, i, e);
    }
  }
}
