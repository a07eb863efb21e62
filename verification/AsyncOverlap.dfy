/** How many factories run for a key at once in the async class: the same overlap as in the
    sync class, and exactly when. */
module AsyncOverlap {
  import opened Basics
  import opened Memory
  import opened Policy
  import opened AsyncMachine
  import opened AsyncRuns
  import opened AsyncSteps
  import opened Runs
  import Front
  import Revalidation

  /** The callers running the factory for `k` themselves. */
  function Blocking(s: State, k: Key): set<nat> {
    set i | 0 <= i < |s.pcs| && i < |s.front.callers| && KeyOf(s, i) == k && s.pcs[i].Running?
  }

  /** The background tasks running it. */
  function Background(s: State, k: Key): set<nat> {
    set j | 0 <= j < |s.front.reval.jobs| && RunsFor(s, j, k)
  }

  /** In every run, at every moment, at most one factory runs for `k`. */
  ghost predicate OneAtATime(w: World, k: Key) {
    forall run: seq<Label>, n: nat {:trigger At(Sys(w), run, n)} ::
      Valid(Sys(w), run) && n <= |run| ==>
        |Blocking(At(Sys(w), run, n), k)| + |Background(At(Sys(w), run, n), k)| <= 1
  }

  ghost predicate Follows(w: World, s: State) {
    Good(w, s) && Obeys(w.calls, s.front)
  }

  lemma FollowsStep(w: World, s: State, l: Label)
    requires Follows(w, s) && Enabled(s, l)
    ensures Follows(w, Next(w.config, s, l))
  {
    GoodStep(w, s, l);
    FrontMoves(w.config, s, l);
    ObeysMoves(w.config, w.calls, s.front, FrontStepOf(l), Next(w.config, s, l).front);
  }

  lemma FollowsAt(w: World, run: seq<Label>, n: nat)
    requires Valid(Sys(w), run) && n <= |run|
    ensures Follows(w, At(Sys(w), run, n))
  {
    GoodInductive(w);
    var inv := (s: State) => Follows(w, s);
    forall s, l | inv(s) && Enabled(s, l) ensures inv(Next(w.config, s, l)) {
      FollowsStep(w, s, l);
    }
    Invariant(Sys(w), inv, run, n);
  }

  /** A caller blocking for `k` while a job runs for it is not the call that scheduled the job. */
  lemma OverlapNeedsTwo(w: World, s: State, k: Key, i: nat, j: nat)
    requires Follows(w, s) && i in Blocking(s, k) && j in Background(s, k)
    ensures var a := s.front.scheduler[j];
            a in Front.CallsFor(w, k) && i in Front.CallsFor(w, k) && a != i && w.calls[a].policy.Revalidate?
  {
    assert Front.ScheduledBy(s.front, j) && SchedulerOk(s.front, j);
  }

  lemma EachAtMostOne(w: World, s: State, k: Key)
    requires Good(w, s)
    ensures |Blocking(s, k)| <= 1 && |Background(s, k)| <= 1
  {
    IsExclusive(w.config, s, k);
    forall i, j | i in Blocking(s, k) && j in Blocking(s, k) ensures i == j {
      assert LeadsKey(s, i, k) && LeadsKey(s, j, k);
    }
    AtMostOne(Blocking(s, k));
    AtMostOne(Background(s, k));
  }

  lemma FindsStale(w: World, a: nat, v: Value) returns (run: seq<Label>)
    requires a < |w.calls| && w.calls[a].policy.Revalidate?
    ensures Valid(Sys(w), run)
    ensures var s := End(w, run);
            && s.flight.inflight == map[] && OnlyMoved(Start(w.calls, w.clock), s, {a})
            && s.front.reval == Revalidation.Start(w.clock)
            && a < |s.front.callers| && s.front.callers[a].call == w.calls[a]
            && s.front.callers[a].pc == Front.Reserving(Envelope(v, 0.0, 0.0), w.clock)
  {
    run := Then(w, [], FrontStep(Front.LookUp(a, Front.Found(Envelope(v, 0.0, 0.0)))));
    run := Then(w, run, FrontStep(Front.Judge(a, 0.0)));
    run := Then(w, run, FrontStep(Front.ReadClock(a, w.clock)));
  }

  /** A Revalidate call finds a stale entry and creates a task, which starts its factory. */
  lemma Schedules(w: World, a: nat, v: Value) returns (run: seq<Label>)
    requires a < |w.calls| && w.calls[a].policy.Revalidate?
    ensures Valid(Sys(w), run)
    ensures var s := End(w, run);
            && s.flight.inflight == map[] && OnlyMoved(Start(w.calls, w.clock), s, {a})
            && s.front.reval.jobs == [Revalidation.Job(w.calls[a].key, Revalidation.Running)]
  {
    run := FindsStale(w, a, v);
    run := Then(w, run, FrontStep(Front.Reserve(a)));
    run := Then(w, run, FrontStep(Front.Submit(a)));
  }

  /** Any Revalidate call and any other call of its key: the job of the first and the second
      run their factories at the same time. */
  lemma FactoriesOverlap(w: World, k: Key, a: nat, b: nat, v: Value) returns (run: seq<Label>)
    requires a in Front.CallsFor(w, k) && b in Front.CallsFor(w, k) && a != b && w.calls[a].policy.Revalidate?
    ensures Valid(Sys(w), run) && b in Blocking(End(w, run), k) && 0 in Background(End(w, run), k)
  {
    run := Schedules(w, a, v);
    run := Arrive(w, run, b);
    GoodAt(w, run, |run|);
  }

  /** At most one factory runs at a time, in every run, if and only if there is a single call
      for the key, or none that revalidates. */
  lemma OneAtATimeExactly(w: World, k: Key, v: Value)
    ensures OneAtATime(w, k) <==>
              || |Front.CallsFor(w, k)| <= 1
              || forall c | c in Front.CallsFor(w, k) :: !w.calls[c].policy.Revalidate?
  {
    if |Front.CallsFor(w, k)| <= 1 || forall c | c in Front.CallsFor(w, k) :: !w.calls[c].policy.Revalidate? {
      forall run: seq<Label>, n: nat | Valid(Sys(w), run) && n <= |run|
        ensures |Blocking(At(Sys(w), run, n), k)| + |Background(At(Sys(w), run, n), k)| <= 1
      {
        FollowsAt(w, run, n);
        NeverTwo(w, At(Sys(w), run, n), k);
      }
    } else {
      var a :| a in Front.CallsFor(w, k) && w.calls[a].policy.Revalidate?;
      assert |Front.CallsFor(w, k) - {a}| == |Front.CallsFor(w, k)| - 1;
      var b :| b in Front.CallsFor(w, k) - {a};
      var run := FactoriesOverlap(w, k, a, b, v);
      EndOverlaps(w, run, k);
    }
  }

  lemma NeverTwo(w: World, s: State, k: Key)
    requires Follows(w, s)
    requires || |Front.CallsFor(w, k)| <= 1
             || forall c | c in Front.CallsFor(w, k) :: !w.calls[c].policy.Revalidate?
    ensures |Blocking(s, k)| + |Background(s, k)| <= 1
  {
    EachAtMostOne(w, s, k);
    if i, j :| i in Blocking(s, k) && j in Background(s, k) {
      OverlapNeedsTwo(w, s, k, i, j);
      SubsetSize({i, s.front.scheduler[j]}, Front.CallsFor(w, k));
      assert false;
    }
  }

  lemma EndOverlaps(w: World, run: seq<Label>, k: Key)
    requires Valid(Sys(w), run) && Blocking(End(w, run), k) != {} && Background(End(w, run), k) != {}
    ensures !OneAtATime(w, k)
  {
    assert |Blocking(End(w, run), k)| + |Background(End(w, run), k)| >= 2;
  }
}
