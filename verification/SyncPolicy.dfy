/** What a stale policy commits a call to, over whole runs of the sync machine. */
module SyncPolicy {
  import opened Basics
  import opened FrontRuns
  import opened Policy
  import opened SyncMachine
  import opened SyncRuns
  import opened Runs
  import Front

  ghost predicate Follows(w: World, s: State) {
    Good(w, s) && Obeys(w.calls, s.front)
  }

  lemma FollowsStep(w: World, s: State, l: Label)
    requires Follows(w, s) && Enabled(s, l)
    ensures Follows(w, Next(w.config, s, l))
  {
    GoodStep(w, s, l);
    FrontMoves(w.config, s, l);
    ObeysMoves(w.config, w.calls, s.front, FrontStepOf(l), Next(w.config, s, l).front);
  }

  lemma FollowsAt(w: World, run: seq<Label>, n: nat)
    requires Valid(Sys(w), run) && n <= |run|
    ensures Follows(w, At(Sys(w), run, n))
    ensures n < |run| ==> Enabled(At(Sys(w), run, n), run[n])
  {
    GoodInductive(w);
    var inv := (s: State) => Follows(w, s);
    forall s, l | inv(s) && Enabled(s, l) ensures inv(Next(w.config, s, l)) {
      FollowsStep(w, s, l);
    }
    Invariant(Sys(w), inv, run, n);
    if n < |run| {
      assert Sys(w).enabled(At(Sys(w), run, n), run[n]);
    }
  }

  /** A call whose policy is not Revalidate reserves nothing and never says `revalidating`;
      what says so was stale. */
  lemma OnlyRevalidateSchedules(w: World, run: seq<Label>, n: nat, i: nat)
    requires Valid(Sys(w), run) && n <= |run| && i < |w.calls| == |At(Sys(w), run, n).front.callers|
    ensures var pc := At(Sys(w), run, n).front.callers[i].pc;
            pc.Done? && pc.fin.Gave? && pc.fin.result.revalidating ==>
              w.calls[i].policy.Revalidate? && pc.fin.result.wasStale
    ensures n < |run| && run[n] == FrontStep(Front.Reserve(i)) ==> w.calls[i].policy.Revalidate?
  {
    FollowsAt(w, run, n);
    assert PolicyOk(At(Sys(w), run, n).front.callers[i]);
  }

  // Passes

  /** At every moment of every run, where each call stands is decided by its passes: what its
      lookups found, and how old that was, by arithmetic on the readings, when it judged it. */
  lemma PassesDecide(w: World, run: seq<Label>, n: nat, i: nat)
    requires Valid(Sys(w), run) && n <= |run| && i < |w.calls|
    ensures var s := At(Sys(w), run, n);
            && |s.front.callers| == |w.calls| && s.front.callers[i].call == w.calls[i]
            && Fits(s.front.callers[i], Passes(FrontLens(), run, n, i))
  {
    SysEmbeds(w);
    FitsAt(Sys(w), IsGood(w), FrontLens(), w, run, n, i);
  }

  /** Whatever its policy, a call runs the factory itself only after each of its passes missed or
      found an entry at least its soft TTL old, and on the first pass the latter only under BLOCK. */
  lemma FactoryOnlyAfterMissOrStale(w: World, run: seq<Label>, n: nat, i: nat, out: Outcome)
    requires Valid(Sys(w), run) && n < |run| && run[n] == RunFactory(i, out) && i < |w.calls|
    ensures var ps := Passes(FrontLens(), run, n, i);
            ps != [] && forall x | 0 <= x < |ps| :: WentOn(w.calls[i].policy, ps, x)
  {
    PassesDecide(w, run, n, i);
    assert Sys(w).enabled(At(Sys(w), run, n), run[n]);
    LooksAgain(At(Sys(w), run, n).front.callers[i], Passes(FrontLens(), run, n, i));
  }
}
