/** What lookups and a stale policy commit a call to, over whole runs of the async machine. */
module AsyncPolicy {
  import opened Basics
  import opened AsyncMachine
  import opened AsyncRuns
  import opened FrontRuns
  import opened Runs

  /** As in the sync class: where each call stands is decided by its passes: what its
      lookups found, and how old that was, by arithmetic on the readings, when it judged it. */
  lemma PassesDecide(w: World, run: seq<Label>, n: nat, i: nat)
    requires Valid(Sys(w), run) && n <= |run| && i < |w.calls|
    ensures var s := At(Sys(w), run, n);
            && |s.front.callers| == |w.calls| && s.front.callers[i].call == w.calls[i]
            && Fits(s.front.callers[i], Passes(FrontLens(), run, n, i))
  {
    SysEmbeds(w);
    FitsAt(Sys(w), IsGood(w), FrontLens(), w, run, n, i);
  }

  /** Whatever its policy, a call runs the factory itself only after each of its passes missed or
      found an entry at least its soft TTL old, and on the first pass the latter only under BLOCK. */
  lemma FactoryOnlyAfterMissOrStale(w: World, run: seq<Label>, n: nat, i: nat, out: Outcome)
    requires Valid(Sys(w), run) && n < |run| && run[n] == RunFactory(i, out) && i < |w.calls|
    ensures var ps := Passes(FrontLens(), run, n, i);
            ps != [] && forall x | 0 <= x < |ps| :: WentOn(w.calls[i].policy, ps, x)
  {
    PassesDecide(w, run, n, i);
    assert Sys(w).enabled(At(Sys(w), run, n), run[n]);
    LooksAgain(At(Sys(w), run, n).front.callers[i], Passes(FrontLens(), run, n, i));
  }
}
