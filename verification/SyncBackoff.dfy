/** Revalidation over whole runs of the sync machine: conservation, and backoff safety. */
module SyncBackoff {
  import opened Basics
  import opened SyncMachine
  import opened SyncRuns
  import opened Runs
  import opened Sums
  import BackoffRuns
  import Front
  import FrontRuns
  import JobRuns
  import ReserveRuns
  import Revalidation

  /** At every moment, per key: results that said `revalidating`, plus calls between their
      reservation and their return, minus finished jobs, is one exactly while the key is
      regenerating. */
  lemma RevalidationsConserved(w: World, run: seq<Label>, n: nat, k: Key)
    requires Valid(Sys(w), run) && n <= |run|
    ensures var f := At(Sys(w), run, n).front;
            Sum(f.callers, Front.SaysRevalidating(k)) + Sum(f.callers, Front.IsPending(k)) ==
            Sum(f.reval.jobs, Revalidation.IsFinished(k)) +
            (if k in f.reval.guard.regenerating then 1 else 0)
  {
    GoodAt(w, run, n);
    Front.RevalidationConserved(w.config, At(Sys(w), run, n).front, k);
  }

  /** Only a background job's own step records a backoff; a blocking factory that fails
      records none. */
  lemma RecordsStep(c: Revalidation.Config, s: State, l: Label)
    requires Enabled(s, l)
    ensures Next(c, s, l).front.reval.records == s.front.reval.records + BackoffRuns.Recorder(FrontLens())(s, l)
    ensures !l.FrontStep? ==> Next(c, s, l).front.reval == s.front.reval
  {
    if l.FrontStep? {
      BackoffRuns.FrontRecords(c, s.front, l.l);
    } else {
      assert BackoffRuns.Recorder(FrontLens())(s, l) == BackoffRuns.Recorded(s.front, None) == [];
    }
  }

  /** If step `p` records a backoff of `k` until `until`, and a later step `n` reserves `k`
      although no reading of the monotonic clock has reached `until`, then at least
      `backoff_maxsize` distinct other keys recorded failures in between. */
  lemma BackoffOverRuns(w: World, run: seq<Label>, p: nat, n: nat, k: Key, until: Time)
    requires Valid(Sys(w), run) && p < n < |run|
    requires BackoffRuns.Recorder(FrontLens())(At(Sys(w), run, p), run[p]) == [(k, until)]
    requires BackoffRuns.Reserves(At(Sys(w), run, n).front, FrontLens().step(run[n]), k)
    requires FrontRuns.NotReached(FrontLens(), w, run, n, until)
    ensures |BackoffRuns.OthersFailed(Sys(w), FrontLens(), run, p + 1, n, k)| >= w.config.maxsize
  {
    SysEmbeds(w);
    BackoffRuns.BackoffSafety(Sys(w), IsGood(w), FrontLens(), w, run, p, n, k, until);
  }

  /** A job whose factory or write raised `e` in step `a` and which has finished after `n` steps
      has in between, in this order, read the clock, recorded a backoff of its key `k` until
      `revalidate_backoff` after that reading, and called the error hook with `e`. */
  lemma FailureRecords(w: World, run: seq<Label>, a: nat, n: nat, j: nat, k: Key, e: Exc)
    returns (r: nat, t: Time, q: nat, h: nat)
    requires Valid(Sys(w), run) && a < n <= |run| && BackoffRuns.JobFails(FrontStepOf(run[a]), j, e)
    requires var jobs := At(Sys(w), run, n).front.reval.jobs;
             j < |jobs| && jobs[j] == Revalidation.Job(k, Revalidation.Finished)
    ensures a < r < q < h < n && run[r] == FrontStep(Front.JobStep(Revalidation.ReadUntil(j, t)))
    ensures BackoffRuns.Recorder(FrontLens())(At(Sys(w), run, q), run[q]) == [(k, t + w.config.wait)]
    ensures run[h] == FrontStep(Front.JobStep(Revalidation.Hook(j)))
    ensures var jobs := At(Sys(w), run, h).front.reval.jobs;
            j < |jobs| && jobs[j] == Revalidation.Job(k, Revalidation.Hooking(e))
  {
    SysEmbeds(w);
    r, t, q, h := BackoffRuns.FailureRecords(Sys(w), IsGood(w), FrontLens(), w, run, a, n, j, k, e);
  }

  /** A job whose factory returned `v` and which has finished has in between written `v`. */
  lemma JobWrites(w: World, run: seq<Label>, q: nat, n: nat, j: nat, k: Key, v: Value)
    returns (p: nat, failure: Option<Exc>)
    requires Valid(Sys(w), run) && q < n <= |run|
    requires run[q] == FrontStep(Front.JobStep(Revalidation.RunFactory(j, Returns(v))))
    requires var jobs := At(Sys(w), run, n).front.reval.jobs;
             j < |jobs| && jobs[j] == Revalidation.Job(k, Revalidation.Finished)
    ensures q < p < n && run[p] == FrontStep(Front.JobStep(Revalidation.Write(j, failure)))
    ensures var jobs := At(Sys(w), run, p).front.reval.jobs;
            j < |jobs| && jobs[j] == Revalidation.Job(k, Revalidation.Writing(v))
  {
    SysEmbeds(w);
    p, failure := JobRuns.JobWrites(Sys(w), IsGood(w), FrontLens(), w, run, q, n, j, k, v);
  }

  // Who gets a background job

  /** A call that reads the monotonic clock at `now` and comes to the lock in step `n` reserves if
      and only if no job of its key is unfinished and no backoff of it is in force at `now`; a
      backoff that has elapsed is deleted. */
  lemma ReservesExactly(w: World, run: seq<Label>, q: nat, n: nat, i: nat, now: Time)
    requires Valid(Sys(w), run) && q < n < |run| && i < |w.calls|
    requires run[q] == FrontStep(Front.ReadClock(i, now)) && run[n] == FrontStep(Front.Reserve(i))
    ensures var f, f' := At(Sys(w), run, n).front, At(Sys(w), run, n + 1).front;
            && i < |f.callers| && f.callers[i].pc.Reserving? && i < |f'.callers|
            && ReserveRuns.Decided(f, f', i, w.calls[i].key, now)
  {
    SysEmbeds(w);
    ReserveRuns.ReservesExactly(Sys(w), IsGood(w), FrontLens(), w, run, q, n, i, now);
  }

  /** An elapsed backoff lets a revalidation through: with every `until` recorded for the key at
      most `now`, and no job of it unfinished, the call reserves. */
  lemma ReservesOnceElapsed(w: World, run: seq<Label>, q: nat, n: nat, i: nat, now: Time)
    requires Valid(Sys(w), run) && q < n < |run| && i < |w.calls|
    requires run[q] == FrontStep(Front.ReadClock(i, now)) && run[n] == FrontStep(Front.Reserve(i))
    requires !ReserveRuns.Unfinished(At(Sys(w), run, n).front, w.calls[i].key)
    requires forall until | (w.calls[i].key, until) in ReserveRuns.Recordings(Sys(w), FrontLens(), run, n) ::
               until <= now
    ensures var callers := At(Sys(w), run, n + 1).front.callers; i < |callers| && callers[i].pc.Submitting?
  {
    SysEmbeds(w);
    ReserveRuns.ReservesOnceElapsed(Sys(w), IsGood(w), FrontLens(), w, run, q, n, i, now);
  }

  /** A call that has returned said `revalidating` if and only if at one of its steps under the
      lock no job of its key was unfinished and no backoff of it was in force. */
  lemma RevalidatingExactly(w: World, run: seq<Label>, n: nat, i: nat)
    requires Valid(Sys(w), run) && n <= |run| && i < |w.calls| == |At(Sys(w), run, n).front.callers|
    requires var pc := At(Sys(w), run, n).front.callers[i].pc; pc.Done? && pc.fin.Gave?
    ensures At(Sys(w), run, n).front.callers[i].pc.fin.result.revalidating <==>
              exists x :: 0 <= x < n && ReserveRuns.Goes(Sys(w), FrontLens(), w, run, x, i)
  {
    SysEmbeds(w);
    ReserveRuns.SchedulesExactly(Sys(w), IsGood(w), FrontLens(), w, run, n, i);
  }
}
