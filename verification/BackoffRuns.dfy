/** Backoff safety over whole runs of any machine built on the shared half: both single-flight
    machines are instances. */
module BackoffRuns {
  import opened Basics
  import opened FrontRuns
  import opened JobRuns
  import opened Runs
  import Front
  import Revalidation

  /** The job a step makes record a backoff, if it is such a step. */
  function RecordingJob(f: Front.State, l: Option<Front.Label>): Option<Revalidation.Job> {
    match l
    case Some(JobStep(RecordStep(j))) =>
      if j < |f.reval.jobs| && f.reval.jobs[j].stage.Recording? then Some(f.reval.jobs[j]) else None
    case _ => None
  }

  /** The backoff a step records: its key and the clock value it lasts until. */
  function Recorded(f: Front.State, l: Option<Front.Label>): seq<(Key, Time)> {
    var job := RecordingJob(f, l);
    if job.Some? then [(job.value.key, job.value.stage.until)] else []
  }

  function Recorder<S, L>(lens: Lens<S, L>): (S, L) -> seq<(Key, Time)> {
    (s: S, l: L) => Recorded(lens.front(s), lens.step(l))
  }

  function Records<S, L>(lens: Lens<S, L>): S -> seq<(Key, Time)> {
    (s: S) => lens.front(s).reval.records
  }

  /** The step reserves `k` for a revalidation. */
  predicate Reserves(f: Front.State, l: Option<Front.Label>, k: Key) {
    && l.Some? && l.value.Reserve? && Front.Enabled(f, l.value)
    && f.callers[l.value.i].call.key == k && Front.NextPc(f, l.value).Submitting?
  }

  /** Backoffs are recorded only by jobs: a blocking factory that fails leaves none. */
  lemma EmbedsLogs<S(!new), L(!new)>(m: Machine<S, L>, inv: S -> bool, lens: Lens<S, L>, w: Front.World)
    requires Embeds(m, inv, lens, w)
    ensures Logs(m, inv, Records(lens), Recorder(lens))
  {
    forall s, l | inv(s) && m.enabled(s, l)
      ensures Records(lens)(m.next(s, l)) == Records(lens)(s) + Recorder(lens)(s, l)
    {
      MovesRecord(w.config, lens.front(s), lens.step(l), lens.front(m.next(s, l)));
    }
  }

  lemma MovesRecord(c: Revalidation.Config, f: Front.State, l: Option<Front.Label>, f': Front.State)
    requires Front.Moves(c, f, l, f')
    ensures f'.reval.records == f.reval.records + Recorded(f, l)
  {
    if l.Some? {
      FrontRecords(c, f, l.value);
    }
  }

  /** The distinct keys other than `k` with a backoff recorded in steps `a` to `b`. */
  function OthersFailed<S, L>(m: Machine<S, L>, lens: Lens<S, L>, run: seq<L>, a: nat, b: nat, k: Key): set<Key>
    requires a <= b <= |run|
  {
    KeysOf(Emitted(m, run, a, b, Recorder(lens))) - {k}
  }

  function KeysOf(records: seq<(Key, Time)>): set<Key> {
    set i | 0 <= i < |records| :: records[i].0
  }

  /** If step `p` records a backoff of `k` until `until`, and a later step `n` reserves `k`
      although no reading of the monotonic clock has reached `until`, then at least
      `backoff_maxsize` distinct other keys recorded failures in between. */
  lemma BackoffSafety<S(!new), L(!new)>(m: Machine<S, L>, inv: S -> bool, lens: Lens<S, L>, w: Front.World,
                                        run: seq<L>, p: nat, n: nat, k: Key, until: Time)
    requires Embeds(m, inv, lens, w) && Valid(m, run) && p < n < |run|
    requires Recorder(lens)(At(m, run, p), run[p]) == [(k, until)]
    requires Reserves(lens.front(At(m, run, n)), lens.step(run[n]), k)
    requires NotReached(lens, w, run, n, until)
    ensures |OthersFailed(m, lens, run, p + 1, n, k)| >= w.config.maxsize
  {
    EmbedsLogs(m, inv, lens, w);
    LoggedFrom(m, inv, Records(lens), run, p, n, Recorder(lens));
    ClockBelow(m, inv, lens, w, run, n, until);
    Invariant(m, inv, run, n);
    ReservedDespite(w.config, lens.front(At(m, run, n)), lens.step(run[n]).value, Records(lens)(At(m, run, p)),
                    k, until, Emitted(m, run, p + 1, n, Recorder(lens)));
  }

  lemma SplitOthers(before: seq<(Key, Time)>, k: Key, until: Time, e: seq<(Key, Time)>)
    ensures Revalidation.OthersSince(before + [(k, until)] + e, |before|) == KeysOf(e) - {k}
  {
    var all := before + [(k, until)] + e;
    assert forall i | 0 <= i < |e| :: all[|before| + 1 + i] == e[i];
    assert forall i | |before| < i < |all| :: all[i] == e[i - |before| - 1];
  }

  lemma ReservedDespite(c: Revalidation.Config, f: Front.State, l: Front.Label, before: seq<(Key, Time)>,
                        k: Key, until: Time, e: seq<(Key, Time)>)
    requires Front.Inv(c, f) && f.reval.records == before + [(k, until)] + e
    requires Reserves(f, Some(l), k) && f.reval.clock < until
    ensures |KeysOf(e) - {k}| >= c.maxsize
  {
    SplitOthers(before, k, until, e);
    assert f.reval.records[|before|] == (k, until);
    Revalidation.BackoffSafety(c, f.reval, |before|, f.callers[l.i].pc.now);
  }

  /** A step of the shared half records exactly that. */
  lemma FrontRecords(c: Revalidation.Config, f: Front.State, l: Front.Label)
    requires Front.Enabled(f, l)
    ensures Front.Next(c, f, l).reval.records == f.reval.records + Recorded(f, Some(l))
  {
  }

  // Failures are recorded

  /** The step is job `j`'s factory, or its write to the cache, raising `e`. */
  predicate JobFails(l: Option<Front.Label>, j: nat, e: Exc) {
    match l
    case Some(JobStep(RunFactory(x, Raises(error)))) => x == j && error == e
    case Some(JobStep(Write(x, Some(error)))) => x == j && error == e
    case _ => false
  }

  /** How a failing job goes on, and by which step. */
  lemma FailingMoves(c: Revalidation.Config, f: Front.State, l: Option<Front.Label>, f': Front.State, j: nat)
    requires Front.Moves(c, f, l, f') && j < |f.reval.jobs| && !f.reval.jobs[j].stage.Reserved?
    requires j < |f'.reval.jobs| ==> f'.reval.jobs[j] != f.reval.jobs[j]
    ensures j < |f'.reval.jobs| && Moved(l, j)
    ensures match f.reval.jobs[j].stage
            case Failed(e) =>
              && l.value.l.ReadUntil?
              && f'.reval.jobs[j] == f.reval.jobs[j].(stage := Revalidation.Recording(e, l.value.l.t + c.wait))
            case Recording(e, until) =>
              && Recorded(f, l) == [(f.reval.jobs[j].key, until)]
              && f'.reval.jobs[j] == f.reval.jobs[j].(stage := Revalidation.Hooking(e))
            case Hooking(e) => l.value.l.Hook?
            case _ => true
  {
    OwnStep(c, f, l, f', j);
  }

  lemma FailsStage(c: Revalidation.Config, f: Front.State, l: Option<Front.Label>, f': Front.State, j: nat, e: Exc)
    requires Front.Moves(c, f, l, f') && JobFails(l, j, e)
    ensures j < |f.reval.jobs| && j < |f'.reval.jobs|
    ensures f'.reval.jobs[j] == Revalidation.Job(f.reval.jobs[j].key, Revalidation.Failed(e))
  {
  }

  /** A failed job reads the clock and goes on to record. */
  lemma ReadsUntil<S(!new), L(!new)>(m: Machine<S, L>, inv: S -> bool, lens: Lens<S, L>, w: Front.World,
                                     run: seq<L>, a: nat, n: nat, j: nat, k: Key, e: Exc)
    returns (r: nat, t: Time)
    requires Embeds(m, inv, lens, w) && Valid(m, run) && a <= n <= |run|
    requires JobIs(lens, j, k, Revalidation.Failed(e))(At(m, run, a))
    requires JobIs(lens, j, k, Revalidation.Finished)(At(m, run, n))
    ensures a <= r < n && lens.step(run[r]) == Some(Front.JobStep(Revalidation.ReadUntil(j, t)))
    ensures JobIs(lens, j, k, Revalidation.Recording(e, t + w.config.wait))(At(m, run, r + 1))
  {
    r := LeavesStage(m, inv, lens, w, run, a, n, j, k, Revalidation.Failed(e));
    FailingMoves(w.config, lens.front(At(m, run, r)), lens.step(run[r]), lens.front(At(m, run, r + 1)), j);
    t := lens.step(run[r]).value.l.t;
  }

  /** A recording job records, and goes on to the hook. */
  lemma RecordsUntil<S(!new), L(!new)>(m: Machine<S, L>, inv: S -> bool, lens: Lens<S, L>, w: Front.World,
                                       run: seq<L>, a: nat, n: nat, j: nat, k: Key, e: Exc, until: Time)
    returns (q: nat)
    requires Embeds(m, inv, lens, w) && Valid(m, run) && a <= n <= |run|
    requires JobIs(lens, j, k, Revalidation.Recording(e, until))(At(m, run, a))
    requires JobIs(lens, j, k, Revalidation.Finished)(At(m, run, n))
    ensures a <= q < n && Recorder(lens)(At(m, run, q), run[q]) == [(k, until)]
    ensures JobIs(lens, j, k, Revalidation.Hooking(e))(At(m, run, q + 1))
  {
    q := LeavesStage(m, inv, lens, w, run, a, n, j, k, Revalidation.Recording(e, until));
    FailingMoves(w.config, lens.front(At(m, run, q)), lens.step(run[q]), lens.front(At(m, run, q + 1)), j);
  }

  lemma CallsHook<S(!new), L(!new)>(m: Machine<S, L>, inv: S -> bool, lens: Lens<S, L>, w: Front.World,
                                    run: seq<L>, a: nat, n: nat, j: nat, k: Key, e: Exc)
    returns (h: nat)
    requires Embeds(m, inv, lens, w) && Valid(m, run) && a <= n <= |run|
    requires JobIs(lens, j, k, Revalidation.Hooking(e))(At(m, run, a))
    requires JobIs(lens, j, k, Revalidation.Finished)(At(m, run, n))
    ensures a <= h < n && lens.step(run[h]) == Some(Front.JobStep(Revalidation.Hook(j)))
    ensures JobIs(lens, j, k, Revalidation.Hooking(e))(At(m, run, h))
  {
    h := LeavesStage(m, inv, lens, w, run, a, n, j, k, Revalidation.Hooking(e));
    FailingMoves(w.config, lens.front(At(m, run, h)), lens.step(run[h]), lens.front(At(m, run, h + 1)), j);
  }

  lemma FailsThere<S(!new), L(!new)>(m: Machine<S, L>, inv: S -> bool, lens: Lens<S, L>, w: Front.World,
                                     run: seq<L>, a: nat, n: nat, j: nat, k: Key, e: Exc)
    requires Embeds(m, inv, lens, w) && Valid(m, run) && a < n <= |run| && JobFails(lens.step(run[a]), j, e)
    requires JobIs(lens, j, k, Revalidation.Finished)(At(m, run, n))
    ensures JobIs(lens, j, k, Revalidation.Failed(e))(At(m, run, a + 1))
  {
    StepMoves(m, inv, lens, w, run, a);
    FailsStage(w.config, lens.front(At(m, run, a)), lens.step(run[a]), lens.front(At(m, run, a + 1)), j, e);
    KeyLasts(m, inv, lens, w, run, a + 1, n, j);
  }

  /** A job for `k` whose factory or write raised `e` in step `a` and which has finished after
      `n` steps has in between, in this order, read the clock, recorded a backoff of `k` until
      `wait` after that reading, and called the error hook with `e`. */
  lemma FailureRecords<S(!new), L(!new)>(m: Machine<S, L>, inv: S -> bool, lens: Lens<S, L>, w: Front.World,
                                         run: seq<L>, a: nat, n: nat, j: nat, k: Key, e: Exc)
    returns (r: nat, t: Time, q: nat, h: nat)
    requires Embeds(m, inv, lens, w) && Valid(m, run) && a < n <= |run| && JobFails(lens.step(run[a]), j, e)
    requires JobIs(lens, j, k, Revalidation.Finished)(At(m, run, n))
    ensures a < r < q < h < n && lens.step(run[r]) == Some(Front.JobStep(Revalidation.ReadUntil(j, t)))
    ensures Recorder(lens)(At(m, run, q), run[q]) == [(k, t + w.config.wait)]
    ensures lens.step(run[h]) == Some(Front.JobStep(Revalidation.Hook(j)))
    ensures JobIs(lens, j, k, Revalidation.Hooking(e))(At(m, run, h))
  {
    FailsThere(m, inv, lens, w, run, a, n, j, k, e);
    r, t := ReadsUntil(m, inv, lens, w, run, a + 1, n, j, k, e);
    q := RecordsUntil(m, inv, lens, w, run, r + 1, n, j, k, e, t + w.config.wait);
    h := CallsHook(m, inv, lens, w, run, q + 1, n, j, k, e);
  }
}
