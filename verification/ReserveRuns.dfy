/** Which REVALIDATE calls get a background job, over whole runs of any machine built on the
    shared half, in terms of its jobs, its backoff table and its records. */
module ReserveRuns {
  import opened Basics
  import opened BackoffRuns
  import opened FrontRuns
  import opened OrderedDict
  import opened Runs
  import Front
  import Revalidation

  /** A job for `k` is reserved or under way. */
  ghost predicate Unfinished(f: Front.State, k: Key) {
    exists j :: 0 <= j < |f.reval.jobs| && f.reval.jobs[j].key == k && !f.reval.jobs[j].stage.Finished?
  }

  /** The backoff table holds a time for `k` that `now` has not reached. */
  ghost predicate InForce(f: Front.State, k: Key, now: Time) {
    exists until :: Entry(k, until) in f.reval.guard.backoff && now < until
  }

  /** Caller `i`, holding `env` and a clock reading `now`, gets a new job for `k` if and only if
      none is unfinished and no backoff is in force; else its call returns the stale value. A
      backoff of `k` not in force is deleted, and no other entry is touched. */
  ghost predicate Decided(f: Front.State, f': Front.State, i: nat, k: Key, now: Time)
    requires i < |f.callers| && f.callers[i].pc.Reserving? && i < |f'.callers|
  {
    var env, pc' := f.callers[i].pc.env, f'.callers[i].pc;
    && (if !Unfinished(f, k) && !InForce(f, k, now) then
          && pc' == Front.Submitting(env, |f.reval.jobs|)
          && f'.reval.jobs == f.reval.jobs + [Revalidation.Job(k, Revalidation.Reserved)]
          && f'.scheduler == f.scheduler + [i]
        else
          && pc' == Front.Done(Front.Gave(Front.Result(env.value, true, false)))
          && f'.reval.jobs == f.reval.jobs && f'.scheduler == f.scheduler)
    && (forall e :: e in f'.reval.guard.backoff <==>
                      e in f.reval.guard.backoff && (e.key == k ==> InForce(f, k, now)))
  }

  lemma HeldUnfinished(f: Front.State, k: Key)
    requires Revalidation.HolderInv(f.reval)
    ensures k in f.reval.guard.regenerating <==> Unfinished(f, k)
  {
    if k in f.reval.guard.regenerating {
      var j := f.reval.holder[k];
      assert f.reval.jobs[j].key == k && !f.reval.jobs[j].stage.Finished?;
    }
  }

  lemma TableInForce(f: Front.State, k: Key, now: Time)
    requires Distinct(f.reval.guard.backoff)
    ensures InForce(f, k, now) <==>
              Find(f.reval.guard.backoff, k).Some? && now < Find(f.reval.guard.backoff, k).value
  {
    var d := f.reval.guard.backoff;
    if until :| Entry(k, until) in d && now < until {
      FindExactly(d, Entry(k, until));
    }
    if Find(d, k).Some? {
      FindExactly(d, Entry(k, Find(d, k).value));
    }
  }

  lemma ReserveDecides(c: Revalidation.Config, f: Front.State, i: nat)
    requires Front.Inv(c, f) && Front.Enabled(f, Front.Reserve(i))
    ensures Decided(f, Front.Next(c, f, Front.Reserve(i)), i, f.callers[i].call.key, f.callers[i].pc.now)
  {
    var k, pc, f' := f.callers[i].call.key, f.callers[i].pc, Front.Next(c, f, Front.Reserve(i));
    HeldUnfinished(f, k);
    TableInForce(f, k, pc.now);
    forall e ensures e in f'.reval.guard.backoff <==>
                       e in f.reval.guard.backoff && (e.key == k ==> InForce(f, k, pc.now))
    {
      TableStays(f.reval.guard.backoff, k, e);
    }
  }

  lemma TableStays<V>(d: Odict<Key, V>, k: Key, e: Entry<Key, V>)
    requires Distinct(d)
    ensures e in Without(d, k) <==> e in d && e.key != k
  {
    FindExactly(d, e);
    FindExactly(Without(d, k), e);
    if e.key != k {
      FindWithout(d, k, e.key);
    }
  }

  // Over runs

  /** Caller `i` has read the clock at `now`, and reads it no more. */
  predicate HasRead(f: Front.State, i: nat, now: Time) {
    i < |f.callers| &&
    match f.callers[i].pc
    case Reserving(_, t) => t == now
    case Submitting(_, _) => true
    case Returning(_) => true
    case Done(_) => true
    case _ => false
  }

  lemma HasReadMoves(c: Revalidation.Config, f: Front.State, l: Option<Front.Label>, f': Front.State, i: nat, now: Time)
    requires Front.Moves(c, f, l, f') && (HasRead(f, i, now) || l == Some(Front.ReadClock(i, now)))
    ensures HasRead(f', i, now)
  {
  }

  lemma {:induction false} ReadBefore<S(!new), L(!new)>(m: Machine<S, L>, inv: S -> bool, lens: Lens<S, L>,
                                                        w: Front.World, run: seq<L>, q: nat, n: nat, i: nat, now: Time)
    requires Embeds(m, inv, lens, w) && Valid(m, run) && q < n <= |run|
    requires lens.step(run[q]) == Some(Front.ReadClock(i, now))
    ensures HasRead(lens.front(At(m, run, n)), i, now)
    decreases n
  {
    StepMoves(m, inv, lens, w, run, n - 1);
    if q < n - 1 {
      ReadBefore(m, inv, lens, w, run, q, n - 1, i, now);
    }
    HasReadMoves(w.config, lens.front(At(m, run, n - 1)), lens.step(run[n - 1]), lens.front(At(m, run, n)), i, now);
  }

  /** A call that has read the clock at `now` and then comes to the lock is decided on by the
      jobs and the table there. */
  lemma ReservesExactly<S(!new), L(!new)>(m: Machine<S, L>, inv: S -> bool, lens: Lens<S, L>, w: Front.World,
                                          run: seq<L>, q: nat, n: nat, i: nat, now: Time)
    requires Embeds(m, inv, lens, w) && Valid(m, run) && q < n < |run| && i < |w.calls|
    requires lens.step(run[q]) == Some(Front.ReadClock(i, now)) && lens.step(run[n]) == Some(Front.Reserve(i))
    ensures var f, f' := lens.front(At(m, run, n)), lens.front(At(m, run, n + 1));
            && i < |f.callers| && f.callers[i].pc.Reserving? && i < |f'.callers|
            && Decided(f, f', i, w.calls[i].key, now)
  {
    ReadBefore(m, inv, lens, w, run, q, n, i, now);
    FitsAt(m, inv, lens, w, run, n, i);
    StepMoves(m, inv, lens, w, run, n);
    ReserveDecides(w.config, lens.front(At(m, run, n)), i);
  }

  /** The backoffs recorded in the first `n` steps. */
  function Recordings<S, L>(m: Machine<S, L>, lens: Lens<S, L>, run: seq<L>, n: nat): seq<(Key, Time)>
    requires n <= |run|
  {
    Emitted(m, run, 0, n, Recorder(lens))
  }

  /** What is in force was recorded. */
  lemma InForceRecorded<S(!new), L(!new)>(m: Machine<S, L>, inv: S -> bool, lens: Lens<S, L>, w: Front.World,
                                          run: seq<L>, n: nat, k: Key, now: Time)
    requires Embeds(m, inv, lens, w) && Valid(m, run) && n <= |run|
    requires InForce(lens.front(At(m, run, n)), k, now)
    ensures exists until :: (k, until) in Recordings(m, lens, run, n) && now < until
  {
    EmbedsLogs(m, inv, lens, w);
    Logged(m, inv, Records(lens), run, 0, n, Recorder(lens));
    Invariant(m, inv, run, n);
    var f := lens.front(At(m, run, n));
    TableInForce(f, k, now);
    assert (k, Find(f.reval.guard.backoff, k).value) in f.reval.records;
    assert Records(lens)(At(m, run, 0)) == [];
  }

  /** A revalidation goes through once every recorded backoff of the key has elapsed and no job
      of it is unfinished. */
  lemma ReservesOnceElapsed<S(!new), L(!new)>(m: Machine<S, L>, inv: S -> bool, lens: Lens<S, L>, w: Front.World,
                                              run: seq<L>, q: nat, n: nat, i: nat, now: Time)
    requires Embeds(m, inv, lens, w) && Valid(m, run) && q < n < |run| && i < |w.calls|
    requires lens.step(run[q]) == Some(Front.ReadClock(i, now)) && lens.step(run[n]) == Some(Front.Reserve(i))
    requires !Unfinished(lens.front(At(m, run, n)), w.calls[i].key)
    requires forall until | (w.calls[i].key, until) in Recordings(m, lens, run, n) :: until <= now
    ensures var f' := lens.front(At(m, run, n + 1)); i < |f'.callers| && f'.callers[i].pc.Submitting?
  {
    ReservesExactly(m, inv, lens, w, run, q, n, i, now);
    if InForce(lens.front(At(m, run, n)), w.calls[i].key, now) {
      InForceRecorded(m, inv, lens, w, run, n, w.calls[i].key, now);
    }
  }

  // What callers are told

  /** Step `n` reserves for call `i`: it has no unfinished job in its way, and no backoff. */
  ghost predicate Goes<S, L>(m: Machine<S, L>, lens: Lens<S, L>, w: Front.World, run: seq<L>, n: nat, i: nat) {
    && n < |run| && i < |w.calls| && lens.step(run[n]) == Some(Front.Reserve(i))
    && var f := lens.front(At(m, run, n));
       && i < |f.callers| && f.callers[i].pc.Reserving?
       && !Unfinished(f, w.calls[i].key) && !InForce(f, w.calls[i].key, f.callers[i].pc.now)
  }

  /** The call has reserved, and will say so or has said so. */
  predicate Scheduling(pc: Front.Pc) {
    pc.Submitting? || pc.Returning? || (pc.Done? && pc.fin.Gave? && pc.fin.result.revalidating)
  }

  function IsScheduling<S, L>(lens: Lens<S, L>, i: nat): S -> bool {
    (s: S) => i < |lens.front(s).callers| && Scheduling(lens.front(s).callers[i].pc)
  }

  lemma SchedulingMoves(c: Revalidation.Config, f: Front.State, l: Option<Front.Label>, f': Front.State, i: nat)
    requires Front.Moves(c, f, l, f') && i < |f.callers|
    ensures i < |f'.callers| && (Scheduling(f.callers[i].pc) ==> Scheduling(f'.callers[i].pc))
    ensures Scheduling(f'.callers[i].pc) && !Scheduling(f.callers[i].pc) ==>
              l == Some(Front.Reserve(i)) && f.callers[i].pc.Reserving? && f'.callers[i].pc.Submitting?
  {
  }

  /** A step that starts a call scheduling is one that goes. */
  lemma StartsScheduling<S(!new), L(!new)>(m: Machine<S, L>, inv: S -> bool, lens: Lens<S, L>, w: Front.World,
                                           run: seq<L>, n: nat, i: nat)
    requires Embeds(m, inv, lens, w) && Valid(m, run) && n < |run| && i < |w.calls|
    requires !IsScheduling(lens, i)(At(m, run, n))
    ensures IsScheduling(lens, i)(At(m, run, n + 1)) <==> Goes(m, lens, w, run, n, i)
  {
    FitsAt(m, inv, lens, w, run, n, i);
    StepMoves(m, inv, lens, w, run, n);
    var f, f' := lens.front(At(m, run, n)), lens.front(At(m, run, n + 1));
    SchedulingMoves(w.config, f, lens.step(run[n]), f', i);
    if lens.step(run[n]) == Some(Front.Reserve(i)) {
      ReserveDecides(w.config, f, i);
    }
  }

  lemma {:induction false} SchedulesExactly<S(!new), L(!new)>(m: Machine<S, L>, inv: S -> bool, lens: Lens<S, L>,
                                                              w: Front.World, run: seq<L>, n: nat, i: nat)
    requires Embeds(m, inv, lens, w) && Valid(m, run) && n <= |run| && i < |w.calls|
    ensures IsScheduling(lens, i)(At(m, run, n)) <==> exists x :: 0 <= x < n && Goes(m, lens, w, run, x, i)
  {
    if n > 0 {
      SchedulesExactly(m, inv, lens, w, run, n - 1, i);
      if IsScheduling(lens, i)(At(m, run, n - 1)) {
        StaysScheduling(m, inv, lens, w, run, n - 1, i);
      } else {
        StartsScheduling(m, inv, lens, w, run, n - 1, i);
      }
    }
  }

  lemma StaysScheduling<S(!new), L(!new)>(m: Machine<S, L>, inv: S -> bool, lens: Lens<S, L>, w: Front.World,
                                          run: seq<L>, n: nat, i: nat)
    requires Embeds(m, inv, lens, w) && Valid(m, run) && n < |run| && IsScheduling(lens, i)(At(m, run, n))
    ensures IsScheduling(lens, i)(At(m, run, n + 1))
  {
    StepMoves(m, inv, lens, w, run, n);
    SchedulingMoves(w.config, lens.front(At(m, run, n)), lens.step(run[n]), lens.front(At(m, run, n + 1)), i);
  }
}
