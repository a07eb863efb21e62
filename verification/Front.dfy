/** The half of `get_or_create_detailed` that both single-flight classes share: look up,
    judge staleness, and return, schedule a revalidation, or go on to block. What happens
    while a caller is `Blocked` is the business of the machine built on top. */
module Front {
  import opened Basics
  import opened Memory
  import opened Sums
  import Revalidation

  datatype StalePolicy = Block | Serve | Revalidate

  datatype Result = Result(value: Value, wasStale: bool, revalidating: bool)

  /** How a call ends. */
  datatype Fin = Gave(result: Result) | Threw(error: Exc)

  datatype Lookup = Miss | Found(env: Envelope<Value>) | Broken(error: Exc)

  datatype Decision = Answer(result: Result) | Schedule | Regenerate

  function Decide(env: Envelope<Value>, now: Time, policy: StalePolicy): Decision {
    if !env.IsStale(now) then Answer(Result(env.value, false, false))
    else match policy
      case Serve => Answer(Result(env.value, true, false))
      case Revalidate => Schedule
      case Block => Regenerate
  }

  datatype Call = Call(key: Key, policy: StalePolicy, ttl: Option<Time>, softTtl: Option<Time>)

  /** `outer` is None on a call's first pass; when a waiter re-enters `get_or_create` (whose
      policy defaults to Block) it holds the `was_stale` of the outermost call. */
  datatype Pc =
    | Looking(policy: StalePolicy, outer: Option<bool>)
    | Judging(policy: StalePolicy, outer: Option<bool>, env: Envelope<Value>)
    | Clocking(env: Envelope<Value>)
    | Reserving(env: Envelope<Value>, now: Time)
    | Submitting(env: Envelope<Value>, job: nat)
    | Returning(env: Envelope<Value>)  // submitted; the job may be done before the call
    | Blocked(wasStale: bool)
    | Done(fin: Fin)

  /** How a blocked caller's call ends with outcome `out`. */
  function FinOf(out: Outcome, wasStale: bool): Fin {
    match out
    case Returns(v) => Gave(Result(v, wasStale, false))
    case Raises(e) => Threw(e)
  }

  /** The call ended by handing over exactly `out`. */
  predicate Agrees(fin: Fin, out: Outcome) {
    match out
    case Returns(v) => fin.Gave? && fin.result.value == v && !fin.result.revalidating
    case Raises(e) => fin == Threw(e)
  }

  /** The calls made, the constructor's backoff settings, the monotonic clock at the start. */
  datatype World = World(calls: seq<Call>, config: Revalidation.Config, clock: Time)

  function CallsFor(w: World, k: Key): set<nat> {
    set i | 0 <= i < |w.calls| && w.calls[i].key == k
  }

  datatype Caller = Caller(call: Call, pc: Pc)

  /** `scheduler` (who reserved each job) and `written` (every value handed to the inner
      cache's `set`) only remember. */
  datatype State = State(callers: seq<Caller>, reval: Revalidation.State,
                         scheduler: seq<nat>, written: set<(Key, Value)>)

  datatype Label =
    | LookUp(i: nat, out: Lookup)
    | Judge(i: nat, now: Time)
    | ReadClock(i: nat, t: Time)
    | Reserve(i: nat)
    | Submit(i: nat)
    | Return(i: nat)
    | JobStep(l: Revalidation.Label)

  function Start(calls: seq<Call>, clock: Time): (s: State)
    ensures |s.callers| == |calls|
  {
    State(seq(|calls|, i requires 0 <= i < |calls| => Caller(calls[i], Looking(calls[i].policy, None))),
          Revalidation.Start(clock), [], {})
  }

  predicate IsJobStep(l: Revalidation.Label) {
    !l.ReadClock? && !l.TakeReserve? && !l.Submit?
  }

  /** The revalidation step inside a step of this machine, if there is one. */
  function Inner(s: State, l: Label): Option<Revalidation.Label>
    requires !l.JobStep? ==> l.i < |s.callers|
  {
    match l
    case ReadClock(_, t) => Some(Revalidation.ReadClock(t))
    case Reserve(i) =>
      if s.callers[i].pc.Reserving? then
        Some(Revalidation.TakeReserve(s.callers[i].call.key, s.callers[i].pc.now))
      else None
    case Submit(i) =>
      if s.callers[i].pc.Submitting? then Some(Revalidation.Submit(s.callers[i].pc.job)) else None
    case JobStep(rl) => Some(rl)
    case _ => None
  }

  predicate Enabled(s: State, l: Label) {
    && (!l.JobStep? ==> l.i < |s.callers|)
    && (Inner(s, l).Some? ==> Revalidation.Enabled(s.reval, Inner(s, l).value))
    && match l
       case LookUp(i, _) => s.callers[i].pc.Looking?
       case Judge(i, _) => s.callers[i].pc.Judging?
       case ReadClock(i, _) => s.callers[i].pc.Clocking?
       case Reserve(i) => s.callers[i].pc.Reserving?
       case Submit(i) => s.callers[i].pc.Submitting?
       case Return(i) => s.callers[i].pc.Returning?
       case JobStep(rl) => IsJobStep(rl)
  }

  function Goto(s: State, i: nat, pc: Pc): State
    requires i < |s.callers|
  {
    s.(callers := s.callers[i := s.callers[i].(pc := pc)])
  }

  /** Where the acting caller goes. */
  function NextPc(s: State, l: Label): Pc
    requires Enabled(s, l) && !l.JobStep?
  {
    var pc := s.callers[l.i].pc;
    match l
    case LookUp(_, Miss) => Blocked(pc.outer.Some? && pc.outer.value)
    case LookUp(_, Found(env)) => Judging(pc.policy, pc.outer, env)
    case LookUp(_, Broken(e)) => Done(Threw(e))
    case Judge(_, now) =>
      (match Decide(pc.env, now, pc.policy)
       case Answer(r) =>
         Done(Gave(if pc.outer.Some? then Result(r.value, pc.outer.value, false) else r))
       case Schedule => Clocking(pc.env)
       case Regenerate => Blocked(if pc.outer.Some? then pc.outer.value else true))
    case ReadClock(_, t) => Reserving(pc.env, t)
    case Reserve(i) =>
      if Revalidation.Reserve(s.reval.guard, s.callers[i].call.key, pc.now).1
      then Submitting(pc.env, |s.reval.jobs|)
      else Done(Gave(Result(pc.env.value, true, false)))
    case Submit(_) => Returning(pc.env)
    case Return(_) => Done(Gave(Result(pc.env.value, true, true)))
  }

  function Next(c: Revalidation.Config, s: State, l: Label): State
    requires Enabled(s, l)
  {
    var reval := if Inner(s, l).Some? then Revalidation.Next(c, s.reval, Inner(s, l).value) else s.reval;
    match l
    case JobStep(Write(j, _)) =>
      s.(reval := reval, written := s.written + {(s.reval.jobs[j].key, s.reval.jobs[j].stage.value)})
    case JobStep(_) => s.(reval := reval)
    case Reserve(i) =>
      Goto(s, i, NextPc(s, l))
        .(reval := reval,
          scheduler := if NextPc(s, l).Submitting? then s.scheduler + [i] else s.scheduler)
    case _ => Goto(s, l.i, NextPc(s, l)).(reval := reval)
  }

  // Callers and the jobs they reserve

  ghost predicate ReserveInv(s: State) {
    && |s.scheduler| == |s.reval.jobs|
    && (forall i | 0 <= i < |s.callers| && s.callers[i].pc.Reserving? ::
          s.callers[i].pc.now <= s.reval.clock)
    && (forall i | 0 <= i < |s.callers| && s.callers[i].pc.Submitting? ::
          var j := s.callers[i].pc.job;
          j < |s.reval.jobs| && s.reval.jobs[j].stage.Reserved? && s.scheduler[j] == i)
    && (forall j | 0 <= j < |s.reval.jobs| :: ScheduledBy(s, j))
  }

  ghost predicate ScheduledBy(s: State, j: nat)
    requires j < |s.reval.jobs| == |s.scheduler|
  {
    var i := s.scheduler[j];
    && i < |s.callers|
    && s.callers[i].call.key == s.reval.jobs[j].key
    && (s.reval.jobs[j].stage.Reserved? ==>
          s.callers[i].pc.Submitting? && s.callers[i].pc.job == j)
  }

  lemma ReserveStep(c: Revalidation.Config, s: State, l: Label)
    requires ReserveInv(s) && Enabled(s, l)
    ensures ReserveInv(Next(c, s, l))
  {
    var s' := Next(c, s, l);
    match l
    case JobStep(rl) => ReserveStepJob(c, s, rl);
    case Reserve(i) =>
      forall j | 0 <= j < |s'.reval.jobs| ensures ScheduledBy(s', j) {
        assert j < |s.reval.jobs| ==> ScheduledBy(s, j);
      }
    case _ =>
      forall j | 0 <= j < |s'.reval.jobs| ensures ScheduledBy(s', j) {
        assert ScheduledBy(s, j);
      }
  }

  lemma ReserveStepJob(c: Revalidation.Config, s: State, rl: Revalidation.Label)
    requires ReserveInv(s) && Enabled(s, JobStep(rl))
    ensures ReserveInv(Next(c, s, JobStep(rl)))
  {
    var s' := Next(c, s, JobStep(rl));
    JobStepFacts(c, s.reval, rl);
    forall j | 0 <= j < |s'.reval.jobs| ensures ScheduledBy(s', j) {
      assert ScheduledBy(s, j);
    }
  }

  /** A step of a submitted job leaves the number of jobs, their keys and the set of merely
      reserved ones as they were. */
  lemma JobStepFacts(c: Revalidation.Config, r: Revalidation.State, rl: Revalidation.Label)
    requires Revalidation.Enabled(r, rl) && IsJobStep(rl)
    ensures var r' := Revalidation.Next(c, r, rl);
            && |r'.jobs| == |r.jobs| && r'.clock >= r.clock
            && (forall j | 0 <= j < |r.jobs| ::
                  && r'.jobs[j].key == r.jobs[j].key
                  && (r'.jobs[j].stage.Reserved? <==> r.jobs[j].stage.Reserved?))
  {
  }

  // Conservation of revalidations

  /** The call returned a result with `revalidating` set. */
  function SaysRevalidating(k: Key): Caller -> nat {
    (c: Caller) =>
      if c.call.key == k && c.pc.Done? && c.pc.fin.Gave? && c.pc.fin.result.revalidating then 1 else 0
  }

  /** The caller has reserved `k` and its call has not ended. */
  function IsPending(k: Key): Caller -> nat {
    (c: Caller) => if c.call.key == k && (c.pc.Submitting? || c.pc.Returning?) then 1 else 0
  }

  function HasSubmitted(k: Key): Caller -> nat {
    (c: Caller) =>
      if c.call.key == k
         && (c.pc.Returning? || (c.pc.Done? && c.pc.fin.Gave? && c.pc.fin.result.revalidating))
      then 1 else 0
  }

  ghost predicate CountInv(s: State, k: Key) {
    Sum(s.callers, HasSubmitted(k)) == Sum(s.reval.jobs, Revalidation.IsSubmitted(k))
  }

  lemma CountStep(c: Revalidation.Config, s: State, l: Label, k: Key)
    requires ReserveInv(s) && CountInv(s, k) && Enabled(s, l)
    ensures CountInv(Next(c, s, l), k)
  {
    match l
    case JobStep(rl) => CountStepJob(c, s, rl, k);
    case Submit(i) => CountStepSubmit(c, s, i, k);
    case Reserve(i) => CountStepReserve(c, s, i, k);
    case _ => SumUpdate(s.callers, HasSubmitted(k), l.i, Next(c, s, l).callers[l.i]);
  }

  lemma CountStepJob(c: Revalidation.Config, s: State, rl: Revalidation.Label, k: Key)
    requires CountInv(s, k) && Enabled(s, JobStep(rl))
    ensures CountInv(Next(c, s, JobStep(rl)), k)
  {
    JobStepFacts(c, s.reval, rl);
    var jobs := Revalidation.Next(c, s.reval, rl).jobs;
    assert jobs == s.reval.jobs[rl.j := jobs[rl.j]];
    SumUpdate(s.reval.jobs, Revalidation.IsSubmitted(k), rl.j, jobs[rl.j]);
  }

  lemma CountStepSubmit(c: Revalidation.Config, s: State, i: nat, k: Key)
    requires ReserveInv(s) && CountInv(s, k) && Enabled(s, Submit(i))
    ensures CountInv(Next(c, s, Submit(i)), k)
  {
    var j, s' := s.callers[i].pc.job, Next(c, s, Submit(i));
    assert ScheduledBy(s, j);
    SumUpdate(s.callers, HasSubmitted(k), i, s'.callers[i]);
    SumUpdate(s.reval.jobs, Revalidation.IsSubmitted(k), j, s'.reval.jobs[j]);
  }

  lemma CountStepReserve(c: Revalidation.Config, s: State, i: nat, k: Key)
    requires CountInv(s, k) && Enabled(s, Reserve(i))
    ensures CountInv(Next(c, s, Reserve(i)), k)
  {
    var s' := Next(c, s, Reserve(i));
    SumUpdate(s.callers, HasSubmitted(k), i, s'.callers[i]);
    if NextPc(s, Reserve(i)).Submitting? {
      SumAppend(s.reval.jobs, Revalidation.IsSubmitted(k), s'.reval.jobs[|s.reval.jobs|]);
    }
  }

  ghost predicate Inv(c: Revalidation.Config, s: State) {
    Revalidation.Inv(c, s.reval) && ReserveInv(s) && forall k :: CountInv(s, k)
  }

  lemma {:induction false} InvStart(c: Revalidation.Config, calls: seq<Call>, clock: Time)
    ensures Inv(c, Start(calls, clock))
  {
    forall k ensures CountInv(Start(calls, clock), k) {
      SumBound(Start(calls, clock).callers, HasSubmitted(k), 0);
    }
    Revalidation.InvStart(c, clock);
  }

  lemma InvStep(c: Revalidation.Config, s: State, l: Label)
    requires Inv(c, s) && Enabled(s, l)
    ensures Inv(c, Next(c, s, l))
  {
    ReserveStep(c, s, l);
    forall k ensures CountInv(Next(c, s, l), k) {
      CountStep(c, s, l, k);
    }
    if Inner(s, l).Some? {
      Revalidation.InvStep(c, s.reval, Inner(s, l).value);
    }
  }

  /** What the blocking half may do with a caller: end its call, or send it round again. */
  predicate Exit(pc: Pc) {
    pc.Looking? || (pc.Done? && (pc.fin.Gave? ==> !pc.fin.result.revalidating))
  }

  /** How a machine built on this half moves it: as `Next` does, in one of its steps, or by
      ending a blocked call or sending it round again as a BLOCK call, its `was_stale` kept. */
  ghost predicate Moves(c: Revalidation.Config, s: State, l: Option<Label>, s': State) {
    match l
    case Some(fl) => Enabled(s, fl) && s' == Next(c, s, fl)
    case None =>
      && s'.reval == s.reval && s'.scheduler == s.scheduler && s.written <= s'.written
      && |s'.callers| == |s.callers|
      && forall i | 0 <= i < |s.callers| :: s'.callers[i] == s.callers[i] || Leaves(s.callers[i], s'.callers[i])
  }

  predicate Leaves(before: Caller, after: Caller) {
    && before.pc.Blocked? && after.call == before.call && Exit(after.pc)
    && (after.pc.Looking? ==> after.pc == Looking(Block, Some(before.pc.wasStale)))
    && (after.pc.Done? && after.pc.fin.Gave? ==> after.pc.fin.result.wasStale == before.pc.wasStale)
  }

  lemma InvExit(c: Revalidation.Config, s: State, i: nat, pc: Pc)
    requires Inv(c, s) && i < |s.callers| && s.callers[i].pc.Blocked? && Exit(pc)
    ensures Inv(c, Goto(s, i, pc))
  {
    forall k ensures CountInv(Goto(s, i, pc), k) {
      assert CountInv(s, k);
      SumUpdate(s.callers, HasSubmitted(k), i, s.callers[i].(pc := pc));
    }
    forall j | 0 <= j < |s.reval.jobs| ensures ScheduledBy(Goto(s, i, pc), j) {
      assert ScheduledBy(s, j);
    }
  }

  lemma InvWritten(c: Revalidation.Config, s: State, written: set<(Key, Value)>)
    requires Inv(c, s)
    ensures Inv(c, s.(written := written))
  {
    forall k ensures CountInv(s.(written := written), k) {
      assert CountInv(s, k);
    }
    forall j | 0 <= j < |s.reval.jobs| ensures ScheduledBy(s.(written := written), j) {
      assert ScheduledBy(s, j);
    }
  }

  /** Per key: results that said `revalidating`, plus calls between their reservation and
      their return, minus finished jobs, is one exactly while the key is regenerating. */
  lemma RevalidationConserved(c: Revalidation.Config, s: State, k: Key)
    requires Inv(c, s)
    ensures Sum(s.callers, SaysRevalidating(k)) + Sum(s.callers, IsPending(k)) ==
            Sum(s.reval.jobs, Revalidation.IsFinished(k)) +
            (if k in s.reval.guard.regenerating then 1 else 0)
  {
    Revalidation.Conservation(s.reval, k);
    assert CountInv(s, k);
    SumSplit(s.callers, SaysRevalidating(k), IsPending(k), HasSubmitted(k), IsSubmitting(k));
    SubmittersHoldJobs(c, s, k);
  }

  /** A key has a reserved job exactly while one caller is about to submit it. */
  lemma SubmittersHoldJobs(c: Revalidation.Config, s: State, k: Key)
    requires Inv(c, s)
    ensures Sum(s.callers, IsSubmitting(k)) == Sum(s.reval.jobs, Revalidation.IsReserved(k))
  {
    if i :| 0 <= i < |s.callers| && s.callers[i].call.key == k && s.callers[i].pc.Submitting? {
      var j := s.callers[i].pc.job;
      assert ScheduledBy(s, j);
      forall x | 0 <= x < |s.callers| && s.callers[x].call.key == k && s.callers[x].pc.Submitting?
        ensures x == i
      {
        assert ScheduledBy(s, s.callers[x].pc.job);
        Revalidation.OneJobPerKey(s.reval, j, s.callers[x].pc.job);
      }
      SumAtMostOne(s.callers, IsSubmitting(k), i);
      SumAtMostOne(s.reval.jobs, Revalidation.IsReserved(k), j);
    } else {
      SumAtMostOne(s.callers, IsSubmitting(k), -1);
      forall x | 0 <= x < |s.reval.jobs| ensures Revalidation.IsReserved(k)(s.reval.jobs[x]) == 0 {
        assert ScheduledBy(s, x);
        var i := s.scheduler[x];
        assert !(s.callers[i].call.key == k && s.callers[i].pc.Submitting?);
      }
      SumAtMostOne(s.reval.jobs, Revalidation.IsReserved(k), -1);
    }
  }

  /** The caller has reserved `k` but not yet submitted the job. */
  function IsSubmitting(k: Key): Caller -> nat {
    (c: Caller) => if c.call.key == k && c.pc.Submitting? then 1 else 0
  }

  // Progress and cost

  /** A step of caller `i` of this half, whatever the lookup would return. */
  function StepOf(s: State, i: nat, out: Lookup): Label
    requires i < |s.callers|
  {
    match s.callers[i].pc
    case Looking(_, _) => LookUp(i, out)
    case Judging(_, _, _) => Judge(i, 0.0)
    case Clocking(_) => ReadClock(i, s.reval.clock)
    case Reserving(_, _) => Reserve(i)
    case Returning(_) => Return(i)
    case _ => Submit(i)
  }

  /** A step of job `j`, whatever its factory would return. */
  function StepOfJob(s: State, j: nat, out: Outcome): Label
    requires j < |s.reval.jobs|
  {
    match s.reval.jobs[j].stage
    case Running => JobStep(Revalidation.RunFactory(j, out))
    case Writing(_) => JobStep(Revalidation.Write(j, None))
    case Failed(_) => JobStep(Revalidation.ReadUntil(j, s.reval.clock))
    case Recording(_, _) => JobStep(Revalidation.RecordStep(j))
    case Hooking(_) => JobStep(Revalidation.Hook(j))
    case _ => JobStep(Revalidation.ReleaseStep(j))
  }

  lemma CallerCanStep(c: Revalidation.Config, s: State, i: nat, out: Lookup)
    requires Inv(c, s) && i < |s.callers| && !s.callers[i].pc.Blocked? && !s.callers[i].pc.Done?
    ensures Enabled(s, StepOf(s, i, out))
  {
  }

  lemma JobCanStep(c: Revalidation.Config, s: State, j: nat, out: Outcome, found: Lookup)
    requires Inv(c, s) && j < |s.reval.jobs| && !s.reval.jobs[j].stage.Finished?
    ensures s.reval.jobs[j].stage.Reserved? ==>
              s.scheduler[j] < |s.callers| && Enabled(s, StepOf(s, s.scheduler[j], found))
    ensures !s.reval.jobs[j].stage.Reserved? ==> Enabled(s, StepOfJob(s, j, out))
  {
    assert ScheduledBy(s, j);
  }

  /** Steps left before the call ends or blocks; `b` pays for what blocking costs. */
  function CallerRank(b: nat): Caller -> nat {
    (c: Caller) =>
      match c.pc
      case Looking(policy, _) => if policy.Revalidate? && b < 10 then 12 else b + 2
      case Judging(policy, _, _) => if policy.Revalidate? then 11 else b + 1
      case Clocking(_) => 10
      case Reserving(_, _) => 9
      case Submitting(_, _) => 2
      case Returning(_) => 1
      case _ => 0
  }

  function JobRank(): Revalidation.Job -> nat {
    (j: Revalidation.Job) =>
      match j.stage
      case Reserved => 6
      case Running => 6
      case Writing(_) => 5
      case Failed(_) => 4
      case Recording(_, _) => 3
      case Hooking(_) => 2
      case Releasing => 1
      case Finished => 0
  }

  function Rank(s: State, b: nat): nat {
    Sum(s.callers, CallerRank(b)) + Sum(s.reval.jobs, JobRank())
  }

  /** Every step lowers the rank, and one that blocks its caller leaves `b` over. */
  lemma RankStep(c: Revalidation.Config, s: State, l: Label, b: nat)
    requires Enabled(s, l) && 4 <= b < 10
    ensures Rank(Next(c, s, l), b) + 1
            + (if !l.JobStep? && Next(c, s, l).callers[l.i].pc.Blocked? then b else 0) <= Rank(s, b)
  {
    match l
    case JobStep(rl) => RankStepJob(c, s.reval, rl);
    case Submit(i) => RankStepSubmit(c, s, i, b);
    case Reserve(i) => RankStepReserve(c, s, i, b);
    case _ => RankStepCaller(c, s, l, b);
  }

  lemma RankStepCaller(c: Revalidation.Config, s: State, l: Label, b: nat)
    requires Enabled(s, l) && 4 <= b < 10 && !l.JobStep? && !l.Submit? && !l.Reserve?
    ensures Rank(Next(c, s, l), b) + 1
            + (if Next(c, s, l).callers[l.i].pc.Blocked? then b else 0) <= Rank(s, b)
  {
    SumUpdate(s.callers, CallerRank(b), l.i, Next(c, s, l).callers[l.i]);
  }

  lemma RankStepSubmit(c: Revalidation.Config, s: State, i: nat, b: nat)
    requires Enabled(s, Submit(i))
    ensures Rank(Next(c, s, Submit(i)), b) + 1 <= Rank(s, b) && !Next(c, s, Submit(i)).callers[i].pc.Blocked?
  {
    var s', j := Next(c, s, Submit(i)), s.callers[i].pc.job;
    SumUpdate(s.callers, CallerRank(b), i, s'.callers[i]);
    SumUpdate(s.reval.jobs, JobRank(), j, s'.reval.jobs[j]);
  }

  lemma RankStepReserve(c: Revalidation.Config, s: State, i: nat, b: nat)
    requires Enabled(s, Reserve(i))
    ensures Rank(Next(c, s, Reserve(i)), b) + 1 <= Rank(s, b) && !Next(c, s, Reserve(i)).callers[i].pc.Blocked?
  {
    var s' := Next(c, s, Reserve(i));
    SumUpdate(s.callers, CallerRank(b), i, s'.callers[i]);
    if NextPc(s, Reserve(i)).Submitting? {
      SumAppend(s.reval.jobs, JobRank(), s'.reval.jobs[|s.reval.jobs|]);
    }
  }

  lemma RankStepJob(c: Revalidation.Config, r: Revalidation.State, rl: Revalidation.Label)
    requires Revalidation.Enabled(r, rl) && IsJobStep(rl)
    ensures Sum(Revalidation.Next(c, r, rl).jobs, JobRank()) + 1 <= Sum(r.jobs, JobRank())
  {
    var r', j := Revalidation.Next(c, r, rl), rl.j;
    assert r'.jobs == r.jobs[j := r'.jobs[j]];
    SumUpdate(r.jobs, JobRank(), j, r'.jobs[j]);
  }
}
