/** What a stale policy commits a call to, in the half both single-flight classes share. */
module Policy {
  import opened Basics
  import Front
  import Revalidation

  /** The first pass follows the caller's policy, a re-entry blocks; only Revalidate calls
      reserve, and only they say `revalidating`, of a value that was stale. */
  ghost predicate PolicyOk(caller: Front.Caller) {
    match caller.pc
    case Looking(policy, outer) => policy == if outer.Some? then Front.Block else caller.call.policy
    case Judging(policy, outer, _) => policy == if outer.Some? then Front.Block else caller.call.policy
    case Clocking(_) => caller.call.policy.Revalidate?
    case Reserving(_, _) => caller.call.policy.Revalidate?
    case Submitting(_, _) => caller.call.policy.Revalidate?
    case Returning(_) => caller.call.policy.Revalidate?
    case Blocked(_) => true
    case Done(fin) =>
      fin.Gave? && fin.result.revalidating ==> caller.call.policy.Revalidate? && fin.result.wasStale
  }

  predicate HasReserved(pc: Front.Pc) {
    pc.Submitting? || pc.Returning? || pc.Done?
  }

  /** Who scheduled a job is a Revalidate call that never blocks. */
  ghost predicate SchedulerOk(f: Front.State, j: nat)
    requires j < |f.scheduler|
  {
    var i := f.scheduler[j];
    i < |f.callers| && f.callers[i].call.policy.Revalidate? && HasReserved(f.callers[i].pc)
  }

  /** The calls are those made, each where its policy allows. */
  ghost predicate Obeys(calls: seq<Front.Call>, f: Front.State) {
    && |f.callers| == |calls|
    && (forall i | 0 <= i < |calls| :: f.callers[i].call == calls[i] && PolicyOk(f.callers[i]))
    && (forall j | 0 <= j < |f.scheduler| :: SchedulerOk(f, j))
  }

  lemma ObeysMoves(c: Revalidation.Config, calls: seq<Front.Call>, f: Front.State, l: Option<Front.Label>,
                   f': Front.State)
    requires Obeys(calls, f) && Front.Moves(c, f, l, f')
    ensures Obeys(calls, f')
  {
    forall i | 0 <= i < |calls|
      ensures i < |f'.callers| && f'.callers[i].call == calls[i] && PolicyOk(f'.callers[i])
    {
      CallerMoves(c, f, l, f', i);
    }
    CallersMove(c, f, l, f');
    SchedulersMove(c, f, l, f');
    forall j | 0 <= j < |f'.scheduler| ensures SchedulerOk(f', j) {
      if j < |f.scheduler| {
        assert SchedulerOk(f, j);
        ReservedStays(c, f, l, f', f.scheduler[j]);
      } else {
        assert PolicyOk(f.callers[l.value.i]);
      }
    }
  }

  lemma CallersMove(c: Revalidation.Config, f: Front.State, l: Option<Front.Label>, f': Front.State)
    requires Front.Moves(c, f, l, f')
    ensures |f'.callers| == |f.callers| && f.written <= f'.written
    ensures forall i | 0 <= i < |f.callers| :: f'.callers[i].call == f.callers[i].call
  {
  }

  lemma CallerMoves(c: Revalidation.Config, f: Front.State, l: Option<Front.Label>, f': Front.State, i: nat)
    requires Front.Moves(c, f, l, f') && i < |f.callers| && PolicyOk(f.callers[i])
    ensures i < |f'.callers| && f'.callers[i].call == f.callers[i].call && PolicyOk(f'.callers[i])
  {
  }

  lemma SchedulersMove(c: Revalidation.Config, f: Front.State, l: Option<Front.Label>, f': Front.State)
    requires Front.Moves(c, f, l, f')
    ensures || f'.scheduler == f.scheduler
            || (l.Some? && l.value.Reserve? && f'.scheduler == f.scheduler + [l.value.i]
                && l.value.i < |f.callers| == |f'.callers|
                && f.callers[l.value.i].pc.Reserving? && f'.callers[l.value.i].pc.Submitting?
                && f'.callers[l.value.i].call == f.callers[l.value.i].call)
  {
  }

  lemma ReservedStays(c: Revalidation.Config, f: Front.State, l: Option<Front.Label>, f': Front.State, i: nat)
    requires Front.Moves(c, f, l, f') && i < |f.callers| && HasReserved(f.callers[i].pc)
    ensures i < |f'.callers| && f'.callers[i].call == f.callers[i].call && HasReserved(f'.callers[i].pc)
  {
  }

  /** A call that has ended stays as it is. */
  lemma EndStays(c: Revalidation.Config, f: Front.State, l: Option<Front.Label>, f': Front.State, i: nat)
    requires Front.Moves(c, f, l, f') && i < |f.callers| && f.callers[i].pc.Done?
    ensures i < |f'.callers| && f'.callers[i] == f.callers[i]
  {
  }
}
