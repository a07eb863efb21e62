/** The half both single-flight machines share, over whole runs of any machine built on it:
    what each pass of a call through `get_or_create_detailed` found decides how it goes on. */
module FrontRuns {
  import opened Basics
  import opened Memory
  import opened Runs
  import Front
  import Revalidation

  /** Where a machine keeps the shared half, and which of its steps are steps of it. */
  datatype Lens<!S, !L> = Lens(front: S -> Front.State, step: L -> Option<Front.Label>)

  /** The machine starts the shared half, keeps its invariant and moves as it does. */
  ghost predicate Embeds<S(!new), L(!new)>(m: Machine<S, L>, inv: S -> bool, lens: Lens<S, L>, w: Front.World) {
    && lens.front(m.start) == Front.Start(w.calls, w.clock)
    && Inductive(m, inv) && (forall s :: inv(s) ==> Front.Inv(w.config, lens.front(s)))
    && forall s, l {:trigger m.next(s, l)} ::
         inv(s) && m.enabled(s, l) ==> Front.Moves(w.config, lens.front(s), lens.step(l), lens.front(m.next(s, l)))
  }

  lemma StepMoves<S(!new), L(!new)>(m: Machine<S, L>, inv: S -> bool, lens: Lens<S, L>, w: Front.World,
                                    run: seq<L>, n: nat)
    requires Embeds(m, inv, lens, w) && Valid(m, run) && n < |run|
    ensures Front.Inv(w.config, lens.front(At(m, run, n)))
    ensures Front.Moves(w.config, lens.front(At(m, run, n)), lens.step(run[n]), lens.front(At(m, run, n + 1)))
  {
    Invariant(m, inv, run, n);
    assert m.enabled(At(m, run, n), run[n]);
  }

  function Never<S, L>(): (S, L) -> bool {
    (s: S, l: L) => false
  }

  // Passes

  /** One pass of a call: what its lookup did, and the reading at which it judged what it found. */
  datatype Pass = Pass(out: Front.Lookup, judged: Option<Time>) {
    predicate FoundFresh() {
      out.Found? && judged.Some? && judged.value - out.env.createdAt < out.env.softTtl
    }

    predicate FoundStale() {
      out.Found? && judged.Some? && judged.value - out.env.createdAt >= out.env.softTtl
    }
  }

  function NextPasses(ps: seq<Pass>, l: Option<Front.Label>, i: nat): seq<Pass> {
    match l
    case Some(LookUp(x, out)) => if x == i then ps + [Pass(out, None)] else ps
    case Some(Judge(x, now)) =>
      if x == i && ps != [] then ps[|ps| - 1 := ps[|ps| - 1].(judged := Some(now))] else ps
    case _ => ps
  }

  /** The passes call `i` has begun in the first `n` steps: read off the labels alone. */
  function Passes<S, L>(lens: Lens<S, L>, run: seq<L>, n: nat, i: nat): seq<Pass>
    requires n <= |run|
  {
    if n == 0 then [] else NextPasses(Passes(lens, run, n - 1, i), lens.step(run[n - 1]), i)
  }

  /** Blocked, about to start over, or ended by the blocking half, with this `was_stale`. */
  predicate Blocks(pc: Front.Pc, wasStale: bool) {
    || pc == Front.Blocked(wasStale)
    || pc == Front.Looking(Front.Block, Some(wasStale))
    || (pc.Done? && (pc.fin.Gave? ==> pc.fin.result.wasStale == wasStale && !pc.fin.result.revalidating))
  }

  /** Between judging and returning `env` as a stale value, or just having returned it. */
  predicate Schedules(pc: Front.Pc, env: Envelope<Value>) {
    || ((pc.Clocking? || pc.Reserving? || pc.Submitting? || pc.Returning?) && pc.env == env)
    || (pc.Done? && pc.fin.Gave? && pc.fin.result.value == env.value && pc.fin.result.wasStale)
  }

  /** Where its last pass has taken a call. A broken lookup raises; a fresh entry is returned
      whatever the policy; a miss blocks, and so does a stale entry under BLOCK or once the call
      has started over; on the first pass SERVE returns a stale entry and REVALIDATE schedules.
      Whatever is returned is marked stale if and only if the first pass found it so. */
  predicate Fits(caller: Front.Caller, ps: seq<Pass>) {
    if ps == [] then caller.pc == Front.Looking(caller.call.policy, None)
    else
      var pc, policy, p, wasStale := caller.pc, caller.call.policy, ps[|ps| - 1], ps[0].FoundStale();
      && (p.out.Broken? ==> pc == Front.Done(Front.Threw(p.out.error)))
      && (p.out.Found? && p.judged == None ==>
            pc == if |ps| == 1 then Front.Judging(policy, None, p.out.env)
                  else Front.Judging(Front.Block, Some(wasStale), p.out.env))
      && (p.FoundFresh() ==> pc == Front.Done(Front.Gave(Front.Result(p.out.env.value, wasStale, false))))
      && (p.out.Miss? || (p.FoundStale() && (policy.Block? || |ps| > 1)) ==> Blocks(pc, wasStale))
      && (p.FoundStale() && policy.Serve? && |ps| == 1 ==>
            pc == Front.Done(Front.Gave(Front.Result(p.out.env.value, true, false))))
      && (p.FoundStale() && policy.Revalidate? && |ps| == 1 ==> Schedules(pc, p.out.env))
      && (forall x | 0 <= x < |ps| - 1 :: WentOn(policy, ps, x))
  }

  /** Pass `x` blocked. */
  predicate WentOn(policy: Front.StalePolicy, ps: seq<Pass>, x: nat)
    requires x < |ps|
  {
    ps[x].out.Miss? || (ps[x].FoundStale() && (policy.Block? || x > 0))
  }

  lemma FitsStep(c: Revalidation.Config, f: Front.State, l: Option<Front.Label>, f': Front.State, i: nat, ps: seq<Pass>)
    requires Front.Moves(c, f, l, f') && i < |f.callers| && Fits(f.callers[i], ps)
    ensures i < |f'.callers| && f'.callers[i].call == f.callers[i].call
    ensures Fits(f'.callers[i], NextPasses(ps, l, i))
  {
    var next := NextPasses(ps, l, i);
    if ps != [] && |next| > |ps| {
      LooksAgain(f.callers[i], ps);
    }
    forall x | 0 <= x < |next| - 1 ensures WentOn(f.callers[i].call.policy, next, x) {
      if x < |ps| - 1 {
        assert WentOn(f.callers[i].call.policy, ps, x);
      }
    }
  }

  /** A call inside the blocking half, or about to look up once more, got there by a miss or by
      a stale entry it may not serve. */
  lemma LooksAgain(caller: Front.Caller, ps: seq<Pass>)
    requires Fits(caller, ps) && ps != [] && (caller.pc.Looking? || caller.pc.Blocked?)
    ensures WentOn(caller.call.policy, ps, |ps| - 1) && Blocks(caller.pc, ps[0].FoundStale())
  {
  }

  /** At every moment of every run each call stands where its passes have taken it. */
  lemma {:induction false} FitsAt<S(!new), L(!new)>(m: Machine<S, L>, inv: S -> bool, lens: Lens<S, L>, w: Front.World,
                                                    run: seq<L>, n: nat, i: nat)
    requires Embeds(m, inv, lens, w) && Valid(m, run) && n <= |run| && i < |w.calls|
    ensures var f := lens.front(At(m, run, n));
            && |f.callers| == |w.calls| && f.callers[i].call == w.calls[i]
            && Fits(f.callers[i], Passes(lens, run, n, i))
  {
    if n > 0 {
      FitsAt(m, inv, lens, w, run, n - 1, i);
      StepMoves(m, inv, lens, w, run, n - 1);
      var f, f' := lens.front(At(m, run, n - 1)), lens.front(At(m, run, n));
      FitsStep(w.config, f, lens.step(run[n - 1]), f', i, Passes(lens, run, n - 1, i));
      SameCallers(w.config, f, lens.step(run[n - 1]), f');
    }
  }

  lemma SameCallers(c: Revalidation.Config, f: Front.State, l: Option<Front.Label>, f': Front.State)
    requires Front.Moves(c, f, l, f')
    ensures |f'.callers| == |f.callers|
  {
  }

  // Readings of the monotonic clock

  /** The reading of the monotonic clock a step takes, if it takes one. */
  function Reading(l: Option<Front.Label>): Option<Time> {
    match l
    case Some(ReadClock(_, t)) => Some(t)
    case Some(JobStep(ReadUntil(_, t))) => Some(t)
    case _ => None
  }

  /** No reading among the first `n` steps, nor the one at the start, has reached `until`. */
  ghost predicate NotReached<S, L>(lens: Lens<S, L>, w: Front.World, run: seq<L>, n: nat, until: Time)
    requires n <= |run|
  {
    && w.clock < until
    && forall x | 0 <= x < n && Reading(lens.step(run[x])).Some? :: Reading(lens.step(run[x])).value < until
  }

  lemma {:induction false} ClockBelow<S(!new), L(!new)>(m: Machine<S, L>, inv: S -> bool, lens: Lens<S, L>,
                                                        w: Front.World, run: seq<L>, n: nat, until: Time)
    requires Embeds(m, inv, lens, w) && Valid(m, run) && n <= |run| && NotReached(lens, w, run, n, until)
    ensures lens.front(At(m, run, n)).reval.clock < until
  {
    if n > 0 {
      ClockBelow(m, inv, lens, w, run, n - 1, until);
      StepMoves(m, inv, lens, w, run, n - 1);
      ClockMoves(w.config, lens.front(At(m, run, n - 1)), lens.step(run[n - 1]), lens.front(At(m, run, n)));
    }
  }

  lemma ClockMoves(c: Revalidation.Config, f: Front.State, l: Option<Front.Label>, f': Front.State)
    requires Front.Moves(c, f, l, f')
    ensures f'.reval.clock == if Reading(l).Some? then Reading(l).value else f.reval.clock
  {
  }
}
