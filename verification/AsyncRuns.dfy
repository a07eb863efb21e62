/** Whole runs of the async machine: any calls, any keys, any interleaving, any backend. */
module AsyncRuns {
  import opened Basics
  import opened AsyncFlight
  import opened AsyncMachine
  import opened Sums
  import opened Runs
  import Front
  import FrontRuns
  import Revalidation

  type World = Front.World

  function Sys(w: World): Machine<State, Label> {
    Machine(Start(w.calls, w.clock), Enabled,
            (s: State, l: Label) => if Enabled(s, l) then Next(w.config, s, l) else s)
  }

  ghost predicate Inv(c: Revalidation.Config, s: State) {
    Shape(s) && Front.Inv(c, s.front) && LeadInv(s) && MadeInv(s) && GenerationInv(s)
  }

  lemma FrontInvStep(c: Revalidation.Config, s: State, l: Label)
    requires Shape(s) && Front.Inv(c, s.front) && Enabled(s, l)
    ensures Front.Inv(c, Next(c, s, l).front)
  {
    match l
    case FrontStep(fl) => Front.InvStep(c, s.front, fl);
    case Resume(i) => Front.InvExit(c, s.front, i, Next(c, s, l).front.callers[i].pc);
    case Pop(i) => Front.InvExit(c, s.front, i, Next(c, s, l).front.callers[i].pc);
    case Write(i, _) => Front.InvWritten(c, s.front, Next(c, s, l).front.written);
    case _ =>
  }

  /** The invariants hold and the calls are the calls made. */
  ghost predicate Good(w: World, s: State) {
    && Inv(w.config, s)
    && |s.pcs| == |w.calls|
    && (forall i | 0 <= i < |w.calls| :: KeyOf(s, i) == w.calls[i].key)
  }

  ghost function IsGood(w: World): State -> bool {
    s => Good(w, s)
  }

  lemma GoodStep(w: World, s: State, l: Label)
    requires Good(w, s) && Enabled(s, l)
    ensures Good(w, Next(w.config, s, l))
  {
    ShapeStep(w.config, s, l);
    FrontInvStep(w.config, s, l);
    LeadStep(w.config, s, l);
    MadeStep(w.config, s, l);
    GenerationStep(w.config, s, l);
  }

  lemma GoodInductive(w: World)
    ensures Inductive(Sys(w), IsGood(w))
  {
    Front.InvStart(w.config, w.calls, w.clock);
    forall s, l | Good(w, s) && Enabled(s, l) ensures Good(w, Next(w.config, s, l)) {
      GoodStep(w, s, l);
    }
  }

  /** The shared half inside this machine. */
  function FrontLens(): FrontRuns.Lens<State, Label> {
    FrontRuns.Lens((s: State) => s.front, (l: Label) => FrontStepOf(l))
  }

  lemma SysEmbeds(w: World)
    ensures FrontRuns.Embeds(Sys(w), IsGood(w), FrontLens(), w)
  {
    GoodInductive(w);
    forall s, l | Good(w, s) && Enabled(s, l)
      ensures Front.Moves(w.config, s.front, FrontLens().step(l), Next(w.config, s, l).front)
    {
      FrontMoves(w.config, s, l);
    }
  }

  lemma GoodAt(w: World, run: seq<Label>, n: nat)
    requires Valid(Sys(w), run) && n <= |run|
    ensures Good(w, At(Sys(w), run, n))
  {
    GoodInductive(w);
    Invariant(Sys(w), IsGood(w), run, n);
  }

  // Generation agreement

  /** Every caller that joined or led future `fut` and has ended, ended with exactly the
      outcome of the leader's own factory call; two of them ended alike. */
  ghost predicate Agreement(s: State, fut: nat)
    requires Shape(s)
  {
    forall i: nat | i < |s.pcs| && s.hist.joined[i] == Some(fut) && Ended(s, i) ::
      && IsDone(s, fut)
      && s.hist.owner[fut] < |s.pcs|
      && s.hist.made[s.hist.owner[fut]] == s.flight.futures[fut]
      && Front.Agrees(s.front.callers[i].pc.fin, s.flight.futures[fut].value)
  }

  lemma GenerationAgreement(w: World, run: seq<Label>, n: nat, fut: nat)
    requires Valid(Sys(w), run) && n <= |run|
    ensures Shape(At(Sys(w), run, n)) && Agreement(At(Sys(w), run, n), fut)
  {
    GoodAt(w, run, n);
    GenerationAgrees(w.config, At(Sys(w), run, n), fut);
  }

  lemma GenerationAgrees(c: Revalidation.Config, s: State, fut: nat)
    requires Inv(c, s)
    ensures Agreement(s, fut)
  {
    forall i: nat | i < |s.pcs| && s.hist.joined[i] == Some(fut) && Ended(s, i)
      ensures && IsDone(s, fut)
              && s.hist.owner[fut] < |s.pcs|
              && s.hist.made[s.hist.owner[fut]] == s.flight.futures[fut]
              && Front.Agrees(s.front.callers[i].pc.fin, s.flight.futures[fut].value)
    {
      assert MemberOk(s, i);
      assert FutureOk(s, fut);
    }
  }

  /** The step resolves future `fut`. */
  function IsResolution(fut: nat): (State, Label) -> bool {
    (s: State, l: Label) =>
      l.Resolve? && l.i < |s.pcs| && s.pcs[l.i].Resolving? && s.pcs[l.i].fut == fut
  }

  function Resolutions(fut: nat): State -> nat {
    (s: State) => if IsDone(s, fut) then 1 else 0
  }

  /** Over any run a future is resolved at most once (so `set_result` never finds it done),
      and exactly once by the time its leader's call has ended. */
  lemma ResolvedOnce(w: World, run: seq<Label>, fut: nat)
    requires Valid(Sys(w), run)
    ensures Count(Sys(w), run, |run|, IsResolution(fut)) <= 1
    ensures var s := At(Sys(w), run, |run|);
            forall i: nat | i < |s.pcs| == |s.front.callers| && i < |s.hist.joined|
                            && s.hist.joined[i] == Some(fut) && Ended(s, i) ::
              Count(Sys(w), run, |run|, IsResolution(fut)) == 1
  {
    ResolutionsCounted(w, run, fut);
    GenerationAgreement(w, run, |run|, fut);
  }

  lemma ResolutionsCounted(w: World, run: seq<Label>, fut: nat)
    requires Valid(Sys(w), run)
    ensures Count(Sys(w), run, |run|, IsResolution(fut)) == Resolutions(fut)(At(Sys(w), run, |run|))
  {
    GoodInductive(w);
    forall s, l | Good(w, s) && Enabled(s, l)
      ensures Resolutions(fut)(Next(w.config, s, l)) ==
              Resolutions(fut)(s) + (if IsResolution(fut)(s, l) then 1 else 0)
    {
      FuturesStep(w.config, s, l);
    }
    Counted(Sys(w), IsGood(w), Resolutions(fut), run, |run|, IsResolution(fut));
  }

  // Exclusion

  predicate LeadsKey(s: State, i: nat, k: Key)
    requires Shape(s)
  {
    i < |s.pcs| && KeyOf(s, i) == k && Leads(s.pcs[i]).Some?
  }

  /** Task `j` has been created for `k` and its factory has not finished. */
  predicate RunsFor(s: State, j: nat, k: Key)
    requires j < |s.front.reval.jobs|
  {
    s.front.reval.jobs[j].key == k && s.front.reval.jobs[j].stage.Running?
  }

  /** Key `k` is in flight exactly when some caller leads it; only one does, with the
      registered future; one background task at most runs for `k`. */
  ghost predicate Exclusive(s: State, k: Key)
    requires Shape(s)
  {
    && (k in s.flight.inflight <==> exists i: nat :: LeadsKey(s, i, k))
    && (forall i: nat, j: nat :: LeadsKey(s, i, k) && LeadsKey(s, j, k) ==> i == j)
    && (forall i: nat :: LeadsKey(s, i, k) && k in s.flight.inflight ==>
          s.flight.inflight[k] == Leads(s.pcs[i]).value)
    && (forall i, j | 0 <= i < |s.front.reval.jobs| && 0 <= j < |s.front.reval.jobs|
                      && RunsFor(s, i, k) && RunsFor(s, j, k) :: i == j)
  }

  lemma Exclusion(w: World, run: seq<Label>, n: nat, k: Key)
    requires Valid(Sys(w), run) && n <= |run|
    ensures Shape(At(Sys(w), run, n)) && Exclusive(At(Sys(w), run, n), k)
  {
    GoodAt(w, run, n);
    IsExclusive(w.config, At(Sys(w), run, n), k);
  }

  lemma IsExclusive(c: Revalidation.Config, s: State, k: Key)
    requires Inv(c, s)
    ensures Exclusive(s, k)
  {
    if k in s.flight.inflight {
      assert Registered(s, k);
      assert LeadsKey(s, s.hist.owner[s.flight.inflight[k]], k);
    }
    forall i, j | 0 <= i < |s.front.reval.jobs| && 0 <= j < |s.front.reval.jobs| && RunsFor(s, i, k) && RunsFor(s, j, k)
      ensures i == j
    {
      Revalidation.OneJobPerKey(s.front.reval, i, j);
    }
  }

  // Progress and termination

  predicate Finished(s: State) {
    && (forall i | 0 <= i < |s.front.callers| :: s.front.callers[i].pc.Done?)
    && (forall j | 0 <= j < |s.front.reval.jobs| :: s.front.reval.jobs[j].stage.Finished?)
  }

  /** What caller `i`, inside `_block_and_create`, does next when its factory does `out`. */
  function BlockingStep(s: State, i: nat, out: Outcome): Label
    requires i < |s.pcs|
  {
    match s.pcs[i]
    case Awaiting(_) => Resume(i)
    case Running(_) => RunFactory(i, out)
    case Writing(_, _) => Write(i, true)
    case Resolving(_, _) => Resolve(i)
    case Popping(_, _) => Pop(i)
    case _ => Join(i)
  }

  /** No deadlock: while some call or job is unfinished a step is enabled, whatever factories
      and lookups would return. */
  lemma Progress(w: World, run: seq<Label>, out: Outcome, found: Front.Lookup) returns (l: Label)
    requires Valid(Sys(w), run) && !Finished(At(Sys(w), run, |run|))
    ensures Enabled(At(Sys(w), run, |run|), l)
  {
    GoodAt(w, run, |run|);
    l := StateProgress(w.config, At(Sys(w), run, |run|), out, found);
  }

  lemma StateProgress(c: Revalidation.Config, s: State, out: Outcome, found: Front.Lookup) returns (l: Label)
    requires Inv(c, s) && !Finished(s)
    ensures Enabled(s, l)
  {
    if i :| 0 <= i < |s.front.callers| && !s.front.callers[i].pc.Done? {
      if !s.front.callers[i].pc.Blocked? {
        Front.CallerCanStep(c, s.front, i, found);
        l := FrontStep(Front.StepOf(s.front, i, found));
      } else if s.pcs[i].Awaiting? && !IsDone(s, s.pcs[i].fut) {
        assert MemberOk(s, i);
        assert FutureOk(s, s.pcs[i].fut);
        l := BlockingStep(s, s.hist.owner[s.pcs[i].fut], out);
      } else {
        l := BlockingStep(s, i, out);
      }
    } else {
      var j :| 0 <= j < |s.front.reval.jobs| && !s.front.reval.jobs[j].stage.Finished?;
      Front.JobCanStep(c, s.front, j, out, found);
      l := FrontStep(if s.front.reval.jobs[j].stage.Reserved?
                     then Front.StepOf(s.front, s.front.scheduler[j], found)
                     else Front.StepOfJob(s.front, j, out));
    }
  }

  function PcRank(): Pc -> nat {
    (pc: Pc) =>
      match pc
      case Joining => 5
      case Running(_) => 4
      case Writing(_, _) => 3
      case Resolving(_, _) => 2
      case Popping(_, _) => 1
      case Awaiting(_) => 1
      case Idle => 0
  }

  function Rank(s: State): int {
    Front.Rank(s.front, 5) + Sum(s.pcs, PcRank())
  }

  lemma RankStep(c: Revalidation.Config, s: State, l: Label)
    requires Shape(s) && Enabled(s, l)
    ensures Rank(Next(c, s, l)) + 1 <= Rank(s)
  {
    if l.FrontStep? {
      FrontRankStep(c, s, l.l);
    } else {
      Moves(c, s, l);
      var s' := Next(c, s, l);
      SumUpdate(s.pcs, PcRank(), l.i, s'.pcs[l.i]);
      SumUpdate(s.front.callers, Front.CallerRank(5), l.i, s'.front.callers[l.i]);
    }
  }

  lemma FrontRankStep(c: Revalidation.Config, s: State, fl: Front.Label)
    requires Shape(s) && Enabled(s, FrontStep(fl))
    ensures Rank(Next(c, s, FrontStep(fl))) + 1 <= Rank(s)
  {
    Front.RankStep(c, s.front, fl, 5);
    if !fl.JobStep? {
      SumUpdate(s.pcs, PcRank(), fl.i, Joining);
    }
  }

  /** A step inside `_block_and_create` moves its own caller on, or out. */
  lemma Moves(c: Revalidation.Config, s: State, l: Label)
    requires Shape(s) && Enabled(s, l) && !l.FrontStep?
    ensures var s' := Next(c, s, l);
            && l.i < |s.pcs| == |s'.pcs| && |s'.front.callers| == |s.front.callers|
            && s'.pcs == s.pcs[l.i := s'.pcs[l.i]]
            && s'.front.callers == s.front.callers[l.i := s'.front.callers[l.i]]
            && s'.front.reval == s.front.reval
            && PcRank()(s'.pcs[l.i]) + Front.CallerRank(5)(s'.front.callers[l.i]) + 1
               <= PcRank()(s.pcs[l.i]) + Front.CallerRank(5)(s.front.callers[l.i])
  {
  }

  /** Nobody re-enters: N calls, with their background jobs, take at most 12 N steps. */
  lemma RunsAreFinite(w: World, run: seq<Label>)
    requires Valid(Sys(w), run)
    ensures |run| <= 12 * |w.calls|
  {
    GoodInductive(w);
    GoodAt(w, run, |run|);
    forall s, l | Good(w, s) && Enabled(s, l) ensures Rank(Next(w.config, s, l)) + 1 <= Rank(s) {
      RankStep(w.config, s, l);
    }
    Potential(Sys(w), IsGood(w), (s: State) => Rank(s), run, |run|);
    var s := Start(w.calls, w.clock);
    SumBound(s.front.callers, Front.CallerRank(5), 12);
    SumBound(s.pcs, PcRank(), 0);
  }

  // A leader writes before it ends

  predicate IsWriting(s: State, i: nat) {
    i < |s.pcs| && s.pcs[i].Writing?
  }

  lemma WritingMoves(c: Revalidation.Config, s: State, l: Label, i: nat)
    requires Shape(s) && Enabled(s, l)
    ensures l.RunFactory? && l.i == i && l.out.Returns? ==> IsWriting(Next(c, s, l), i)
    ensures IsWriting(s, i) && !IsWriting(Next(c, s, l), i) ==> l.Write? && l.i == i
  {
  }

  function WritingOf(i: nat): State -> bool {
    (s: State) => IsWriting(s, i)
  }

  /** A factory that returns is followed by its caller's write. */
  lemma StartsWriting(w: World, run: seq<Label>, q: nat, i: nat, v: Value)
    requires Valid(Sys(w), run) && q < |run| && run[q] == RunFactory(i, Returns(v))
    ensures WritingOf(i)(At(Sys(w), run, q + 1))
  {
    GoodAt(w, run, q);
    assert Sys(w).enabled(At(Sys(w), run, q), run[q]);
    WritingMoves(w.config, At(Sys(w), run, q), run[q], i);
  }

  lemma EndedWriting(w: World, run: seq<Label>, n: nat, i: nat)
    requires Valid(Sys(w), run) && n <= |run|
    requires i < |At(Sys(w), run, n).front.callers| && At(Sys(w), run, n).front.callers[i].pc.Done?
    ensures !WritingOf(i)(At(Sys(w), run, n))
  {
    GoodAt(w, run, n);
  }

  lemma WritesBetween(w: World, run: seq<Label>, a: nat, b: nat, i: nat) returns (p: nat, stored: bool)
    requires Valid(Sys(w), run) && a <= b <= |run|
    requires WritingOf(i)(At(Sys(w), run, a)) && !WritingOf(i)(At(Sys(w), run, b))
    ensures a <= p < b && run[p] == Write(i, stored)
  {
    GoodInductive(w);
    p := Falls(Sys(w), IsGood(w), WritingOf(i), run, a, b);
    WritingMoves(w.config, At(Sys(w), run, p), run[p], i);
    stored := run[p].stored;
  }

  lemma WritesAfter(w: World, run: seq<Label>, q: nat, n: nat, i: nat, v: Value) returns (p: nat, stored: bool)
    requires Valid(Sys(w), run) && q < n <= |run| && run[q] == RunFactory(i, Returns(v))
    requires !WritingOf(i)(At(Sys(w), run, n))
    ensures q < p < n && run[p] == Write(i, stored)
  {
    StartsWriting(w, run, q, i, v);
    p, stored := WritesBetween(w, run, q + 1, n, i);
  }

  /** A caller whose factory returned and whose call has ended has written in between. */
  lemma LeaderWrites(w: World, run: seq<Label>, q: nat, n: nat, i: nat, v: Value) returns (p: nat, stored: bool)
    requires Valid(Sys(w), run) && q < n <= |run| && run[q] == RunFactory(i, Returns(v))
    requires i < |At(Sys(w), run, n).front.callers| && At(Sys(w), run, n).front.callers[i].pc.Done?
    ensures q < p < n && run[p] == Write(i, stored)
  {
    EndedWriting(w, run, n, i);
    p, stored := WritesAfter(w, run, q, n, i, v);
  }
}
