/** Whole runs of the sync machine: any calls, any keys, any interleaving, any backend. */
module SyncRuns {
  import opened Basics
  import opened SyncFlight
  import opened SyncMachine
  import opened SyncHandOff
  import opened Sums
  import opened Runs
  import Front
  import FrontRuns
  import Revalidation

  type World = Front.World

  function Sys(w: World): Machine<State, Label> {
    Machine(Start(w.calls, w.clock), Enabled,
            (s: State, l: Label) => if Enabled(s, l) then Next(w.config, s, l) else s)
  }

  ghost predicate Inv(c: Revalidation.Config, s: State) {
    Shape(s) && Front.Inv(c, s.front) && LeadInv(s) && WaitInv(s) && PairInv(s) && HandInv(s)
  }

  lemma FrontInvStep(c: Revalidation.Config, s: State, l: Label)
    requires Shape(s) && Front.Inv(c, s.front) && Enabled(s, l)
    ensures Front.Inv(c, Next(c, s, l).front)
  {
    match l
    case FrontStep(fl) => Front.InvStep(c, s.front, fl);
    case Collect(i) => Front.InvExit(c, s.front, i, Next(c, s, l).front.callers[i].pc);
    case Publish(i) => Front.InvExit(c, s.front, i, Next(c, s, l).front.callers[i].pc);
    case Write(i, _) => Front.InvWritten(c, s.front, Next(c, s, l).front.written);
    case _ =>
  }

  lemma InvStart(w: World)
    ensures Inv(w.config, Start(w.calls, w.clock))
  {
    Front.InvStart(w.config, w.calls, w.clock);
    var s := Start(w.calls, w.clock);
    forall k, e ensures SlotOk(s, k, e) {
    }
  }

  /** The invariants hold and the calls are the calls made. */
  ghost predicate Good(w: World, s: State) {
    && Inv(w.config, s)
    && |s.pcs| == |w.calls|
    && (forall i | 0 <= i < |w.calls| :: KeyOf(s, i) == w.calls[i].key)
  }

  lemma GoodStep(w: World, s: State, l: Label)
    requires Good(w, s) && Enabled(s, l)
    ensures Good(w, Next(w.config, s, l))
  {
    ShapeStep(w.config, s, l);
    FrontInvStep(w.config, s, l);
    LeadStep(w.config, s, l);
    WaitStep(w.config, s, l);
    PairStep(w.config, s, l);
    HandStep(w.config, s, l);
  }

  ghost function IsGood(w: World): State -> bool {
    s => Good(w, s)
  }

  lemma GoodInductive(w: World)
    ensures Inductive(Sys(w), IsGood(w))
  {
    InvStart(w);
    forall s, l | Good(w, s) && Enabled(s, l) ensures Good(w, Next(w.config, s, l)) {
      GoodStep(w, s, l);
    }
  }

  /** The shared half inside this machine. */
  function FrontLens(): FrontRuns.Lens<State, Label> {
    FrontRuns.Lens((s: State) => s.front, (l: Label) => FrontStepOf(l))
  }

  lemma SysEmbeds(w: World)
    ensures FrontRuns.Embeds(Sys(w), IsGood(w), FrontLens(), w)
  {
    GoodInductive(w);
    forall s, l | Good(w, s) && Enabled(s, l)
      ensures Front.Moves(w.config, s.front, FrontLens().step(l), Next(w.config, s, l).front)
    {
      FrontMoves(w.config, s, l);
    }
  }

  lemma GoodAt(w: World, run: seq<Label>, n: nat)
    requires Valid(Sys(w), run) && n <= |run|
    ensures Good(w, At(Sys(w), run, n))
  {
    GoodInductive(w);
    Invariant(Sys(w), IsGood(w), run, n);
  }

  lemma SizesAt(w: World, run: seq<Label>, n: nat)
    requires Valid(Sys(w), run) && n <= |run|
    ensures var s := At(Sys(w), run, n);
            |s.pcs| == |s.front.callers| == |s.hist.made| == |s.hist.source| == |w.calls|
  {
    GoodAt(w, run, n);
  }

  // Exclusion

  /** Caller `i` leads key `k`. */
  predicate LeadsKey(s: State, i: nat, k: Key)
    requires Shape(s)
  {
    i < |s.pcs| && KeyOf(s, i) == k && Leads(s.pcs[i]).Some?
  }

  /** Key `k` is in flight exactly when some caller leads it; that caller is the only one, and
      its event is the registered one and unset; one background job at most runs for `k`. */
  ghost predicate Exclusive(s: State, k: Key)
    requires Shape(s)
  {
    && (k in s.flight.inflight <==> exists i: nat :: LeadsKey(s, i, k))
    && (forall i: nat, j: nat :: LeadsKey(s, i, k) && LeadsKey(s, j, k) ==> i == j)
    && (forall i: nat :: LeadsKey(s, i, k) && k in s.flight.inflight ==>
          s.flight.inflight[k] == Leads(s.pcs[i]).value && !IsSet(s, Leads(s.pcs[i]).value))
    && (forall i, j | 0 <= i < |s.front.reval.jobs| && 0 <= j < |s.front.reval.jobs|
                      && RunsFor(s, i, k) && RunsFor(s, j, k) :: i == j)
  }

  lemma IsExclusive(c: Revalidation.Config, s: State, k: Key)
    requires Inv(c, s)
    ensures Exclusive(s, k)
  {
    if k in s.flight.inflight {
      assert Registered(s, k);
      assert LeadsKey(s, s.hist.owner[s.flight.inflight[k]], k);
    }
    forall i, j | 0 <= i < |s.front.reval.jobs| && 0 <= j < |s.front.reval.jobs| && RunsFor(s, i, k) && RunsFor(s, j, k)
      ensures i == j
    {
      Revalidation.OneJobPerKey(s.front.reval, i, j);
    }
  }

  /** In every reachable state, for every key: at most one blocking and at most one
      background factory, and a leader that pops its own entry. */
  lemma Exclusion(w: World, run: seq<Label>, n: nat, k: Key)
    requires Valid(Sys(w), run) && n <= |run|
    ensures Shape(At(Sys(w), run, n)) && Exclusive(At(Sys(w), run, n), k)
  {
    GoodAt(w, run, n);
    IsExclusive(w.config, At(Sys(w), run, n), k);
  }

  /** Job `j` has been submitted for `k` and its factory has not finished. */
  predicate RunsFor(s: State, j: nat, k: Key)
    requires j < |s.front.reval.jobs|
  {
    s.front.reval.jobs[j].key == k && s.front.reval.jobs[j].stage.Running?
  }

  // Hand-off

  /** At every moment of every run: what a waiter has collected was made by the factory call
      of another call for its key, the waiter ended with exactly that, and nobody else
      collected it. */
  lemma ProvenanceOverRuns(w: World, run: seq<Label>, n: nat, c: nat)
    requires Valid(Sys(w), run) && n <= |run|
    requires c < |w.calls| == |At(Sys(w), run, n).hist.source| && At(Sys(w), run, n).hist.source[c].Some?
    ensures var s := At(Sys(w), run, n);
            var t := s.hist.source[c].value;
            && t < |w.calls| == |s.hist.made| == |s.front.callers| && t != c && w.calls[t].key == w.calls[c].key
            && s.hist.made[t].Some?
            && s.front.callers[c].pc.Done? && Front.Agrees(s.front.callers[c].pc.fin, s.hist.made[t].value)
            && (forall d | 0 <= d < |w.calls| && s.hist.source[d] == Some(t) :: d == c)
  {
    GoodAt(w, run, n);
    Provenance(At(Sys(w), run, n), c);
  }

  /** A woken waiter starts over, or ends with exactly what some earlier step, another
      caller's factory call for the same key, returned or raised. */
  lemma CollectedWasMade(w: World, run: seq<Label>, n: nat, i: nat) returns (m: nat)
    requires Valid(Sys(w), run) && n < |run| && run[n] == Collect(i)
    ensures i < |w.calls| == |At(Sys(w), run, n + 1).front.callers|
    ensures var pc := At(Sys(w), run, n + 1).front.callers[i].pc;
            || pc.Looking?
            || (&& m < n && run[m].RunFactory? && run[m].i < |w.calls|
                && run[m].i != i && w.calls[run[m].i].key == w.calls[i].key
                && pc.Done? && Front.Agrees(pc.fin, run[m].out))
  {
    AfterCollect(w, run, n, i);
    m := 0;
    if At(Sys(w), run, n + 1).hist.source[i].Some? {
      m := SourceWasMade(w, run, n + 1, i);
      assert run[m] != run[n];
    }
  }

  lemma SourceWasMade(w: World, run: seq<Label>, n: nat, c: nat) returns (m: nat)
    requires Valid(Sys(w), run) && n <= |run|
    requires c < |w.calls| == |At(Sys(w), run, n).hist.source| && At(Sys(w), run, n).hist.source[c].Some?
    ensures m < n && run[m].RunFactory? && run[m].i < |w.calls|
    ensures At(Sys(w), run, n).hist.source[c] == Some(run[m].i)
    ensures run[m].i != c && w.calls[run[m].i].key == w.calls[c].key
    ensures c < |At(Sys(w), run, n).front.callers|
    ensures var pc := At(Sys(w), run, n).front.callers[c].pc;
            pc.Done? && Front.Agrees(pc.fin, run[m].out)
  {
    ProvenanceOverRuns(w, run, n, c);
    m := MadeByStep(w, run, n, At(Sys(w), run, n).hist.source[c].value);
  }

  lemma AfterCollect(w: World, run: seq<Label>, n: nat, i: nat)
    requires Valid(Sys(w), run) && n < |run| && run[n] == Collect(i)
    ensures var s' := At(Sys(w), run, n + 1);
            && i < |w.calls| == |s'.front.callers| == |s'.hist.source| == |s'.hist.made|
            && (s'.front.callers[i].pc.Looking? || s'.hist.source[i].Some?)
  {
    assert Sys(w).enabled(At(Sys(w), run, n), run[n]);
    GoodAt(w, run, n);
    ShapeStep(w.config, At(Sys(w), run, n), run[n]);
  }

  /** A remembered outcome is that of the caller's own factory step. */
  lemma {:induction false} MadeByStep(w: World, run: seq<Label>, n: nat, t: nat) returns (m: nat)
    requires Valid(Sys(w), run) && n <= |run|
    requires t < |At(Sys(w), run, n).hist.made| && At(Sys(w), run, n).hist.made[t].Some?
    ensures m < n && run[m] == RunFactory(t, At(Sys(w), run, n).hist.made[t].value)
  {
    if n == 0 {
      assert false;
    } else {
      MadeOneStep(w, run, n - 1, t);
      if run[n - 1].RunFactory? && run[n - 1].i == t {
        m := n - 1;
      } else {
        m := MadeByStep(w, run, n - 1, t);
      }
    }
  }

  lemma MadeOneStep(w: World, run: seq<Label>, n: nat, t: nat)
    requires Valid(Sys(w), run) && n < |run|
    ensures var made, made' := At(Sys(w), run, n).hist.made, At(Sys(w), run, n + 1).hist.made;
            && |made'| == |made|
            && (t < |made| ==>
                  made'[t] == if run[n].RunFactory? && run[n].i == t then Some(run[n].out) else made[t])
  {
    GoodAt(w, run, n);
    assert Sys(w).enabled(At(Sys(w), run, n), run[n]);
    MadeGrows(w.config, At(Sys(w), run, n), run[n]);
  }

  /** At every moment of every run, per key: outcomes published are those collected, those
      overwritten and those still stored. */
  lemma ConservedOverRuns(w: World, run: seq<Label>, n: nat, k: Key)
    requires Valid(Sys(w), run) && n <= |run|
    ensures var s := At(Sys(w), run, n);
            Shape(s) && |PublishedSet(s, k)| ==
                        |TakenSet(s, k)| + |LostSet(s, k)| + StoredCount(s.flight, k)
  {
    GoodAt(w, run, n);
    OutcomesConserved(At(Sys(w), run, n), k);
  }

  // Progress

  predicate Finished(s: State) {
    && (forall i | 0 <= i < |s.front.callers| :: s.front.callers[i].pc.Done?)
    && (forall j | 0 <= j < |s.front.reval.jobs| :: s.front.reval.jobs[j].stage.Finished?)
  }

  /** What caller `i`, inside `_block_and_create`, does next when its factory does `out`. */
  function BlockingStep(s: State, i: nat, out: Outcome): Label
    requires i < |s.pcs|
  {
    match s.pcs[i]
    case Waiting(_) => Wake(i)
    case Collecting(_) => Collect(i)
    case Running(_) => RunFactory(i, out)
    case Writing(_, _) => Write(i, true)
    case Publishing(_, _) => Publish(i)
    case _ => Join(i)
  }

  /** The leader a blocked waiter waits for exists, is another caller of the key, and can step. */
  lemma WaiterHasLeader(c: Revalidation.Config, s: State, i: nat, out: Outcome)
    requires Inv(c, s) && i < |s.pcs| && s.pcs[i].Waiting? && !IsSet(s, s.pcs[i].ev)
    ensures var k := KeyOf(s, i);
            && k in s.flight.inflight && s.flight.inflight[k] == s.pcs[i].ev
            && var leader := s.hist.owner[s.pcs[i].ev];
               leader != i && LeadsKey(s, leader, k) && Enabled(s, BlockingStep(s, leader, out))
  {
    assert Attended(s, i);
    assert Registered(s, KeyOf(s, i));
  }

  /** No deadlock and no lost wakeup: while some call or job is unfinished a step is
      enabled, whatever factories and lookups would return. */
  lemma Progress(w: World, run: seq<Label>, out: Outcome, found: Front.Lookup) returns (l: Label)
    requires Valid(Sys(w), run) && !Finished(At(Sys(w), run, |run|))
    ensures Enabled(At(Sys(w), run, |run|), l)
  {
    GoodAt(w, run, |run|);
    var s := At(Sys(w), run, |run|);
    if i :| 0 <= i < |s.front.callers| && !s.front.callers[i].pc.Done? {
      if !s.front.callers[i].pc.Blocked? {
        Front.CallerCanStep(w.config, s.front, i, found);
        l := FrontStep(Front.StepOf(s.front, i, found));
      } else if s.pcs[i].Waiting? && !IsSet(s, s.pcs[i].ev) {
        WaiterHasLeader(w.config, s, i, out);
        l := BlockingStep(s, s.hist.owner[s.pcs[i].ev], out);
      } else {
        l := BlockingStep(s, i, out);
      }
    } else {
      var j :| 0 <= j < |s.front.reval.jobs| && !s.front.reval.jobs[j].stage.Finished?;
      Front.JobCanStep(w.config, s.front, j, out, found);
      l := FrontStep(if s.front.reval.jobs[j].stage.Reserved?
                     then Front.StepOf(s.front, s.front.scheduler[j], found)
                     else Front.StepOfJob(s.front, j, out));
    }
  }

  // Termination

  function PcRank(): Pc -> nat {
    (pc: Pc) =>
      match pc
      case Waiting(_) => 8
      case Collecting(_) => 7
      case Joining => 4
      case Running(_) => 3
      case Writing(_, _) => 2
      case Publishing(_, _) => 1
      case Idle => 0
  }

  function Rank(s: State): nat {
    Front.Rank(s.front, 4) + Sum(s.pcs, PcRank())
  }

  /** Every step lowers the rank, except that joining as a waiter raises it by four. */
  lemma RankStep(c: Revalidation.Config, s: State, l: Label)
    requires Shape(s) && Enabled(s, l)
    ensures Rank(Next(c, s, l)) + 1 <=
            Rank(s) + (if l.Join? && KeyOf(s, l.i) in s.flight.inflight then 5 else 0)
  {
    if l.FrontStep? {
      FrontRankStep(c, s, l.l);
    } else {
      Moves(c, s, l);
      var s' := Next(c, s, l);
      SumUpdate(s.pcs, PcRank(), l.i, s'.pcs[l.i]);
      SumUpdate(s.front.callers, Front.CallerRank(4), l.i, s'.front.callers[l.i]);
    }
  }

  lemma FrontRankStep(c: Revalidation.Config, s: State, fl: Front.Label)
    requires Shape(s) && Enabled(s, FrontStep(fl))
    ensures Rank(Next(c, s, FrontStep(fl))) + 1 <= Rank(s)
  {
    Front.RankStep(c, s.front, fl, 4);
    if !fl.JobStep? {
      SumUpdate(s.pcs, PcRank(), fl.i, Joining);
    }
  }

  /** A step inside `_block_and_create` moves its own caller on, or out, or round again. */
  lemma Moves(c: Revalidation.Config, s: State, l: Label)
    requires Shape(s) && Enabled(s, l) && !l.FrontStep?
    ensures var s' := Next(c, s, l);
            && l.i < |s.pcs| == |s'.pcs| && |s'.front.callers| == |s.front.callers|
            && s'.pcs == s.pcs[l.i := s'.pcs[l.i]]
            && s'.front.callers == s.front.callers[l.i := s'.front.callers[l.i]]
            && s'.front.reval == s.front.reval
            && PcRank()(s'.pcs[l.i]) + Front.CallerRank(4)(s'.front.callers[l.i]) + 1
               <= PcRank()(s.pcs[l.i]) + Front.CallerRank(4)(s.front.callers[l.i])
                  + (if l.Join? && KeyOf(s, l.i) in s.flight.inflight then 5 else 0)
  {
  }

  ghost function Remaining(): State -> int {
    s => Rank(s) - 5 * |s.hist.waited|
  }

  lemma RemainingStep(w: World, s: State, l: Label)
    requires Good(w, s) && Enabled(s, l)
    ensures Remaining()(Next(w.config, s, l)) + 1 <= Remaining()(s)
  {
    RankStep(w.config, s, l);
    PairStep(w.config, s, l);
  }

  lemma StartRank(w: World)
    ensures Rank(Start(w.calls, w.clock)) <= 12 * |w.calls|
  {
    var s := Start(w.calls, w.clock);
    SumBound(s.front.callers, Front.CallerRank(4), 12);
    SumBound(s.pcs, PcRank(), 0);
  }

  // What a factory step remembers

  lemma MadeGrows(c: Revalidation.Config, s: State, l: Label)
    requires Inv(c, s) && Enabled(s, l)
    ensures l.RunFactory? ==> l.i < |s.pcs| == |s.hist.made| && s.hist.made[l.i] == None
    ensures Next(c, s, l).hist.made == if l.RunFactory? then s.hist.made[l.i := Some(l.out)] else s.hist.made
  {
    if l.RunFactory? {
      assert MadeOk(s, l.i);
    }
  }

  // A leader writes before it ends

  predicate IsWriting(s: State, i: nat) {
    i < |s.pcs| && s.pcs[i].Writing?
  }

  lemma WritingMoves(c: Revalidation.Config, s: State, l: Label, i: nat)
    requires Shape(s) && Enabled(s, l)
    ensures l.RunFactory? && l.i == i && l.out.Returns? ==> IsWriting(Next(c, s, l), i)
    ensures IsWriting(s, i) && !IsWriting(Next(c, s, l), i) ==> l.Write? && l.i == i
  {
  }

  function WritingOf(i: nat): State -> bool {
    (s: State) => IsWriting(s, i)
  }

  /** A factory that returns is followed by its caller's write. */
  lemma StartsWriting(w: World, run: seq<Label>, q: nat, i: nat, v: Value)
    requires Valid(Sys(w), run) && q < |run| && run[q] == RunFactory(i, Returns(v))
    ensures WritingOf(i)(At(Sys(w), run, q + 1))
  {
    GoodAt(w, run, q);
    assert Sys(w).enabled(At(Sys(w), run, q), run[q]);
    WritingMoves(w.config, At(Sys(w), run, q), run[q], i);
  }

  lemma EndedWriting(w: World, run: seq<Label>, n: nat, i: nat)
    requires Valid(Sys(w), run) && n <= |run|
    requires i < |At(Sys(w), run, n).front.callers| && At(Sys(w), run, n).front.callers[i].pc.Done?
    ensures !WritingOf(i)(At(Sys(w), run, n))
  {
    GoodAt(w, run, n);
  }

  lemma WritesBetween(w: World, run: seq<Label>, a: nat, b: nat, i: nat) returns (p: nat, stored: bool)
    requires Valid(Sys(w), run) && a <= b <= |run|
    requires WritingOf(i)(At(Sys(w), run, a)) && !WritingOf(i)(At(Sys(w), run, b))
    ensures a <= p < b && run[p] == Write(i, stored)
  {
    GoodInductive(w);
    p := Falls(Sys(w), IsGood(w), WritingOf(i), run, a, b);
    WritingMoves(w.config, At(Sys(w), run, p), run[p], i);
    stored := run[p].stored;
  }

  lemma WritesAfter(w: World, run: seq<Label>, q: nat, n: nat, i: nat, v: Value) returns (p: nat, stored: bool)
    requires Valid(Sys(w), run) && q < n <= |run| && run[q] == RunFactory(i, Returns(v))
    requires !WritingOf(i)(At(Sys(w), run, n))
    ensures q < p < n && run[p] == Write(i, stored)
  {
    StartsWriting(w, run, q, i, v);
    p, stored := WritesBetween(w, run, q + 1, n, i);
  }

  /** A caller whose factory returned and whose call has ended has written in between. */
  lemma LeaderWrites(w: World, run: seq<Label>, q: nat, n: nat, i: nat, v: Value) returns (p: nat, stored: bool)
    requires Valid(Sys(w), run) && q < n <= |run| && run[q] == RunFactory(i, Returns(v))
    requires i < |At(Sys(w), run, n).front.callers| && At(Sys(w), run, n).front.callers[i].pc.Done?
    ensures q < p < n && run[p] == Write(i, stored)
  {
    EndedWriting(w, run, n, i);
    p, stored := WritesAfter(w, run, q, n, i, v);
  }
}
