/** Any number of tasks calling one `AsyncSingleFlight`, none cancelled: a step is one
    stretch between awaits. The lock's `await` may suspend, so resolving a future and
    removing it from the in-flight map are separate steps. */
module AsyncMachine {
  import opened Basics
  import opened AsyncFlight
  import Front
  import Revalidation

  datatype Pc =
    | Idle                            // not inside `_block_and_create`
    | Joining
    | Awaiting(fut: nat)
    | Running(fut: nat)               // leading; the factory has not finished
    | Writing(fut: nat, value: Value)
    | Resolving(fut: nat, out: Outcome)
    | Popping(fut: nat, out: Outcome)

  /** What only remembers: who created each future, what each caller's own factory call did,
      and which future each caller joined or led. */
  datatype History = History(owner: seq<nat>, made: seq<Option<Outcome>>, joined: seq<Option<nat>>)

  datatype State = State(front: Front.State, pcs: seq<Pc>, flight: Flight, hist: History)

  datatype Label =
    | FrontStep(l: Front.Label)
    | Join(i: nat)
    | Resume(i: nat)
    | RunFactory(i: nat, out: Outcome)
    | Write(i: nat, stored: bool)   // `inner.set`; its exceptions are logged
    | Resolve(i: nat)
    | Pop(i: nat)

  function Start(calls: seq<Front.Call>, clock: Time): State {
    var n := |calls|;
    State(Front.Start(calls, clock), seq(n, _ => Idle), Flight(map[], []),
          History([], seq(n, _ => None), seq(n, _ => None)))
  }

  function KeyOf(s: State, i: nat): Key
    requires i < |s.front.callers|
  {
    s.front.callers[i].call.key
  }

  predicate Inside(s: State, i: nat) {
    i < |s.pcs| == |s.front.callers| == |s.hist.made| == |s.hist.joined|
    && s.front.callers[i].pc.Blocked?
  }

  predicate IsDone(s: State, fut: nat) {
    fut < |s.flight.futures| && s.flight.futures[fut].Some?
  }

  predicate Enabled(s: State, l: Label) {
    match l
    case FrontStep(fl) => |s.pcs| == |s.front.callers| && Front.Enabled(s.front, fl)
    case Join(i) => Inside(s, i) && s.pcs[i].Joining?
    case Resume(i) => Inside(s, i) && s.pcs[i].Awaiting? && IsDone(s, s.pcs[i].fut)
    case RunFactory(i, _) => Inside(s, i) && s.pcs[i].Running?
    case Write(i, _) => Inside(s, i) && s.pcs[i].Writing?
    case Resolve(i) => Inside(s, i) && s.pcs[i].Resolving? && s.pcs[i].fut < |s.flight.futures|
    case Pop(i) => Inside(s, i) && s.pcs[i].Popping?
  }

  function Goto(s: State, i: nat, pc: Pc): State
    requires i < |s.pcs|
  {
    s.(pcs := s.pcs[i := pc])
  }

  function Finish(s: State, i: nat, out: Outcome): State
    requires i < |s.pcs| == |s.front.callers| && s.front.callers[i].pc.Blocked?
  {
    Goto(s, i, Idle)
      .(front := Front.Goto(s.front, i, Front.Done(Front.FinOf(out, s.front.callers[i].pc.wasStale))))
  }

  function FrontNext(c: Revalidation.Config, s: State, fl: Front.Label): State
    requires Enabled(s, FrontStep(fl))
  {
    var front := Front.Next(c, s.front, fl);
    var s' := s.(front := front);
    if !fl.JobStep? && front.callers[fl.i].pc.Blocked? then Goto(s', fl.i, Joining) else s'
  }

  function JoinNext(s: State, i: nat): State
    requires Enabled(s, Join(i))
  {
    var (flight, wait, fut) := AsyncFlight.Join(s.flight, KeyOf(s, i));
    Goto(s, i, if wait then Awaiting(fut) else Running(fut)).(
      flight := flight,
      hist := s.hist.(owner := if wait then s.hist.owner else s.hist.owner + [i],
                      joined := s.hist.joined[i := Some(fut)]))
  }

  function Next(c: Revalidation.Config, s: State, l: Label): State
    requires Enabled(s, l)
  {
    match l
    case FrontStep(fl) => FrontNext(c, s, fl)
    case Join(i) => JoinNext(s, i)
    case Resume(i) => Finish(s, i, s.flight.futures[s.pcs[i].fut].value)
    case RunFactory(i, out) =>
      Goto(s, i, match out case Returns(v) => Writing(s.pcs[i].fut, v) case Raises(_) => Resolving(s.pcs[i].fut, out))
        .(hist := s.hist.(made := s.hist.made[i := Some(out)]))
    case Write(i, _) =>
      Goto(s, i, Resolving(s.pcs[i].fut, Returns(s.pcs[i].value)))
        .(front := s.front.(written := s.front.written + {(KeyOf(s, i), s.pcs[i].value)}))
    case Resolve(i) =>
      Goto(s, i, Popping(s.pcs[i].fut, s.pcs[i].out))
        .(flight := AsyncFlight.Resolve(s.flight, s.pcs[i].fut, s.pcs[i].out))
    case Pop(i) => Finish(s, i, s.pcs[i].out).(flight := AsyncFlight.Pop(s.flight, KeyOf(s, i)))
  }

  /** The future a caller leads. */
  function Leads(pc: Pc): Option<nat> {
    match pc
    case Running(fut) => Some(fut)
    case Writing(fut, _) => Some(fut)
    case Resolving(fut, _) => Some(fut)
    case Popping(fut, _) => Some(fut)
    case _ => None
  }

  predicate Ended(s: State, i: nat)
    requires i < |s.front.callers|
  {
    s.front.callers[i].pc.Done?
  }

  /** The step of the shared half a step is, if it is one. */
  function FrontStepOf(l: Label): Option<Front.Label> {
    if l.FrontStep? then Some(l.l) else None
  }

  lemma FrontMoves(c: Revalidation.Config, s: State, l: Label)
    requires Enabled(s, l)
    ensures Front.Moves(c, s.front, FrontStepOf(l), Next(c, s, l).front)
  {
  }

  /** History only remembers: with another one the same steps are enabled, and the rest of
      the state goes the same way. */
  lemma HistoryOnlyRemembers(c: Revalidation.Config, s: State, h: History, l: Label)
    requires Enabled(s, l) && |h.made| == |s.hist.made| && |h.joined| == |s.hist.joined|
    ensures Enabled(s.(hist := h), l)
    ensures Next(c, s.(hist := h), l).(hist := h) == Next(c, s, l).(hist := h)
  {
  }

  // Shape

  ghost predicate Shape(s: State) {
    && |s.pcs| == |s.front.callers| == |s.hist.made| == |s.hist.joined|
    && |s.hist.owner| == |s.flight.futures|
    && (forall i | 0 <= i < |s.pcs| :: s.pcs[i] != Idle <==> s.front.callers[i].pc.Blocked?)
  }

  lemma ShapeStep(c: Revalidation.Config, s: State, l: Label)
    requires Shape(s) && Enabled(s, l)
    ensures Shape(Next(c, s, l))
    ensures |Next(c, s, l).pcs| == |s.pcs|
    ensures forall i | 0 <= i < |s.pcs| :: KeyOf(Next(c, s, l), i) == KeyOf(s, i)
    ensures forall i | 0 <= i < |s.pcs| && Ended(s, i) ::
              Next(c, s, l).front.callers[i].pc == s.front.callers[i].pc
  {
    if l.FrontStep? {
      ShapeFrontStep(c, s, l.l);
    }
  }

  lemma ShapeFrontStep(c: Revalidation.Config, s: State, fl: Front.Label)
    requires Shape(s) && Enabled(s, FrontStep(fl))
    ensures var s' := Next(c, s, FrontStep(fl));
            && Shape(s') && |s'.pcs| == |s.pcs|
            && (forall i | 0 <= i < |s.pcs| :: KeyOf(s', i) == KeyOf(s, i))
            && (forall i | 0 <= i < |s.pcs| && Ended(s, i) ::
                  s'.front.callers[i].pc == s.front.callers[i].pc)
  {
  }

  // One leader per key

  ghost predicate LeadInv(s: State)
    requires Shape(s)
  {
    && (forall i | 0 <= i < |s.pcs| && Leads(s.pcs[i]).Some? ::
          var fut := Leads(s.pcs[i]).value;
          && KeyOf(s, i) in s.flight.inflight && s.flight.inflight[KeyOf(s, i)] == fut
          && fut < |s.hist.owner| && s.hist.owner[fut] == i
          && (IsDone(s, fut) <==> s.pcs[i].Popping?))
    && (forall k | k in s.flight.inflight :: Registered(s, k))
  }

  ghost predicate Registered(s: State, k: Key)
    requires Shape(s) && k in s.flight.inflight
  {
    var fut := s.flight.inflight[k];
    && fut < |s.flight.futures|
    && s.hist.owner[fut] < |s.pcs|
    && KeyOf(s, s.hist.owner[fut]) == k
    && Leads(s.pcs[s.hist.owner[fut]]) == Some(fut)
  }

  lemma LeadStep(c: Revalidation.Config, s: State, l: Label)
    requires Shape(s) && LeadInv(s) && Enabled(s, l)
    ensures Shape(Next(c, s, l)) && LeadInv(Next(c, s, l))
  {
    ShapeStep(c, s, l);
    var s' := Next(c, s, l);
    match l
    case Join(i) => LeadJoin(c, s, i);
    case Pop(i) => LeadPop(c, s, i);
    case Resolve(i) => LeadResolve(c, s, i);
    case FrontStep(fl) => SameLeads(s, s');
    case Resume(i) => SameLeads(s, s');
    case RunFactory(i, out) => SameLeads(s, s');
    case Write(i, stored) => SameLeads(s, s');
  }

  lemma SameLeads(s: State, s': State)
    requires Shape(s) && LeadInv(s) && Shape(s')
    requires |s'.pcs| == |s.pcs| && s'.hist.owner == s.hist.owner && s'.flight == s.flight
    requires forall i | 0 <= i < |s.pcs| ::
               && KeyOf(s', i) == KeyOf(s, i) && Leads(s'.pcs[i]) == Leads(s.pcs[i])
               && (s'.pcs[i].Popping? <==> s.pcs[i].Popping?)
    ensures LeadInv(s')
  {
    forall k | k in s'.flight.inflight ensures Registered(s', k) {
      assert Registered(s, k);
    }
  }

  lemma LeadJoin(c: Revalidation.Config, s: State, i: nat)
    requires Shape(s) && LeadInv(s) && Enabled(s, Join(i)) && Shape(Next(c, s, Join(i)))
    ensures LeadInv(Next(c, s, Join(i)))
  {
    var s' := Next(c, s, Join(i));
    if KeyOf(s, i) in s.flight.inflight {
      SameLeads(s, s');
    } else {
      forall k | k in s'.flight.inflight ensures Registered(s', k) {
        if k != KeyOf(s, i) {
          assert Registered(s, k);
        }
      }
    }
  }

  lemma LeadPop(c: Revalidation.Config, s: State, i: nat)
    requires Shape(s) && LeadInv(s) && Enabled(s, Pop(i)) && Shape(Next(c, s, Pop(i)))
    ensures LeadInv(Next(c, s, Pop(i)))
  {
    var s' := Next(c, s, Pop(i));
    forall k | k in s'.flight.inflight ensures Registered(s', k) {
      assert Registered(s, k);
    }
    forall j | 0 <= j < |s'.pcs| && Leads(s'.pcs[j]).Some? ensures KeyOf(s, j) != KeyOf(s, i) {
      assert s'.pcs[j] == s.pcs[j];
    }
  }

  lemma LeadResolve(c: Revalidation.Config, s: State, i: nat)
    requires Shape(s) && LeadInv(s) && Enabled(s, Resolve(i)) && Shape(Next(c, s, Resolve(i)))
    ensures LeadInv(Next(c, s, Resolve(i)))
  {
    var s' := Next(c, s, Resolve(i));
    forall k | k in s'.flight.inflight ensures Registered(s', k) {
      assert Registered(s, k);
    }
  }

  // Generations

  /** `made` holds the outcome of the caller's own factory call from the call to the end. */
  ghost predicate MadeOk(s: State, i: nat)
    requires Shape(s) && i < |s.pcs|
  {
    match s.pcs[i]
    case Writing(_, v) => s.hist.made[i] == Some(Returns(v))
    case Resolving(_, out) => s.hist.made[i] == Some(out)
    case Popping(_, out) => s.hist.made[i] == Some(out)
    case Idle => Ended(s, i) || s.hist.made[i] == None
    case _ => s.hist.made[i] == None
  }

  ghost predicate MadeInv(s: State)
    requires Shape(s)
  {
    forall i | 0 <= i < |s.pcs| :: MadeOk(s, i)
  }

  lemma MadeStep(c: Revalidation.Config, s: State, l: Label)
    requires Shape(s) && MadeInv(s) && Enabled(s, l)
    ensures Shape(Next(c, s, l)) && MadeInv(Next(c, s, l))
  {
    ShapeStep(c, s, l);
    forall i | 0 <= i < |s.pcs| ensures MadeOk(Next(c, s, l), i) {
      assert MadeOk(s, i);
    }
  }

  /** A future is led until its owner's call ends, resolved from just before it leaves the
      in-flight map, and holds its owner's outcome. */
  ghost predicate FutureOk(s: State, fut: nat)
    requires Shape(s) && fut < |s.flight.futures|
  {
    var o := s.hist.owner[fut];
    && o < |s.pcs| && s.hist.joined[o] == Some(fut)
    && (Leads(s.pcs[o]) == Some(fut) || (Ended(s, o) && IsDone(s, fut)))
    && (IsDone(s, fut) ==> s.hist.made[o] == s.flight.futures[fut]
                           && (Leads(s.pcs[o]).Some? ==> s.pcs[o].Popping?))
  }

  /** A member of generation `fut` awaits it, leads it, or ended with its outcome. */
  ghost predicate MemberOk(s: State, i: nat)
    requires Shape(s) && i < |s.pcs|
  {
    match s.hist.joined[i]
    case None => Leads(s.pcs[i]) == None && !s.pcs[i].Awaiting?
    case Some(fut) =>
      && fut < |s.flight.futures| && s.hist.owner[fut] < |s.pcs|
      && KeyOf(s, s.hist.owner[fut]) == KeyOf(s, i)
      && (|| (s.pcs[i] == Awaiting(fut) && s.hist.owner[fut] != i)
          || (Leads(s.pcs[i]) == Some(fut) && s.hist.owner[fut] == i)
          || (Ended(s, i) && IsDone(s, fut)
              && Front.Agrees(s.front.callers[i].pc.fin, s.flight.futures[fut].value)))
  }

  ghost predicate GenerationInv(s: State)
    requires Shape(s)
  {
    && (forall fut | 0 <= fut < |s.flight.futures| :: FutureOk(s, fut))
    && (forall i | 0 <= i < |s.pcs| :: MemberOk(s, i))
  }

  lemma GenerationStep(c: Revalidation.Config, s: State, l: Label)
    requires Shape(s) && LeadInv(s) && MadeInv(s) && GenerationInv(s) && Enabled(s, l)
    ensures Shape(Next(c, s, l)) && GenerationInv(Next(c, s, l))
  {
    ShapeStep(c, s, l);
    FuturesStep(c, s, l);
    var s' := Next(c, s, l);
    forall fut | 0 <= fut < |s'.flight.futures| ensures FutureOk(s', fut) {
      if fut < |s.flight.futures| {
        FutureStays(c, s, l, fut);
      }
    }
    forall i | 0 <= i < |s'.pcs| ensures MemberOk(s', i) {
      MemberStays(c, s, l, i);
    }
  }

  /** Futures are only added and resolved, and a resolved one never changes. */
  lemma FuturesStep(c: Revalidation.Config, s: State, l: Label)
    requires Shape(s) && LeadInv(s) && Enabled(s, l)
    ensures var s' := Next(c, s, l);
            && Shape(s') && |s'.flight.futures| >= |s.flight.futures|
            && (forall f | 0 <= f < |s.flight.futures| :: s'.hist.owner[f] == s.hist.owner[f])
            && (forall f | 0 <= f < |s.flight.futures| ::
                  s'.flight.futures[f] ==
                  if l.Resolve? && s.pcs[l.i].fut == f then Some(s.pcs[l.i].out) else s.flight.futures[f])
            && (l.Resolve? ==> s.flight.futures[s.pcs[l.i].fut] == None)
            && (forall f | |s.flight.futures| <= f < |s'.flight.futures| ::
                  l.Join? && s'.flight.futures[f] == None && s'.hist.owner[f] == l.i
                  && s'.pcs[l.i] == Running(f) && s'.hist.joined[l.i] == Some(f))
  {
    ShapeStep(c, s, l);
  }

  /** What a step of someone else, or of the other half, leaves to caller `i`. */
  lemma BystanderStays(c: Revalidation.Config, s: State, l: Label, i: nat)
    requires Shape(s) && Enabled(s, l) && i < |s.pcs| && (l.FrontStep? || l.i != i)
    ensures var s' := Next(c, s, l);
            && Shape(s') && i < |s'.pcs|
            && s'.hist.joined[i] == s.hist.joined[i] && s'.hist.made[i] == s.hist.made[i]
            && (s'.pcs[i] == s.pcs[i] || (s.pcs[i] == Idle && s'.pcs[i] == Joining))
            && (Ended(s, i) ==> s'.front.callers[i].pc == s.front.callers[i].pc)
  {
    ShapeStep(c, s, l);
  }

  /** What a leader's own step does to it: it goes on leading, or pops its key and ends. */
  lemma LeaderMoves(c: Revalidation.Config, s: State, l: Label)
    requires Shape(s) && Enabled(s, l) && (l.RunFactory? || l.Write? || l.Resolve? || l.Pop?)
    ensures var s' := Next(c, s, l);
            && Shape(s') && l.i < |s'.pcs|
            && s'.hist.joined[l.i] == s.hist.joined[l.i]
            && (!l.RunFactory? ==> s'.hist.made[l.i] == s.hist.made[l.i])
            && (if l.Pop? then Ended(s', l.i) else Leads(s'.pcs[l.i]) == Leads(s.pcs[l.i]))
            && (s'.pcs[l.i].Popping? <==> l.Resolve?)
  {
    ShapeStep(c, s, l);
  }

  lemma FutureStays(c: Revalidation.Config, s: State, l: Label, fut: nat)
    requires Shape(s) && LeadInv(s) && MadeInv(s) && GenerationInv(s) && Enabled(s, l)
    requires fut < |s.flight.futures| && Shape(Next(c, s, l))
    requires fut < |Next(c, s, l).flight.futures|
    ensures FutureOk(Next(c, s, l), fut)
  {
    FuturesStep(c, s, l);
    var o := s.hist.owner[fut];
    assert FutureOk(s, fut) && MadeOk(s, o) && MemberOk(s, o);
    if l.FrontStep? || l.i != o {
      BystanderStays(c, s, l, o);
    } else if !l.Join? && !l.Resume? {
      LeaderMoves(c, s, l);
    }
  }

  lemma MemberStays(c: Revalidation.Config, s: State, l: Label, i: nat)
    requires Shape(s) && LeadInv(s) && MadeInv(s) && GenerationInv(s) && Enabled(s, l)
    requires i < |s.pcs| && Shape(Next(c, s, l)) && i < |Next(c, s, l).pcs|
    ensures MemberOk(Next(c, s, l), i)
  {
    ShapeStep(c, s, l);
    FuturesStep(c, s, l);
    assert MemberOk(s, i);
    if l.FrontStep? || l.i != i {
      BystanderStays(c, s, l, i);
    } else {
      match l
      case Join(_) => MemberJoins(c, s, i);
      case Pop(_) => MemberPops(c, s, i);
      case Resume(_) =>
      case _ => LeaderMoves(c, s, l);
    }
  }

  lemma MemberPops(c: Revalidation.Config, s: State, i: nat)
    requires Shape(s) && LeadInv(s) && MadeInv(s) && GenerationInv(s) && Enabled(s, Pop(i))
    requires i < |s.pcs| && Shape(Next(c, s, Pop(i))) && i < |Next(c, s, Pop(i)).pcs|
    ensures MemberOk(Next(c, s, Pop(i)), i)
  {
    assert MadeOk(s, i) && MemberOk(s, i);
    assert FutureOk(s, s.pcs[i].fut);
  }

  lemma MemberJoins(c: Revalidation.Config, s: State, i: nat)
    requires Shape(s) && LeadInv(s) && Enabled(s, Join(i)) && MemberOk(s, i)
    requires i < |s.pcs| && Shape(Next(c, s, Join(i))) && i < |Next(c, s, Join(i)).pcs|
    ensures MemberOk(Next(c, s, Join(i)), i)
  {
    if KeyOf(s, i) in s.flight.inflight {
      assert Registered(s, KeyOf(s, i));
    }
  }
}
