/** Any number of threads calling one `SingleFlight`: a step is one locked block, or one
    clock reading, lookup, factory call, write or submit outside it. */
module SyncMachine {
  import opened Basics
  import opened SyncFlight
  import Front
  import Revalidation

  /** Where a caller is inside `_block_and_create`. */
  datatype Pc =
    | Idle                            // not inside
    | Joining
    | Waiting(ev: nat)
    | Collecting(ev: nat)
    | Running(ev: nat)                // leading; the factory has not finished
    | Writing(ev: nat, value: Value)
    | Publishing(ev: nat, out: Outcome)

  /** What only remembers: who created each event, what each caller's own factory call did,
      whose result (false) or error (true) is stored for a key, who collected whose outcome,
      who overwrote whose, from whom each caller collected, and who waited for whom. */
  datatype History = History(
    owner: seq<nat>, made: seq<Option<Outcome>>, from: map<(Key, bool), nat>,
    taken: map<nat, nat>, lost: map<nat, nat>, source: seq<Option<nat>>,
    waited: set<(nat, nat)>)

  datatype State = State(front: Front.State, pcs: seq<Pc>, flight: Flight, hist: History)

  datatype Label =
    | FrontStep(l: Front.Label)
    | Join(i: nat)
    | Wake(i: nat)
    | Collect(i: nat)
    | RunFactory(i: nat, out: Outcome)
    | Write(i: nat, stored: bool)   // `inner.set`; its exceptions are logged
    | Publish(i: nat)

  function Start(calls: seq<Front.Call>, clock: Time): State {
    var n := |calls|;
    State(Front.Start(calls, clock), seq(n, _ => Idle), Flight(map[], [], map[], map[]),
          History([], seq(n, _ => None), map[], map[], map[], seq(n, _ => None), {}))
  }

  function KeyOf(s: State, i: nat): Key
    requires i < |s.front.callers|
  {
    s.front.callers[i].call.key
  }

  /** Caller `i` is inside `_block_and_create`. */
  predicate Inside(s: State, i: nat) {
    i < |s.pcs| == |s.front.callers| == |s.hist.made| == |s.hist.source|
    && s.front.callers[i].pc.Blocked?
  }

  predicate Enabled(s: State, l: Label) {
    match l
    case FrontStep(fl) => |s.pcs| == |s.front.callers| && Front.Enabled(s.front, fl)
    case Join(i) => Inside(s, i) && s.pcs[i].Joining?
    case Wake(i) => Inside(s, i) && s.pcs[i].Waiting? && IsSet(s, s.pcs[i].ev)
    case Collect(i) => Inside(s, i) && s.pcs[i].Collecting?
    case RunFactory(i, _) => Inside(s, i) && s.pcs[i].Running?
    case Write(i, _) => Inside(s, i) && s.pcs[i].Writing?
    case Publish(i) => Inside(s, i) && s.pcs[i].Publishing? && s.pcs[i].ev < |s.flight.isSet|
  }

  predicate IsSet(s: State, ev: nat) {
    ev < |s.flight.isSet| && s.flight.isSet[ev]
  }

  function Goto(s: State, i: nat, pc: Pc): State
    requires i < |s.pcs|
  {
    s.(pcs := s.pcs[i := pc])
  }

  function Finish(s: State, i: nat, out: Outcome): State
    requires i < |s.pcs| == |s.front.callers| && s.front.callers[i].pc.Blocked?
  {
    Goto(s, i, Idle)
      .(front := Front.Goto(s.front, i, Front.Done(Front.FinOf(out, s.front.callers[i].pc.wasStale))))
  }

  function FrontNext(c: Revalidation.Config, s: State, fl: Front.Label): State
    requires Enabled(s, FrontStep(fl))
  {
    var front := Front.Next(c, s.front, fl);
    var s' := s.(front := front);
    if !fl.JobStep? && front.callers[fl.i].pc.Blocked? then Goto(s', fl.i, Joining) else s'
  }

  function JoinNext(s: State, i: nat): State
    requires Enabled(s, Join(i))
  {
    var (flight, wait, ev) := SyncFlight.Join(s.flight, KeyOf(s, i));
    if wait then
      var leader := if ev < |s.hist.owner| then s.hist.owner[ev] else 0;
      Goto(s, i, Waiting(ev)).(hist := s.hist.(waited := s.hist.waited + {(i, leader)}))
    else
      Goto(s, i, Running(ev)).(flight := flight, hist := s.hist.(owner := s.hist.owner + [i]))
  }

  function CollectNext(s: State, i: nat): State
    requires Enabled(s, Collect(i))
  {
    var k, h := KeyOf(s, i), s.hist;
    var (flight, got) := SyncFlight.Collect(s.flight, k);
    match got
    case None =>
      Goto(s, i, Idle).(front := Front.Goto(s.front, i,
        Front.Looking(Front.Block, Some(s.front.callers[i].pc.wasStale))))
    case Some(out) =>
      var slot := (k, out.Raises?);
      var t := if slot in h.from then h.from[slot] else 0;
      Finish(s, i, out).(
        flight := flight,
        hist := h.(taken := h.taken[t := i], source := h.source[i := Some(t)], from := h.from - {slot}))
  }

  function PublishNext(s: State, i: nat): State
    requires Enabled(s, Publish(i))
  {
    var k, h, out := KeyOf(s, i), s.hist, s.pcs[i].out;
    var slot := (k, out.Raises?);
    Finish(s, i, out).(
      flight := SyncFlight.Publish(s.flight, k, s.pcs[i].ev, out),
      hist := h.(lost := if slot in h.from then h.lost[h.from[slot] := i] else h.lost,
                 from := h.from[slot := i]))
  }

  function Next(c: Revalidation.Config, s: State, l: Label): State
    requires Enabled(s, l)
  {
    match l
    case FrontStep(fl) => FrontNext(c, s, fl)
    case Join(i) => JoinNext(s, i)
    case Wake(i) => Goto(s, i, Collecting(s.pcs[i].ev))
    case Collect(i) => CollectNext(s, i)
    case RunFactory(i, out) =>
      Goto(s, i, match out case Returns(v) => Writing(s.pcs[i].ev, v) case Raises(_) => Publishing(s.pcs[i].ev, out))
        .(hist := s.hist.(made := s.hist.made[i := Some(out)]))
    case Write(i, _) =>
      Goto(s, i, Publishing(s.pcs[i].ev, Returns(s.pcs[i].value)))
        .(front := s.front.(written := s.front.written + {(KeyOf(s, i), s.pcs[i].value)}))
    case Publish(i) => PublishNext(s, i)
  }

  /** The event a caller leads with. */
  function Leads(pc: Pc): Option<nat> {
    match pc
    case Running(ev) => Some(ev)
    case Writing(ev, _) => Some(ev)
    case Publishing(ev, _) => Some(ev)
    case _ => None
  }

  /** The step of the shared half a step is, if it is one. */
  function FrontStepOf(l: Label): Option<Front.Label> {
    if l.FrontStep? then Some(l.l) else None
  }

  lemma FrontMoves(c: Revalidation.Config, s: State, l: Label)
    requires Enabled(s, l)
    ensures Front.Moves(c, s.front, FrontStepOf(l), Next(c, s, l).front)
  {
  }

  /** History only remembers: with another one the same steps are enabled, and the rest of
      the state goes the same way. */
  lemma HistoryOnlyRemembers(c: Revalidation.Config, s: State, h: History, l: Label)
    requires Enabled(s, l) && |h.made| == |s.hist.made| && |h.source| == |s.hist.source|
    ensures Enabled(s.(hist := h), l)
    ensures Next(c, s.(hist := h), l).(hist := h) == Next(c, s, l).(hist := h)
  {
  }

  // Shape

  ghost predicate Shape(s: State) {
    && |s.pcs| == |s.front.callers| == |s.hist.made| == |s.hist.source|
    && |s.hist.owner| == |s.flight.isSet|
    && (forall i | 0 <= i < |s.pcs| :: s.pcs[i] != Idle <==> s.front.callers[i].pc.Blocked?)
  }

  lemma ShapeStep(c: Revalidation.Config, s: State, l: Label)
    requires Shape(s) && Enabled(s, l)
    ensures Shape(Next(c, s, l))
    ensures |Next(c, s, l).pcs| == |s.pcs|
    ensures forall i | 0 <= i < |s.pcs| :: KeyOf(Next(c, s, l), i) == KeyOf(s, i)
    ensures forall i | 0 <= i < |s.pcs| && Ended(s, i) :: Ended(Next(c, s, l), i)
  {
    if l.FrontStep? {
      ShapeFrontStep(c, s, l.l);
    }
  }

  lemma ShapeFrontStep(c: Revalidation.Config, s: State, fl: Front.Label)
    requires Shape(s) && Enabled(s, FrontStep(fl))
    ensures var s' := Next(c, s, FrontStep(fl));
            && Shape(s') && |s'.pcs| == |s.pcs|
            && (forall i | 0 <= i < |s.pcs| :: KeyOf(s', i) == KeyOf(s, i))
            && (forall i | 0 <= i < |s.pcs| && Ended(s, i) :: Ended(s', i))
  {
  }

  predicate Ended(s: State, i: nat)
    requires i < |s.front.callers|
  {
    s.front.callers[i].pc.Done?
  }

  // Single flight

  /** A key is in flight exactly while one caller leads it, with the registered, unset event. */
  ghost predicate LeadInv(s: State)
    requires Shape(s)
  {
    && (forall i | 0 <= i < |s.pcs| && Leads(s.pcs[i]).Some? ::
          var ev := Leads(s.pcs[i]).value;
          && KeyOf(s, i) in s.flight.inflight && s.flight.inflight[KeyOf(s, i)] == ev
          && ev < |s.hist.owner| && s.hist.owner[ev] == i)
    && (forall k | k in s.flight.inflight :: Registered(s, k))
  }

  ghost predicate Registered(s: State, k: Key)
    requires Shape(s) && k in s.flight.inflight
  {
    var ev := s.flight.inflight[k];
    && ev < |s.flight.isSet| && !s.flight.isSet[ev]
    && s.hist.owner[ev] < |s.pcs|
    && KeyOf(s, s.hist.owner[ev]) == k
    && Leads(s.pcs[s.hist.owner[ev]]) == Some(ev)
  }

  /** A waiter's event belongs to another caller of its key, and is set or still in flight. */
  ghost predicate WaitInv(s: State)
    requires Shape(s)
  {
    forall i | 0 <= i < |s.pcs| && s.pcs[i].Waiting? :: Attended(s, i)
  }

  ghost predicate Attended(s: State, i: nat)
    requires Shape(s) && i < |s.pcs| && s.pcs[i].Waiting?
  {
    var ev, k := s.pcs[i].ev, KeyOf(s, i);
    && ev < |s.flight.isSet|
    && s.hist.owner[ev] < |s.pcs| && s.hist.owner[ev] != i && KeyOf(s, s.hist.owner[ev]) == k
    && (s.flight.isSet[ev] || (k in s.flight.inflight && s.flight.inflight[k] == ev))
  }

  lemma LeadStep(c: Revalidation.Config, s: State, l: Label)
    requires Shape(s) && LeadInv(s) && Enabled(s, l)
    ensures Shape(Next(c, s, l)) && LeadInv(Next(c, s, l))
  {
    ShapeStep(c, s, l);
    match l
    case Join(i) => LeadJoin(c, s, i);
    case Publish(i) => LeadPublish(c, s, i);
    case _ =>
      LeadsStay(c, s, l);
      SameLeads(s, Next(c, s, l));
  }

  lemma LeadsStay(c: Revalidation.Config, s: State, l: Label)
    requires Shape(s) && Enabled(s, l) && !l.Join? && !l.Publish?
    ensures var s' := Next(c, s, l);
            && |s'.pcs| == |s.pcs| && s'.hist.owner == s.hist.owner
            && s'.flight.inflight == s.flight.inflight && s'.flight.isSet == s.flight.isSet
            && (forall i | 0 <= i < |s.pcs| :: Leads(s'.pcs[i]) == Leads(s.pcs[i]))
  {
  }

  lemma SameLeads(s: State, s': State)
    requires Shape(s) && LeadInv(s) && Shape(s')
    requires |s'.pcs| == |s.pcs| && s'.hist.owner == s.hist.owner
    requires s'.flight.inflight == s.flight.inflight && s'.flight.isSet == s.flight.isSet
    requires forall i | 0 <= i < |s.pcs| ::
               KeyOf(s', i) == KeyOf(s, i) && Leads(s'.pcs[i]) == Leads(s.pcs[i])
    ensures LeadInv(s')
  {
    forall k | k in s'.flight.inflight
      ensures Registered(s', k)
    {
      assert Registered(s, k);
    }
  }

  lemma LeadJoin(c: Revalidation.Config, s: State, i: nat)
    requires Shape(s) && LeadInv(s) && Enabled(s, Join(i))
    requires Shape(Next(c, s, Join(i)))
    ensures LeadInv(Next(c, s, Join(i)))
  {
    var s' := Next(c, s, Join(i));
    if KeyOf(s, i) in s.flight.inflight {
      SameLeads(s, s');
    } else {
      forall k | k in s'.flight.inflight
        ensures Registered(s', k)
      {
        if k != KeyOf(s, i) {
          assert Registered(s, k);
        }
      }
    }
  }

  lemma LeadPublish(c: Revalidation.Config, s: State, i: nat)
    requires Shape(s) && LeadInv(s) && Enabled(s, Publish(i))
    requires Shape(Next(c, s, Publish(i)))
    ensures LeadInv(Next(c, s, Publish(i)))
  {
    var s' := Next(c, s, Publish(i));
    forall k | k in s'.flight.inflight
      ensures Registered(s', k)
    {
      assert Registered(s, k);
    }
    forall j | 0 <= j < |s'.pcs| && Leads(s'.pcs[j]).Some?
      ensures KeyOf(s, j) != KeyOf(s, i)
    {
      assert s'.pcs[j] == s.pcs[j];
    }
  }

  lemma WaitStep(c: Revalidation.Config, s: State, l: Label)
    requires Shape(s) && LeadInv(s) && WaitInv(s) && Enabled(s, l)
    ensures Shape(Next(c, s, l)) && WaitInv(Next(c, s, l))
  {
    ShapeStep(c, s, l);
    FlightStep(c, s, l);
    WaitersStep(c, s, l);
    var s' := Next(c, s, l);
    forall i | 0 <= i < |s'.pcs| && s'.pcs[i].Waiting?
      ensures Attended(s', i)
    {
      if s'.pcs[i] == s.pcs[i] {
        assert Attended(s, i);
      } else {
        assert l == Join(i) && Registered(s, KeyOf(s, i));
      }
    }
  }

  /** Events are only ever added and set; a key leaves the in-flight map only when its own
      leader sets its event. */
  lemma FlightStep(c: Revalidation.Config, s: State, l: Label)
    requires Shape(s) && LeadInv(s) && Enabled(s, l)
    ensures var s' := Next(c, s, l);
            && |s'.flight.isSet| >= |s.flight.isSet| && Shape(s')
            && (forall ev | 0 <= ev < |s.flight.isSet| ::
                  s'.hist.owner[ev] == s.hist.owner[ev]
                  && (s.flight.isSet[ev] ==> s'.flight.isSet[ev]))
            && (forall k | k in s.flight.inflight ::
                  || (k in s'.flight.inflight && s'.flight.inflight[k] == s.flight.inflight[k])
                  || (l.Publish? && KeyOf(s, l.i) == k && IsSet(s', s.flight.inflight[k])))
  {
    ShapeStep(c, s, l);
    if l.Join? && KeyOf(s, l.i) in s.flight.inflight {
      assert Registered(s, KeyOf(s, l.i));
    }
  }

  /** Only a joining caller starts to wait, for the event in flight for its key. */
  lemma WaitersStep(c: Revalidation.Config, s: State, l: Label)
    requires Shape(s) && Enabled(s, l)
    ensures var s' := Next(c, s, l);
            && |s'.pcs| == |s.pcs|
            && (forall i | 0 <= i < |s.pcs| && s'.pcs[i].Waiting? ::
                  || s'.pcs[i] == s.pcs[i]
                  || (l == Join(i) && KeyOf(s, i) in s.flight.inflight
                      && s'.pcs[i].ev == s.flight.inflight[KeyOf(s, i)]))
  {
  }

  // Who waited for whom

  /** Each waiting pair is of two callers of one key, never both ways round; and its leader
      has ended, or still leads while the waiter waits. */
  ghost predicate PairInv(s: State)
    requires Shape(s)
  {
    forall p | p in s.hist.waited :: PairOk(s, p.0, p.1)
  }

  ghost predicate PairOk(s: State, i: nat, j: nat)
    requires Shape(s)
  {
    && i < |s.pcs| && j < |s.pcs| && i != j && KeyOf(s, i) == KeyOf(s, j)
    && (j, i) !in s.hist.waited
    && (Ended(s, j) || (Leads(s.pcs[j]).Some? && s.pcs[i] == Waiting(Leads(s.pcs[j]).value)))
  }

  /** A leader keeps its event until its call ends; a waiter waits until its event is set. */
  lemma RoleStep(c: Revalidation.Config, s: State, l: Label)
    requires Shape(s) && Enabled(s, l)
    ensures var s' := Next(c, s, l);
            && Shape(s') && |s'.pcs| == |s.pcs|
            && (forall j | 0 <= j < |s.pcs| && Leads(s.pcs[j]).Some? ::
                  Leads(s'.pcs[j]) == Leads(s.pcs[j]) || Ended(s', j))
            && (forall i | 0 <= i < |s.pcs| && s.pcs[i].Waiting? ::
                  s'.pcs[i] == s.pcs[i] || IsSet(s, s.pcs[i].ev))
  {
    ShapeStep(c, s, l);
  }

  /** The pair a step adds: the joining waiter and the leader of its key. */
  function NewPair(s: State, l: Label): set<(nat, nat)>
    requires Shape(s) && Enabled(s, l)
  {
    if l.Join? && KeyOf(s, l.i) in s.flight.inflight && s.flight.inflight[KeyOf(s, l.i)] < |s.hist.owner|
    then {(l.i, s.hist.owner[s.flight.inflight[KeyOf(s, l.i)]])} else {}
  }

  lemma PairStep(c: Revalidation.Config, s: State, l: Label)
    requires Shape(s) && LeadInv(s) && WaitInv(s) && PairInv(s) && Enabled(s, l)
    ensures Shape(Next(c, s, l)) && PairInv(Next(c, s, l))
    ensures Next(c, s, l).hist.waited == s.hist.waited + NewPair(s, l)
    ensures l.Join? && KeyOf(s, l.i) in s.flight.inflight ==> |NewPair(s, l)| == 1
    ensures NewPair(s, l) !! s.hist.waited
  {
    ShapeStep(c, s, l);
    RoleStep(c, s, l);
    WaitedStep(c, s, l);
    var s' := Next(c, s, l);
    forall p | p in s'.hist.waited
      ensures PairOk(s', p.0, p.1)
    {
      if p in s.hist.waited {
        assert PairOk(s, p.0, p.1);
      } else {
        NewPairOk(c, s, l.i);
      }
    }
  }

  lemma WaitedStep(c: Revalidation.Config, s: State, l: Label)
    requires Shape(s) && LeadInv(s) && PairInv(s) && Enabled(s, l)
    ensures Next(c, s, l).hist.waited == s.hist.waited + NewPair(s, l)
    ensures l.Join? && KeyOf(s, l.i) in s.flight.inflight ==> |NewPair(s, l)| == 1
    ensures forall p | p in NewPair(s, l) :: p !in s.hist.waited && (p.1, p.0) !in s.hist.waited
  {
    if l.Join? && KeyOf(s, l.i) in s.flight.inflight {
      assert Registered(s, KeyOf(s, l.i));
      var j := s.hist.owner[s.flight.inflight[KeyOf(s, l.i)]];
      assert !PairOk(s, l.i, j) && !PairOk(s, j, l.i);
    }
  }

  lemma NewPairOk(c: Revalidation.Config, s: State, i: nat)
    requires Shape(s) && LeadInv(s) && PairInv(s) && Enabled(s, Join(i))
    requires KeyOf(s, i) in s.flight.inflight
    requires Shape(Next(c, s, Join(i)))
    ensures var j := s.hist.owner[s.flight.inflight[KeyOf(s, i)]];
            PairOk(Next(c, s, Join(i)), i, j)
  {
    assert Registered(s, KeyOf(s, i));
    WaitedStep(c, s, Join(i));
  }
}
