/** Where the outcomes of blocking factory calls go: each is published once by its leader,
    then collected by one waiter, overwritten by a later one, or left stored. */
module SyncHandOff {
  import opened Basics
  import opened SyncFlight
  import opened SyncMachine
  import Front
  import Revalidation

  /** `made` holds the outcome of the caller's own factory call from the call to the end. */
  ghost predicate MadeInv(s: State)
    requires Shape(s)
  {
    forall i | 0 <= i < |s.pcs| :: MadeOk(s, i)
  }

  ghost predicate MadeOk(s: State, i: nat)
    requires Shape(s) && i < |s.pcs|
  {
    match s.pcs[i]
    case Writing(_, v) => s.hist.made[i] == Some(Returns(v))
    case Publishing(_, out) => s.hist.made[i] == Some(out)
    case Idle => Ended(s, i) || s.hist.made[i] == None
    case _ => s.hist.made[i] == None
  }

  lemma MadeStep(c: Revalidation.Config, s: State, l: Label)
    requires Shape(s) && MadeInv(s) && Enabled(s, l)
    ensures Shape(Next(c, s, l)) && MadeInv(Next(c, s, l))
  {
    ShapeStep(c, s, l);
    var s' := Next(c, s, l);
    forall i | 0 <= i < |s'.pcs| ensures MadeOk(s', i) {
      assert MadeOk(s, i);
    }
  }

  // Accounting for published outcomes

  ghost predicate Published(s: State, t: nat)
    requires Shape(s)
  {
    t < |s.pcs| && Ended(s, t) && s.hist.made[t].Some?
  }

  /** What the results (or the errors) hold for a key. */
  function Slot(f: Flight, k: Key, error: bool): Option<Outcome> {
    if error then if k in f.errors then Some(Raises(f.errors[k])) else None
    else if k in f.results then Some(Returns(f.results[k])) else None
  }

  /** A stored outcome is that of its recorded publisher, a call for the key whose outcome is
      nowhere else. */
  ghost predicate SlotOk(s: State, k: Key, error: bool)
    requires Shape(s)
  {
    && (Slot(s.flight, k, error).Some? <==> (k, error) in s.hist.from)
    && ((k, error) in s.hist.from ==>
          var t := s.hist.from[(k, error)];
          && Published(s, t) && KeyOf(s, t) == k && s.hist.made[t] == Slot(s.flight, k, error)
          && t !in s.hist.taken && t !in s.hist.lost)
  }

  /** `x`, another call for the key, overwrote the outcome of `t`. */
  ghost predicate Overwritten(s: State, t: nat, x: nat)
    requires Shape(s)
  {
    Published(s, t) && Published(s, x) && x != t && KeyOf(s, x) == KeyOf(s, t)
  }

  ghost predicate StoreInv(s: State)
    requires Shape(s)
  {
    && (forall k, error :: SlotOk(s, k, error))
    && (forall t | t in s.hist.lost :: Overwritten(s, t, s.hist.lost[t]))
  }

  /** `c` collected the outcome of `t`, another call for the same key, and ended with it. */
  ghost predicate Collected(s: State, t: nat, c: nat)
    requires Shape(s)
  {
    && Published(s, t) && t !in s.hist.lost
    && c < |s.pcs| && Ended(s, c) && s.hist.made[c] == None
    && KeyOf(s, c) == KeyOf(s, t) && s.hist.source[c] == Some(t)
    && Front.Agrees(s.front.callers[c].pc.fin, s.hist.made[t].value)
  }

  ghost predicate TakeInv(s: State)
    requires Shape(s)
  {
    && (forall t | t in s.hist.taken :: Collected(s, t, s.hist.taken[t]))
    && (forall c | 0 <= c < |s.pcs| && s.hist.source[c].Some? ::
          s.hist.source[c].value in s.hist.taken && s.hist.taken[s.hist.source[c].value] == c)
  }

  ghost predicate AllInv(s: State)
    requires Shape(s)
  {
    forall t | 0 <= t < |s.pcs| && Published(s, t) :: Accounted(s, t)
  }

  ghost predicate Accounted(s: State, t: nat)
    requires Shape(s) && Published(s, t)
  {
    && Front.Agrees(s.front.callers[t].pc.fin, s.hist.made[t].value)
    && (t in s.hist.taken || t in s.hist.lost || InSlot(s, t, false) || InSlot(s, t, true))
  }

  predicate InSlot(s: State, t: nat, error: bool)
    requires Shape(s) && t < |s.pcs|
  {
    (KeyOf(s, t), error) in s.hist.from && s.hist.from[(KeyOf(s, t), error)] == t
  }

  ghost predicate HandInv(s: State)
    requires Shape(s)
  {
    MadeInv(s) && StoreInv(s) && TakeInv(s) && AllInv(s)
  }

  lemma HandStep(c: Revalidation.Config, s: State, l: Label)
    requires Shape(s) && HandInv(s) && Enabled(s, l)
    ensures Shape(Next(c, s, l)) && HandInv(Next(c, s, l))
  {
    ShapeStep(c, s, l);
    MadeStep(c, s, l);
    match l
    case Collect(i) => HandCollect(c, s, i);
    case Publish(i) => HandPublish(c, s, i);
    case FrontStep(fl) => OtherSteps(c, s, l); SameHand(s, Next(c, s, l));
    case Join(i) => OtherSteps(c, s, l); SameHand(s, Next(c, s, l));
    case Wake(i) => OtherSteps(c, s, l); SameHand(s, Next(c, s, l));
    case RunFactory(i, out) => OtherSteps(c, s, l); SameHand(s, Next(c, s, l));
    case Write(i, stored) => OtherSteps(c, s, l); SameHand(s, Next(c, s, l));
  }

  /** Nothing about published outcomes changed. */
  ghost predicate Untouched(s: State, s': State)
    requires Shape(s) && Shape(s')
  {
    && |s'.pcs| == |s.pcs|
    && s'.flight.results == s.flight.results && s'.flight.errors == s.flight.errors
    && s'.hist.from == s.hist.from && s'.hist.taken == s.hist.taken
    && s'.hist.lost == s.hist.lost && s'.hist.source == s.hist.source
    && (forall i | 0 <= i < |s.pcs| ::
          && KeyOf(s', i) == KeyOf(s, i)
          && (Ended(s, i) ==> s'.front.callers[i].pc == s.front.callers[i].pc
                              && s'.hist.made[i] == s.hist.made[i])
          && (Ended(s', i) && !Ended(s, i) ==> s'.hist.made[i] == None))
  }

  lemma OtherSteps(c: Revalidation.Config, s: State, l: Label)
    requires Shape(s) && MadeInv(s) && Enabled(s, l) && !l.Collect? && !l.Publish?
    ensures Shape(Next(c, s, l)) && Untouched(s, Next(c, s, l))
  {
    ShapeStep(c, s, l);
    forall i | 0 <= i < |s.pcs| && !Ended(s, i) && Ended(Next(c, s, l), i)
      ensures Next(c, s, l).hist.made[i] == None
    {
      assert MadeOk(s, i);
    }
  }

  lemma SameHand(s: State, s': State)
    requires Shape(s) && Shape(s') && StoreInv(s) && TakeInv(s) && AllInv(s) && Untouched(s, s')
    ensures StoreInv(s') && TakeInv(s') && AllInv(s')
  {
    forall k, error ensures SlotOk(s', k, error) {
      assert SlotOk(s, k, error);
    }
    forall t | 0 <= t < |s'.pcs| && Published(s', t) ensures Accounted(s', t) {
      assert Accounted(s, t);
    }
    forall t | t in s'.hist.lost ensures Overwritten(s', t, s'.hist.lost[t]) {
      assert Overwritten(s, t, s.hist.lost[t]);
    }
    forall t | t in s'.hist.taken ensures Collected(s', t, s'.hist.taken[t]) {
      assert Collected(s, t, s.hist.taken[t]);
    }
  }

  /** Caller `i` ended with `out`; every other call is where it was. */
  ghost predicate EndedWith(s: State, s': State, i: nat, out: Outcome)
    requires Shape(s) && Shape(s') && i < |s.pcs|
  {
    && |s'.pcs| == |s.pcs| && s'.hist.made == s.hist.made
    && !Ended(s, i) && Ended(s', i) && Front.Agrees(s'.front.callers[i].pc.fin, out)
    && (forall j | 0 <= j < |s.pcs| :: KeyOf(s', j) == KeyOf(s, j))
    && (forall j | 0 <= j < |s.pcs| && j != i :: s'.front.callers[j].pc == s.front.callers[j].pc)
  }

  /** The slot for (`k`, `error`) now holds `now`; the other slots are as they were. */
  ghost predicate SlotSet(f: Flight, f': Flight, k: Key, error: bool, now: Option<Outcome>) {
    forall x, e :: Slot(f', x, e) == if (x, e) == (k, error) then now else Slot(f, x, e)
  }

  lemma HandCollect(c: Revalidation.Config, s: State, i: nat)
    requires Shape(s) && HandInv(s) && Enabled(s, Collect(i)) && Shape(Next(c, s, Collect(i)))
    ensures var s' := Next(c, s, Collect(i)); StoreInv(s') && TakeInv(s') && AllInv(s')
  {
    var k, s' := KeyOf(s, i), Next(c, s, Collect(i));
    assert MadeOk(s, i);
    var error := k in s.flight.errors;
    if Slot(s.flight, k, error).Some? {
      assert SlotOk(s, k, error);
      CollectEffect(c, s, i);
      CollectAccounts(s, s', i, error);
    } else {
      SameHand(s, s');
    }
  }

  ghost predicate Took(s: State, s': State, i: nat, error: bool)
    requires Shape(s) && Shape(s') && i < |s.pcs|
  {
    var slot := (KeyOf(s, i), error);
    && slot in s.hist.from && Slot(s.flight, slot.0, error).Some?
    && EndedWith(s, s', i, Slot(s.flight, slot.0, error).value)
    && SlotSet(s.flight, s'.flight, slot.0, error, None)
    && s'.hist.from == s.hist.from - {slot} && s'.hist.lost == s.hist.lost
    && s'.hist.taken == s.hist.taken[s.hist.from[slot] := i]
    && s'.hist.source == s.hist.source[i := Some(s.hist.from[slot])]
  }

  lemma CollectEffect(c: Revalidation.Config, s: State, i: nat)
    requires Shape(s) && Enabled(s, Collect(i)) && Shape(Next(c, s, Collect(i)))
    requires var k := KeyOf(s, i);
             Slot(s.flight, k, k in s.flight.errors).Some? && (k, k in s.flight.errors) in s.hist.from
    ensures Took(s, Next(c, s, Collect(i)), i, KeyOf(s, i) in s.flight.errors)
  {
  }

  lemma CollectAccounts(s: State, s': State, i: nat, error: bool)
    requires Shape(s) && Shape(s') && HandInv(s) && i < |s.pcs| && Took(s, s', i, error)
    requires s.hist.made[i] == None
    ensures StoreInv(s') && TakeInv(s') && AllInv(s')
  {
    CollectKeepsStore(s, s', i, error);
    CollectTakes(s, s', i, error);
    forall x | 0 <= x < |s'.pcs| && Published(s', x) ensures Accounted(s', x) {
      CollectKeepsAccount(s, s', i, error, x);
    }
  }

  lemma CollectKeepsStore(s: State, s': State, i: nat, error: bool)
    requires Shape(s) && Shape(s') && StoreInv(s) && i < |s.pcs| && Took(s, s', i, error)
    ensures StoreInv(s')
  {
    var t := s.hist.from[(KeyOf(s, i), error)];
    assert SlotOk(s, KeyOf(s, i), error);
    forall k, e ensures SlotOk(s', k, e) {
      assert SlotOk(s, k, e);
    }
    forall x | x in s'.hist.lost ensures Overwritten(s', x, s'.hist.lost[x]) {
      assert Overwritten(s, x, s.hist.lost[x]);
    }
  }

  lemma CollectTakes(s: State, s': State, i: nat, error: bool)
    requires Shape(s) && Shape(s') && StoreInv(s) && TakeInv(s) && i < |s.pcs| && Took(s, s', i, error)
    requires s.hist.made[i] == None
    ensures TakeInv(s')
  {
    var t := s.hist.from[(KeyOf(s, i), error)];
    assert SlotOk(s, KeyOf(s, i), error);
    forall x | x in s'.hist.taken ensures Collected(s', x, s'.hist.taken[x]) {
      assert x != t ==> Collected(s, x, s.hist.taken[x]);
    }
  }

  lemma CollectKeepsAccount(s: State, s': State, i: nat, error: bool, x: nat)
    requires Shape(s) && Shape(s') && AllInv(s) && i < |s.pcs| && Took(s, s', i, error)
    requires s.hist.made[i] == None && x < |s.pcs| && Published(s', x)
    ensures Accounted(s', x)
  {
    assert Published(s, x) && Accounted(s, x);
  }

  ghost predicate Stored(s: State, s': State, i: nat, out: Outcome)
    requires Shape(s) && Shape(s') && i < |s.pcs|
  {
    var slot := (KeyOf(s, i), out.Raises?);
    && EndedWith(s, s', i, out)
    && SlotSet(s.flight, s'.flight, slot.0, out.Raises?, Some(out))
    && s'.hist.from == s.hist.from[slot := i]
    && s'.hist.lost == (if slot in s.hist.from then s.hist.lost[s.hist.from[slot] := i] else s.hist.lost)
    && s'.hist.taken == s.hist.taken && s'.hist.source == s.hist.source
  }

  lemma HandPublish(c: Revalidation.Config, s: State, i: nat)
    requires Shape(s) && HandInv(s) && Enabled(s, Publish(i)) && Shape(Next(c, s, Publish(i)))
    ensures var s' := Next(c, s, Publish(i)); StoreInv(s') && TakeInv(s') && AllInv(s')
  {
    assert MadeOk(s, i);
    PublishEffect(c, s, i);
    PublishAccounts(s, Next(c, s, Publish(i)), i, s.pcs[i].out);
  }

  lemma PublishEffect(c: Revalidation.Config, s: State, i: nat)
    requires Shape(s) && Enabled(s, Publish(i)) && Shape(Next(c, s, Publish(i)))
    ensures Stored(s, Next(c, s, Publish(i)), i, s.pcs[i].out)
  {
  }

  lemma PublishAccounts(s: State, s': State, i: nat, out: Outcome)
    requires Shape(s) && Shape(s') && HandInv(s) && i < |s.pcs| && Stored(s, s', i, out)
    requires s.hist.made[i] == Some(out)
    ensures StoreInv(s') && TakeInv(s') && AllInv(s')
  {
    PublishStores(s, s', i, out);
    PublishOverwrites(s, s', i, out);
    PublishKeepsTaken(s, s', i, out);
    forall x | 0 <= x < |s'.pcs| && Published(s', x) ensures Accounted(s', x) {
      PublishKeepsAccount(s, s', i, out, x);
    }
  }

  lemma PublishStores(s: State, s': State, i: nat, out: Outcome)
    requires Shape(s) && Shape(s') && StoreInv(s) && TakeInv(s) && i < |s.pcs| && Stored(s, s', i, out)
    requires s.hist.made[i] == Some(out)
    ensures forall k, e :: SlotOk(s', k, e)
  {
    assert SlotOk(s, KeyOf(s, i), out.Raises?);
    assert i in s.hist.taken ==> Collected(s, i, s.hist.taken[i]);
    assert i in s.hist.lost ==> Overwritten(s, i, s.hist.lost[i]);
    forall k, e ensures SlotOk(s', k, e) {
      assert SlotOk(s, k, e);
    }
  }

  lemma PublishOverwrites(s: State, s': State, i: nat, out: Outcome)
    requires Shape(s) && Shape(s') && StoreInv(s) && i < |s.pcs| && Stored(s, s', i, out)
    requires s.hist.made[i] == Some(out)
    ensures forall x | x in s'.hist.lost :: Overwritten(s', x, s'.hist.lost[x])
  {
    assert SlotOk(s, KeyOf(s, i), out.Raises?);
    forall x | x in s'.hist.lost ensures Overwritten(s', x, s'.hist.lost[x]) {
      assert x in s.hist.lost ==> Overwritten(s, x, s.hist.lost[x]);
    }
  }

  lemma PublishKeepsTaken(s: State, s': State, i: nat, out: Outcome)
    requires Shape(s) && Shape(s') && StoreInv(s) && TakeInv(s) && i < |s.pcs| && Stored(s, s', i, out)
    ensures TakeInv(s')
  {
    assert SlotOk(s, KeyOf(s, i), out.Raises?);
    forall x | x in s'.hist.taken ensures Collected(s', x, s'.hist.taken[x]) {
      assert Collected(s, x, s.hist.taken[x]);
    }
  }

  lemma PublishKeepsAccount(s: State, s': State, i: nat, out: Outcome, x: nat)
    requires Shape(s) && Shape(s') && AllInv(s) && i < |s.pcs| && Stored(s, s', i, out)
    requires s.hist.made[i] == Some(out) && x < |s.pcs| && Published(s', x)
    ensures Accounted(s', x)
  {
    assert x != i ==> Published(s, x) && Accounted(s, x);
  }

  // What it says

  /** What a waiter collected was made by the factory call of another call for its key, and
      nobody else collected it. */
  lemma Provenance(s: State, c: nat)
    requires Shape(s) && HandInv(s) && c < |s.pcs| && s.hist.source[c].Some?
    ensures var t := s.hist.source[c].value;
            && t < |s.pcs| && t != c && KeyOf(s, t) == KeyOf(s, c)
            && s.hist.made[t].Some?
            && Ended(s, c) && Front.Agrees(s.front.callers[c].pc.fin, s.hist.made[t].value)
            && (forall d | 0 <= d < |s.pcs| && s.hist.source[d] == Some(t) :: d == c)
  {
    assert Collected(s, s.hist.source[c].value, c);
  }

  function PublishedSet(s: State, k: Key): set<nat>
    requires Shape(s)
  {
    set t | 0 <= t < |s.pcs| && KeyOf(s, t) == k && Ended(s, t) && s.hist.made[t].Some?
  }

  function TakenSet(s: State, k: Key): set<nat>
    requires Shape(s)
  {
    set t | 0 <= t < |s.pcs| && KeyOf(s, t) == k && t in s.hist.taken
  }

  function LostSet(s: State, k: Key): set<nat>
    requires Shape(s)
  {
    set t | 0 <= t < |s.pcs| && KeyOf(s, t) == k && t in s.hist.lost
  }

  function StoredCount(f: Flight, k: Key): nat {
    (if k in f.results then 1 else 0) + (if k in f.errors then 1 else 0)
  }

  /** Per key: published outcomes are those collected, those overwritten and those stored. */
  lemma OutcomesConserved(s: State, k: Key)
    requires Shape(s) && HandInv(s)
    ensures |PublishedSet(s, k)| == |TakenSet(s, k)| + |LostSet(s, k)| + StoredCount(s.flight, k)
  {
    var stored := StoredSet(s, k);
    StoredSetSize(s, k);
    forall t | t in TakenSet(s, k) ensures t in PublishedSet(s, k) && t !in LostSet(s, k) {
      assert Collected(s, t, s.hist.taken[t]);
    }
    forall t | t in PublishedSet(s, k) ensures t in TakenSet(s, k) + LostSet(s, k) + stored {
      assert Accounted(s, t);
    }
    assert PublishedSet(s, k) == TakenSet(s, k) + LostSet(s, k) + stored;
    assert |TakenSet(s, k) + LostSet(s, k)| == |TakenSet(s, k)| + |LostSet(s, k)|;
  }

  function StoredSet(s: State, k: Key): set<nat> {
    (if (k, false) in s.hist.from then {s.hist.from[(k, false)]} else {}) +
    (if (k, true) in s.hist.from then {s.hist.from[(k, true)]} else {})
  }

  lemma StoredSetSize(s: State, k: Key)
    requires Shape(s) && StoreInv(s)
    ensures |StoredSet(s, k)| == StoredCount(s.flight, k)
    ensures StoredSet(s, k) <= PublishedSet(s, k)
    ensures StoredSet(s, k) !! LostSet(s, k) && StoredSet(s, k) !! TakenSet(s, k)
  {
    assert SlotOk(s, k, false) && SlotOk(s, k, true);
  }
}
