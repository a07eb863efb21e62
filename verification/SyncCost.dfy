/** What re-entry costs the sync class: factory calls, waits and steps, over any run. */
module SyncCost {
  import opened Basics
  import opened SyncMachine
  import opened SyncHandOff
  import opened SyncRuns
  import opened Pairs
  import opened Sums
  import opened Runs
  import Front
  import Revalidation

  // Who has led, who has collected, who has waited how often

  function Led(s: State, who: set<nat>): set<nat> {
    set i | i in who && i < |s.pcs| == |s.hist.made| && HasLed(s, i)
  }

  predicate HasLed(s: State, i: nat)
    requires i < |s.pcs| == |s.hist.made|
  {
    s.hist.made[i].Some? || Leads(s.pcs[i]).Some?
  }

  function Took(s: State, who: set<nat>): set<nat> {
    set i | i in who && i < |s.hist.source| && s.hist.source[i].Some?
  }

  function Waits(s: State, i: nat): nat {
    |Picked(s.hist.waited, {i})|
  }

  predicate Holds(s: State, k: Key) {
    k in s.flight.results || k in s.flight.errors
  }

  /** The wait caller `i` is in may still be paid for by a collection to come: its event is
      unset, or set with an outcome left to collect. */
  function Credit(s: State, i: nat): nat
    requires Shape(s) && i < |s.pcs|
  {
    match s.pcs[i]
    case Waiting(ev) => if !IsSet(s, ev) || Holds(s, KeyOf(s, i)) then 1 else 0
    case Collecting(_) => if Holds(s, KeyOf(s, i)) then 1 else 0
    case _ => 0
  }

  /** All the calls for the keys of `who` are in `who`. */
  ghost predicate Closed(w: World, who: set<nat>) {
    && (forall i | i in who :: i < |w.calls|)
    && (forall i, j | i in who && 0 <= j < |w.calls| && w.calls[i].key == w.calls[j].key :: j in who)
  }

  /** Who led waited once per leader and collector at most; who may wait again waited once per
      collection, so far; and everyone waited only for leaders. */
  ghost predicate Bill(s: State, who: set<nat>)
    requires Shape(s)
  {
    && |Picked(s.hist.waited, Led(s, who) + Took(s, who))| <= |Led(s, who)| * |Took(s, who)|
    && (forall i | i in who && i < |s.pcs| && i !in Led(s, who) + Took(s, who) ::
          Waits(s, i) <= |Took(s, who)| + Credit(s, i))
    && (forall p | p in s.hist.waited && p.0 in who :: p.1 in Led(s, who))
  }

  ghost predicate Billed(w: World, who: set<nat>, s: State) {
    Good(w, s) && Closed(w, who) && Bill(s, who)
  }

  lemma WaitsForLeaders(s: State, who: set<nat>, i: nat)
    requires Shape(s) && Bill(s, who) && i in who
    ensures Waits(s, i) <= |Led(s, who)|
  {
    Partners(Picked(s.hist.waited, {i}), i, Led(s, who));
  }

  // Each step keeps the bill

  /** The joining caller finds its key in flight. */
  predicate Joins(s: State, i: nat)
    requires i < |s.front.callers|
  {
    KeyOf(s, i) in s.flight.inflight
  }

  /** The woken caller finds something stored for its key. */
  predicate Collects(s: State, i: nat)
    requires i < |s.front.callers|
  {
    Holds(s, KeyOf(s, i))
  }

  lemma HasLedStep(w: World, s: State, l: Label)
    requires Good(w, s) && Enabled(s, l)
    ensures var s' := Next(w.config, s, l);
            && |s'.pcs| == |s.pcs| == |s.hist.made| == |s'.hist.made|
            && forall i | 0 <= i < |s.pcs| ::
                 HasLed(s', i) <==> HasLed(s, i) || (l == Join(i) && !Joins(s, i))
  {
    ShapeStep(w.config, s, l);
    MadeGrows(w.config, s, l);
    forall i | 0 <= i < |s.pcs|
      ensures HasLed(Next(w.config, s, l), i) <==> HasLed(s, i) || (l == Join(i) && !Joins(s, i))
    {
      if l.FrontStep? || l.i != i {
        Bystander(w, s, l, i);
      } else {
        assert MadeOk(s, i);
        OwnStep(w, s, l);
      }
    }
  }

  /** A caller's own step keeps it leading, unless it joins and leads, or publishes and ends. */
  lemma OwnStep(w: World, s: State, l: Label)
    requires Good(w, s) && Enabled(s, l) && !l.FrontStep?
    ensures var s' := Next(w.config, s, l);
            && l.i < |s'.pcs| == |s.pcs|
            && (Leads(s'.pcs[l.i]).Some? <==>
                  (Leads(s.pcs[l.i]).Some? && !l.Publish?) || (l.Join? && !Joins(s, l.i)))
  {
  }

  /** Who has led and who has collected once step `l` is taken. */
  function LedNow(s: State, who: set<nat>, l: Label): set<nat>
    requires Enabled(s, l)
  {
    if l.Join? && !Joins(s, l.i) && l.i in who then Led(s, who) + {l.i} else Led(s, who)
  }

  function TookNow(s: State, who: set<nat>, l: Label): set<nat>
    requires Enabled(s, l)
  {
    if l.Collect? && Collects(s, l.i) && l.i in who then Took(s, who) + {l.i} else Took(s, who)
  }

  /** Only a caller that joins and finds nothing in flight becomes a leader. */
  lemma LedStep(w: World, who: set<nat>, s: State, l: Label)
    requires Good(w, s) && Enabled(s, l)
    ensures Led(Next(w.config, s, l), who) ==
            LedNow(s, who, l)
  {
    HasLedStep(w, s, l);
  }

  /** Only a woken caller that finds something stored becomes a collector. */
  lemma TookStep(w: World, who: set<nat>, s: State, l: Label)
    requires Good(w, s) && Enabled(s, l)
    ensures Took(Next(w.config, s, l), who) ==
            TookNow(s, who, l)
  {
    SourceStep(w, s, l);
  }

  lemma SourceStep(w: World, s: State, l: Label)
    requires Good(w, s) && Enabled(s, l)
    ensures var s' := Next(w.config, s, l);
            && |s'.hist.source| == |s.hist.source|
            && forall i | 0 <= i < |s.hist.source| ::
                 s'.hist.source[i].Some? <==> s.hist.source[i].Some? || (l == Collect(i) && Collects(s, i))
  {
    if !l.Collect? {
      SourceStays(w, s, l);
    }
  }

  lemma SourceStays(w: World, s: State, l: Label)
    requires Enabled(s, l) && !l.Collect?
    ensures Next(w.config, s, l).hist.source == s.hist.source
  {
  }

  /** A wait loses its credit only to a collection for its key. */
  lemma CreditStep(w: World, s: State, l: Label, i: nat)
    requires Good(w, s) && Enabled(s, l) && i < |s.pcs| && l != Join(i)
    requires Shape(Next(w.config, s, l)) && i < |Next(w.config, s, l).pcs|
    requires !(l == Collect(i) && Collects(s, i))
    ensures Credit(s, i) <= Credit(Next(w.config, s, l), i) +
                            (if l.Collect? && Collects(s, l.i) && KeyOf(s, l.i) == KeyOf(s, i) then 1 else 0)
  {
    HoldsStep(w, s, l);
    if l.FrontStep? || l.i != i {
      Bystander(w, s, l, i);
      if s.pcs[i].Waiting? {
        EventStep(w, s, l, i);
      }
    }
  }

  lemma Bystander(w: World, s: State, l: Label, i: nat)
    requires Good(w, s) && Enabled(s, l) && i < |s.pcs| && (l.FrontStep? || l.i != i)
    ensures var s' := Next(w.config, s, l);
            && i < |s'.pcs| == |s'.front.callers| && KeyOf(s', i) == KeyOf(s, i)
            && (s'.pcs[i] == s.pcs[i] || (s.pcs[i] == Idle && s'.pcs[i] == Joining))
  {
    ShapeStep(w.config, s, l);
  }

  /** A waiter's event is set only by a leader of its key, who leaves something stored. */
  lemma EventStep(w: World, s: State, l: Label, i: nat)
    requires Good(w, s) && Enabled(s, l) && i < |s.pcs| && s.pcs[i].Waiting?
    ensures IsSet(s, s.pcs[i].ev) ==> IsSet(Next(w.config, s, l), s.pcs[i].ev)
    ensures IsSet(Next(w.config, s, l), s.pcs[i].ev) ==>
              IsSet(s, s.pcs[i].ev) || (l.Publish? && KeyOf(s, l.i) == KeyOf(s, i))
  {
    assert Attended(s, i);
    FlightStep(w.config, s, l);
    SetsStep(w.config, s, l);
  }

  lemma SetsStep(c: Revalidation.Config, s: State, l: Label)
    requires Shape(s) && LeadInv(s) && Enabled(s, l)
    ensures forall ev | 0 <= ev < |s.flight.isSet| && IsSet(Next(c, s, l), ev) ::
              IsSet(s, ev) || (l.Publish? && ev == s.pcs[l.i].ev && s.hist.owner[ev] == l.i)
  {
  }

  lemma HoldsStep(w: World, s: State, l: Label)
    requires Good(w, s) && Enabled(s, l)
    ensures forall k | Holds(s, k) && !(l.Collect? && KeyOf(s, l.i) == k) :: Holds(Next(w.config, s, l), k)
    ensures l.Publish? ==> Holds(Next(w.config, s, l), KeyOf(s, l.i))
  {
  }

  lemma NotYet(w: World, s: State, i: nat)
    requires Good(w, s) && i < |s.pcs| && (s.pcs[i].Joining? || s.pcs[i].Collecting?)
    ensures !HasLed(s, i) && s.hist.source[i] == None
  {
    assert MadeOk(s, i);
    assert s.hist.source[i].Some? ==> Collected(s, s.hist.source[i].value, i);
  }

  lemma BillStep(w: World, who: set<nat>, s: State, l: Label)
    requires Billed(w, who, s) && Enabled(s, l)
    ensures Shape(Next(w.config, s, l)) && Bill(Next(w.config, s, l), who)
  {
    ShapeStep(w.config, s, l);
    LedStep(w, who, s, l);
    TookStep(w, who, s, l);
    PairStep(w.config, s, l);
    var s' := Next(w.config, s, l);
    ProductStep(w, who, s, l);
    NewPairLed(w, who, s, l);
    forall i | i in who && i < |s'.pcs| && i !in Led(s', who) + Took(s', who)
      ensures Waits(s', i) <= |Took(s', who)| + Credit(s', i)
    {
      WaitsStep(w, who, s, l, i);
    }
  }

  lemma NewPairLed(w: World, who: set<nat>, s: State, l: Label)
    requires Billed(w, who, s) && Enabled(s, l)
    ensures forall p | p in NewPair(s, l) && p.0 in who :: p.1 in Led(s, who)
  {
    NewPairLeads(s, l);
    assert forall p | p in NewPair(s, l) && p.0 in who :: w.calls[p.0].key == w.calls[p.1].key;
  }

  lemma NewPairLeads(s: State, l: Label)
    requires Shape(s) && LeadInv(s) && Enabled(s, l)
    ensures forall p | p in NewPair(s, l) ::
              && p.0 < |s.pcs| && s.pcs[p.0].Joining? && p.1 < |s.pcs|
              && KeyOf(s, p.1) == KeyOf(s, p.0) && Leads(s.pcs[p.1]).Some?
  {
    if l.Join? && Joins(s, l.i) {
      assert Registered(s, KeyOf(s, l.i));
    }
  }

  lemma ProductStep(w: World, who: set<nat>, s: State, l: Label)
    requires Billed(w, who, s) && Enabled(s, l)
    ensures |Picked(s.hist.waited + NewPair(s, l), LedNow(s, who, l) + TookNow(s, who, l))|
            <= |LedNow(s, who, l)| * |TookNow(s, who, l)|
  {
    if l.Join? && !Joins(s, l.i) && l.i in who {
      LeadPays(w, who, s, l.i);
    } else if l.Collect? && Collects(s, l.i) && l.i in who {
      TakePays(w, who, s, l.i);
    } else {
      StayPays(w, who, s, l);
    }
  }

  lemma StayPays(w: World, who: set<nat>, s: State, l: Label)
    requires Billed(w, who, s) && Enabled(s, l)
    ensures |Picked(s.hist.waited + NewPair(s, l), Led(s, who) + Took(s, who))| <= |Led(s, who)| * |Took(s, who)|
  {
    OnlyFresh(w, who, s, l);
    PickedStays(s.hist.waited, NewPair(s, l), Led(s, who) + Took(s, who));
  }

  lemma LeadPays(w: World, who: set<nat>, s: State, i: nat)
    requires Billed(w, who, s) && Enabled(s, Join(i)) && !Joins(s, i) && i in who
    ensures var led, took := Led(s, who) + {i}, Took(s, who);
            |Picked(s.hist.waited + NewPair(s, Join(i)), led + took)| <= |led| * |took|
  {
    NotYet(w, s, i);
    assert Credit(s, i) == 0 && s.hist.waited + NewPair(s, Join(i)) == s.hist.waited;
    ProductGrows(s.hist.waited, Led(s, who), Took(s, who), i);
  }

  lemma TakePays(w: World, who: set<nat>, s: State, i: nat)
    requires Billed(w, who, s) && Enabled(s, Collect(i)) && i in who
    ensures var led, took := Led(s, who), Took(s, who) + {i};
            |Picked(s.hist.waited + NewPair(s, Collect(i)), led + took)| <= |led| * |took|
  {
    NotYet(w, s, i);
    assert s.hist.waited + NewPair(s, Collect(i)) == s.hist.waited;
    WaitsForLeaders(s, who, i);
    ProductGrows(s.hist.waited, Led(s, who), Took(s, who), i);
  }

  lemma OnlyFresh(w: World, who: set<nat>, s: State, l: Label)
    requires Good(w, s) && Enabled(s, l)
    ensures forall p | p in NewPair(s, l) :: p.0 !in Led(s, who) + Took(s, who)
  {
    NewPairLeads(s, l);
    if l.Join? {
      NotYet(w, s, l.i);
    }
  }

  lemma PickedStays(waited: set<(nat, nat)>, added: set<(nat, nat)>, past: set<nat>)
    ensures (forall p | p in added :: p.0 !in past) ==> Picked(waited + added, past) == Picked(waited, past)
  {
  }

  lemma ProductGrows(waited: set<(nat, nat)>, led: set<nat>, took: set<nat>, x: nat)
    requires |Picked(waited, led + took)| <= |led| * |took| && x !in led + took
    ensures |Picked(waited, {x})| <= |took| ==> |Picked(waited, led + {x} + took)| <= |led + {x}| * |took|
    ensures |Picked(waited, {x})| <= |led| ==> |Picked(waited, led + (took + {x}))| <= |led| * |took + {x}|
  {
    PickedByMore(waited, led + took, {x});
    assert led + {x} + took == led + took + {x} == led + (took + {x});
    Grown(|led|, |took|);
  }

  lemma Grown(a: nat, b: nat)
    ensures a * b + b == (a + 1) * b && a * b + a == a * (b + 1)
  {
  }

  lemma WaitsStep(w: World, who: set<nat>, s: State, l: Label, i: nat)
    requires Billed(w, who, s) && Enabled(s, l) && i in who && i < |s.pcs|
    requires i !in LedNow(s, who, l) + TookNow(s, who, l)
    requires var s' := Next(w.config, s, l);
             && Shape(s') && |s'.pcs| == |s.pcs|
             && s'.hist.waited == s.hist.waited + NewPair(s, l) && NewPair(s, l) !! s.hist.waited
    ensures Waits(Next(w.config, s, l), i) <= |TookNow(s, who, l)| + Credit(Next(w.config, s, l), i)
  {
    PickedFromMore(s.hist.waited, NewPair(s, l), {i});
    if l == Join(i) {
      JoinCredit(w, s, i);
      SubsetSize(Picked(NewPair(s, l), {i}), NewPair(s, l));
    } else {
      assert Picked(NewPair(s, l), {i}) == {};
      CreditStep(w, s, l, i);
      TookGrows(w, who, s, l, i);
    }
  }

  /** A collection for the key of a caller in `who` is by one in `who`. */
  lemma TookGrows(w: World, who: set<nat>, s: State, l: Label, i: nat)
    requires Billed(w, who, s) && Enabled(s, l) && i in who && i < |s.pcs|
    ensures |TookNow(s, who, l)| >= |Took(s, who)|
            + (if l.Collect? && Collects(s, l.i) && KeyOf(s, l.i) == KeyOf(s, i) then 1 else 0)
  {
    if l.Collect? && Collects(s, l.i) && KeyOf(s, l.i) == KeyOf(s, i) {
      SameKeyIn(w, who, s, i, l.i);
      NotYet(w, s, l.i);
      assert l.i !in Took(s, who);
    }
  }

  lemma SameKeyIn(w: World, who: set<nat>, s: State, i: nat, j: nat)
    requires Good(w, s) && Closed(w, who) && i in who && i < |s.pcs| && j < |s.pcs| && KeyOf(s, j) == KeyOf(s, i)
    ensures j in who
  {
    assert w.calls[i].key == w.calls[j].key;
  }

  lemma JoinCredit(w: World, s: State, i: nat)
    requires Good(w, s) && Enabled(s, Join(i)) && Joins(s, i) && Shape(Next(w.config, s, Join(i)))
    ensures Credit(s, i) == 0 && Credit(Next(w.config, s, Join(i)), i) == 1 && |NewPair(s, Join(i))| == 1
  {
    assert Registered(s, KeyOf(s, i));
  }

  ghost function IsBilled(w: World, who: set<nat>): State -> bool {
    s => Billed(w, who, s)
  }

  lemma BilledAt(w: World, who: set<nat>, run: seq<Label>, n: nat)
    requires Closed(w, who) && Valid(Sys(w), run) && n <= |run|
    ensures Billed(w, who, At(Sys(w), run, n))
  {
    GoodInductive(w);
    StartBilled(w, who);
    forall s, l | Billed(w, who, s) && Enabled(s, l) ensures Billed(w, who, Next(w.config, s, l)) {
      GoodStep(w, s, l);
      BillStep(w, who, s, l);
    }
    Invariant(Sys(w), IsBilled(w, who), run, n);
  }

  lemma StartBilled(w: World, who: set<nat>)
    requires Closed(w, who) && Good(w, Start(w.calls, w.clock))
    ensures Billed(w, who, Start(w.calls, w.clock))
  {
    var s := Start(w.calls, w.clock);
    assert Picked(s.hist.waited, Led(s, who) + Took(s, who)) == {};
    forall i | i in who ensures Waits(s, i) == 0 {
      assert Picked(s.hist.waited, {i}) == {};
    }
  }

  lemma WaitsBound(w: World, who: set<nat>, s: State)
    requires Billed(w, who, s)
    ensures |Picked(s.hist.waited, who)| <= |who| * |who| / 4
  {
    LedNeverTook(w, s, who);
    forall i | i in who ensures |Picked(s.hist.waited, {i})| <= |Led(s, who)| {
      WaitsForLeaders(s, who, i);
    }
    SquareBound(s.hist.waited, who, Led(s, who), Took(s, who));
  }

  lemma LedNeverTook(w: World, s: State, who: set<nat>)
    requires Good(w, s)
    ensures Led(s, who) !! Took(s, who)
  {
    forall i | i in Took(s, who) ensures i !in Led(s, who) {
      assert Collected(s, s.hist.source[i].value, i);
    }
  }

  // Over runs

  function Below(n: nat): (r: set<nat>)
    ensures |r| == n && forall i: nat :: i in r <==> i < n
  {
    if n == 0 then {} else Below(n - 1) + {n - 1}
  }

  /** Every run is finite: N calls take at most 12 N + 5 N N / 4 steps, the steps of the
      background jobs included, even over a backend that always misses. */
  lemma RunsAreFinite(w: World, run: seq<Label>)
    requires Valid(Sys(w), run)
    ensures |run| <= 12 * |w.calls| + 5 * (|w.calls| * |w.calls| / 4)
  {
    GoodInductive(w);
    forall s, l | Good(w, s) && Enabled(s, l) ensures Remaining()(Next(w.config, s, l)) + 1 <= Remaining()(s) {
      RemainingStep(w, s, l);
    }
    Potential(Sys(w), IsGood(w), Remaining(), run, |run|);
    StartRank(w);
    AllWaitsBound(w, run);
  }

  lemma AllWaitsBound(w: World, run: seq<Label>)
    requires Valid(Sys(w), run)
    ensures |At(Sys(w), run, |run|).hist.waited| <= |w.calls| * |w.calls| / 4
  {
    var who := Below(|w.calls|);
    var s := At(Sys(w), run, |run|);
    BilledAt(w, who, run, |run|);
    WaitsBound(w, who, s);
    forall p | p in s.hist.waited ensures p.0 in who {
      assert PairOk(s, p.0, p.1);
    }
    assert Picked(s.hist.waited, who) == s.hist.waited;
  }

  /** The step is a blocking factory call for `k`. */
  function IsFactoryCall(k: Key): (State, Label) -> bool {
    (s: State, l: Label) => l.RunFactory? && l.i < |s.front.callers| && KeyOf(s, l.i) == k
  }

  /** The step sends a caller of `k` to wait for an event in flight. */
  function IsWait(k: Key): (State, Label) -> bool {
    (s: State, l: Label) =>
      l.Join? && l.i < |s.front.callers| && KeyOf(s, l.i) == k && k in s.flight.inflight
  }

  /** Of the N callers of a key each runs the blocking factory at most once, and there are at
      most N N / 4 wait episodes: before a caller waits again somebody collects, and neither
      who collects nor who leads waits again. */
  lemma CostPerKey(w: World, run: seq<Label>, k: Key)
    requires Valid(Sys(w), run)
    ensures Count(Sys(w), run, |run|, IsFactoryCall(k)) <= |Front.CallsFor(w, k)|
    ensures Count(Sys(w), run, |run|, IsWait(k)) <= |Front.CallsFor(w, k)| * |Front.CallsFor(w, k)| / 4
  {
    FactoryCallsCounted(w, run, k);
    WaitsCounted(w, run, k);
    BilledAt(w, Front.CallsFor(w, k), run, |run|);
    WaitsBound(w, Front.CallsFor(w, k), At(Sys(w), run, |run|));
    SubsetSize(Makers(w, k, At(Sys(w), run, |run|)), Front.CallsFor(w, k));
  }

  function Makers(w: World, k: Key, s: State): set<nat> {
    Present(Front.CallsFor(w, k), s.hist.made)
  }

  function WaitedFor(w: World, k: Key, s: State): set<(nat, nat)> {
    Picked(s.hist.waited, Front.CallsFor(w, k))
  }

  lemma MakersStep(w: World, s: State, l: Label, k: Key)
    requires Good(w, s) && Enabled(s, l)
    ensures |Makers(w, k, Next(w.config, s, l))| ==
            |Makers(w, k, s)| + (if IsFactoryCall(k)(s, l) then 1 else 0)
  {
    MadeGrows(w.config, s, l);
    if l.RunFactory? {
      OneMore(Front.CallsFor(w, k), s.hist.made, l.i, l.out);
    }
  }

  lemma WaitedForStep(w: World, s: State, l: Label, k: Key)
    requires Good(w, s) && Enabled(s, l)
    ensures |WaitedFor(w, k, Next(w.config, s, l))| ==
            |WaitedFor(w, k, s)| + (if IsWait(k)(s, l) then 1 else 0)
  {
    PairStep(w.config, s, l);
    PickedFromMore(s.hist.waited, NewPair(s, l), Front.CallsFor(w, k));
    if IsWait(k)(s, l) {
      assert Picked(NewPair(s, l), Front.CallsFor(w, k)) == NewPair(s, l);
    } else {
      assert Picked(NewPair(s, l), Front.CallsFor(w, k)) == {};
    }
  }

  lemma FactoryCallsCounted(w: World, run: seq<Label>, k: Key)
    requires Valid(Sys(w), run)
    ensures Count(Sys(w), run, |run|, IsFactoryCall(k)) == |Makers(w, k, At(Sys(w), run, |run|))|
  {
    GoodInductive(w);
    var size := (s: State) => |Makers(w, k, s)|;
    forall s, l | Good(w, s) && Enabled(s, l)
      ensures size(Next(w.config, s, l)) == size(s) + (if IsFactoryCall(k)(s, l) then 1 else 0)
    {
      MakersStep(w, s, l, k);
    }
    assert Makers(w, k, Start(w.calls, w.clock)) == {};
    Counted(Sys(w), IsGood(w), size, run, |run|, IsFactoryCall(k));
  }

  lemma WaitsCounted(w: World, run: seq<Label>, k: Key)
    requires Valid(Sys(w), run)
    ensures Count(Sys(w), run, |run|, IsWait(k)) == |WaitedFor(w, k, At(Sys(w), run, |run|))|
  {
    GoodInductive(w);
    var size := (s: State) => |WaitedFor(w, k, s)|;
    forall s, l | Good(w, s) && Enabled(s, l)
      ensures size(Next(w.config, s, l)) == size(s) + (if IsWait(k)(s, l) then 1 else 0)
    {
      WaitedForStep(w, s, l, k);
    }
    assert WaitedFor(w, k, Start(w.calls, w.clock)) == {};
    Counted(Sys(w), IsGood(w), size, run, |run|, IsWait(k));
  }
}
