/** `@cached` without a soft TTL over a `MemoryCache`: nothing need be assumed of the backend. */
module PlainMemory {
  import opened Backend
  import opened Basics
  import opened OrderedDict
  import opened Memoise
  import opened Memory
  import opened Retention
  import opened Runs

  datatype State = State(plain: Plain, table: Table<Key, Value>)

  datatype Label = Step(l: PlainLabel, now: Time)

  predicate Enabled(keys: seq<Key>, s: State, l: Label) {
    && PlainEnabled(s.plain, l.l) && |keys| == |s.plain.pcs|
    && (l.l.Get? ==> l.l.found == ValueAt(s.table, keys[l.l.i], l.now))
    && !l.l.GetFails? && !l.l.SetFails?
  }

  function AccessOf(keys: seq<Key>, ttl: Option<Time>, s: State, l: Label): Access
    requires Enabled(keys, s, l)
  {
    match l.l
    case Get(i, _) => Read(keys[i])
    case Set(i) => Write(keys[i], MakeSlot(s.plain.pcs[i].value, ttl, None, l.now))
    case _ => Nothing
  }

  function Next(keys: seq<Key>, ttl: Option<Time>, maxsize: nat, s: State, l: Label): State
    requires Enabled(keys, s, l)
  {
    State(PlainNext(keys, s.plain, l.l), Accessed(s.table, maxsize, AccessOf(keys, ttl, s, l), l.now))
  }

  /** The function a step calls, if it calls it, is the wrapped one on its own arguments. */
  ghost predicate PureCall<A>(m: Wrapped<A, Value>, s: State, l: Label) {
    l.l.Get? || PurePlain(m, s.plain, l.l)
  }

  ghost function PureSys<A>(m: Wrapped<A, Value>, ttl: Option<Time>, maxsize: nat): Machine<State, Label> {
    Machine(State(Plain(seq(|m.args|, _ => Getting), {}), []),
            (s, l) => Enabled(KeysOf(m), s, l) && PureCall(m, s, l),
            (s: State, l: Label) =>
              if Enabled(KeysOf(m), s, l) then Next(KeysOf(m), ttl, maxsize, s, l) else s)
  }

  ghost predicate Inv<A>(m: Wrapped<A, Value>, maxsize: nat, s: State) {
    && TableOk(s.table, maxsize, s.plain.written, None) && PlainRight(m, s.plain)
    && (forall i | 0 <= i < |s.plain.pcs| :: !s.plain.pcs[i].Failed?)
  }

  lemma InvStep<A>(m: Wrapped<A, Value>, ttl: Option<Time>, maxsize: nat, s: State, l: Label)
    requires maxsize >= 1 && Sound(m) && (forall v :: m.dumps(v) == v)
    requires Inv(m, maxsize, s) && Enabled(KeysOf(m), s, l) && PureCall(m, s, l)
    ensures Inv(m, maxsize, Next(KeysOf(m), ttl, maxsize, s, l))
  {
    var keys := KeysOf(m);
    AccessKeeps(s.table, maxsize, AccessOf(keys, ttl, s, l), l.now, s.plain.written,
                PlainNext(keys, s.plain, l.l).written, None);
    if l.l.Get? && l.l.found.Some? {
      var k := keys[l.l.i];
      assert SlotOk(s.plain.written, None, k, Find(s.table, k).value);
      assert (k, l.l.found.value) in s.plain.written && l.l.found.value == m.loads(m.dumps(l.l.found.value));
    }
    PlainRightStep(m, s.plain, l.l);
  }

  /** Every call that has ended returned `func(args)`. */
  lemma CachedOverMemory<A>(m: Wrapped<A, Value>, ttl: Option<Time>, maxsize: nat, run: seq<Label>, n: nat, i: nat)
    requires maxsize >= 1 && Sound(m) && (forall v :: m.dumps(v) == v)
    requires Valid(PureSys(m, ttl, maxsize), run) && n <= |run| && i < |m.args|
    ensures var s := At(PureSys(m, ttl, maxsize), run, n).plain;
            && |s.pcs| == |m.args| && !s.pcs[i].Failed?
            && (s.pcs[i].Done? ==> s.pcs[i].value == m.func(m.args[i]))
  {
    var inv := (s: State) => Inv(m, maxsize, s);
    forall s, l | inv(s) && Enabled(KeysOf(m), s, l) && PureCall(m, s, l)
      ensures inv(Next(KeysOf(m), ttl, maxsize, s, l))
    {
      InvStep(m, ttl, maxsize, s, l);
    }
    Invariant(PureSys(m, ttl, maxsize), inv, run, n);
  }

  // What is written is found

  function Cache(keys: seq<Key>): Watch<State, Label, Key, Value> {
    Watch((s: State) => s.table,
          (s: State, l: Label) => if l.l.Get? && l.l.i < |keys| then Some(keys[l.l.i]) else None,
          (s: State, l: Label) => if l.l.Set? && l.l.i < |keys| then Some(keys[l.l.i]) else None,
          (l: Label) => l.now)
  }

  ghost function IsGood<A>(m: Wrapped<A, Value>, maxsize: nat): State -> bool {
    s => Inv(m, maxsize, s)
  }

  lemma CacheWatched<A>(m: Wrapped<A, Value>, ttl: Option<Time>, maxsize: nat)
    requires maxsize >= 1 && Sound(m) && (forall v :: m.dumps(v) == v)
    ensures Watches(PureSys(m, ttl, maxsize), IsGood(m, maxsize), Cache(KeysOf(m)), maxsize)
  {
    var keys := KeysOf(m);
    forall s, l | Inv(m, maxsize, s) && Enabled(keys, s, l) && PureCall(m, s, l)
      ensures Inv(m, maxsize, Next(keys, ttl, maxsize, s, l))
    {
      InvStep(m, ttl, maxsize, s, l);
    }
    forall s, l | Enabled(keys, s, l)
      ensures Asked(s.table, maxsize, Cache(keys).looks(s, l), Cache(keys).writes(s, l), l.now,
                    Next(keys, ttl, maxsize, s, l).table)
    {
    }
  }

  /** Step `p` stores what call `i` computed, as the newest entry. */
  lemma SetStores<A>(m: Wrapped<A, Value>, ttl: Option<Time>, maxsize: nat, run: seq<Label>, p: nat, i: nat)
    requires maxsize >= 1 && Sound(m) && (forall v :: m.dumps(v) == v)
    requires Valid(PureSys(m, ttl, maxsize), run) && p < |run| && run[p].l == Set(i) && i < |m.args|
    ensures var table, k := At(PureSys(m, ttl, maxsize), run, p + 1).table, m.key(m.args[i]);
            && Find(table, k) == Some(MakeSlot(m.func(m.args[i]), ttl, None, run[p].now)) && After(table, k) == {}
  {
    CacheWatched(m, ttl, maxsize);
    Invariant(PureSys(m, ttl, maxsize), IsGood(m, maxsize), run, p);
    var s, k := At(PureSys(m, ttl, maxsize), run, p), m.key(m.args[i]);
    assert PureSys(m, ttl, maxsize).enabled(s, run[p]);
    PutFacts(s.table, maxsize, k, MakeSlot(m.func(m.args[i]), ttl, None, run[p].now), k);
  }

  lemma GetAnswered<A>(m: Wrapped<A, Value>, ttl: Option<Time>, maxsize: nat, run: seq<Label>, n: nat, c: nat)
    requires Valid(PureSys(m, ttl, maxsize), run) && n < |run| && run[n].l.Get? && run[n].l.i == c < |m.args|
    ensures run[n].l.found == ValueAt(At(PureSys(m, ttl, maxsize), run, n).table, m.key(m.args[c]), run[n].now)
  {
    assert PureSys(m, ttl, maxsize).enabled(At(PureSys(m, ttl, maxsize), run, n), run[n]);
  }

  /** Step `p` is call `i` storing its value, no step from there to `n` writes its key, and step `n`
      is call `c` getting it. */
  ghost predicate StoresAndGets<A>(m: Wrapped<A, Value>, ttl: Option<Time>, maxsize: nat, run: seq<Label>,
                                   p: nat, n: nat, i: nat, c: nat)
  {
    && Valid(PureSys(m, ttl, maxsize), run) && p < n < |run| && i < |m.args| && c < |m.args|
    && run[p].l == Set(i) && run[n].l.Get? && run[n].l.i == c && m.key(m.args[c]) == m.key(m.args[i])
    && Unwritten(PureSys(m, ttl, maxsize), Cache(KeysOf(m)), run, p + 1, n, m.key(m.args[i]))
  }

  lemma StoredOrLost<A>(m: Wrapped<A, Value>, ttl: Option<Time>, maxsize: nat, run: seq<Label>, p: nat, n: nat, i: nat)
    requires maxsize >= 1 && Sound(m) && (forall v :: m.dumps(v) == v)
    requires Valid(PureSys(m, ttl, maxsize), run) && p < n <= |run| && run[p].l == Set(i) && i < |m.args|
    requires Unwritten(PureSys(m, ttl, maxsize), Cache(KeysOf(m)), run, p + 1, n, m.key(m.args[i]))
    ensures var table, k := At(PureSys(m, ttl, maxsize), run, n).table, m.key(m.args[i]);
            Find(table, k).Some? ==> Find(table, k) == Some(MakeSlot(m.func(m.args[i]), ttl, None, run[p].now))
  {
    CacheWatched(m, ttl, maxsize);
    SetStores(m, ttl, maxsize, run, p, i);
    HeldBefore(PureSys(m, ttl, maxsize), IsGood(m, maxsize), Cache(KeysOf(m)), maxsize, run, p + 1, n,
               m.key(m.args[i]));
  }

  /** A `get` after a call has stored its value, the key not written since, finds nothing or that
      value; and nothing at or past the hard TTL. */
  lemma StoredOrMissed<A>(m: Wrapped<A, Value>, ttl: Option<Time>, maxsize: nat, run: seq<Label>, p: nat, n: nat,
                          i: nat, c: nat)
    requires maxsize >= 1 && Sound(m) && (forall v :: m.dumps(v) == v)
    requires StoresAndGets(m, ttl, maxsize, run, p, n, i, c)
    ensures run[n].l.found in {None, Some(m.func(m.args[i]))}
    ensures ttl.Some? && run[n].now >= run[p].now + ttl.value ==> run[n].l.found == None
  {
    StoredOrLost(m, ttl, maxsize, run, p, n, i);
    GetAnswered(m, ttl, maxsize, run, n, c);
    FindsPlain(At(PureSys(m, ttl, maxsize), run, n).table, m.key(m.args[i]), m.func(m.args[i]), ttl, run[p].now,
               run[n].now);
  }

  lemma FindsPlain(table: Table<Key, Value>, k: Key, v: Value, ttl: Option<Time>, wrote: Time, now: Time)
    requires Find(table, k).Some? ==> Find(table, k) == Some(MakeSlot(v, ttl, None, wrote))
    ensures ValueAt(table, k, now) in {None, Some(v)}
    ensures ttl.Some? && now >= wrote + ttl.value ==> ValueAt(table, k, now) == None
  {
  }

  /** And before the hard TTL it finds the value, if since the write nobody looked the key up once
      expired and fewer than `maxsize` other keys were used. */
  lemma StoredIsFound<A>(m: Wrapped<A, Value>, ttl: Option<Time>, maxsize: nat, run: seq<Label>, p: nat, n: nat,
                         i: nat, c: nat, until: Option<Time>)
    requires maxsize >= 1 && Sound(m) && (forall v :: m.dumps(v) == v)
    requires StoresAndGets(m, ttl, maxsize, run, p, n, i, c)
    requires until == if ttl.Some? then Some(run[p].now + ttl.value) else None
    requires Spared(PureSys(m, ttl, maxsize), Cache(KeysOf(m)), maxsize, run, p + 1, n, m.key(m.args[i]), until)
    requires until.Some? ==> run[n].now < until.value
    ensures run[n].l.found == Some(m.func(m.args[i]))
  {
    CacheWatched(m, ttl, maxsize);
    SetStores(m, ttl, maxsize, run, p, i);
    GetAnswered(m, ttl, maxsize, run, n, c);
    StillHeld(PureSys(m, ttl, maxsize), IsGood(m, maxsize), Cache(KeysOf(m)), maxsize, run, p, p, n,
              m.key(m.args[i]), MakeSlot(m.func(m.args[i]), ttl, None, run[p].now));
  }

  // When keys do not keep calls apart

  /** In every run, every call that has ended returned `func(args)`. */
  ghost predicate AlwaysRight<A>(m: Wrapped<A, Value>, ttl: Option<Time>, maxsize: nat) {
    forall run: seq<Label>, n: nat, i: nat {:trigger At(PureSys(m, ttl, maxsize), run, n).plain.pcs[i]} ::
      Valid(PureSys(m, ttl, maxsize), run) && n <= |run| && i < |m.args|
      && i < |At(PureSys(m, ttl, maxsize), run, n).plain.pcs|
      && At(PureSys(m, ttl, maxsize), run, n).plain.pcs[i].Done?
      ==> At(PureSys(m, ttl, maxsize), run, n).plain.pcs[i].value == m.func(m.args[i])
  }

  lemma Then<A>(m: Wrapped<A, Value>, ttl: Option<Time>, maxsize: nat, run: seq<Label>, l: Label)
    returns (run': seq<Label>)
    requires var s := At(PureSys(m, ttl, maxsize), run, |run|);
             Valid(PureSys(m, ttl, maxsize), run) && Enabled(KeysOf(m), s, l) && PureCall(m, s, l)
    ensures Valid(PureSys(m, ttl, maxsize), run')
    ensures At(PureSys(m, ttl, maxsize), run', |run'|) ==
            Next(KeysOf(m), ttl, maxsize, At(PureSys(m, ttl, maxsize), run, |run|), l)
  {
    run' := run + [l];
    Extended(PureSys(m, ttl, maxsize), run, l);
  }

  /** Call `i` misses, computes its value and stores it. */
  lemma Stores<A>(m: Wrapped<A, Value>, ttl: Option<Time>, maxsize: nat, i: nat) returns (run: seq<Label>)
    requires maxsize >= 1 && i < |m.args|
    ensures Valid(PureSys(m, ttl, maxsize), run)
    ensures var s := At(PureSys(m, ttl, maxsize), run, |run|);
            && |s.plain.pcs| == |m.args| && (forall j | 0 <= j < |m.args| && j != i :: s.plain.pcs[j].Getting?)
            && Find(s.table, m.key(m.args[i])) == Some(MakeSlot(m.func(m.args[i]), ttl, None, 0.0))
  {
    run := Then(m, ttl, maxsize, [], Step(Get(i, None), 0.0));
    run := Then(m, ttl, maxsize, run, Step(CallFunc(i, Returns(m.func(m.args[i]))), 0.0));
    ghost var s := At(PureSys(m, ttl, maxsize), run, |run|);
    run := Then(m, ttl, maxsize, run, Step(Set(i), 0.0));
    PutFacts(s.table, maxsize, m.key(m.args[i]), MakeSlot(m.func(m.args[i]), ttl, None, 0.0), m.key(m.args[i]));
  }

  /** Two calls with one key, which the function tells apart: the second returns the first's
      value. */
  lemma WrongValue<A>(m: Wrapped<A, Value>, ttl: Option<Time>, maxsize: nat, i: nat, j: nat) returns (run: seq<Label>)
    requires maxsize >= 1 && (ttl.Some? ==> ttl.value > 0.0) && i < |m.args| && j < |m.args|
    requires m.key(m.args[i]) == m.key(m.args[j]) && m.func(m.args[i]) != m.func(m.args[j])
    ensures Valid(PureSys(m, ttl, maxsize), run)
    ensures var s := At(PureSys(m, ttl, maxsize), run, |run|).plain;
            j < |s.pcs| && s.pcs[j] == PlainPc.Done(m.func(m.args[i]))
  {
    run := Stores(m, ttl, maxsize, i);
    run := Then(m, ttl, maxsize, run, Step(Get(j, Some(m.func(m.args[i]))), 0.0));
  }

  /** With a codec that stores values as they are and no hard TTL that expires at once, every
      call returns `func(args)` in every run if and only if the function gives one value to any
      two of the calls that share a key. */
  lemma CachedExactly<A>(m: Wrapped<A, Value>, ttl: Option<Time>, maxsize: nat)
    requires maxsize >= 1 && (ttl.Some? ==> ttl.value > 0.0)
    requires (forall v :: m.dumps(v) == v) && (forall v :: m.loads(v) == v)
    ensures AlwaysRight(m, ttl, maxsize) <==> Sound(m)
  {
    if Sound(m) {
      forall run: seq<Label>, n: nat, i: nat
        | Valid(PureSys(m, ttl, maxsize), run) && n <= |run| && i < |m.args|
          && i < |At(PureSys(m, ttl, maxsize), run, n).plain.pcs|
          && At(PureSys(m, ttl, maxsize), run, n).plain.pcs[i].Done?
        ensures At(PureSys(m, ttl, maxsize), run, n).plain.pcs[i].value == m.func(m.args[i])
      {
        CachedOverMemory(m, ttl, maxsize, run, n, i);
      }
    } else {
      var i, j :| 0 <= i < |m.args| && 0 <= j < |m.args| && m.key(m.args[i]) == m.key(m.args[j])
                  && m.func(m.args[i]) != m.func(m.args[j]);
      var run := WrongValue(m, ttl, maxsize, i, j);
      assert At(PureSys(m, ttl, maxsize), run, |run|).plain.pcs[j].Done?;
    }
  }
}
