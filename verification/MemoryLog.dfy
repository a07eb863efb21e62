/** Histories of one `MemoryCache`, in the order its lock admits the operations, judged
    against the log of what was written: retention, first writer wins, ageing. */
module MemoryLog {
  import opened Basics
  import opened OrderedDict
  import opened Memory

  datatype Op<K, V> =
    | Read(key: K, now: Time)  // get, get_strict and get_envelope alike
    | Set(key: K, slot: Slot<V>)
    | Add(key: K, slot: Slot<V>, check: Time)
    | Delete(key: K)
    | Clear

  function Apply<K(==), V>(d: Table<K, V>, maxsize: nat, op: Op<K, V>): Table<K, V> {
    match op
    case Read(k, now) => Looked(d, k, now)
    case Set(k, slot) => Put(d, maxsize, k, slot)
    case Add(k, slot, check) => if Hit(d, k, check) then d else Put(d, maxsize, k, slot)
    case Delete(k) => Without(d, k)
    case Clear => []
  }

  /** The table after the first `n` operations on an empty cache. */
  function At<K(==), V>(maxsize: nat, ops: seq<Op<K, V>>, n: nat): Table<K, V>
    requires n <= |ops|
  {
    if n == 0 then [] else Apply(At(maxsize, ops, n - 1), maxsize, ops[n - 1])
  }

  // What callers observe of operation n

  predicate Found<K(==), V>(maxsize: nat, ops: seq<Op<K, V>>, n: nat)
    requires n < |ops|
  {
    ops[n].Read? && Hit(At(maxsize, ops, n), ops[n].key, ops[n].now)
  }

  predicate Added<K(==), V>(maxsize: nat, ops: seq<Op<K, V>>, n: nat)
    requires n < |ops|
  {
    ops[n].Add? && !Hit(At(maxsize, ops, n), ops[n].key, ops[n].check)
  }

  /** Operation `n` wrote: a `set`, or an `add` that returned True. */
  predicate Wrote<K(==), V>(maxsize: nat, ops: seq<Op<K, V>>, n: nat)
    requires n < |ops|
  {
    ops[n].Set? || Added(maxsize, ops, n)
  }

  /** The clock reading operation `op` takes while holding the lock. */
  function Reading<K, V>(op: Op<K, V>): Option<Time> {
    match op
    case Read(_, now) => Some(now)
    case Add(_, _, check) => Some(check)
    case _ => None
  }

  ghost predicate MonotoneClock<K, V>(ops: seq<Op<K, V>>) {
    forall i, j | 0 <= i < j < |ops| && Reading(ops[i]).Some? && Reading(ops[j]).Some? ::
      Reading(ops[i]).value <= Reading(ops[j]).value
  }

  // The log: what was written, by the writes that took effect

  /** The entry the last write to `k` made, unless a delete or clear came after it. */
  function Latest<K(==), V>(maxsize: nat, ops: seq<Op<K, V>>, n: nat, k: K): Option<Slot<V>>
    requires n <= |ops|
  {
    if n == 0 then None
    else if Wrote(maxsize, ops, n - 1) && ops[n - 1].key == k then Some(ops[n - 1].slot)
    else if ops[n - 1] == Delete(k) || ops[n - 1] == Clear then None
    else Latest(maxsize, ops, n - 1, k)
  }

  /** The other keys written or hit since `k` was. */
  function Touched<K(==), V>(maxsize: nat, ops: seq<Op<K, V>>, n: nat, k: K): set<K>
    requires n <= |ops|
  {
    if n == 0 then {}
    else if Wrote(maxsize, ops, n - 1) || Found(maxsize, ops, n - 1) then
      if ops[n - 1].key == k then {} else Touched(maxsize, ops, n - 1, k) + {ops[n - 1].key}
    else Touched(maxsize, ops, n - 1, k)
  }

  lemma {:induction false} TableInvariant<K, V>(maxsize: nat, ops: seq<Op<K, V>>, n: nat)
    requires maxsize >= 1 && n <= |ops|
    ensures Distinct(At(maxsize, ops, n)) && |At(maxsize, ops, n)| <= maxsize
  {
    if n > 0 {
      TableInvariant(maxsize, ops, n - 1);
      var d := At(maxsize, ops, n - 1);
      match ops[n - 1]
      case Read(k, now) => LookedFacts(d, k, now, k);
      case Set(k, slot) => PutFacts(d, maxsize, k, slot, k);
      case Add(k, slot, check) => PutFacts(d, maxsize, k, slot, k);
      case Delete(k) => WithoutShrinks(d, k);
      case Clear =>
    }
  }

  lemma WithoutShrinks<K, V>(d: Table<K, V>, k: K)
    requires Distinct(d)
    ensures |Without(d, k)| <= |d|
  {
  }

  /** How one operation moves one key. */
  lemma StepFacts<K, V>(maxsize: nat, ops: seq<Op<K, V>>, n: nat, k: K)
    requires maxsize >= 1 && n < |ops|
    ensures var d, e := At(maxsize, ops, n), At(maxsize, ops, n + 1);
            && (Wrote(maxsize, ops, n) && ops[n].key == k ==>
                  Find(e, k) == Some(ops[n].slot) && After(e, k) == {})
            && (!(Wrote(maxsize, ops, n) && ops[n].key == k) && k in Keys(e) ==>
                  Find(e, k) == Find(d, k))
            && (Found(maxsize, ops, n) && ops[n].key == k ==>
                  k in Keys(d) && k in Keys(e) && After(e, k) == {})
            && (k in Keys(d) && k !in Keys(e) ==> Loses(maxsize, ops, n, k))
            && Distinct(d) && Distinct(e)
  {
    TableInvariant(maxsize, ops, n);
    TableInvariant(maxsize, ops, n + 1);
    var d := At(maxsize, ops, n);
    match ops[n]
    case Read(x, now) => LookedFacts(d, x, now, k);
    case Set(x, slot) => PutFacts(d, maxsize, x, slot, k);
    case Add(x, slot, check) => PutFacts(d, maxsize, x, slot, k);
    case Delete(x) => if x != k { FindWithout(d, x, k); }
    case Clear =>
  }

  /** The ways an entry for `k` can leave: deleted, cleared, evicted as the oldest of a
      full table by a write to a new key, or seen expired by an operation on `k`. */
  ghost predicate Loses<K, V>(maxsize: nat, ops: seq<Op<K, V>>, n: nat, k: K)
    requires n < |ops|
  {
    var d := At(maxsize, ops, n);
    k in Keys(d) &&
    match ops[n]
    case Delete(x) => x == k
    case Clear => true
    case Set(x, _) => Evicts(d, maxsize, x, k)
    case Add(x, _, check) => Evicts(d, maxsize, x, k) || (x == k && Find(d, k).value.Expired(check))
    case Read(x, now) => x == k && Find(d, k).value.Expired(now)
  }

  /** How one operation moves the set of keys newer than `k`. */
  lemma StepAfter<K, V>(maxsize: nat, ops: seq<Op<K, V>>, n: nat, k: K)
    requires maxsize >= 1 && n < |ops|
    requires k in Keys(At(maxsize, ops, n)) && k in Keys(At(maxsize, ops, n + 1))
    requires !((Wrote(maxsize, ops, n) || Found(maxsize, ops, n)) && ops[n].key == k)
    ensures var d, e := At(maxsize, ops, n), At(maxsize, ops, n + 1);
            After(e, k) ==
              (After(d, k) +
               (if Wrote(maxsize, ops, n) || Found(maxsize, ops, n) then {ops[n].key} else {})) * Keys(e)
  {
    TableInvariant(maxsize, ops, n);
    TableInvariant(maxsize, ops, n + 1);
    var d, e := At(maxsize, ops, n), At(maxsize, ops, n + 1);
    AfterIsKeys(d, k);
    AfterIsKeys(e, k);
    match ops[n]
    case Read(x, now) => LookedFacts(d, x, now, k);
    case Set(x, slot) => PutFacts(d, maxsize, x, slot, k);
    case Add(x, slot, check) => if Added(maxsize, ops, n) { PutFacts(d, maxsize, x, slot, k); }
    case Delete(x) => FindWithout(d, x, k);
    case Clear =>
  }

  // Retention

  /** The table agrees with the log about `k`: an entry held is the latest one written,
      and its newer neighbours are the keys touched since; one not held was seen expired,
      or at least `maxsize` distinct other keys were touched since. */
  ghost predicate Agrees<K, V>(maxsize: nat, ops: seq<Op<K, V>>, n: nat, k: K)
    requires n <= |ops|
  {
    var d, latest, touched := At(maxsize, ops, n), Latest(maxsize, ops, n, k), Touched(maxsize, ops, n, k);
    && k !in touched
    && (k in Keys(d) ==> latest == Find(d, k) && After(d, k) == touched * Keys(d))
    && (k !in Keys(d) && latest.Some? ==> |touched| >= maxsize || SeenExpired(ops, n, latest.value))
  }

  lemma {:induction false} TableMatchesLog<K, V>(maxsize: nat, ops: seq<Op<K, V>>, n: nat, k: K)
    requires maxsize >= 1 && n <= |ops|
    ensures Agrees(maxsize, ops, n, k)
  {
    if n > 0 {
      TableMatchesLog(maxsize, ops, n - 1, k);
      AgreesStep(maxsize, ops, n - 1, k);
    }
  }

  lemma AgreesStep<K, V>(maxsize: nat, ops: seq<Op<K, V>>, n: nat, k: K)
    requires maxsize >= 1 && n < |ops| && Agrees(maxsize, ops, n, k)
    ensures Agrees(maxsize, ops, n + 1, k)
  {
    StepFacts(maxsize, ops, n, k);
    if (Wrote(maxsize, ops, n) || Found(maxsize, ops, n)) && ops[n].key == k {
    } else if k !in Keys(At(maxsize, ops, n)) {
      AbsentStays(maxsize, ops, n, k);
    } else if k in Keys(At(maxsize, ops, n + 1)) {
      AgreesKept(maxsize, ops, n, k);
    } else {
      EvictionCount(maxsize, ops, n, k);
    }
  }

  lemma AbsentStays<K, V>(maxsize: nat, ops: seq<Op<K, V>>, n: nat, k: K)
    requires maxsize >= 1 && n < |ops| && Agrees(maxsize, ops, n, k) && k !in Keys(At(maxsize, ops, n))
    requires !((Wrote(maxsize, ops, n) || Found(maxsize, ops, n)) && ops[n].key == k)
    ensures Agrees(maxsize, ops, n + 1, k)
  {
    StepFacts(maxsize, ops, n, k);
    if Latest(maxsize, ops, n + 1, k).Some? {
      SubsetSize(Touched(maxsize, ops, n, k), Touched(maxsize, ops, n + 1, k));
    }
  }

  lemma AgreesKept<K, V>(maxsize: nat, ops: seq<Op<K, V>>, n: nat, k: K)
    requires maxsize >= 1 && n < |ops| && Agrees(maxsize, ops, n, k)
    requires k in Keys(At(maxsize, ops, n)) && k in Keys(At(maxsize, ops, n + 1))
    requires !((Wrote(maxsize, ops, n) || Found(maxsize, ops, n)) && ops[n].key == k)
    ensures Agrees(maxsize, ops, n + 1, k)
  {
    StepFacts(maxsize, ops, n, k);
    StepAfter(maxsize, ops, n, k);
    KeysOnlyFromWrites(maxsize, ops, n);
    LogStep(maxsize, ops, n, k);
    ClipAndAdd(Touched(maxsize, ops, n, k), Keys(At(maxsize, ops, n)), Keys(At(maxsize, ops, n + 1)),
               if Wrote(maxsize, ops, n) || Found(maxsize, ops, n) then {ops[n].key} else {});
  }

  lemma LogStep<K, V>(maxsize: nat, ops: seq<Op<K, V>>, n: nat, k: K)
    requires maxsize >= 1 && n < |ops|
    requires !((Wrote(maxsize, ops, n) || Found(maxsize, ops, n)) && ops[n].key == k)
    ensures Touched(maxsize, ops, n + 1, k) ==
            Touched(maxsize, ops, n, k) +
            (if Wrote(maxsize, ops, n) || Found(maxsize, ops, n) then {ops[n].key} else {})
    ensures k in Keys(At(maxsize, ops, n + 1)) ==>
              Latest(maxsize, ops, n + 1, k) == Latest(maxsize, ops, n, k)
  {
  }

  /** Clipping to `before` first makes no difference when `now` has only the added keys besides. */
  lemma ClipAndAdd<T>(touched: set<T>, before: set<T>, now: set<T>, added: set<T>)
    requires now <= before + added
    ensures (touched * before + added) * now == (touched + added) * now
  {
  }

  ghost predicate SeenExpired<K, V>(ops: seq<Op<K, V>>, n: nat, slot: Slot<V>)
    requires n <= |ops|
  {
    exists m :: 0 <= m < n && Reading(ops[m]).Some? && slot.Expired(Reading(ops[m]).value)
  }

  lemma KeysOnlyFromWrites<K, V>(maxsize: nat, ops: seq<Op<K, V>>, n: nat)
    requires maxsize >= 1 && n < |ops|
    ensures Keys(At(maxsize, ops, n + 1)) <=
            Keys(At(maxsize, ops, n)) + (if Wrote(maxsize, ops, n) then {ops[n].key} else {})
  {
    forall x | x in Keys(At(maxsize, ops, n + 1))
      ensures x in Keys(At(maxsize, ops, n)) || (Wrote(maxsize, ops, n) && ops[n].key == x)
    {
      StepFacts(maxsize, ops, n, x);
    }
  }

  lemma EvictionCount<K, V>(maxsize: nat, ops: seq<Op<K, V>>, n: nat, k: K)
    requires maxsize >= 1 && n < |ops|
    requires k in Keys(At(maxsize, ops, n)) && k !in Keys(At(maxsize, ops, n + 1))
    requires Latest(maxsize, ops, n, k) == Find(At(maxsize, ops, n), k)
    requires After(At(maxsize, ops, n), k) <= Touched(maxsize, ops, n, k)
    ensures Latest(maxsize, ops, n + 1, k).Some? ==>
              || |Touched(maxsize, ops, n + 1, k)| >= maxsize
              || SeenExpired(ops, n + 1, Latest(maxsize, ops, n + 1, k).value)
  {
    StepFacts(maxsize, ops, n, k);
    if (ops[n].Set? || ops[n].Add?) && Evicts(At(maxsize, ops, n), maxsize, ops[n].key, k) {
      LogStep(maxsize, ops, n, k);
      EvictedBy(maxsize, ops, n, k);
    }
  }

  /** A write that evicts `k`, the oldest of a full table, makes it `maxsize` keys since. */
  lemma EvictedBy<K, V>(maxsize: nat, ops: seq<Op<K, V>>, n: nat, k: K)
    requires maxsize >= 1 && n < |ops| && (ops[n].Set? || ops[n].Add?)
    requires Evicts(At(maxsize, ops, n), maxsize, ops[n].key, k) && Wrote(maxsize, ops, n)
    requires After(At(maxsize, ops, n), k) <= Touched(maxsize, ops, n, k)
    requires Touched(maxsize, ops, n + 1, k) == Touched(maxsize, ops, n, k) + {ops[n].key}
    ensures |Touched(maxsize, ops, n + 1, k)| >= maxsize
  {
    TableInvariant(maxsize, ops, n);
    var d := At(maxsize, ops, n);
    KeysSize(d);
    assert |Keys(d) - {k} + {ops[n].key}| == maxsize;
    SubsetSize(Keys(d) - {k} + {ops[n].key}, Touched(maxsize, ops, n + 1, k));
  }

  /** A read against the log: a hit returns the latest write of its key, still live; and
      under a monotone clock a live written key is missed only after `maxsize` distinct
      other keys were touched. */
  lemma ReadAgainstLog<K, V>(maxsize: nat, ops: seq<Op<K, V>>, n: nat)
    requires maxsize >= 1 && n < |ops| && ops[n].Read?
    ensures var k, now, latest := ops[n].key, ops[n].now, Latest(maxsize, ops, n, ops[n].key);
            && (Found(maxsize, ops, n) ==>
                  && latest == Find(At(maxsize, ops, n), k)
                  && !latest.value.Expired(now))
            && (!Found(maxsize, ops, n) && MonotoneClock(ops) ==>
                  || latest == None
                  || latest.value.Expired(now)
                  || |Touched(maxsize, ops, n, k)| >= maxsize)
  {
    TableMatchesLog(maxsize, ops, n, ops[n].key);
    if !Found(maxsize, ops, n) && MonotoneClock(ops) && Latest(maxsize, ops, n, ops[n].key).Some? {
      var slot := Latest(maxsize, ops, n, ops[n].key).value;
      if SeenExpired(ops, n, slot) {
        var m :| 0 <= m < n && Reading(ops[m]).Some? && slot.Expired(Reading(ops[m]).value);
        assert Reading(ops[n]) == Some(ops[n].now);
      }
    }
  }

  /** No removals but evictions among the first `n` operations. */
  ghost predicate OnlyEvictions<K, V>(ops: seq<Op<K, V>>, n: nat)
    requires n <= |ops|
  {
    forall m | 0 <= m < n ::
      && !ops[m].Delete? && !ops[m].Clear?
      && (ops[m].Set? || ops[m].Add? ==> ops[m].slot.hardAt == None)
  }

  lemma {:induction false} NothingExpires<K, V>(maxsize: nat, ops: seq<Op<K, V>>, n: nat, k: K)
    requires maxsize >= 1 && n <= |ops| && OnlyEvictions(ops, n)
    ensures Latest(maxsize, ops, n, k).Some? ==> Latest(maxsize, ops, n, k).value.hardAt == None
  {
    if n > 0 {
      NothingExpires(maxsize, ops, n - 1, k);
    }
  }

  lemma {:induction false} TouchedStay<K, V>(maxsize: nat, ops: seq<Op<K, V>>, n: nat, k: K)
    requires maxsize >= 1 && n <= |ops| && OnlyEvictions(ops, n)
    ensures k in Keys(At(maxsize, ops, n)) ==> Touched(maxsize, ops, n, k) <= Keys(At(maxsize, ops, n))
  {
    if n > 0 {
      TouchedStay(maxsize, ops, n - 1, k);
      if k in Keys(At(maxsize, ops, n)) {
        forall x | x in Touched(maxsize, ops, n, k)
          ensures x in Keys(At(maxsize, ops, n))
        {
          TouchedStaysStep(maxsize, ops, n - 1, k, x);
        }
      }
    }
  }

  lemma TouchedStaysStep<K, V>(maxsize: nat, ops: seq<Op<K, V>>, n: nat, k: K, x: K)
    requires maxsize >= 1 && n < |ops| && OnlyEvictions(ops, n + 1)
    requires k in Keys(At(maxsize, ops, n + 1)) && x in Touched(maxsize, ops, n + 1, k)
    requires k in Keys(At(maxsize, ops, n)) ==> Touched(maxsize, ops, n, k) <= Keys(At(maxsize, ops, n))
    ensures x in Keys(At(maxsize, ops, n + 1))
  {
    StepFacts(maxsize, ops, n, k);
    StepFacts(maxsize, ops, n, x);
    TableMatchesLog(maxsize, ops, n, k);
    TableMatchesLog(maxsize, ops, n, x);
    KeysOnlyFromWrites(maxsize, ops, n);
    NothingExpires(maxsize, ops, n, x);
    var d := At(maxsize, ops, n);
    if x !in Keys(At(maxsize, ops, n + 1)) {
      assert x in Touched(maxsize, ops, n, k) && k in Keys(d);
      assert Loses(maxsize, ops, n, x);
      AfterTotal(d, k, x);
      assert false;
    }
  }

  /** With nothing deleted or given a hard TTL, the cache holds exactly the `maxsize`
      most recently touched of the written keys. */
  lemma LruExact<K, V>(maxsize: nat, ops: seq<Op<K, V>>, n: nat, k: K)
    requires maxsize >= 1 && n <= |ops| && OnlyEvictions(ops, n)
    ensures k in Keys(At(maxsize, ops, n)) <==>
              Latest(maxsize, ops, n, k).Some? && |Touched(maxsize, ops, n, k)| < maxsize
  {
    var d := At(maxsize, ops, n);
    TableInvariant(maxsize, ops, n);
    TableMatchesLog(maxsize, ops, n, k);
    NothingExpires(maxsize, ops, n, k);
    TouchedStay(maxsize, ops, n, k);
    if k in Keys(d) {
      KeysSize(d);
      AfterIsKeys(d, k);
      assert After(d, k) == Touched(maxsize, ops, n, k);
      SubsetSize(After(d, k), Keys(d) - {k});
    }
  }

  // First writer wins

  /** Between two successful adds of a key its entry was lost: deleted, cleared, evicted
      or seen expired. */
  lemma FirstWriterWins<K, V>(maxsize: nat, ops: seq<Op<K, V>>, i: nat, j: nat)
    requires maxsize >= 1 && i < j < |ops|
    requires Added(maxsize, ops, i) && Added(maxsize, ops, j) && ops[i].key == ops[j].key
    ensures exists m :: i < m <= j && Loses(maxsize, ops, m, ops[i].key)
  {
    var k := ops[i].key;
    if k in Keys(At(maxsize, ops, j)) {
      assert Loses(maxsize, ops, j, k);
    } else {
      StepFacts(maxsize, ops, i, k);
      var m := LossBetween(maxsize, ops, i + 1, j, k);
    }
  }

  lemma LossBetween<K, V>(maxsize: nat, ops: seq<Op<K, V>>, i: nat, j: nat, k: K) returns (m: nat)
    requires maxsize >= 1 && i <= j <= |ops|
    requires k in Keys(At(maxsize, ops, i)) && k !in Keys(At(maxsize, ops, j))
    ensures i <= m < j && Loses(maxsize, ops, m, k)
  {
    m := FallBetween(Holding(maxsize, ops, k), i, j);
    LostHere(maxsize, ops, m, k);
  }

  ghost function Holding<K, V>(maxsize: nat, ops: seq<Op<K, V>>, k: K): int -> bool {
    n => 0 <= n <= |ops| && k in Keys(At(maxsize, ops, n))
  }

  lemma LostHere<K, V>(maxsize: nat, ops: seq<Op<K, V>>, n: nat, k: K)
    requires maxsize >= 1 && n < |ops|
    requires Holding(maxsize, ops, k)(n) && !Holding(maxsize, ops, k)(n + 1)
    ensures Loses(maxsize, ops, n, k)
  {
    StepFacts(maxsize, ops, n, k);
  }

  // Ageing

  ghost predicate Unwritten<K, V>(maxsize: nat, ops: seq<Op<K, V>>, p: nat, q: nat, k: K)
    requires p <= q <= |ops|
  {
    forall m | p <= m < q :: !(Wrote(maxsize, ops, m) && ops[m].key == k)
  }

  lemma HeldStep<K, V>(maxsize: nat, ops: seq<Op<K, V>>, n: nat, k: K)
    requires maxsize >= 1 && n < |ops| && !(Wrote(maxsize, ops, n) && ops[n].key == k)
    ensures Find(At(maxsize, ops, n + 1), k).Some? ==>
              Find(At(maxsize, ops, n), k) == Find(At(maxsize, ops, n + 1), k)
  {
    StepFacts(maxsize, ops, n, k);
  }

  /** Without a write, what is held for `k` was held before. */
  lemma {:induction false} HeldBefore<K, V>(maxsize: nat, ops: seq<Op<K, V>>, p: nat, q: nat, k: K)
    requires maxsize >= 1 && p <= q <= |ops| && Unwritten(maxsize, ops, p, q, k)
    ensures Find(At(maxsize, ops, q), k).Some? ==>
              Find(At(maxsize, ops, p), k) == Find(At(maxsize, ops, q), k)
    decreases q
  {
    if p < q {
      HeldStep(maxsize, ops, q - 1, k);
      HeldBefore(maxsize, ops, p, q - 1, k);
    }
  }

  datatype Phase = Fresh | Stale | Gone {
    function Rank(): nat {
      match this case Fresh => 0 case Stale => 1 case Gone => 2
    }
  }

  /** What a caller learns from `get_envelope` at operation `n` followed by `is_stale`. */
  function PhaseAt<K(==), V>(maxsize: nat, ops: seq<Op<K, V>>, n: nat): Phase
    requires n < |ops| && ops[n].Read?
  {
    match EnvelopeAt(At(maxsize, ops, n), ops[n].key, ops[n].now)
    case None => Gone
    case Some(env) => if env.IsStale(ops[n].now) then Stale else Fresh
  }

  /** Under a monotone clock an entry nobody rewrites only moves fresh, stale, gone, and
      the envelope served stays the same one. */
  lemma OnlyAges<K, V>(maxsize: nat, ops: seq<Op<K, V>>, p: nat, q: nat)
    requires maxsize >= 1 && p < q < |ops| && MonotoneClock(ops)
    requires ops[p].Read? && ops[q].Read? && ops[p].key == ops[q].key
    requires Unwritten(maxsize, ops, p, q, ops[q].key)
    ensures PhaseAt(maxsize, ops, p).Rank() <= PhaseAt(maxsize, ops, q).Rank()
    ensures var k := ops[q].key;
            EnvelopeAt(At(maxsize, ops, q), k, ops[q].now).Some? ==>
              EnvelopeAt(At(maxsize, ops, p), k, ops[p].now) ==
              EnvelopeAt(At(maxsize, ops, q), k, ops[q].now)
  {
    HeldBefore(maxsize, ops, p, q, ops[q].key);
    assert Reading(ops[p]).value <= Reading(ops[q]).value;
  }

  /** If the slot holds an envelope, its hard expiry is `ttl` after its creation. */
  predicate Stamped<V>(slot: Slot<V>, ttl: Time) {
    slot.stored.Wrapped? ==> slot.hardAt == Some(slot.stored.env.createdAt + ttl)
  }

  lemma {:induction false} LatestStamped<K, V>(maxsize: nat, ops: seq<Op<K, V>>, n: nat, k: K, ttl: Time)
    requires n <= |ops|
    requires forall m | 0 <= m < n && (ops[m].Set? || ops[m].Add?) && ops[m].key == k ::
               Stamped(ops[m].slot, ttl)
    ensures Latest(maxsize, ops, n, k).Some? ==> Stamped(Latest(maxsize, ops, n, k).value, ttl)
  {
    if n > 0 {
      LatestStamped(maxsize, ops, n - 1, k, ttl);
    }
  }

  /** If every write of `k` with a soft TTL uses hard TTL `ttl`, no envelope is served `ttl` or
      more after it was created. */
  lemma BoundedStaleness<K, V>(maxsize: nat, ops: seq<Op<K, V>>, n: nat, ttl: Time)
    requires maxsize >= 1 && n < |ops| && Found(maxsize, ops, n)
    requires forall m | 0 <= m < n && (ops[m].Set? || ops[m].Add?) && ops[m].key == ops[n].key ::
               Stamped(ops[m].slot, ttl)
    ensures var env := EnvelopeAt(At(maxsize, ops, n), ops[n].key, ops[n].now);
            env.Some? ==> ops[n].now - env.value.createdAt < ttl
  {
    ReadAgainstLog(maxsize, ops, n);
    LatestStamped(maxsize, ops, n, ops[n].key, ttl);
  }
}
