/** Histories of calls on one `MemoryCache`, with the values, TTLs and clock readings callers
    give and take: what a read finds, by arithmetic on those. */
module MemoryCalls {
  import opened Basics
  import opened OrderedDict
  import opened Memory
  import opened Retention
  import MemoryLog

  datatype Call<K, V> =
    | Get(key: K, now: Time)  // get, get_strict and get_envelope alike
    | Set(key: K, value: V, ttl: Option<Time>, softTtl: Option<Time>, now: Time)
    | Add(key: K, value: V, ttl: Option<Time>, softTtl: Option<Time>, now: Time, check: Time)
    | Delete(key: K)
    | Clear

  function OpOf<K, V>(call: Call<K, V>): MemoryLog.Op<K, V> {
    match call
    case Get(k, now) => MemoryLog.Read(k, now)
    case Set(k, v, ttl, softTtl, now) => MemoryLog.Set(k, MakeSlot(v, ttl, softTtl, now))
    case Add(k, v, ttl, softTtl, now, check) => MemoryLog.Add(k, MakeSlot(v, ttl, softTtl, now), check)
    case Delete(k) => MemoryLog.Delete(k)
    case Clear => MemoryLog.Clear
  }

  function Ops<K, V>(calls: seq<Call<K, V>>): (r: seq<MemoryLog.Op<K, V>>)
    ensures |r| == |calls|
  {
    seq(|calls|, i requires 0 <= i < |calls| => OpOf(calls[i]))
  }

  /** The table after the first `n` calls on an empty cache. */
  function TableAt<K(==), V>(maxsize: nat, calls: seq<Call<K, V>>, n: nat): Table<K, V>
    requires n <= |calls|
  {
    MemoryLog.At(maxsize, Ops(calls), n)
  }

  /** Call `n` wrote: a `set`, or an `add` that returned True, having found nothing. */
  predicate Wrote<K(==), V>(maxsize: nat, calls: seq<Call<K, V>>, n: nat)
    requires n < |calls|
  {
    calls[n].Set? || (calls[n].Add? && ValueAt(TableAt(maxsize, calls, n), calls[n].key, calls[n].check).None?)
  }

  /** Call `p` wrote its key, and none of the calls from there to `n` wrote it again. */
  ghost predicate LastWrote<K, V>(maxsize: nat, calls: seq<Call<K, V>>, p: nat, n: nat) {
    && p < n <= |calls| && Wrote(maxsize, calls, p)
    && forall m | p < m < n && Wrote(maxsize, calls, m) :: calls[m].key != calls[p].key
  }

  /** When what call `p` wrote expires, if ever. */
  function Expiry<K, V>(call: Call<K, V>): Option<Time>
    requires call.Set? || call.Add?
  {
    if call.ttl.Some? then Some(call.now + call.ttl.value) else None
  }

  predicate Before(now: Time, until: Option<Time>) {
    until.Some? ==> now < until.value
  }

  lemma WroteSlot<K, V>(maxsize: nat, calls: seq<Call<K, V>>, n: nat)
    requires maxsize >= 1 && n < |calls|
    ensures Wrote(maxsize, calls, n) <==> MemoryLog.Wrote(maxsize, Ops(calls), n)
    ensures Wrote(maxsize, calls, n) ==>
              var c, d := calls[n], TableAt(maxsize, calls, n + 1);
              && Find(d, c.key) == Some(MakeSlot(c.value, c.ttl, c.softTtl, c.now)) && After(d, c.key) == {}
              && Distinct(d) && |d| <= maxsize
  {
    assert Ops(calls)[n] == OpOf(calls[n]);
    MemoryLog.TableInvariant(maxsize, Ops(calls), n + 1);
    if Wrote(maxsize, calls, n) {
      MemoryLog.StepFacts(maxsize, Ops(calls), n, calls[n].key);
    }
  }

  lemma HeldSince<K, V>(maxsize: nat, calls: seq<Call<K, V>>, p: nat, n: nat)
    requires maxsize >= 1 && LastWrote(maxsize, calls, p, n)
    ensures var c, d := calls[p], TableAt(maxsize, calls, n);
            Find(d, c.key).Some? ==> Find(d, c.key) == Some(MakeSlot(c.value, c.ttl, c.softTtl, c.now))
  {
    WroteSlot(maxsize, calls, p);
    forall m | p + 1 <= m < n ensures !(MemoryLog.Wrote(maxsize, Ops(calls), m) && Ops(calls)[m].key == calls[p].key) {
      WroteSlot(maxsize, calls, m);
    }
    MemoryLog.HeldBefore(maxsize, Ops(calls), p + 1, n, calls[p].key);
  }

  /** Once its hard TTL has passed, nothing is found of what was last written, with a soft TTL or
      without, and whether it was `get`, `get_envelope` or `add` that looked. */
  lemma NothingPastExpiry<K, V>(maxsize: nat, calls: seq<Call<K, V>>, p: nat, n: nat, now: Time)
    requires maxsize >= 1 && LastWrote(maxsize, calls, p, n)
    requires calls[p].ttl.Some? && now >= calls[p].now + calls[p].ttl.value
    ensures ValueAt(TableAt(maxsize, calls, n), calls[p].key, now) == None
    ensures EnvelopeAt(TableAt(maxsize, calls, n), calls[p].key, now) == None
    ensures n < |calls| && calls[n].Add? && calls[n].key == calls[p].key && calls[n].check == now ==>
              Wrote(maxsize, calls, n)
  {
    HeldSince(maxsize, calls, p, n);
  }

  /** The keys other than `k` read or written by the calls from `a` to `b`. */
  function Others<K(==), V>(calls: seq<Call<K, V>>, a: nat, b: nat, k: K): set<K>
    requires a <= b <= |calls|
  {
    set m | a <= m < b && (calls[m].Get? || calls[m].Set? || calls[m].Add?) && calls[m].key != k :: calls[m].key
  }

  /** The calls from `a` to `b` leave an entry for `k` that expires at `until` alone: none sets or
      deletes it, none looks at it once expired, and they use fewer than `maxsize` other keys. */
  ghost predicate Spared<K, V>(maxsize: nat, calls: seq<Call<K, V>>, a: nat, b: nat, k: K, until: Option<Time>) {
    && a <= b <= |calls| && |Others(calls, a, b, k)| < maxsize
    && forall m | a <= m < b :: Spares(calls[m], k, until)
  }

  predicate Spares<K(==), V>(call: Call<K, V>, k: K, until: Option<Time>) {
    match call
    case Get(x, now) => x == k ==> Before(now, until)
    case Set(x, _, _, _, _) => x != k
    case Add(x, _, _, _, _, check) => x == k ==> Before(check, until)
    case Delete(x) => x != k
    case Clear => false
  }

  /** The key a call other than of `k` reads or writes is among `others`. */
  predicate Uses<K(==), V>(call: Call<K, V>, k: K, others: set<K>) {
    (call.Get? || call.Set? || call.Add?) && call.key != k ==> call.key in others
  }

  lemma SparedStep<K, V>(maxsize: nat, calls: seq<Call<K, V>>, n: nat, k: K, slot: Slot<V>, others: set<K>)
    requires maxsize >= 1 && n < |calls| && |others| < maxsize
    requires Spares(calls[n], k, slot.hardAt) && Uses(calls[n], k, others)
    requires Held(TableAt(maxsize, calls, n), maxsize, k, slot, others)
    ensures Held(TableAt(maxsize, calls, n + 1), maxsize, k, slot, others)
  {
    var d := TableAt(maxsize, calls, n);
    assert Ops(calls)[n] == OpOf(calls[n]);
    match calls[n]
    case Get(x, now) => HeldLooked(d, maxsize, k, slot, others, x, now);
    case Set(x, v, ttl, softTtl, now) => HeldPut(d, maxsize, k, slot, others, x, MakeSlot(v, ttl, softTtl, now));
    case Add(x, v, ttl, softTtl, now, check) =>
      if !Hit(d, x, check) {
        HeldPut(d, maxsize, k, slot, others, x, MakeSlot(v, ttl, softTtl, now));
      }
    case Delete(x) => HeldWithout(d, maxsize, k, slot, others, x);
    case Clear =>
  }

  ghost function HeldAt<K, V>(maxsize: nat, calls: seq<Call<K, V>>, k: K, slot: Slot<V>, others: set<K>): int -> bool {
    (m: int) => 0 <= m <= |calls| && Held(TableAt(maxsize, calls, m), maxsize, k, slot, others)
  }

  lemma HeldSteps<K, V>(maxsize: nat, calls: seq<Call<K, V>>, a: nat, n: nat, k: K, slot: Slot<V>, others: set<K>)
    requires maxsize >= 1 && a <= n <= |calls| && |others| < maxsize
    requires forall m | a <= m < n :: Spares(calls[m], k, slot.hardAt) && Uses(calls[m], k, others)
    ensures var held := HeldAt(maxsize, calls, k, slot, others); forall m | a <= m < n && held(m) :: held(m + 1)
  {
    forall m | a <= m < n && HeldAt(maxsize, calls, k, slot, others)(m)
      ensures HeldAt(maxsize, calls, k, slot, others)(m + 1)
    {
      SparedStep(maxsize, calls, m, k, slot, others);
    }
  }

  lemma HeldThrough<K, V>(maxsize: nat, calls: seq<Call<K, V>>, a: nat, n: nat, k: K, slot: Slot<V>, others: set<K>)
    requires maxsize >= 1 && a <= n <= |calls| && |others| < maxsize
    requires forall m | a <= m < n :: Spares(calls[m], k, slot.hardAt) && Uses(calls[m], k, others)
    requires HeldAt(maxsize, calls, k, slot, others)(a)
    ensures HeldAt(maxsize, calls, k, slot, others)(n)
  {
    HeldSteps(maxsize, calls, a, n, k, slot, others);
    UpTo(HeldAt(maxsize, calls, k, slot, others), a, n);
  }

  /** Step `r` is the write, or a later read of its key that found something. */
  predicate LastUsed<K(==), V>(maxsize: nat, calls: seq<Call<K, V>>, p: nat, r: nat)
    requires p < |calls| && !calls[p].Clear? && r < |calls|
  {
    || r == p
    || (r > p && calls[r].Get? && calls[r].key == calls[p].key
        && ValueAt(TableAt(maxsize, calls, r), calls[r].key, calls[r].now).Some?)
  }

  lemma NewestAfter<K, V>(maxsize: nat, calls: seq<Call<K, V>>, p: nat, r: nat, n: nat)
    requires maxsize >= 1 && LastWrote(maxsize, calls, p, n) && p <= r < n && LastUsed(maxsize, calls, p, r)
    ensures var c, d := calls[p], TableAt(maxsize, calls, r + 1);
            && Distinct(d) && |d| <= maxsize && After(d, c.key) == {}
            && Find(d, c.key) == Some(MakeSlot(c.value, c.ttl, c.softTtl, c.now))
  {
    if r == p {
      WroteSlot(maxsize, calls, p);
    } else {
      HeldSince(maxsize, calls, p, r);
      assert Ops(calls)[r] == OpOf(calls[r]);
      MemoryLog.TableInvariant(maxsize, Ops(calls), r);
      MemoryLog.TableInvariant(maxsize, Ops(calls), r + 1);
      LookedFacts(TableAt(maxsize, calls, r), calls[r].key, calls[r].now, calls[r].key);
    }
  }

  /** Before its hard TTL, what was last written is found: exactly the value and, if a soft TTL was
      given, an envelope with the time of the write and that TTL; unless, since the key was written
      or last read, it was deleted, looked at once expired, or `maxsize` other keys were used. */
  lemma FoundBeforeExpiry<K, V>(maxsize: nat, calls: seq<Call<K, V>>, p: nat, r: nat, n: nat, now: Time)
    requires maxsize >= 1 && LastWrote(maxsize, calls, p, n) && p <= r < n && LastUsed(maxsize, calls, p, r)
    requires Spared(maxsize, calls, r + 1, n, calls[p].key, Expiry(calls[p])) && Before(now, Expiry(calls[p]))
    ensures ValueAt(TableAt(maxsize, calls, n), calls[p].key, now) == Some(calls[p].value)
    ensures EnvelopeAt(TableAt(maxsize, calls, n), calls[p].key, now) ==
            if calls[p].softTtl == None then None
            else Some(Envelope(calls[p].value, calls[p].now, calls[p].softTtl.value))
    ensures n < |calls| && calls[n].Add? && calls[n].key == calls[p].key && calls[n].check == now ==>
              !Wrote(maxsize, calls, n)
  {
    var c := calls[p];
    NewestAfter(maxsize, calls, p, r, n);
    HeldThrough(maxsize, calls, r + 1, n, c.key, MakeSlot(c.value, c.ttl, c.softTtl, c.now),
                Others(calls, r + 1, n, c.key));
  }
}
