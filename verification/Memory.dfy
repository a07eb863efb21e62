/** `MemoryCache` (memory.py) and `Envelope` (envelope.py): an LRU over an ordered
    dict, with lazy hard expiry and soft-TTL envelopes. Clock readings are
    parameters: `set` and `add` take theirs before the lock, a lookup and the
    liveness test of `add` inside it. */
module Memory {
  import opened Basics
  import opened OrderedDict

  datatype Envelope<V> = Envelope(value: V, createdAt: Time, softTtl: Time) {
    predicate IsStale(now: Time) {
      now - createdAt >= softTtl
    }
  }

  /** What the table holds: the bare value, or an envelope when a soft TTL was given. */
  datatype Stored<V> = Raw(raw: V) | Wrapped(env: Envelope<V>) {
    function Payload(): V {
      match this
      case Raw(v) => v
      case Wrapped(env) => env.value
    }
  }

  datatype Slot<V> = Slot(stored: Stored<V>, hardAt: Option<Time>) {
    predicate Expired(now: Time) {
      hardAt.Some? && now >= hardAt.value
    }
  }

  type Table<K, V> = Odict<K, Slot<V>>

  /** The entry a write at `now` stores. */
  function MakeSlot<V>(value: V, ttl: Option<Time>, softTtl: Option<Time>, now: Time): Slot<V> {
    Slot(
      if softTtl.Some? then Wrapped(Envelope(value, now, softTtl.value)) else Raw(value),
      if ttl.Some? then Some(now + ttl.value) else None)
  }

  predicate Hit<K(==), V>(d: Table<K, V>, k: K, now: Time) {
    Find(d, k).Some? && !Find(d, k).value.Expired(now)
  }

  /** What `get` and `get_strict` find. */
  function ValueAt<K(==), V>(d: Table<K, V>, k: K, now: Time): Option<V> {
    if Hit(d, k, now) then Some(Find(d, k).value.stored.Payload()) else None
  }

  /** What `get_envelope` finds. */
  function EnvelopeAt<K(==), V>(d: Table<K, V>, k: K, now: Time): Option<Envelope<V>> {
    if Hit(d, k, now) && Find(d, k).value.stored.Wrapped?
    then Some(Find(d, k).value.stored.env)
    else None
  }

  /** The table after any of the three lookups: a hit is promoted, an expired entry dropped. */
  function Looked<K(==), V>(d: Table<K, V>, k: K, now: Time): Table<K, V> {
    if Hit(d, k, now) then MoveToEnd(d, k) else Without(d, k)
  }

  function Put<K(==), V>(d: Table<K, V>, maxsize: nat, k: K, slot: Slot<V>): Table<K, V> {
    Trim(Store(d, k, slot), maxsize)
  }

  datatype Error = KeyError | ValueError

  datatype Result<+T> = Ok(ok: T) | Err(err: Error)

  datatype CacheInfo = CacheInfo(hits: nat, misses: nat, size: nat, maxsize: nat)

  class MemoryCache<K(==), V(==)> {
    var d: Table<K, V>
    var maxsize: int
    var hits: nat
    var misses: nat

    ghost predicate Valid()
      reads this
    {
      maxsize >= 1 && Distinct(d) && |d| <= maxsize
    }

    constructor (maxsize: int)
      requires maxsize >= 1
      ensures Valid() && d == [] && this.maxsize == maxsize && hits == 0 && misses == 0
    {
      this.d := [];
      this.maxsize := maxsize;
      this.hits, this.misses := 0, 0;
    }

    /** The constructor's check: a size below one is a ValueError. */
    static method Create(maxsize: int) returns (r: Result<MemoryCache<K, V>>)
      ensures maxsize < 1 <==> r == Err(ValueError)
      ensures r.Ok? ==> fresh(r.ok) && r.ok.Valid() && r.ok.d == [] && r.ok.maxsize == maxsize
    {
      if maxsize < 1 {
        return Err(ValueError);
      }
      var c := new MemoryCache(maxsize);
      return Ok(c);
    }

    /** The locked block the three lookups share. */
    method Lookup(k: K, now: Time) returns (found: Option<Stored<V>>)
      requires Valid()
      modifies this
      ensures Valid() && maxsize == old(maxsize)
      ensures d == Looked(old(d), k, now)
      ensures found == if Hit(old(d), k, now) then Some(Find(old(d), k).value.stored) else None
      ensures hits == old(hits) + (if Hit(old(d), k, now) then 1 else 0)
      ensures misses == old(misses) + (if Hit(old(d), k, now) then 0 else 1)
    {
      var entry := Find(d, k);
      if entry == None {
        misses := misses + 1;
        return None;
      }
      if entry.value.Expired(now) {
        d := Without(d, k);
        misses := misses + 1;
        return None;
      }
      StoreDistinct(d, k, entry.value);
      d := MoveToEnd(d, k);
      hits := hits + 1;
      return Some(entry.value.stored);
    }

    method Get(k: K, def: V, now: Time) returns (r: V)
      requires Valid()
      modifies this
      ensures Valid() && maxsize == old(maxsize)
      ensures d == Looked(old(d), k, now)
      ensures r == if ValueAt(old(d), k, now).Some? then ValueAt(old(d), k, now).value else def
      ensures hits == old(hits) + (if Hit(old(d), k, now) then 1 else 0)
      ensures misses == old(misses) + (if Hit(old(d), k, now) then 0 else 1)
    {
      var found := Lookup(k, now);
      return if found.Some? then found.value.Payload() else def;
    }

    method GetStrict(k: K, now: Time) returns (r: Result<V>)
      requires Valid()
      modifies this
      ensures Valid() && maxsize == old(maxsize)
      ensures d == Looked(old(d), k, now)
      ensures r == if ValueAt(old(d), k, now).Some? then Ok(ValueAt(old(d), k, now).value) else Err(KeyError)
      ensures hits == old(hits) + (if Hit(old(d), k, now) then 1 else 0)
      ensures misses == old(misses) + (if Hit(old(d), k, now) then 0 else 1)
    {
      var found := Lookup(k, now);
      return if found.Some? then Ok(found.value.Payload()) else Err(KeyError);
    }

    /** A live raw entry counts as a hit and is promoted, but has no envelope to return. */
    method GetEnvelope(k: K, now: Time) returns (r: Option<Envelope<V>>)
      requires Valid()
      modifies this
      ensures Valid() && maxsize == old(maxsize)
      ensures d == Looked(old(d), k, now)
      ensures r == EnvelopeAt(old(d), k, now)
      ensures hits == old(hits) + (if Hit(old(d), k, now) then 1 else 0)
      ensures misses == old(misses) + (if Hit(old(d), k, now) then 0 else 1)
    {
      var found := Lookup(k, now);
      return if found.Some? && found.value.Wrapped? then Some(found.value.env) else None;
    }

    method Set(k: K, value: V, ttl: Option<Time>, softTtl: Option<Time>, now: Time)
      requires Valid()
      modifies this`d
      ensures Valid()
      ensures d == Put(old(d), maxsize, k, MakeSlot(value, ttl, softTtl, now))
    {
      Insert(k, MakeSlot(value, ttl, softTtl, now));
    }

    /** `now` is read before the lock, `check` inside it. */
    method Add(k: K, value: V, ttl: Option<Time>, softTtl: Option<Time>, now: Time, check: Time)
      returns (added: bool)
      requires Valid()
      modifies this`d
      ensures Valid()
      ensures added == ValueAt(old(d), k, check).None?
      ensures d == if added then Put(old(d), maxsize, k, MakeSlot(value, ttl, softTtl, now)) else old(d)
    {
      var existing := Find(d, k);
      if existing.Some? && !existing.value.Expired(check) {
        return false;
      }
      Insert(k, MakeSlot(value, ttl, softTtl, now));
      return true;
    }

    /** Assign, move to the end, evict from the front while oversized. */
    method Insert(k: K, slot: Slot<V>)
      requires Valid()
      modifies this`d
      ensures Valid()
      ensures d == Put(old(d), maxsize, k, slot)
    {
      AssignThenMove(d, k, slot);
      StoreDistinct(d, k, slot);
      ghost var stored := Store(d, k, slot);
      d := Assign(d, k, slot);
      d := MoveToEnd(d, k);
      while |d| > maxsize
        invariant Distinct(d) && Trim(d, maxsize) == Trim(stored, maxsize)
        decreases |d|
      {
        DropOldest(d, k);
        d := d[1..];
      }
    }

    method Delete(k: K) returns (existed: bool)
      requires Valid()
      modifies this`d
      ensures Valid()
      ensures d == Without(old(d), k) && existed == (k in Keys(old(d)))
    {
      existed := Find(d, k).Some?;
      d := Without(d, k);
    }

    method Clear()
      requires Valid()
      modifies this
      ensures Valid() && maxsize == old(maxsize)
      ensures d == [] && hits == 0 && misses == 0
    {
      d := [];
      hits, misses := 0, 0;
    }

    method Info() returns (info: CacheInfo)
      requires Valid()
      ensures info == CacheInfo(hits, misses, |d|, maxsize)
    {
      return CacheInfo(hits, misses, |d|, maxsize);
    }
  }

  // Frames of the table operations

  lemma LookedFacts<K, V>(d: Table<K, V>, k: K, now: Time, x: K)
    requires Distinct(d)
    ensures Distinct(Looked(d, k, now))
    ensures Keys(Looked(d, k, now)) == if Hit(d, k, now) then Keys(d) else Keys(d) - {k}
    ensures |Looked(d, k, now)| <= |d|
    ensures Find(Looked(d, k, now), x) == if x == k && !Hit(d, k, now) then None else Find(d, x)
    ensures After(Looked(d, k, now), x) ==
            if x !in Keys(Looked(d, k, now)) || x == k then {}
            else if Hit(d, k, now) then After(d, x) + {k} else After(d, x) - {k}
  {
    if Hit(d, k, now) {
      StoreDistinct(d, k, Find(d, k).value);
      StoreFind(d, k, Find(d, k).value, x);
    } else {
      if x != k {
        FindWithout(d, k, x);
      }
      AfterAbsent(Without(d, k), x);
    }
  }

  lemma {:induction false} AfterAbsent<K, V>(d: Table<K, V>, x: K)
    ensures x !in Keys(d) ==> After(d, x) == {}
  {
    if d != [] {
      AfterAbsent(d[1..], x);
    }
  }

  /** A write never evicts its own key, and evicts at most the oldest other one. */
  lemma PutFacts<K, V>(d: Table<K, V>, maxsize: nat, k: K, slot: Slot<V>, x: K)
    requires maxsize >= 1 && Distinct(d) && |d| <= maxsize
    ensures Distinct(Put(d, maxsize, k, slot)) && |Put(d, maxsize, k, slot)| <= maxsize
    ensures Find(Put(d, maxsize, k, slot), k) == Some(slot) && After(Put(d, maxsize, k, slot), k) == {}
    ensures x != k && x in Keys(Put(d, maxsize, k, slot)) ==>
              x in Keys(d) &&
              Find(Put(d, maxsize, k, slot), x) == Find(d, x) &&
              After(Put(d, maxsize, k, slot), x) == After(d, x) + {k}
    ensures x != k && x in Keys(d) && x !in Keys(Put(d, maxsize, k, slot)) ==>
              Evicts(d, maxsize, k, x)
    ensures x !in Keys(d) && x != k ==> x !in Keys(Put(d, maxsize, k, slot))
  {
    var s := Store(d, k, slot);
    StoreDistinct(d, k, slot);
    StoreFind(d, k, slot, k);
    StoreFind(d, k, slot, x);
    TrimOne(s, maxsize);
    if |s| > maxsize {
      assert Without(d, k) == d;
      assert s[0] == d[0];
      DropOldest(s, x);
      DropOldest(s, k);
      DropOldest(d, x);
    }
  }

  /** Inserting the new key `k` into the full table pushes out its oldest key `x`. */
  ghost predicate Evicts<K, V>(d: Table<K, V>, maxsize: nat, k: K, x: K) {
    k !in Keys(d) && |d| == maxsize && x in Keys(d) && After(d, x) == Keys(d) - {x}
  }
}
