/** `TypedView` (typed.py): a codec and a namespace over a shared cache, here a `MemoryCache`
    holding bytes. */
module TypedView {
  import opened Basics
  import opened OrderedDict
  import opened Memory
  import opened ViewKeys
  import MemoryCalls
  import MemoryLog

  type Bytes = seq<int>

  /** What the inner cache may hold: bytes, or an object stored past the codec. */
  datatype Payload = Encoded(bytes: Bytes) | Foreign

  /** `loads` is None when it raises CodecError. */
  datatype Codec<!V> = Codec(dumps: V -> Bytes, loads: Bytes -> Option<V>)

  /** A value read, the caller's default (or a KeyError), a CodecError on its way out, or an
      undecoded object (in envelopes only). */
  datatype Fetched<V> = Value(value: V) | Absent | Undecodable | PassedThrough

  function Decode<V>(c: Codec<V>, p: Payload): Fetched<V> {
    match p
    case Foreign => Absent
    case Encoded(b) => if c.loads(b).Some? then Value(c.loads(b).value) else Undecodable
  }

  /** What `get_envelope` yields: nothing, an envelope, or a CodecError on its way out. */
  datatype Opened<V> = NoEnvelope | Opened(env: Envelope<Fetched<V>>) | CodecError

  /** An envelope with its payload decoded; a foreign payload is passed through. */
  function DecodeEnvelope<V>(c: Codec<V>, env: Envelope<Payload>): Opened<V> {
    match env.value
    case Foreign => Opened(Envelope(PassedThrough, env.createdAt, env.softTtl))
    case Encoded(b) =>
      if c.loads(b).Some? then Opened(Envelope(Value(c.loads(b).value), env.createdAt, env.softTtl))
      else CodecError
  }

  /** What `get` of the inner key `k` yields. */
  function Fetch<V>(c: Codec<V>, d: Table<string, Payload>, k: string, now: Time): Fetched<V> {
    match ValueAt(d, k, now)
    case None => Absent
    case Some(payload) => Decode(c, payload)
  }

  /** What `get_envelope` of the inner key `k` yields. */
  function Open<V>(c: Codec<V>, d: Table<string, Payload>, k: string, now: Time): Opened<V> {
    match EnvelopeAt(d, k, now)
    case None => NoEnvelope
    case Some(env) => DecodeEnvelope(c, env)
  }

  class TypedView<V(==)> {
    const inner: MemoryCache<string, Payload>
    const namespace: string
    const codec: Codec<V>
    const printable: Printable

    constructor (inner: MemoryCache<string, Payload>, namespace: string, codec: Codec<V>, printable: Printable)
      ensures this.inner == inner && this.namespace == namespace
      ensures this.codec == codec && this.printable == printable
    {
      this.inner, this.namespace, this.codec, this.printable := inner, namespace, codec, printable;
    }

    function InnerKey(key: string): string {
      ViewKey(printable, namespace, key)
    }

    /** `get` and `get_strict`: Absent is the default there, a KeyError here. */
    method Get(key: string, now: Time) returns (r: Fetched<V>)
      requires inner.Valid()
      modifies inner
      ensures inner.Valid() && inner.maxsize == old(inner.maxsize)
      ensures inner.d == Looked(old(inner.d), InnerKey(key), now)
      ensures r == Fetch(codec, old(inner.d), InnerKey(key), now)
    {
      var raw := inner.GetStrict(InnerKey(key), now);
      return if raw.Err? then Absent else Decode(codec, raw.ok);
    }

    method Set(key: string, value: V, ttl: Option<Time>, softTtl: Option<Time>, now: Time)
      requires inner.Valid()
      modifies inner`d
      ensures inner.Valid()
      ensures inner.d == Put(old(inner.d), inner.maxsize, InnerKey(key),
                             MakeSlot(Encoded(codec.dumps(value)), ttl, softTtl, now))
    {
      inner.Set(InnerKey(key), Encoded(codec.dumps(value)), ttl, softTtl, now);
    }

    method Delete(key: string) returns (existed: bool)
      requires inner.Valid()
      modifies inner`d
      ensures inner.Valid()
      ensures inner.d == Without(old(inner.d), InnerKey(key))
      ensures existed == (InnerKey(key) in Keys(old(inner.d)))
    {
      existed := inner.Delete(InnerKey(key));
    }

    method GetEnvelope(key: string, now: Time) returns (r: Opened<V>)
      requires inner.Valid()
      modifies inner
      ensures inner.Valid() && inner.maxsize == old(inner.maxsize)
      ensures inner.d == Looked(old(inner.d), InnerKey(key), now)
      ensures r == Open(codec, old(inner.d), InnerKey(key), now)
    {
      var env := inner.GetEnvelope(InnerKey(key), now);
      return match env
        case None => NoEnvelope
        case Some(e) => DecodeEnvelope(codec, e);
    }
  }

  // Views sharing one cache

  /** An operation through the view of a namespace. Views may use different codecs; what a
      view writes is given encoded. */
  datatype ViewOp =
    | Get(namespace: string, key: string, now: Time)  // get, get_strict and get_envelope alike
    | Set(namespace: string, key: string, payload: Payload, ttl: Option<Time>, softTtl: Option<Time>, now: Time)
    | Delete(namespace: string, key: string)

  function InnerCall(p: Printable, op: ViewOp): MemoryCalls.Call<string, Payload> {
    var k := ViewKey(p, op.namespace, op.key);
    match op
    case Get(_, _, now) => MemoryCalls.Get(k, now)
    case Set(_, _, payload, ttl, softTtl, now) => MemoryCalls.Set(k, payload, ttl, softTtl, now)
    case Delete(_, _) => MemoryCalls.Delete(k)
  }

  function InnerCalls(p: Printable, ops: seq<ViewOp>): (r: seq<MemoryCalls.Call<string, Payload>>)
    ensures |r| == |ops|
  {
    seq(|ops|, i requires 0 <= i < |ops| => InnerCall(p, ops[i]))
  }

  /** The inner table after the first `n` operations. */
  function TableAt(p: Printable, maxsize: nat, ops: seq<ViewOp>, n: nat): Table<string, Payload>
    requires n <= |ops|
  {
    MemoryCalls.TableAt(maxsize, InnerCalls(p, ops), n)
  }

  /** The last `set` through `namespace` under `key`, unless deleted through it. */
  function LatestThrough(ops: seq<ViewOp>, n: nat, namespace: string, key: string): (r: Option<ViewOp>)
    requires n <= |ops|
    ensures r.Some? ==> r.value.Set?
  {
    if n == 0 then None
    else
      var op := ops[n - 1];
      if op.Get? || op.namespace != namespace || op.key != key then LatestThrough(ops, n - 1, namespace, key)
      else if op.Set? then Some(op)
      else None
  }

  lemma SameInnerKey(p: Printable, ns: string, k: string, ns': string, k': string)
    ensures ViewKey(p, ns, k) == ViewKey(p, ns', k') <==> ns == ns' && k == k'
  {
    if ViewKey(p, ns, k) == ViewKey(p, ns', k') {
      ViewKeyInjective(p, ns, k, ns', k');
    }
  }

  /** What a set through a view leaves in the inner table. */
  function SlotOf(op: ViewOp): Slot<Payload>
    requires op.Set?
  {
    MakeSlot(op.payload, op.ttl, op.softTtl, op.now)
  }

  /** What the log of the inner cache says of the key of this pair is this. */
  ghost predicate OwnLatest(p: Printable, maxsize: nat, ops: seq<ViewOp>, n: nat, namespace: string, key: string)
    requires n <= |ops|
  {
    var latest := LatestThrough(ops, n, namespace, key);
    MemoryLog.Latest(maxsize, MemoryCalls.Ops(InnerCalls(p, ops)), n, ViewKey(p, namespace, key)) ==
    if latest.Some? then Some(SlotOf(latest.value)) else None
  }

  lemma OwnLatestStep(p: Printable, maxsize: nat, ops: seq<ViewOp>, n: nat, namespace: string, key: string)
    requires n < |ops| && OwnLatest(p, maxsize, ops, n, namespace, key)
    ensures OwnLatest(p, maxsize, ops, n + 1, namespace, key)
  {
    var op := ops[n];
    assert MemoryCalls.Ops(InnerCalls(p, ops))[n] == MemoryCalls.OpOf(InnerCall(p, op));
    SameInnerKey(p, op.namespace, op.key, namespace, key);
  }

  lemma {:induction false} LatestIsOwn(p: Printable, maxsize: nat, ops: seq<ViewOp>, n: nat,
                                       namespace: string, key: string)
    requires n <= |ops|
    ensures OwnLatest(p, maxsize, ops, n, namespace, key)
  {
    if n > 0 {
      LatestIsOwn(p, maxsize, ops, n - 1, namespace, key);
      OwnLatestStep(p, maxsize, ops, n - 1, namespace, key);
    }
  }

  lemma HitIsOwn(p: Printable, maxsize: nat, ops: seq<ViewOp>, n: nat)
    requires maxsize >= 1 && n < |ops| && ops[n].Get?
    ensures var d, k := TableAt(p, maxsize, ops, n), ViewKey(p, ops[n].namespace, ops[n].key);
            var latest := LatestThrough(ops, n, ops[n].namespace, ops[n].key);
            Hit(d, k, ops[n].now) ==> latest.Some? && Find(d, k) == Some(SlotOf(latest.value))
  {
    var inner := MemoryCalls.Ops(InnerCalls(p, ops));
    assert inner[n] == MemoryCalls.OpOf(InnerCall(p, ops[n]));
    MemoryLog.ReadAgainstLog(maxsize, inner, n);
    LatestIsOwn(p, maxsize, ops, n, ops[n].namespace, ops[n].key);
  }

  /** In any interleaving of any views, a read that finds anything finds what was last set
      through its own namespace under its key, still live: never another view's. */
  lemma Isolation(p: Printable, maxsize: nat, ops: seq<ViewOp>, n: nat)
    requires maxsize >= 1 && n < |ops| && ops[n].Get?
    ensures var d, k, now := TableAt(p, maxsize, ops, n), ViewKey(p, ops[n].namespace, ops[n].key), ops[n].now;
            var latest := LatestThrough(ops, n, ops[n].namespace, ops[n].key);
            ValueAt(d, k, now).Some? ==>
              && latest.Some? && ValueAt(d, k, now) == Some(latest.value.payload)
              && (latest.value.ttl.Some? ==> now < latest.value.now + latest.value.ttl.value)
              && EnvelopeAt(d, k, now) ==
                 if latest.value.softTtl == None then None
                 else Some(Envelope(latest.value.payload, latest.value.now, latest.value.softTtl.value))
  {
    HitIsOwn(p, maxsize, ops, n);
  }

  /** Whether a read hits, and what it then finds. */
  function Reached(p: Printable, maxsize: nat, ops: seq<ViewOp>, n: nat): Option<Payload>
    requires n < |ops| && ops[n].Get?
  {
    var hit := ValueAt(TableAt(p, maxsize, ops, n), ViewKey(p, ops[n].namespace, ops[n].key), ops[n].now).Some?;
    var latest := LatestThrough(ops, n, ops[n].namespace, ops[n].key);
    if hit && latest.Some? then Some(latest.value.payload) else None
  }

  /** A read yields the value `x` if and only if it hits, and what was last set through its own
      namespace are bytes the codec loads as `x`; the default if and only if it misses or that is
      no bytes; and it lets a CodecError out if and only if it hits bytes the codec rejects.
      CONSISTENCY.md (line 24) promises the default for those too. */
  lemma ReadsExactly<V>(c: Codec<V>, p: Printable, maxsize: nat, ops: seq<ViewOp>, n: nat, x: V)
    requires maxsize >= 1 && n < |ops| && ops[n].Get?
    ensures var got := Fetch(c, TableAt(p, maxsize, ops, n), ViewKey(p, ops[n].namespace, ops[n].key), ops[n].now);
            var raw := Reached(p, maxsize, ops, n);
            && (got == Value(x) <==> raw.Some? && raw.value.Encoded? && c.loads(raw.value.bytes) == Some(x))
            && (got == Absent <==> raw == None || raw.value.Foreign?)
            && (got == Undecodable <==> raw.Some? && raw.value.Encoded? && c.loads(raw.value.bytes) == None)
  {
    Isolation(p, maxsize, ops, n);
  }

  /** `get_envelope` finds nothing if and only if the read misses or the last set gave no soft TTL;
      it lets a CodecError out exactly when bytes it finds are rejected. */
  lemma OpensWhen<V>(c: Codec<V>, p: Printable, maxsize: nat, ops: seq<ViewOp>, n: nat)
    requires maxsize >= 1 && n < |ops| && ops[n].Get?
    ensures var got := Open(c, TableAt(p, maxsize, ops, n), ViewKey(p, ops[n].namespace, ops[n].key), ops[n].now);
            var raw, latest := Reached(p, maxsize, ops, n), LatestThrough(ops, n, ops[n].namespace, ops[n].key);
            && (got == NoEnvelope <==> raw == None || latest.value.softTtl == None)
            && (got == CodecError <==> raw.Some? && latest.value.softTtl.Some?
                                       && raw.value.Encoded? && c.loads(raw.value.bytes) == None)
  {
    Isolation(p, maxsize, ops, n);
  }

  /** Else it finds the value the codec loads, a foreign object passed through, with the stamps of
      that set: the time it was made and its soft TTL. */
  lemma OpensExactly<V>(c: Codec<V>, p: Printable, maxsize: nat, ops: seq<ViewOp>, n: nat, x: V)
    requires maxsize >= 1 && n < |ops| && ops[n].Get?
    requires Reached(p, maxsize, ops, n).Some?
    requires LatestThrough(ops, n, ops[n].namespace, ops[n].key).value.softTtl.Some?
    ensures var got := Open(c, TableAt(p, maxsize, ops, n), ViewKey(p, ops[n].namespace, ops[n].key), ops[n].now);
            var raw, set_ := Reached(p, maxsize, ops, n).value,
                             LatestThrough(ops, n, ops[n].namespace, ops[n].key).value;
            && (got == Opened(Envelope(Value(x), set_.now, set_.softTtl.value)) <==>
                  raw.Encoded? && c.loads(raw.bytes) == Some(x))
            && (got == Opened(Envelope(PassedThrough, set_.now, set_.softTtl.value)) <==> raw.Foreign?)
  {
    Isolation(p, maxsize, ops, n);
  }

  /** With a round-tripping codec a read of the value last set through the view misses, or
      returns exactly that value. */
  lemma ReadsOwnWrites<V>(c: Codec<V>, p: Printable, maxsize: nat, ops: seq<ViewOp>, n: nat, v: V)
    requires maxsize >= 1 && n < |ops| && ops[n].Get? && c.loads(c.dumps(v)) == Some(v)
    requires var latest := LatestThrough(ops, n, ops[n].namespace, ops[n].key);
             latest.Some? && latest.value.payload == Encoded(c.dumps(v))
    ensures var d, k := TableAt(p, maxsize, ops, n), ViewKey(p, ops[n].namespace, ops[n].key);
            Fetch(c, d, k, ops[n].now) == if ValueAt(d, k, ops[n].now).Some? then Value(v) else Absent
  {
    ReadsExactly(c, p, maxsize, ops, n, v);
  }

  /** The inner keys of other pairs of namespace and key used by operations `a` to `b`. */
  function OtherKeys(p: Printable, ops: seq<ViewOp>, a: nat, b: nat, namespace: string, key: string): set<string>
    requires a <= b <= |ops|
  {
    set m | a <= m < b && !ops[m].Delete? && (ops[m].namespace != namespace || ops[m].key != key) ::
      ViewKey(p, ops[m].namespace, ops[m].key)
  }

  /** A value set through a view and read back through it before its hard TTL is returned, in any
      interleaving of any views: unless it was set again or deleted through that view, or
      `maxsize` other keys of the shared cache were used in between. */
  lemma SetThenGet<V>(c: Codec<V>, p: Printable, maxsize: nat, ops: seq<ViewOp>, a: nat, b: nat, v: V)
    requires maxsize >= 1 && a < b < |ops| && c.loads(c.dumps(v)) == Some(v)
    requires ops[a].Set? && ops[a].payload == Encoded(c.dumps(v))
    requires ops[b].Get? && ops[b].namespace == ops[a].namespace && ops[b].key == ops[a].key
    requires forall m | a < m <= b && ops[m].namespace == ops[a].namespace && ops[m].key == ops[a].key ::
               ops[m].Get? && (ops[a].ttl.Some? ==> ops[m].now < ops[a].now + ops[a].ttl.value)
    requires |OtherKeys(p, ops, a + 1, b, ops[a].namespace, ops[a].key)| < maxsize
    ensures Fetch(c, TableAt(p, maxsize, ops, b), ViewKey(p, ops[b].namespace, ops[b].key), ops[b].now) == Value(v)
  {
    var calls, k := InnerCalls(p, ops), ViewKey(p, ops[a].namespace, ops[a].key);
    forall m | a < m < b
      ensures calls[m].key == k <==> ops[m].namespace == ops[a].namespace && ops[m].key == ops[a].key
    {
      SameInnerKey(p, ops[m].namespace, ops[m].key, ops[a].namespace, ops[a].key);
    }
    assert MemoryCalls.Others(calls, a + 1, b, k) == OtherKeys(p, ops, a + 1, b, ops[a].namespace, ops[a].key);
    MemoryCalls.FoundBeforeExpiry(maxsize, calls, a, a, b, ops[b].now);
  }

  /** For one such run: bytes the codec rejects, set and read back. */
  lemma BadBytesRaise<V>(c: Codec<V>, p: Printable, b: Bytes)
    requires c.loads(b) == None
    ensures var ops := [Set("ns", "k", Encoded(b), None, None, 0.0), Get("ns", "k", 0.0)];
            Fetch(c, TableAt(p, 1, ops, 1), ViewKey(p, "ns", "k"), 0.0) == Undecodable
  {
    var ops := [Set("ns", "k", Encoded(b), None, None, 0.0), Get("ns", "k", 0.0)];
    var calls := InnerCalls(p, ops);
    MemoryCalls.WroteSlot(1, calls, 0);
  }
}
