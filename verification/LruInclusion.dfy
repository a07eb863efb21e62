/** LRU inclusion: run the same history through a smaller and a larger `MemoryCache`;
    everything the smaller one holds, the larger one holds too. */
module LruInclusion {
  import opened Basics
  import opened OrderedDict
  import opened Memory
  import opened MemoryLog

  /** Every entry of `s` is in `b`, with the same stored value and expiry. */
  ghost predicate Included<K(!new), V>(s: Table<K, V>, b: Table<K, V>) {
    forall k :: k in Keys(s) ==> Find(b, k) == Find(s, k)
  }

  /** `s` is a subsequence of `b`. */
  predicate Within<K(==), V(==)>(s: Table<K, V>, b: Table<K, V>) {
    s == [] ||
    (b != [] && (if s[0] == b[0] then Within(s[1..], b[1..]) else Within(s, b[1..])))
  }

  /** The inductive relation: same recency order, and a size gap the capacities explain. */
  ghost predicate Related<K, V>(s: Table<K, V>, m: nat, b: Table<K, V>, n: nat) {
    && Distinct(s) && Distinct(b)
    && |s| <= m <= n && |b| <= n && |b| - |s| <= n - m
    && Within(s, b)
  }

  lemma {:induction false} WithinFind<K, V>(s: Table<K, V>, b: Table<K, V>, k: K)
    requires Within(s, b) && Distinct(b)
    ensures k in Keys(s) ==> Find(s, k) == Find(b, k)
  {
    if s != [] {
      if s[0] == b[0] {
        WithinFind(s[1..], b[1..], k);
      } else {
        WithinFind(s, b[1..], k);
      }
    }
  }

  lemma {:induction false} WithinWithout<K, V>(s: Table<K, V>, b: Table<K, V>, k: K)
    requires Within(s, b) && Distinct(s) && Distinct(b)
    ensures Within(Without(s, k), Without(b, k))
  {
    if s != [] {
      WithinFind(s, b, s[0].key);
      if s[0] == b[0] {
        WithinWithout(s[1..], b[1..], k);
        if s[0].key != k {
          assert Without(s, k)[1..] == Without(s[1..], k) && Without(b, k)[1..] == Without(b[1..], k);
        }
      } else {
        WithinWithout(s, b[1..], k);
        if b[0].key != k {
          assert Without(b, k)[1..] == Without(b[1..], k);
          if Without(s, k) != [] && Without(s, k)[0] == b[0] {
            WithinTail(Without(s, k), Without(b[1..], k));
          }
        }
      }
    }
  }

  lemma {:induction false} WithinTail<K, V>(s: Table<K, V>, b: Table<K, V>)
    requires s != [] && Within(s, b)
    ensures Within(s[1..], b)
    decreases |b|
  {
    if s[0] == b[0] {
      if s[1..] != [] && s[1] == b[0] {
        WithinTail(s[1..], b[1..]);
      }
    } else {
      WithinTail(s, b[1..]);
      if s[1..] != [] && s[1] == b[0] {
        WithinTail(s[1..], b[1..]);
      }
    }
  }

  lemma {:induction false} WithinAppend<K, V>(s: Table<K, V>, b: Table<K, V>, e: Entry<K, Slot<V>>)
    requires Within(s, b)
    ensures Within(s + [e], b + [e]) && Within(s, b + [e])
    decreases |b|
  {
    if b == [] {
      assert s + [e] == [e] && b + [e] == [e];
    } else {
      assert (b + [e])[1..] == b[1..] + [e];
      if s == [] {
        WithinAppend([], b[1..], e);
        assert s + [e] == [e] && [] + [e] == [e];
        if e == b[0] {
          assert [e][1..] == [];
        }
      } else if s[0] == b[0] {
        assert (s + [e])[1..] == s[1..] + [e];
        WithinAppend(s[1..], b[1..], e);
      } else {
        WithinAppend(s, b[1..], e);
      }
    }
  }

  lemma RelatedPut<K, V>(s: Table<K, V>, m: nat, b: Table<K, V>, n: nat, k: K, slot: Slot<V>)
    requires m >= 1 && Related(s, m, b, n)
    ensures Related(Put(s, m, k, slot), m, Put(b, n, k, slot), n)
  {
    var s', b' := Store(s, k, slot), Store(b, k, slot);
    WithinWithout(s, b, k);
    WithinAppend(Without(s, k), Without(b, k), Entry(k, slot));
    WithinFind(s, b, k);
    StoreDistinct(s, k, slot);
    StoreDistinct(b, k, slot);
    TrimOne(s', m);
    TrimOne(b', n);
    if |s'| > m {
      DropOldest(s', k);
      WithinTail(s', b');
    }
    if |b'| > n {
      DropOldest(b', k);
      if s'[0] != b'[0] {
        WithinTail(s', b'[1..]);
      }
    }
  }

  lemma RelatedWithout<K, V>(s: Table<K, V>, m: nat, b: Table<K, V>, n: nat, k: K)
    requires Related(s, m, b, n)
    ensures Related(Without(s, k), m, Without(b, k), n)
  {
    WithinWithout(s, b, k);
    WithinFind(s, b, k);
  }

  lemma RelatedRead<K, V>(s: Table<K, V>, m: nat, b: Table<K, V>, n: nat, k: K, now: Time)
    requires Related(s, m, b, n)
    ensures Related(Looked(s, k, now), m, Looked(b, k, now), n)
  {
    WithinFind(s, b, k);
    RelatedWithout(s, m, b, n, k);
    if Hit(b, k, now) {
      var e := Entry(k, Find(b, k).value);
      WithinAppend(Without(s, k), Without(b, k), e);
      StoreDistinct(b, k, e.val);
      if k in Keys(s) {
        StoreDistinct(s, k, e.val);
      }
    }
  }

  /** Each `add` of the history returns the same boolean in both caches. */
  ghost predicate AddsAgree<K, V>(m: nat, n: nat, ops: seq<Op<K, V>>) {
    forall i | 0 <= i < |ops| && ops[i].Add? :: Added(m, ops, i) == Added(n, ops, i)
  }

  lemma {:induction false} StaysRelated<K, V>(m: nat, n: nat, ops: seq<Op<K, V>>, i: nat)
    requires 1 <= m <= n && i <= |ops| && AddsAgree(m, n, ops)
    ensures Related(At(m, ops, i), m, At(n, ops, i), n)
  {
    if i > 0 {
      StaysRelated(m, n, ops, i - 1);
      var s, b := At(m, ops, i - 1), At(n, ops, i - 1);
      match ops[i - 1]
      case Read(k, now) => RelatedRead(s, m, b, n, k, now);
      case Set(k, slot) => RelatedPut(s, m, b, n, k, slot);
      case Add(k, slot, check) =>
        assert Added(m, ops, i - 1) == Added(n, ops, i - 1);
        RelatedPut(s, m, b, n, k, slot);
      case Delete(k) => RelatedWithout(s, m, b, n, k);
      case Clear =>
    }
  }

  /** Whatever the history, with identical clock readings and adds that agree (none, for
      instance), the larger cache holds every entry of the smaller. */
  lemma Inclusion<K(!new), V>(m: nat, n: nat, ops: seq<Op<K, V>>)
    requires 1 <= m <= n && AddsAgree(m, n, ops)
    ensures Included(At(m, ops, |ops|), At(n, ops, |ops|))
  {
    StaysRelated(m, n, ops, |ops|);
    forall k | k in Keys(At(m, ops, |ops|))
      ensures Find(At(n, ops, |ops|), k) == Find(At(m, ops, |ops|), k)
    {
      WithinFind(At(m, ops, |ops|), At(n, ops, |ops|), k);
    }
  }

  /** One `add` after such a history keeps inclusion if and only if the caches return the
      same boolean, or the entry the smaller one adds is the one the larger already has. */
  lemma AddKeepsInclusionIff<K(!new), V>(m: nat, n: nat, ops: seq<Op<K, V>>, k: K, slot: Slot<V>, check: Time)
    requires 1 <= m <= n && AddsAgree(m, n, ops)
    ensures var s, b, add := At(m, ops, |ops|), At(n, ops, |ops|), Op.Add(k, slot, check);
            Included(Apply(s, m, add), Apply(b, n, add)) <==>
              Hit(s, k, check) == Hit(b, k, check) || Find(b, k) == Some(slot)
  {
    var s, b, add := At(m, ops, |ops|), At(n, ops, |ops|), Op<K, V>.Add(k, slot, check);
    StaysRelated(m, n, ops, |ops|);
    WithinFind(s, b, k);
    PutFacts(s, m, k, slot, k);
    if Hit(s, k, check) == Hit(b, k, check) {
      RelatedPut(s, m, b, n, k, slot);
      forall x | x in Keys(Apply(s, m, add))
        ensures Find(Apply(b, n, add), x) == Find(Apply(s, m, add), x)
      {
        WithinFind(Apply(s, m, add), Apply(b, n, add), x);
      }
    } else {
      forall x | x in Keys(Put(s, m, k, slot)) && x != k
        ensures Find(b, x) == Find(Put(s, m, k, slot), x)
      {
        PutFacts(s, m, k, slot, x);
        WithinFind(s, b, x);
      }
    }
  }

  /** Such a disagreement: with sizes 1 and 2, the smaller cache has evicted key 0, so
      `add` succeeds there and fails in the larger one. */
  lemma AddsCanDisagree()
    ensures var ops := [Op.Set(0, Slot(Raw(10), None)), Op.Set(1, Slot(Raw(11), None)),
                        Op.Add(0, Slot(Raw(12), None), 0.0)];
            !Included(At(1, ops, 3), At(2, ops, 3))
  {
    var ops := [Op.Set(0, Slot(Raw(10), None)), Op.Set(1, Slot(Raw(11), None)),
                Op.Add(0, Slot(Raw(12), None), 0.0)];
    var a, b := Entry(0, Slot(Raw(10), None)), Entry(1, Slot(Raw(11), None));
    assert At(1, ops, 1) == [a] && At(2, ops, 1) == [a];
    assert Store([a], 1, b.val) == [a, b];
    assert At(1, ops, 2) == [b] && At(2, ops, 2) == [a, b];
    assert Without([b], 0) == [b];
    assert At(1, ops, 3) == [Entry(0, Slot(Raw(12), None))];
    assert Find(At(1, ops, 3), 0) == Some(Slot(Raw(12), None));
  }
}
