/** The part of Python's OrderedDict the library uses: a sequence of entries with
    distinct keys, oldest first. Assigning to a present key keeps its position,
    `move_to_end` makes it the newest, `popitem(last=False)` drops the oldest. */
module OrderedDict {
  import opened Basics

  datatype Entry<K, V> = Entry(key: K, val: V)

  type Odict<K, V> = seq<Entry<K, V>>

  function Keys<K(==), V>(d: Odict<K, V>): set<K> {
    if d == [] then {} else {d[0].key} + Keys(d[1..])
  }

  predicate Distinct<K(==), V>(d: Odict<K, V>) {
    d == [] || (d[0].key !in Keys(d[1..]) && Distinct(d[1..]))
  }

  function Find<K(==), V>(d: Odict<K, V>, k: K): (r: Option<V>)
    ensures r.Some? <==> k in Keys(d)
  {
    if d == [] then None
    else if d[0].key == k then Some(d[0].val)
    else Find(d[1..], k)
  }

  function Without<K(==), V>(d: Odict<K, V>, k: K): (r: Odict<K, V>)
    ensures Keys(r) == Keys(d) - {k}
    ensures k !in Keys(d) ==> r == d
    ensures Distinct(d) ==> Distinct(r)
    ensures Distinct(d) && k in Keys(d) ==> |r| == |d| - 1
  {
    if d == [] then []
    else if d[0].key == k then Without(d[1..], k)
    else [d[0]] + Without(d[1..], k)
  }

  /** `d[k] = v`: replaces in place, or appends. */
  function Assign<K(==), V>(d: Odict<K, V>, k: K, v: V): (r: Odict<K, V>)
    ensures Keys(r) == Keys(d) + {k}
  {
    if d == [] then [Entry(k, v)]
    else if d[0].key == k then [Entry(k, v)] + d[1..]
    else [d[0]] + Assign(d[1..], k, v)
  }

  /** `d.move_to_end(k)`. */
  function MoveToEnd<K(==), V>(d: Odict<K, V>, k: K): Odict<K, V>
    requires k in Keys(d)
  {
    Without(d, k) + [Entry(k, Find(d, k).value)]
  }

  /** The entry for `k` becomes `v` and the newest of all. */
  function Store<K(==), V>(d: Odict<K, V>, k: K, v: V): Odict<K, V> {
    Without(d, k) + [Entry(k, v)]
  }

  /** Keeps the `n` newest entries. */
  function Trim<K(==), V>(d: Odict<K, V>, n: nat): (r: Odict<K, V>)
    ensures |r| == if |d| <= n then |d| else n
  {
    if |d| <= n then d else d[|d| - n..]
  }

  /** The keys newer than `k`. */
  function After<K(==), V>(d: Odict<K, V>, k: K): set<K> {
    if d == [] then {}
    else if d[0].key == k then Keys(d[1..])
    else After(d[1..], k)
  }

  // Concatenation and the tail

  lemma {:induction false} KeysAppend<K, V>(d: Odict<K, V>, e: Entry<K, V>)
    ensures Keys(d + [e]) == Keys(d) + {e.key}
    ensures Distinct(d) && e.key !in Keys(d) ==> Distinct(d + [e])
  {
    if d == [] {
      assert d + [e] == [e];
    } else {
      assert (d + [e])[1..] == d[1..] + [e];
      KeysAppend(d[1..], e);
    }
  }

  lemma {:induction false} FindAppend<K, V>(d: Odict<K, V>, e: Entry<K, V>, k: K)
    ensures Find(d + [e], k) ==
            if k in Keys(d) then Find(d, k) else if k == e.key then Some(e.val) else None
  {
    if d == [] {
      assert d + [e] == [e];
    } else {
      assert (d + [e])[1..] == d[1..] + [e];
      FindAppend(d[1..], e, k);
    }
  }

  lemma {:induction false} AfterAppend<K, V>(d: Odict<K, V>, e: Entry<K, V>, k: K)
    ensures After(d + [e], k) == if k in Keys(d) then After(d, k) + {e.key} else {}
  {
    if d == [] {
      assert d + [e] == [e];
    } else {
      assert (d + [e])[1..] == d[1..] + [e];
      if d[0].key == k {
        KeysAppend(d[1..], e);
      } else {
        AfterAppend(d[1..], e, k);
      }
    }
  }

  lemma {:induction false} FindWithout<K, V>(d: Odict<K, V>, k: K, x: K)
    requires x != k
    ensures Find(Without(d, k), x) == Find(d, x)
    ensures After(Without(d, k), x) == After(d, x) - {k}
  {
    if d != [] {
      FindWithout(d[1..], k, x);
      if d[0].key != k {
        assert ([d[0]] + Without(d[1..], k))[1..] == Without(d[1..], k);
      }
    }
  }

  lemma {:induction false} AfterIsKeys<K, V>(d: Odict<K, V>, k: K)
    ensures After(d, k) <= Keys(d)
    ensures Distinct(d) ==> k !in After(d, k)
  {
    if d != [] {
      AfterIsKeys(d[1..], k);
    }
  }

  lemma {:induction false} KeysSize<K, V>(d: Odict<K, V>)
    requires Distinct(d)
    ensures |Keys(d)| == |d|
  {
    if d != [] {
      KeysSize(d[1..]);
    }
  }

  /** Of two present keys exactly one is newer than the other. */
  lemma {:induction false} AfterTotal<K, V>(d: Odict<K, V>, k: K, x: K)
    requires Distinct(d) && k in Keys(d) && x in Keys(d) && k != x
    ensures x in After(d, k) <==> k !in After(d, x)
  {
    if d[0].key == k {
      AfterIsKeys(d[1..], x);
    } else if d[0].key == x {
      AfterIsKeys(d[1..], k);
    } else {
      AfterTotal(d[1..], k, x);
    }
  }

  lemma {:induction false} FindExactly<K, V>(d: Odict<K, V>, e: Entry<K, V>)
    requires Distinct(d)
    ensures e in d <==> Find(d, e.key) == Some(e.val)
    ensures e in d ==> e.key in Keys(d)
  {
    if d != [] {
      FindExactly(d[1..], e);
      assert d == [d[0]] + d[1..];
    }
  }

  // Storing and trimming

  /** Assigning and then moving to the end is `Store`. */
  lemma {:induction false} AssignThenMove<K, V>(d: Odict<K, V>, k: K, v: V)
    requires Distinct(d)
    ensures MoveToEnd(Assign(d, k, v), k) == Store(d, k, v)
  {
    AssignWithout(d, k, v);
  }

  lemma {:induction false} AssignWithout<K, V>(d: Odict<K, V>, k: K, v: V)
    requires Distinct(d)
    ensures Without(Assign(d, k, v), k) == Without(d, k)
    ensures Find(Assign(d, k, v), k) == Some(v)
  {
    if d == [] {
    } else if d[0].key == k {
      assert ([Entry(k, v)] + d[1..])[1..] == d[1..];
    } else {
      AssignWithout(d[1..], k, v);
      assert ([d[0]] + Assign(d[1..], k, v))[1..] == Assign(d[1..], k, v);
    }
  }

  lemma StoreDistinct<K, V>(d: Odict<K, V>, k: K, v: V)
    requires Distinct(d)
    ensures Distinct(Store(d, k, v)) && Keys(Store(d, k, v)) == Keys(d) + {k}
    ensures |Store(d, k, v)| == if k in Keys(d) then |d| else |d| + 1
  {
    KeysAppend(Without(d, k), Entry(k, v));
  }

  lemma StoreFind<K, V>(d: Odict<K, V>, k: K, v: V, x: K)
    ensures Find(Store(d, k, v), x) == if x == k then Some(v) else Find(d, x)
    ensures After(Store(d, k, v), x) ==
            if x == k || x !in Keys(d) then {} else After(d, x) + {k}
  {
    FindAppend(Without(d, k), Entry(k, v), x);
    AfterAppend(Without(d, k), Entry(k, v), x);
    if x != k {
      FindWithout(d, k, x);
    }
  }

  /** Dropping the oldest entry changes nothing for the other keys. */
  lemma DropOldest<K, V>(d: Odict<K, V>, x: K)
    requires d != [] && Distinct(d)
    ensures Distinct(d[1..]) && Keys(d[1..]) == Keys(d) - {d[0].key}
    ensures x != d[0].key ==> Find(d[1..], x) == Find(d, x) && After(d[1..], x) == After(d, x)
    ensures After(d, d[0].key) == Keys(d) - {d[0].key}
  {
  }

  /** Trimming after one insertion drops the oldest entry or nothing. */
  lemma TrimOne<K, V>(d: Odict<K, V>, n: nat)
    requires |d| <= n + 1
    ensures Trim(d, n) == if |d| <= n then d else d[1..]
  {
  }
}
