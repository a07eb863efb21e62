/** How long a `MemoryCache` holds an entry: one step of the table, and whole runs of any
    machine that uses such a cache. */
module Retention {
  import opened Basics
  import opened Memory
  import opened OrderedDict
  import opened Runs

  /** The table holds `slot` for `k`, and every key used since is among `others`. */
  ghost predicate Held<K, V>(d: Table<K, V>, maxsize: nat, k: K, slot: Slot<V>, others: set<K>) {
    && Distinct(d) && |d| <= maxsize
    && Find(d, k) == Some(slot) && After(d, k) <= others && k !in others
  }

  lemma HeldLooked<K, V>(d: Table<K, V>, maxsize: nat, k: K, slot: Slot<V>, others: set<K>, x: K, now: Time)
    requires Held(d, maxsize, k, slot, others) && (if x == k then !slot.Expired(now) else x in others)
    ensures Held(Looked(d, x, now), maxsize, k, slot, others)
  {
    LookedFacts(d, x, now, k);
  }

  /** With fewer than `maxsize` others to use, none can push it out. */
  lemma HeldPut<K, V>(d: Table<K, V>, maxsize: nat, k: K, slot: Slot<V>, others: set<K>, x: K, new_: Slot<V>)
    requires maxsize >= 1 && Held(d, maxsize, k, slot, others) && x in others && |others| < maxsize
    ensures Held(Put(d, maxsize, x, new_), maxsize, k, slot, others)
  {
    PutFacts(d, maxsize, x, new_, k);
    if Evicts(d, maxsize, x, k) {
      KeysSize(d);
      assert |Keys(d) - {k} + {x}| == maxsize;
      SubsetSize(Keys(d) - {k} + {x}, others);
      assert false;
    }
  }

  lemma HeldWithout<K, V>(d: Table<K, V>, maxsize: nat, k: K, slot: Slot<V>, others: set<K>, x: K)
    requires Held(d, maxsize, k, slot, others) && x != k
    ensures Held(Without(d, x), maxsize, k, slot, others)
  {
    FindWithout(d, x, k);
  }

  // Machines with a cache

  /** Where a machine keeps its cache, and which key each step looks up, or writes, at which
      reading of the cache's clock. */
  datatype Watch<!S, !L, !K, !V> = Watch(table: S -> Table<K, V>, looks: (S, L) -> Option<K>,
                                         writes: (S, L) -> Option<K>, now: L -> Time)

  ghost predicate Asked<K(!new), V(!new)>(d: Table<K, V>, maxsize: nat, looks: Option<K>, writes: Option<K>, now: Time,
                                          d': Table<K, V>) {
    if looks.Some? then d' == Looked(d, looks.value, now)
    else if writes.Some? then exists slot :: d' == Put(d, maxsize, writes.value, slot)
    else d' == d
  }

  ghost predicate Watches<S(!new), L(!new), K(!new), V(!new)>(m: Machine<S, L>, inv: S -> bool, t: Watch<S, L, K, V>,
                                                              maxsize: nat) {
    && maxsize >= 1 && Inductive(m, inv)
    && (forall s :: inv(s) ==> Distinct(t.table(s)) && |t.table(s)| <= maxsize)
    && forall s, l {:trigger m.next(s, l)} :: inv(s) && m.enabled(s, l) ==>
         Asked(t.table(s), maxsize, t.looks(s, l), t.writes(s, l), t.now(l), t.table(m.next(s, l)))
  }

  /** The key a step looks up or writes, unless it is `k`. */
  function Uses<S, L, K(==), V>(t: Watch<S, L, K, V>, s: S, l: L, k: K): set<K> {
    (if t.looks(s, l).Some? then {t.looks(s, l).value}
     else if t.writes(s, l).Some? then {t.writes(s, l).value} else {}) - {k}
  }

  /** The keys other than `k` looked up or written in steps `a` to `b`. */
  function Others<S, L, K(==), V>(m: Machine<S, L>, t: Watch<S, L, K, V>, run: seq<L>, a: nat, b: nat, k: K): set<K>
    requires a <= b <= |run|
  {
    if a == b then {} else Others(m, t, run, a, b - 1, k) + Uses(t, At(m, run, b - 1), run[b - 1], k)
  }

  lemma {:induction false} AmongOthers<S, L, K, V>(m: Machine<S, L>, t: Watch<S, L, K, V>, run: seq<L>, a: nat, b: nat,
                                                   k: K, n: nat)
    requires a <= n < b <= |run|
    ensures Uses(t, At(m, run, n), run[n], k) <= Others(m, t, run, a, b, k)
    ensures k !in Others(m, t, run, a, b, k)
    decreases b
  {
    if n < b - 1 {
      AmongOthers(m, t, run, a, b - 1, k, n);
    } else if a < b - 1 {
      AmongOthers(m, t, run, a, b - 1, k, a);
    }
  }

  /** No step from `a` to `b` writes `k`. */
  ghost predicate Unwritten<S, L, K, V>(m: Machine<S, L>, t: Watch<S, L, K, V>, run: seq<L>, a: nat, b: nat, k: K)
    requires a <= b <= |run|
  {
    forall n {:trigger t.writes(At(m, run, n), run[n])} | a <= n < b :: t.writes(At(m, run, n), run[n]) != Some(k)
  }

  /** Nor looks it up at or past `until`, and fewer than `maxsize` other keys are used. */
  ghost predicate Spared<S, L, K, V>(m: Machine<S, L>, t: Watch<S, L, K, V>, maxsize: nat, run: seq<L>, a: nat, b: nat,
                                     k: K, until: Option<Time>)
    requires a <= b <= |run|
  {
    && Unwritten(m, t, run, a, b, k)
    && (forall n {:trigger t.looks(At(m, run, n), run[n])} | a <= n < b ::
          t.looks(At(m, run, n), run[n]) == Some(k) && until.Some? ==> t.now(run[n]) < until.value)
    && |Others(m, t, run, a, b, k)| < maxsize
  }

  ghost function Holds<S, L, K, V>(t: Watch<S, L, K, V>, k: K, slot: Slot<V>, others: set<K>, maxsize: nat): S -> bool {
    (s: S) => Distinct(t.table(s)) && |t.table(s)| <= maxsize && Find(t.table(s), k) == Some(slot)
              && After(t.table(s), k) <= others
  }

  /** The step may take `k` out of the table, or uses a key not among `others`. */
  function Harms<S, L, K(==), V>(t: Watch<S, L, K, V>, k: K, slot: Slot<V>, others: set<K>): (S, L) -> bool {
    (s: S, l: L) =>
      || t.writes(s, l) == Some(k) || !(Uses(t, s, l, k) <= others)
      || (t.looks(s, l) == Some(k) && slot.Expired(t.now(l)))
  }

  lemma HoldsStep<S(!new), L(!new), K(!new), V(!new)>(m: Machine<S, L>, inv: S -> bool, t: Watch<S, L, K, V>,
                                                      maxsize: nat, k: K, slot: Slot<V>, others: set<K>)
    requires Watches(m, inv, t, maxsize) && |others| < maxsize && k !in others
    ensures Survives(m, inv, Holds(t, k, slot, others, maxsize), Harms(t, k, slot, others))
  {
    forall s, l | inv(s) && Holds(t, k, slot, others, maxsize)(s) && m.enabled(s, l) && !Harms(t, k, slot, others)(s, l)
      ensures Holds(t, k, slot, others, maxsize)(m.next(s, l))
    {
      var d := t.table(s);
      assert Asked(d, maxsize, t.looks(s, l), t.writes(s, l), t.now(l), t.table(m.next(s, l)));
      if t.looks(s, l).Some? {
        HeldLooked(d, maxsize, k, slot, others, t.looks(s, l).value, t.now(l));
      } else if t.writes(s, l).Some? {
        var new_ :| t.table(m.next(s, l)) == Put(d, maxsize, t.writes(s, l).value, new_);
        HeldPut(d, maxsize, k, slot, others, t.writes(s, l).value, new_);
      }
    }
  }

  /** An entry that is the newest of the table stays until it expires or is written, or `maxsize`
      other keys have been used. */
  lemma Retained<S(!new), L(!new), K(!new), V(!new)>(m: Machine<S, L>, inv: S -> bool, t: Watch<S, L, K, V>,
                                                     maxsize: nat, run: seq<L>, a: nat, b: nat, k: K, slot: Slot<V>)
    requires Watches(m, inv, t, maxsize) && Valid(m, run) && a <= b <= |run|
    requires Find(t.table(At(m, run, a)), k) == Some(slot) && After(t.table(At(m, run, a)), k) == {}
    requires Spared(m, t, maxsize, run, a, b, k, slot.hardAt)
    ensures Find(t.table(At(m, run, b)), k) == Some(slot)
  {
    if a < b {
      var others := Others(m, t, run, a, b, k);
      AmongOthers(m, t, run, a, b, k, a);
      Invariant(m, inv, run, a);
      HoldsStep(m, inv, t, maxsize, k, slot, others);
      forall n {:trigger Harms(t, k, slot, others)(At(m, run, n), run[n])} | a <= n < b
        ensures !Harms(t, k, slot, others)(At(m, run, n), run[n])
      {
        AmongOthers(m, t, run, a, b, k, n);
      }
      Persists(m, inv, Holds(t, k, slot, others, maxsize), Harms(t, k, slot, others), run, a, b);
    }
  }

  ghost function HoldsOnly<S, L, K, V>(t: Watch<S, L, K, V>, k: K, was: Option<Slot<V>>): S -> bool {
    (s: S) => Find(t.table(s), k).Some? ==> Find(t.table(s), k) == was
  }

  function WritesTo<S, L, K(==), V>(t: Watch<S, L, K, V>, k: K): (S, L) -> bool {
    (s: S, l: L) => t.writes(s, l) == Some(k)
  }

  /** Unwritten, what is held for `k` was held before. */
  lemma HeldBefore<S(!new), L(!new), K(!new), V(!new)>(m: Machine<S, L>, inv: S -> bool, t: Watch<S, L, K, V>,
                                                       maxsize: nat, run: seq<L>, a: nat, b: nat, k: K)
    requires Watches(m, inv, t, maxsize) && Valid(m, run) && a <= b <= |run| && Unwritten(m, t, run, a, b, k)
    ensures Find(t.table(At(m, run, b)), k).Some? ==>
              Find(t.table(At(m, run, b)), k) == Find(t.table(At(m, run, a)), k)
  {
    var was := Find(t.table(At(m, run, a)), k);
    forall s, l | inv(s) && HoldsOnly(t, k, was)(s) && m.enabled(s, l) && !WritesTo(t, k)(s, l)
      ensures HoldsOnly(t, k, was)(m.next(s, l))
    {
      KeptStep(m, inv, t, maxsize, s, l, k);
    }
    assert forall n {:trigger WritesTo(t, k)(At(m, run, n), run[n])} | a <= n < b ::
             t.writes(At(m, run, n), run[n]) != Some(k);
    Persists(m, inv, HoldsOnly(t, k, was), WritesTo(t, k), run, a, b);
  }

  lemma KeptStep<S(!new), L(!new), K(!new), V(!new)>(m: Machine<S, L>, inv: S -> bool, t: Watch<S, L, K, V>,
                                                     maxsize: nat, s: S, l: L, k: K)
    requires Watches(m, inv, t, maxsize) && inv(s) && m.enabled(s, l) && t.writes(s, l) != Some(k)
    ensures var d' := t.table(m.next(s, l)); Find(d', k).Some? ==> Find(d', k) == Find(t.table(s), k)
  {
    var d := t.table(s);
    assert Asked(d, maxsize, t.looks(s, l), t.writes(s, l), t.now(l), t.table(m.next(s, l)));
    if t.looks(s, l).Some? {
      LookedFacts(d, t.looks(s, l).value, t.now(l), k);
    } else if t.writes(s, l).Some? {
      var new_ :| t.table(m.next(s, l)) == Put(d, maxsize, t.writes(s, l).value, new_);
      PutFacts(d, maxsize, t.writes(s, l).value, new_, k);
    }
  }

  /** A lookup that hits makes its entry the newest. */
  lemma PromotedAt<S(!new), L(!new), K(!new), V(!new)>(m: Machine<S, L>, inv: S -> bool, t: Watch<S, L, K, V>,
                                                       maxsize: nat, run: seq<L>, r: nat, k: K)
    requires Watches(m, inv, t, maxsize) && Valid(m, run) && r < |run|
    requires t.looks(At(m, run, r), run[r]) == Some(k) && Hit(t.table(At(m, run, r)), k, t.now(run[r]))
    ensures Find(t.table(At(m, run, r + 1)), k) == Find(t.table(At(m, run, r)), k)
    ensures After(t.table(At(m, run, r + 1)), k) == {}
  {
    Invariant(m, inv, run, r);
    var s, l := At(m, run, r), run[r];
    assert m.enabled(s, l);
    assert Asked(t.table(s), maxsize, t.looks(s, l), t.writes(s, l), t.now(l), t.table(m.next(s, l)));
    LookedFacts(t.table(s), k, t.now(l), k);
  }

  /** Step `r` is `p`, or looks `k` up and hits. */
  ghost predicate LastUse<S, L, K, V>(m: Machine<S, L>, t: Watch<S, L, K, V>, run: seq<L>, p: nat, r: nat, k: K)
    requires p <= r < |run|
  {
    r > p ==> t.looks(At(m, run, r), run[r]) == Some(k) && Hit(t.table(At(m, run, r)), k, t.now(run[r]))
  }

  lemma NewestAfter<S(!new), L(!new), K(!new), V(!new)>(m: Machine<S, L>, inv: S -> bool, t: Watch<S, L, K, V>,
                                                        maxsize: nat, run: seq<L>, p: nat, r: nat,
                                                        k: K, slot: Slot<V>)
    requires Watches(m, inv, t, maxsize) && Valid(m, run) && p <= r < |run|
    requires Find(t.table(At(m, run, p + 1)), k) == Some(slot) && After(t.table(At(m, run, p + 1)), k) == {}
    requires r > p ==> Unwritten(m, t, run, p + 1, r, k)
    requires LastUse(m, t, run, p, r, k)
    ensures Find(t.table(At(m, run, r + 1)), k) == Some(slot) && After(t.table(At(m, run, r + 1)), k) == {}
  {
    if r > p {
      HeldBefore(m, inv, t, maxsize, run, p + 1, r, k);
      PromotedAt(m, inv, t, maxsize, run, r, k);
    }
  }

  /** The entry written in step `p`, and not since, is the one held at `n`, if since step `r`, the
      write itself or a lookup that hit, it did not expire and was not pushed out. */
  lemma StillHeld<S(!new), L(!new), K(!new), V(!new)>(m: Machine<S, L>, inv: S -> bool, t: Watch<S, L, K, V>,
                                                      maxsize: nat, run: seq<L>, p: nat, r: nat, n: nat,
                                                      k: K, slot: Slot<V>)
    requires Watches(m, inv, t, maxsize) && Valid(m, run) && p <= r < n <= |run|
    requires Find(t.table(At(m, run, p + 1)), k) == Some(slot) && After(t.table(At(m, run, p + 1)), k) == {}
    requires Unwritten(m, t, run, p + 1, n, k) && LastUse(m, t, run, p, r, k)
    requires Spared(m, t, maxsize, run, r + 1, n, k, slot.hardAt)
    ensures Find(t.table(At(m, run, n)), k) == Some(slot)
  {
    NewestAfter(m, inv, t, maxsize, run, p, r, k, slot);
    Retained(m, inv, t, maxsize, run, r + 1, n, k, slot);
  }
}
