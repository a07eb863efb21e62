/** `hashkey` (decorators.py): positional arguments as they are, keyword arguments sorted by
    name. Keyword names of one call are distinct. */
module HashKey {

  /** Any other hashable value. */
  type Opaque(==, !new)

  /** The hashable Python values, up to `==`, which is how dictionaries compare keys: 1, 1.0 and
      True are one value here. */
  datatype Py = Int(int) | Str(string) | Tup(items: seq<Py>) | Other(Opaque)

  type Item = (string, Py)

  ghost predicate DistinctNames<T>(kwargs: seq<(string, T)>) {
    forall i, j | 0 <= i < j < |kwargs| :: kwargs[i].0 != kwargs[j].0
  }

  /** Python's order on str: by code point, prefixes first. */
  predicate Le(a: string, b: string) {
    a == [] || (b != [] && (a[0] < b[0] || (a[0] == b[0] && Le(a[1..], b[1..]))))
  }

  function Insert(x: Item, s: seq<Item>): seq<Item> {
    if s == [] || Le(x.0, s[0].0) then [x] + s else [s[0]] + Insert(x, s[1..])
  }

  /** `sorted(kwargs.items())`: names are distinct, so values are never compared. */
  function Sort(s: seq<Item>): seq<Item> {
    if s == [] then [] else Insert(s[0], Sort(s[1..]))
  }

  function Pack(s: seq<Item>): seq<Py> {
    if s == [] then [] else [Tup([Str(s[0].0), s[0].1])] + Pack(s[1..])
  }

  function HashKey(args: seq<Py>, kwargs: seq<Item>): Py {
    if kwargs == [] then Tup(args) else Tup([Tup(args), Tup(Pack(Sort(kwargs)))])
  }

  // The sort

  lemma {:induction false} LeTotal(a: string, b: string)
    ensures Le(a, b) || Le(b, a)
    ensures Le(a, b) && Le(b, a) ==> a == b
  {
    if a != [] && b != [] && a[0] == b[0] {
      LeTotal(a[1..], b[1..]);
      assert a == [a[0]] + a[1..] && b == [b[0]] + b[1..];
    }
  }

  lemma {:induction false} LeTransitive(a: string, b: string, c: string)
    requires Le(a, b) && Le(b, c)
    ensures Le(a, c)
  {
    if a != [] && a[0] == b[0] == c[0] {
      LeTransitive(a[1..], b[1..], c[1..]);
    }
  }

  predicate Sorted(s: seq<Item>) {
    |s| <= 1 || (Le(s[0].0, s[1].0) && Sorted(s[1..]))
  }

  lemma {:induction false} InsertPermutes(x: Item, s: seq<Item>)
    ensures multiset(Insert(x, s)) == multiset(s) + multiset{x}
  {
    if s != [] && !Le(x.0, s[0].0) {
      InsertPermutes(x, s[1..]);
      assert s == [s[0]] + s[1..];
    }
  }

  lemma {:induction false} InsertSorts(x: Item, s: seq<Item>)
    requires Sorted(s)
    ensures Sorted(Insert(x, s))
  {
    if s != [] && !Le(x.0, s[0].0) {
      LeTotal(x.0, s[0].0);
      InsertSorts(x, s[1..]);
      var rest := Insert(x, s[1..]);
      assert Insert(x, s)[1..] == rest;
      assert rest[0] == x || rest[0] == s[1];
    } else {
      assert ([x] + s)[1..] == s;
    }
  }

  lemma {:induction false} SortSorts(s: seq<Item>)
    ensures Sorted(Sort(s)) && multiset(Sort(s)) == multiset(s)
  {
    if s != [] {
      SortSorts(s[1..]);
      InsertSorts(s[0], Sort(s[1..]));
      InsertPermutes(s[0], Sort(s[1..]));
      assert s == [s[0]] + s[1..];
    }
  }

  lemma {:induction false} HeadLeast(s: seq<Item>, x: Item)
    requires Sorted(s) && x in s
    ensures Le(s[0].0, x.0)
  {
    LeTotal(x.0, x.0);
    if x != s[0] {
      assert x in s[1..];
      HeadLeast(s[1..], x);
      LeTransitive(s[0].0, s[1].0, x.0);
    }
  }

  /** Items with one name are one item. */
  ghost predicate NamesIdentify(s: seq<Item>) {
    forall x, y | x in s && y in s && x.0 == y.0 :: x == y
  }

  lemma {:induction false} SortedUnique(s: seq<Item>, t: seq<Item>)
    requires Sorted(s) && Sorted(t) && multiset(s) == multiset(t) && NamesIdentify(s)
    ensures s == t
  {
    assert |s| == |multiset(s)| == |multiset(t)| == |t|;
    if s != [] {
      SameHead(s, t);
      assert s == [s[0]] + s[1..] && t == [t[0]] + t[1..];
      assert multiset(s[1..]) == multiset(s) - multiset{s[0]};
      assert multiset(t[1..]) == multiset(t) - multiset{t[0]};
      SortedUnique(s[1..], t[1..]);
    }
  }

  lemma SameHead(s: seq<Item>, t: seq<Item>)
    requires Sorted(s) && Sorted(t) && multiset(s) == multiset(t) && NamesIdentify(s) && s != [] && t != []
    ensures s[0] == t[0]
  {
    assert s[0] in multiset(t) && t[0] in multiset(s);
    HeadLeast(t, s[0]);
    HeadLeast(s, t[0]);
    LeTotal(s[0].0, t[0].0);
  }

  lemma {:induction false} PackInjective(s: seq<Item>, t: seq<Item>)
    requires Pack(s) == Pack(t)
    ensures s == t
  {
    if s != [] && t != [] {
      assert Pack(s)[0] == Tup([Str(s[0].0), s[0].1]) && Pack(t)[0] == Tup([Str(t[0].0), t[0].1]);
      assert Tup([Str(s[0].0), s[0].1]).items[0] == Str(t[0].0);
      assert Tup([Str(s[0].0), s[0].1]).items[1] == t[0].1;
      assert Pack(s)[1..] == Pack(s[1..]) && Pack(t)[1..] == Pack(t[1..]);
      PackInjective(s[1..], t[1..]);
      assert s == [s[0]] + s[1..] && t == [t[0]] + t[1..];
    }
  }

  lemma DistinctIdentify(s: seq<Item>, t: seq<Item>)
    requires DistinctNames(s) && multiset(s) == multiset(t)
    ensures NamesIdentify(t)
  {
    forall x, y | x in t && y in t && x.0 == y.0 ensures x == y {
      assert x in multiset(s) && y in multiset(s);
    }
  }

  // Keys

  /** The calls pass the same arguments: the same positional ones in order, the same keyword
      ones in any order. */
  ghost predicate SameCall(a: seq<Py>, kw: seq<Item>, a': seq<Py>, kw': seq<Item>) {
    a == a' && multiset(kw) == multiset(kw')
  }

  /** The positional call `f(*a)` passes by hand what `f(*a', **kw')` is keyed as. */
  predicate Mimics(a: seq<Py>, a': seq<Py>, kw': seq<Item>) {
    kw' != [] && a == [Tup(a'), Tup(Pack(Sort(kw')))]
  }

  /** Two calls share a key if and only if they pass the same arguments, or one, without
      keywords, mimics the other: so reordering keywords never matters, and keys are
      injective among calls with keywords and among calls without. */
  lemma SameKeyIff(a: seq<Py>, kw: seq<Item>, a': seq<Py>, kw': seq<Item>)
    requires DistinctNames(kw) && DistinctNames(kw')
    ensures HashKey(a, kw) == HashKey(a', kw') <==>
              || SameCall(a, kw, a', kw')
              || (kw == [] && Mimics(a, a', kw'))
              || (kw' == [] && Mimics(a', a, kw))
  {
    SortSorts(kw);
    SortSorts(kw');
    assert |multiset(kw)| == |kw| && |multiset(kw')| == |kw'|;
    if multiset(kw) == multiset(kw') {
      DistinctIdentify(kw, Sort(kw));
      SortedUnique(Sort(kw), Sort(kw'));
    }
    if kw != [] && kw' != [] && HashKey(a, kw) == HashKey(a', kw') {
      assert HashKey(a, kw).items[0] == Tup(a') && HashKey(a, kw).items[1] == Tup(Pack(Sort(kw')));
      PackInjective(Sort(kw), Sort(kw'));
    }
  }

  /** The two shapes do collide: `f((1,), (("a", 2),))` and `f(1, a=2)`. */
  lemma ShapesCollide()
    ensures HashKey([Tup([Int(1)]), Tup([Tup([Str("a"), Int(2)])])], []) == HashKey([Int(1)], [("a", Int(2))])
  {
    var item := ("a", Int(2));
    assert Sort([item]) == [item];
    assert Pack([item]) == [Tup([Str("a"), Int(2)])];
  }
}
