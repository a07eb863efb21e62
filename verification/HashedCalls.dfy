/** `@cached` with its default key function: which calls share an entry, and when that is
    harmless. Keys are compared by Python's `==`, which may identify arguments the function
    tells apart. */
module HashedCalls {
  import opened Basics
  import opened HashKey
  import opened Memoise

  /** A call of a Python function with arguments of type `A`. */
  datatype PyCall<A> = PyCall(args: seq<A>, kwargs: seq<(string, A)>)

  /** The arguments up to `==`: `eq` maps each to its class. */
  function Images<A>(eq: A -> Py, args: seq<A>): seq<Py> {
    seq(|args|, i requires 0 <= i < |args| => eq(args[i]))
  }

  function ImageItems<A>(eq: A -> Py, kwargs: seq<(string, A)>): (r: seq<Item>)
    ensures |r| == |kwargs|
  {
    seq(|kwargs|, i requires 0 <= i < |kwargs| => (kwargs[i].0, eq(kwargs[i].1)))
  }

  function KeyOf<A>(eq: A -> Py, c: PyCall<A>): Py {
    HashKey.HashKey(Images(eq, c.args), ImageItems(eq, c.kwargs))
  }

  /** The wrapper of a Python function, keyed by `hashkey`. */
  function Hashed<A, B>(func: PyCall<A> -> Value, calls: seq<PyCall<A>>, eq: A -> Py, asKey: Py -> Key,
                        dumps: Value -> B, loads: B -> Value): Wrapped<PyCall<A>, B> {
    Wrapped(func, calls, (c: PyCall<A>) => asKey(KeyOf(eq, c)), dumps, loads)
  }

  /** Keyword names of one call are distinct; different keys stay different; the codec
      round-trips. */
  ghost predicate Proper<A, B>(calls: seq<PyCall<A>>, asKey: Py -> Key, dumps: Value -> B, loads: B -> Value) {
    && (forall i | 0 <= i < |calls| :: DistinctNames(calls[i].kwargs))
    && (forall a, b :: asKey(a) == asKey(b) ==> a == b)
    && (forall v :: loads(dumps(v)) == v)
  }

  /** The calls pass `==`-equal arguments, keywords in any order. */
  ghost predicate EqualCalls<A>(eq: A -> Py, c: PyCall<A>, d: PyCall<A>) {
    SameCall(Images(eq, c.args), ImageItems(eq, c.kwargs), Images(eq, d.args), ImageItems(eq, d.kwargs))
  }

  /** The positional call `c` passes by hand what `d` is keyed as. */
  predicate MimicsCall<A>(eq: A -> Py, c: PyCall<A>, d: PyCall<A>) {
    c.kwargs == [] && Mimics(Images(eq, c.args), Images(eq, d.args), ImageItems(eq, d.kwargs))
  }

  /** Memoisation is sound if and only if the function gives one value to any two of the calls
      whose arguments are `==`-equal, and to a call and one that mimics its key. */
  lemma SoundExactly<A, B>(func: PyCall<A> -> Value, calls: seq<PyCall<A>>, eq: A -> Py, asKey: Py -> Key,
                           dumps: Value -> B, loads: B -> Value)
    requires Proper(calls, asKey, dumps, loads)
    ensures Sound(Hashed(func, calls, eq, asKey, dumps, loads)) <==>
              forall i, j | 0 <= i < |calls| && 0 <= j < |calls|
                            && (EqualCalls(eq, calls[i], calls[j]) || MimicsCall(eq, calls[i], calls[j])) ::
                func(calls[i]) == func(calls[j])
  {
    var m := Hashed(func, calls, eq, asKey, dumps, loads);
    forall i, j | 0 <= i < |calls| && 0 <= j < |calls|
      ensures m.key(m.args[i]) == m.key(m.args[j]) <==>
                || EqualCalls(eq, calls[i], calls[j])
                || MimicsCall(eq, calls[i], calls[j]) || MimicsCall(eq, calls[j], calls[i])
    {
      assert m.key(m.args[i]) == asKey(KeyOf(eq, calls[i])) && m.key(m.args[j]) == asKey(KeyOf(eq, calls[j]));
      SharesKeyIff(eq, calls[i], calls[j]);
    }
  }

  /** Two calls get one key if and only if they are `==`-equal or one mimics the other. */
  lemma SharesKeyIff<A>(eq: A -> Py, c: PyCall<A>, d: PyCall<A>)
    requires DistinctNames(c.kwargs) && DistinctNames(d.kwargs)
    ensures KeyOf(eq, c) == KeyOf(eq, d) <==>
              EqualCalls(eq, c, d) || MimicsCall(eq, c, d) || MimicsCall(eq, d, c)
  {
    SameKeyIff(Images(eq, c.args), ImageItems(eq, c.kwargs), Images(eq, d.args), ImageItems(eq, d.kwargs));
  }

  /** When all calls pass keywords, and when none does, only `==` matters. */
  lemma OneShapeExactly<A, B>(func: PyCall<A> -> Value, calls: seq<PyCall<A>>, eq: A -> Py, asKey: Py -> Key,
                              dumps: Value -> B, loads: B -> Value)
    requires Proper(calls, asKey, dumps, loads)
    requires (forall c | c in calls :: c.kwargs == []) || (forall c | c in calls :: c.kwargs != [])
    ensures Sound(Hashed(func, calls, eq, asKey, dumps, loads)) <==>
              forall i, j | 0 <= i < |calls| && 0 <= j < |calls| && EqualCalls(eq, calls[i], calls[j]) ::
                func(calls[i]) == func(calls[j])
  {
    SoundExactly(func, calls, eq, asKey, dumps, loads);
  }

  /** Two of Python's arguments. */
  datatype Scalar = Number(int) | Truth(bool)

  /** `True == 1` and `False == 0`. */
  const EQUAL: Scalar -> Py :=
    (x: Scalar) =>
      match x
      case Number(n) => Int(n)
      case Truth(b) => Int(if b then 1 else 0)

  /** So `f(1)` and `f(True)` share an entry, whatever the function; one that tells them apart,
      like `str`, is not memoised soundly. */
  lemma OneAndTrueCollide<B>(func: PyCall<Scalar> -> Value, asKey: Py -> Key, dumps: Value -> B, loads: B -> Value)
    ensures var one, true_ := PyCall([Number(1)], []), PyCall([Truth(true)], []);
            && KeyOf(EQUAL, one) == KeyOf(EQUAL, true_)
            && (func(one) != func(true_) ==> !Sound(Hashed(func, [one, true_], EQUAL, asKey, dumps, loads)))
  {
    var one, true_ := PyCall([Number(1)], []), PyCall([Truth(true)], []);
    assert Images(EQUAL, one.args) == Images(EQUAL, true_.args);
    assert KeyOf(EQUAL, one) == KeyOf(EQUAL, true_);
    var m := Hashed(func, [one, true_], EQUAL, asKey, dumps, loads);
    assert m.args[0] == one && m.args[1] == true_;
    assert m.key(one) == m.key(true_);
  }
}
