/** Sums and counts over sequences, under update of one element. */
module Sums {
  import opened Basics

  function Sum<T>(s: seq<T>, f: T -> nat): nat {
    if s == [] then 0 else f(s[0]) + Sum(s[1..], f)
  }

  lemma {:induction false} SumUpdate<T>(s: seq<T>, f: T -> nat, i: nat, x: T)
    requires i < |s|
    ensures Sum(s[i := x], f) + f(s[i]) == Sum(s, f) + f(x)
  {
    if i == 0 {
      assert s[0 := x][1..] == s[1..];
    } else {
      assert s[i := x][1..] == s[1..][i - 1 := x];
      SumUpdate(s[1..], f, i - 1, x);
    }
  }

  lemma {:induction false} SumAppend<T>(s: seq<T>, f: T -> nat, x: T)
    ensures Sum(s + [x], f) == Sum(s, f) + f(x)
  {
    if s == [] {
      assert s + [x] == [x];
    } else {
      assert (s + [x])[1..] == s[1..] + [x];
      SumAppend(s[1..], f, x);
    }
  }

  /** Two ways of counting in two kinds that agree on each element agree in all. */
  lemma {:induction false} SumSplit<T(!new)>(s: seq<T>, f: T -> nat, g: T -> nat, h: T -> nat, e: T -> nat)
    requires forall x :: f(x) + g(x) == h(x) + e(x)
    ensures Sum(s, f) + Sum(s, g) == Sum(s, h) + Sum(s, e)
  {
    if s != [] {
      SumSplit(s[1..], f, g, h, e);
    }
  }

  /** If `f` counts at most the element at `only`, the sum is its value there. */
  lemma {:induction false} SumAtMostOne<T>(s: seq<T>, f: T -> nat, only: int)
    requires forall i | 0 <= i < |s| && i != only :: f(s[i]) == 0
    ensures Sum(s, f) == if 0 <= only < |s| then f(s[only]) else 0
  {
    if s != [] {
      SumAtMostOne(s[1..], f, only - 1);
    }
  }

  lemma {:induction false} SumBound<T>(s: seq<T>, f: T -> nat, b: nat)
    requires forall i | 0 <= i < |s| :: f(s[i]) <= b
    ensures Sum(s, f) <= b * |s|
  {
    if s != [] {
      SumBound(s[1..], f, b);
    }
  }

  /** The indices in `who` at which `s` has something. */
  function Present<T>(who: set<nat>, s: seq<Option<T>>): set<nat> {
    set i | i in who && i < |s| && s[i].Some?
  }

  lemma OneMore<T>(who: set<nat>, s: seq<Option<T>>, i: nat, x: T)
    requires i < |s| && s[i] == None
    ensures |Present(who, s[i := Some(x)])| == |Present(who, s)| + (if i in who then 1 else 0)
  {
    var now := Present(who, s[i := Some(x)]);
    if i in who {
      assert now == Present(who, s) + {i};
    } else {
      assert now == Present(who, s);
    }
  }
}
