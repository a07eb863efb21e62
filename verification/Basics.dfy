/** Vocabulary shared by every module: optional values, clock readings, and the
    user-supplied types (keys, cached values, exceptions) the library never inspects. */
module Basics {

  datatype Option<+T> = None | Some(value: T)

  /** A reading of either clock, in seconds. */
  type Time = real

  type Key(==, !new)
  type Value(==, !new)
  type Exc(==, !new)

  /** What calling a factory does: return or raise. */
  datatype Outcome = Returns(value: Value) | Raises(error: Exc)

  lemma {:induction false} SubsetSize<T>(a: set<T>, b: set<T>)
    requires a <= b
    ensures |a| <= |b|
  {
    if a != {} {
      var x :| x in a;
      SubsetSize(a - {x}, b - {x});
    }
  }

  lemma AtMostOne(s: set<nat>)
    requires forall i, j | i in s && j in s :: i == j
    ensures |s| <= 1
  {
    if i :| i in s {
      assert s == {i};
    }
  }

  lemma {:induction false} UpTo(p: int -> bool, i: int, j: int)
    requires i <= j && p(i) && forall m | i <= m < j && p(m) :: p(m + 1)
    ensures p(j)
    decreases j - i
  {
    if i < j {
      UpTo(p, i, j - 1);
    }
  }

  /** What is true at `i` and false at `j` stops being true at some step between. */
  lemma {:induction false} FallBetween(p: int -> bool, i: int, j: int) returns (m: int)
    requires i <= j && p(i) && !p(j)
    ensures i <= m < j && p(m) && !p(m + 1)
    decreases j - i
  {
    if p(i + 1) {
      m := FallBetween(p, i + 1, j);
    } else {
      m := i;
    }
  }
}
