/** Sets of ordered pairs, counted by their first elements: who waited for whom. */
module Pairs {

  /** The pairs whose first element is in `first`. */
  function Picked(pairs: set<(nat, nat)>, first: set<nat>): set<(nat, nat)> {
    set p | p in pairs && p.0 in first
  }

  lemma PickedFromMore(pairs: set<(nat, nat)>, added: set<(nat, nat)>, first: set<nat>)
    requires pairs !! added
    ensures |Picked(pairs + added, first)| == |Picked(pairs, first)| + |Picked(added, first)|
  {
    assert Picked(pairs + added, first) == Picked(pairs, first) + Picked(added, first);
  }

  lemma PickedByMore(pairs: set<(nat, nat)>, a: set<nat>, b: set<nat>)
    requires a !! b
    ensures |Picked(pairs, a + b)| == |Picked(pairs, a)| + |Picked(pairs, b)|
  {
    assert Picked(pairs, a + b) == Picked(pairs, a) + Picked(pairs, b);
  }

  /** Pairs with one first element have distinct second elements. */
  lemma {:induction false} Partners(pairs: set<(nat, nat)>, x: nat, others: set<nat>)
    requires forall p | p in pairs :: p.0 == x && p.1 in others
    ensures |pairs| <= |others|
  {
    if pairs != {} {
      var p :| p in pairs;
      Partners(pairs - {p}, x, others - {p.1});
    }
  }

  lemma {:induction false} PickedAtMost(pairs: set<(nat, nat)>, first: set<nat>, b: nat)
    requires forall x | x in first :: |Picked(pairs, {x})| <= b
    ensures |Picked(pairs, first)| <= |first| * b
  {
    if first == {} {
      assert Picked(pairs, first) == {};
    } else {
      var x :| x in first;
      PickedAtMost(pairs, first - {x}, b);
      PickedByMore(pairs, first - {x}, {x});
      assert first == (first - {x}) + {x};
      assert (|first| - 1) * b + b == |first| * b;
    }
  }

  /** If nobody picks more than `|led|` partners, and `led` and `took` together pick no more
      than their product, the whole picks no more than a quarter of its square. */
  lemma SquareBound(pairs: set<(nat, nat)>, who: set<nat>, led: set<nat>, took: set<nat>)
    requires led <= who && took <= who && led !! took
    requires forall x | x in who :: |Picked(pairs, {x})| <= |led|
    requires |Picked(pairs, led + took)| <= |led| * |took|
    ensures |Picked(pairs, who)| <= |who| * |who| / 4
  {
    var rest := who - (led + took);
    PickedAtMost(pairs, rest, |led|);
    PickedByMore(pairs, led + took, rest);
    assert led + took + rest == who;
    assert |led + took| == |led| + |took|;
    SplitSquare(|led|, |took|, |rest|);
  }

  lemma SplitSquare(l: nat, t: nat, r: nat)
    ensures l * t + r * l <= (l + t + r) * (l + t + r) / 4
  {
    var n := l + t + r;
    assert l * t + r * l == l * (n - l);
    assert (n - 2 * l) * (n - 2 * l) >= 0;
    assert 4 * (l * (n - l)) == n * n - (n - 2 * l) * (n - 2 * l);
  }
}
