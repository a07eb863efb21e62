/** Runs of a labelled machine: invariants, potentials, counts and logs, by induction over
    the steps. */
module Runs {

  datatype Machine<!S, !L> = Machine(start: S, enabled: (S, L) -> bool, next: (S, L) -> S)

  /** The state after the first `n` steps of `run`. */
  function At<S, L>(m: Machine<S, L>, run: seq<L>, n: nat): S
    requires n <= |run|
  {
    if n == 0 then m.start else m.next(At(m, run, n - 1), run[n - 1])
  }

  /** Each step of `run` is enabled where it is taken. */
  ghost predicate Valid<S, L>(m: Machine<S, L>, run: seq<L>) {
    forall n {:trigger m.enabled(At(m, run, n), run[n])} | 0 <= n < |run| :: m.enabled(At(m, run, n), run[n])
  }

  /** How many of the first `n` steps are of the kind `p`. */
  function Count<S, L>(m: Machine<S, L>, run: seq<L>, n: nat, p: (S, L) -> bool): nat
    requires n <= |run|
  {
    if n == 0 then 0
    else Count(m, run, n - 1, p) + (if p(At(m, run, n - 1), run[n - 1]) then 1 else 0)
  }

  /** What steps `a` to `b` emit, in order. */
  function Emitted<S, L, T>(m: Machine<S, L>, run: seq<L>, a: nat, b: nat, emit: (S, L) -> seq<T>): seq<T>
    requires a <= b <= |run|
  {
    if a == b then []
    else Emitted(m, run, a, b - 1, emit) + emit(At(m, run, b - 1), run[b - 1])
  }

  ghost predicate Inductive<S(!new), L(!new)>(m: Machine<S, L>, inv: S -> bool) {
    inv(m.start) && forall s, l {:trigger m.next(s, l)} :: inv(s) && m.enabled(s, l) ==> inv(m.next(s, l))
  }

  lemma {:induction false} Invariant<S(!new), L(!new)>(m: Machine<S, L>, inv: S -> bool, run: seq<L>, n: nat)
    requires Inductive(m, inv) && Valid(m, run) && n <= |run|
    ensures inv(At(m, run, n))
  {
    if n > 0 {
      Invariant(m, inv, run, n - 1);
      assert m.enabled(At(m, run, n - 1), run[n - 1]);
    }
  }

  ghost predicate Lowers<S(!new), L(!new)>(m: Machine<S, L>, inv: S -> bool, potential: S -> int) {
    forall s, l {:trigger m.next(s, l)} ::
      inv(s) && m.enabled(s, l) ==> potential(m.next(s, l)) + 1 <= potential(s)
  }

  /** A potential every step lowers bounds the length of the run. */
  lemma {:induction false} Potential<S(!new), L(!new)>(m: Machine<S, L>, inv: S -> bool, potential: S -> int,
                                                       run: seq<L>, n: nat)
    requires Inductive(m, inv) && Lowers(m, inv, potential) && Valid(m, run) && n <= |run|
    ensures potential(At(m, run, n)) + n <= potential(m.start)
  {
    if n > 0 {
      Potential(m, inv, potential, run, n - 1);
      Invariant(m, inv, run, n - 1);
      assert m.enabled(At(m, run, n - 1), run[n - 1]);
    }
  }

  ghost predicate Counts<S(!new), L(!new)>(m: Machine<S, L>, inv: S -> bool, measure: S -> nat, p: (S, L) -> bool) {
    measure(m.start) == 0 &&
    forall s, l {:trigger m.next(s, l)} ::
      inv(s) && m.enabled(s, l) ==> measure(m.next(s, l)) == measure(s) + (if p(s, l) then 1 else 0)
  }

  /** A measure that grows by one at each step of kind `p` and else stays counts them. */
  lemma {:induction false} Counted<S(!new), L(!new)>(m: Machine<S, L>, inv: S -> bool, measure: S -> nat,
                                                     run: seq<L>, n: nat, p: (S, L) -> bool)
    requires Inductive(m, inv) && Counts(m, inv, measure, p) && Valid(m, run) && n <= |run|
    ensures Count(m, run, n, p) == measure(At(m, run, n))
  {
    if n > 0 {
      Counted(m, inv, measure, run, n - 1, p);
      Invariant(m, inv, run, n - 1);
      assert m.enabled(At(m, run, n - 1), run[n - 1]);
    }
  }

  ghost predicate Logs<S(!new), L(!new), T>(m: Machine<S, L>, inv: S -> bool, log: S -> seq<T>,
                                            emit: (S, L) -> seq<T>) {
    forall s, l {:trigger m.next(s, l)} ::
      inv(s) && m.enabled(s, l) ==> log(m.next(s, l)) == log(s) + emit(s, l)
  }

  /** A log that each step extends by what it emits. */
  lemma {:induction false} Logged<S(!new), L(!new), T>(m: Machine<S, L>, inv: S -> bool, log: S -> seq<T>,
                                                       run: seq<L>, a: nat, b: nat, emit: (S, L) -> seq<T>)
    requires Inductive(m, inv) && Logs(m, inv, log, emit) && Valid(m, run) && a <= b <= |run|
    ensures log(At(m, run, b)) == log(At(m, run, a)) + Emitted(m, run, a, b, emit)
    decreases b
  {
    if a < b {
      Logged(m, inv, log, run, a, b - 1, emit);
      Invariant(m, inv, run, b - 1);
      assert m.enabled(At(m, run, b - 1), run[b - 1]);
    }
  }

  /** The same with the first step's emission apart. */
  lemma {:induction false} LoggedFrom<S(!new), L(!new), T>(m: Machine<S, L>, inv: S -> bool, log: S -> seq<T>,
                                                           run: seq<L>, a: nat, b: nat, emit: (S, L) -> seq<T>)
    requires Inductive(m, inv) && Logs(m, inv, log, emit) && Valid(m, run) && a < b <= |run|
    ensures log(At(m, run, b)) ==
            log(At(m, run, a)) + emit(At(m, run, a), run[a]) + Emitted(m, run, a + 1, b, emit)
    decreases b
  {
    Invariant(m, inv, run, b - 1);
    assert m.enabled(At(m, run, b - 1), run[b - 1]);
    if a < b - 1 {
      LoggedFrom(m, inv, log, run, a, b - 1, emit);
    }
  }

  ghost predicate Survives<S(!new), L(!new)>(m: Machine<S, L>, inv: S -> bool, p: S -> bool, breaks: (S, L) -> bool) {
    forall s, l {:trigger m.next(s, l)} ::
      inv(s) && p(s) && m.enabled(s, l) && !breaks(s, l) ==> p(m.next(s, l))
  }

  /** What only steps of one kind can break lasts while none of that kind is taken. */
  lemma {:induction false} Persists<S(!new), L(!new)>(m: Machine<S, L>, inv: S -> bool, p: S -> bool,
                                                      breaks: (S, L) -> bool, run: seq<L>, a: nat, b: nat)
    requires Inductive(m, inv) && Survives(m, inv, p, breaks) && Valid(m, run) && a <= b <= |run|
    requires p(At(m, run, a))
    requires forall n {:trigger breaks(At(m, run, n), run[n])} | a <= n < b :: !breaks(At(m, run, n), run[n])
    ensures p(At(m, run, b))
    decreases b
  {
    if a < b {
      Persists(m, inv, p, breaks, run, a, b - 1);
      Invariant(m, inv, run, b - 1);
      assert m.enabled(At(m, run, b - 1), run[b - 1]);
      assert !breaks(At(m, run, b - 1), run[b - 1]);
    }
  }

  /** What holds at `a` and not at `b` is ended by some step between. */
  lemma {:induction false} Falls<S(!new), L(!new)>(m: Machine<S, L>, inv: S -> bool, p: S -> bool,
                                                   run: seq<L>, a: nat, b: nat) returns (n: nat)
    requires Inductive(m, inv) && Valid(m, run) && a <= b <= |run| && p(At(m, run, a)) && !p(At(m, run, b))
    ensures a <= n < b && p(At(m, run, n)) && !p(m.next(At(m, run, n), run[n]))
    ensures inv(At(m, run, n)) && m.enabled(At(m, run, n), run[n])
    decreases b
  {
    if p(At(m, run, b - 1)) {
      n := b - 1;
      Invariant(m, inv, run, n);
      assert m.enabled(At(m, run, n), run[n]);
    } else {
      n := Falls(m, inv, p, run, a, b - 1);
    }
  }

  /** A longer run passes through the same states. */
  lemma {:induction false} Prefix<S, L>(m: Machine<S, L>, run: seq<L>, longer: seq<L>, n: nat)
    requires run <= longer && n <= |run|
    ensures At(m, longer, n) == At(m, run, n)
  {
    if n > 0 {
      Prefix(m, run, longer, n - 1);
    }
  }

  /** A run followed by a step enabled at its end is a run. */
  lemma Extended<S, L>(m: Machine<S, L>, run: seq<L>, l: L)
    requires Valid(m, run) && m.enabled(At(m, run, |run|), l)
    ensures Valid(m, run + [l])
    ensures At(m, run + [l], |run| + 1) == m.next(At(m, run, |run|), l)
  {
    forall n {:trigger m.enabled(At(m, run + [l], n), (run + [l])[n])} | 0 <= n < |run + [l]|
      ensures m.enabled(At(m, run + [l], n), (run + [l])[n])
    {
      Prefix(m, run, run + [l], n);
      assert n < |run| ==> m.enabled(At(m, run, n), run[n]);
    }
    Prefix(m, run, run + [l], |run|);
  }

  /** Seen through `f` and `g`, the steps of `m` are steps of `m'`. */
  ghost predicate Simulates<S(!new), L(!new), T, M>(m: Machine<S, L>, m': Machine<T, M>, f: S -> T, g: L -> M) {
    && f(m.start) == m'.start
    && forall s, l {:trigger m.enabled(s, l)} ::
         m.enabled(s, l) ==> m'.enabled(f(s), g(l)) && f(m.next(s, l)) == m'.next(f(s), g(l))
  }

  function Image<L, M>(g: L -> M, run: seq<L>): (r: seq<M>)
    ensures |r| == |run|
  {
    seq(|run|, n requires 0 <= n < |run| => g(run[n]))
  }

  /** The image of a run is a run, through the images of its states. */
  lemma {:induction false} Projected<S(!new), L(!new), T, M>(m: Machine<S, L>, m': Machine<T, M>, f: S -> T, g: L -> M,
                                                             run: seq<L>, n: nat)
    requires Simulates(m, m', f, g) && Valid(m, run) && n <= |run|
    ensures At(m', Image(g, run), n) == f(At(m, run, n))
  {
    if n > 0 {
      Projected(m, m', f, g, run, n - 1);
      assert m.enabled(At(m, run, n - 1), run[n - 1]);
    }
  }

  lemma ImageValid<S(!new), L(!new), T, M>(m: Machine<S, L>, m': Machine<T, M>, f: S -> T, g: L -> M, run: seq<L>)
    requires Simulates(m, m', f, g) && Valid(m, run)
    ensures Valid(m', Image(g, run))
  {
    var image := Image(g, run);
    forall n {:trigger m'.enabled(At(m', image, n), image[n])} | 0 <= n < |image|
      ensures m'.enabled(At(m', image, n), image[n])
    {
      Projected(m, m', f, g, run, n);
      assert m.enabled(At(m, run, n), run[n]);
    }
  }

  /** A machine with some steps forbidden goes through states of the whole one. */
  lemma Restricted<S(!new), L(!new)>(m: Machine<S, L>, m': Machine<S, L>, run: seq<L>, n: nat)
    requires m'.start == m.start && m'.next == m.next && Valid(m', run) && n <= |run|
    requires forall s, l {:trigger m'.enabled(s, l)} :: m'.enabled(s, l) ==> m.enabled(s, l)
    ensures Valid(m, run) && At(m, run, n) == At(m', run, n)
  {
    var f, g := (s: S) => s, (l: L) => l;
    assert Image(g, run) == run;
    assert Simulates(m', m, f, g);
    ImageValid(m', m, f, g, run);
    Projected(m', m, f, g, run, n);
  }
}
