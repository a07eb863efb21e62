/** Background jobs over whole runs of any machine built on the shared half: each goes through
    its stages by steps of its own, and writes what its factory returned. */
module JobRuns {
  import opened Basics
  import opened FrontRuns
  import opened Runs
  import Front
  import Revalidation

  function JobIs<S, L>(lens: Lens<S, L>, j: nat, k: Key, stage: Revalidation.Stage): S -> bool {
    (s: S) => j < |lens.front(s).reval.jobs| && lens.front(s).reval.jobs[j] == Revalidation.Job(k, stage)
  }

  /** A step leaves the revalidation state alone, or takes one step of it: the job's, if it is a
      job's. */
  lemma RevalMoves(c: Revalidation.Config, f: Front.State, l: Option<Front.Label>, f': Front.State)
    returns (rl: Option<Revalidation.Label>)
    requires Front.Moves(c, f, l, f')
    ensures rl == None ==> f'.reval == f.reval
    ensures rl.Some? ==> Revalidation.Enabled(f.reval, rl.value)
                         && f'.reval == Revalidation.Next(c, f.reval, rl.value)
                         && (Front.IsJobStep(rl.value) <==> l == Some(Front.JobStep(rl.value)))
    ensures l.Some? && l.value.JobStep? ==> rl == Some(l.value.l)
  {
    rl := if l.Some? then Front.Inner(f, l.value) else None;
  }

  lemma KeyStays(c: Revalidation.Config, f: Front.State, l: Option<Front.Label>, f': Front.State, j: nat)
    requires Front.Moves(c, f, l, f') && j < |f.reval.jobs|
    ensures j < |f'.reval.jobs| && f'.reval.jobs[j].key == f.reval.jobs[j].key
  {
    var rl := RevalMoves(c, f, l, f');
  }

  /** The key of job `j`. */
  lemma {:induction false} KeyLasts<S(!new), L(!new)>(m: Machine<S, L>, inv: S -> bool, lens: Lens<S, L>,
                                                      w: Front.World, run: seq<L>, a: nat, n: nat, j: nat)
    requires Embeds(m, inv, lens, w) && Valid(m, run) && a <= n <= |run|
    requires j < |lens.front(At(m, run, a)).reval.jobs|
    ensures j < |lens.front(At(m, run, n)).reval.jobs|
    ensures lens.front(At(m, run, n)).reval.jobs[j].key == lens.front(At(m, run, a)).reval.jobs[j].key
    decreases n
  {
    if a < n {
      KeyLasts(m, inv, lens, w, run, a, n - 1, j);
      StepMoves(m, inv, lens, w, run, n - 1);
      KeyStays(w.config, lens.front(At(m, run, n - 1)), lens.step(run[n - 1]), lens.front(At(m, run, n)), j);
    }
  }

  /** A job in one stage at `a` and in another at `n` has left it in between. */
  lemma LeavesStage<S(!new), L(!new)>(m: Machine<S, L>, inv: S -> bool, lens: Lens<S, L>, w: Front.World,
                                      run: seq<L>, a: nat, n: nat, j: nat, k: Key, stage: Revalidation.Stage)
    returns (q: nat)
    requires Embeds(m, inv, lens, w) && Valid(m, run) && a <= n <= |run|
    requires JobIs(lens, j, k, stage)(At(m, run, a)) && !JobIs(lens, j, k, stage)(At(m, run, n))
    ensures a <= q < n && JobIs(lens, j, k, stage)(At(m, run, q)) && !JobIs(lens, j, k, stage)(At(m, run, q + 1))
    ensures Front.Moves(w.config, lens.front(At(m, run, q)), lens.step(run[q]), lens.front(At(m, run, q + 1)))
  {
    q := Falls(m, inv, JobIs(lens, j, k, stage), run, a, n);
  }

  /** The step is one of job `j`'s own. */
  predicate Moved(l: Option<Front.Label>, j: nat) {
    l.Some? && l.value.JobStep? && Front.IsJobStep(l.value.l) && l.value.l.j == j
  }

  /** A running or failing job is only moved by its own steps. */
  lemma OwnStep(c: Revalidation.Config, f: Front.State, l: Option<Front.Label>, f': Front.State, j: nat)
    requires Front.Moves(c, f, l, f') && j < |f.reval.jobs| && !f.reval.jobs[j].stage.Reserved?
    requires j < |f'.reval.jobs| ==> f'.reval.jobs[j] != f.reval.jobs[j]
    ensures Moved(l, j) && Revalidation.Enabled(f.reval, l.value.l)
    ensures f'.reval == Revalidation.Next(c, f.reval, l.value.l)
  {
    var rl := RevalMoves(c, f, l, f');
  }

  // What a job writes

  /** Job `j` is about to write `v`, or is past writing. */
  predicate HasMade(f: Front.State, j: nat, v: Value) {
    j < |f.reval.jobs| &&
    match f.reval.jobs[j].stage
    case Reserved => false
    case Running => false
    case Writing(x) => x == v
    case _ => true
  }

  lemma HasMadeMoves(c: Revalidation.Config, f: Front.State, l: Option<Front.Label>, f': Front.State, j: nat, v: Value)
    requires Front.Moves(c, f, l, f')
    requires HasMade(f, j, v) || l == Some(Front.JobStep(Revalidation.RunFactory(j, Returns(v))))
    ensures HasMade(f', j, v)
  {
    var rl := RevalMoves(c, f, l, f');
  }

  /** From its factory's step on. */
  lemma {:induction false} MadeSince<S(!new), L(!new)>(m: Machine<S, L>, inv: S -> bool, lens: Lens<S, L>,
                                                       w: Front.World, run: seq<L>, q: nat, n: nat, j: nat, v: Value)
    requires Embeds(m, inv, lens, w) && Valid(m, run) && q < n <= |run|
    requires lens.step(run[q]) == Some(Front.JobStep(Revalidation.RunFactory(j, Returns(v))))
    ensures HasMade(lens.front(At(m, run, n)), j, v)
    decreases n
  {
    StepMoves(m, inv, lens, w, run, n - 1);
    if q < n - 1 {
      MadeSince(m, inv, lens, w, run, q, n - 1, j, v);
    }
    HasMadeMoves(w.config, lens.front(At(m, run, n - 1)), lens.step(run[n - 1]), lens.front(At(m, run, n)), j, v);
  }

  lemma JustMade(c: Revalidation.Config, f: Front.State, l: Option<Front.Label>, f': Front.State, j: nat, v: Value)
    requires Front.Moves(c, f, l, f') && l == Some(Front.JobStep(Revalidation.RunFactory(j, Returns(v))))
    ensures j < |f'.reval.jobs| && f'.reval.jobs[j].stage == Revalidation.Writing(v)
  {
  }

  lemma LeavesWriting(c: Revalidation.Config, f: Front.State, l: Option<Front.Label>, f': Front.State, j: nat)
    requires Front.Moves(c, f, l, f') && j < |f.reval.jobs| && f.reval.jobs[j].stage.Writing?
    requires j < |f'.reval.jobs| ==> f'.reval.jobs[j] != f.reval.jobs[j]
    ensures Moved(l, j) && l.value.l.Write?
  {
    OwnStep(c, f, l, f', j);
  }

  /** A job whose factory returned and which has finished has written in between. */
  lemma JobWrites<S(!new), L(!new)>(m: Machine<S, L>, inv: S -> bool, lens: Lens<S, L>, w: Front.World,
                                    run: seq<L>, q: nat, n: nat, j: nat, k: Key, v: Value)
    returns (p: nat, failure: Option<Exc>)
    requires Embeds(m, inv, lens, w) && Valid(m, run) && q < n <= |run|
    requires lens.step(run[q]) == Some(Front.JobStep(Revalidation.RunFactory(j, Returns(v))))
    requires JobIs(lens, j, k, Revalidation.Finished)(At(m, run, n))
    ensures q < p < n && lens.step(run[p]) == Some(Front.JobStep(Revalidation.Write(j, failure)))
    ensures JobIs(lens, j, k, Revalidation.Writing(v))(At(m, run, p))
  {
    StepMoves(m, inv, lens, w, run, q);
    JustMade(w.config, lens.front(At(m, run, q)), lens.step(run[q]), lens.front(At(m, run, q + 1)), j, v);
    KeyLasts(m, inv, lens, w, run, q + 1, n, j);
    p := LeavesStage(m, inv, lens, w, run, q + 1, n, j, k, Revalidation.Writing(v));
    LeavesWriting(w.config, lens.front(At(m, run, p)), lens.step(run[p]), lens.front(At(m, run, p + 1)), j);
    failure := lens.step(run[p]).value.l.failure;
  }
}
