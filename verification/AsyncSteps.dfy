/** Building particular runs of the async machine, a few steps at a time. */
module AsyncSteps {
  import opened Basics
  import opened AsyncMachine
  import opened AsyncRuns
  import opened AsyncCost
  import opened Runs
  import Front

  /** The state a run has led to. */
  function End(w: World, run: seq<Label>): State {
    At(Sys(w), run, |run|)
  }

  lemma Then(w: World, run: seq<Label>, l: Label) returns (run': seq<Label>)
    requires Valid(Sys(w), run) && Enabled(End(w, run), l)
    ensures run' == run + [l] && Valid(Sys(w), run') && End(w, run') == Next(w.config, End(w, run), l)
  {
    run' := run + [l];
    Extended(Sys(w), run, l);
  }

  /** Only callers in `who` moved. */
  ghost predicate OnlyMoved(s: State, s': State, who: set<nat>) {
    && |s'.pcs| == |s.pcs| && |s'.front.callers| == |s.front.callers|
    && (forall j | 0 <= j < |s.pcs| && j !in who :: s'.pcs[j] == s.pcs[j])
    && (forall j | 0 <= j < |s.front.callers| && j !in who :: s'.front.callers[j] == s.front.callers[j])
  }

  ghost predicate IsLooking(s: State, i: nat) {
    i < |s.front.callers| && s.front.callers[i].pc.Looking?
  }

  lemma Misses(w: World, run: seq<Label>, i: nat) returns (run': seq<Label>)
    requires Valid(Sys(w), run) && i < |w.calls| && IsLooking(End(w, run), i)
    ensures Valid(Sys(w), run') && run <= run'
    ensures var s, s' := End(w, run), End(w, run');
            && OnlyMoved(s, s', {i}) && s'.flight == s.flight && s'.hist == s.hist
            && s'.front.reval == s.front.reval && i < |s'.pcs| && s'.pcs[i] == Joining
  {
    GoodAt(w, run, |run|);
    run' := Then(w, run, FrontStep(Front.LookUp(i, Front.Miss)));
  }

  /** A call misses and joins: it leads if the key is not in flight, else it awaits. */
  lemma Arrive(w: World, run: seq<Label>, i: nat) returns (run': seq<Label>)
    requires Valid(Sys(w), run) && i < |w.calls| && IsLooking(End(w, run), i)
    ensures Valid(Sys(w), run') && run <= run'
    ensures var s, s', k := End(w, run), End(w, run'), w.calls[i].key;
            && OnlyMoved(s, s', {i}) && i < |s'.pcs|
            && s'.front.reval == s.front.reval && s'.hist.made == s.hist.made
            && (k in s.flight.inflight ==> s'.flight == s.flight)
            && (k !in s.flight.inflight ==> s'.pcs[i].Running?)
            && k in s'.flight.inflight
            && |Followers(w, k, s')| == |Followers(w, k, s)| + (if k in s.flight.inflight then 1 else 0)
  {
    run' := Misses(w, run, i);
    assert Followers(w, w.calls[i].key, End(w, run')) == Followers(w, w.calls[i].key, End(w, run));
    GoodAt(w, run', |run'|);
    FollowersStep(w, End(w, run'), Join(i), w.calls[i].key);
    run' := Then(w, run', Join(i));
  }

  /** Call `i` leads, raises `e` and ends. */
  lemma Fails(w: World, run: seq<Label>, i: nat, k: Key, e: Exc) returns (run': seq<Label>)
    requires Valid(Sys(w), run) && i in Front.CallsFor(w, k) && IsLooking(End(w, run), i)
    requires k !in End(w, run).flight.inflight
    ensures Valid(Sys(w), run') && run <= run'
    ensures var s, s' := End(w, run), End(w, run');
            && OnlyMoved(s, s', {i}) && i < |s.hist.made|
            && s'.hist.made == s.hist.made[i := Some(Raises(e))] && k !in s'.flight.inflight
  {
    run' := Arrive(w, run, i);
    run' := LeaderRaises(w, run', i, e);
    run' := LeaderLeaves(w, run', i, k);
  }

  lemma LeaderRaises(w: World, run: seq<Label>, i: nat, e: Exc) returns (run': seq<Label>)
    requires Valid(Sys(w), run) && i < |w.calls|
    requires i < |End(w, run).pcs| && End(w, run).pcs[i].Running?
    ensures Valid(Sys(w), run') && run <= run'
    ensures var s, s' := End(w, run), End(w, run');
            && OnlyMoved(s, s', {i}) && s'.front == s.front && s'.flight == s.flight
            && i < |s.hist.made| && s'.hist.made == s.hist.made[i := Some(Raises(e))]
            && i < |s'.pcs| && s'.pcs[i].Resolving?
  {
    GoodAt(w, run, |run|);
    run' := Then(w, run, RunFactory(i, Raises(e)));
  }

  lemma LeaderLeaves(w: World, run: seq<Label>, i: nat, k: Key) returns (run': seq<Label>)
    requires Valid(Sys(w), run) && i in Front.CallsFor(w, k)
    requires i < |End(w, run).pcs| && End(w, run).pcs[i].Resolving?
    ensures Valid(Sys(w), run') && run <= run'
    ensures var s, s' := End(w, run), End(w, run');
            OnlyMoved(s, s', {i}) && s'.hist.made == s.hist.made && k !in s'.flight.inflight
  {
    GoodAt(w, run, |run|);
    assert MemberOk(End(w, run), i);
    run' := Then(w, run, Resolve(i));
    GoodAt(w, run', |run'|);
    run' := Then(w, run', Pop(i));
  }
}
