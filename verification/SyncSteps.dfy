/** Building particular runs of the sync machine, a few steps at a time. */
module SyncSteps {
  import opened Basics
  import opened SyncMachine
  import opened SyncRuns
  import opened SyncCost
  import opened Runs
  import Front

  /** The state a run has led to. */
  function End(w: World, run: seq<Label>): State {
    At(Sys(w), run, |run|)
  }

  lemma Then(w: World, run: seq<Label>, l: Label) returns (run': seq<Label>)
    requires Valid(Sys(w), run) && Enabled(End(w, run), l)
    ensures run' == run + [l] && Valid(Sys(w), run') && End(w, run') == Next(w.config, End(w, run), l)
  {
    run' := run + [l];
    Extended(Sys(w), run, l);
  }

  /** Only callers in `who` moved. */
  ghost predicate OnlyMoved(s: State, s': State, who: set<nat>) {
    && |s'.pcs| == |s.pcs| && |s'.front.callers| == |s.front.callers|
    && (forall j | 0 <= j < |s.pcs| && j !in who :: s'.pcs[j] == s.pcs[j])
    && (forall j | 0 <= j < |s.front.callers| && j !in who :: s'.front.callers[j] == s.front.callers[j])
  }

  /** Nothing was published, collected, made or recorded. */
  ghost predicate Quiet(s: State, s': State) {
    && s'.flight.results == s.flight.results && s'.flight.errors == s.flight.errors
    && s'.hist.made == s.hist.made && s'.hist.from == s.hist.from && s'.front.reval == s.front.reval
  }

  ghost predicate IsLooking(s: State, i: nat) {
    i < |s.front.callers| && s.front.callers[i].pc.Looking?
  }

  /** Where a looking caller is after a miss. */
  function BlockedBy(pc: Front.Pc): Front.Pc
    requires pc.Looking?
  {
    Front.Blocked(pc.outer.Some? && pc.outer.value)
  }

  /** A call misses and joins: it leads if the key is not in flight, else it waits. */
  lemma Arrive(w: World, run: seq<Label>, i: nat) returns (run': seq<Label>)
    requires Valid(Sys(w), run) && i < |w.calls| && IsLooking(End(w, run), i)
    ensures Valid(Sys(w), run') && run <= run'
    ensures var s, s', k := End(w, run), End(w, run'), w.calls[i].key;
            && OnlyMoved(s, s', {i}) && Quiet(s, s') && i < |s'.pcs|
            && s'.front.callers[i].pc == BlockedBy(s.front.callers[i].pc)
            && (k in s.flight.inflight ==>
                  s'.flight == s.flight && s'.pcs[i] == Waiting(s.flight.inflight[k]))
            && (k !in s.flight.inflight ==>
                  && s'.flight.inflight == s.flight.inflight[k := |s.flight.isSet|]
                  && s'.flight.isSet == s.flight.isSet + [false]
                  && s'.pcs[i] == Running(|s.flight.isSet|))
            && |WaitedFor(w, k, s')| == |WaitedFor(w, k, s)| + (if k in s.flight.inflight then 1 else 0)
  {
    run' := Misses(w, run, i);
    GoodAt(w, run', |run'|);
    WaitedForStep(w, End(w, run'), Join(i), w.calls[i].key);
    run' := Then(w, run', Join(i));
  }

  lemma Misses(w: World, run: seq<Label>, i: nat) returns (run': seq<Label>)
    requires Valid(Sys(w), run) && i < |w.calls| && IsLooking(End(w, run), i)
    ensures Valid(Sys(w), run') && run <= run'
    ensures var s, s' := End(w, run), End(w, run');
            && OnlyMoved(s, s', {i}) && s'.flight == s.flight && s'.hist == s.hist
            && s'.front.reval == s.front.reval && i < |s'.pcs| && s'.pcs[i] == Joining
            && s'.front.callers[i].pc == BlockedBy(s.front.callers[i].pc)
  {
    GoodAt(w, run, |run|);
    run' := Then(w, run, FrontStep(Front.LookUp(i, Front.Miss)));
  }

  /** Call `i` leads, raises `e` and ends; its exception stays stored, and no backoff is. */
  lemma Fails(w: World, run: seq<Label>, i: nat, k: Key, e: Exc) returns (run': seq<Label>)
    requires Valid(Sys(w), run) && i in Front.CallsFor(w, k) && IsLooking(End(w, run), i)
    requires k !in End(w, run).flight.inflight
    ensures Valid(Sys(w), run') && run <= run'
    ensures var s, s' := End(w, run), End(w, run');
            && OnlyMoved(s, s', {i}) && s'.front.reval == s.front.reval && i < |s.hist.made|
            && s'.hist.made == s.hist.made[i := Some(Raises(e))]
            && s'.flight.errors == s.flight.errors[k := e] && s'.flight.results == s.flight.results
            && k !in s'.flight.inflight
            && i < |s'.front.callers| && s'.front.callers[i].pc == Front.Done(Front.Threw(e))
  {
    run' := Arrive(w, run, i);
    run' := LeaderFails(w, run', i, k, e);
  }

  /** The leader `i` raises `e`, publishes it and ends. */
  lemma LeaderFails(w: World, run: seq<Label>, i: nat, k: Key, e: Exc) returns (run': seq<Label>)
    requires Valid(Sys(w), run) && i in Front.CallsFor(w, k)
    requires i < |End(w, run).pcs| && End(w, run).pcs[i].Running?
    ensures Valid(Sys(w), run') && run <= run'
    ensures var s, s' := End(w, run), End(w, run');
            && OnlyMoved(s, s', {i}) && s'.front.reval == s.front.reval && i < |s.hist.made|
            && s'.hist.made == s.hist.made[i := Some(Raises(e))]
            && s'.flight.errors == s.flight.errors[k := e] && s'.flight.results == s.flight.results
            && k !in s'.flight.inflight && IsSet(s', s.pcs[i].ev)
            && s'.hist.waited == s.hist.waited && s'.hist.from == s.hist.from[(k, true) := i]
            && i < |s'.front.callers| && s'.front.callers[i].pc == Front.Done(Front.Threw(e))
  {
    run' := LeaderRaises(w, run, i, e);
    GoodAt(w, run', |run'|);
    run' := Then(w, run', Publish(i));
  }

  lemma LeaderRaises(w: World, run: seq<Label>, i: nat, e: Exc) returns (run': seq<Label>)
    requires Valid(Sys(w), run) && i < |w.calls|
    requires i < |End(w, run).pcs| && End(w, run).pcs[i].Running?
    ensures Valid(Sys(w), run') && run <= run'
    ensures var s, s' := End(w, run), End(w, run');
            && OnlyMoved(s, s', {i}) && s'.front == s.front && s'.flight == s.flight
            && i < |s.hist.made| && s'.hist.made == s.hist.made[i := Some(Raises(e))]
            && s'.hist.waited == s.hist.waited && s'.hist.from == s.hist.from
            && i < |s'.pcs| && s'.pcs[i] == Publishing(s.pcs[i].ev, Raises(e))
  {
    GoodAt(w, run, |run|);
    run' := Then(w, run, RunFactory(i, Raises(e)));
  }
}
