/** What calls of the async class cost per key: nobody re-enters. */
module AsyncCost {
  import opened Basics
  import opened AsyncMachine
  import opened AsyncRuns
  import opened Runs
  import opened Sums
  import Front
  import Revalidation

  /** The step is a blocking factory call for `k`. */
  function IsFactoryCall(k: Key): (State, Label) -> bool {
    (s: State, l: Label) => l.RunFactory? && l.i < |s.front.callers| && KeyOf(s, l.i) == k
  }

  /** The step sends a caller of `k` to await the future in flight. */
  function IsAwait(k: Key): (State, Label) -> bool {
    (s: State, l: Label) =>
      l.Join? && l.i < |s.front.callers| && KeyOf(s, l.i) == k && k in s.flight.inflight
  }

  lemma MadeGrows(c: Revalidation.Config, s: State, l: Label)
    requires Inv(c, s) && Enabled(s, l)
    ensures l.RunFactory? ==> l.i < |s.pcs| == |s.hist.made| && s.hist.made[l.i] == None
    ensures Next(c, s, l).hist.made == if l.RunFactory? then s.hist.made[l.i := Some(l.out)] else s.hist.made
  {
    if l.RunFactory? {
      assert MadeOk(s, l.i);
    }
  }

  // Factory calls

  lemma FactoryCallsCounted(w: World, run: seq<Label>, k: Key)
    requires Valid(Sys(w), run)
    ensures Count(Sys(w), run, |run|, IsFactoryCall(k)) ==
            |Present(Front.CallsFor(w, k), At(Sys(w), run, |run|).hist.made)|
  {
    GoodInductive(w);
    var size := (s: State) => |Present(Front.CallsFor(w, k), s.hist.made)|;
    forall s, l | Good(w, s) && Enabled(s, l)
      ensures size(Next(w.config, s, l)) == size(s) + (if IsFactoryCall(k)(s, l) then 1 else 0)
    {
      MadeGrows(w.config, s, l);
      if l.RunFactory? {
        OneMore(Front.CallsFor(w, k), s.hist.made, l.i, l.out);
      }
    }
    assert Present(Front.CallsFor(w, k), Start(w.calls, w.clock).hist.made) == {};
    Counted(Sys(w), IsGood(w), size, run, |run|, IsFactoryCall(k));
  }

  // Awaits

  /** Caller `i` joined a future someone else created. */
  predicate Follows(s: State, i: nat) {
    && i < |s.hist.joined| && s.hist.joined[i].Some?
    && s.hist.joined[i].value < |s.hist.owner| && s.hist.owner[s.hist.joined[i].value] != i
  }

  function Followers(w: World, k: Key, s: State): set<nat> {
    set i | i in Front.CallsFor(w, k) && Follows(s, i)
  }

  lemma FollowsStep(w: World, s: State, l: Label)
    requires Good(w, s) && Enabled(s, l)
    ensures forall i | 0 <= i < |s.pcs| ::
              Follows(Next(w.config, s, l), i) <==>
                Follows(s, i) || (l == Join(i) && KeyOf(s, i) in s.flight.inflight)
    ensures l.Join? && KeyOf(s, l.i) in s.flight.inflight ==> !Follows(s, l.i)
  {
    ShapeStep(w.config, s, l);
    FuturesStep(w.config, s, l);
    JoinedStep(w, s, l);
    if l.Join? {
      assert MemberOk(s, l.i);
      if KeyOf(s, l.i) in s.flight.inflight {
        assert Registered(s, KeyOf(s, l.i));
      }
    }
    assert forall i | 0 <= i < |s.pcs| && s.hist.joined[i].Some? :: MemberOk(s, i);
  }

  lemma JoinedStep(w: World, s: State, l: Label)
    requires Good(w, s) && Enabled(s, l)
    ensures Next(w.config, s, l).hist.joined ==
            if !l.Join? then s.hist.joined
            else if KeyOf(s, l.i) in s.flight.inflight
            then s.hist.joined[l.i := Some(s.flight.inflight[KeyOf(s, l.i)])]
            else s.hist.joined[l.i := Some(|s.flight.futures|)]
    ensures Next(w.config, s, l).hist.owner ==
            if l.Join? && KeyOf(s, l.i) !in s.flight.inflight then s.hist.owner + [l.i] else s.hist.owner
  {
  }

  lemma FollowersStep(w: World, s: State, l: Label, k: Key)
    requires Good(w, s) && Enabled(s, l)
    ensures |Followers(w, k, Next(w.config, s, l))| ==
            |Followers(w, k, s)| + (if IsAwait(k)(s, l) then 1 else 0)
  {
    FollowsStep(w, s, l);
    if IsAwait(k)(s, l) {
      assert Followers(w, k, Next(w.config, s, l)) == Followers(w, k, s) + {l.i};
    } else {
      assert Followers(w, k, Next(w.config, s, l)) == Followers(w, k, s);
    }
  }

  lemma AwaitsCounted(w: World, run: seq<Label>, k: Key)
    requires Valid(Sys(w), run)
    ensures Count(Sys(w), run, |run|, IsAwait(k)) == |Followers(w, k, At(Sys(w), run, |run|))|
  {
    GoodInductive(w);
    var size := (s: State) => |Followers(w, k, s)|;
    forall s, l | Good(w, s) && Enabled(s, l)
      ensures size(Next(w.config, s, l)) == size(s) + (if IsAwait(k)(s, l) then 1 else 0)
    {
      FollowersStep(w, s, l, k);
    }
    assert Followers(w, k, Start(w.calls, w.clock)) == {};
    Counted(Sys(w), IsGood(w), size, run, |run|, IsAwait(k));
  }

  /** Who is followed does not follow, so not all follow. */
  lemma SomeoneLeads(w: World, s: State, k: Key)
    requires Good(w, s)
    ensures Followers(w, k, s) == {} || |Followers(w, k, s)| < |Front.CallsFor(w, k)|
  {
    if i :| i in Followers(w, k, s) {
      assert MemberOk(s, i);
      var fut := s.hist.joined[i].value;
      assert FutureOk(s, fut);
      var o := s.hist.owner[fut];
      assert o in Front.CallsFor(w, k) - Followers(w, k, s);
      SubsetSize(Followers(w, k, s), Front.CallsFor(w, k) - {o});
    }
  }

  /** Of the N callers of a key each runs the blocking factory at most once, and at most N - 1
      await, once each. */
  lemma CostPerKey(w: World, run: seq<Label>, k: Key)
    requires Valid(Sys(w), run)
    ensures Count(Sys(w), run, |run|, IsFactoryCall(k)) <= |Front.CallsFor(w, k)|
    ensures var awaits := Count(Sys(w), run, |run|, IsAwait(k)); awaits == 0 || awaits < |Front.CallsFor(w, k)|
  {
    GoodAt(w, run, |run|);
    FactoryCallsCounted(w, run, k);
    SubsetSize(Present(Front.CallsFor(w, k), At(Sys(w), run, |run|).hist.made), Front.CallsFor(w, k));
    AwaitsCounted(w, run, k);
    SomeoneLeads(w, At(Sys(w), run, |run|), k);
  }
}
