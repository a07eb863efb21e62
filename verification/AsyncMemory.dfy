/** The async machine over a `MemoryCache` behind the async protocol, as in `SyncMemory`. */
module AsyncMemory {
  import opened Backend
  import opened Basics
  import opened Memory
  import opened Retention
  import opened Runs
  import Async = AsyncMachine
  import AsyncRaises
  import AsyncRuns
  import Front
  import JobRuns
  import Memoise
  import Revalidation

  datatype State = State(async_: Async.State, table: Table<Key, Value>)

  /** A step of the machine; `now` is the cache's clock reading, if it is called. */
  datatype Label = Step(l: Async.Label, now: Time)

  predicate IsLookup(l: Async.Label) {
    l.FrontStep? && l.l.LookUp?
  }

  predicate Enabled(s: State, l: Label) {
    && Async.Enabled(s.async_, l.l)
    && (l.l.FrontStep? ==> Answers(s.table, s.async_.front, l.l.l, l.now))
    && (l.l.Write? ==> l.l.stored)
  }

  /** What the step asks of the cache. */
  function AccessOf(s: State, l: Label): Access
    requires Enabled(s, l)
  {
    match l.l
    case FrontStep(fl) => FrontAccess(s.async_.front, fl, l.now)
    case Write(i, _) =>
      Access.Write(Async.KeyOf(s.async_, i), SlotFor(s.async_.front, i, s.async_.pcs[i].value, l.now))
    case _ => Nothing
  }

  function Next(c: Revalidation.Config, maxsize: nat, s: State, l: Label): State
    requires Enabled(s, l)
  {
    State(Async.Next(c, s.async_, l.l), Accessed(s.table, maxsize, AccessOf(s, l), l.now))
  }

  function Sys(w: Front.World, maxsize: nat): Machine<State, Label> {
    Machine(State(Async.Start(w.calls, w.clock), []), Enabled,
            (s: State, l: Label) => if Enabled(s, l) then Next(w.config, maxsize, s, l) else s)
  }

  ghost predicate Inv(w: Front.World, maxsize: nat, s: State) {
    && AsyncRuns.Good(w, s.async_) && CallsKept(w.calls, s.async_.front)
    && TableOk(s.table, maxsize, s.async_.front.written, None)
  }

  ghost function IsGood(w: Front.World, maxsize: nat): State -> bool {
    s => Inv(w, maxsize, s)
  }

  lemma InvStep(w: Front.World, maxsize: nat, s: State, l: Label)
    requires maxsize >= 1 && Inv(w, maxsize, s) && Enabled(s, l)
    ensures Inv(w, maxsize, Next(w.config, maxsize, s, l))
  {
    AsyncRuns.GoodStep(w, s.async_, l.l);
    Async.FrontMoves(w.config, s.async_, l.l);
    KeptMoves(w.config, w.calls, s.async_.front, Async.FrontStepOf(l.l), Async.Next(w.config, s.async_, l.l).front);
    WriteOk(w, maxsize, s, l);
    AccessKeeps(s.table, maxsize, AccessOf(s, l), l.now, s.async_.front.written,
                Async.Next(w.config, s.async_, l.l).front.written, None);
  }

  lemma WriteOk(w: Front.World, maxsize: nat, s: State, l: Label)
    requires Inv(w, maxsize, s) && Enabled(s, l)
    ensures AccessOf(s, l).Write? ==>
              SlotOk(Async.Next(w.config, s.async_, l.l).front.written, None, AccessOf(s, l).key, AccessOf(s, l).slot)
  {
    if l.l.FrontStep? && AccessOf(s, l).Write? {
      FrontWriteOk(w.config, w.calls, None, s.async_.front, l.l.l, l.now);
    }
  }

  lemma InvInductive(w: Front.World, maxsize: nat)
    requires maxsize >= 1
    ensures Inductive(Sys(w, maxsize), IsGood(w, maxsize))
  {
    AsyncRuns.GoodInductive(w);
    forall s, l | Inv(w, maxsize, s) && Enabled(s, l) ensures Inv(w, maxsize, Next(w.config, maxsize, s, l)) {
      InvStep(w, maxsize, s, l);
    }
  }

  lemma InvAt(w: Front.World, maxsize: nat, run: seq<Label>, n: nat)
    requires maxsize >= 1 && Valid(Sys(w, maxsize), run) && n <= |run|
    ensures Inv(w, maxsize, At(Sys(w, maxsize), run, n))
    ensures n < |run| ==> Enabled(At(Sys(w, maxsize), run, n), run[n])
  {
    InvInductive(w, maxsize);
    Invariant(Sys(w, maxsize), IsGood(w, maxsize), run, n);
    if n < |run| {
      assert Sys(w, maxsize).enabled(At(Sys(w, maxsize), run, n), run[n]);
    }
  }

  // The run of the async machine inside a run of this one

  function AsyncRun(run: seq<Label>): (r: seq<Async.Label>)
    ensures |r| == |run|
  {
    Image((l: Label) => l.l, run)
  }

  lemma IsAsyncRun(w: Front.World, maxsize: nat, run: seq<Label>, n: nat)
    requires Valid(Sys(w, maxsize), run) && n <= |run|
    ensures Valid(AsyncRuns.Sys(w), AsyncRun(run))
    ensures At(AsyncRuns.Sys(w), AsyncRun(run), n) == At(Sys(w, maxsize), run, n).async_
  {
    var f, g := (s: State) => s.async_, (l: Label) => l.l;
    ImageValid(Sys(w, maxsize), AsyncRuns.Sys(w), f, g, run);
    Projected(Sys(w, maxsize), AsyncRuns.Sys(w), f, g, run, n);
  }

  /** Looked up are the keys of lookups; written are the keys of leaders and jobs at their writes. */
  function Cache(): Watch<State, Label, Key, Value> {
    Watch((s: State) => s.table,
          (s: State, l: Label) => KeyLooked(s.async_.front, Async.FrontStepOf(l.l)),
          (s: State, l: Label) =>
            if l.l.Write? && l.l.i < |s.async_.front.callers| then Some(Async.KeyOf(s.async_, l.l.i))
            else KeyWritten(s.async_.front, Async.FrontStepOf(l.l)),
          (l: Label) => l.now)
  }

  lemma CacheWatched(w: Front.World, maxsize: nat)
    requires maxsize >= 1
    ensures Watches(Sys(w, maxsize), IsGood(w, maxsize), Cache(), maxsize)
  {
    InvInductive(w, maxsize);
    forall s, l | Enabled(s, l)
      ensures Asked(s.table, maxsize, Cache().looks(s, l), Cache().writes(s, l), l.now,
                    Next(w.config, maxsize, s, l).table)
    {
    }
  }

  /** Step `n` looks up `k`. */
  predicate LooksUp(w: Front.World, run: seq<Label>, n: nat, k: Key) {
    n < |run| && IsLookup(run[n].l) && run[n].l.l.i < |w.calls| && w.calls[run[n].l.l.i].key == k
  }

  /** The cache answers a lookup from its table. */
  lemma Answered(w: Front.World, maxsize: nat, run: seq<Label>, n: nat, k: Key)
    requires maxsize >= 1 && Valid(Sys(w, maxsize), run) && LooksUp(w, run, n, k)
    ensures run[n].l.l.out == LookupIn(At(Sys(w, maxsize), run, n).table, k, run[n].now)
  {
    InvAt(w, maxsize, run, n);
  }

  lemma IsLooked(w: Front.World, maxsize: nat, run: seq<Label>, n: nat, k: Key)
    requires maxsize >= 1 && Valid(Sys(w, maxsize), run) && LooksUp(w, run, n, k)
    ensures Cache().looks(At(Sys(w, maxsize), run, n), run[n]) == Some(k)
  {
    InvAt(w, maxsize, run, n);
  }

  // What is written is found

  /** After step `p` the key was last used in step `r`, by that write or by a lookup that found it,
      and from there to `n` it was spared. */
  ghost predicate Kept(w: Front.World, maxsize: nat, run: seq<Label>, p: nat, r: nat, n: nat, k: Key,
                       until: Option<Time>) {
    && p <= r < n < |run| && (r > p ==> LooksUp(w, run, r, k) && run[r].l.l.out.Found?)
    && Spared(Sys(w, maxsize), Cache(), maxsize, run, r + 1, n, k, until)
  }

  /** What was stored in step `p` is what a later lookup finds. */
  lemma FoundLater(w: Front.World, maxsize: nat, run: seq<Label>, p: nat, r: nat, n: nat, call: Front.Call, v: Value)
    requires maxsize >= 1 && Valid(Sys(w, maxsize), run) && p < n && LooksUp(w, run, n, call.key)
    requires JustStored(At(Sys(w, maxsize), run, p + 1).table, call.key, call, v, run[p].now)
    requires Unwritten(Sys(w, maxsize), Cache(), run, p + 1, n, call.key)
    ensures run[n].l.l.out in {FoundAfter(call, v, run[p].now, run[n].now), Front.Miss}
    ensures Kept(w, maxsize, run, p, r, n, call.key, Expiry(call, run[p].now)) ==>
              run[n].l.l.out == FoundAfter(call, v, run[p].now, run[n].now)
  {
    var m, inv := Sys(w, maxsize), IsGood(w, maxsize);
    CacheWatched(w, maxsize);
    Answered(w, maxsize, run, n, call.key);
    FoundOrMissed(m, inv, Cache(), maxsize, run, p, n, call.key, call, v);
    if Kept(w, maxsize, run, p, r, n, call.key, Expiry(call, run[p].now)) {
      if r > p {
        Answered(w, maxsize, run, r, call.key);
        IsLooked(w, maxsize, run, r, call.key);
      }
      FoundWhenKept(m, inv, Cache(), maxsize, run, p, r, n, call.key, call, v);
    }
  }

  /** A leader writes what its factory returned. */
  lemma LeaderMade(w: Front.World, maxsize: nat, run: seq<Label>, q: nat, p: nat, i: nat, v: Value, stored: bool)
    requires maxsize >= 1 && Valid(Sys(w, maxsize), run) && q < p < |run|
    requires run[q].l == Async.RunFactory(i, Returns(v)) && run[p].l == Async.Write(i, stored)
    ensures var s := At(Sys(w, maxsize), run, p).async_; i < |s.pcs| && s.pcs[i].Writing? && s.pcs[i].value == v
  {
    IsAsyncRun(w, maxsize, run, p);
    AsyncRaises.MadeAfter(w, AsyncRun(run), q, p, i, Returns(v));
    InvAt(w, maxsize, run, p);
    assert Async.MadeOk(At(Sys(w, maxsize), run, p).async_, i);
  }

  lemma LeaderWrote(w: Front.World, maxsize: nat, run: seq<Label>, q: nat, p: nat, i: nat, v: Value, stored: bool)
    requires maxsize >= 1 && Valid(Sys(w, maxsize), run) && q < p < |run|
    requires run[q].l == Async.RunFactory(i, Returns(v)) && run[p].l == Async.Write(i, stored)
    ensures i < |w.calls|
    ensures JustStored(At(Sys(w, maxsize), run, p + 1).table, w.calls[i].key, w.calls[i], v, run[p].now)
  {
    LeaderMade(w, maxsize, run, q, p, i, v, stored);
    InvAt(w, maxsize, run, p);
    StoredByPut(At(Sys(w, maxsize), run, p).table, maxsize, w.calls[i], v, run[p].now);
  }

  /** What a leader's factory returned is found: when call `i` writes it in step `p` and no later
      step up to `n` writes the key, a lookup at `n` misses or finds exactly that value, created at
      the write, with the call's own soft TTL; past the call's hard TTL, or without a soft one, it
      misses; and short of that it finds it, if since the write (or a lookup that found it) fewer
      than `maxsize` other keys were used. */
  lemma LeaderStores(w: Front.World, maxsize: nat, run: seq<Label>, q: nat, p: nat, r: nat, n: nat,
                     i: nat, v: Value, stored: bool)
    requires maxsize >= 1 && Valid(Sys(w, maxsize), run) && q < p < n < |run| && i < |w.calls|
    requires run[q].l == Async.RunFactory(i, Returns(v)) && run[p].l == Async.Write(i, stored)
    requires LooksUp(w, run, n, w.calls[i].key)
    requires Unwritten(Sys(w, maxsize), Cache(), run, p + 1, n, w.calls[i].key)
    ensures run[n].l.l.out in {FoundAfter(w.calls[i], v, run[p].now, run[n].now), Front.Miss}
    ensures Kept(w, maxsize, run, p, r, n, w.calls[i].key, Expiry(w.calls[i], run[p].now)) ==>
              run[n].l.l.out == FoundAfter(w.calls[i], v, run[p].now, run[n].now)
  {
    LeaderWrote(w, maxsize, run, q, p, i, v, stored);
    FoundLater(w, maxsize, run, p, r, n, w.calls[i], v);
  }

  /** A background job writes what its factory returned, as its scheduler asked. */
  lemma JobWrote(w: Front.World, maxsize: nat, run: seq<Label>, q: nat, p: nat, j: nat, v: Value, failure: Option<Exc>)
    returns (i: nat)
    requires maxsize >= 1 && Valid(Sys(w, maxsize), run) && q < p < |run|
    requires run[q].l == Async.FrontStep(Front.JobStep(Revalidation.RunFactory(j, Returns(v))))
    requires run[p].l == Async.FrontStep(Front.JobStep(Revalidation.Write(j, failure)))
    ensures var f := At(Sys(w, maxsize), run, p).async_.front; j < |f.scheduler| && f.scheduler[j] == i
    ensures i < |w.calls|
    ensures JustStored(At(Sys(w, maxsize), run, p + 1).table, w.calls[i].key, w.calls[i], v, run[p].now)
  {
    IsAsyncRun(w, maxsize, run, p);
    AsyncRuns.SysEmbeds(w);
    JobRuns.MadeSince(AsyncRuns.Sys(w), AsyncRuns.IsGood(w), AsyncRuns.FrontLens(), w, AsyncRun(run), q, p, j, v);
    InvAt(w, maxsize, run, p);
    var s := At(Sys(w, maxsize), run, p);
    JobAccess(w.config, s.async_.front, j, failure, run[p].now);
    i := s.async_.front.scheduler[j];
    StoredByPut(s.table, maxsize, w.calls[i], v, run[p].now);
  }

  /** The same of what a background job's factory returned, with the TTLs of the call that
      scheduled it. */
  lemma JobStores(w: Front.World, maxsize: nat, run: seq<Label>, q: nat, p: nat, r: nat, n: nat,
                  j: nat, i: nat, v: Value, failure: Option<Exc>)
    requires maxsize >= 1 && Valid(Sys(w, maxsize), run) && q < p < n < |run|
    requires run[q].l == Async.FrontStep(Front.JobStep(Revalidation.RunFactory(j, Returns(v))))
    requires run[p].l == Async.FrontStep(Front.JobStep(Revalidation.Write(j, failure)))
    requires var f := At(Sys(w, maxsize), run, p).async_.front; j < |f.scheduler| && f.scheduler[j] == i
    requires i < |w.calls| && LooksUp(w, run, n, w.calls[i].key)
    requires Unwritten(Sys(w, maxsize), Cache(), run, p + 1, n, w.calls[i].key)
    ensures run[n].l.l.out in {FoundAfter(w.calls[i], v, run[p].now, run[n].now), Front.Miss}
    ensures Kept(w, maxsize, run, p, r, n, w.calls[i].key, Expiry(w.calls[i], run[p].now)) ==>
              run[n].l.l.out == FoundAfter(w.calls[i], v, run[p].now, run[n].now)
  {
    var _ := JobWrote(w, maxsize, run, q, p, j, v, failure);
    FoundLater(w, maxsize, run, p, r, n, w.calls[i], v);
  }

  // Transparency without assuming anything of the backend

  /** The factory a step runs, if it runs one, is the function on its own call's arguments. */
  ghost predicate PureCall<A>(m: Memoise.Wrapped<A, Value>, s: State, l: Label) {
    IsLookup(l.l) || Memoise.PureAsync(m, s.async_, l.l)
  }

  ghost function PureSys<A>(w: Front.World, maxsize: nat, m: Memoise.Wrapped<A, Value>): Machine<State, Label> {
    Sys(w, maxsize).(enabled := (s, l) => Enabled(s, l) && PureCall(m, s, l))
  }

  /** Lookups find what was written under the key. */
  lemma LookupIsHonest<A>(w: Front.World, maxsize: nat, m: Memoise.Wrapped<A, Value>, s: State, l: Label)
    requires Memoise.Direct(w, m) && Inv(w, maxsize, s) && Enabled(s, l) && PureCall(m, s, l)
    ensures Memoise.PureAsync(m, s.async_, l.l)
  {
    if IsLookup(l.l) && l.l.l.out.Found? {
      var k, env := Async.KeyOf(s.async_, l.l.l.i), l.l.l.out.env;
      FoundWasWritten(s.table, maxsize, s.async_.front.written, None, k, l.now, env);
      assert (k, env.value) in s.async_.front.written && env.value == m.loads(m.dumps(env.value));
    }
  }

  lemma NeverWrong<A>(w: Front.World, maxsize: nat, m: Memoise.Wrapped<A, Value>, run: seq<Label>, n: nat)
    requires maxsize >= 1 && Memoise.Direct(w, m) && Valid(PureSys(w, maxsize, m), run) && n <= |run|
    ensures Memoise.NeverWrong(m, At(PureSys(w, maxsize, m), run, n).async_.front)
  {
    var inv := (s: State) => Inv(w, maxsize, s) && Memoise.AsyncRight(m, s.async_);
    AsyncRuns.GoodInductive(w);
    forall s, l | inv(s) && Enabled(s, l) && PureCall(m, s, l) ensures inv(Next(w.config, maxsize, s, l)) {
      InvStep(w, maxsize, s, l);
      LookupIsHonest(w, maxsize, m, s, l);
      Memoise.AsyncRightStep(w.config, m, s.async_, l.l);
    }
    Invariant(PureSys(w, maxsize, m), inv, run, n);
    Memoise.RightIsNeverWrong(m, At(PureSys(w, maxsize, m), run, n).async_.front);
  }

  /** A run of pure calls is a run. */
  lemma IsRun<A>(w: Front.World, maxsize: nat, m: Memoise.Wrapped<A, Value>, run: seq<Label>, n: nat)
    requires Valid(PureSys(w, maxsize, m), run) && n <= |run|
    ensures Valid(Sys(w, maxsize), run) && At(Sys(w, maxsize), run, n) == At(PureSys(w, maxsize, m), run, n)
  {
    Restricted(Sys(w, maxsize), PureSys(w, maxsize, m), run, n);
  }

  /** No lookup breaks and no factory raises. */
  lemma NothingRaises<A>(w: Front.World, maxsize: nat, m: Memoise.Wrapped<A, Value>, run: seq<Label>, n: nat)
    requires Valid(PureSys(w, maxsize, m), run) && n <= |run|
    ensures forall i: nat, e ::
              !AsyncRaises.Broke(AsyncRun(run), n, i, e) && !AsyncRaises.Raised(AsyncRun(run), n, i, e)
  {
    forall x | 0 <= x < n
      ensures !(IsLookup(run[x].l) && run[x].l.l.out.Broken?) && !(run[x].l.RunFactory? && run[x].l.out.Raises?)
    {
      assert PureSys(w, maxsize, m).enabled(At(PureSys(w, maxsize, m), run, x), run[x]);
    }
  }

  /** Every call that has ended returned `func(args)`. */
  lemma CachedOverMemory<A>(w: Front.World, maxsize: nat, m: Memoise.Wrapped<A, Value>, run: seq<Label>, n: nat, i: nat)
    requires maxsize >= 1 && Memoise.Direct(w, m) && Valid(PureSys(w, maxsize, m), run) && n <= |run| && i < |m.args|
    requires i < |At(PureSys(w, maxsize, m), run, n).async_.front.callers|
    requires At(PureSys(w, maxsize, m), run, n).async_.front.callers[i].pc.Done?
    ensures var fin := At(PureSys(w, maxsize, m), run, n).async_.front.callers[i].pc.fin;
            fin.Gave? && fin.result.value == m.func(m.args[i])
  {
    NeverWrong(w, maxsize, m, run, n);
    var fin := At(PureSys(w, maxsize, m), run, n).async_.front.callers[i].pc.fin;
    if fin.Threw? {
      IsRun(w, maxsize, m, run, n);
      IsAsyncRun(w, maxsize, run, n);
      AsyncRaises.RaisesExactly(w, AsyncRun(run), n, i, fin.error);
      NothingRaises(w, maxsize, m, run, n);
      assert false;
    }
  }
}
