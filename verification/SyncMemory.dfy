/** The sync machine over a `MemoryCache`: lookups are its `get_envelope`, writes its `set`,
    each with the wall-clock reading it takes. Evictions happen; other users do not. */
module SyncMemory {
  import opened Backend
  import opened Basics
  import opened Memory
  import opened Retention
  import opened Runs
  import Front
  import JobRuns
  import Memoise
  import Revalidation
  import Sync = SyncMachine
  import SyncHandOff
  import SyncRaises
  import SyncRuns

  datatype State = State(sync: Sync.State, table: Table<Key, Value>)

  /** A step of the machine; `now` is the cache's clock reading, if it is called. */
  datatype Label = Step(l: Sync.Label, now: Time)

  predicate IsLookup(l: Sync.Label) {
    l.FrontStep? && l.l.LookUp?
  }

  predicate Enabled(s: State, l: Label) {
    && Sync.Enabled(s.sync, l.l)
    && (l.l.FrontStep? ==> Answers(s.table, s.sync.front, l.l.l, l.now))
    && (l.l.Write? ==> l.l.stored)
  }

  /** What the step asks of the cache. */
  function AccessOf(s: State, l: Label): Access
    requires Enabled(s, l)
  {
    match l.l
    case FrontStep(fl) => FrontAccess(s.sync.front, fl, l.now)
    case Write(i, _) =>
      Access.Write(Sync.KeyOf(s.sync, i), SlotFor(s.sync.front, i, s.sync.pcs[i].value, l.now))
    case _ => Nothing
  }

  function Next(c: Revalidation.Config, maxsize: nat, s: State, l: Label): State
    requires Enabled(s, l)
  {
    State(Sync.Next(c, s.sync, l.l), Accessed(s.table, maxsize, AccessOf(s, l), l.now))
  }

  function Sys(w: Front.World, maxsize: nat): Machine<State, Label> {
    Machine(State(Sync.Start(w.calls, w.clock), []), Enabled,
            (s: State, l: Label) => if Enabled(s, l) then Next(w.config, maxsize, s, l) else s)
  }

  ghost predicate Inv(w: Front.World, maxsize: nat, ttl: Option<Time>, s: State) {
    && SyncRuns.Good(w, s.sync) && CallsKept(w.calls, s.sync.front)
    && TableOk(s.table, maxsize, s.sync.front.written, ttl)
  }

  ghost function IsGood(w: Front.World, maxsize: nat, ttl: Option<Time>): State -> bool {
    s => Inv(w, maxsize, ttl, s)
  }

  lemma InvStep(w: Front.World, maxsize: nat, ttl: Option<Time>, s: State, l: Label)
    requires maxsize >= 1 && SameTtl(w.calls, ttl) && Inv(w, maxsize, ttl, s) && Enabled(s, l)
    ensures Inv(w, maxsize, ttl, Next(w.config, maxsize, s, l))
  {
    SyncRuns.GoodStep(w, s.sync, l.l);
    Sync.FrontMoves(w.config, s.sync, l.l);
    KeptMoves(w.config, w.calls, s.sync.front, Sync.FrontStepOf(l.l), Sync.Next(w.config, s.sync, l.l).front);
    WriteOk(w, maxsize, ttl, s, l);
    AccessKeeps(s.table, maxsize, AccessOf(s, l), l.now, s.sync.front.written,
                Sync.Next(w.config, s.sync, l.l).front.written, ttl);
  }

  /** What a step writes is remembered, and expires as its caller asked. */
  lemma WriteOk(w: Front.World, maxsize: nat, ttl: Option<Time>, s: State, l: Label)
    requires SameTtl(w.calls, ttl) && Inv(w, maxsize, ttl, s) && Enabled(s, l)
    ensures AccessOf(s, l).Write? ==>
              SlotOk(Sync.Next(w.config, s.sync, l.l).front.written, ttl, AccessOf(s, l).key, AccessOf(s, l).slot)
  {
    if l.l.FrontStep? && AccessOf(s, l).Write? {
      FrontWriteOk(w.config, w.calls, ttl, s.sync.front, l.l.l, l.now);
    }
  }

  lemma InvInductive(w: Front.World, maxsize: nat, ttl: Option<Time>)
    requires maxsize >= 1 && SameTtl(w.calls, ttl)
    ensures Inductive(Sys(w, maxsize), IsGood(w, maxsize, ttl))
  {
    SyncRuns.InvStart(w);
    forall s, l | Inv(w, maxsize, ttl, s) && Enabled(s, l)
      ensures Inv(w, maxsize, ttl, Next(w.config, maxsize, s, l))
    {
      InvStep(w, maxsize, ttl, s, l);
    }
  }

  lemma InvAt(w: Front.World, maxsize: nat, ttl: Option<Time>, run: seq<Label>, n: nat)
    requires maxsize >= 1 && SameTtl(w.calls, ttl) && Valid(Sys(w, maxsize), run) && n <= |run|
    ensures Inv(w, maxsize, ttl, At(Sys(w, maxsize), run, n))
    ensures n < |run| ==> Enabled(At(Sys(w, maxsize), run, n), run[n])
  {
    InvInductive(w, maxsize, ttl);
    Invariant(Sys(w, maxsize), IsGood(w, maxsize, ttl), run, n);
    if n < |run| {
      assert Sys(w, maxsize).enabled(At(Sys(w, maxsize), run, n), run[n]);
    }
  }

  // Bounded staleness

  /** The step looks up `k` at clock reading `now` and finds `env`. */
  predicate Finds(s: State, l: Label, k: Key, env: Envelope<Value>) {
    && Enabled(s, l) && IsLookup(l.l) && Sync.KeyOf(s.sync, l.l.l.i) == k
    && l.l.l.out == Front.Found(env)
  }

  /** If every call uses hard TTL `ttl`, whatever a lookup finds, and so whatever is served
      fresh or stale from it, was created less than `ttl` before the lookup. */
  lemma ServedWithinTtl(w: Front.World, maxsize: nat, ttl: Time, run: seq<Label>, n: nat,
                        k: Key, env: Envelope<Value>)
    requires maxsize >= 1 && SameTtl(w.calls, Some(ttl)) && Valid(Sys(w, maxsize), run) && n < |run|
    requires Finds(At(Sys(w, maxsize), run, n), run[n], k, env)
    ensures run[n].now - env.createdAt < ttl
  {
    InvAt(w, maxsize, Some(ttl), run, n);
    FoundInTtl(w, maxsize, ttl, At(Sys(w, maxsize), run, n), run[n], k, env);
  }

  lemma FoundInTtl(w: Front.World, maxsize: nat, ttl: Time, s: State, l: Label, k: Key, env: Envelope<Value>)
    requires Inv(w, maxsize, Some(ttl), s) && Finds(s, l, k, env)
    ensures l.now - env.createdAt < ttl
  {
    FoundWasWritten(s.table, maxsize, s.sync.front.written, Some(ttl), k, l.now, env);
  }

  /** Looked up are the keys of lookups; written are the keys of leaders and jobs at their writes. */
  function Cache(): Watch<State, Label, Key, Value> {
    Watch((s: State) => s.table,
          (s: State, l: Label) => KeyLooked(s.sync.front, Sync.FrontStepOf(l.l)),
          (s: State, l: Label) =>
            if l.l.Write? && l.l.i < |s.sync.front.callers| then Some(Sync.KeyOf(s.sync, l.l.i))
            else KeyWritten(s.sync.front, Sync.FrontStepOf(l.l)),
          (l: Label) => l.now)
  }

  lemma CacheWatched(w: Front.World, maxsize: nat)
    requires maxsize >= 1
    ensures Watches(Sys(w, maxsize), IsGood(w, maxsize, None), Cache(), maxsize)
  {
    InvInductive(w, maxsize, None);
    forall s, l | Enabled(s, l)
      ensures Asked(s.table, maxsize, Cache().looks(s, l), Cache().writes(s, l), l.now,
                    Next(w.config, maxsize, s, l).table)
    {
    }
  }

  /** Step `n` looks up `k`. */
  predicate LooksUp(w: Front.World, run: seq<Label>, n: nat, k: Key) {
    n < |run| && IsLookup(run[n].l) && run[n].l.l.i < |w.calls| && w.calls[run[n].l.l.i].key == k
  }

  /** Whatever revalidations fail in between: if no step from `p` to `n` writes `k`, what a
      lookup of `k` finds at `n` is what one at `p`, at no later a clock reading, found; and
      if it was stale then, it is stale now. */
  lemma ServedUntilRewritten(w: Front.World, maxsize: nat, run: seq<Label>, p: nat, n: nat,
                             k: Key, env: Envelope<Value>)
    requires maxsize >= 1 && Valid(Sys(w, maxsize), run) && p < n < |run|
    requires Unwritten(Sys(w, maxsize), Cache(), run, p, n, k)
    requires LooksUp(w, run, p, k) && run[p].now <= run[n].now
    requires LooksUp(w, run, n, k) && run[n].l.l.out == Front.Found(env)
    ensures run[p].l.l.out == Front.Found(env)
    ensures run[p].now - env.createdAt >= env.softTtl ==> run[n].now - env.createdAt >= env.softTtl
  {
    CacheWatched(w, maxsize);
    HeldBefore(Sys(w, maxsize), IsGood(w, maxsize, None), Cache(), maxsize, run, p, n, k);
    Answered(w, maxsize, run, p, k);
    Answered(w, maxsize, run, n, k);
  }

  /** The cache answers a lookup from its table. */
  lemma Answered(w: Front.World, maxsize: nat, run: seq<Label>, n: nat, k: Key)
    requires maxsize >= 1 && Valid(Sys(w, maxsize), run) && LooksUp(w, run, n, k)
    ensures run[n].l.l.out == LookupIn(At(Sys(w, maxsize), run, n).table, k, run[n].now)
  {
    InvAt(w, maxsize, None, run, n);
  }

  lemma IsLooked(w: Front.World, maxsize: nat, run: seq<Label>, n: nat, k: Key)
    requires maxsize >= 1 && Valid(Sys(w, maxsize), run) && LooksUp(w, run, n, k)
    ensures Cache().looks(At(Sys(w, maxsize), run, n), run[n]) == Some(k)
  {
    InvAt(w, maxsize, None, run, n);
  }

  // The run of the sync machine inside a run of this one

  function SyncRun(run: seq<Label>): (r: seq<Sync.Label>)
    ensures |r| == |run|
  {
    Image((l: Label) => l.l, run)
  }

  lemma IsSyncRun(w: Front.World, maxsize: nat, run: seq<Label>, n: nat)
    requires Valid(Sys(w, maxsize), run) && n <= |run|
    ensures Valid(SyncRuns.Sys(w), SyncRun(run))
    ensures At(SyncRuns.Sys(w), SyncRun(run), n) == At(Sys(w, maxsize), run, n).sync
  {
    var f, g := (s: State) => s.sync, (l: Label) => l.l;
    ImageValid(Sys(w, maxsize), SyncRuns.Sys(w), f, g, run);
    Projected(Sys(w, maxsize), SyncRuns.Sys(w), f, g, run, n);
  }

  // What is written is found

  /** After step `p` the key was last used in step `r`, by that write or by a lookup that found it,
      and from there to `n` it was spared. */
  ghost predicate Kept(w: Front.World, maxsize: nat, run: seq<Label>, p: nat, r: nat, n: nat, k: Key,
                       until: Option<Time>) {
    && p <= r < n < |run| && (r > p ==> LooksUp(w, run, r, k) && run[r].l.l.out.Found?)
    && Spared(Sys(w, maxsize), Cache(), maxsize, run, r + 1, n, k, until)
  }

  /** What was stored in step `p` is what a later lookup finds. */
  lemma FoundLater(w: Front.World, maxsize: nat, run: seq<Label>, p: nat, r: nat, n: nat, call: Front.Call, v: Value)
    requires maxsize >= 1 && Valid(Sys(w, maxsize), run) && p < n && LooksUp(w, run, n, call.key)
    requires JustStored(At(Sys(w, maxsize), run, p + 1).table, call.key, call, v, run[p].now)
    requires Unwritten(Sys(w, maxsize), Cache(), run, p + 1, n, call.key)
    ensures run[n].l.l.out in {FoundAfter(call, v, run[p].now, run[n].now), Front.Miss}
    ensures Kept(w, maxsize, run, p, r, n, call.key, Expiry(call, run[p].now)) ==>
              run[n].l.l.out == FoundAfter(call, v, run[p].now, run[n].now)
  {
    var m, inv := Sys(w, maxsize), IsGood(w, maxsize, None);
    CacheWatched(w, maxsize);
    Answered(w, maxsize, run, n, call.key);
    FoundOrMissed(m, inv, Cache(), maxsize, run, p, n, call.key, call, v);
    if Kept(w, maxsize, run, p, r, n, call.key, Expiry(call, run[p].now)) {
      if r > p {
        Answered(w, maxsize, run, r, call.key);
        IsLooked(w, maxsize, run, r, call.key);
      }
      FoundWhenKept(m, inv, Cache(), maxsize, run, p, r, n, call.key, call, v);
    }
  }

  /** A leader writes what its factory returned. */
  lemma LeaderMade(w: Front.World, maxsize: nat, run: seq<Label>, q: nat, p: nat, i: nat, v: Value, stored: bool)
    requires maxsize >= 1 && Valid(Sys(w, maxsize), run) && q < p < |run|
    requires run[q].l == Sync.RunFactory(i, Returns(v)) && run[p].l == Sync.Write(i, stored)
    ensures var s := At(Sys(w, maxsize), run, p).sync; i < |s.pcs| && s.pcs[i].Writing? && s.pcs[i].value == v
  {
    IsSyncRun(w, maxsize, run, p);
    SyncRaises.MadeAfter(w, SyncRun(run), q, p, i, Returns(v));
    InvAt(w, maxsize, None, run, p);
    assert SyncHandOff.MadeOk(At(Sys(w, maxsize), run, p).sync, i);
  }

  lemma LeaderWrote(w: Front.World, maxsize: nat, run: seq<Label>, q: nat, p: nat, i: nat, v: Value, stored: bool)
    requires maxsize >= 1 && Valid(Sys(w, maxsize), run) && q < p < |run|
    requires run[q].l == Sync.RunFactory(i, Returns(v)) && run[p].l == Sync.Write(i, stored)
    ensures i < |w.calls|
    ensures JustStored(At(Sys(w, maxsize), run, p + 1).table, w.calls[i].key, w.calls[i], v, run[p].now)
  {
    LeaderMade(w, maxsize, run, q, p, i, v, stored);
    InvAt(w, maxsize, None, run, p);
    StoredByPut(At(Sys(w, maxsize), run, p).table, maxsize, w.calls[i], v, run[p].now);
  }

  /** What a leader's factory returned is found: when call `i` writes it in step `p` and no later
      step up to `n` writes the key, a lookup at `n` misses or finds exactly that value, created at
      the write, with the call's own soft TTL; past the call's hard TTL, or without a soft one, it
      misses; and short of that it finds it, if since the write (or a lookup that found it) fewer
      than `maxsize` other keys were used. */
  lemma LeaderStores(w: Front.World, maxsize: nat, run: seq<Label>, q: nat, p: nat, r: nat, n: nat,
                     i: nat, v: Value, stored: bool)
    requires maxsize >= 1 && Valid(Sys(w, maxsize), run) && q < p < n < |run| && i < |w.calls|
    requires run[q].l == Sync.RunFactory(i, Returns(v)) && run[p].l == Sync.Write(i, stored)
    requires LooksUp(w, run, n, w.calls[i].key)
    requires Unwritten(Sys(w, maxsize), Cache(), run, p + 1, n, w.calls[i].key)
    ensures run[n].l.l.out in {FoundAfter(w.calls[i], v, run[p].now, run[n].now), Front.Miss}
    ensures Kept(w, maxsize, run, p, r, n, w.calls[i].key, Expiry(w.calls[i], run[p].now)) ==>
              run[n].l.l.out == FoundAfter(w.calls[i], v, run[p].now, run[n].now)
  {
    LeaderWrote(w, maxsize, run, q, p, i, v, stored);
    FoundLater(w, maxsize, run, p, r, n, w.calls[i], v);
  }

  /** A background job writes what its factory returned, as its scheduler asked. */
  lemma JobWrote(w: Front.World, maxsize: nat, run: seq<Label>, q: nat, p: nat, j: nat, v: Value, failure: Option<Exc>)
    returns (i: nat)
    requires maxsize >= 1 && Valid(Sys(w, maxsize), run) && q < p < |run|
    requires run[q].l == Sync.FrontStep(Front.JobStep(Revalidation.RunFactory(j, Returns(v))))
    requires run[p].l == Sync.FrontStep(Front.JobStep(Revalidation.Write(j, failure)))
    ensures var f := At(Sys(w, maxsize), run, p).sync.front; j < |f.scheduler| && f.scheduler[j] == i
    ensures i < |w.calls|
    ensures JustStored(At(Sys(w, maxsize), run, p + 1).table, w.calls[i].key, w.calls[i], v, run[p].now)
  {
    IsSyncRun(w, maxsize, run, p);
    SyncRuns.SysEmbeds(w);
    JobRuns.MadeSince(SyncRuns.Sys(w), SyncRuns.IsGood(w), SyncRuns.FrontLens(), w, SyncRun(run), q, p, j, v);
    InvAt(w, maxsize, None, run, p);
    var s := At(Sys(w, maxsize), run, p);
    JobAccess(w.config, s.sync.front, j, failure, run[p].now);
    i := s.sync.front.scheduler[j];
    StoredByPut(s.table, maxsize, w.calls[i], v, run[p].now);
  }

  /** The same of what a background job's factory returned, with the TTLs of the call that
      scheduled it. */
  lemma JobStores(w: Front.World, maxsize: nat, run: seq<Label>, q: nat, p: nat, r: nat, n: nat,
                  j: nat, i: nat, v: Value, failure: Option<Exc>)
    requires maxsize >= 1 && Valid(Sys(w, maxsize), run) && q < p < n < |run|
    requires run[q].l == Sync.FrontStep(Front.JobStep(Revalidation.RunFactory(j, Returns(v))))
    requires run[p].l == Sync.FrontStep(Front.JobStep(Revalidation.Write(j, failure)))
    requires var f := At(Sys(w, maxsize), run, p).sync.front; j < |f.scheduler| && f.scheduler[j] == i
    requires i < |w.calls| && LooksUp(w, run, n, w.calls[i].key)
    requires Unwritten(Sys(w, maxsize), Cache(), run, p + 1, n, w.calls[i].key)
    ensures run[n].l.l.out in {FoundAfter(w.calls[i], v, run[p].now, run[n].now), Front.Miss}
    ensures Kept(w, maxsize, run, p, r, n, w.calls[i].key, Expiry(w.calls[i], run[p].now)) ==>
              run[n].l.l.out == FoundAfter(w.calls[i], v, run[p].now, run[n].now)
  {
    var _ := JobWrote(w, maxsize, run, q, p, j, v, failure);
    FoundLater(w, maxsize, run, p, r, n, w.calls[i], v);
  }

  // Transparency without assuming anything of the backend

  /** The factory a step runs, if it runs one, is the function on its own call's arguments. */
  ghost predicate PureCall<A>(m: Memoise.Wrapped<A, Value>, s: State, l: Label) {
    IsLookup(l.l) || Memoise.PureSync(m, s.sync, l.l)
  }

  ghost function PureSys<A>(w: Front.World, maxsize: nat, m: Memoise.Wrapped<A, Value>): Machine<State, Label> {
    Sys(w, maxsize).(enabled := (s, l) => Enabled(s, l) && PureCall(m, s, l))
  }

  /** `MemoryCache` is an honest backend: lookups find what was written under the key. */
  lemma LookupIsHonest<A>(w: Front.World, maxsize: nat, m: Memoise.Wrapped<A, Value>, s: State, l: Label)
    requires Memoise.Direct(w, m) && Inv(w, maxsize, None, s) && Enabled(s, l) && PureCall(m, s, l)
    ensures Memoise.PureSync(m, s.sync, l.l)
  {
    if IsLookup(l.l) && l.l.l.out.Found? {
      var k, env := Sync.KeyOf(s.sync, l.l.l.i), l.l.l.out.env;
      FoundWasWritten(s.table, maxsize, s.sync.front.written, None, k, l.now, env);
      assert (k, env.value) in s.sync.front.written && env.value == m.loads(m.dumps(env.value));
    }
  }

  lemma NeverWrong<A>(w: Front.World, maxsize: nat, m: Memoise.Wrapped<A, Value>, run: seq<Label>, n: nat)
    requires maxsize >= 1 && Memoise.Direct(w, m) && Valid(PureSys(w, maxsize, m), run) && n <= |run|
    ensures Memoise.NeverWrong(m, At(PureSys(w, maxsize, m), run, n).sync.front)
  {
    var inv := (s: State) => Inv(w, maxsize, None, s) && Memoise.SyncRight(m, s.sync);
    SyncRuns.InvStart(w);
    forall s, l | inv(s) && Enabled(s, l) && PureCall(m, s, l) ensures inv(Next(w.config, maxsize, s, l)) {
      InvStep(w, maxsize, None, s, l);
      LookupIsHonest(w, maxsize, m, s, l);
      Memoise.SyncRightStep(w.config, m, s.sync, l.l);
    }
    Invariant(PureSys(w, maxsize, m), inv, run, n);
    Memoise.RightIsNeverWrong(m, At(PureSys(w, maxsize, m), run, n).sync.front);
  }

  /** A run of pure calls is a run. */
  lemma IsRun<A>(w: Front.World, maxsize: nat, m: Memoise.Wrapped<A, Value>, run: seq<Label>, n: nat)
    requires Valid(PureSys(w, maxsize, m), run) && n <= |run|
    ensures Valid(Sys(w, maxsize), run) && At(Sys(w, maxsize), run, n) == At(PureSys(w, maxsize, m), run, n)
  {
    Restricted(Sys(w, maxsize), PureSys(w, maxsize, m), run, n);
  }

  /** No lookup breaks and no factory raises. */
  lemma NothingRaises<A>(w: Front.World, maxsize: nat, m: Memoise.Wrapped<A, Value>, run: seq<Label>, n: nat)
    requires Valid(PureSys(w, maxsize, m), run) && n <= |run|
    ensures forall i: nat, e :: !SyncRaises.Broke(SyncRun(run), n, i, e) && !SyncRaises.Raised(SyncRun(run), n, i, e)
  {
    forall x | 0 <= x < n
      ensures !(IsLookup(run[x].l) && run[x].l.l.out.Broken?) && !(run[x].l.RunFactory? && run[x].l.out.Raises?)
    {
      assert PureSys(w, maxsize, m).enabled(At(PureSys(w, maxsize, m), run, x), run[x]);
    }
  }

  /** `@cached` over a `MemoryCache` of any size: every call that has ended returned
      `func(args)`. */
  lemma CachedOverMemory<A>(w: Front.World, maxsize: nat, m: Memoise.Wrapped<A, Value>, run: seq<Label>, n: nat, i: nat)
    requires maxsize >= 1 && Memoise.Direct(w, m) && Valid(PureSys(w, maxsize, m), run) && n <= |run| && i < |m.args|
    requires i < |At(PureSys(w, maxsize, m), run, n).sync.front.callers|
    requires At(PureSys(w, maxsize, m), run, n).sync.front.callers[i].pc.Done?
    ensures var fin := At(PureSys(w, maxsize, m), run, n).sync.front.callers[i].pc.fin;
            fin.Gave? && fin.result.value == m.func(m.args[i])
  {
    NeverWrong(w, maxsize, m, run, n);
    var fin := At(PureSys(w, maxsize, m), run, n).sync.front.callers[i].pc.fin;
    if fin.Threw? {
      IsRun(w, maxsize, m, run, n);
      IsSyncRun(w, maxsize, run, n);
      SyncRaises.RaisesExactly(w, SyncRun(run), n, i, fin.error);
      NothingTaken(w, maxsize, m, run, n, i, fin.error);
      NothingRaises(w, maxsize, m, run, n);
      assert false;
    }
  }

  lemma NothingTaken<A>(w: Front.World, maxsize: nat, m: Memoise.Wrapped<A, Value>, run: seq<Label>, n: nat,
                        i: nat, e: Exc)
    requires Valid(PureSys(w, maxsize, m), run) && n <= |run|
    ensures !SyncRaises.TookRaised(w, SyncRun(run), n, i, e)
  {
    if c: nat, t: nat :| SyncRaises.TookIt(w, SyncRun(run), n, i, e, c, t) {
      NothingRaises(w, maxsize, m, run, c);
      assert false;
    }
  }
}
