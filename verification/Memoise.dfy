/** `@cached` (decorators.py): with a pure total function, a key function that separates the
    arguments used, a round-tripping codec and a backend that returns only what this
    wrapper wrote, every call returns `func(args)` or raises what its own backend call raised,
    whatever the policy, TTLs, evictions and interleaving, on the single-flight path (sync
    and async) and on the plain one. */
module Memoise {
  import opened Basics
  import opened Runs
  import Front
  import Revalidation
  import Sync = SyncMachine
  import SyncRaises
  import SyncRuns
  import Async = AsyncMachine
  import AsyncRaises
  import AsyncRuns

  /** The decorated function, the arguments of each call, and the codec of the view. */
  datatype Wrapped<!A, !B> = Wrapped(func: A -> Value, args: seq<A>, key: A -> Key,
                                     dumps: Value -> B, loads: B -> Value)

  ghost predicate Sound<A, B>(m: Wrapped<A, B>) {
    && (forall i, j | 0 <= i < |m.args| && 0 <= j < |m.args| && m.key(m.args[i]) == m.key(m.args[j]) ::
          m.func(m.args[i]) == m.func(m.args[j]))
    && (forall v :: m.loads(m.dumps(v)) == v)
  }

  /** These calls, with the codec that stores values as they are. */
  ghost predicate Direct<A>(w: Front.World, m: Wrapped<A, Value>) {
    && Sound(m) && (forall v :: m.dumps(v) == v)
    && |w.calls| == |m.args| && (forall i | 0 <= i < |m.args| :: w.calls[i].key == m.key(m.args[i]))
  }

  /** `v` is the right value for every call with key `k`. */
  ghost predicate Right<A, B>(m: Wrapped<A, B>, k: Key, v: Value) {
    forall i | 0 <= i < |m.args| && m.key(m.args[i]) == k :: v == m.func(m.args[i])
  }

  lemma FuncIsRight<A, B>(m: Wrapped<A, B>, i: nat)
    requires Sound(m) && i < |m.args|
    ensures Right(m, m.key(m.args[i]), m.func(m.args[i]))
  {
  }

  /** The value the backend returns under `k` is the decoding of one written under `k`. */
  ghost predicate Honest<A, B>(m: Wrapped<A, B>, written: set<(Key, Value)>, k: Key, read: Value) {
    exists v :: (k, v) in written && read == m.loads(m.dumps(v))
  }

  ghost predicate AllRight<A, B>(m: Wrapped<A, B>, written: set<(Key, Value)>) {
    forall k, v :: (k, v) in written ==> Right(m, k, v)
  }

  // The half both single-flight classes share

  ghost predicate Calls<A, B>(m: Wrapped<A, B>, s: Front.State) {
    |s.callers| == |m.args| && forall i | 0 <= i < |m.args| :: s.callers[i].call.key == m.key(m.args[i])
  }

  /** The lookup may fail but does not lie; a job runs the function on its scheduler's arguments. */
  ghost predicate PureFront<A, B>(m: Wrapped<A, B>, s: Front.State, l: Front.Label) {
    match l
    case LookUp(i, Found(env)) => i < |s.callers| && Honest(m, s.written, s.callers[i].call.key, env.value)
    case JobStep(RunFactory(j, out)) =>
      && j < |s.scheduler| && s.scheduler[j] < |m.args|
      && out == Returns(m.func(m.args[s.scheduler[j]]))
    case _ => true
  }

  ghost predicate CallerRight<A, B>(m: Wrapped<A, B>, s: Front.State, i: nat)
    requires |s.callers| == |m.args| && i < |m.args|
  {
    match s.callers[i].pc
    case Judging(_, _, env) => env.value == m.func(m.args[i])
    case Clocking(env) => env.value == m.func(m.args[i])
    case Reserving(env, _) => env.value == m.func(m.args[i])
    case Submitting(env, _) => env.value == m.func(m.args[i])
    case Returning(env) => env.value == m.func(m.args[i])
    case Done(fin) => fin.Gave? ==> fin.result.value == m.func(m.args[i])
    case _ => true
  }

  ghost predicate FrontRight<A, B>(m: Wrapped<A, B>, s: Front.State) {
    && Calls(m, s) && AllRight(m, s.written)
    && (forall i | 0 <= i < |m.args| :: CallerRight(m, s, i))
    && (forall j | 0 <= j < |s.reval.jobs| && s.reval.jobs[j].stage.Writing? ::
          Right(m, s.reval.jobs[j].key, s.reval.jobs[j].stage.value))
  }

  lemma FrontRightStep<A, B>(c: Revalidation.Config, m: Wrapped<A, B>, s: Front.State, l: Front.Label)
    requires Sound(m) && Front.ReserveInv(s) && FrontRight(m, s)
    requires Front.Enabled(s, l) && PureFront(m, s, l)
    ensures FrontRight(m, Front.Next(c, s, l))
  {
    var s' := Front.Next(c, s, l);
    match l
    case JobStep(rl) => JobRightStep(c, m, s, rl);
    case LookUp(i, out) =>
      if out.Found? {
        var v :| (s.callers[i].call.key, v) in s.written && out.env.value == m.loads(m.dumps(v));
        assert Right(m, s.callers[i].call.key, v);
      }
      CallersRight(m, s, s', i);
    case _ =>
      assert CallerRight(m, s, l.i);
      CallersRight(m, s, s', l.i);
  }

  /** When only caller `i` moved, and is right, all callers are. */
  lemma CallersRight<A, B>(m: Wrapped<A, B>, s: Front.State, s': Front.State, i: nat)
    requires FrontRight(m, s) && |s'.callers| == |m.args| && i < |m.args|
    requires s'.callers == s.callers[i := s'.callers[i]] && CallerRight(m, s', i)
    ensures forall x | 0 <= x < |m.args| :: CallerRight(m, s', x)
  {
    forall x | 0 <= x < |m.args| ensures CallerRight(m, s', x) {
      assert CallerRight(m, s, x);
    }
  }

  lemma JobRightStep<A, B>(c: Revalidation.Config, m: Wrapped<A, B>, s: Front.State, rl: Revalidation.Label)
    requires Sound(m) && Front.ReserveInv(s) && FrontRight(m, s)
    requires Front.Enabled(s, Front.JobStep(rl)) && PureFront(m, s, Front.JobStep(rl))
    ensures FrontRight(m, Front.Next(c, s, Front.JobStep(rl)))
  {
    var s' := Front.Next(c, s, Front.JobStep(rl));
    assert s'.callers == s.callers;
    forall x | 0 <= x < |m.args| ensures CallerRight(m, s', x) {
      assert CallerRight(m, s, x);
    }
    if rl.RunFactory? {
      assert Front.ScheduledBy(s, rl.j);
      FuncIsRight(m, s.scheduler[rl.j]);
    }
  }

  /** When the blocking half ends or re-enters caller `i`, or writes its right value. */
  lemma FrontRightExit<A, B>(m: Wrapped<A, B>, s: Front.State, i: nat, pc: Front.Pc)
    requires FrontRight(m, s) && i < |m.args| && Front.Exit(pc)
    requires pc.Done? && pc.fin.Gave? ==> pc.fin.result.value == m.func(m.args[i])
    ensures FrontRight(m, Front.Goto(s, i, pc))
  {
    CallersRight(m, s, Front.Goto(s, i, pc), i);
  }

  lemma FrontRightWrite<A, B>(m: Wrapped<A, B>, s: Front.State, i: nat)
    requires Sound(m) && FrontRight(m, s) && i < |m.args|
    ensures FrontRight(m, s.(written := s.written + {(s.callers[i].call.key, m.func(m.args[i]))}))
  {
    FuncIsRight(m, i);
    var s' := s.(written := s.written + {(s.callers[i].call.key, m.func(m.args[i]))});
    forall x | 0 <= x < |m.args| ensures CallerRight(m, s', x) {
      assert CallerRight(m, s, x);
    }
  }

  // The sync single-flight path

  ghost predicate PureSync<A, B>(m: Wrapped<A, B>, s: Sync.State, l: Sync.Label) {
    match l
    case FrontStep(fl) => PureFront(m, s.front, fl)
    case RunFactory(i, out) => i < |m.args| && out == Returns(m.func(m.args[i]))
    case _ => true
  }

  /** The sync machine run by the wrapper: pure factories over an honest backend. */
  ghost function PureSyncSys<A, B>(w: Front.World, m: Wrapped<A, B>): Machine<Sync.State, Sync.Label> {
    SyncRuns.Sys(w).(enabled := (s, l) => Sync.Enabled(s, l) && PureSync(m, s, l))
  }

  ghost predicate SyncRight<A, B>(m: Wrapped<A, B>, s: Sync.State) {
    && Sync.Shape(s) && FrontRight(m, s.front)
    && (forall i | 0 <= i < |m.args| :: BlockedRight(m, s, i))
    && s.flight.errors == map[]
    && (forall k | k in s.flight.results :: Right(m, k, s.flight.results[k]))
  }

  ghost predicate BlockedRight<A, B>(m: Wrapped<A, B>, s: Sync.State, i: nat)
    requires |s.pcs| == |m.args| && i < |m.args|
  {
    match s.pcs[i]
    case Writing(_, v) => v == m.func(m.args[i])
    case Publishing(_, out) => out == Returns(m.func(m.args[i]))
    case _ => true
  }

  lemma SyncRightStep<A, B>(c: Revalidation.Config, m: Wrapped<A, B>, s: Sync.State, l: Sync.Label)
    requires Sound(m) && SyncRuns.Inv(c, s) && SyncRight(m, s) && Sync.Enabled(s, l) && PureSync(m, s, l)
    ensures SyncRight(m, Sync.Next(c, s, l))
  {
    Sync.ShapeStep(c, s, l);
    SyncFrontRight(c, m, s, l);
    SyncStoreRight(c, m, s, l);
    forall i | 0 <= i < |m.args| ensures BlockedRight(m, Sync.Next(c, s, l), i) {
      SyncBlockedRight(c, m, s, l, i);
    }
  }

  lemma SyncBlockedRight<A, B>(c: Revalidation.Config, m: Wrapped<A, B>, s: Sync.State, l: Sync.Label, i: nat)
    requires Sync.Shape(s) && |s.pcs| == |m.args| && i < |m.args| && BlockedRight(m, s, i)
    requires Sync.Enabled(s, l) && PureSync(m, s, l)
    ensures |Sync.Next(c, s, l).pcs| == |m.args| && BlockedRight(m, Sync.Next(c, s, l), i)
  {
  }

  lemma SyncStoreRight<A, B>(c: Revalidation.Config, m: Wrapped<A, B>, s: Sync.State, l: Sync.Label)
    requires Sound(m) && SyncRight(m, s) && Sync.Enabled(s, l)
    ensures var f := Sync.Next(c, s, l).flight;
            f.errors == map[] && forall k | k in f.results :: Right(m, k, f.results[k])
  {
    if l.Publish? {
      FuncIsRight(m, l.i);
      assert BlockedRight(m, s, l.i);
    }
  }

  lemma SyncFrontRight<A, B>(c: Revalidation.Config, m: Wrapped<A, B>, s: Sync.State, l: Sync.Label)
    requires Sound(m) && SyncRuns.Inv(c, s) && SyncRight(m, s) && Sync.Enabled(s, l) && PureSync(m, s, l)
    ensures FrontRight(m, Sync.Next(c, s, l).front)
  {
    if !l.FrontStep? {
      assert BlockedRight(m, s, l.i);
    }
    match l
    case FrontStep(fl) => FrontRightStep(c, m, s.front, fl);
    case Collect(i) => FrontRightExit(m, s.front, i, Sync.Next(c, s, l).front.callers[i].pc);
    case Publish(i) => FrontRightExit(m, s.front, i, Sync.Next(c, s, l).front.callers[i].pc);
    case Write(i, _) => FrontRightWrite(m, s.front, i);
    case _ =>
  }

  /** A call that has returned, returned `func(args)`. */
  ghost predicate NeverWrong<A, B>(m: Wrapped<A, B>, s: Front.State) {
    forall i | 0 <= i < |s.callers| && i < |m.args| && s.callers[i].pc.Done? && s.callers[i].pc.fin.Gave? ::
      s.callers[i].pc.fin.result.value == m.func(m.args[i])
  }

  lemma RightIsNeverWrong<A, B>(m: Wrapped<A, B>, s: Front.State)
    requires FrontRight(m, s)
    ensures NeverWrong(m, s)
  {
    forall i | 0 <= i < |m.args| && s.callers[i].pc.Done? && s.callers[i].pc.fin.Gave?
      ensures s.callers[i].pc.fin.result.value == m.func(m.args[i])
    {
      assert CallerRight(m, s, i);
    }
  }

  lemma SyncNeverWrong<A, B>(w: Front.World, m: Wrapped<A, B>, run: seq<Sync.Label>, n: nat)
    requires Sound(m) && |w.calls| == |m.args|
    requires forall i | 0 <= i < |m.args| :: w.calls[i].key == m.key(m.args[i])
    requires Valid(PureSyncSys(w, m), run) && n <= |run|
    ensures NeverWrong(m, At(PureSyncSys(w, m), run, n).front)
  {
    var inv := (s: Sync.State) => SyncRuns.Good(w, s) && SyncRight(m, s);
    SyncRuns.InvStart(w);
    forall s, l | inv(s) && Sync.Enabled(s, l) && PureSync(m, s, l) ensures inv(Sync.Next(w.config, s, l)) {
      SyncRuns.GoodStep(w, s, l);
      SyncRightStep(w.config, m, s, l);
    }
    Invariant(PureSyncSys(w, m), inv, run, n);
    RightIsNeverWrong(m, At(PureSyncSys(w, m), run, n).front);
  }

  /** No factory raises. */
  lemma PureNeverRaises<A, B>(w: Front.World, m: Wrapped<A, B>, run: seq<Sync.Label>, n: nat)
    requires Valid(PureSyncSys(w, m), run) && n <= |run|
    ensures forall i: nat, e :: !SyncRaises.Raised(run, n, i, e)
  {
    forall x | 0 <= x < n ensures run[x].RunFactory? ==> run[x].out.Returns? {
      assert PureSyncSys(w, m).enabled(At(PureSyncSys(w, m), run, x), run[x]);
    }
  }

  /** Every call that has ended returned `func(args)`, or raised what its own lookup raised. */
  lemma SyncTransparent<A, B>(w: Front.World, m: Wrapped<A, B>, run: seq<Sync.Label>, n: nat, i: nat)
    requires Sound(m) && i < |w.calls| == |m.args|
    requires forall i | 0 <= i < |m.args| :: w.calls[i].key == m.key(m.args[i])
    requires Valid(PureSyncSys(w, m), run) && n <= |run|
    requires i < |At(PureSyncSys(w, m), run, n).front.callers|
    requires At(PureSyncSys(w, m), run, n).front.callers[i].pc.Done?
    ensures var fin := At(PureSyncSys(w, m), run, n).front.callers[i].pc.fin;
            && (fin.Gave? ==> fin.result.value == m.func(m.args[i]))
            && (fin.Threw? ==> SyncRaises.Broke(run, n, i, fin.error))
  {
    SyncNeverWrong(w, m, run, n);
    var fin := At(PureSyncSys(w, m), run, n).front.callers[i].pc.fin;
    if fin.Threw? {
      Restricted(SyncRuns.Sys(w), PureSyncSys(w, m), run, n);
      SyncRaises.RaisesExactly(w, run, n, i, fin.error);
      PureNeverRaises(w, m, run, n);
      NoneTaken(w, m, run, n, i, fin.error);
    }
  }

  lemma NoneTaken<A, B>(w: Front.World, m: Wrapped<A, B>, run: seq<Sync.Label>, n: nat, i: nat, e: Exc)
    requires Valid(PureSyncSys(w, m), run) && n <= |run|
    ensures !SyncRaises.TookRaised(w, run, n, i, e)
  {
    if c: nat, t: nat :| SyncRaises.TookIt(w, run, n, i, e, c, t) {
      PureNeverRaises(w, m, run, c);
      assert false;
    }
  }

  // The async single-flight path

  ghost predicate PureAsync<A, B>(m: Wrapped<A, B>, s: Async.State, l: Async.Label) {
    match l
    case FrontStep(fl) => PureFront(m, s.front, fl)
    case RunFactory(i, out) => i < |m.args| && out == Returns(m.func(m.args[i]))
    case _ => true
  }

  ghost function PureAsyncSys<A, B>(w: Front.World, m: Wrapped<A, B>): Machine<Async.State, Async.Label> {
    AsyncRuns.Sys(w).(enabled := (s, l) => Async.Enabled(s, l) && PureAsync(m, s, l))
  }

  ghost predicate AsyncRight<A, B>(m: Wrapped<A, B>, s: Async.State) {
    && Async.Shape(s) && FrontRight(m, s.front)
    && (forall i | 0 <= i < |m.args| && s.hist.made[i].Some? ::
          s.hist.made[i] == Some(Returns(m.func(m.args[i]))))
  }

  lemma AsyncRightStep<A, B>(c: Revalidation.Config, m: Wrapped<A, B>, s: Async.State, l: Async.Label)
    requires Sound(m) && AsyncRuns.Inv(c, s) && AsyncRight(m, s) && Async.Enabled(s, l) && PureAsync(m, s, l)
    ensures AsyncRight(m, Async.Next(c, s, l))
  {
    Async.ShapeStep(c, s, l);
    AsyncFrontRight(c, m, s, l);
  }

  lemma AsyncFrontRight<A, B>(c: Revalidation.Config, m: Wrapped<A, B>, s: Async.State, l: Async.Label)
    requires Sound(m) && AsyncRuns.Inv(c, s) && AsyncRight(m, s) && Async.Enabled(s, l) && PureAsync(m, s, l)
    ensures FrontRight(m, Async.Next(c, s, l).front)
  {
    if !l.FrontStep? {
      assert Async.MadeOk(s, l.i) && Async.MemberOk(s, l.i);
    }
    match l
    case FrontStep(fl) => FrontRightStep(c, m, s.front, fl);
    case Resume(i) =>
      assert Async.FutureOk(s, s.pcs[i].fut);
      FrontRightExit(m, s.front, i, Async.Next(c, s, l).front.callers[i].pc);
    case Pop(i) => FrontRightExit(m, s.front, i, Async.Next(c, s, l).front.callers[i].pc);
    case Write(i, _) => FrontRightWrite(m, s.front, i);
    case _ =>
  }

  lemma AsyncNeverWrong<A, B>(w: Front.World, m: Wrapped<A, B>, run: seq<Async.Label>, n: nat)
    requires Sound(m) && |w.calls| == |m.args|
    requires forall i | 0 <= i < |m.args| :: w.calls[i].key == m.key(m.args[i])
    requires Valid(PureAsyncSys(w, m), run) && n <= |run|
    ensures NeverWrong(m, At(PureAsyncSys(w, m), run, n).front)
  {
    var inv := (s: Async.State) => AsyncRuns.Good(w, s) && AsyncRight(m, s);
    AsyncRuns.GoodInductive(w);
    forall s, l | inv(s) && Async.Enabled(s, l) && PureAsync(m, s, l) ensures inv(Async.Next(w.config, s, l)) {
      AsyncRuns.GoodStep(w, s, l);
      AsyncRightStep(w.config, m, s, l);
    }
    Invariant(PureAsyncSys(w, m), inv, run, n);
    RightIsNeverWrong(m, At(PureAsyncSys(w, m), run, n).front);
  }

  lemma PureAsyncNeverRaises<A, B>(w: Front.World, m: Wrapped<A, B>, run: seq<Async.Label>, n: nat)
    requires Valid(PureAsyncSys(w, m), run) && n <= |run|
    ensures forall i: nat, e :: !AsyncRaises.Raised(run, n, i, e)
  {
    forall x | 0 <= x < n ensures run[x].RunFactory? ==> run[x].out.Returns? {
      assert PureAsyncSys(w, m).enabled(At(PureAsyncSys(w, m), run, x), run[x]);
    }
  }

  /** Every call that has ended returned `func(args)`, or raised what its own lookup raised. */
  lemma AsyncTransparent<A, B>(w: Front.World, m: Wrapped<A, B>, run: seq<Async.Label>, n: nat, i: nat)
    requires Sound(m) && i < |w.calls| == |m.args|
    requires forall i | 0 <= i < |m.args| :: w.calls[i].key == m.key(m.args[i])
    requires Valid(PureAsyncSys(w, m), run) && n <= |run|
    requires i < |At(PureAsyncSys(w, m), run, n).front.callers|
    requires At(PureAsyncSys(w, m), run, n).front.callers[i].pc.Done?
    ensures var fin := At(PureAsyncSys(w, m), run, n).front.callers[i].pc.fin;
            && (fin.Gave? ==> fin.result.value == m.func(m.args[i]))
            && (fin.Threw? ==> AsyncRaises.Broke(run, n, i, fin.error))
  {
    AsyncNeverWrong(w, m, run, n);
    var fin := At(PureAsyncSys(w, m), run, n).front.callers[i].pc.fin;
    if fin.Threw? {
      Restricted(AsyncRuns.Sys(w), PureAsyncSys(w, m), run, n);
      AsyncRaises.RaisesExactly(w, run, n, i, fin.error);
      PureAsyncNeverRaises(w, m, run, n);
    }
  }

  // The plain path: no soft TTL, or a cache without envelopes

  /** The cache may fail at either end, and the function may raise; each ends the call. */
  datatype PlainPc = Getting | Calling | Setting(value: Value) | Done(value: Value) | Failed(error: Exc)

  datatype Plain = Plain(pcs: seq<PlainPc>, written: set<(Key, Value)>)

  datatype PlainLabel =
    | Get(i: nat, found: Option<Value>)   // None: the sentinel came back
    | GetFails(i: nat, error: Exc)
    | CallFunc(i: nat, out: Outcome)
    | Set(i: nat)
    | SetFails(i: nat, error: Exc)

  predicate PlainEnabled(s: Plain, l: PlainLabel) {
    match l
    case Get(i, _) => i < |s.pcs| && s.pcs[i].Getting?
    case GetFails(i, _) => i < |s.pcs| && s.pcs[i].Getting?
    case CallFunc(i, _) => i < |s.pcs| && s.pcs[i].Calling?
    case Set(i) => i < |s.pcs| && s.pcs[i].Setting?
    case SetFails(i, _) => i < |s.pcs| && s.pcs[i].Setting?
  }

  function PlainNext(keys: seq<Key>, s: Plain, l: PlainLabel): Plain
    requires PlainEnabled(s, l) && |keys| == |s.pcs|
  {
    match l
    case Get(i, found) =>
      s.(pcs := s.pcs[i := if found.Some? then Done(found.value) else Calling])
    case GetFails(i, e) => s.(pcs := s.pcs[i := Failed(e)])
    case CallFunc(i, Returns(v)) => s.(pcs := s.pcs[i := Setting(v)])
    case CallFunc(i, Raises(e)) => s.(pcs := s.pcs[i := Failed(e)])
    case Set(i) =>
      s.(pcs := s.pcs[i := Done(s.pcs[i].value)], written := s.written + {(keys[i], s.pcs[i].value)})
    case SetFails(i, e) => s.(pcs := s.pcs[i := Failed(e)])
  }

  /** Any calls of the plain wrapper, over any backend and function. */
  function PlainSys(keys: seq<Key>): Machine<Plain, PlainLabel> {
    Machine(Plain(seq(|keys|, _ => Getting), {}), PlainEnabled,
            (s: Plain, l: PlainLabel) =>
              if PlainEnabled(s, l) && |keys| == |s.pcs| then PlainNext(keys, s, l) else s)
  }

  /** The step is call `i` having its cache or its function raise `e`. */
  predicate Fails(l: PlainLabel, i: nat, e: Exc) {
    l == GetFails(i, e) || l == CallFunc(i, Raises(e)) || l == SetFails(i, e)
  }

  ghost predicate Failing(run: seq<PlainLabel>, n: nat, i: nat, e: Exc)
    requires n <= |run|
  {
    exists m :: 0 <= m < n && Fails(run[m], i, e)
  }

  /** A call raises `e` if and only if its `get`, its function or its `set` raised `e`: nothing
      falls through to the function. */
  lemma {:induction false} PlainRaisesExactly(keys: seq<Key>, run: seq<PlainLabel>, n: nat, i: nat, e: Exc)
    requires Valid(PlainSys(keys), run) && n <= |run| && i < |keys|
    ensures var s := At(PlainSys(keys), run, n);
            |s.pcs| == |keys| && (s.pcs[i] == Failed(e) <==> Failing(run, n, i, e))
  {
    if n > 0 {
      PlainRaisesExactly(keys, run, n - 1, i, e);
      assert PlainSys(keys).enabled(At(PlainSys(keys), run, n - 1), run[n - 1]);
      assert Failing(run, n, i, e) <==> Failing(run, n - 1, i, e) || Fails(run[n - 1], i, e);
    }
  }

  ghost predicate PurePlain<A, B>(m: Wrapped<A, B>, s: Plain, l: PlainLabel) {
    match l
    case Get(i, Some(v)) => i < |m.args| && Honest(m, s.written, m.key(m.args[i]), v)
    case CallFunc(i, out) => i < |m.args| && out == Returns(m.func(m.args[i]))
    case _ => true
  }

  function KeysOf<A, B>(m: Wrapped<A, B>): (r: seq<Key>)
    ensures |r| == |m.args|
  {
    seq(|m.args|, i requires 0 <= i < |m.args| => m.key(m.args[i]))
  }

  ghost function PurePlainSys<A, B>(m: Wrapped<A, B>): Machine<Plain, PlainLabel> {
    PlainSys(KeysOf(m)).(enabled := (s, l) => PlainEnabled(s, l) && PurePlain(m, s, l))
  }

  ghost predicate PlainRight<A, B>(m: Wrapped<A, B>, s: Plain) {
    && |s.pcs| == |m.args| && AllRight(m, s.written)
    && (forall i | 0 <= i < |m.args| && (s.pcs[i].Setting? || s.pcs[i].Done?) ::
          s.pcs[i].value == m.func(m.args[i]))
  }

  ghost predicate BackendFailed(run: seq<PlainLabel>, n: nat, i: nat, e: Exc)
    requires n <= |run|
  {
    exists m :: 0 <= m < n && (run[m] == GetFails(i, e) || run[m] == SetFails(i, e))
  }

  /** Every call that has ended returned `func(args)`, or raised what its own `get` or `set`
      of the cache raised. */
  lemma PlainTransparent<A, B>(m: Wrapped<A, B>, run: seq<PlainLabel>, n: nat, i: nat)
    requires Sound(m) && Valid(PurePlainSys(m), run) && n <= |run| && i < |m.args|
    ensures var s := At(PurePlainSys(m), run, n);
            && |s.pcs| == |m.args|
            && (s.pcs[i].Done? ==> s.pcs[i].value == m.func(m.args[i]))
            && (s.pcs[i].Failed? ==> BackendFailed(run, n, i, s.pcs[i].error))
  {
    var sys, inv := PurePlainSys(m), (s: Plain) => PlainRight(m, s);
    forall s, l | inv(s) && sys.enabled(s, l) ensures inv(sys.next(s, l)) {
      PlainRightStep(m, s, l);
    }
    Invariant(sys, inv, run, n);
    var pc := At(sys, run, n).pcs[i];
    if pc.Failed? {
      Restricted(PlainSys(KeysOf(m)), sys, run, n);
      PlainRaisesExactly(KeysOf(m), run, n, i, pc.error);
      var x :| 0 <= x < n && Fails(run[x], i, pc.error);
      assert sys.enabled(At(sys, run, x), run[x]);
    }
  }

  lemma PlainRightStep<A, B>(m: Wrapped<A, B>, s: Plain, l: PlainLabel)
    requires Sound(m) && PlainRight(m, s) && PlainEnabled(s, l) && PurePlain(m, s, l)
    ensures PlainRight(m, PurePlainSys(m).next(s, l))
  {
    if l.Get? && l.found.Some? {
      var k := m.key(m.args[l.i]);
      var v :| (k, v) in s.written && l.found.value == m.loads(m.dumps(v));
      assert Right(m, k, v);
    } else if l.Set? {
      FuncIsRight(m, l.i);
    }
  }
}
