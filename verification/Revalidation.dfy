/** Background revalidation, the same code in both single-flight classes: a caller reserves
    a key unless it is regenerating or backing off; the job it submits runs the factory,
    writes, and on failure records a backoff; in every case it releases the key. */
module Revalidation {
  import opened Basics
  import opened OrderedDict
  import opened Sums

  // The two fields behind the lock, and the blocks that change them

  datatype Guard = Guard(backoff: Odict<Key, Time>, regenerating: set<Key>)

  function Reserve(g: Guard, k: Key, now: Time): (Guard, bool) {
    if Find(g.backoff, k).Some? && now < Find(g.backoff, k).value then (g, false)
    else
      var g' := g.(backoff := Without(g.backoff, k));
      if k in g.regenerating then (g', false)
      else (g'.(regenerating := g.regenerating + {k}), true)
  }

  function Record(g: Guard, maxsize: nat, k: Key, until: Time): Guard {
    g.(backoff := Trim(Store(g.backoff, k, until), maxsize))
  }

  function Release(g: Guard, k: Key): Guard {
    g.(regenerating := g.regenerating - {k})
  }

  class RevalidationGuard {
    var backoff: Odict<Key, Time>
    var regenerating: set<Key>
    const maxsize: nat

    ghost predicate Valid()
      reads this
    {
      Distinct(backoff) && |backoff| <= maxsize
    }

    ghost function View(): Guard
      reads this
    {
      Guard(backoff, regenerating)
    }

    constructor (maxsize: nat)
      ensures Valid() && View() == Guard([], {}) && this.maxsize == maxsize
    {
      this.maxsize := maxsize;
      backoff := [];
      regenerating := {};
    }

    method TryReserve(k: Key, now: Time) returns (reserved: bool)
      requires Valid()
      modifies this
      ensures Valid() && (View(), reserved) == Reserve(old(View()), k, now)
    {
      var until := Find(backoff, k);
      if until.Some? {
        if now < until.value {
          return false;
        }
        backoff := Without(backoff, k);
      }
      if k in regenerating {
        return false;
      }
      regenerating := regenerating + {k};
      return true;
    }

    method RecordBackoff(k: Key, until: Time)
      requires Valid()
      modifies this`backoff
      ensures Valid() && View() == Record(old(View()), maxsize, k, until)
    {
      AssignThenMove(backoff, k, until);
      StoreDistinct(backoff, k, until);
      ghost var stored := Store(backoff, k, until);
      backoff := Assign(backoff, k, until);
      backoff := MoveToEnd(backoff, k);
      while |backoff| > maxsize
        invariant Distinct(backoff) && Trim(backoff, maxsize) == Trim(stored, maxsize)
        decreases |backoff|
      {
        DropOldest(backoff, k);
        backoff := backoff[1..];
      }
    }

    method Discard(k: Key)
      requires Valid()
      modifies this`regenerating
      ensures Valid() && View() == Release(old(View()), k)
    {
      regenerating := regenerating - {k};
    }
  }

  // The machine: one step per locked block, clock reading, factory call or write

  datatype Stage =
    | Reserved                            // key reserved, job not yet submitted
    | Running                             // submitted; the factory has not finished
    | Writing(value: Value)               // about to write to the inner cache
    | Failed(error: Exc)                  // about to read the clock
    | Recording(error: Exc, until: Time)  // about to record the backoff
    | Hooking(error: Exc)                 // about to call the error hook
    | Releasing                           // about to release the key
    | Finished

  datatype Job = Job(key: Key, stage: Stage)

  datatype Config = Config(maxsize: nat, wait: Time)

  /** `clock` is the latest reading of the monotonic clock. `holder` and `records` only
      remember: the job holding each key, and every backoff recorded, in order. */
  datatype State = State(guard: Guard, jobs: seq<Job>, clock: Time,
                         holder: map<Key, nat>, records: seq<(Key, Time)>)

  datatype Label =
    | ReadClock(t: Time)
    | TakeReserve(key: Key, now: Time)
    | Submit(j: nat)
    | RunFactory(j: nat, out: Outcome)
    | Write(j: nat, failure: Option<Exc>)
    | ReadUntil(j: nat, t: Time)
    | RecordStep(j: nat)
    | Hook(j: nat)
    | ReleaseStep(j: nat)

  function Start(clock: Time): State {
    State(Guard([], {}), [], clock, map[], [])
  }

  predicate Enabled(s: State, l: Label) {
    match l
    case ReadClock(t) => t >= s.clock
    case TakeReserve(k, now) => now <= s.clock
    case Submit(j) => j < |s.jobs| && s.jobs[j].stage.Reserved?
    case RunFactory(j, _) => j < |s.jobs| && s.jobs[j].stage.Running?
    case Write(j, _) => j < |s.jobs| && s.jobs[j].stage.Writing?
    case ReadUntil(j, t) => j < |s.jobs| && s.jobs[j].stage.Failed? && t >= s.clock
    case RecordStep(j) => j < |s.jobs| && s.jobs[j].stage.Recording?
    case Hook(j) => j < |s.jobs| && s.jobs[j].stage.Hooking?
    case ReleaseStep(j) => j < |s.jobs| && s.jobs[j].stage.Releasing?
  }

  function Move(s: State, j: nat, stage: Stage): State
    requires j < |s.jobs|
  {
    s.(jobs := s.jobs[j := s.jobs[j].(stage := stage)])
  }

  function Next(c: Config, s: State, l: Label): State
    requires Enabled(s, l)
  {
    match l
    case ReadClock(t) => s.(clock := t)
    case TakeReserve(k, now) =>
      var (g, ok) := Reserve(s.guard, k, now);
      if ok then
        s.(guard := g, jobs := s.jobs + [Job(k, Reserved)], holder := s.holder[k := |s.jobs|])
      else s.(guard := g)
    case Submit(j) => Move(s, j, Running)
    case RunFactory(j, Returns(v)) => Move(s, j, Writing(v))
    case RunFactory(j, Raises(e)) => Move(s, j, Failed(e))
    case Write(j, None) => Move(s, j, Releasing)
    case Write(j, Some(e)) => Move(s, j, Failed(e))
    case ReadUntil(j, t) => Move(s, j, Recording(s.jobs[j].stage.error, t + c.wait)).(clock := t)
    case RecordStep(j) =>
      var k, until := s.jobs[j].key, s.jobs[j].stage.until;
      Move(s, j, Hooking(s.jobs[j].stage.error))
        .(guard := Record(s.guard, c.maxsize, k, until), records := s.records + [(k, until)])
    case Hook(j) => Move(s, j, Releasing)
    case ReleaseStep(j) =>
      var k := s.jobs[j].key;
      Move(s, j, Finished).(guard := Release(s.guard, k), holder := s.holder - {k})
  }

  // Each regenerating key is held by exactly one unfinished job

  ghost predicate HolderInv(s: State) {
    && s.holder.Keys == s.guard.regenerating
    && (forall k | k in s.holder ::
          && s.holder[k] < |s.jobs|
          && s.jobs[s.holder[k]].key == k && !s.jobs[s.holder[k]].stage.Finished?)
    && (forall j | 0 <= j < |s.jobs| && !s.jobs[j].stage.Finished? ::
          s.jobs[j].key in s.holder && s.holder[s.jobs[j].key] == j)
  }

  lemma HolderStep(c: Config, s: State, l: Label)
    requires HolderInv(s) && Enabled(s, l)
    ensures HolderInv(Next(c, s, l))
  {
    match l
    case ReadClock(t) =>
    case TakeReserve(k, now) => HolderReserve(c, s, k, now);
    case ReleaseStep(j) => HolderRelease(c, s, j);
    case Submit(j) => HolderMove(s, j, Running);
    case RunFactory(j, Returns(v)) => HolderMove(s, j, Writing(v));
    case RunFactory(j, Raises(e)) => HolderMove(s, j, Failed(e));
    case Write(j, None) => HolderMove(s, j, Releasing);
    case Write(j, Some(e)) => HolderMove(s, j, Failed(e));
    case ReadUntil(j, t) => HolderMove(s, j, Recording(s.jobs[j].stage.error, t + c.wait));
    case RecordStep(j) => HolderMove(s, j, Hooking(s.jobs[j].stage.error));
    case Hook(j) => HolderMove(s, j, Releasing);
  }

  lemma HolderMove(s: State, j: nat, stage: Stage)
    requires HolderInv(s) && j < |s.jobs| && !s.jobs[j].stage.Finished? && !stage.Finished?
    ensures HolderInv(Move(s, j, stage))
  {
  }

  lemma HolderReserve(c: Config, s: State, k: Key, now: Time)
    requires HolderInv(s) && Enabled(s, TakeReserve(k, now))
    ensures HolderInv(Next(c, s, TakeReserve(k, now)))
  {
  }

  lemma HolderRelease(c: Config, s: State, j: nat)
    requires HolderInv(s) && Enabled(s, ReleaseStep(j))
    ensures HolderInv(Next(c, s, ReleaseStep(j)))
  {
    assert s.holder[s.jobs[j].key] == j;
  }

  /** At most one revalidation per key: two unfinished jobs for a key are the same job. */
  lemma OneJobPerKey(s: State, i: nat, j: nat)
    requires HolderInv(s) && i < |s.jobs| && j < |s.jobs|
    requires s.jobs[i].key == s.jobs[j].key
    requires !s.jobs[i].stage.Finished? && !s.jobs[j].stage.Finished?
    ensures i == j
  {
    assert s.holder[s.jobs[i].key] == i;
  }

  // Conservation: jobs submitted, finished and still holding the key

  function IsReserved(k: Key): Job -> nat {
    (j: Job) => if j.key == k && j.stage.Reserved? then 1 else 0
  }

  function IsSubmitted(k: Key): Job -> nat {
    (j: Job) => if j.key == k && !j.stage.Reserved? then 1 else 0
  }

  function IsFinished(k: Key): Job -> nat {
    (j: Job) => if j.key == k && j.stage.Finished? then 1 else 0
  }

  function IsLive(k: Key): Job -> nat {
    (j: Job) => if j.key == k && !j.stage.Finished? then 1 else 0
  }

  lemma {:induction false} CountSplit(jobs: seq<Job>, k: Key)
    ensures Sum(jobs, IsReserved(k)) + Sum(jobs, IsSubmitted(k)) ==
            Sum(jobs, IsFinished(k)) + Sum(jobs, IsLive(k))
  {
    if jobs != [] {
      CountSplit(jobs[1..], k);
    }
  }

  /** Reservations made minus jobs finished is one while the key is regenerating, else zero. */
  lemma Conservation(s: State, k: Key)
    requires HolderInv(s)
    ensures Sum(s.jobs, IsReserved(k)) + Sum(s.jobs, IsSubmitted(k)) ==
            Sum(s.jobs, IsFinished(k)) + (if k in s.guard.regenerating then 1 else 0)
  {
    CountSplit(s.jobs, k);
    SumAtMostOne(s.jobs, IsLive(k), if k in s.holder then s.holder[k] else -1);
  }

  // Backoff safety

  ghost predicate ClockInv(c: Config, s: State) {
    && Distinct(s.guard.backoff) && |s.guard.backoff| <= c.maxsize
    && (forall k | k in Keys(s.guard.backoff) :: Find(s.guard.backoff, k).value <= s.clock + c.wait)
    && (forall j | 0 <= j < |s.jobs| && s.jobs[j].stage.Recording? ::
          NotBefore(s, s.jobs[j].key, s.jobs[j].stage.until, c))
  }

  /** A pending `until` is at least the one already recorded for its key. */
  ghost predicate NotBefore(s: State, k: Key, until: Time, c: Config) {
    && until <= s.clock + c.wait
    && (k in Keys(s.guard.backoff) ==> Find(s.guard.backoff, k).value <= until)
  }

  lemma RecordFacts(g: Guard, maxsize: nat, k: Key, until: Time, x: Key)
    requires Distinct(g.backoff) && |g.backoff| <= maxsize
    ensures var b := Record(g, maxsize, k, until).backoff;
            && Distinct(b) && |b| <= maxsize
            && (x in Keys(b) ==>
                  && (x == k || x in Keys(g.backoff))
                  && Find(b, x) == (if x == k then Some(until) else Find(g.backoff, x))
                  && After(b, x) == (if x == k then {} else After(g.backoff, x) + {k}))
            && (x !in Keys(b) && (x == k || x in Keys(g.backoff)) ==>
                  if x == k then maxsize == 0
                  else |After(g.backoff, x) + {k}| == maxsize)
  {
    var s := Store(g.backoff, k, until);
    StoreDistinct(g.backoff, k, until);
    StoreFind(g.backoff, k, until, x);
    TrimOne(s, maxsize);
    if |s| > maxsize {
      assert k !in Keys(g.backoff);
      assert s[0] == (g.backoff + [Entry(k, until)])[0];
      DropOldest(s, x);
      KeysSize(s);
      if x == s[0].key && x != k {
        assert After(s, x) == Keys(s) - {x};
        assert |Keys(s) - {x}| == maxsize;
      }
    }
  }

  lemma ReserveFacts(g: Guard, k: Key, now: Time, x: Key)
    requires Distinct(g.backoff)
    ensures var b := Reserve(g, k, now).0.backoff;
            && Distinct(b) && |b| <= |g.backoff|
            && (x in Keys(b) ==> x in Keys(g.backoff) && Find(b, x) == Find(g.backoff, x)
                                 && After(b, x) <= After(g.backoff, x))
            && (x in Keys(g.backoff) && x !in Keys(b) ==> now >= Find(g.backoff, x).value)
  {
    if x != k {
      FindWithout(g.backoff, k, x);
    }
  }

  lemma ClockStep(c: Config, s: State, l: Label)
    requires HolderInv(s) && ClockInv(c, s) && Enabled(s, l)
    ensures ClockInv(c, Next(c, s, l))
  {
    match l
    case TakeReserve(k, now) => ClockStepReserve(c, s, k, now);
    case RecordStep(j) => ClockStepRecord(c, s, j);
    case _ =>
  }

  lemma ClockStepReserve(c: Config, s: State, k: Key, now: Time)
    requires HolderInv(s) && ClockInv(c, s) && Enabled(s, TakeReserve(k, now))
    ensures ClockInv(c, Next(c, s, TakeReserve(k, now)))
  {
    var s' := Next(c, s, TakeReserve(k, now));
    forall x: Key
      ensures x in Keys(s'.guard.backoff) ==>
                x in Keys(s.guard.backoff) && Find(s'.guard.backoff, x) == Find(s.guard.backoff, x)
      ensures Distinct(s'.guard.backoff) && |s'.guard.backoff| <= c.maxsize
    {
      ReserveFacts(s.guard, k, now, x);
    }
  }

  lemma ClockStepRecord(c: Config, s: State, j: nat)
    requires HolderInv(s) && ClockInv(c, s) && Enabled(s, RecordStep(j))
    ensures ClockInv(c, Next(c, s, RecordStep(j)))
  {
    var s' := Next(c, s, RecordStep(j));
    var k, until := s.jobs[j].key, s.jobs[j].stage.until;
    assert NotBefore(s, k, until, c);
    RecordFacts(s.guard, c.maxsize, k, until, k);
    forall x | x in Keys(s'.guard.backoff)
      ensures Find(s'.guard.backoff, x).value <= s'.clock + c.wait
    {
      RecordFacts(s.guard, c.maxsize, k, until, x);
    }
    forall i | 0 <= i < |s'.jobs| && s'.jobs[i].stage.Recording?
      ensures NotBefore(s', s'.jobs[i].key, s'.jobs[i].stage.until, c)
    {
      assert s'.jobs[i] == s.jobs[i];
      if s.jobs[i].key == k {
        OneJobPerKey(s, i, j);
      }
      RecordFacts(s.guard, c.maxsize, k, until, s.jobs[i].key);
    }
  }

  /** The distinct keys other than `records[n]`'s that recorded a failure after it. */
  function OthersSince(records: seq<(Key, Time)>, n: nat): set<Key>
    requires n < |records|
  {
    (set i | n < i < |records| :: records[i].0) - {records[n].0}
  }

  /** Record `n` still counts: its time has come, or the table holds it (or a later one for
      its key), or enough other keys failed since to push it out. */
  ghost predicate StillCounts(c: Config, s: State, n: nat)
    requires n < |s.records|
  {
    var (k, until) := s.records[n];
    || s.clock >= until
    || |OthersSince(s.records, n)| >= c.maxsize
    || (&& k in Keys(s.guard.backoff)
        && Find(s.guard.backoff, k).value >= until
        && After(s.guard.backoff, k) <= OthersSince(s.records, n))
  }

  ghost predicate BackoffInv(c: Config, s: State) {
    forall n | 0 <= n < |s.records| :: StillCounts(c, s, n)
  }

  lemma BackoffStep(c: Config, s: State, l: Label)
    requires HolderInv(s) && ClockInv(c, s) && BackoffInv(c, s) && Enabled(s, l)
    ensures BackoffInv(c, Next(c, s, l))
  {
    var s' := Next(c, s, l);
    if l.RecordStep? {
      forall n | 0 <= n < |s'.records|
        ensures StillCounts(c, s', n)
      {
        BackoffStepRecord(c, s, l.j, n);
      }
    } else {
      SameRecords(c, s, l);
      forall n | 0 <= n < |s'.records|
        ensures StillCounts(c, s', n)
      {
        assert StillCounts(c, s, n);
        if l.TakeReserve? {
          ReserveFacts(s.guard, l.key, l.now, s.records[n].0);
        }
      }
    }
  }

  lemma SameRecords(c: Config, s: State, l: Label)
    requires Enabled(s, l) && !l.RecordStep?
    ensures Next(c, s, l).records == s.records && Next(c, s, l).clock >= s.clock
    ensures Next(c, s, l).guard.backoff ==
            if l.TakeReserve? then Reserve(s.guard, l.key, l.now).0.backoff else s.guard.backoff
  {
  }

  lemma BackoffStepRecord(c: Config, s: State, j: nat, n: nat)
    requires HolderInv(s) && ClockInv(c, s) && BackoffInv(c, s) && Enabled(s, RecordStep(j))
    requires n <= |s.records|
    ensures StillCounts(c, Next(c, s, RecordStep(j)), n)
  {
    if n == |s.records| {
      var k, until := s.jobs[j].key, s.jobs[j].stage.until;
      assert NotBefore(s, k, until, c);
      RecordFacts(s.guard, c.maxsize, k, until, k);
    } else {
      EarlierStillCounts(c, s, j, n);
    }
  }

  lemma EarlierStillCounts(c: Config, s: State, j: nat, n: nat)
    requires HolderInv(s) && ClockInv(c, s) && BackoffInv(c, s) && Enabled(s, RecordStep(j))
    requires n < |s.records|
    ensures StillCounts(c, Next(c, s, RecordStep(j)), n)
  {
    var s' := Next(c, s, RecordStep(j));
    var x, k, until := s.records[n].0, s.jobs[j].key, s.jobs[j].stage.until;
    var before, now := OthersSince(s.records, n), OthersSince(s'.records, n);
    OthersGrow(s.records, n, k, until);
    assert StillCounts(c, s, n) && NotBefore(s, k, until, c);
    RecordFacts(s.guard, c.maxsize, k, until, x);
    SubsetSize(before, now);
    if x != k && x in Keys(s.guard.backoff) && After(s.guard.backoff, x) <= before {
      SubsetSize(After(s.guard.backoff, x) + {k}, now);
    }
  }

  lemma OthersGrow(records: seq<(Key, Time)>, n: nat, k: Key, until: Time)
    requires n < |records|
    ensures OthersSince(records + [(k, until)], n) == OthersSince(records, n) + ({k} - {records[n].0})
  {
    var now := records + [(k, until)];
    assert now[|records|] == (k, until);
    assert forall i | n < i < |records| :: now[i] == records[i];
  }

  /** After a failed revalidation of `k` recorded `until`, a reservation of `k` made while
      the clock is still below `until` means `maxsize` distinct other keys failed since:
      whatever stale clock reading the reserving caller brought to the lock. */
  lemma BackoffSafety(c: Config, s: State, n: nat, now: Time)
    requires BackoffInv(c, s) && n < |s.records| && Enabled(s, TakeReserve(s.records[n].0, now))
    requires s.clock < s.records[n].1
    requires Reserve(s.guard, s.records[n].0, now).1
    ensures |OthersSince(s.records, n)| >= c.maxsize
  {
    assert StillCounts(c, s, n);
  }

  /** Every backoff in the table was recorded. */
  ghost predicate RecordedInv(s: State) {
    forall k | k in Keys(s.guard.backoff) :: (k, Find(s.guard.backoff, k).value) in s.records
  }

  lemma RecordedStep(c: Config, s: State, l: Label)
    requires ClockInv(c, s) && RecordedInv(s) && Enabled(s, l)
    ensures RecordedInv(Next(c, s, l))
  {
    var s' := Next(c, s, l);
    forall x | x in Keys(s'.guard.backoff) ensures (x, Find(s'.guard.backoff, x).value) in s'.records {
      match l
      case TakeReserve(k, now) => ReserveFacts(s.guard, k, now, x);
      case RecordStep(j) => RecordFacts(s.guard, c.maxsize, s.jobs[j].key, s.jobs[j].stage.until, x);
      case _ =>
    }
  }

  ghost predicate Inv(c: Config, s: State) {
    HolderInv(s) && ClockInv(c, s) && BackoffInv(c, s) && RecordedInv(s)
  }

  lemma InvStart(c: Config, clock: Time)
    ensures Inv(c, Start(clock))
  {
  }

  lemma InvStep(c: Config, s: State, l: Label)
    requires Inv(c, s) && Enabled(s, l)
    ensures Inv(c, Next(c, s, l))
  {
    HolderStep(c, s, l);
    ClockStep(c, s, l);
    BackoffStep(c, s, l);
    RecordedStep(c, s, l);
  }
}
