/** The `MemoryCache` behind a single-flight object or a decorator: what each step asks of it,
    and what its table holds because nobody else writes to it. */
module Backend {
  import opened Basics
  import opened OrderedDict
  import opened Memory
  import opened Retention
  import opened Runs
  import Front
  import Policy
  import Revalidation

  datatype Access = Nothing | Read(key: Key) | Write(key: Key, slot: Slot<Value>)

  function Accessed(table: Table<Key, Value>, maxsize: nat, a: Access, now: Time): Table<Key, Value> {
    match a
    case Nothing => table
    case Read(k) => Looked(table, k, now)
    case Write(k, slot) => Put(table, maxsize, k, slot)
  }

  function LookupIn(table: Table<Key, Value>, k: Key, now: Time): Front.Lookup {
    match EnvelopeAt(table, k, now)
    case None => Front.Miss
    case Some(env) => Front.Found(env)
  }

  /** The entry a write on behalf of caller `i` makes. */
  function SlotFor(f: Front.State, i: nat, v: Value, now: Time): Slot<Value> {
    if i < |f.callers| then MakeSlot(v, f.callers[i].call.ttl, f.callers[i].call.softTtl, now)
    else MakeSlot(v, None, None, now)
  }

  /** What a step of the shared half asks: a lookup, or a background job's write. */
  function FrontAccess(f: Front.State, l: Front.Label, now: Time): Access
    requires Front.Enabled(f, l)
  {
    match l
    case LookUp(i, _) => Read(f.callers[i].call.key)
    case JobStep(Write(j, _)) =>
      var i := if j < |f.scheduler| then f.scheduler[j] else 0;
      Write(f.reval.jobs[j].key, SlotFor(f, i, f.reval.jobs[j].stage.value, now))
    case _ => Nothing
  }

  /** The cache answers from its table, and its `set` does not raise. */
  predicate Answers(table: Table<Key, Value>, f: Front.State, l: Front.Label, now: Time)
    requires Front.Enabled(f, l)
  {
    match l
    case LookUp(i, out) => out == LookupIn(table, f.callers[i].call.key, now)
    case JobStep(Write(j, failure)) => failure == None
    case _ => true
  }

  /** An entry was written by some call, and expires `ttl` after its creation (None: nothing is
      said of that). */
  predicate SlotOk(written: set<(Key, Value)>, ttl: Option<Time>, k: Key, slot: Slot<Value>) {
    && (k, slot.stored.Payload()) in written
    && (ttl.Some? && slot.stored.Wrapped? ==>
          slot.hardAt == Some(slot.stored.env.createdAt + ttl.value))
  }

  ghost predicate TableOk(table: Table<Key, Value>, maxsize: nat, written: set<(Key, Value)>, ttl: Option<Time>) {
    && Distinct(table) && |table| <= maxsize
    && (forall k | k in Keys(table) :: SlotOk(written, ttl, k, Find(table, k).value))
  }

  lemma AccessKeeps(table: Table<Key, Value>, maxsize: nat, a: Access, now: Time,
                    written: set<(Key, Value)>, written': set<(Key, Value)>, ttl: Option<Time>)
    requires maxsize >= 1 && TableOk(table, maxsize, written, ttl) && written <= written'
    requires a.Write? ==> SlotOk(written', ttl, a.key, a.slot)
    ensures TableOk(Accessed(table, maxsize, a, now), maxsize, written', ttl)
  {
    match a
    case Nothing =>
    case Read(k) =>
      LookedFacts(table, k, now, k);
      forall x | x in Keys(Looked(table, k, now))
        ensures SlotOk(written', ttl, x, Find(Looked(table, k, now), x).value)
      {
        LookedFacts(table, k, now, x);
      }
    case Write(k, slot) =>
      PutFacts(table, maxsize, k, slot, k);
      forall x | x in Keys(Put(table, maxsize, k, slot))
        ensures SlotOk(written', ttl, x, Find(Put(table, maxsize, k, slot), x).value)
      {
        PutFacts(table, maxsize, k, slot, x);
      }
  }

  /** All calls use the hard TTL `ttl`, if it is given. */
  ghost predicate SameTtl(calls: seq<Front.Call>, ttl: Option<Time>) {
    ttl.Some? ==> forall i | 0 <= i < |calls| :: calls[i].ttl == ttl
  }

  ghost predicate CallsKept(calls: seq<Front.Call>, f: Front.State) {
    |f.callers| == |calls| && forall i | 0 <= i < |calls| :: f.callers[i].call == calls[i]
  }

  lemma KeptMoves(c: Revalidation.Config, calls: seq<Front.Call>, f: Front.State, l: Option<Front.Label>,
                  f': Front.State)
    requires Front.Moves(c, f, l, f') && CallsKept(calls, f)
    ensures CallsKept(calls, f') && f.written <= f'.written
  {
    Policy.CallersMove(c, f, l, f');
  }

  /** What a job writes is remembered, and expires as its scheduler asked. */
  lemma FrontWriteOk(c: Revalidation.Config, calls: seq<Front.Call>, ttl: Option<Time>,
                     f: Front.State, l: Front.Label, now: Time)
    requires Front.Inv(c, f) && Front.Enabled(f, l) && SameTtl(calls, ttl) && CallsKept(calls, f)
    requires FrontAccess(f, l, now).Write?
    ensures var a := FrontAccess(f, l, now); SlotOk(Front.Next(c, f, l).written, ttl, a.key, a.slot)
  {
    assert Front.ScheduledBy(f, l.l.j);
  }

  lemma FoundWasWritten(table: Table<Key, Value>, maxsize: nat, written: set<(Key, Value)>, ttl: Option<Time>,
                        k: Key, now: Time, env: Envelope<Value>)
    requires TableOk(table, maxsize, written, ttl) && EnvelopeAt(table, k, now) == Some(env)
    ensures (k, env.value) in written && (ttl.Some? ==> now - env.createdAt < ttl.value)
  {
    assert SlotOk(written, ttl, k, Find(table, k).value);
  }

  // In the labels' own terms

  /** The key a step of the shared half looks up. */
  function KeyLooked(f: Front.State, l: Option<Front.Label>): Option<Key> {
    match l
    case Some(LookUp(i, _)) => if i < |f.callers| then Some(f.callers[i].call.key) else None
    case _ => None
  }

  /** The key whose background job writes in a step of the shared half. */
  function KeyWritten(f: Front.State, l: Option<Front.Label>): Option<Key> {
    match l
    case Some(JobStep(Write(j, _))) => if j < |f.reval.jobs| then Some(f.reval.jobs[j].key) else None
    case _ => None
  }

  /** When what `call` wrote at `wrote` expires, if ever. */
  function Expiry(call: Front.Call, wrote: Time): Option<Time> {
    if call.ttl.Some? then Some(wrote + call.ttl.value) else None
  }

  /** What a lookup at `now` finds of the value `v` that `call` wrote at `wrote`, if it is still held. */
  function FoundAfter(call: Front.Call, v: Value, wrote: Time, now: Time): Front.Lookup {
    if call.softTtl == None || (call.ttl.Some? && now >= wrote + call.ttl.value) then Front.Miss
    else Front.Found(Envelope(v, wrote, call.softTtl.value))
  }

  /** The table has just been made to hold, for `k`, the value `v` that `call` wrote at `wrote`. */
  predicate JustStored(table: Table<Key, Value>, k: Key, call: Front.Call, v: Value, wrote: Time) {
    Find(table, k) == Some(MakeSlot(v, call.ttl, call.softTtl, wrote)) && After(table, k) == {}
  }

  lemma FindsSlot(table: Table<Key, Value>, k: Key, call: Front.Call, v: Value, wrote: Time, now: Time)
    requires Find(table, k).Some? ==> Find(table, k) == Some(MakeSlot(v, call.ttl, call.softTtl, wrote))
    ensures LookupIn(table, k, now) ==
            if Find(table, k).Some? then FoundAfter(call, v, wrote, now) else Front.Miss
  {
  }

  lemma StoredByPut(table: Table<Key, Value>, maxsize: nat, call: Front.Call, v: Value, wrote: Time)
    requires maxsize >= 1 && Distinct(table) && |table| <= maxsize
    ensures var slot := MakeSlot(v, call.ttl, call.softTtl, wrote);
            JustStored(Put(table, maxsize, call.key, slot), call.key, call, v, wrote)
  {
    PutFacts(table, maxsize, call.key, MakeSlot(v, call.ttl, call.softTtl, wrote), call.key);
  }

  /** What a job writes is what its scheduler asked for. */
  lemma JobAccess(c: Revalidation.Config, f: Front.State, j: nat, failure: Option<Exc>, now: Time)
    requires Front.Inv(c, f) && Front.Enabled(f, Front.JobStep(Revalidation.Write(j, failure)))
    ensures j < |f.scheduler| && f.scheduler[j] < |f.callers|
    ensures var call := f.callers[f.scheduler[j]].call;
            FrontAccess(f, Front.JobStep(Revalidation.Write(j, failure)), now) ==
            Access.Write(call.key, MakeSlot(f.reval.jobs[j].stage.value, call.ttl, call.softTtl, now))
  {
    assert Front.ScheduledBy(f, j);
  }

  // Over runs of a machine with such a cache

  /** Unwritten since, a lookup finds it or misses. */
  lemma FoundOrMissed<S(!new), L(!new)>(m: Machine<S, L>, inv: S -> bool, t: Watch<S, L, Key, Value>, maxsize: nat,
                                        run: seq<L>, p: nat, n: nat, k: Key, call: Front.Call, v: Value)
    requires Watches(m, inv, t, maxsize) && Valid(m, run) && p < n < |run|
    requires JustStored(t.table(At(m, run, p + 1)), k, call, v, t.now(run[p])) && Unwritten(m, t, run, p + 1, n, k)
    ensures LookupIn(t.table(At(m, run, n)), k, t.now(run[n])) in
            {FoundAfter(call, v, t.now(run[p]), t.now(run[n])), Front.Miss}
  {
    HeldBefore(m, inv, t, maxsize, run, p + 1, n, k);
    FindsSlot(t.table(At(m, run, n)), k, call, v, t.now(run[p]), t.now(run[n]));
  }

  /** From step `r`, the write itself or a lookup that found it, the entry is spared until `n`. */
  ghost predicate Kept<S, L>(m: Machine<S, L>, t: Watch<S, L, Key, Value>, maxsize: nat, run: seq<L>,
                             p: nat, r: nat, n: nat, k: Key, until: Option<Time>) {
    && p <= r < n < |run| && Spared(m, t, maxsize, run, r + 1, n, k, until)
    && (r > p ==> t.looks(At(m, run, r), run[r]) == Some(k)
                  && LookupIn(t.table(At(m, run, r)), k, t.now(run[r])).Found?)
  }

  lemma FoundWhenKept<S(!new), L(!new)>(m: Machine<S, L>, inv: S -> bool, t: Watch<S, L, Key, Value>, maxsize: nat,
                                        run: seq<L>, p: nat, r: nat, n: nat, k: Key, call: Front.Call, v: Value)
    requires Watches(m, inv, t, maxsize) && Valid(m, run) && p < n < |run|
    requires JustStored(t.table(At(m, run, p + 1)), k, call, v, t.now(run[p])) && Unwritten(m, t, run, p + 1, n, k)
    requires Kept(m, t, maxsize, run, p, r, n, k, Expiry(call, t.now(run[p])))
    ensures LookupIn(t.table(At(m, run, n)), k, t.now(run[n])) == FoundAfter(call, v, t.now(run[p]), t.now(run[n]))
  {
    StillHeld(m, inv, t, maxsize, run, p, r, n, k, MakeSlot(v, call.ttl, call.softTtl, t.now(run[p])));
    FindsSlot(t.table(At(m, run, n)), k, call, v, t.now(run[p]), t.now(run[n]));
  }
}
