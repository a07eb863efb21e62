/** `AsyncSingleFlight._block_and_create` (async_singleflight.py): the in-flight futures and
    the stretches between awaits that change them. A future is an index into `futures`. */
module AsyncFlight {
  import opened Basics

  datatype Flight = Flight(inflight: map<Key, nat>, futures: seq<Option<Outcome>>)

  function Join(f: Flight, k: Key): (r: (Flight, bool, nat))
    ensures r.1 <==> k in f.inflight
  {
    if k in f.inflight then (f, true, f.inflight[k])
    else (f.(inflight := f.inflight[k := |f.futures|], futures := f.futures + [None]), false, |f.futures|)
  }

  /** `fut.set_result` or `fut.set_exception`. */
  function Resolve(f: Flight, fut: nat, out: Outcome): Flight
    requires fut < |f.futures|
  {
    f.(futures := f.futures[fut := Some(out)])
  }

  function Pop(f: Flight, k: Key): Flight {
    f.(inflight := f.inflight - {k})
  }

  class AsyncSingleFlight {
    var inflight: map<Key, nat>
    var futures: seq<Option<Outcome>>

    ghost function View(): Flight
      reads this
    {
      Flight(inflight, futures)
    }

    constructor ()
      ensures View() == Flight(map[], [])
    {
      inflight, futures := map[], [];
    }

    method JoinOrLead(k: Key) returns (wait: bool, fut: nat)
      modifies this
      ensures (View(), wait, fut) == Join(old(View()), k)
    {
      if k in inflight {
        fut := inflight[k];
        wait := true;
      } else {
        fut := |futures|;
        futures := futures + [None];
        inflight := inflight[k := fut];
        wait := false;
      }
    }

    /** Resolving a future twice is an InvalidStateError, hence the precondition. */
    method SetOutcome(fut: nat, out: Outcome)
      requires fut < |futures| && futures[fut] == None
      modifies this`futures
      ensures View() == Resolve(old(View()), fut, out)
    {
      futures := futures[fut := Some(out)];
    }

    method Leave(k: Key)
      modifies this`inflight
      ensures View() == Pop(old(View()), k)
    {
      inflight := inflight - {k};
    }
  }
}
