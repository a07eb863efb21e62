/** `SingleFlight._block_and_create` (singleflight.py): the fields behind the lock and the
    locked blocks that change them. A `threading.Event` is an index into `isSet`. */
module SyncFlight {
  import opened Basics

  datatype Flight = Flight(inflight: map<Key, nat>, isSet: seq<bool>,
                           results: map<Key, Value>, errors: map<Key, Exc>)

  /** Join the event in flight for `k`, or register a new one and lead. */
  function Join(f: Flight, k: Key): (r: (Flight, bool, nat))
    ensures r.1 <==> k in f.inflight
  {
    if k in f.inflight then (f, true, f.inflight[k])
    else (f.(inflight := f.inflight[k := |f.isSet|], isSet := f.isSet + [false]), false, |f.isSet|)
  }

  /** A woken waiter takes the stored error, else the stored result, else nothing. */
  function Collect(f: Flight, k: Key): (Flight, Option<Outcome>) {
    if k in f.errors then (f.(errors := f.errors - {k}), Some(Raises(f.errors[k])))
    else if k in f.results then (f.(results := f.results - {k}), Some(Returns(f.results[k])))
    else (f, None)
  }

  /** The leader stores its outcome, sets its event and leaves. */
  function Publish(f: Flight, k: Key, ev: nat, out: Outcome): Flight
    requires ev < |f.isSet|
  {
    var f' := f.(isSet := f.isSet[ev := true], inflight := f.inflight - {k});
    match out
    case Returns(v) => f'.(results := f.results[k := v])
    case Raises(e) => f'.(errors := f.errors[k := e])
  }

  class SingleFlight {
    var inflight: map<Key, nat>
    var isSet: seq<bool>
    var results: map<Key, Value>
    var errors: map<Key, Exc>

    ghost function View(): Flight
      reads this
    {
      Flight(inflight, isSet, results, errors)
    }

    constructor ()
      ensures View() == Flight(map[], [], map[], map[])
    {
      inflight, isSet, results, errors := map[], [], map[], map[];
    }

    method JoinOrLead(k: Key) returns (wait: bool, event: nat)
      modifies this
      ensures (View(), wait, event) == Join(old(View()), k)
    {
      if k in inflight {
        event := inflight[k];
        wait := true;
      } else {
        event := |isSet|;
        isSet := isSet + [false];
        inflight := inflight[k := event];
        wait := false;
      }
    }

    method Take(k: Key) returns (got: Option<Outcome>)
      modifies this
      ensures (View(), got) == Collect(old(View()), k)
    {
      if k in errors {
        var e := errors[k];
        errors := errors - {k};
        return Some(Raises(e));
      }
      if k in results {
        var v := results[k];
        results := results - {k};
        return Some(Returns(v));
      }
      return None;
    }

    method PublishError(k: Key, event: nat, e: Exc)
      requires event < |isSet|
      modifies this
      ensures View() == Publish(old(View()), k, event, Raises(e))
    {
      errors := errors[k := e];
      isSet := isSet[event := true];
      inflight := inflight - {k};
    }

    method PublishResult(k: Key, event: nat, v: Value)
      requires event < |isSet|
      modifies this
      ensures View() == Publish(old(View()), k, event, Returns(v))
    {
      results := results[k := v];
      isSet := isSet[event := true];
      inflight := inflight - {k};
    }
  }
}
