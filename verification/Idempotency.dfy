/** The in-memory idempotency store: a key's work is started at most once, whatever is delivered again. */
module Idempotency {
  import opened WorkflowTypes

  /** What a caller of `run` gets at once: the stored result, the promise of a call under way, or a new call. */
  datatype Delivery = Stored(result: NodeResult) | Joined | Called

  class InMemoryIdempotencyStore {
    var completed: map<string, NodeResult>
    var inFlight: set<string>
    /** The keys whose work was started here, in order. */
    ghost var calls: seq<string>

    /** Every started key is remembered as resolved or in flight, and none was started twice. */
    ghost predicate Valid()
      reads this
    {
      && (forall i, j | 0 <= i < j < |calls| :: calls[i] != calls[j])
      && (forall k | k in calls :: k in completed || k in inFlight)
      && (forall k | k in inFlight :: k in calls)
    }

    constructor ()
      ensures Valid() && completed == map[] && inFlight == {} && calls == []
    {
      completed, inFlight, calls := map[], {}, [];
    }

    /** Up to the first await: `fn` is called only for a key that is neither resolved nor in flight. */
    method Run(key: string) returns (d: Delivery)
      requires Valid()
      modifies this
      ensures Valid() && completed == old(completed)
      ensures key in old(completed) ==> d == Stored(old(completed)[key])
      ensures key !in old(completed) && key in old(inFlight) ==> d == Joined
      ensures d.Called? <==> key !in old(completed) && key !in old(inFlight)
      ensures calls == (if d.Called? then old(calls) + [key] else old(calls))
      ensures inFlight == (if d.Called? then old(inFlight) + {key} else old(inFlight))
    {
      if key in completed { return Stored(completed[key]); }
      if key in inFlight { return Joined; }
      inFlight := inFlight + {key};
      calls := calls + [key];
      return Called;
    }

    /** The call under the key succeeded. A call that fails leaves its key in flight for ever. */
    method Resolve(key: string, result: NodeResult)
      requires Valid() && key in inFlight
      modifies this
      ensures Valid() && calls == old(calls)
      ensures completed == old(completed)[key := result] && inFlight == old(inFlight) - {key}
    {
      completed := completed[key := result];
      inFlight := inFlight - {key};
    }

    /** After a restart: a result taken from the log. */
    method SeedCompleted(key: string, result: NodeResult)
      requires Valid()
      modifies this
      ensures Valid() && calls == old(calls) && inFlight == old(inFlight)
      ensures completed == old(completed)[key := result]
    {
      completed := completed[key := result];
    }
  }

  datatype Occurrence = Deliver(key: string) | Succeed(key: string, result: NodeResult)

  /**
   Any sequence of deliveries and successes, in any order, starts each key at most once, starts only what was delivered,
   and leaves no delivered key unstarted and unresolved.
   */
  method Replay(store: InMemoryIdempotencyStore, occurrences: seq<Occurrence>)
    requires store.Valid() && store.calls == []
    modifies store
    ensures store.Valid()
    ensures forall i, j | 0 <= i < j < |store.calls| :: store.calls[i] != store.calls[j]
    ensures forall k | k in store.calls :: Deliver(k) in occurrences
    ensures forall k | Deliver(k) in occurrences :: k in store.calls || k in store.completed
  {
    var i := 0;
    while i < |occurrences|
      invariant 0 <= i <= |occurrences| && store.Valid()
      invariant forall k | k in store.calls :: Deliver(k) in occurrences[..i]
      invariant forall k | Deliver(k) in occurrences[..i] :: k in store.calls || k in store.completed
    {
      assert occurrences[..i + 1] == occurrences[..i] + [occurrences[i]];
      match occurrences[i] {
        case Deliver(key) =>
          var d := store.Run(key);
        case Succeed(key, result) =>
          if key in store.inFlight { store.Resolve(key, result); }
      }
      i := i + 1;
    }
    assert occurrences[..i] == occurrences;
  }
}
