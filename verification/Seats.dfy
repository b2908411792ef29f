/** The seats workers hold in the bulkhead, and how its counters follow from them. */
module Seats {
  import opened WorkflowTypes
  import opened Bulkhead
  import opened Machine

  /** Whether a seat can be granted does not depend on the identifier of the run. */
  lemma {:induction false} AnyRunId(limits: Limits, g: seq<Node>, n: Id, a: string, b: string)
    ensures CanEverAdmit(limits, SlotOf(a, g, n)) <==> CanEverAdmit(limits, SlotOf(b, g, n))
  {}

  predicate Counts(runId: string, g: seq<Node>, w: Worker, dim: Dim, key: string) {
    w.Awaiting? && CountsUnder(SlotOf(runId, g, w.nodeId), dim, key)
  }

  /** How many workers hold a seat counted under a key. */
  function HoldersUnder(runId: string, g: seq<Node>, ws: seq<Worker>, dim: Dim, key: string): nat {
    if ws == [] then 0
    else HoldersUnder(runId, g, ws[..|ws| - 1], dim, key) + (if Counts(runId, g, ws[|ws| - 1], dim, key) then 1 else 0)
  }

  ghost predicate IdHeld(runId: string, g: seq<Node>, ws: seq<Worker>, id: string) {
    exists i :: 0 <= i < |ws| && ws[i].Awaiting? && SlotOf(runId, g, ws[i].nodeId).id == id
  }

  /** The counter is the number of workers holding such a seat, and within its cap. */
  predicate CounterOk(limits: Limits, c: Counters, runId: string, g: seq<Node>, ws: seq<Worker>, dim: Dim,
      key: string)
  {
    var holders := HoldersUnder(runId, g, ws, dim, key);
    ValueAt(CounterMap(c, dim), key) == holders && (holders > 0 ==> holders <= CapOf(limits, dim))
  }

  /** All counters are so, and whatever runs is held. */
  ghost predicate SeatsMatch(limits: Limits, c: Counters, runId: string, g: seq<Node>, ws: seq<Worker>) {
    && (forall dim, key :: CounterOk(limits, c, runId, g, ws, dim, key))
    && (forall id | id in c.running :: IdHeld(runId, g, ws, id))
  }

  lemma {:induction false} HoldersSet(runId: string, g: seq<Node>, ws: seq<Worker>, i: nat, w: Worker, dim: Dim,
      key: string)
    requires i < |ws|
    ensures HoldersUnder(runId, g, ws[i := w], dim, key) ==
            HoldersUnder(runId, g, ws, dim, key) - (if Counts(runId, g, ws[i], dim, key) then 1 else 0)
            + (if Counts(runId, g, w, dim, key) then 1 else 0)
  {
    hide Counts;
    var last := |ws| - 1;
    if i == last {
      assert ws[i := w][..last] == ws[..last];
    } else {
      assert ws[i := w][..last] == ws[..last][i := w];
      HoldersSet(runId, g, ws[..last], i, w, dim, key);
    }
  }

  lemma {:induction false} HoldersOne(runId: string, g: seq<Node>, ws: seq<Worker>, i: nat, dim: Dim, key: string)
    requires i < |ws| && Counts(runId, g, ws[i], dim, key)
    ensures HoldersUnder(runId, g, ws, dim, key) >= 1
  {
    if i < |ws| - 1 { HoldersOne(runId, g, ws[..|ws| - 1], i, dim, key); }
  }

  lemma {:induction false} TakenCounter(limits: Limits, c: Counters, runId: string, g: seq<Node>, ws: seq<Worker>,
      i: nat, n: Id, dim: Dim, key: string)
    requires CounterOk(limits, c, runId, g, ws, dim, key) && i < |ws| && !ws[i].Awaiting?
    requires !Refuses(limits, c, SlotOf(runId, g, n))
    ensures CounterOk(limits, Acquired(c, SlotOf(runId, g, n)), runId, g, ws[i := Awaiting(n)], dim, key)
  {
    hide Refuses, CountsUnder, SlotOf, CounterMap, HoldersUnder, Acquired, ValueAt;
    var slot := SlotOf(runId, g, n);
    HoldersSet(runId, g, ws, i, Awaiting(n), dim, key);
    AcquiredValue(c, slot, dim, key);
    if CountsUnder(slot, dim, key) { AdmittedBelowCap(limits, c, slot, dim, key); }
  }

  /** Taking a seat the bulkhead does not refuse. */
  lemma {:induction false} TakeSeat(limits: Limits, c: Counters, runId: string, g: seq<Node>, ws: seq<Worker>, i: nat,
      n: Id)
    requires SeatsMatch(limits, c, runId, g, ws) && i < |ws| && !ws[i].Awaiting?
    requires !Refuses(limits, c, SlotOf(runId, g, n))
    ensures SeatsMatch(limits, Acquired(c, SlotOf(runId, g, n)), runId, g, ws[i := Awaiting(n)])
  {
    hide Refuses, CounterOk, SlotOf, IdHeld;
    var d, next := Acquired(c, SlotOf(runId, g, n)), ws[i := Awaiting(n)];
    forall dim, key
      ensures CounterOk(limits, d, runId, g, next, dim, key)
    {
      TakenCounter(limits, c, runId, g, ws, i, n, dim, key);
    }
    forall id | id in Acquired(c, SlotOf(runId, g, n)).running
      ensures IdHeld(runId, g, ws[i := Awaiting(n)], id)
    {
      IdKept(runId, g, ws, i, n, id);
    }
  }

  lemma {:induction false} IdKept(runId: string, g: seq<Node>, ws: seq<Worker>, i: nat, n: Id, id: string)
    requires i < |ws| && !ws[i].Awaiting? && (IdHeld(runId, g, ws, id) || id == SlotOf(runId, g, n).id)
    ensures IdHeld(runId, g, ws[i := Awaiting(n)], id)
  {
    hide SlotOf;
    var next := ws[i := Awaiting(n)];
    if id == SlotOf(runId, g, n).id {
      assert next[i].Awaiting?;
    } else {
      var j :| 0 <= j < |ws| && ws[j].Awaiting? && SlotOf(runId, g, ws[j].nodeId).id == id;
      assert next[j] == ws[j];
    }
  }

  lemma {:induction false} LeftCounter(limits: Limits, c: Counters, runId: string, g: seq<Node>, ws: seq<Worker>,
      i: nat, w: Worker, dim: Dim, key: string)
    requires CounterOk(limits, c, runId, g, ws, dim, key) && i < |ws| && ws[i].Awaiting? && !w.Awaiting?
    ensures CounterOk(limits, Released(c, SlotOf(runId, g, ws[i].nodeId)), runId, g, ws[i := w], dim, key)
  {
    hide CountsUnder, SlotOf, CounterMap, HoldersUnder, Released, ValueAt;
    var slot := SlotOf(runId, g, ws[i].nodeId);
    HoldersSet(runId, g, ws, i, w, dim, key);
    if CountsUnder(slot, dim, key) { HoldersOne(runId, g, ws, i, dim, key); }
    ReleasedValue(c, slot, dim, key);
  }

  /** Giving a seat back. */
  lemma {:induction false} LeaveSeat(limits: Limits, c: Counters, runId: string, g: seq<Node>, ws: seq<Worker>, i: nat,
      w: Worker)
    requires SeatsMatch(limits, c, runId, g, ws) && i < |ws| && ws[i].Awaiting? && !w.Awaiting?
    ensures SeatsMatch(limits, Released(c, SlotOf(runId, g, ws[i].nodeId)), runId, g, ws[i := w])
  {
    hide CounterOk, SlotOf, IdHeld;
    var d, next := Released(c, SlotOf(runId, g, ws[i].nodeId)), ws[i := w];
    forall dim, key
      ensures CounterOk(limits, d, runId, g, next, dim, key)
    {
      LeftCounter(limits, c, runId, g, ws, i, w, dim, key);
    }
    forall id | id in Released(c, SlotOf(runId, g, ws[i].nodeId)).running
      ensures IdHeld(runId, g, ws[i := w], id)
    {
      IdLeft(runId, g, ws, i, w, id);
    }
  }

  lemma {:induction false} IdLeft(runId: string, g: seq<Node>, ws: seq<Worker>, i: nat, w: Worker, id: string)
    requires i < |ws| && ws[i].Awaiting? && IdHeld(runId, g, ws, id) && id != SlotOf(runId, g, ws[i].nodeId).id
    ensures IdHeld(runId, g, ws[i := w], id)
  {
    hide SlotOf;
    var j :| 0 <= j < |ws| && ws[j].Awaiting? && SlotOf(runId, g, ws[j].nodeId).id == id;
    assert ws[i := w][j] == ws[j];
  }

  /** A worker that held no seat changes to another state without one. */
  lemma {:induction false} NoSeat(limits: Limits, c: Counters, runId: string, g: seq<Node>, ws: seq<Worker>, i: nat,
      w: Worker)
    requires SeatsMatch(limits, c, runId, g, ws) && i < |ws| && !ws[i].Awaiting? && !w.Awaiting?
    ensures SeatsMatch(limits, c, runId, g, ws[i := w])
  {
    hide SlotOf, CounterMap, HoldersUnder, IdHeld, CounterOk;
    var next := ws[i := w];
    forall dim, key
      ensures CounterOk(limits, c, runId, g, next, dim, key)
    {
      HoldersSet(runId, g, ws, i, w, dim, key);
      SameCounter(limits, c, runId, g, ws, next, dim, key);
    }
    forall id | id in c.running
      ensures IdHeld(runId, g, ws[i := w], id)
    {
      IdElsewhere(runId, g, ws, i, w, id);
    }
  }

  lemma {:induction false} SameCounter(limits: Limits, c: Counters, runId: string, g: seq<Node>, ws: seq<Worker>,
      next: seq<Worker>, dim: Dim, key: string)
    requires CounterOk(limits, c, runId, g, ws, dim, key)
    requires HoldersUnder(runId, g, next, dim, key) == HoldersUnder(runId, g, ws, dim, key)
    ensures CounterOk(limits, c, runId, g, next, dim, key)
  {}

  lemma {:induction false} IdElsewhere(runId: string, g: seq<Node>, ws: seq<Worker>, i: nat, w: Worker, id: string)
    requires i < |ws| && !ws[i].Awaiting? && IdHeld(runId, g, ws, id)
    ensures IdHeld(runId, g, ws[i := w], id)
  {
    hide SlotOf;
    var j :| 0 <= j < |ws| && ws[j].Awaiting? && SlotOf(runId, g, ws[j].nodeId).id == id;
    assert ws[i := w][j] == ws[j];
  }

  ghost predicate Unseated(ws: seq<Worker>) {
    forall i | 0 <= i < |ws| :: !ws[i].Awaiting?
  }

  lemma {:induction false} NoHolders(runId: string, g: seq<Node>, ws: seq<Worker>, dim: Dim, key: string)
    requires Unseated(ws)
    ensures HoldersUnder(runId, g, ws, dim, key) == 0
  {
    if ws != [] { NoHolders(runId, g, ws[..|ws| - 1], dim, key); }
  }

  /** With no seat taken the counters match exactly if they are all zero and nothing runs. */
  lemma {:induction false} UnseatedMatch(limits: Limits, c: Counters, runId: string, g: seq<Node>, ws: seq<Worker>)
    requires Unseated(ws)
    ensures SeatsMatch(limits, c, runId, g, ws) <==>
            c.running == {} && forall dim, key :: ValueAt(CounterMap(c, dim), key) == 0
  {
    hide CounterMap, HoldersUnder, SlotOf, CounterOk, ValueAt;
    forall dim, key
      ensures CounterOk(limits, c, runId, g, ws, dim, key) <==> ValueAt(CounterMap(c, dim), key) == 0
    {
      UnseatedCounter(limits, c, runId, g, ws, dim, key);
    }
    forall id
      ensures !IdHeld(runId, g, ws, id)
    {
    }
  }

  lemma {:induction false} UnseatedCounter(limits: Limits, c: Counters, runId: string, g: seq<Node>, ws: seq<Worker>,
      dim: Dim, key: string)
    requires Unseated(ws)
    ensures CounterOk(limits, c, runId, g, ws, dim, key) <==> ValueAt(CounterMap(c, dim), key) == 0
  {
    hide CounterMap, HoldersUnder, ValueAt;
    NoHolders(runId, g, ws, dim, key);
  }

  lemma {:induction false} CountersNonNegative(limits: Limits, c: Counters, runId: string, g: seq<Node>,
      ws: seq<Worker>)
    requires SeatsMatch(limits, c, runId, g, ws)
    ensures NonNegative(c)
  {
    hide CounterMap, SlotOf, ValueAt, CounterOk;
    forall dim, key
      ensures ValueAt(CounterMap(c, dim), key) >= 0
    {
      CounterNonNegative(limits, c, runId, g, ws, dim, key);
    }
  }

  lemma {:induction false} CounterNonNegative(limits: Limits, c: Counters, runId: string, g: seq<Node>, ws: seq<Worker>,
      dim: Dim, key: string)
    requires CounterOk(limits, c, runId, g, ws, dim, key)
    ensures ValueAt(CounterMap(c, dim), key) >= 0
  {}
}
