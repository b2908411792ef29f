/**
 The events a run appends to its ledger, the per-node snapshots that replay folds out of them, and the
 rule every appended event obeys.
 */
module WorkflowLog {
  import opened Wrappers
  import opened WorkflowTypes
  import opened NodeMachine
  import opened Graph
  import opened Layers

  datatype RunStatus = RunCompleted | RunFailed | RunCancelled | RunQuarantined

  datatype Event =
    | Created(runId: string, graph: seq<Node>)
    | NodeReady(nodeId: Id)
    | JobEnqueued(nodeId: Id, attempt: int)
    | NodeRunning(nodeId: Id, attempt: int)
    | NodeVerified(nodeId: Id)
    | NodeCompleted(nodeId: Id, result: NodeResult)
    | NodeFailed(nodeId: Id)
    | NodeRetrying(nodeId: Id, attempt: int)
    | NodeSkipped(nodeId: Id)
    | NodeCompensating(nodeId: Id)
    | NodeRolledBack(nodeId: Id)
    | NodeCompensated(nodeId: Id)
    | NodeQuarantined(nodeId: Id)
    | NodeCancelled(nodeId: Id)
    | ApprovalRequired(nodeId: Id)
    | ApprovalGranted(nodeId: Id)
    | ApprovalDenied(nodeId: Id)
    | RunEnded(status: RunStatus)
    | RunCancelRequested

  /** What replay remembers of a node. */
  datatype Snapshot = Snapshot(status: Status, attempt: int, result: Option<NodeResult>)

  const Blank := Snapshot(Planned, 1, None)

  /** The status replay gives the node an event names, or `None` for events replay ignores. */
  function Effect(e: Event): Option<Status> {
    match e
    case NodeRunning(_, _) => Some(Running)
    case NodeVerified(_) => Some(Verifying)
    case NodeCompleted(_, _) => Some(Completed)
    case NodeFailed(_) => Some(Failed)
    case NodeRetrying(_, _) => Some(Retrying)
    case NodeSkipped(_) => Some(Skipped)
    case NodeCompensating(_) => Some(Compensating)
    case NodeRolledBack(_) => Some(RolledBack)
    case NodeQuarantined(_) => Some(Quarantined)
    case NodeCancelled(_) => Some(Cancelled)
    case _ => None
  }

  /** Replay applies the event: it has an effect, and its node name is not empty. */
  predicate Replayed(e: Event) {
    Effect(e).Some? && Named(e.nodeId)
  }

  function Apply(e: Event, snap: Snapshot): Snapshot
    requires Effect(e).Some?
  {
    var moved := snap.(status := Effect(e).value);
    match e
    case NodeRunning(_, attempt) => moved.(attempt := attempt)
    case NodeCompleted(_, result) => moved.(result := Some(result))
    case _ => moved
  }

  type Snapshots = map<Id, Snapshot>

  function SnapOf(m: Snapshots, n: Id): Snapshot {
    if n in m then m[n] else Blank
  }

  function ApplyTo(m: Snapshots, e: Event): Snapshots {
    if Replayed(e) then m[e.nodeId := Apply(e, SnapOf(m, e.nodeId))] else m
  }

  /** Replaying a log, front to back. */
  function Snaps(log: seq<Event>): Snapshots {
    if log == [] then map[] else ApplyTo(Snaps(log[..|log| - 1]), log[|log| - 1])
  }

  /** The nodes of the snapshots in the order in which the log first names them. */
  function FirstSeen(log: seq<Event>): seq<Id> {
    if log == [] then []
    else
      var front, e := log[..|log| - 1], log[|log| - 1];
      if Replayed(e) && e.nodeId !in Snaps(front) then FirstSeen(front) + [e.nodeId] else FirstSeen(front)
  }

  /**
   What every appended event obeys: the node it moves exists and is not finished; unless the event skips or cancels,
   every node with a name above it is completed; completion follows verification; attempts are counted from one; only
   completed work is undone.
   */
  ghost predicate Legal(r: Rel, m: Snapshots, e: Event) {
    && !e.Created?
    && (Replayed(e) ==>
          && e.nodeId in r
          && !Terminal(SnapOf(m, e.nodeId).status)
          && (e.NodeSkipped? || e.NodeCancelled? || AboveLogged(r, m, e.nodeId))
          && (e.NodeCompleted? ==> SnapOf(m, e.nodeId).status == Verifying))
    && (e.NodeRunning? ==> e.attempt >= 1)
    && (e.NodeCompensated? && Named(e.nodeId) ==> SnapOf(m, e.nodeId).status == Completed)
  }

  /** Replay has completed every node with a name above `n`. */
  ghost predicate AboveLogged(r: Rel, m: Snapshots, n: Id) {
    forall a | a in NamedAbove(r, n) :: SnapOf(m, a).status == Completed
  }

  /** A log of one run: it opens with the graph, and every later event is legal where it stands. */
  ghost predicate LogOk(g: seq<Node>, log: seq<Event>) {
    && |log| >= 1
    && if |log| == 1 then log[0].Created? && log[0].graph == g
       else LogOk(g, log[..|log| - 1]) && Legal(Deps(g), Snaps(log[..|log| - 1]), log[|log| - 1])
  }

  lemma {:induction false} SnapsAppend(log: seq<Event>, e: Event)
    ensures Snaps(log + [e]) == ApplyTo(Snaps(log), e)
  {
    assert (log + [e])[..|log|] == log;
  }

  lemma {:induction false} LogAppend(g: seq<Node>, log: seq<Event>, e: Event)
    requires log != []
    ensures Snaps(log + [e]) == ApplyTo(Snaps(log), e)
    ensures LogOk(g, log + [e]) <==> LogOk(g, log) && Legal(Deps(g), Snaps(log), e)
  {
    assert (log + [e])[..|log|] == log;
  }

  lemma {:induction false} LogPrefix(g: seq<Node>, log: seq<Event>, k: nat)
    requires LogOk(g, log) && 1 <= k <= |log|
    ensures LogOk(g, log[..k])
  {
    if k < |log| {
      LogPrefix(g, log[..|log| - 1], k);
      assert log[..|log| - 1][..k] == log[..k];
    } else {
      assert log[..k] == log;
    }
  }

  lemma {:induction false} LogLegalAt(g: seq<Node>, log: seq<Event>, i: nat)
    requires LogOk(g, log) && 1 <= i < |log|
    ensures Legal(Deps(g), Snaps(log[..i]), log[i])
  {
    LogPrefix(g, log, i + 1);
    assert log[..i + 1][..i] == log[..i];
  }

  lemma {:induction false} LogHead(g: seq<Node>, log: seq<Event>)
    requires LogOk(g, log)
    ensures log[0].Created? && log[0].graph == g
    ensures forall i | 1 <= i < |log| :: !log[i].Created?
  {
    LogPrefix(g, log, 1);
    assert log[..1][0] == log[0];
    forall i | 1 <= i < |log|
      ensures !log[i].Created?
    {
      LogLegalAt(g, log, i);
    }
  }

  /** Once replay has a node finished, it stays so, with the same snapshot, however the log grows. */
  lemma {:induction false} FinishedStays(g: seq<Node>, log: seq<Event>, k: nat, n: Id)
    requires LogOk(g, log) && 1 <= k <= |log| && Terminal(SnapOf(Snaps(log[..k]), n).status)
    ensures SnapOf(Snaps(log), n) == SnapOf(Snaps(log[..k]), n)
  {
    if k < |log| {
      var front := log[..|log| - 1];
      assert front[..k] == log[..k];
      FinishedStays(g, front, k, n);
    } else {
      assert log[..k] == log;
    }
  }

  lemma {:induction false} FirstSeenIsSnaps(log: seq<Event>, n: Id)
    ensures n in FirstSeen(log) <==> n in Snaps(log)
  {
    if log != [] { FirstSeenIsSnaps(log[..|log| - 1], n); }
  }

  /** What the log says of each node, whether or not replay takes it in. */
  function Told(log: seq<Event>): Snapshots {
    if log == [] then map[]
    else
      var m, e := Told(log[..|log| - 1]), log[|log| - 1];
      if Effect(e).Some? then m[e.nodeId := Apply(e, SnapOf(m, e.nodeId))] else m
  }

  /** Replay takes in exactly what is said of nodes with a name. */
  lemma {:induction false} ReplayedIfNamed(log: seq<Event>, n: Id)
    ensures SnapOf(Snaps(log), n) == (if Named(n) then SnapOf(Told(log), n) else Blank)
  {
    if log != [] { ReplayedIfNamed(log[..|log| - 1], n); }
  }

  /** Whatever the log says of it, replay knows nothing of a node with an empty name. */
  lemma {:induction false} NamelessForgotten(log: seq<Event>, n: Id)
    ensures n in Snaps(log) ==> Named(n)
  {
    if log != [] { NamelessForgotten(log[..|log| - 1], n); }
  }

  lemma {:induction false} SnapsInGraph(g: seq<Node>, log: seq<Event>)
    requires LogOk(g, log)
    ensures Snaps(log).Keys <= Deps(g).Keys
  {
    if |log| > 1 {
      SnapsInGraph(g, log[..|log| - 1]);
    } else {
      assert log[..0] == [];
    }
  }

  /** Every node that replay has started, other than by skipping or cancelling it, had the named nodes above it done. */
  lemma {:induction false} StartedAbove(g: seq<Node>, log: seq<Event>, n: Id)
    requires LogOk(g, log) && n in Snaps(log) && |log| > 1
    requires Snaps(log)[n].status != Skipped && Snaps(log)[n].status != Cancelled
    ensures n in Deps(g) && AboveLogged(Deps(g), Snaps(log), n)
  {
    hide NamedAbove;
    if |log| > 1 {
      var front, e := log[..|log| - 1], log[|log| - 1];
      if !(Replayed(e) && e.nodeId == n) {
        StartedAbove(g, front, n);
      }
      forall a | a in NamedAbove(Deps(g), n)
        ensures SnapOf(Snaps(log), a).status == Completed
      {
        assert SnapOf(Snaps(front), a).status == Completed;
      }
    }
  }

  /** Every attempt number that replay takes in is at least one. */
  lemma {:induction false} SnapAttempts(g: seq<Node>, log: seq<Event>, n: Id)
    requires LogOk(g, log)
    ensures SnapOf(Snaps(log), n).attempt >= 1
  {
    hide NamedAbove, AboveLogged;
    if |log| > 1 {
      SnapAttempts(g, log[..|log| - 1], n);
    } else {
      assert log[..0] == [];
    }
  }
}
