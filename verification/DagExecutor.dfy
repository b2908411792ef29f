/**
 The executor as the program has it: an object whose methods update its fields. Each method is the code between two
 awaits and is proved to compute the function the state machine is made of.
 */
module DagExecutor {
  import opened Wrappers
  import opened WorkflowTypes
  import opened NodeMachine
  import opened Layers
  import opened WorkflowLog
  import opened WorkflowCore
  import opened Recovery
  import opened Dag
  import Spec = WorkflowCore
  import Machine
  import MachineInvariant
  import Keys
  import Retry
  import opened Conditions
  import opened Idempotency

  /** What becomes of a request for approval: an answer, or an exception and the immune system's verdict on it. */
  datatype Reply = Answered(approved: bool) | Threw(error: string, guard: Machine.Guard)

  class DagExecutor {
    const registry: map<string, Compensation>
    const store: InMemoryIdempotencyStore
    var runId: string
    var graph: seq<Node>
    var status: map<Id, Status>
    var attempt: map<Id, int>
    var failures: map<Id, nat>
    var results: map<Id, NodeResult>
    var completionOrder: seq<Id>
    var compensated: seq<Id>
    var log: seq<Event>
    var cancelled: bool

    /** The value of the fields, as the state machine knows it. */
    function State(): Core
      reads this
    {
      Core(runId, graph, status, attempt, failures, results, completionOrder, compensated, log)
    }

    ghost predicate Ready()
      reads this
    {
      Listed(State())
    }

    constructor (registry: map<string, Compensation>, store: InMemoryIdempotencyStore)
      ensures this.registry == registry && this.store == store && graph == [] && log == [] && !cancelled
    {
      this.registry, this.store, cancelled := registry, store, false;
      runId, graph, status, attempt, failures := "", [], map[], map[], map[];
      results, completionOrder, compensated, log := map[], [], [], [];
    }

    /** Starts a run: rejects a malformed graph, otherwise plans every node, logs the graph and promotes. */
    method Begin(runId: string, g: seq<Node>) returns (error: Option<DagError>)
      modifies this
      ensures error.None? <==> Valid(g)
      ensures error.None? ==>
                Listed(Machine.NewRun(runId, g)) && State() == Spec.Promote(Machine.NewRun(runId, g), 0) && Ready()
      ensures error.Some? ==> State() == old(State())
      ensures cancelled == old(cancelled)
    {
      hide Valid, Machine.NewRun, Spec.Promote;
      error := ValidateGraph(g);
      if error.Some? { return; }
      PlanRun(runId, g);
      PromoteReady();
    }

    /** Every node planned, nothing done, and the graph logged. */
    method PlanRun(runId: string, g: seq<Node>)
      modifies this
      ensures State() == Machine.NewRun(runId, g) && Ready() && cancelled == old(cancelled)
    {
      hide ById;
      this.runId, graph := runId, g;
      status := map n | n in ById(g) :: Planned;
      attempt := map n | n in ById(g) :: 1;
      failures := map n | n in ById(g) :: 0;
      results, completionOrder, compensated := map[], [], [];
      log := [Created(runId, g)];
      NewRunListed(runId, g);
    }

    /** Asks the run to stop when it next looks. */
    method Cancel()
      modifies this`cancelled
      ensures cancelled
    {
      cancelled := true;
    }

    /** Makes every planned node ready whose dependencies have completed. */
    method PromoteReady()
      requires Ready()
      modifies this`status, this`log
      ensures State() == Spec.Promote(old(State()), 0) && Ready()
    {
      var i := 0;
      while i < |graph|
        invariant 0 <= i <= |graph| && Ready()
        invariant Spec.Promote(State(), i) == Spec.Promote(old(State()), 0)
      {
        var n := graph[i].id;
        if status[n] == Planned && DepsDone(Deps(graph), status, n) {
          status := status[n := Status.Ready];
          log := log + [NodeReady(n)];
        }
        i := i + 1;
      }
    }

    /** A change of status together with the event that reports it. */
    method Report(n: Id, st: Status, e: Event)
      requires Ready() && n in status
      modifies this`status, this`log
      ensures State() == Move(old(State()), n, st, e) && Ready()
    {
      status := status[n := st];
      log := log + [e];
    }

    /** Skips the unfinished dependents of `n`, and theirs; `threw` when one of them cannot legally be skipped. */
    method CascadeSkip(n: Id) returns (threw: bool)
      requires Ready()
      modifies this`status, this`log
      ensures Attempt(State(), threw) == Spec.CascadeSkip(old(State()), n, 0) && Ready()
      ensures Unfinished(status) <= old(Unfinished(status))
      decreases Unfinished(status), 1
    {
      hide Unfinished, Transition, Terminal;
      var i := 0;
      while i < |graph|
        invariant 0 <= i <= |graph| && Ready()
        invariant Unfinished(status) <= old(Unfinished(status))
        invariant Spec.CascadeSkip(State(), n, i) == Spec.CascadeSkip(old(State()), n, 0)
      {
        if n in graph[i].deps && !Terminal(status[graph[i].id]) {
          threw := SkipDependent(n, i);
          if threw { return; }
        }
        i := i + 1;
      }
      return false;
    }

    /** The body of that loop, for an unfinished dependent. */
    method SkipDependent(n: Id, i: nat) returns (threw: bool)
      requires Ready() && i < |graph| && n in graph[i].deps && !Terminal(status[graph[i].id])
      modifies this`status, this`log
      ensures Ready() && Unfinished(status) <= old(Unfinished(status))
      ensures Spec.CascadeSkip(old(State()), n, i) ==
              (if threw then Attempt(State(), true) else Spec.CascadeSkip(State(), n, i + 1))
      decreases Unfinished(status), 0
    {
      hide Unfinished, Transition, Terminal;
      var other := graph[i].id;
      if Transition(status[other], Skip).None? { return true; }
      Machine.UnfinishedDrops(status, other);
      Report(other, Skipped, NodeSkipped(other));
      threw := CascadeSkip(other);
    }

    method SkipNode(n: Id) returns (threw: bool)
      requires Ready()
      modifies this`status, this`log
      ensures Attempt(State(), threw) == Spec.SkipNode(old(State()), n) && Ready()
    {
      if n !in status || Terminal(status[n]) { return false; }
      if Transition(status[n], Skip).None? { return true; }
      status := status[n := Skipped];
      log := log + [NodeSkipped(n)];
      threw := CascadeSkip(n);
    }

    /** Skips a list of nodes in turn, as a conditional does with the branch it did not choose. */
    method SkipBranch(ns: seq<Id>) returns (threw: bool)
      requires Ready()
      modifies this`status, this`log
      ensures Attempt(State(), threw) == Spec.SkipAll(old(State()), ns) && Ready()
    {
      var i := 0;
      while i < |ns|
        invariant 0 <= i <= |ns| && Ready()
        invariant Spec.SkipAll(State(), ns[i..]) == Spec.SkipAll(old(State()), ns)
      {
        assert ns[i..][0] == ns[i] && ns[i..][1..] == ns[i + 1..];
        threw := SkipNode(ns[i]);
        if threw { return; }
        i := i + 1;
      }
      return false;
    }

    /** Records a result; `threw` when the node is neither running nor verifying, and then nothing changes. */
    method CompleteNode(n: Id, result: NodeResult) returns (threw: bool)
      requires Ready() && n in status
      modifies this
      ensures threw <==> old(status[n]) != Running && old(status[n]) != Verifying
      ensures threw ==> State() == old(State())
      ensures !threw ==> State() == Spec.CompleteNode(old(State()), n, result)
    {
      hide Spec.Promote, Deps;
      var st := if status[n] == Running then Verifying else status[n];
      if Transition(st, Complete).None? { return true; }
      status := status[n := Completed];
      results := results[n := result];
      completionOrder := completionOrder + [n];
      log := log + [NodeCompleted(n, result)];
      PromoteReady();
      return false;
    }

    method CancelAll()
      requires Ready()
      modifies this`status, this`log
      ensures State() == Spec.CancelAll(old(State()))
    {
      var i := 0;
      while i < |graph|
        invariant 0 <= i <= |graph| && Ready()
        invariant Spec.CancelFrom(State(), i) == Spec.CancelFrom(old(State()), 0)
      {
        var n := graph[i].id;
        if !Terminal(status[n]) {
          status := status[n := Cancelled];
          log := log + [NodeCancelled(n)];
        }
        i := i + 1;
      }
      log := log + [RunCancelRequested];
    }

    /* ---------- rounds and attempts ---------- */

    /** The nodes a round starts with, in list order. */
    method ReadyNodes() returns (ready: seq<Id>)
      requires Ready()
      ensures ready == Machine.ReadyList(graph, status)
    {
      ready := [];
      var i := 0;
      while i < |graph|
        invariant 0 <= i <= |graph| && ready == Machine.ReadyList(graph[..i], status)
      {
        assert graph[..i + 1][..i] == graph[..i];
        if status[graph[i].id] == Status.Ready { ready := ready + [graph[i].id]; }
        i := i + 1;
      }
      assert graph[..i] == graph;
    }

    /** Makes a job of each ready node and logs it. */
    method EnqueueRound(ready: seq<Id>) returns (jobs: multiset<Machine.Job>)
      modifies this`log
      ensures State() == Machine.EnqueueAll(old(State()), ready) && jobs == Machine.JobsFor(old(State()), ready)
    {
      jobs := multiset{};
      var i := 0;
      while i < |ready|
        invariant 0 <= i <= |ready|
        invariant Machine.EnqueueAll(State(), ready[i..]) == Machine.EnqueueAll(old(State()), ready)
        invariant jobs + Machine.JobsFor(old(State()), ready[i..]) == Machine.JobsFor(old(State()), ready)
      {
        var n := ready[i];
        assert ready[i..][0] == n && ready[i..][1..] == ready[i + 1..];
        var job := Machine.Job(n, if n in attempt then attempt[n] else 1);
        jobs := jobs + multiset{job};
        log := log + [JobEnqueued(n, job.attempt)];
        i := i + 1;
      }
    }

    /** The start of an attempt; `threw` when the node is neither ready nor waiting to be retried. */
    method StartAttempt(n: Id, number: int) returns (threw: bool)
      requires Ready() && n in status
      modifies this`attempt, this`status, this`log
      ensures threw <==> old(status[n]) != Status.Ready && old(status[n]) != Retrying
      ensures State() == if threw then old(State()).(attempt := old(attempt)[n := number])
                         else Machine.RunNode(old(State()), n, number)
    {
      attempt := attempt[n := number];
      var next := Transition(status[n], if status[n] == Retrying then Resume else Start);
      if next.None? { return true; }
      Report(n, next.value, NodeRunning(n, number));
      return false;
    }

    /** Asks for approval of a running node. */
    method RequestApproval(n: Id)
      requires Ready() && n in status
      modifies this`status, this`log
      ensures State() == Move(old(State()), n, Waiting, ApprovalRequired(n)) && Ready()
    {
      Report(n, Waiting, ApprovalRequired(n));
    }

    /**
     What becomes of that, and where the execution goes on; `None` where an exception escapes, because a waiting node
     cannot fail.
     */
    method AnswerApproval(n: Id, reply: Reply, ghost s: Machine.State) returns (next: Option<Machine.Pc>)
      requires Machine.Sound(s) && n in s.frames && s.core == State() && s.registry == registry && status[n] == Waiting
      requires attempt[n] == s.frames[n].attempt
      modifies this`status, this`failures, this`log
      ensures next.None? <==> reply.Threw?
      ensures reply.Answered? ==>
                Machine.AnswerApproval(s, n, reply.approved) == Machine.Goto(s, n, State(), next.value)
      ensures reply.Threw? ==> Machine.FailAttempt(s, n, reply.error, reply.guard) == Machine.Escape(s, n, State())
    {
      hide Machine.FailAttempt, Machine.Goto, ById, Machine.Escape;
      match reply {
        case Threw(error, guard) =>
          WaitingThrows(s, n, error, guard);
          next := CatchFailure(n, error, guard, s);
        case Answered(approved) =>
          if approved {
            Report(n, Running, ApprovalGranted(n));
            next := Some(Machine.Approved);
          } else {
            Report(n, Failed, ApprovalDenied(n));
            next := Some(Machine.Denied);
          }
      }
    }

    /** A conditional that has its source skips the branch it did not choose; `None` when a skip throws. */
    method ChooseBranch(n: Id, cond: Condition, source: NodeResult) returns (result: Option<NodeResult>)
      requires Ready()
      modifies this`status, this`log
      ensures Attempt(State(), result.None?) == Spec.SkipAll(old(State()), NotChosen(cond, source))
      ensures result.Some? ==> result.value == BranchResult(n, cond, source)
    {
      var threw := SkipBranch(NotChosen(cond, source));
      return if threw then None else Some(BranchResult(n, cond, source));
    }

    /**
     The work of an attempt up to its first await: asks for approval, calls the handler, or decides a conditional from
     an earlier result; `error` is what is thrown where the input or the condition cannot be resolved or a skip is
     illegal.
     */
    method RunNodeAction(n: Id, needsApproval: bool, error: string, guard: Machine.Guard, ghost s: Machine.State)
        returns (next: Option<Machine.Pc>)
      requires Machine.Sound(s) && n in s.frames && s.core == State() && s.registry == registry
      requires attempt[n] == s.frames[n].attempt
      modifies this`status, this`failures, this`log
      ensures next.None? ==> Machine.InvokeNode(s, n, needsApproval, error, guard) == Machine.Escape(s, n, State())
      ensures next.Some? ==>
                Machine.InvokeNode(s, n, needsApproval, error, guard) == Machine.Goto(s, n, State(), next.value)
    {
      hide Machine.FailAttempt, Machine.Goto, ById, Machine.Escape, Machine.Sound, Machine.Branch, Listed,
        InputResolves;
      SoundNode(s, n);
      var def := ById(graph)[n];
      if def.kind.Approval? || (def.kind.Action? && needsApproval) {
        RequestApproval(n);
        return Some(Machine.AwaitingApproval);
      }
      if def.kind.Conditional? && def.condition.None? {
        next := CatchFailure(n, error, guard, s);
      } else if def.kind.Action? || Truthy(def.action) {
        if InputResolves(results, def) { return Some(Machine.Handling); }
        next := CatchFailure(n, error, guard, s);
      } else if def.condition.value.when.nodeId !in results {
        next := CatchFailure(n, error, guard, s);
      } else {
        next := Decide(n, def.condition.value, results[def.condition.value.when.nodeId], error, guard, s);
      }
    }

    /** A conditional with its source skips what it did not choose and returns, or fails because a skip throws. */
    method Decide(n: Id, cond: Condition, source: NodeResult, error: string, guard: Machine.Guard,
        ghost s: Machine.State) returns (next: Option<Machine.Pc>)
      requires Machine.Sound(s) && n in s.frames && s.core == State() && s.registry == registry
      requires attempt[n] == s.frames[n].attempt
      modifies this`status, this`failures, this`log
      ensures next.None? ==> Machine.Branch(s, n, cond, source, error, guard) == Machine.Escape(s, n, State())
      ensures next.Some? ==> Machine.Branch(s, n, cond, source, error, guard) == Machine.Goto(s, n, State(), next.value)
    {
      hide Machine.FailAttempt, Machine.Goto, ById, Machine.Escape, Machine.Sound, Listed, Spec.SkipAll, NotChosen,
        BranchResult;
      SoundNode(s, n);
      Machine.SkipAllSound(s, NotChosen(cond, source));
      Machine.SkipAllRest(s.core, NotChosen(cond, source));
      var result := ChooseBranch(n, cond, source);
      if result.Some? { return Some(Machine.Returned(result.value)); }
      ghost var skipped := s.(core := State());
      next := CatchFailure(n, error, guard, skipped);
      AnyCore(s, skipped, n, State(), if next.Some? then next.value else Machine.Escaped);
    }

    /** The end of the drive loop: cancels what is left if asked to, and announces the final status. */
    method Finalize(ghost s: Machine.State)
      requires Ready() && Machine.Sound(s) && s.core == State() && s.cancelled == cancelled
      modifies this`status, this`log
      ensures State() == Machine.StopRun(s).core
    {
      if cancelled { CancelAll(); }
      log := log + [RunEnded(FinalStatus(status))];
    }

    /* ---------- rebuilding from the log ---------- */

    /** Replays the log: the announced graph, and a snapshot per node in the order the nodes first appear. */
    method ReplayLog(events: seq<Event>) returns (created: Option<Event>, snaps: map<Id, Snapshot>, seen: seq<Id>)
      ensures created == Announced(events) && snaps == Snaps(events) && seen == FirstSeen(events)
    {
      created, snaps, seen := None, map[], [];
      var i := 0;
      while i < |events|
        invariant 0 <= i <= |events|
        invariant created == Announced(events[..i]) && snaps == Snaps(events[..i]) && seen == FirstSeen(events[..i])
      {
        var e := events[i];
        assert events[..i + 1][..i] == events[..i];
        if e.Created? {
          created := Some(e);
        } else if Replayed(e) {
          if e.nodeId !in snaps { seen := seen + [e.nodeId]; }
          snaps := snaps[e.nodeId := Apply(e, SnapOf(snaps, e.nodeId))];
        }
        i := i + 1;
      }
      assert events[..i] == events;
    }

    /**
     Rebuilds the fields from a log and seeds the store with the results it restores; `false` when no run was announced
     or a skip could not be carried on.
     */
    method Hydrate(events: seq<Event>) returns (ok: bool)
      requires store.Valid()
      modifies this, store
      ensures ok <==> Recovery.Hydrate(events).Some?
      ensures ok ==> State() == Recovery.Hydrate(events).value && !cancelled
      ensures ok ==> store.completed == old(store.completed) + Machine.Seeds(State(), completionOrder)
      ensures store.Valid() && store.inFlight == old(store.inFlight) && store.calls == old(store.calls)
    {
      hide Restore, Spec.Promote, CloseSkips, Announced, Machine.Seeds;
      var created, snaps, seen := ReplayLog(events);
      if created.None? { return false; }
      AnnouncedCreated(events);
      RestoreListed(created.value.runId, created.value.graph, events);
      log, cancelled := events, false;
      RestoreFields(created.value, snaps, seen);
      ghost var restored := State();
      ok := CarrySkips();
      if ok { PromoteReady(); }
      SeedsSame(restored, State(), completionOrder);
    }

    /** What the announcement and the snapshots say: finished nodes come back as they were, the others as planned. */
    method RestoreFields(created: Event, snaps: map<Id, Snapshot>, seen: seq<Id>)
      requires created.Created? && snaps == Snaps(log) && seen == FirstSeen(log) && store.Valid()
      modifies this, store
      ensures State() == Restore(created.runId, created.graph, old(log)) && cancelled == old(cancelled)
      ensures store.completed == old(store.completed) + Machine.Seeds(State(), completionOrder)
      ensures store.Valid() && store.inFlight == old(store.inFlight) && store.calls == old(store.calls)
    {
      hide Snaps, FirstSeen, Keep, Restore, LoggedDone, NodesRestored, Deps, Machine.Seeds, SeedCore;
      var g := created.graph;
      runId, graph, compensated := created.runId, g, [];
      failures := map n | n in Deps(g) :: 0;
      PlanNodes(g);
      NothingRestored(g, snaps, status, attempt, results);
      NothingSeeded(SeedCore(runId, g, snaps));
      ghost var applied := ApplySnapshots(g, snaps, seen, store.completed);
      AllRestored(runId, g, log, applied, status, attempt, results);
      SeedsSame(SeedCore(runId, g, snaps), State(), completionOrder);
    }

    /** The loop over the snapshots. */
    method ApplySnapshots(g: seq<Node>, snaps: map<Id, Snapshot>, seen: seq<Id>, ghost before: map<string, NodeResult>)
      returns (ghost applied: set<Id>)
      requires snaps == Snaps(log) && seen == FirstSeen(log) && graph == g && store.Valid()
      requires NodesRestored(g, snaps, {}, status, attempt, results) && completionOrder == []
               && Seeded(g, snaps, before)
      modifies this`status, this`attempt, this`results, this`completionOrder, store
      ensures applied == Elements(seen)
              && NodesRestored(g, snaps, applied, status, attempt, results)
      ensures completionOrder == Keep(seen, LoggedDone(g, snaps)) && Seeded(g, snaps, before)
      ensures store.Valid() && store.inFlight == old(store.inFlight) && store.calls == old(store.calls)
    {
      hide Snaps, FirstSeen, Keep, LoggedDone, NodesRestored, Deps, Seeded, Elements;
      NothingKept(LoggedDone(g, snaps));
      applied := {};
      var i := 0;
      while i < |seen|
        invariant 0 <= i <= |seen| && applied == Elements(seen[..i])
        invariant NodesRestored(g, snaps, applied, status, attempt, results)
        invariant completionOrder == Keep(seen[..i], LoggedDone(g, snaps)) && Seeded(g, snaps, before)
        invariant store.Valid() && store.inFlight == old(store.inFlight) && store.calls == old(store.calls)
      {
        assert seen[..i + 1] == seen[..i] + [seen[i]];
        FirstSeenIsSnaps(log, seen[i]);
        KeepAppend(seen[..i], seen[i], LoggedDone(g, snaps));
        ElementsAppend(seen[..i], seen[i]);
        RestoreNode(g, snaps, applied, seen[i], before);
        applied := applied + {seen[i]};
        i := i + 1;
      }
      assert seen[..i] == seen;
    }

    /** The store holds what it held before, and the results recorded so far under their keys. */
    ghost predicate Seeded(g: seq<Node>, snaps: map<Id, Snapshot>, before: map<string, NodeResult>)
      reads this, store
    {
      store.completed == before + Machine.Seeds(SeedCore(runId, g, snaps), completionOrder)
    }

    method PlanNodes(g: seq<Node>)
      modifies this`status, this`attempt, this`results, this`completionOrder
      ensures status == map n | n in Deps(g) :: Planned
      ensures attempt == map n | n in Deps(g) :: 1
      ensures results == map[] && completionOrder == Keep([], LoggedDone(g, map[])) && completionOrder == []
    {
      status := map n | n in Deps(g) :: Planned;
      attempt := map n | n in Deps(g) :: 1;
      results, completionOrder := map[], [];
    }

    /** Applies one snapshot, if the graph has its node. */
    method RestoreNode(g: seq<Node>, snaps: map<Id, Snapshot>, ghost applied: set<Id>, n: Id,
        ghost before: map<string, NodeResult>)
      requires NodesRestored(g, snaps, applied, status, attempt, results) && n in snaps && graph == g
      requires store.Valid() && Seeded(g, snaps, before)
      modifies this`status, this`attempt, this`results, this`completionOrder, store
      ensures NodesRestored(g, snaps, applied + {n}, status, attempt, results)
      ensures completionOrder == old(completionOrder) + (if n in LoggedDone(g, snaps) then [n] else [])
      ensures Seeded(g, snaps, before) && store.Valid()
      ensures store.inFlight == old(store.inFlight) && store.calls == old(store.calls)
    {
      hide NodesRestored, LoggedDone, Keys.NodeKey, Deps, Machine.Seeds, SeedCore, Restored, Snaps;
      SeedsAppend(SeedCore(runId, g, snaps), completionOrder, n);
      SeedCoreOf(runId, g, snaps);
      SnapshotCases(g, snaps, applied, status, attempt, results, n);
      SeededResults(runId, g, snaps, n);
      var snap := snaps[n];
      if n !in status { return; }
      attempt := attempt[n := snap.attempt];
      if snap.status == Completed && snap.result.Some? {
        status := status[n := Completed];
        results := results[n := snap.result.value];
        completionOrder := completionOrder + [n];
        store.SeedCompleted(Keys.NodeKey(runId, graph, n), snap.result.value);
      } else if Terminal(snap.status) {
        status := status[n := snap.status];
      }
    }

    /** Skips the dependents of every node restored as skipped. */
    method CarrySkips() returns (ok: bool)
      requires Ready()
      modifies this`status, this`log
      ensures Attempt(State(), !ok) == CloseSkips(old(State()), 0) && Ready()
    {
      var i := 0;
      while i < |graph|
        invariant 0 <= i <= |graph| && Ready()
        invariant CloseSkips(State(), i) == CloseSkips(old(State()), 0)
      {
        if status[graph[i].id] == Skipped {
          var threw := CascadeSkip(graph[i].id);
          if threw { return false; }
        }
        i := i + 1;
      }
      return true;
    }

    /* ---------- failure and compensation ---------- */

    /**
     `failNode` up to its first await: what becomes of the node, and where its execution goes on. `None` for a waiting
     node, which the table does not let fail.
     */
    method FailNode(n: Id, quarantine: bool, ghost s: Machine.State) returns (next: Option<Machine.Pc>)
      requires Machine.Sound(s) && n in s.frames && s.core == State() && s.registry == registry
      modifies this`status, this`log
      ensures next.None? <==> old(status[n]) == Waiting
      ensures next.None? ==> Machine.FailNode(s, n, quarantine) == Machine.Escape(s, n, State())
      ensures next.Some? ==> Machine.FailNode(s, n, quarantine) == Machine.Goto(s, n, State(), next.value)
    {
      hide Machine.Undoable, ById, Transition, Machine.FailNode, Machine.Goto, Machine.FailedFrom, Machine.Sound,
        Machine.Escape;
      FailNodeCases(s, n, quarantine);
      var ok := BringToFailed(n);
      if !ok { return None; }
      var pc := Machine.Rejected;
      if quarantine {
        if Transition(status[n], Quarantine).Some? { Report(n, Quarantined, NodeQuarantined(n)); }
      } else if Machine.Undoable(registry, ById(graph)[n]) {
        if Transition(status[n], Compensate).Some? {
          Report(n, Compensating, NodeCompensating(n));
          pc := Machine.Undoing;
        }
      } else {
        log := log + [NodeFailed(n)];
      }
      return Some(pc);
    }

    /** The transitions before that; `false` where the table forbids them. */
    method BringToFailed(n: Id) returns (ok: bool)
      requires Ready() && n in status
      modifies this`status
      ensures ok <==> Machine.FailedFrom(old(status[n])) != Waiting
      ensures status == old(status)[n := Machine.FailedFrom(old(status[n]))] && Ready()
      ensures !ok ==> status == old(status)
    {
      hide Transition;
      FailTransitions(status[n]);
      if status[n] == Running || status[n] == Verifying || status[n] == Waiting {
        if Transition(status[n], Fail).None? { return false; }
        status := status[n := Failed];
      } else if status[n] == Status.Ready {
        status := status[n := Failed];
      }
      return true;
    }

    /**
     The catch block around an attempt: counts the failure, then gives up or arranges the next attempt. `None` for a
     waiting node: the exception escapes.
     */
    method CatchFailure(n: Id, error: string, guard: Machine.Guard, ghost s: Machine.State)
        returns (next: Option<Machine.Pc>)
      requires Machine.Sound(s) && n in s.frames && s.core == State() && s.registry == registry
      requires attempt[n] == s.frames[n].attempt
      modifies this`status, this`failures, this`log
      ensures old(status[n]) == Waiting ==> next.None?
      ensures next.None? ==> Machine.FailAttempt(s, n, error, guard) == Machine.Escape(s, n, State())
      ensures next.Some? ==> Machine.FailAttempt(s, n, error, guard) == Machine.Goto(s, n, State(), next.value)
    {
      hide Machine.Undoable, Transition, Machine.FailNode, Machine.FailAttempt, Machine.Goto, Machine.Sound,
        Machine.Escape, ById, Listed, Retry.IsRetryable, Retry.PolicyOf, Move;
      SoundNode(s, n);
      WaitingIsStuck(s.core.status[n]);
      MachineInvariant.CountedSound(s, n);
      failures := failures[n := failures[n] + 1];
      var policy := Retry.PolicyOf(ById(graph)[n]);
      if guard.stop || !(attempt[n] < policy.maxAttempts && Retry.IsRetryable(policy, error)) {
        next := FailNode(n, guard.quarantine, MachineInvariant.Counted(s, n));
        GaveUp(s, n, error, guard, State(), next);
        return;
      }
      next := ArrangeRetry(n, MachineInvariant.Counted(s, n));
      Retried(s, n, error, guard, State(), next);
    }

    /** Another attempt is due: the node is put to sleep, unless it has failed already or cannot fail. */
    method ArrangeRetry(n: Id, ghost s: Machine.State) returns (next: Option<Machine.Pc>)
      requires Machine.Sound(s) && n in s.frames && s.core == State() && n in status && n in attempt
      requires attempt[n] == s.frames[n].attempt
      modifies this`status, this`log
      ensures next.None? <==> old(status[n]) != Failed && Transition(old(status[n]), Fail).None?
      ensures next.None? ==> State() == s.core
      ensures next == Some(Machine.Rejected) ==> old(status[n]) == Failed && State() == s.core
      ensures next.Some? && next.value != Machine.Rejected ==>
                && next.value == Machine.Sleeping && old(status[n]) != Failed
                && State() == Move(s.core, n, Retrying, NodeRetrying(n, s.frames[n].attempt))
    {
      hide Transition;
      if status[n] == Failed { return Some(Machine.Rejected); }
      if Transition(status[n], Fail).None? { return None; }
      Report(n, Retrying, NodeRetrying(n, attempt[n]));
      return Some(Machine.Sleeping);
    }

    /** After its own action was undone the node is rolled back, and the pass over the completed work begins. */
    method RollBack(n: Id, ghost s: Machine.State) returns (next: Machine.Pc)
      requires Machine.Sound(s) && n in s.frames && s.frames[n].pc.Undoing? && s.core == State()
      modifies this`status, this`log
      ensures next == Machine.UndoingUpstream(Machine.Reverse(old(completionOrder)), 0, [])
      ensures Machine.FrameStep(s, Machine.UndoSelf(n)) == Some(Machine.Goto(s, n, State(), next))
    {
      hide ById, Machine.Reverse, Listed;
      SoundNode(s, n);
      Report(n, RolledBack, NodeRolledBack(n));
      next := Machine.UndoingUpstream(Machine.Reverse(completionOrder), 0, []);
    }

    /** One turn of that pass, wherever other activity has taken the run since the last. */
    method UndoTurn(failed: Id, turn: Machine.Pc, ghost s: Machine.State) returns (next: Machine.Pc)
      requires Machine.Sound(s) && failed in s.frames && s.frames[failed].pc == turn && turn.UndoingUpstream?
      requires s.core == State() && s.registry == registry
      modifies this`compensated, this`log
      ensures Machine.UndoOne(s, failed) == Machine.Goto(s, failed, State(), next)
    {
      hide ById, Machine.Undoable, Machine.Goto, Listed;
      if turn.next >= |turn.pass| { return Machine.Rejected; }
      var id := turn.pass[turn.next];
      next := turn.(next := turn.next + 1);
      if id == failed || id !in status || status[id] != Completed { return; }
      KnownNode(s, id);
      if Machine.Undoable(registry, ById(graph)[id]) {
        compensated := compensated + [id];
        log := log + [NodeCompensated(id)];
        next := next.(undone := turn.undone + [id]);
      }
    }
  }

  lemma {:induction false} KnownNode(s: Machine.State, n: Id)
    requires Machine.Sound(s) && n in s.core.status
    ensures n in ById(s.core.graph)
  {
    hide ById, Listed;
  }

  lemma {:induction false} AnyCore(s: Machine.State, t: Machine.State, n: Id, c: Core, pc: Machine.Pc)
    requires n in s.frames && t == s.(core := t.core)
    ensures Machine.Goto(t, n, c, pc) == Machine.Goto(s, n, c, pc)
    ensures Machine.Escape(t, n, c) == Machine.Escape(s, n, c)
  {}

  lemma {:induction false} SoundNode(s: Machine.State, n: Id)
    requires Machine.Sound(s) && n in s.frames
    ensures Listed(s.core) && n in ById(s.core.graph) && n in s.core.status && n in s.core.failures
            && n in s.core.attempt
  {
    hide ById;
  }

  lemma {:induction false} GotoFromCounted(s: Machine.State, n: Id, c: Core, pc: Machine.Pc)
    requires n in s.frames && n in s.core.failures
    ensures Machine.Goto(MachineInvariant.Counted(s, n), n, c, pc) == Machine.Goto(s, n, c, pc)
    ensures Machine.Escape(MachineInvariant.Counted(s, n), n, c) == Machine.Escape(s, n, c)
  {}

  /** The failure of an attempt leads on to `next` with data `c`, or lets the exception escape. */
  ghost predicate FailsTo(s: Machine.State, n: Id, error: string, guard: Machine.Guard, c: Core,
      next: Option<Machine.Pc>)
    requires Machine.Sound(s) && n in s.frames
  {
    Machine.FailAttempt(s, n, error, guard) ==
    if next.Some? then Machine.Goto(s, n, c, next.value) else Machine.Escape(s, n, c)
  }

  lemma {:induction false} GaveUp(s: Machine.State, n: Id, error: string, guard: Machine.Guard, c: Core,
      next: Option<Machine.Pc>)
    requires Machine.Sound(s) && n in s.frames && n in ById(s.core.graph) && n in s.core.failures
    requires var policy := Retry.PolicyOf(ById(s.core.graph)[n]);
             guard.stop || !(s.frames[n].attempt < policy.maxAttempts && Retry.IsRetryable(policy, error))
    requires var counted := MachineInvariant.Counted(s, n);
             Machine.Sound(counted) && Machine.FailNode(counted, n, guard.quarantine) ==
             if next.Some? then Machine.Goto(counted, n, c, next.value) else Machine.Escape(counted, n, c)
    ensures FailsTo(s, n, error, guard, c, next)
  {
    hide ById, Machine.FailNode, Machine.Goto, Machine.Escape, Machine.Sound, Retry.PolicyOf, Retry.IsRetryable,
      Machine.FailAttempt;
    SoundNode(s, n);
    MachineInvariant.FailCases(s, n, error, guard);
    GotoFromCounted(s, n, c, if next.Some? then next.value else Machine.Escaped);
  }

  lemma {:induction false} Retried(s: Machine.State, n: Id, error: string, guard: Machine.Guard, c: Core,
      next: Option<Machine.Pc>)
    requires Machine.Sound(s) && n in s.frames && n in ById(s.core.graph) && n in s.core.failures
             && n in s.core.status
    requires var policy := Retry.PolicyOf(ById(s.core.graph)[n]);
             !guard.stop && s.frames[n].attempt < policy.maxAttempts && Retry.IsRetryable(policy, error)
    requires var counted, st := MachineInvariant.Counted(s, n), s.core.status[n];
             && Machine.Sound(counted)
             && (next.None? <==> st != Failed && Transition(st, Fail).None?)
             && (next.None? || next == Some(Machine.Rejected) ==> c == counted.core)
             && (next == Some(Machine.Rejected) ==> st == Failed)
             && (next.Some? && next.value != Machine.Rejected ==>
                   && next.value == Machine.Sleeping && st != Failed
                   && c == Move(counted.core, n, Retrying, NodeRetrying(n, s.frames[n].attempt)))
    ensures FailsTo(s, n, error, guard, c, next)
  {
    hide ById, Machine.FailNode, Machine.Goto, Machine.Escape, Machine.Sound, Retry.PolicyOf, Retry.IsRetryable,
      Machine.FailAttempt, Transition, Move;
    MachineInvariant.FailCases(s, n, error, guard);
    GotoFromCounted(s, n, c, if next.Some? then next.value else Machine.Escaped);
  }

  lemma {:induction false} WaitingIsStuck(st: Status)
    ensures st == Waiting ==> Transition(st, Fail).None? && Machine.FailedFrom(st) == Waiting && st != Failed
  {}

  /** Whatever the error and the verdict, failing a waiting node lets the exception escape. */
  lemma {:induction false} WaitingThrows(s: Machine.State, n: Id, error: string, guard: Machine.Guard)
    requires Machine.Sound(s) && n in s.frames && n in s.core.status && s.core.status[n] == Waiting
    ensures n in s.core.attempt && n in s.core.failures
  {
    hide ById;
  }

  ghost function Elements(ns: seq<Id>): set<Id> {
    set n | n in ns
  }

  lemma {:induction false} ElementsAppend(ns: seq<Id>, n: Id)
    ensures Elements(ns + [n]) == Elements(ns) + {n}
  {}

  lemma {:induction false} NothingKept(done: set<Id>)
    ensures Keep([], done) == [] && Elements([]) == {}
  {}

  /** The data the seeds of a restored executor are taken from. */
  ghost function SeedCore(runId: string, g: seq<Node>, snaps: map<Id, Snapshot>): Core {
    Core(runId, g, map[], map[], map[], map n | n in LoggedDone(g, snaps) :: SnapOf(snaps, n).result.value, [], [], [])
  }

  lemma {:induction false} SeedCoreOf(runId: string, g: seq<Node>, snaps: map<Id, Snapshot>)
    ensures SeedCore(runId, g, snaps).runId == runId && SeedCore(runId, g, snaps).graph == g
  {}

  lemma {:induction false} SeededResults(runId: string, g: seq<Node>, snaps: map<Id, Snapshot>, n: Id)
    requires n in snaps
    ensures n in SeedCore(runId, g, snaps).results <==>
              n in Deps(g) && snaps[n].status == Completed && snaps[n].result.Some?
    ensures n in SeedCore(runId, g, snaps).results ==> snaps[n].result == Some(SeedCore(runId, g, snaps).results[n])
    ensures n in SeedCore(runId, g, snaps).results <==> n in LoggedDone(g, snaps)
  {
    hide Deps;
  }

  lemma {:induction false} NothingSeeded(c: Core)
    ensures Machine.Seeds(c, []) == map[]
  {}

  lemma {:induction false} SeedsAppend(c: Core, order: seq<Id>, n: Id)
    ensures Machine.Seeds(c, order + [n]) ==
            (if n in c.results then Machine.Seeds(c, order)[Keys.NodeKey(c.runId, c.graph, n) := c.results[n]]
             else Machine.Seeds(c, order))
  {
    assert (order + [n])[..|order|] == order;
  }

  lemma {:induction false} SeedsSame(c: Core, d: Core, order: seq<Id>)
    requires d.runId == c.runId && d.graph == c.graph && d.results == c.results
    ensures Machine.Seeds(c, order) == Machine.Seeds(d, order)
  {
    if order != [] { SeedsSame(c, d, order[..|order| - 1]); }
  }

  /** The node fields after the snapshots of the nodes in `applied` have been applied to planned nodes. */
  ghost predicate NodesRestored(g: seq<Node>, snaps: map<Id, Snapshot>, applied: set<Id>,
      status: Statuses, attempt: map<Id, int>, results: map<Id, NodeResult>)
  {
    && status.Keys == attempt.Keys == Deps(g).Keys && results.Keys == LoggedDone(g, snaps) * applied
    && (forall n | n in status :: status[n] == (if n in applied then Restored(SnapOf(snaps, n).status) else Planned))
    && (forall n | n in attempt :: attempt[n] == (if n in applied then SnapOf(snaps, n).attempt else 1))
    && (forall n | n in results :: results[n] == SnapOf(snaps, n).result.value)
  }

  /** What applying one more snapshot must do to the node fields. */
  lemma {:induction false} SnapshotCases(g: seq<Node>, snaps: map<Id, Snapshot>, applied: set<Id>,
      status: Statuses, attempt: map<Id, int>, results: map<Id, NodeResult>, n: Id)
    requires NodesRestored(g, snaps, applied, status, attempt, results) && n in snaps
    ensures n !in status ==>
              n !in LoggedDone(g, snaps) && NodesRestored(g, snaps, applied + {n}, status, attempt, results)
    ensures n in status ==>
              && (n in LoggedDone(g, snaps) <==> snaps[n].status == Completed && snaps[n].result.Some?)
              && NodesRestored(g, snaps, applied + {n},
                               if Terminal(snaps[n].status) then status[n := snaps[n].status] else status,
                               attempt[n := snaps[n].attempt],
                               if n in LoggedDone(g, snaps) then results[n := snaps[n].result.value] else results)
  {
    hide Deps;
  }

  lemma {:induction false} NothingRestored(g: seq<Node>, snaps: map<Id, Snapshot>,
      status: Statuses, attempt: map<Id, int>, results: map<Id, NodeResult>)
    requires status == (map n | n in Deps(g) :: Planned) && attempt == (map n | n in Deps(g) :: 1) && results == map[]
    ensures NodesRestored(g, snaps, {}, status, attempt, results)
    ensures Keep([], LoggedDone(g, snaps)) == Keep([], LoggedDone(g, map[]))
  {
    hide Deps;
  }

  /** Once all snapshots are applied, the fields are those of the restored state. */
  lemma {:induction false} AllRestored(runId: string, g: seq<Node>, events: seq<Event>, applied: set<Id>,
      status: Statuses, attempt: map<Id, int>, results: map<Id, NodeResult>)
    requires NodesRestored(g, Snaps(events), applied, status, attempt, results)
    requires applied == Elements(FirstSeen(events))
    ensures var c := Restore(runId, g, events);
            && status == c.status && attempt == c.attempt && results == c.results
            && SeedCore(runId, g, Snaps(events)).results == c.results
            && SeedCore(runId, g, Snaps(events)).runId == runId && SeedCore(runId, g, Snaps(events)).graph == g
            && c == Core(runId, g, status, attempt, map n | n in Deps(g) :: 0, results,
                         Keep(FirstSeen(events), LoggedDone(g, Snaps(events))), [], events)
  {
    hide Snaps, FirstSeen, Keep, Deps;
    forall n
      ensures n in applied <==> n in Snaps(events)
    {
      FirstSeenIsSnaps(events, n);
      assert n in FirstSeen(events) <==> n in applied;
    }
  }

  /** The cases of `failNode`, starting from the status it brings the node to. */
  lemma {:induction false} FailNodeCases(s: Machine.State, n: Id, quarantine: bool)
    requires Machine.Sound(s) && n in s.frames
    ensures Listed(s.core) && n in s.core.status && n in ById(s.core.graph)
    ensures var t, st := Machine.FailNode(s, n, quarantine), Machine.FailedFrom(s.core.status[n]);
            var c := s.core.(status := s.core.status[n := st]);
            if st == Waiting then t == Machine.Escape(s, n, s.core)
            else if quarantine then
              t == Machine.Goto(s, n, if Transition(st, Quarantine).None? then c
                else Move(c, n, Quarantined, NodeQuarantined(n)),
                                Machine.Rejected)
            else if !Machine.Undoable(s.registry, ById(s.core.graph)[n]) then
              t == Machine.Goto(s, n, Emit(c, NodeFailed(n)), Machine.Rejected)
            else if Transition(st, Compensate).None? then t == Machine.Goto(s, n, c, Machine.Rejected)
            else t == Machine.Goto(s, n, Move(c, n, Compensating, NodeCompensating(n)), Machine.Undoing)
    ensures Machine.FailedFrom(s.core.status[n]) == Waiting <==> s.core.status[n] == Waiting
  {
    hide Machine.Undoable, ById, Transition, Machine.FailedFrom;
    var st := Machine.FailedFrom(s.core.status[n]);
    FailTransitions(s.core.status[n]);
    MoveOnce(s.core, n, st, Quarantined, NodeQuarantined(n));
    MoveOnce(s.core, n, st, Compensating, NodeCompensating(n));
  }

  lemma {:induction false} MoveOnce(c: Core, n: Id, st: Status, next: Status, e: Event)
    ensures Move(c.(status := c.status[n := st]), n, next, e) == Move(c, n, next, e)
  {
    assert c.status[n := st][n := next] == c.status[n := next];
  }

  lemma {:induction false} FailTransitions(st: Status)
    ensures Machine.FailedFrom(st) == Waiting <==> st == Waiting
    ensures Transition(Running, Fail).Some? && Transition(Verifying, Fail).Some? && Transition(Waiting, Fail).None?
  {}

  lemma {:induction false} NewRunListed(runId: string, g: seq<Node>)
    ensures Listed(Machine.NewRun(runId, g))
  {
    ByIdDeps(g);
    forall i | 0 <= i < |g|
      ensures g[i].id in ById(g)
    {
      DepsKeys(g, g[i].id);
    }
  }

  lemma {:induction false} AnnouncedCreated(log: seq<Event>)
    ensures Announced(log).Some? ==> Announced(log).value.Created?
  {
    if log != [] { AnnouncedCreated(log[..|log| - 1]); }
  }
}
