/** Starting, crashing and recovering: every reachable state of every run, crashes included, is good. */
module Restart {
  import opened Wrappers
  import opened WorkflowTypes
  import opened NodeMachine
  import opened Graph
  import opened Layers
  import opened WorkflowLog
  import opened WorkflowCore
  import opened CoreInvariant
  import opened Recovery
  import opened Keys
  import opened Retry
  import Bulkhead
  import opened Machine
  import opened Seats
  import opened MachineInvariant
  import opened MachineSteps
  import opened WorkerSteps
  import opened DriverSteps
  import opened RoundSteps

  /* ---------- a process that has just started ---------- */

  lemma {:induction false} SeedsExact(c: Core, order: seq<Id>, n: Id)
    ensures NodeKey(c.runId, c.graph, n) in Seeds(c, order) <==> n in order && n in c.results
    ensures n in order && n in c.results ==> Seeds(c, order)[NodeKey(c.runId, c.graph, n)] == c.results[n]
  {
    hide NodeKey;
    if order != [] {
      var last := order[|order| - 1];
      SeedsExact(c, order[..|order| - 1], n);
      assert order == order[..|order| - 1] + [last];
      if last != n && NodeKey(c.runId, c.graph, last) == NodeKey(c.runId, c.graph, n) {
        NodeKeysDiffer(c.runId, c.graph, last, n);
      }
    }
  }

  /** Data from which a process can start: consistent, promoted, and with no node under way. */
  ghost predicate Startable(c: Core) {
    && Inv(c) && Promoted(Deps(c.graph), c.status)
    && c.status.Keys == c.attempt.Keys == c.failures.Keys
    && forall n | n in c.status :: AtRest(c.status[n])
  }

  lemma {:induction false} SeededExactly(c: Core, n: Id)
    requires Inv(c) && n in c.status
    ensures NodeKey(c.runId, c.graph, n) in Seeds(c, c.completionOrder) <==> c.status[n] == Completed
  {
    hide LogOk, Agrees, DepSafe, AboveDone, SkipClosed, Valid, NodeKey, Seeds;
    OrderPositions(Deps(c.graph), CompletedSet(c.status), c.completionOrder);
    SeedsExact(c, c.completionOrder, n);
    assert n in c.results.Keys <==> n in CompletedSet(c.status);
  }

  lemma {:induction false} BootNodes(c: Core, registry: map<string, Compensation>, limits: Bulkhead.Limits,
      cancelled: bool, firstRun: bool)
    requires Startable(c)
    ensures NodesOk(Boot(c, registry, limits, cancelled, firstRun))
  {
    hide Inv, Promoted, NodeKey, Seeds;
    var s := Boot(c, registry, limits, cancelled, firstRun);
    forall n | n in s.core.status
      ensures ViewOk(ViewOf(s, n))
    {
      SeededExactly(c, n);
    }
  }

  lemma {:induction false} BootFlow(c: Core, registry: map<string, Compensation>, limits: Bulkhead.Limits,
      cancelled: bool, firstRun: bool)
    requires Startable(c)
    requires firstRun ==> forall n | n in c.status :: c.status[n] == Planned || c.status[n] == Ready
    ensures var s := Boot(c, registry, limits, cancelled, firstRun);
            OwnersOk(s) && AttemptsOk(s) && PassesOk(s) && WorkersOk(s) && QueueOk(s) && BatchOk(s) && LayersOk(s)
  {
    hide Inv, Promoted, NodeKey, Seeds, PolicyOf, Deps;
  }

  lemma {:induction false} BootSeats(c: Core, registry: map<string, Compensation>, limits: Bulkhead.Limits,
      cancelled: bool, firstRun: bool)
    ensures SeatsOk(Boot(c, registry, limits, cancelled, firstRun))
  {
    hide SeatsMatch, Seeds;
    var s := Boot(c, registry, limits, cancelled, firstRun);
    assert Unseated(s.workers);
    UnseatedMatch(limits, s.counters, c.runId, c.graph, s.workers);
  }

  lemma {:induction false} BootGood(c: Core, registry: map<string, Compensation>, limits: Bulkhead.Limits,
      cancelled: bool, firstRun: bool)
    requires Startable(c)
    requires firstRun ==> forall n | n in c.status :: c.status[n] == Planned || c.status[n] == Ready
    ensures Good(Boot(c, registry, limits, cancelled, firstRun))
  {
    hide Inv, NodesOk, OwnersOk, AttemptsOk, PassesOk, WorkersOk, QueueOk, BatchOk, LayersOk, Promoted, Seeds, SeatsOk;
    BootSeats(c, registry, limits, cancelled, firstRun);
    BootNodes(c, registry, limits, cancelled, firstRun);
    BootFlow(c, registry, limits, cancelled, firstRun);
    InvListed(c);
    ByIdDeps(c.graph);
  }

  /* ---------- the first process ---------- */

  lemma {:induction false} NewRunKeeps(runId: string, g: seq<Node>)
    requires Valid(g)
    ensures Inv(NewRun(runId, g))
  {
    hide UniqueIds, HasCycle;
    var c := NewRun(runId, g);
    ByIdDeps(g);
    forall i | 0 <= i < |g|
      ensures g[i].id in c.status
    {
      DepsKeys(g, g[i].id);
    }
    assert CompletedSet(c.status) == {} == c.results.Keys;
    SnapsAppend([], Created(runId, g));
    assert [] + [Created(runId, g)] == c.log;
  }

  lemma {:induction false} FirstStart(runId: string, g: seq<Node>)
    requires Valid(g) && Listed(NewRun(runId, g))
    ensures var c := Promote(NewRun(runId, g), 0);
            Startable(c) && forall n | n in c.status :: c.status[n] == Planned || c.status[n] == Ready
  {
    hide Inv, Promoted, NewRun, Promote, Valid, Deps, DepsDone;
    NewRunKeeps(runId, g);
    NewRunPlanned(runId, g);
    PromoteAll(NewRun(runId, g));
  }

  lemma {:induction false} InitGood(s: State)
    requires Init(s)
    ensures Good(s)
  {
    hide Good, NewRun, Promote, Boot, Startable, Valid, Init;
    InitShape(s);
    FirstStart(s.core.runId, s.core.graph);
    BootGood(Promote(NewRun(s.core.runId, s.core.graph), 0), s.registry, s.limits, s.cancelled, true);
  }

  lemma {:induction false} NewRunPlanned(runId: string, g: seq<Node>)
    ensures var c := NewRun(runId, g);
            && c.status.Keys == c.attempt.Keys == c.failures.Keys == ById(g).Keys
            && forall n | n in c.status :: c.status[n] == Planned
  {}

  lemma {:induction false} InitShape(s: State)
    requires Init(s)
    ensures Valid(s.core.graph) && Listed(NewRun(s.core.runId, s.core.graph))
    ensures s == Boot(Promote(NewRun(s.core.runId, s.core.graph), 0), s.registry, s.limits, s.cancelled, true)
  {
    hide Valid, Boot, NewRun, Promote;
  }

  /* ---------- a process that recovers ---------- */

  lemma {:induction false} HydrateStartable(g: seq<Node>, log: seq<Event>)
    requires Valid(g) && LogOk(g, log)
    ensures Hydrate(log).Some? && Startable(Hydrate(log).value) && Hydrate(log).value.graph == g
    ensures log <= Hydrate(log).value.log
  {
    hide Valid, Inv, LogOk, Promoted, Deps, Snaps, Hydrate, OnlyBelowSkips, Restore;
    HydrateKeeps(g, log);
    var runId, d := HydrateStages(g, log);
    RestoredAtRest(runId, g, log);
  }

  lemma {:induction false} RestoredAtRest(runId: string, g: seq<Node>, log: seq<Event>)
    ensures var c := Restore(runId, g, log);
            && c.status.Keys == c.attempt.Keys == c.failures.Keys
            && forall n | n in c.status :: AtRest(c.status[n])
  {}

  lemma {:induction false} CrashKeeps(s: State, kept: nat)
    requires Good(s) && 1 <= kept <= |s.core.log|
    ensures Hydrate(s.core.log[..kept]).Some?
    ensures Good(Boot(Hydrate(s.core.log[..kept]).value, s.registry, s.limits, false, false))
  {
    hide Good, Startable, Inv, LogOk, Valid, Boot, Hydrate;
    GoodGives(s);
    GoodFlows(s);
    InvLogged(s.core);
    LogPrefix(s.core.graph, s.core.log, kept);
    HydrateStartable(s.core.graph, s.core.log[..kept]);
    BootGood(Hydrate(s.core.log[..kept]).value, s.registry, s.limits, false, false);
  }

  lemma {:induction false} InvLogged(c: Core)
    requires Inv(c)
    ensures Valid(c.graph) && LogOk(c.graph, c.log)
  {}

  /** A step of the drive loop or of the environment keeps the invariant. */
  lemma {:induction false} DriverKeeps(s: State, step: Step, t: State)
    requires Good(s) && Sound(s) && DriverStep(s, step) == Some(t)
    ensures Good(t)
  {
    hide Good, Sound, Round, StopRun, Hydrate, Boot, ReadyList;
    match step {
      case NextRound => RoundKeeps(s);
      case EndRound => EndKeeps(s, t);
      case Stop => StopKeeps(s);
      case Cancelling => CancelFlagKeeps(s, t);
      case Redeliver(job) => IssuedNumbered(s, job.nodeId); RedeliverKeeps(s, t, job);
      case Crash(kept) => CrashKeeps(s, kept);
      case _ =>
    }
  }

  /* ---------- all reachable states ---------- */

  lemma {:induction false} StepKeeps(s: State, step: Step, t: State)
    requires Good(s) && StepTo(s, step, t)
    ensures Good(t)
  {
    hide Good, Sound, FrameStep, WorkerStep, DriverStep;
    if FrameStep(s, step) == Some(t) {
      FrameKeeps(s, step, t);
    } else if WorkerStep(s, step) == Some(t) {
      WorkerKeeps(s, step, t);
    } else {
      DriverKeeps(s, step, t);
    }
  }

  lemma {:induction false} NextKeeps(s: State, t: State)
    requires Good(s) && Next(s, t)
    ensures Good(t)
  {
    hide Good, StepTo;
    var step :| StepTo(s, step, t);
    StepKeeps(s, step, t);
  }

  /**
   An illegal transition escapes, and breaks the process, exactly when an approval callback throws; only a restart mends
   it.
   */
  lemma {:induction false} FaultsExactly(s: State, step: Step, t: State)
    requires Good(s) && StepTo(s, step, t)
    ensures t.fault <==> !step.Crash? && (s.fault || step.ApprovalThrows?)
  {
    hide Good, Sound, FrameStep, WorkerStep, DriverStep;
    if FrameStep(s, step) == Some(t) {
      FrameFaults(s, step, t);
      FrameIsNoCrash(s, step, t);
    } else if WorkerStep(s, step) == Some(t) {
      GoodFlows(s);
      WorkerFaults(s, step, t);
    } else {
      DriverFaults(s, step, t);
    }
  }

  lemma {:induction false} FrameIsNoCrash(s: State, step: Step, t: State)
    requires Sound(s) && FrameStep(s, step) == Some(t)
    ensures !step.Crash?
  {
    hide Sound;
  }

  lemma {:induction false} WorkerFaults(s: State, step: Step, t: State)
    requires Flow(s) && Sound(s) && WorkerStep(s, step) == Some(t)
    ensures t.fault == s.fault && t.driver == s.driver && t.cancelled == s.cancelled
    ensures !step.Crash? && !step.ApprovalThrows?
  {
    hide Flow, Sound, SettleJob, BeginJob, Key, Seat, Bulkhead.Refuses;
    match step {
      case Begin(w) => BeginDrives(s, w);
      case Settle(w) => SettleDrives(s, w, t);
      case _ =>
    }
  }

  lemma {:induction false} BeginDrives(s: State, w: nat)
    requires Flow(s) && Sound(s)
    requires w < |s.workers| && s.workers[w].Holding? && s.workers[w].job.nodeId in s.core.status
    ensures var t := BeginJob(s, w); t.fault == s.fault && t.driver == s.driver && t.cancelled == s.cancelled
  {
    hide Flow, Sound, Key, Seat, Bulkhead.Acquired, BeginJob, RunNode;
    if Key(s, s.workers[w].job.nodeId) in s.completed || Key(s, s.workers[w].job.nodeId) in s.inFlight {
      JoinIs(s, w);
    } else {
      FreshIsReady(s, w);
      BeginIs(s, w);
    }
  }

  lemma {:induction false} SettleDrives(s: State, w: nat, t: State)
    requires Flow(s) && w < |s.workers| && s.workers[w].Awaiting? && s.workers[w].nodeId in s.core.status
    requires SettleJob(s, w) == Some(t)
    ensures t.fault == s.fault && t.driver == s.driver && t.cancelled == s.cancelled
  {
    hide Flow, SettleJob, Key, Seat, CompleteNode, Bulkhead.Released, Live;
    SettleIs(s, w, t);
  }

  lemma {:induction false} DriverFaults(s: State, step: Step, t: State)
    requires Sound(s) && DriverStep(s, step) == Some(t)
    ensures t.fault <==> !step.Crash? && s.fault
    ensures !step.ApprovalThrows?
  {
    hide Sound, ReadyList, EnqueueAll, JobsFor, CancelAll, FinalStatus, Hydrate, Seeds;
  }

  /** Every state of every run satisfies the invariant. */
  lemma {:induction false} RunsAreGood(run: seq<State>, i: nat)
    requires IsRun(run) && i < |run|
    ensures Good(run[i])
    decreases i
  {
    hide Good, Init, Next;
    if i == 0 {
      InitGood(run[0]);
    } else {
      var before := i - 1;
      RunsAreGood(run, before);
      assert Next(run[before], run[before + 1]);
      NextKeeps(run[before], run[i]);
    }
  }
}
