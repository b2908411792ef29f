/** How one process goes on, how its run stops, and when the two status functions agree. */
module Stopping {
  import opened Wrappers
  import opened WorkflowTypes
  import opened NodeMachine
  import opened Graph
  import opened Layers
  import opened WorkflowLog
  import opened WorkflowCore
  import opened CoreInvariant
  import opened Recovery
  import opened Keys
  import Bulkhead
  import opened Machine
  import opened MachineInvariant
  import opened MachineSteps
  import opened WorkerSteps
  import opened DriverSteps
  import opened RoundSteps
  import opened Restart
  import opened Safety

  /* ---------- how statuses evolve within a process ---------- */

  /** Statuses that no step of a process changes. */
  predicate Settled(st: Status) {
    st == Completed || st == Skipped || st == Cancelled
  }

  ghost predicate Evolves(c: Core, d: Core) {
    && d.graph == c.graph && d.runId == c.runId && d.status.Keys == c.status.Keys
    && forall n | n in c.status ::
         && (Settled(c.status[n]) ==> d.status[n] == c.status[n])
         && (d.status[n] == Cancelled ==> c.status[n] == Cancelled)
         && (d.status[n] == Planned ==> c.status[n] == Planned)
  }

  /** A move that is not the run's last. */
  ghost predicate GoesOn(s: State, t: State) {
    && Evolves(s.core, t.core) && s.frames.Keys <= t.frames.Keys && t.registry == s.registry && t.limits == s.limits
    && (t.driver.Stopped? ==> s.driver.Stopped? && t.core == s.core)
  }

  /** The run's last move. */
  ghost predicate Ends(s: State, t: State) {
    Sound(s) && s.driver.Between? && (s.cancelled || ReadyList(s.core.graph, s.core.status) == []) && t == StopRun(s)
  }

  lemma {:induction false} StepEvolves(c: Core, d: Core, n: Id)
    requires Others(c, d, n) && n in c.status && n in d.status && Stepped(d.status[n])
    requires c.status[n] != Planned && !Settled(c.status[n])
    ensures Evolves(c, d)
  {
    hide Snaps, SnapOf;
  }

  lemma {:induction false} TouchShape(s: State, t: State, n: Id)
    requires Touches(s, t, n)
    ensures n in s.core.status && n in t.core.status && Others(s.core, t.core, n) && Stepped(t.core.status[n])
    ensures s.frames.Keys <= t.frames.Keys && t.registry == s.registry && t.limits == s.limits && t.driver == s.driver
  {
    hide Inv, PassOk, AttemptOk, Retry.PolicyOf, ViewOk, Others, ById;
    OthersKeys(s.core, t.core, n);
  }

  lemma {:induction false} OthersKeys(c: Core, d: Core, n: Id)
    requires Others(c, d, n)
    ensures d.status.Keys == c.status.Keys
  {
    hide Snaps, SnapOf;
  }

  lemma {:induction false} FrameGoesOn(s: State, t: State, n: Id)
    requires Good(s) && Acts(s, t, n)
    ensures GoesOn(s, t)
  {
    hide Good, Flow, Touches, Live, Others, Evolves, NodesOk, Stepped;
    GoodFlows(s);
    FlowNodes(s);
    LiveNotDone(s, n);
    LiveDispatches(s, n);
    TouchShape(s, t, n);
    StepEvolves(s.core, t.core, n);
  }

  lemma {:induction false} LiveDispatches(s: State, n: Id)
    requires Flow(s) && n in s.frames && n in s.core.status && Live(s.frames[n].pc, s.core.status[n])
    ensures s.driver.Dispatching?
  {
    hide NodesOk, WorkersOk, QueueOk, BatchOk, LayersOk, Sound, FaultOk, SeatsOk;
    assert OwnerOk(s, n);
  }

  lemma {:induction false} BusyDispatches(s: State, w: nat)
    requires Flow(s) && w < |s.workers| && !s.workers[w].Gone?
    ensures s.driver.Dispatching?
  {
    hide NodesOk, OwnersOk, QueueOk, BatchOk, LayersOk, Sound, FaultOk, SeatsOk;
    assert WorkerOk(s, s.workers[w]);
  }

  lemma {:induction false} RunEvolves(c: Core, n: Id, attempt: int)
    requires n in c.status && c.status[n] == Ready
    ensures Evolves(c, RunNode(c, n, attempt))
  {}

  lemma {:induction false} EvolvesSame(c: Core)
    ensures Evolves(c, c)
  {}

  lemma {:induction false} BeginGoesOn(s: State, w: nat)
    requires Good(s) && Sound(s) && w < |s.workers| && s.workers[w].Holding? && s.workers[w].job.nodeId in s.core.status
    ensures GoesOn(s, BeginJob(s, w))
  {
    hide Good, Flow, NodeKey, Bulkhead.Acquired, Seat, RunNode, Evolves, ById, Listed;
    var n := s.workers[w].job.nodeId;
    GoodFlows(s);
    BusyDispatches(s, w);
    EvolvesSame(s.core);
    if Key(s, n) !in s.completed && Key(s, n) !in s.inFlight {
      FreshIsReady(s, w);
      BeginIs(s, w);
      RunEvolves(s.core, n, s.workers[w].job.attempt);
    }
  }

  lemma {:induction false} RecordGoesOn(s: State, w: nat, t: State, c: Core, n: Id)
    requires w < |s.workers| && s.driver.Dispatching? && Finishes(s.core, c, n)
    requires t == s.(workers := s.workers[w := Idle], counters := t.counters, core := c)
    ensures GoesOn(s, t)
  {
    hide Inv, Promoted, Snaps, SnapOf;
  }

  lemma {:induction false} FreesGoesOn(s: State, t: State, w: nat, n: Id)
    requires Frees(s, t, w, n) && s.driver.Dispatching?
    ensures GoesOn(s, t)
  {
    hide Live, Evolves, Bulkhead.Released, Seat;
    EvolvesSame(s.core);
  }

  lemma {:induction false} SettleGoesOn(s: State, w: nat, t: State)
    requires Good(s) && Sound(s) && w < |s.workers| && s.workers[w].Awaiting? && s.workers[w].nodeId in s.core.status
    requires SettleJob(s, w) == Some(t)
    ensures GoesOn(s, t)
  {
    hide Good, Flow, NodeKey, CompleteNode, Inv, Finishes, SettleJob, Bulkhead.Released, Seat, Frees, GoesOn;
    var n := s.workers[w].nodeId;
    GoodGives(s);
    GoodFlows(s);
    BusyDispatches(s, w);
    SettleIs(s, w, t);
    if Frees(s, t, w, n) {
      FreesGoesOn(s, t, w, n);
    } else {
      CompleteFinishes(s.core, n, s.completed[Key(s, n)]);
      RecordGoesOn(s, w, t, t.core, n);
    }
  }

  lemma {:induction false} WorkerGoesOn(s: State, step: Step, t: State)
    requires Good(s) && Sound(s) && WorkerStep(s, step) == Some(t)
    ensures GoesOn(s, t)
  {
    hide Good, Sound, BeginJob, SettleJob, Flow;
    GoodFlows(s);
    match step {
      case Take(w, job) => BusyDispatches(s, w);
      case Leave(w) => BusyDispatches(s, w);
      case Begin(w) => BeginGoesOn(s, w);
      case Settle(w) => SettleGoesOn(s, w, t);
      case _ =>
    }
  }

  lemma {:induction false} DriverGoesOn(s: State, step: Step, t: State)
    requires Good(s) && Sound(s) && DriverStep(s, step) == Some(t) && !step.Crash?
    ensures GoesOn(s, t) || Ends(s, t)
  {
    hide Good, Sound, StopRun, ReadyList, EnqueueAll, JobsFor, Inv;
    GoodGives(s);
    match step {
      case NextRound => EnqueueKeeps(s.core, ReadyList(s.core.graph, s.core.status));
      case _ =>
    }
  }

  lemma {:induction false} MoveGoesOn(s: State, t: State)
    requires Good(s) && Moves(s, t)
    ensures GoesOn(s, t) || Ends(s, t)
  {
    hide Good, Sound, FrameStep, WorkerStep, DriverStep, GoesOn, Ends, Acts;
    var step: Step :| !step.Crash? && StepTo(s, step, t);
    if FrameStep(s, step) == Some(t) {
      var n := FrameActs(s, step, t);
      FrameGoesOn(s, t, n);
    } else if WorkerStep(s, step) == Some(t) {
      WorkerGoesOn(s, step, t);
    } else {
      DriverGoesOn(s, step, t);
    }
  }

  /* ---------- the stopped run ---------- */

  ghost predicate AllSettledOrStuck(st: Statuses) {
    forall n | n in st :: Terminal(st[n]) || st[n] == Planned
  }

  /** A stopped run has no unfinished node but planned ones, and its log ends with the status announced. */
  ghost predicate StopOk(s: State) {
    s.driver.Stopped? ==>
      && AllSettledOrStuck(s.core.status)
      && |s.core.log| > 0 && s.core.log[|s.core.log| - 1] == RunEnded(FinalStatus(s.core.status))
  }

  lemma {:induction false} NoneUnderWay(s: State, n: Id)
    requires Flow(s) && s.driver.Between? && n in s.core.status
    ensures Terminal(s.core.status[n]) || s.core.status[n] == Planned || s.core.status[n] == Ready
  {
    hide BatchOk, LayersOk, QueueOk, Live, OwnersOk, WorkersOk, NodesOk, Sound, SeatsOk;
    FlowWorkers(s);
    BetweenIdle(s);
    NothingLive(s);
    FlowNodes(s);
    NodesGive(s, n);
    OverView(ViewOf(s, n));
  }

  lemma {:induction false} FlowWorkers(s: State)
    requires Flow(s)
    ensures WorkersOk(s)
  {}

  lemma {:induction false} OverView(v: View)
    requires ViewOk(v) && (v.frame.Some? ==> !Live(v.frame.value.pc, v.st) && !v.frame.value.pc.Escaped?)
    ensures Terminal(v.st) || v.st == Planned || v.st == Ready
  {}

  lemma {:induction false} EndsOk(s: State, t: State)
    requires Good(s) && Ends(s, t)
    ensures StopOk(t) && s.core.graph == t.core.graph && OnlyCancels(s.core.status, t.core.status)
            && t.frames == s.frames
    ensures t.registry == s.registry && t.limits == s.limits && t.core.runId == s.core.runId
    ensures t.driver.Stopped? && (!s.cancelled ==> t.core.status == s.core.status)
    ensures s.cancelled ==> forall n | n in t.core.status :: Terminal(t.core.status[n])
  {
    hide Good, Inv, CancelAll, Sound, Flow, FinalStatus, ReadyList;
    GoodGives(s);
    GoodFlows(s);
    ClosedKeeps(s.core, s.cancelled);
    forall n | n in t.core.status && !s.cancelled
      ensures Terminal(t.core.status[n]) || t.core.status[n] == Planned
    {
      NoneUnderWay(s, n);
      InvListed(s.core);
      ReadyMembers(s.core.graph, s.core.status, n);
    }
  }

  lemma {:induction false} StopStays(s: State, t: State)
    requires Good(s) && StopOk(s) && Next(s, t)
    ensures StopOk(t)
  {
    hide Good, Sound, FrameStep, WorkerStep, DriverStep, Ends, StopOk, Evolves;
    var step: Step :| StepTo(s, step, t);
    if step.Crash? && DriverStep(s, step) == Some(t) {
      CrashRestarts(s, step, t);
    } else {
      NotCrash(s, step, t);
      MoveGoesOn(s, t);
      if Ends(s, t) { EndsOk(s, t); } else { GoesOnOk(s, t); }
    }
  }

  lemma {:induction false} NotCrash(s: State, step: Step, t: State)
    requires StepTo(s, step, t) && !(step.Crash? && DriverStep(s, step) == Some(t))
    ensures Moves(s, t)
  {
    hide Sound, DriverStep;
    assert !step.Crash?;
  }

  lemma {:induction false} GoesOnOk(s: State, t: State)
    requires StopOk(s) && GoesOn(s, t)
    ensures StopOk(t)
  {
    hide FinalStatus, Evolves;
  }

  lemma {:induction false} CrashRestarts(s: State, step: Step, t: State)
    requires Sound(s) && step.Crash? && DriverStep(s, step) == Some(t)
    ensures StopOk(t) && t.driver.Between?
  {
    hide Hydrate, Sound;
  }

  lemma {:induction false} RunsStopOk(run: seq<State>, i: nat)
    requires IsRun(run) && i < |run|
    ensures StopOk(run[i])
    decreases i
  {
    hide Good, Next, StopOk, Init;
    if i == 0 {
      InitShape(run[0]);
      BootOpen(run[0]);
    } else {
      var before := i - 1;
      RunsStopOk(run, before);
      RunsAreGood(run, before);
      assert Next(run[before], run[before + 1]);
      StopStays(run[before], run[i]);
    }
  }

  lemma {:induction false} BootOpen(s: State)
    requires Init(s)
    ensures StopOk(s)
  {
    hide Promote, NewRun, Seeds, Valid;
  }

  /* ---------- no stuck nodes ---------- */

  /** Statuses that keep dependents from ever running, other than skipping. */
  predicate Blocking(st: Status) {
    st == Failed || st == RolledBack || st == Quarantined || st == Cancelled
  }

  ghost predicate BlockedBy(r: Rel, st: Statuses, n: Id, a: Id) {
    a in st && Blocking(st[a]) && Ancestor(r, a, n)
  }

  lemma {:induction false} PlannedIsBlocked(r: Rel, st: Statuses, n: Id) returns (a: Id)
    requires Acyclic(r) && st.Keys == r.Keys && Promoted(r, st) && SkipClosed(r, st) && AllSettledOrStuck(st)
    requires n in st && st[n] == Planned
    ensures BlockedBy(r, st, n, a)
    decreases Rank(r, n)
  {
    assert !DepsDone(r, st, n);
    var d :| d in r[n] && !(d in st && st[d] == Completed);
    assert Edge(r, n, d);
    RankDecreases(r, n, d);
    assert IsWalk(r, [n, d]);
    assert Ancestor(r, d, n);
    if st[d] == Planned {
      a := PlannedIsBlocked(r, st, d);
      AncestorTransitive(r, a, d, n);
    } else {
      a := d;
    }
  }

  /**
   When a run has stopped, every node still planned has an ancestor that failed, was rolled back, quarantined or
   cancelled.
   */
  lemma {:induction false} NoStuckNodes(run: seq<State>, i: nat, n: Id) returns (a: Id)
    requires IsRun(run) && i < |run| && run[i].driver.Stopped?
    requires n in run[i].core.status && run[i].core.status[n] == Planned
    ensures BlockedBy(Deps(run[i].core.graph), run[i].core.status, n, a)
  {
    hide Good, IsRun, Inv, SkipClosed, Acyclic, Deps, Promoted, BlockedBy;
    RunsAreGood(run, i);
    RunsStopOk(run, i);
    GoodGives(run[i]);
    InvDeps(run[i].core);
    a := PlannedIsBlocked(Deps(run[i].core.graph), run[i].core.status, n);
  }

  /* ---------- the two statuses ---------- */

  ghost predicate SomePlanned(st: Statuses) {
    exists n :: n in st && st[n] == Planned
  }

  ghost predicate SomeFailure(st: Statuses) {
    exists n :: n in st && (st[n] == Failed || st[n] == RolledBack || st[n] == Quarantined)
  }

  ghost predicate SomeCancelled(st: Statuses) {
    exists n :: n in st && st[n] == Cancelled
  }

  lemma {:induction false} StatusesCompared(st: Statuses)
    requires AllSettledOrStuck(st)
    requires SomePlanned(st) && !SomeFailure(st) ==> SomeCancelled(st)
    ensures FinalStatus(st) == DerivedStatus(st) <==> SomeFailure(st) || !SomePlanned(st)
    ensures FinalStatus(st) == RunCompleted <==> forall n | n in st :: st[n] == Completed || st[n] == Skipped
    ensures DerivedStatus(st) == RunCompleted <==> forall n | n in st :: st[n] == Completed || st[n] == Skipped
  {
    if n :| n in st && st[n] == Quarantined { assert AnyIs(st, {Quarantined}); }
    if n :| n in st && (st[n] == Failed || st[n] == RolledBack) { assert AnyIs(st, {Failed, RolledBack}); }
    if n :| n in st && st[n] == Cancelled { assert AnyIs(st, {Cancelled}); }
  }

  lemma {:induction false} StuckImplies(run: seq<State>, i: nat)
    requires IsRun(run) && i < |run| && run[i].driver.Stopped?
    ensures var st := run[i].core.status; SomePlanned(st) && !SomeFailure(st) ==> SomeCancelled(st)
  {
    hide IsRun, Ancestor;
    var st := run[i].core.status;
    if SomePlanned(st) && !SomeFailure(st) {
      var n :| n in st && st[n] == Planned;
      var a := NoStuckNodes(run, i, n);
      assert a in st && st[a] == Cancelled;
    }
  }

  /**
   When a run has stopped, the log's last event announces a status; it equals the reported status exactly when some
   node failed, was rolled back or quarantined, or no node is left planned. Each of the two is "completed" exactly when
   every node was completed or skipped.
   */
  lemma {:induction false} StatusAgreement(run: seq<State>, i: nat)
    requires IsRun(run) && i < |run| && run[i].driver.Stopped?
    ensures var c := run[i].core;
            && |c.log| > 0 && c.log[|c.log| - 1] == RunEnded(FinalStatus(c.status))
            && (FinalStatus(c.status) == DerivedStatus(c.status) <==> SomeFailure(c.status) || !SomePlanned(c.status))
            && (FinalStatus(c.status) == RunCompleted <==>
                  forall n | n in c.status :: c.status[n] == Completed || c.status[n] == Skipped)
            && (DerivedStatus(c.status) == RunCompleted <==>
                  forall n | n in c.status :: c.status[n] == Completed || c.status[n] == Skipped)
  {
    hide IsRun, FinalStatus, DerivedStatus, SomeFailure, SomePlanned, SomeCancelled;
    RunsStopOk(run, i);
    StuckImplies(run, i);
    StatusesCompared(run[i].core.status);
  }

  /* ---------- a process that restored no cancelled node above a planned one ---------- */

  /**
   Since the process had data `c` nothing has become cancelled or planned, unless the run has stopped with nothing
   planned.
   */
  ghost predicate CancelsAtEnd(c: Core, s: State) {
    && s.core.graph == c.graph && s.core.status.Keys == c.status.Keys
    && ((s.driver.Stopped? && !SomePlanned(s.core.status))
        || forall n | n in c.status ::
             && (s.core.status[n] == Cancelled ==> c.status[n] == Cancelled)
             && (s.core.status[n] == Planned ==> c.status[n] == Planned))
  }

  lemma {:induction false} CancelsStay(c: Core, s: State, t: State)
    requires Good(s) && CancelsAtEnd(c, s) && Moves(s, t) && (s.driver.Stopped? ==> StopOk(s))
    ensures CancelsAtEnd(c, t)
  {
    hide Good, Moves, Ends, StopOk, Sound;
    MoveGoesOn(s, t);
    if Ends(s, t) {
      EndsOk(s, t);
      EndsFrom(s, t);
    } else if s.driver.Stopped? {
      StoppedStays(s, t);
    }
  }

  lemma {:induction false} EndsFrom(s: State, t: State)
    requires Ends(s, t)
    ensures s.driver.Between?
  {
    hide Sound, StopRun;
  }

  /** A stopped process takes no further step but to note redeliveries and cancellation requests. */
  lemma {:induction false} StoppedStays(s: State, t: State)
    requires Good(s) && s.driver.Stopped? && Moves(s, t)
    ensures t.driver.Stopped? && t.core == s.core
  {
    hide Good, Sound, FrameStep, WorkerStep, Acts, Flow, Live;
    GoodFlows(s);
    var step: Step :| !step.Crash? && StepTo(s, step, t);
    if FrameStep(s, step) == Some(t) {
      var n := FrameActs(s, step, t);
      ActsLive(s, t, n);
      LiveDispatches(s, n);
    } else if WorkerStep(s, step) == Some(t) {
      WorkerIsBusy(s, step, t);
    }
  }

  lemma {:induction false} ActsLive(s: State, t: State, n: Id)
    requires Acts(s, t, n)
    ensures n in s.frames && n in s.core.status && Live(s.frames[n].pc, s.core.status[n])
  {
    hide NodeEffect;
  }

  lemma {:induction false} WorkerIsBusy(s: State, step: Step, t: State)
    requires Flow(s) && Sound(s) && WorkerStep(s, step) == Some(t)
    ensures s.driver.Dispatching?
  {
    hide Flow, Sound, BeginJob, SettleJob;
    match step {
      case Take(w, _) => BusyDispatches(s, w);
      case Leave(w) => BusyDispatches(s, w);
      case Begin(w) => BusyDispatches(s, w);
      case Settle(w) => BusyDispatches(s, w);
      case _ =>
    }
  }

  lemma {:induction false} CancelsAlong(run: seq<State>, a: nat, b: nat)
    requires IsRun(run) && OneProcess(run, a, b)
    ensures CancelsAtEnd(run[a].core, run[b])
    decreases b
  {
    hide Good, IsRun, Moves, StopOk, SomePlanned;
    if a < b {
      var before := b - 1;
      assert Moves(run[before], run[before + 1]);
      CancelsAlong(run, a, before);
      RunsAreGood(run, before);
      RunsStopOk(run, before);
      CancelsStay(run[a].core, run[before], run[b]);
    }
  }

  /** No planned node has a cancelled ancestor. */
  ghost predicate NoneCutOff(c: Core) {
    forall n, x | n in c.status && c.status[n] == Planned && x in c.status && Ancestor(Deps(c.graph), x, n) ::
      c.status[x] != Cancelled
  }

  /**
   If a process starts with no cancelled ancestor of a planned node, as when it restored no cancellation at all, then
   every node that is planned when its run has stopped has an ancestor that failed, was rolled back or was quarantined.
   */
  lemma {:induction false} PlannedBelowFailure(run: seq<State>, a: nat, b: nat, n: Id) returns (x: Id)
    requires IsRun(run) && OneProcess(run, a, b) && NoneCutOff(run[a].core) && run[b].driver.Stopped?
    requires n in run[b].core.status && run[b].core.status[n] == Planned
    ensures x in run[b].core.status && Ancestor(Deps(run[b].core.graph), x, n)
    ensures var st := run[b].core.status[x]; st == Failed || st == RolledBack || st == Quarantined
  {
    hide IsRun, Moves, Ancestor, Deps;
    x := NoStuckNodes(run, b, n);
    CancelsAlong(run, a, b);
  }

  /** Under the same condition the announced and the reported status of its run are equal. */
  lemma {:induction false} StatusesAgree(run: seq<State>, a: nat, b: nat)
    requires IsRun(run) && OneProcess(run, a, b) && NoneCutOff(run[a].core) && run[b].driver.Stopped?
    ensures FinalStatus(run[b].core.status) == DerivedStatus(run[b].core.status)
  {
    hide IsRun, Moves, FinalStatus, DerivedStatus, NoneCutOff, Ancestor;
    StatusAgreement(run, b);
    if n :| n in run[b].core.status && run[b].core.status[n] == Planned {
      var x := PlannedBelowFailure(run, a, b, n);
    }
  }

  /* ---------- what a process keeps ---------- */

  /** Its graph, its registry of compensations and its limits. */
  lemma {:induction false} ProcessConstant(run: seq<State>, a: nat, b: nat)
    requires IsRun(run) && OneProcess(run, a, b)
    ensures run[b].core.graph == run[a].core.graph && run[b].registry == run[a].registry
            && run[b].limits == run[a].limits
    ensures run[a].core.status.Keys == run[b].core.status.Keys
    decreases b
  {
    hide Good, IsRun, Moves, Ends, StopOk, Settled;
    if a < b {
      var before := b - 1;
      assert Moves(run[before], run[before + 1]);
      ProcessConstant(run, a, before);
      RunsAreGood(run, before);
      MoveGoesOn(run[before], run[b]);
      if Ends(run[before], run[b]) { EndsOk(run[before], run[b]); }
    }
  }

  /* ---------- settled nodes ---------- */

  lemma {:induction false} SettledStays(run: seq<State>, a: nat, b: nat, n: Id)
    requires IsRun(run) && OneProcess(run, a, b) && n in run[a].core.status && Settled(run[a].core.status[n])
    ensures n in run[b].core.status && run[b].core.status[n] == run[a].core.status[n]
    ensures run[b].core.graph == run[a].core.graph
    decreases b
  {
    hide Good, IsRun, Moves, Ends, Settled, StopOk;
    if a < b {
      var before := b - 1;
      assert Moves(run[before], run[before + 1]);
      SettledStays(run, a, before, n);
      RunsAreGood(run, before);
      MoveGoesOn(run[before], run[b]);
      if Ends(run[before], run[b]) {
        EndsOk(run[before], run[b]);
        SettledIsTerminal(run[before].core.status[n]);
      }
    }
  }

  lemma {:induction false} SettledIsTerminal(st: Status)
    requires Settled(st)
    ensures Terminal(st)
  {}

  /** A node that was skipped, cancelled or completed without an execution is never executed by this process. */
  lemma {:induction false} SkippedNeverRuns(run: seq<State>, a: nat, b: nat, n: Id)
    requires IsRun(run) && OneProcess(run, a, b) && n in run[a].core.status
    requires run[a].core.status[n] == Skipped || run[a].core.status[n] == Cancelled
    ensures n !in run[b].frames && n !in run[b].started
  {
    hide Good, IsRun, Moves, Flow;
    SettledStays(run, a, b, n);
    RunsAreGood(run, b);
    GoodFlows(run[b]);
    StartedAtMostOnce(run, b);
    if n in run[b].frames { ExecutedHasBegun(run[b], n); }
  }
}
