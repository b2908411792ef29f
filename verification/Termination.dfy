/**
 Every step of the process decreases the measure, and where the caps of the bulkhead admit every node some step is
 possible until the run is over; so the drive loop finishes.
 */
module Termination {
  import opened Wrappers
  import opened WorkflowTypes
  import opened Graph
  import opened Layers
  import opened WorkflowLog
  import opened WorkflowCore
  import opened Recovery
  import opened Keys
  import opened Retry
  import Bulkhead
  import opened Machine
  import opened Seats
  import opened MachineInvariant
  import opened MachineSteps
  import opened WorkerSteps
  import opened DriverSteps
  import opened RoundSteps
  import opened Restart
  import opened Safety
  import opened Stopping
  import opened Progress

  /* ---------- the measure decreases ---------- */

  lemma {:induction false} SameSize(a: Statuses, b: Statuses)
    requires a.Keys == b.Keys
    ensures |a| == |b|
  {
    assert |a| == |a.Keys| && |b| == |b.Keys|;
  }

  lemma {:induction false} FrameShape(s: State, t: State, n: Id)
    requires Acts(s, t, n)
    ensures n in s.frames && n in t.frames && t.core.graph == s.core.graph && t.core.status.Keys == s.core.status.Keys
    ensures t.started == s.started && t.batches == s.batches && t.driver == s.driver && t.queue == s.queue
    ensures t.workers == s.workers && t.frames == s.frames[n := t.frames[n]] && t.registry == s.registry
  {
    hide Inv, ViewOk, PassOk, AttemptOk, PolicyOf, Live;
  }

  lemma {:induction false} StartedOnce(s: State)
    requires Good(s)
    ensures forall i, j | 0 <= i < j < |s.started| :: s.started[i] != s.started[j]
    ensures forall n :: n in s.started <==> n in s.frames
  {
    hide Good, Lists, AttemptsOk, PassesOk, NodesOk, BatchOk, LayersOk;
    GoodLists(s);
    ListsEach(s.started, s.frames.Keys);
  }

  lemma {:induction false} FramesSize(s: State, t: State, n: Id)
    requires n in s.frames && n in t.frames && t.frames == s.frames[n := t.frames[n]]
    ensures |t.frames| == |s.frames|
  {
    assert t.frames.Keys == s.frames.Keys;
    assert |t.frames| == |t.frames.Keys| && |s.frames| == |s.frames.Keys|;
  }

  lemma {:induction false} AdvanceDecreases(s: State, t: State, n: Id)
    requires Good(s) && Acts(s, t, n) && Advances(s, t, n)
    ensures Below(MeasureOf(t), MeasureOf(s))
  {
    hide Good, Acts, PcRank, PolicyOf, ById;
    FrameShape(s, t, n);
    StartedOnce(s);
    FramesSize(s, t, n);
    SameSize(s.core.status, t.core.status);
    SameAttempts(s, t, n);
    TotalSame(s.started, AttemptRanks(t), AttemptRanks(s));
    TotalLess(s.started, PcRanks(t), PcRanks(s), n);
  }

  lemma {:induction false} SameAttempts(s: State, t: State, n: Id)
    requires n in s.frames && n in t.frames && t.frames == s.frames[n := t.frames[n]]
    requires t.core.graph == s.core.graph && t.frames[n] == s.frames[n].(pc := t.frames[n].pc)
    ensures AttemptRanks(t) == AttemptRanks(s)
  {
    hide PolicyOf, ById;
    assert AttemptRanks(t).Keys == AttemptRanks(s).Keys;
  }

  lemma {:induction false} WakeFrame(s: State, n: Id)
    requires Sound(s) && n in s.frames
    ensures n in WakeUp(s, n).frames
    ensures WakeUp(s, n).frames[n] ==
            Frame(Started, s.frames[n].attempt + 1, s.frames[n].start, s.frames[n].runs + 1, s.frames[n].owner)
  {
    hide ById, Listed, RunNode;
  }

  lemma {:induction false} AttemptFalls(s: State, t: State, n: Id)
    requires Good(s) && n in s.frames && n in t.frames && s.frames[n].pc.Sleeping?
    requires t.core.graph == s.core.graph && t.frames == s.frames[n := t.frames[n]]
    requires t.frames[n].attempt == s.frames[n].attempt + 1 && t.frames[n].start == s.frames[n].start
    ensures AttemptRanks(t).Keys == AttemptRanks(s).Keys && AttemptRanks(t)[n] < AttemptRanks(s)[n]
    ensures forall m | m in s.frames && m != n :: AttemptRanks(t)[m] == AttemptRanks(s)[m]
  {
    hide Good, PolicyOf, ById;
    SleepingBelow(s, n);
  }

  lemma {:induction false} WakeDecreases(s: State, t: State, n: Id)
    requires Good(s) && Sound(s) && Acts(s, t, n) && n in s.frames && s.frames[n].pc.Sleeping? && t == WakeUp(s, n)
    ensures Below(MeasureOf(t), MeasureOf(s))
  {
    hide Good, Sound, Acts, WakeUp, PcRanks, AttemptRanks, WorkerRanks;
    FrameShape(s, t, n);
    WakeFrame(s, n);
    StartedOnce(s);
    FramesSize(s, t, n);
    SameSize(s.core.status, t.core.status);
    AttemptFalls(s, t, n);
    AttemptKeys(s);
    TotalLess(s.started, AttemptRanks(t), AttemptRanks(s), n);
  }

  lemma {:induction false} AttemptKeys(s: State)
    ensures AttemptRanks(s).Keys == s.frames.Keys
  {}

  lemma {:induction false} SleepingBelow(s: State, n: Id)
    requires Good(s) && n in s.frames && s.frames[n].pc.Sleeping?
    ensures n in ById(s.core.graph) && s.frames[n].start <= s.frames[n].attempt < PolicyOf(DefOf(s, n)).maxAttempts
  {
    hide Good, PolicyOf, ById, Lists, PassesOk, NodesOk, BatchOk, LayersOk, Sound;
    GoodGives(s);
    GoodLists(s);
    SoundDef(s, n);
    assert AttemptOk(s.frames[n], PolicyOf(DefOf(s, n)).maxAttempts);
  }

  lemma {:induction false} FrameDecreases(s: State, step: Step, t: State)
    requires Good(s) && Sound(s) && FrameStep(s, step) == Some(t)
    ensures Below(MeasureOf(t), MeasureOf(s))
  {
    hide Good, Sound, Acts, Advances, Below, MeasureOf, FrameStep, WakeUp;
    var n := FrameActs(s, step, t);
    if step.Wake? {
      WakeIs(s, step, t, n);
      WakeDecreases(s, t, n);
    } else {
      FrameAdvances(s, step, t, n);
      AdvanceDecreases(s, t, n);
    }
  }

  lemma {:induction false} WakeIs(s: State, step: Step, t: State, n: Id)
    requires Sound(s) && FrameStep(s, step) == Some(t) && step == Wake(n)
    ensures n in s.frames && s.frames[n].pc.Sleeping? && t == WakeUp(s, n)
  {
    hide Sound, WakeUp;
  }

  /** Steps of workers that leave executions and rounds as they are. */
  ghost predicate OnlyJobs(s: State, t: State) {
    && t.core.graph == s.core.graph && t.core.status.Keys == s.core.status.Keys
    && t.frames == s.frames && t.started == s.started && t.batches == s.batches && t.driver == s.driver
    && 3 * |t.queue| + WorkerRanks(t.workers) < 3 * |s.queue| + WorkerRanks(s.workers)
  }

  lemma {:induction false} JobsDecrease(s: State, t: State)
    requires OnlyJobs(s, t)
    ensures Below(MeasureOf(t), MeasureOf(s))
  {
    hide PcRank, PolicyOf, ById, WorkerRanks, Total;
    SameSize(s.core.status, t.core.status);
    assert PcRanks(t) == PcRanks(s);
    assert AttemptRanks(t) == AttemptRanks(s);
  }

  lemma {:induction false} TakeDecreases(s: State, t: State, w: nat, job: Job)
    requires w < |s.workers| && s.workers[w].Idle? && job in s.queue
    requires t == s.(queue := s.queue - multiset{job}, workers := s.workers[w := Holding(job)])
    ensures Below(MeasureOf(t), MeasureOf(s))
  {
    hide MeasureOf, Below;
    WorkerRanksSet(s.workers, w, Holding(job));
    assert s.queue == (s.queue - multiset{job}) + multiset{job};
    JobsDecrease(s, t);
  }

  lemma {:induction false} LowerDecreases(s: State, t: State, w: nat, worker: Worker)
    requires w < |s.workers| && WorkerRank(worker) < WorkerRank(s.workers[w])
    requires t == s.(workers := s.workers[w := worker], counters := t.counters, core := t.core)
    requires t.core.graph == s.core.graph && t.core.status.Keys == s.core.status.Keys
    ensures Below(MeasureOf(t), MeasureOf(s))
  {
    hide MeasureOf, Below;
    WorkerRanksSet(s.workers, w, worker);
    JobsDecrease(s, t);
  }

  lemma {:induction false} BeginDecreases(s: State, w: nat)
    requires Good(s) && Sound(s) && w < |s.workers| && s.workers[w].Holding? && s.workers[w].job.nodeId in s.core.status
    ensures Below(MeasureOf(BeginJob(s, w)), MeasureOf(s))
  {
    hide Good, MeasureOf, Below, Key, Flow, RunNode, Bulkhead.Acquired, Seat, Sound, BeginJob;
    var job := s.workers[w].job;
    if Key(s, job.nodeId) in s.completed || Key(s, job.nodeId) in s.inFlight {
      JoinIs(s, w);
      LowerDecreases(s, BeginJob(s, w), w, Awaiting(job.nodeId));
    } else {
      GoodFlows(s);
      FreshIsReady(s, w);
      BeginIs(s, w);
      RunKeys(s.core, job.nodeId, job.attempt);
      StartDecreases(s, BeginJob(s, w), job.nodeId);
    }
  }

  lemma {:induction false} RunKeys(c: Core, n: Id, attempt: int)
    requires n in c.status
    ensures RunNode(c, n, attempt).status.Keys == c.status.Keys && RunNode(c, n, attempt).graph == c.graph
  {
    assert RunNode(c, n, attempt).status.Keys == c.status.Keys + {n};
  }

  lemma {:induction false} StartDecreases(s: State, t: State, n: Id)
    requires n !in s.frames && t.frames.Keys == s.frames.Keys + {n}
    requires t.core.graph == s.core.graph && t.core.status.Keys == s.core.status.Keys
    requires t.batches == s.batches && t.driver == s.driver
    ensures Below(MeasureOf(t), MeasureOf(s))
  {
    hide PcRank, PolicyOf, ById, WorkerRanks, Total, PcRanks, AttemptRanks;
    SameSize(s.core.status, t.core.status);
    assert |t.frames| == |t.frames.Keys| && |s.frames| == |s.frames.Keys|;
  }

  lemma {:induction false} SettleDecreases(s: State, w: nat, t: State)
    requires Good(s) && Sound(s) && w < |s.workers| && s.workers[w].Awaiting? && s.workers[w].nodeId in s.core.status
    requires SettleJob(s, w) == Some(t)
    ensures Below(MeasureOf(t), MeasureOf(s))
  {
    hide Good, MeasureOf, Below, Key, Flow, CompleteNode, Inv, SettleJob, Bulkhead.Released, Seat, Finishes, Frees;
    var n := s.workers[w].nodeId;
    GoodGives(s);
    GoodFlows(s);
    SettleIs(s, w, t);
    if Frees(s, t, w, n) {
      FreeDecreases(s, t, w, n);
    } else {
      CompleteFinishes(s.core, n, s.completed[Key(s, n)]);
      FinishesSame(s.core, t.core, n);
      LowerDecreases(s, t, w, Idle);
    }
  }

  lemma {:induction false} FreeDecreases(s: State, t: State, w: nat, n: Id)
    requires Frees(s, t, w, n)
    ensures Below(MeasureOf(t), MeasureOf(s))
  {
    hide MeasureOf, Below, Live, Bulkhead.Released, Seat;
    LowerDecreases(s, t, w, t.workers[w]);
  }

  lemma {:induction false} WorkerDecreases(s: State, step: Step, t: State)
    requires Good(s) && Sound(s) && WorkerStep(s, step) == Some(t)
    ensures Below(MeasureOf(t), MeasureOf(s))
  {
    hide Good, Sound, BeginJob, SettleJob, MeasureOf, Below;
    match step {
      case Take(w, job) => TakeDecreases(s, t, w, job);
      case Leave(w) => LowerDecreases(s, t, w, Gone);
      case Begin(w) => BeginDecreases(s, w);
      case Settle(w) => SettleDecreases(s, w, t);
      case _ =>
    }
  }

  lemma {:induction false} PhaseDecreases(s: State, t: State)
    requires t.core.graph == s.core.graph && t.batches == s.batches && DriverRank(t.driver) < DriverRank(s.driver)
    ensures Below(MeasureOf(t), MeasureOf(s))
  {
    hide PcRanks, AttemptRanks, Total, WorkerRanks;
  }

  lemma {:induction false} DriverDecreases(s: State, step: Step, t: State)
    requires Good(s) && Sound(s) && DriverStep(s, step) == Some(t) && Working(step)
    ensures Below(MeasureOf(t), MeasureOf(s))
  {
    hide Good, Sound, ReadyList, Inv, StopRun, Round, MeasureOf, Below;
    match step {
      case NextRound => RoundDecreases(s);
      case EndRound => PhaseDecreases(s, t);
      case Stop => StopDecreases(s);
      case _ =>
    }
  }

  lemma {:induction false} RoundDecreases(s: State)
    requires Good(s)
    ensures var ready := ReadyList(s.core.graph, s.core.status); Below(MeasureOf(Round(s, ready)), MeasureOf(s))
  {
    hide Good, ReadyList, EnqueueAll, JobsFor, PcRanks, AttemptRanks, Total, WorkerRanks;
    GoodGives(s);
    EnqueueKeeps(s.core, ReadyList(s.core.graph, s.core.status));
  }

  lemma {:induction false} StopDecreases(s: State)
    requires Good(s) && Sound(s) && s.driver.Between?
    ensures Below(MeasureOf(StopRun(s)), MeasureOf(s))
  {
    hide Good, MeasureOf, Below, CancelAll, Inv, FinalStatus;
    GoodGives(s);
    ClosedKeeps(s.core, s.cancelled);
    PhaseDecreases(s, StopRun(s));
  }

  /** Every step of the process itself decreases the measure. */
  lemma {:induction false} WorkDecreases(s: State, step: Step, t: State)
    requires Good(s) && StepTo(s, step, t) && Working(step)
    ensures Below(MeasureOf(t), MeasureOf(s))
  {
    hide Good, Sound, FrameStep, WorkerStep, DriverStep, MeasureOf, Below;
    if FrameStep(s, step) == Some(t) {
      FrameDecreases(s, step, t);
    } else if WorkerStep(s, step) == Some(t) {
      WorkerDecreases(s, step, t);
    } else {
      DriverDecreases(s, step, t);
    }
  }

  /* ---------- some step is possible ---------- */

  ghost predicate Possible(s: State, step: Step) {
    Working(step) && !step.ApprovalThrows? && exists t :: StepTo(s, step, t)
  }

  lemma {:induction false} FrameCanStep(s: State, n: Id) returns (step: Step)
    requires Sound(s) && n in s.frames
    requires !s.frames[n].pc.Resolved? && !s.frames[n].pc.Rejected? && !s.frames[n].pc.Escaped?
    ensures Possible(s, step) && Subject(step) == Some(n)
  {
    hide Sound, FailAttempt, InvokeNode, AnswerApproval, ProceedAfterApproval, HandlerOutcome, UndoOne, Move, Reverse,
      Goto, Key, WakeUp, WorkerStep, DriverStep;
    var guard := Guard(false, false);
    match s.frames[n].pc {
      case Started => step := Invoke(n, false, "", guard);
      case AwaitingApproval => step := Answer(n, true);
      case Approved => step := AfterApproval(n, "", guard);
      case Denied => step := AfterApproval(n, "", guard);
      case Handling => step := HandlerReturns(n, None, "", guard);
      case Returned(_) => step := VerifyResult(n);
      case Verified(_) => step := Resolve(n);
      case Sleeping => step := Wake(n);
      case Undoing => step := UndoSelf(n);
      case UndoingUpstream(_, _, _) => step := UndoNext(n);
      case _ =>
    }
    var t := FrameStep(s, step).value;
    assert StepTo(s, step, t);
  }

  lemma {:induction false} CanWork(s: State, step: Step)
    requires Sound(s) && WorkerStep(s, step).Some? && Working(step) && !step.ApprovalThrows?
    ensures Possible(s, step)
  {
    hide Sound, WorkerStep;
    var t := WorkerStep(s, step).value;
    assert StepTo(s, step, t);
  }

  lemma {:induction false} FlowWorker(s: State, w: nat)
    requires Flow(s) && w < |s.workers|
    ensures WorkerOk(s, s.workers[w])
    ensures s.workers[w].Holding? ==> s.workers[w].job.nodeId in s.core.status
  {
    hide NodesOk, OwnersOk, BatchOk, LayersOk, SeatsOk, FaultOk;
    assert WorkerOk(s, s.workers[w]);
  }

  /** A worker that waits for an outcome can see it, or the execution it waits for can go on. */
  lemma {:induction false} AwaitingCanStep(s: State, w: nat) returns (step: Step)
    requires Good(s) && Sound(s) && w < |s.workers| && s.workers[w].Awaiting?
    ensures Possible(s, step) && !step.Begin?
  {
    hide Good, Sound, FrameStep, DriverStep, NodeKey, CompleteNode, QueueOk, NodesOk, Possible, Flow, Bulkhead.Released,
      Seat;
    GoodFlows(s);
    FlowWorker(s, w);
    var n := s.workers[w].nodeId;
    if Key(s, n) in s.completed || s.frames[n].pc.Rejected? || s.frames[n].pc.Escaped? {
      step := Settle(w);
      CanWork(s, step);
    } else {
      FlowNodes(s);
      NodesGive(s, n);
      step := FrameCanStep(s, n);
    }
  }

  lemma {:induction false} IdleCanStep(s: State, w: nat) returns (step: Step)
    requires Sound(s) && w < |s.workers| && s.workers[w].Idle?
    ensures Possible(s, step)
  {
    hide Sound, FrameStep, DriverStep, Possible, BeginJob, SettleJob;
    if !s.cancelled && s.queue != multiset{} {
      var job :| job in s.queue;
      step := Take(w, job);
    } else {
      step := Leave(w);
    }
    CanWork(s, step);
  }

  /** Where no seat is taken, a seat whose caps are all at least one is granted. */
  lemma {:induction false} FreeSeat(s: State, n: Id)
    requires Flow(s) && Unseated(s.workers)
    ensures Bulkhead.Refuses(s.limits, s.counters, Seat(s, n)) <==> !Bulkhead.CanEverAdmit(s.limits, Seat(s, n))
  {
    hide Sound, NodesOk, OwnersOk, BatchOk, LayersOk, WorkersOk, QueueOk, FaultOk, SeatsMatch, Bulkhead.Refuses,
      Bulkhead.CanEverAdmit, Bulkhead.CounterMap, SlotOf;
    UnseatedMatch(s.limits, s.counters, s.core.runId, s.core.graph, s.workers);
    CountersNonNegative(s.limits, s.counters, s.core.runId, s.core.graph, s.workers);
    Bulkhead.AdmissionNeedsCaps(s.limits, s.counters, Seat(s, n));
  }

  lemma {:induction false} HoldingCanBegin(s: State, w: nat) returns (step: Step)
    requires Good(s) && Sound(s) && w < |s.workers| && s.workers[w].Holding? && Unseated(s.workers)
    requires Bulkhead.CanEverAdmit(s.limits, Seat(s, s.workers[w].job.nodeId))
    ensures step == Begin(w) && Possible(s, step)
  {
    hide Good, Sound, FrameStep, DriverStep, Possible, BeginJob, SettleJob, Flow, Bulkhead.Refuses,
      Bulkhead.CanEverAdmit, Seat;
    GoodFlows(s);
    FlowWorker(s, w);
    FreeSeat(s, s.workers[w].job.nodeId);
    step := Begin(w);
    CanWork(s, step);
  }

  lemma {:induction false} BetweenCanStep(s: State) returns (step: Step)
    requires Sound(s) && s.driver.Between?
    ensures Possible(s, step)
  {
    hide Sound, ReadyList, Possible, Round, StopRun;
    step := if !s.cancelled && ReadyList(s.core.graph, s.core.status) != [] then NextRound else Stop;
    CanDrive(s, step);
  }

  lemma {:induction false} RoundCanEnd(s: State) returns (step: Step)
    requires Sound(s) && !s.fault && s.driver.Dispatching? && forall w | 0 <= w < |s.workers| :: s.workers[w].Gone?
    ensures Possible(s, step)
  {
    hide Sound, ReadyList, Possible;
    AllGone(s);
    step := EndRound;
    CanDrive(s, step);
  }

  /** Every node's seat has only caps of at least one. */
  ghost predicate CapsAdmit(s: State) {
    forall n | n in s.core.status :: Bulkhead.CanEverAdmit(s.limits, Seat(s, n))
  }

  /**
   Until the run has stopped, unless an exception has escaped, some step of the process is possible where the caps admit
   every node: nothing waits for ever on something else.
   */
  lemma {:induction false} NeverStuck(s: State) returns (step: Step)
    requires Good(s) && !s.driver.Stopped? && !s.fault && CapsAdmit(s)
    ensures Possible(s, step)
  {
    hide Good, Sound, Possible, Flow, Bulkhead.CanEverAdmit, Seat;
    GoodGives(s);
    GoodFlows(s);
    if s.driver.Between? {
      step := BetweenCanStep(s);
    } else if w :| 0 <= w < |s.workers| && s.workers[w].Awaiting? {
      step := AwaitingCanStep(s, w);
    } else if w :| 0 <= w < |s.workers| && s.workers[w].Idle? {
      step := IdleCanStep(s, w);
    } else if w :| 0 <= w < |s.workers| && s.workers[w].Holding? {
      FlowWorker(s, w);
      step := HoldingCanBegin(s, w);
    } else {
      step := RoundCanEnd(s);
    }
  }

  lemma {:induction false} AllGone(s: State)
    requires forall w | 0 <= w < |s.workers| :: s.workers[w].Gone?
    ensures forall w | w in s.workers :: w.Gone?
  {}

  lemma {:induction false} CanDrive(s: State, step: Step)
    requires Sound(s) && DriverStep(s, step).Some? && Working(step) && !step.ApprovalThrows?
    ensures Possible(s, step)
  {
    hide Sound, DriverStep;
    var t := DriverStep(s, step).value;
    assert StepTo(s, step, t);
  }

  lemma {:induction false} MeasureBounded(s: State)
    requires Good(s)
    ensures MeasureOf(s).rounds >= 0 && MeasureOf(s).unstarted >= 0
  {
    hide Good, AttemptsOk, PassesOk, LayersOk, BatchOk, NodesOk, Lists, PcRanks, AttemptRanks, Total, WorkerRanks, Inv,
      Deps;
    GoodGives(s);
    GoodLists(s);
    InvListed(s.core);
    SubsetSize(s.issued.Keys, s.core.status.Keys);
    SubsetSize(s.frames.Keys, s.core.status.Keys);
    DepsSize(s.core.graph);
    assert |s.frames| == |s.frames.Keys| && |s.core.status| == |s.core.status.Keys| && |s.issued| == |s.issued.Keys|;
  }

  /* ---------- the drive loop finishes ---------- */

  /** The run has stopped, or an exception has ended it. */
  predicate Over(s: State) {
    s.driver.Stopped? || s.fault
  }

  lemma {:induction false} CapsStay(s: State, step: Step, t: State)
    requires Good(s) && StepTo(s, step, t) && CapsAdmit(s)
    ensures CapsAdmit(t)
  {
    hide Good, Bulkhead.CanEverAdmit, SlotOf, Deps, Inv, StepTo;
    StepKeeps(s, step, t);
    GraphStays(s, step, t);
    GoodGives(s);
    GoodGives(t);
    InvDeps(s.core);
    InvDeps(t.core);
    forall n | n in t.core.status
      ensures Bulkhead.CanEverAdmit(t.limits, Seat(t, n))
    {
      assert n in t.core.status.Keys;
      AnyRunId(t.limits, t.core.graph, n, t.core.runId, s.core.runId);
    }
  }

  lemma {:induction false} CrashGraph(s: State, kept: nat, t: State)
    requires Good(s) && Sound(s) && StepTo(s, Crash(kept), t)
    ensures t.core.graph == s.core.graph && t.limits == s.limits
  {
    hide Good, Sound, Hydrate, Inv, LogOk, Valid, Startable, Seeds, ReadyList;
    GoodGives(s);
    InvLogged(s.core);
    LogPrefix(s.core.graph, s.core.log, kept);
    HydrateStartable(s.core.graph, s.core.log[..kept]);
  }

  /** The graph and the limits are those of the run, across crashes too. */
  lemma {:induction false} GraphStays(s: State, step: Step, t: State)
    requires Good(s) && StepTo(s, step, t)
    ensures t.core.graph == s.core.graph && t.limits == s.limits
  {
    hide Good, FrameStep, WorkerStep, DriverStep, Settled, StopOk, Ends, Sound;
    if step.Crash? {
      CrashGraph(s, step.kept, t);
    } else {
      assert Moves(s, t);
      MoveGoesOn(s, t);
      if Ends(s, t) { EndsOk(s, t); }
    }
  }

  /**
   A scheduler picks each step by all that happened before. At every point at which the run goes on and the caps admit
   all nodes, the step is possible; and it is the process's own, unless fewer than `limit` of the choices so far were
   the environment's: a cancellation, another delivery of a job, a crash.
   */
  ghost predicate Schedules(choose: seq<State> -> Step, limit: nat) {
    forall h: seq<State> | h != [] && Going(Now(h)) ::
      (Working(choose(h)) || EnvSteps(choose, h) < limit) && exists t :: StepTo(Now(h), choose(h), t)
  }

  /** Where a history has led. */
  function Now(h: seq<State>): State
    requires h != []
  {
    h[|h| - 1]
  }

  ghost predicate Going(s: State) {
    Good(s) && !Over(s) && CapsAdmit(s)
  }

  /** A scheduler of the process's own steps. */
  ghost function AnyStep(h: seq<State>): Step {
    if step :| h != [] && Possible(Now(h), step) then step else Stop
  }

  /** There are such schedulers: one that picks any step of the process needs nothing of the environment. */
  lemma {:induction false} SchedulerExists()
    ensures Schedules(AnyStep, 0)
  {
    hide Good, StepTo, CapsAdmit;
    forall h: seq<State> | h != [] && Going(Now(h))
      ensures Working(AnyStep(h)) && exists t :: StepTo(Now(h), AnyStep(h), t)
    {
      var step := NeverStuck(Now(h));
      assert Possible(Now(h), AnyStep(h));
    }
  }

  /** How many choices along the history were the environment's. */
  function EnvSteps(choose: seq<State> -> Step, h: seq<State>): nat {
    if |h| <= 1 then 0
    else EnvSteps(choose, h[..|h| - 1]) + (if Working(choose(h[..|h| - 1])) then 0 else 1)
  }

  /** From position `from` on, consecutive states of `path` are joined by the scheduler's steps. */
  ghost predicate Follows(choose: seq<State> -> Step, path: seq<State>, from: nat) {
    from < |path|
    && forall i {:trigger path[i + 1]} | from <= i < |path| - 1 :: StepTo(path[i], choose(path[..i + 1]), path[i + 1])
  }

  /** From position `from` on, the scheduler lets no approval callback throw. */
  ghost predicate Calm(choose: seq<State> -> Step, path: seq<State>, from: nat) {
    forall i | from <= i < |path| - 1 :: !ThrowsAt(choose, path, i)
  }

  predicate ThrowsAt(choose: seq<State> -> Step, path: seq<State>, i: int) {
    0 <= i < |path| && choose(path[..i + 1]).ApprovalThrows?
  }

  lemma {:induction false} FollowsBack(choose: seq<State> -> Step, h: seq<State>, t: State, path: seq<State>)
    requires h != [] && h + [t] <= path && StepTo(Now(h), choose(h), t) && Follows(choose, path, |h|)
    ensures Follows(choose, path, |h| - 1)
    ensures Calm(choose, path, |h| - 1) ==> Calm(choose, path, |h|) && !choose(h).ApprovalThrows?
  {
    hide StepTo;
    assert path[..|h| + 1][..|h|] == path[..|h|];
    var i := |h| - 1;
    assert path[..i + 1] == h && path[i + 1] == t && path[i] == Now(h);
    if Calm(choose, path, i) { assert !ThrowsAt(choose, path, i); }
  }

  lemma {:induction false} EnvCounts(choose: seq<State> -> Step, h: seq<State>, t: State)
    requires h != []
    ensures EnvSteps(choose, h + [t]) == EnvSteps(choose, h) + (if Working(choose(h)) then 0 else 1)
  {
    assert (h + [t])[..|h|] == h;
  }

  /**
   Whatever the scheduler and the history, where the caps admit every node the run is over after finitely many more
   steps; it is over by stopping, unless an approval callback throws.
   */
  lemma {:induction false} EverySchedulerStops(choose: seq<State> -> Step, limit: nat, h: seq<State>)
      returns (path: seq<State>)
    requires Schedules(choose, limit) && h != [] && Good(Now(h)) && CapsAdmit(Now(h))
    requires EnvSteps(choose, h) <= limit
    ensures h <= path && Follows(choose, path, |h| - 1) && Good(path[|path| - 1]) && Over(path[|path| - 1])
    ensures !Now(h).fault && Calm(choose, path, |h| - 1) ==> path[|path| - 1].driver.Stopped?
    decreases limit - EnvSteps(choose, h), MeasureOf(Now(h)).rounds, MeasureOf(Now(h)).phase,
              MeasureOf(Now(h)).unstarted, MeasureOf(Now(h)).attempts, MeasureOf(Now(h)).pcs,
              MeasureOf(Now(h)).jobs
  {
    hide Good, StepTo, MeasureOf, Follows, CapsAdmit, Calm, EnvSteps, Working;
    var s := Now(h);
    if Over(s) {
      path := h;
      Alone(choose, h);
    } else {
      var t :| StepTo(s, choose(h), t);
      if Working(choose(h)) {
        WorkDecreases(s, choose(h), t);
      }
      StepKeeps(s, choose(h), t);
      MeasureBounded(s);
      MeasureBounded(t);
      FaultsExactly(s, choose(h), t);
      CapsStay(s, choose(h), t);
      EnvCounts(choose, h, t);
      path := EverySchedulerStops(choose, limit, h + [t]);
      FollowsBack(choose, h, t, path);
    }
  }

  lemma {:induction false} Alone(choose: seq<State> -> Step, h: seq<State>)
    requires h != []
    ensures Follows(choose, h, |h| - 1)
  {}
}
