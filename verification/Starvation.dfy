/**
 What becomes of a ready node whose seat some cap below one forbids: it stays ready, and the process stops only if the
 run is cancelled; where a worker has taken its job, not even then.
 */
module Starvation {
  import opened Wrappers
  import opened WorkflowTypes
  import opened NodeMachine
  import opened Layers
  import opened WorkflowCore
  import opened Keys
  import Bulkhead
  import opened Machine
  import opened MachineInvariant
  import opened MachineSteps
  import opened WorkerSteps
  import opened DriverSteps
  import opened RoundSteps
  import opened Restart
  import opened Stopping
  import opened Progress
  import opened Termination
  import opened Admission
  import opened Executions

  /** A ready node that can never get a seat, in a process that has not stopped. */
  predicate Starves(s: State, n: Id) {
    && n in s.core.status && s.core.status[n] == Ready && !s.driver.Stopped?
    && !Bulkhead.CanEverAdmit(s.limits, Seat(s, n))
  }

  /* ---------- it stays ready ---------- */

  lemma {:induction false} OthersReady(c: Core, d: Core, m: Id, n: Id)
    requires Others(c, d, m) && n != m && n in c.status && c.status[n] == Ready
    ensures n in d.status && d.status[n] == Ready
  {}

  lemma {:induction false} FrameKeepsReady(s: State, t: State, m: Id, n: Id)
    requires Flow(s) && Acts(s, t, m) && n in s.core.status && s.core.status[n] == Ready
    ensures n in t.core.status && t.core.status[n] == Ready
  {
    hide Flow, Touches, Live, Others, NodesOk, Stepped, ViewOk;
    FlowNodes(s);
    NodesGive(s, n);
    ReadyIsFresh(ViewOf(s, n));
    TouchShape(s, t, m);
    OthersReady(s.core, t.core, m, n);
  }

  lemma {:induction false} BeginKeepsReady(s: State, w: nat, n: Id)
    requires Flow(s) && Sound(s) && n in s.core.status && s.core.status[n] == Ready
    requires w < |s.workers| && s.workers[w].Holding? && s.workers[w].job.nodeId in s.core.status
    requires s.workers[w].job.nodeId != n
    ensures var t := BeginJob(s, w); n in t.core.status && t.core.status[n] == Ready
  {
    hide Flow, Sound, NodeKey, SlotOf, Bulkhead.Acquired, BeginJob;
    if Key(s, s.workers[w].job.nodeId) in s.completed || Key(s, s.workers[w].job.nodeId) in s.inFlight {
      JoinIs(s, w);
    } else {
      FreshIsReady(s, w);
      BeginIs(s, w);
    }
  }

  lemma {:induction false} SettleKeepsReady(s: State, w: nat, t: State, n: Id)
    requires Good(s) && Sound(s) && n in s.core.status && s.core.status[n] == Ready
    requires w < |s.workers| && s.workers[w].Awaiting? && s.workers[w].nodeId in s.core.status
    requires SettleJob(s, w) == Some(t)
    ensures n in t.core.status && t.core.status[n] == Ready
  {
    hide Good, Sound, NodeKey, CompleteNode, Inv, Flow, SettleJob, Bulkhead.Released, Seat, Frees, Finishes;
    var m := s.workers[w].nodeId;
    GoodGives(s);
    GoodFlows(s);
    SettleIs(s, w, t);
    if !Frees(s, t, w, m) {
      CompleteFinishes(s.core, m, s.completed[Key(s, m)]);
      FinishKeepsReady(s.core, t.core, m, n);
    } else {
      FreesCore(s, t, w, m);
    }
  }

  lemma {:induction false} FreesCore(s: State, t: State, w: nat, m: Id)
    requires Frees(s, t, w, m)
    ensures t.core == s.core
  {
    hide Live, Bulkhead.Released, Seat;
  }

  lemma {:induction false} FinishKeepsReady(c: Core, d: Core, m: Id, n: Id)
    requires Finishes(c, d, m) && n in c.status && c.status[n] == Ready
    ensures n in d.status && d.status[n] == Ready
  {
    hide Inv, Promoted;
  }

  lemma {:induction false} WorkerKeepsReady(s: State, step: Step, t: State, n: Id)
    requires Good(s) && Sound(s) && WorkerStep(s, step) == Some(t) && Starves(s, n)
    ensures n in t.core.status && t.core.status[n] == Ready
  {
    hide Good, Sound, Flow, BeginJob, SettleJob, Seat, Bulkhead.CanEverAdmit, Bulkhead.Refuses;
    GoodFlows(s);
    match step {
      case Begin(w) =>
        if s.workers[w].job.nodeId == n { NotGrantedAt(s, w, t, n); } else { BeginKeepsReady(s, w, n); }
      case Settle(w) => SettleKeepsReady(s, w, t, n);
      case _ =>
    }
  }

  lemma {:induction false} NotGrantedAt(s: State, w: nat, t: State, n: Id)
    requires Flow(s) && Sound(s) && WorkerStep(s, Begin(w)) == Some(t) && Waits(s, w, n)
    ensures Bulkhead.CanEverAdmit(s.limits, Seat(s, n))
  {
    hide Flow, Sound, WorkerStep, Seat, Bulkhead.CanEverAdmit;
    assert StepTo(s, Begin(w), t);
    NotGranted(s, w, t, n);
  }

  /** Of the drive loop's steps only the last changes statuses, and it is not taken while a node is ready. */
  lemma {:induction false} DriverKeepsReady(s: State, step: Step, t: State, n: Id)
    requires Good(s) && Sound(s) && DriverStep(s, step) == Some(t) && !step.Crash? && !s.cancelled && Starves(s, n)
    ensures n in t.core.status && t.core.status[n] == Ready && !t.driver.Stopped?
  {
    hide Good, Sound, ReadyList, EnqueueAll, JobsFor, Inv, Deps, Seat, Bulkhead.CanEverAdmit;
    GoodGives(s);
    InvKeys(s.core);
    ReadyMembers(s.core.graph, s.core.status, n);
    EnqueueKeeps(s.core, ReadyList(s.core.graph, s.core.status));
  }

  lemma {:induction false} ReadyStays(s: State, step: Step, t: State, n: Id)
    requires Good(s) && StepTo(s, step, t) && !step.Crash? && !s.cancelled && Starves(s, n)
    ensures Starves(t, n)
  {
    hide Good, Sound, FrameStep, WorkerStep, DriverStep, Acts, Flow, Seat, Bulkhead.CanEverAdmit;
    GoodFlows(s);
    assert Moves(s, t);
    SeatSame(s, t, n);
    if FrameStep(s, step) == Some(t) {
      var m := FrameActs(s, step, t);
      FrameShape(s, t, m);
      FrameKeepsReady(s, t, m, n);
    } else if WorkerStep(s, step) == Some(t) {
      WorkerKeepsReady(s, step, t, n);
      WorkerFaults(s, step, t);
    } else {
      DriverKeepsReady(s, step, t, n);
    }
  }

  /* ---------- the process does not stop ---------- */

  lemma {:induction false} CancelStays(s: State, t: State)
    requires Good(s) && Moves(s, t) && s.cancelled
    ensures t.cancelled
  {
    hide Good, Sound, FrameStep, WorkerStep, DriverStep, Acts, Flow;
    var step: Step :| !step.Crash? && StepTo(s, step, t);
    GoodFlows(s);
    if FrameStep(s, step) == Some(t) {
      var m := FrameActs(s, step, t);
      FrameCancelled(s, t, m);
    } else if WorkerStep(s, step) == Some(t) {
      WorkerFaults(s, step, t);
    } else {
      DriverCancelled(s, step, t);
    }
  }

  lemma {:induction false} FrameCancelled(s: State, t: State, n: Id)
    requires Acts(s, t, n)
    ensures t.cancelled == s.cancelled
  {
    hide Inv, Live, ViewOk, PassOk, AttemptOk, Others;
  }

  lemma {:induction false} DriverCancelled(s: State, step: Step, t: State)
    requires Sound(s) && DriverStep(s, step) == Some(t) && !step.Crash?
    ensures s.cancelled ==> t.cancelled
    ensures Working(step) ==> t.cancelled == s.cancelled
  {
    hide Sound, ReadyList, EnqueueAll, JobsFor, CancelAll, FinalStatus;
  }

  /**
   While a node is ready whose seat some cap below one forbids, the process does not stop, whatever it does, unless the
   run is cancelled.
   */
  lemma {:induction false} StopsOnlyCancelled(s: State, path: seq<State>, k: nat, n: Id)
    requires Good(s) && Starves(s, n) && Continues(s, path) && k < |path| && !path[k].cancelled
    ensures Good(path[k]) && Starves(path[k], n)
    decreases k
  {
    hide Good, Moves, Starves;
    if k > 0 {
      var before := k - 1;
      assert Moves(path[before], path[before + 1]);
      GoodAlong(s, path, before);
      if path[before].cancelled { CancelStays(path[before], path[k]); }
      StopsOnlyCancelled(s, path, before, n);
      MoveStarves(path[before], path[k], n);
    }
  }

  lemma {:induction false} MoveStarves(s: State, t: State, n: Id)
    requires Good(s) && Moves(s, t) && !s.cancelled && Starves(s, n)
    ensures Good(t) && Starves(t, n)
  {
    hide Good, StepTo, Starves;
    var step: Step :| !step.Crash? && StepTo(s, step, t);
    ReadyStays(s, step, t, n);
    StepKeeps(s, step, t);
  }

  lemma {:induction false} GoodAlong(s: State, path: seq<State>, k: nat)
    requires Good(s) && Continues(s, path) && k < |path|
    ensures Good(path[k])
    decreases k
  {
    hide Good, Moves;
    if k > 0 {
      var before := k - 1;
      GoodAlong(s, path, before);
      assert Moves(path[before], path[before + 1]);
      MoveKeeps(path[before], path[k]);
    }
  }

  lemma {:induction false} MoveKeeps(s: State, t: State)
    requires Good(s) && Moves(s, t)
    ensures Good(t)
  {
    hide Good, StepTo;
    var step: Step :| !step.Crash? && StepTo(s, step, t);
    StepKeeps(s, step, t);
  }

  /* ---------- nor when it is cancelled ---------- */

  /** However the process goes on, it stays in its round. */
  ghost predicate NeverEnds(s: State) {
    forall path: seq<State>, k | Continues(s, path) && 0 <= k < |path| :: path[k].driver.Dispatching?
  }

  lemma {:induction false} HeldNeverEnds(s: State, w: nat, n: Id)
    requires Good(s) && Waits(s, w, n) && !Bulkhead.CanEverAdmit(s.limits, Seat(s, n))
    ensures NeverEnds(s)
  {
    hide Good, Continues, Bulkhead.CanEverAdmit, Seat, Waits;
    forall path: seq<State>, k | Continues(s, path) && 0 <= k < |path|
      ensures path[k].driver.Dispatching?
    {
      WaitsAlong(s, path, k, w, n);
    }
  }

  /** Some worker holds a job whose seat can never be granted. */
  ghost predicate Polls(s: State) {
    exists w, n :: Waits(s, w, n) && !Bulkhead.CanEverAdmit(s.limits, Seat(s, n))
  }

  lemma {:induction false} CanGoOn(s: State, n: Id) returns (step: Step)
    requires Good(s) && Starves(s, n) && !s.fault && !s.driver.Between? && !Polls(s)
    ensures Possible(s, step)
  {
    hide Good, Sound, Possible, Flow, Bulkhead.CanEverAdmit, Seat;
    GoodGives(s);
    if w :| 0 <= w < |s.workers| && s.workers[w].Awaiting? {
      step := AwaitingCanStep(s, w);
    } else if w :| 0 <= w < |s.workers| && s.workers[w].Idle? {
      step := IdleCanStep(s, w);
    } else if w :| 0 <= w < |s.workers| && s.workers[w].Holding? {
      assert Waits(s, w, s.workers[w].job.nodeId);
      step := HoldingCanBegin(s, w);
    } else {
      step := RoundCanEnd(s);
    }
  }

  lemma {:induction false} WorkCalm(s: State, step: Step, t: State)
    requires Good(s) && Possible(s, step) && StepTo(s, step, t) && !s.fault && !s.cancelled
    ensures !t.fault && !t.cancelled && Good(t) && Moves(s, t)
  {
    hide Good, Sound, FrameStep, WorkerStep, DriverStep, Acts, Flow;
    StepKeeps(s, step, t);
    FaultsExactly(s, step, t);
    GoodFlows(s);
    if FrameStep(s, step) == Some(t) {
      var m := FrameActs(s, step, t);
      FrameCancelled(s, t, m);
    } else if WorkerStep(s, step) == Some(t) {
      WorkerFaults(s, step, t);
    } else {
      DriverCancelled(s, step, t);
    }
  }

  /** Between rounds: the next one begins, and a worker takes the starving node's job. */
  lemma {:induction false} BetweenPolls(s: State, n: Id) returns (path: seq<State>)
    requires Poised(s) && Starves(s, n)
    ensures Continues(s, path) && Good(path[|path| - 1]) && Polls(path[|path| - 1])
  {
    hide Good, ReadyList, Moves, Bulkhead.CanEverAdmit, Seat, Continues, Deps, Inv, Onward,
      JobsFor;
    GoodGives(s);
    InvKeys(s.core);
    ReadyMembers(s.core.graph, s.core.status, n);
    var t := RoundOpens(s);
    UnsetOnward(s, t);
    assert HasJob(t, n);
    var job :| job in t.queue && job.nodeId == n;
    var u := JobTaken(t, job);
    UnsetOnward(t, u);
    SeatSame(s, t, n);
    SeatSame(t, u, n);
    OneMove(t, u);
    Starts(t, [t, u]);
    ContinuesPrepend(s, [t, u]);
    path := [s] + [t, u];
  }

  /** Until a worker holds such a job, the process can be made to go on, and then it holds one. */
  lemma {:induction false} ComesToPoll(s: State, n: Id) returns (path: seq<State>)
    requires Good(s) && Starves(s, n) && !s.fault && !s.cancelled
    ensures Continues(s, path) && Good(path[|path| - 1]) && Polls(path[|path| - 1])
    decreases MeasureOf(s).rounds, MeasureOf(s).phase, MeasureOf(s).unstarted, MeasureOf(s).attempts, MeasureOf(s).pcs,
              MeasureOf(s).jobs
  {
    hide Good, StepTo, MeasureOf, Moves, Polls, Possible, Continues, Starves;
    if Polls(s) {
      path := [s];
      ContinuesAlone(s);
    } else if s.driver.Between? {
      path := BetweenPolls(s, n);
    } else {
      var step := CanGoOn(s, n);
      var t := PossibleStep(s, step);
      WorkCalm(s, step, t);
      ReadyStays(s, step, t, n);
      WorkDecreases(s, step, t);
      MeasureBounded(s);
      MeasureBounded(t);
      var rest := ComesToPoll(t, n);
      Starts(t, rest);
      ContinuesPrepend(s, rest);
      path := [s] + rest;
    }
  }

  lemma {:induction false} ContinuesAlone(s: State)
    ensures Continues(s, [s])
  {
    hide Moves;
  }

  lemma {:induction false} PossibleStep(s: State, step: Step) returns (t: State)
    requires Possible(s, step)
    ensures StepTo(s, step, t) && Working(step) && !step.Crash?
  {
    hide StepTo;
    t :| StepTo(s, step, t);
  }

  lemma {:induction false} PollsForEver(s: State)
    requires Good(s) && Polls(s)
    ensures NeverEnds(s)
  {
    hide Good, Bulkhead.CanEverAdmit, Seat, Waits, NeverEnds;
    var w, n :| Waits(s, w, n) && !Bulkhead.CanEverAdmit(s.limits, Seat(s, n));
    HeldNeverEnds(s, w, n);
  }

  lemma {:induction false} RunContinues(run: seq<State>, path: seq<State>)
    requires IsRun(run) && Continues(run[|run| - 1], path)
    ensures IsRun(run + path[1..])
    ensures (run + path[1..])[|run + path[1..]| - 1] == path[|path| - 1]
  {
    hide Init, StepTo;
    var longer := run + path[1..];
    forall i {:trigger longer[i + 1]} | 0 <= i < |longer| - 1
      ensures Next(longer[i], longer[i + 1])
    {
      if i < |run| - 1 {
        assert Next(run[i], run[i + 1]);
      } else {
        var j := i - (|run| - 1);
        assert longer[i] == path[j] && longer[i + 1] == path[j + 1];
        assert Moves(path[j], path[j + 1]);
      }
    }
  }

  /**
   Every run with a ready node whose seat some cap below one forbids can go on, if neither cancelled nor broken, so that
   the process never again leaves its round, whatever it does and even if the run is then cancelled.
   */
  lemma {:induction false} CapBelowOneHangs(run: seq<State>, n: Id) returns (path: seq<State>)
    requires IsRun(run) && Starves(run[|run| - 1], n) && !run[|run| - 1].fault && !run[|run| - 1].cancelled
    ensures Continues(run[|run| - 1], path) && IsRun(run + path[1..]) && NeverEnds(path[|path| - 1])
  {
    hide Good, IsRun, Continues, Starves, Polls, NeverEnds;
    RunNotEmpty(run);
    RunsAreGood(run, |run| - 1);
    path := ComesToPoll(run[|run| - 1], n);
    Starts(run[|run| - 1], path);
    PollsForEver(path[|path| - 1]);
    RunContinues(run, path);
  }
}
