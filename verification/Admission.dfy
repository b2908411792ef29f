/** Waiting for a seat in the bulkhead: it can end exactly if every cap that applies is at least one. */
module Admission {
  import opened Wrappers
  import opened WorkflowTypes
  import opened WorkflowCore
  import Bulkhead
  import opened Machine
  import opened Seats
  import opened MachineInvariant
  import opened MachineSteps
  import opened WorkerSteps
  import opened DriverSteps
  import opened Restart
  import opened Stopping
  import opened Progress
  import opened Termination

  lemma {:induction false} WorkMoves(s: State, step: Step, t: State)
    requires StepTo(s, step, t) && Working(step)
    ensures Moves(s, t)
  {
    hide StepTo;
  }

  /** Worker `w` has taken a job for `n` and not yet its seat. */
  predicate Waits(s: State, w: nat, n: Id) {
    w < |s.workers| && s.workers[w].Holding? && s.workers[w].job.nodeId == n
  }

  lemma {:induction false} BegunAwaits(s: State, w: nat)
    requires Flow(s) && Sound(s)
    requires w < |s.workers| && s.workers[w].Holding? && s.workers[w].job.nodeId in s.core.status
    ensures BeginJob(s, w).workers == s.workers[w := Awaiting(s.workers[w].job.nodeId)]
  {
    hide Flow, Sound, Key, Seat, Bulkhead.Acquired, BeginJob, RunNode;
    var n := s.workers[w].job.nodeId;
    if Key(s, n) in s.completed || Key(s, n) in s.inFlight {
      JoinIs(s, w);
    } else {
      FreshIsReady(s, w);
      BeginIs(s, w);
    }
  }

  lemma {:induction false} WorkerSetsOne(s: State, step: Step, t: State, w: nat, n: Id)
    requires Flow(s) && Sound(s) && WorkerStep(s, step) == Some(t) && Waits(s, w, n) && step != Begin(w)
    ensures Waits(t, w, n)
  {
    hide Flow, Sound, Key, Seat, BeginJob, Bulkhead.Released, Bulkhead.Refuses, SettleJob, Live, CompleteNode;
    match step {
      case Settle(other) => SettleIs(s, other, t);
      case Begin(other) => BegunAwaits(s, other);
      case _ =>
    }
  }

  lemma {:induction false} DriverWaits(s: State, step: Step, t: State, w: nat, n: Id)
    requires Flow(s) && Sound(s) && DriverStep(s, step) == Some(t) && !step.Crash? && Waits(s, w, n)
    ensures Waits(t, w, n)
  {
    hide Flow, Sound, ReadyList, Round, StopRun;
    BusyDispatches(s, w);
    assert s.workers[w] in s.workers;
  }

  /** Nothing but the step that takes the seat changes a worker that waits for it. */
  lemma {:induction false} WaitsOn(s: State, step: Step, t: State, w: nat, n: Id)
    requires Good(s) && StepTo(s, step, t) && !step.Crash? && Waits(s, w, n) && step != Begin(w)
    ensures Waits(t, w, n)
  {
    hide Good, Sound, FrameStep, WorkerStep, DriverStep, Acts, Flow;
    GoodFlows(s);
    if FrameStep(s, step) == Some(t) {
      var m := FrameActs(s, step, t);
      FrameShape(s, t, m);
    } else if WorkerStep(s, step) == Some(t) {
      WorkerSetsOne(s, step, t, w, n);
    } else {
      DriverWaits(s, step, t, w, n);
    }
  }

  lemma {:induction false} SeatSame(s: State, t: State, n: Id)
    requires Good(s) && Moves(s, t)
    ensures t.limits == s.limits && Seat(t, n) == Seat(s, n)
  {
    hide Good, Moves, SlotOf, Settled, StopOk, Ends;
    MoveGoesOn(s, t);
    if Ends(s, t) { EndsOk(s, t); }
  }

  lemma {:induction false} NotGranted(s: State, w: nat, t: State, n: Id)
    requires Flow(s) && StepTo(s, Begin(w), t) && Waits(s, w, n)
    ensures Bulkhead.CanEverAdmit(s.limits, Seat(s, n))
  {
    hide Sound, NodesOk, OwnersOk, BatchOk, LayersOk, WorkersOk, QueueOk, FaultOk, SeatsMatch, Bulkhead.Refuses,
      Bulkhead.CanEverAdmit, Bulkhead.CounterMap, SlotOf, BeginJob, ReadyList;
    CountersNonNegative(s.limits, s.counters, s.core.runId, s.core.graph, s.workers);
    Bulkhead.AdmissionNeedsCaps(s.limits, s.counters, Seat(s, n));
  }

  /**
   A worker whose seat some cap below one forbids waits on, whatever moves the process makes, and the run does not stop.
   */
  lemma {:induction false} WaitsForEver(s: State, t: State, w: nat, n: Id)
    requires Good(s) && Moves(s, t) && Waits(s, w, n) && !Bulkhead.CanEverAdmit(s.limits, Seat(s, n))
    ensures Good(t) && Waits(t, w, n) && !Bulkhead.CanEverAdmit(t.limits, Seat(t, n)) && t.driver.Dispatching?
  {
    hide Good, Sound, StepTo, Flow, Bulkhead.CanEverAdmit, Seat, Waits;
    SeatSame(s, t, n);
    var step: Step :| !step.Crash? && StepTo(s, step, t);
    GoodFlows(s);
    if step == Begin(w) { NotGranted(s, w, t, n); }
    WaitsOn(s, step, t, w, n);
    StepKeeps(s, step, t);
    GoodFlows(t);
    WaitDispatches(t, w, n);
  }

  lemma {:induction false} WaitDispatches(s: State, w: nat, n: Id)
    requires Flow(s) && Waits(s, w, n)
    ensures s.driver.Dispatching?
  {
    hide Flow;
    BusyDispatches(s, w);
  }

  /** Consecutive states are joined by moves of one process. */
  ghost predicate Continues(s: State, path: seq<State>) {
    |path| >= 1 && path[0] == s && forall i {:trigger path[i + 1]} | 0 <= i < |path| - 1 :: Moves(path[i], path[i + 1])
  }

  lemma {:induction false} WaitsAlong(s: State, path: seq<State>, k: nat, w: nat, n: Id)
    requires Good(s) && Continues(s, path) && k < |path| && Waits(s, w, n)
             && !Bulkhead.CanEverAdmit(s.limits, Seat(s, n))
    ensures Good(path[k]) && Waits(path[k], w, n) && !Bulkhead.CanEverAdmit(path[k].limits, Seat(path[k], n))
    ensures path[k].driver.Dispatching?
    decreases k
  {
    hide Good, Moves, Bulkhead.CanEverAdmit, Seat, Waits, Flow;
    if k == 0 {
      GoodFlows(s);
      WaitDispatches(s, w, n);
    } else {
      var before := k - 1;
      WaitsAlong(s, path, before, w, n);
      assert Moves(path[before], path[before + 1]);
      WaitsForEver(path[before], path[k], w, n);
    }
  }

  lemma {:induction false} ContinuesPrepend(s: State, path: seq<State>)
    requires path != [] && Continues(path[0], path) && Moves(s, path[0])
    ensures Continues(s, [s] + path)
  {
    hide Moves;
    var longer := [s] + path;
    forall i | 0 <= i < |longer| - 1
      ensures Moves(longer[i], longer[i + 1])
    {
      if i > 0 {
        var j := i - 1;
        assert longer[i] == path[j] && longer[i + 1] == path[j + 1];
        assert Moves(path[j], path[j + 1]);
      }
    }
  }

  lemma {:induction false} OneMove(s: State, t: State)
    requires Moves(s, t)
    ensures Continues(s, [s, t])
  {
    hide Moves;
    var path := [s, t];
    forall i {:trigger path[i + 1]} | 0 <= i < |path| - 1
      ensures Moves(path[i], path[i + 1])
    {
      assert i == 0;
    }
  }

  lemma {:induction false} BeginSeats(s: State, w: nat, t: State, n: Id)
    requires Flow(s) && Sound(s) && StepTo(s, Begin(w), t) && Waits(s, w, n)
    ensures w < |t.workers| && t.workers[w] == Awaiting(n)
  {
    hide Flow, Sound, BeginJob, Seat, Bulkhead.Refuses, ReadyList;
    BegunAwaits(s, w);
  }

  /** The others finish, and then the worker gets its seat. */
  lemma {:induction false} SeatComes(s: State, w: nat, n: Id) returns (path: seq<State>)
    requires Good(s) && Waits(s, w, n) && Bulkhead.CanEverAdmit(s.limits, Seat(s, n))
    ensures Continues(s, path) && w < |path[|path| - 1].workers| && path[|path| - 1].workers[w] == Awaiting(n)
    decreases MeasureOf(s).rounds, MeasureOf(s).phase, MeasureOf(s).unstarted, MeasureOf(s).attempts, MeasureOf(s).pcs,
              MeasureOf(s).jobs
  {
    hide Good, StepTo, MeasureOf, Moves, Bulkhead.CanEverAdmit, Seat, Sound, Continues, Flow;
    GoodGives(s);
    GoodFlows(s);
    if v :| 0 <= v < |s.workers| && s.workers[v].Awaiting? {
      var step := AwaitingCanStep(s, v);
      var t :| StepTo(s, step, t);
      WorkDecreases(s, step, t);
      WorkMoves(s, step, t);
      StepKeeps(s, step, t);
      WaitsOn(s, step, t, w, n);
      SeatSame(s, t, n);
      MeasureBounded(s);
      MeasureBounded(t);
      var rest := SeatComes(t, w, n);
      Starts(t, rest);
      ContinuesPrepend(s, rest);
      path := [s] + rest;
    } else {
      assert Unseated(s.workers);
      var step := HoldingCanBegin(s, w);
      var t :| StepTo(s, step, t);
      WorkMoves(s, step, t);
      BeginSeats(s, w, t, n);
      OneMove(s, t);
      path := [s, t];
    }
  }

  lemma {:induction false} Starts(s: State, path: seq<State>)
    requires Continues(s, path)
    ensures path != [] && path[0] == s
  {}

  /** Worker `w` gets the seat for `n` at the end of the path. */
  ghost predicate GetsSeat(s: State, path: seq<State>, w: nat, n: Id) {
    Continues(s, path) && w < |path[|path| - 1].workers| && path[|path| - 1].workers[w] == Awaiting(n)
  }

  /**
   A worker that waits for a seat, beside whatever others hold or wait for, can get it if and only if every cap that
   applies to its node is at least one.
   */
  lemma {:induction false} SeatComesExactly(s: State, w: nat, n: Id)
    requires Good(s) && Waits(s, w, n)
    ensures (exists path :: GetsSeat(s, path, w, n)) <==> Bulkhead.CanEverAdmit(s.limits, Seat(s, n))
  {
    hide Good, Moves, Bulkhead.CanEverAdmit, Seat, Continues;
    if Bulkhead.CanEverAdmit(s.limits, Seat(s, n)) {
      var path := SeatComes(s, w, n);
      assert GetsSeat(s, path, w, n);
    } else if path :| GetsSeat(s, path, w, n) {
      Starts(s, path);
      WaitsAlong(s, path, |path| - 1, w, n);
    }
  }

  /** In every reachable state, the jobs running for an agent, a tenant or a tool stay within its cap. */
  lemma {:induction false} CapsRespected(run: seq<State>, i: nat, dim: Bulkhead.Dim, key: string)
    requires IsRun(run) && i < |run|
    ensures var s := run[i];
            var running := HoldersUnder(s.core.runId, s.core.graph, s.workers, dim, key);
            running > 0 ==> running <= Bulkhead.CapOf(s.limits, dim)
  {
    hide IsRun, Good, Sound, NodesOk, OwnersOk, BatchOk, LayersOk, WorkersOk, QueueOk, FaultOk, HoldersUnder,
      Bulkhead.CounterMap, Bulkhead.CapOf;
    RunsAreGood(run, i);
    GoodFlows(run[i]);
    FlowSeats(run[i]);
    var s := run[i];
    assert CounterOk(s.limits, s.counters, s.core.runId, s.core.graph, s.workers, dim, key);
  }
}
