/**
 Building blocks of the runs that exhibit a behaviour: what is reached by beginning a round, taking a job, executing a
 node, ending the round and crashing.
 */
module Executions {
  import opened Wrappers
  import opened WorkflowTypes
  import opened NodeMachine
  import opened Graph
  import opened Layers
  import opened WorkflowLog
  import opened WorkflowCore
  import opened CoreInvariant
  import opened Recovery
  import opened Conditions
  import opened Keys
  import Bulkhead
  import opened Machine
  import opened Seats
  import opened MachineInvariant
  import opened MachineSteps
  import opened WorkerSteps
  import opened DriverSteps
  import opened RoundSteps
  import opened Restart
  import opened Safety
  import opened Termination
  import opened Admission

  /* ---------- what is reached ---------- */

  /** Consecutive states are joined by steps, crashes included. */
  ghost predicate IsPath(path: seq<State>) {
    |path| >= 1 && forall i {:trigger path[i + 1]} | 0 <= i < |path| - 1 :: Next(path[i], path[i + 1])
  }

  ghost predicate Reaches(s: State, t: State) {
    exists path :: IsPath(path) && path[0] == s && path[|path| - 1] == t
  }

  lemma {:induction false} ReachesSelf(s: State)
    ensures Reaches(s, s)
  {
    hide Next;
    assert IsPath([s]);
  }

  lemma {:induction false} ReachesOn(s: State, t: State, u: State)
    requires Reaches(s, t) && Next(t, u)
    ensures Reaches(s, u)
  {
    hide Next;
    var path :| IsPath(path) && path[0] == s && path[|path| - 1] == t;
    var longer := path + [u];
    forall i {:trigger longer[i + 1]} | 0 <= i < |longer| - 1
      ensures Next(longer[i], longer[i + 1])
    {
      if i < |path| - 1 { assert Next(path[i], path[i + 1]); }
    }
    assert IsPath(longer);
  }

  lemma {:induction false} ReachesTrans(s: State, t: State, u: State)
    requires Reaches(s, t) && Reaches(t, u)
    ensures Reaches(s, u)
  {
    hide Next;
    var q :| IsPath(q) && q[0] == t && q[|q| - 1] == u;
    ReachesAlong(s, q, |q| - 1);
  }

  lemma {:induction false} ReachesAlong(s: State, path: seq<State>, k: nat)
    requires IsPath(path) && Reaches(s, path[0]) && k < |path|
    ensures Reaches(s, path[k])
    decreases k
  {
    hide Next, Reaches;
    if k > 0 {
      var before := k - 1;
      ReachesAlong(s, path, before);
      assert Next(path[before], path[before + 1]);
      ReachesOn(s, path[before], path[k]);
    }
  }

  /** What is reached from an initial state is the last state of a run. */
  lemma {:induction false} RunTo(s: State, t: State) returns (run: seq<State>)
    requires Init(s) && Reaches(s, t)
    ensures IsRun(run) && run[|run| - 1] == t
  {
    hide Init, Next;
    run :| IsPath(run) && run[0] == s && run[|run| - 1] == t;
  }

  lemma {:induction false} RunNotEmpty(run: seq<State>)
    requires IsRun(run)
    ensures run != []
  {
    hide Init, Next;
  }

  /** A run goes on to what its last state reaches. */
  lemma {:induction false} RunOn(run: seq<State>, t: State) returns (longer: seq<State>)
    requires IsRun(run) && Reaches(run[|run| - 1], t)
    ensures IsRun(longer) && run <= longer && longer[|longer| - 1] == t
  {
    hide Init, Next;
    var path :| IsPath(path) && path[0] == run[|run| - 1] && path[|path| - 1] == t;
    longer := run + path[1..];
    forall i {:trigger longer[i + 1]} | 0 <= i < |longer| - 1
      ensures Next(longer[i], longer[i + 1])
    {
      if i < |run| - 1 {
        assert Next(run[i], run[i + 1]);
      } else {
        var j := i - (|run| - 1);
        assert longer[i] == path[j] && longer[i + 1] == path[j + 1];
      }
    }
  }

  /** The same graph, limits and registry, cancelled and broken as before, and a log that only grew. */
  predicate SameSetting(s: State, t: State) {
    && t.core.graph == s.core.graph && t.limits == s.limits && t.registry == s.registry
    && t.cancelled == s.cancelled && t.fault == s.fault && s.core.log <= t.core.log
  }

  /** The state is of this graph, with these limits and this registry. */
  predicate Of(s: State, g: seq<Node>, limits: Bulkhead.Limits, registry: map<string, Compensation>) {
    s.core.graph == g && s.limits == limits && s.registry == registry
  }

  ghost predicate Onward(s: State, t: State) {
    Good(t) && Reaches(s, t) && SameSetting(s, t)
  }

  lemma {:induction false} OnwardTrans(s: State, t: State, u: State)
    requires Onward(s, t) && Onward(t, u)
    ensures Onward(s, u)
  {
    hide Good, Reaches;
    ReachesTrans(s, t, u);
  }

  lemma {:induction false} StepsOnward(s: State, step: Step, t: State)
    requires Good(s) && StepTo(s, step, t) && SameSetting(s, t)
    ensures Onward(s, t)
  {
    hide Good, StepTo, Reaches;
    StepKeeps(s, step, t);
    ReachesSelf(s);
    ReachesOn(s, s, t);
  }

  /* ---------- a round and its jobs ---------- */

  /** Some queued job is for `n`. */
  predicate HasJob(s: State, n: Id) {
    exists job :: job in s.queue && job.nodeId == n
  }

  ghost predicate AllIdle(ws: seq<Worker>) {
    |ws| >= 1 && forall w | 0 <= w < |ws| :: ws[w].Idle?
  }

  lemma {:induction false} HasWorker(s: State)
    requires Good(s)
    ensures |s.workers| >= 1
  {
    hide NodesOk, OwnersOk, BatchOk, LayersOk, SeatsOk, FaultOk, QueueOk, Sound, Good;
    GoodFlows(s);
  }

  lemma {:induction false} EnqueueLog(c: Core, ns: seq<Id>)
    ensures c.log <= EnqueueAll(c, ns).log
    decreases |ns|
  {
    if ns != [] {
      EnqueueLog(Emit(c, JobEnqueued(ns[0], if ns[0] in c.attempt then c.attempt[ns[0]] else 1)), ns[1..]);
    }
  }

  /** A round changes of the data only the log, and all its workers are idle. */
  lemma {:induction false} RoundIs(s: State, ready: seq<Id>)
    requires Inv(s.core) && |s.workers| >= 1
    ensures var t := Round(s, ready);
            && SameSetting(s, t) && t.core == s.core.(log := t.core.log) && AllIdle(t.workers) && t.driver.Dispatching?
            && t.queue == s.queue + JobsFor(s.core, ready) && forall n | n in ready :: HasJob(t, n)
  {
    hide Inv, EnqueueAll, JobsFor, Snaps;
    var t := Round(s, ready);
    EnqueueKeeps(s.core, ready);
    EnqueueLog(s.core, ready);
    forall n | n in ready
      ensures HasJob(t, n)
    {
      JobsCover(s.core, ready, n);
      var job :| job in JobsFor(s.core, ready) && job.nodeId == n;
      assert job in t.queue;
    }
  }

  /** A round begins. */
  lemma {:induction false} RoundOpens(s: State) returns (t: State)
    requires Good(s) && s.driver.Between? && !s.cancelled && ReadyList(s.core.graph, s.core.status) != []
    ensures Onward(s, t) && t.core == s.core.(log := t.core.log) && AllIdle(t.workers) && t.driver.Dispatching?
    ensures var ready := ReadyList(s.core.graph, s.core.status);
            t.queue == s.queue + JobsFor(s.core, ready) && forall n | n in ready :: HasJob(t, n)
    ensures Moves(s, t)
  {
    hide Good, ReadyList, Round, Sound, Inv, AllIdle, HasJob, Onward, SameSetting, JobsFor;
    GoodGives(s);
    HasWorker(s);
    var ready := ReadyList(s.core.graph, s.core.status);
    t := Round(s, ready);
    assert DriverStep(s, NextRound) == Some(t);
    assert StepTo(s, NextRound, t);
    RoundIs(s, ready);
    StepsOnward(s, NextRound, t);
  }

  lemma {:induction false} TakeIs(s: State, job: Job)
    requires Sound(s) && !s.cancelled && |s.workers| >= 1 && s.workers[0].Idle? && job in s.queue
    ensures StepTo(s, Take(0, job), s.(queue := s.queue - multiset{job}, workers := s.workers[0 := Holding(job)]))
  {
    hide Sound, FrameStep, DriverStep;
  }

  /** The first worker takes a job. */
  lemma {:induction false} JobTaken(s: State, job: Job) returns (t: State)
    requires Good(s) && !s.cancelled && |s.workers| >= 1 && s.workers[0].Idle? && job in s.queue
    ensures Onward(s, t) && Waits(t, 0, job.nodeId) && Moves(s, t)
    ensures t == s.(queue := s.queue - multiset{job}, workers := s.workers[0 := Holding(job)])
  {
    hide Good, Sound, Onward, StepTo;
    GoodGives(s);
    t := s.(queue := s.queue - multiset{job}, workers := s.workers[0 := Holding(job)]);
    TakeIs(s, job);
    StepsOnward(s, Take(0, job), t);
  }

  lemma {:induction false} JobsStay(s: State, t: State, job: Job, n: Id)
    requires t.queue == s.queue - multiset{job} && job.nodeId != n && HasJob(s, n)
    ensures HasJob(t, n)
  {
    var other :| other in s.queue && other.nodeId == n;
    assert other in t.queue;
  }

  lemma {:induction false} LeaveIs(s: State, w: nat)
    requires Sound(s) && w < |s.workers| && s.workers[w].Idle? && s.queue == multiset{}
    ensures StepTo(s, Leave(w), s.(workers := s.workers[w := Gone]))
  {
    hide Sound, FrameStep, DriverStep;
  }

  /** With nothing left in the queue, the workers from `k` on leave. */
  lemma {:induction false} WorkersLeave(s: State, k: nat) returns (t: State)
    requires Good(s) && k <= |s.workers| && s.queue == multiset{}
    requires (forall w | 0 <= w < k :: s.workers[w].Gone?) && forall w | k <= w < |s.workers| :: s.workers[w].Idle?
    ensures Onward(s, t) && t == s.(workers := t.workers) && forall w | 0 <= w < |t.workers| :: t.workers[w].Gone?
    decreases |s.workers| - k
  {
    hide Good, Sound, Reaches, StepTo;
    if k == |s.workers| {
      t := s;
      ReachesSelf(s);
    } else {
      GoodGives(s);
      var u := s.(workers := s.workers[k := Gone]);
      LeaveIs(s, k);
      StepsOnward(s, Leave(k), u);
      t := WorkersLeave(u, k + 1);
      OnwardTrans(s, u, t);
    }
  }

  /** A round whose jobs are done ends. */
  lemma {:induction false} RoundEnds(s: State) returns (t: State)
    requires Good(s) && s.queue == multiset{} && AllIdle(s.workers) && s.driver.Dispatching? && !s.fault
    ensures Onward(s, t) && t == s.(workers := t.workers, driver := Between)
  {
    hide Good, Sound, Onward, ReadyList;
    var u := WorkersLeave(s, 0);
    UnsetOnward(s, u);
    t := u.(driver := Between);
    GoodGives(u);
    AllGone(u);
    assert DriverStep(u, EndRound) == Some(t);
    assert StepTo(u, EndRound, t);
    StepsOnward(u, EndRound, t);
    OnwardTrans(s, u, t);
  }

  lemma {:induction false} OnwardReaches(s: State, t: State)
    requires Onward(s, t)
    ensures Reaches(s, t)
  {
    hide Good, Reaches;
  }

  lemma {:induction false} UnsetOnward(s: State, t: State)
    requires Onward(s, t)
    ensures Good(t) && SameSetting(s, t)
  {
    hide Good, Reaches, SameSetting;
  }

  /* ---------- one execution ---------- */

  /** The execution of `n` stands at `pc`, awaited by the first worker. */
  ghost predicate At(s: State, n: Id, pc: Pc) {
    && Good(s) && n in s.frames && s.frames[n].pc == pc && |s.workers| >= 1 && s.workers[0] == Awaiting(n)
    && n in ById(s.core.graph) && n in s.core.status
  }

  lemma {:induction false} AtGives(s: State, n: Id, pc: Pc)
    requires At(s, n, pc)
    ensures Good(s) && Sound(s) && n in s.frames && s.frames[n].pc == pc && n in ById(s.core.graph)
    ensures n in s.core.status && |s.workers| >= 1 && s.workers[0] == Awaiting(n)
  {
    hide Good, Sound, ById;
    GoodGives(s);
  }

  /** A step of the execution that only moves it on to `pc`, with data `c`. */
  lemma {:induction false} GoesTo(s: State, n: Id, before: Pc, step: Step, c: Core, pc: Pc)
    requires At(s, n, before) && Sound(s) && FrameStep(s, step) == Some(Goto(s, n, c, pc))
    requires c.graph == s.core.graph && s.core.log <= c.log && c.status.Keys == s.core.status.Keys
    ensures var t := Goto(s, n, c, pc); Onward(s, t) && At(t, n, pc)
  {
    hide Good, Sound, FrameStep, Onward, ById;
    var t := Goto(s, n, c, pc);
    assert StepTo(s, step, t);
    StepsOnward(s, step, t);
    UnsetOnward(s, t);
    assert n in c.status.Keys;
  }

  lemma {:induction false} ReadyIsFresh(v: View)
    requires ViewOk(v) && v.st == Ready
    ensures v.frame.None? && !v.inFlight && v.done.None?
  {
    if v.frame.Some? { PcBegun(v.frame.value.pc, v.st, v.logged); }
  }

  lemma {:induction false} ReadyCanBegin(s: State, n: Id)
    requires Good(s) && Waits(s, 0, n) && Unseated(s.workers) && n in s.core.status && s.core.status[n] == Ready
    requires Bulkhead.CanEverAdmit(s.limits, Seat(s, n))
    ensures Sound(s) && Key(s, n) !in s.completed && Key(s, n) !in s.inFlight
    ensures !Bulkhead.Refuses(s.limits, s.counters, Seat(s, n)) && n in ById(s.core.graph)
  {
    hide Good, Sound, Flow, NodeKey, SlotOf, Bulkhead.Refuses, Bulkhead.CanEverAdmit, ViewOk, ById;
    GoodGives(s);
    GoodFlows(s);
    FlowNodes(s);
    NodesGive(s, n);
    ReadyIsFresh(ViewOf(s, n));
    FreeSeat(s, n);
    SoundKnows(s, n);
  }

  lemma {:induction false} SoundKnows(s: State, n: Id)
    requires Sound(s) && n in s.core.status
    ensures n in ById(s.core.graph)
  {
    hide ById, Listed;
  }

  /** With a free seat a worker begins to execute a ready node. */
  lemma {:induction false} BeginsNode(s: State, n: Id) returns (t: State)
    requires Good(s) && Waits(s, 0, n) && Unseated(s.workers) && n in s.core.status && s.core.status[n] == Ready
    requires Bulkhead.CanEverAdmit(s.limits, Seat(s, n))
    ensures Onward(s, t) && At(t, n, Started) && t.queue == s.queue && t.driver == s.driver
    ensures t.workers == s.workers[0 := Awaiting(n)]
    ensures t.core == s.core.(status := s.core.status[n := Running], attempt := t.core.attempt, log := t.core.log)
  {
    hide Good, Sound, NodeKey, SlotOf, Bulkhead.Refuses, Bulkhead.CanEverAdmit, Bulkhead.Acquired, BeginJob, FrameStep,
      DriverStep, Onward, ById;
    ReadyCanBegin(s, n);
    BeginIs(s, 0);
    t := BeginJob(s, 0);
    assert StepTo(s, Begin(0), t);
    StepsOnward(s, Begin(0), t);
    UnsetOnward(s, t);
  }

  /** The handler is called at once: an action, or a conditional with one, whose input is no reference. */
  predicate Calls(def: Node) {
    InputRef(def.input).None?
      && (def.kind.Action? || (def.kind.Conditional? && def.condition.Some? && Truthy(def.action)))
  }

  /** What becomes of the handler's result, if it is a success and no branch is skipped for it. */
  predicate Executes(def: Node, result: NodeResult) {
    && Calls(def) && result.status.Success?
    && (def.kind.Conditional? ==> NotChosen(def.condition.value, result) == [])
  }

  function Outcome(n: Id, def: Node, result: NodeResult): NodeResult {
    if def.kind.Conditional? && def.condition.Some? then BranchResult(n, def.condition.value, result) else result
  }

  lemma {:induction false} InvokeIs(s: State, n: Id)
    requires Sound(s) && n in s.frames && s.frames[n].pc.Started? && n in ById(s.core.graph)
    requires Calls(ById(s.core.graph)[n])
    ensures FrameStep(s, Invoke(n, false, "", Guard(false, false))) == Some(Goto(s, n, s.core, Handling))
  {
    hide Sound, ById, FailAttempt, InputRef, Goto, Branch;
  }

  lemma {:induction false} Invoked(s: State, n: Id) returns (t: State)
    requires At(s, n, Started) && Calls(ById(s.core.graph)[n])
    ensures Onward(s, t) && At(t, n, Handling) && t == s.(frames := t.frames)
  {
    hide Good, Sound, FrameStep, Onward, Calls, ById, At;
    AtGives(s, n, Started);
    InvokeIs(s, n);
    GoesTo(s, n, Started, Invoke(n, false, "", Guard(false, false)), s.core, Handling);
    t := Goto(s, n, s.core, Handling);
  }

  lemma {:induction false} NothingToSkip(c: Core)
    requires Listed(c)
    ensures SkipAll(c, []) == Attempt(c, false)
  {}

  lemma {:induction false} HandlerIs(s: State, n: Id, result: NodeResult)
    requires Sound(s) && n in s.frames && s.frames[n].pc.Handling? && n in ById(s.core.graph)
    requires Executes(ById(s.core.graph)[n], result)
    ensures FrameStep(s, HandlerReturns(n, Some(result), "", Guard(false, false))) ==
              Some(Goto(s, n, s.core, Returned(Outcome(n, ById(s.core.graph)[n], result))))
  {
    hide ById, FailAttempt, InputRef, Goto, NotChosen, BranchResult, SkipAll;
    NothingToSkip(s.core);
  }

  lemma {:induction false} Answered(s: State, n: Id, result: NodeResult) returns (t: State)
    requires At(s, n, Handling) && Executes(ById(s.core.graph)[n], result)
    ensures Onward(s, t) && At(t, n, Returned(Outcome(n, ById(s.core.graph)[n], result))) && t == s.(frames := t.frames)
  {
    hide Good, Sound, FrameStep, Onward, Executes, ById, At, Outcome;
    AtGives(s, n, Handling);
    HandlerIs(s, n, result);
    var outcome := Outcome(n, ById(s.core.graph)[n], result);
    GoesTo(s, n, Handling, HandlerReturns(n, Some(result), "", Guard(false, false)), s.core, Returned(outcome));
    t := Goto(s, n, s.core, Returned(outcome));
  }

  lemma {:induction false} VerifyIs(s: State, n: Id)
    requires Sound(s) && n in s.frames && s.frames[n].pc.Returned?
    ensures FrameStep(s, VerifyResult(n)) ==
              Some(Goto(s, n, Move(s.core, n, Verifying, NodeVerified(n)), Verified(s.frames[n].pc.result)))
  {
    hide Sound, Goto, Move;
  }

  lemma {:induction false} ResultVerified(s: State, n: Id, result: NodeResult) returns (t: State)
    requires At(s, n, Returned(result))
    ensures Onward(s, t) && At(t, n, Verified(result)) && t == s.(core := t.core, frames := t.frames)
    ensures t.core == s.core.(status := s.core.status[n := Verifying], log := t.core.log)
  {
    hide Good, Sound, FrameStep, Onward, At;
    AtGives(s, n, Returned(result));
    var c := Move(s.core, n, Verifying, NodeVerified(n));
    VerifyIs(s, n);
    GoesTo(s, n, Returned(result), VerifyResult(n), c, Verified(result));
    t := Goto(s, n, c, Verified(result));
  }

  lemma {:induction false} ResolveIs(s: State, n: Id, t: State)
    requires Sound(s) && n in s.frames && s.frames[n].pc.Verified?
    requires t == Goto(s, n, s.core, Resolved(s.frames[n].pc.result)).(
                    completed := s.completed[Key(s, n) := s.frames[n].pc.result],
                    inFlight := s.inFlight - {Key(s, n)})
    ensures FrameStep(s, Resolve(n)) == Some(t)
  {
    hide Sound, Goto, Key;
  }

  lemma {:induction false} ResultResolved(s: State, n: Id, result: NodeResult) returns (t: State)
    requires At(s, n, Verified(result))
    ensures Onward(s, t) && At(t, n, Resolved(result))
    ensures t == s.(frames := t.frames, completed := t.completed, inFlight := t.inFlight)
    ensures Key(t, n) in t.completed && t.completed[Key(t, n)] == result
  {
    hide Good, Sound, FrameStep, NodeKey, Onward, ById;
    GoodGives(s);
    t := Goto(s, n, s.core, Resolved(result)).(
         completed := s.completed[Key(s, n) := result], inFlight := s.inFlight - {Key(s, n)});
    ResolveIs(s, n, t);
    assert StepTo(s, Resolve(n), t);
    StepsOnward(s, Resolve(n), t);
    UnsetOnward(s, t);
  }

  lemma {:induction false} RecordIs(s: State, n: Id, result: NodeResult, t: State)
    requires Sound(s) && |s.workers| >= 1 && s.workers[0] == Awaiting(n) && n in s.core.status
    requires s.core.status[n] == Verifying && Key(s, n) in s.completed && s.completed[Key(s, n)] == result
    requires t == s.(workers := s.workers[0 := Idle], counters := Bulkhead.Released(s.counters, Seat(s, n)),
                     core := CompleteNode(s.core, n, result))
    ensures WorkerStep(s, Settle(0)) == Some(t)
  {
    hide Sound, NodeKey, CompleteNode, Bulkhead.Released, SlotOf;
  }

  /** Recording changes statuses, results, order and log, and the log begins with the completion. */
  lemma {:induction false} RecordedCore(c: Core, n: Id, result: NodeResult)
    requires Inv(c) && n in c.status && c.status[n] == Verifying && Listed(c)
    ensures var d := CompleteNode(c, n, result);
            && Finishes(c, d, n) && c.log <= d.log && |d.log| > |c.log| && d.log[|c.log|] == NodeCompleted(n, result)
  {
    hide Inv, CompleteNode, Deps, DepsDone, Promoted, Finishes;
    CompleteKeeps(c, n, result);
    CompleteFinishes(c, n, result);
  }

  lemma {:induction false} ResultRecorded(s: State, n: Id, result: NodeResult) returns (t: State)
    requires At(s, n, Resolved(result)) && s.core.status[n] == Verifying
    requires Key(s, n) in s.completed && s.completed[Key(s, n)] == result
    ensures Onward(s, t) && Finishes(s.core, t.core, n)
    ensures t == s.(workers := s.workers[0 := Idle], counters := t.counters, core := t.core)
    ensures |t.core.log| > |s.core.log| && t.core.log[|s.core.log|] == NodeCompleted(n, result)
  {
    hide Good, Sound, WorkerStep, NodeKey, CompleteNode, Bulkhead.Released, Seat, Inv, Onward, Promoted, Deps, ById;
    GoodGives(s);
    RecordedCore(s.core, n, result);
    t := s.(workers := s.workers[0 := Idle], counters := Bulkhead.Released(s.counters, Seat(s, n)),
            core := CompleteNode(s.core, n, result));
    RecordIs(s, n, result, t);
    assert StepTo(s, Settle(0), t);
    StepsOnward(s, Settle(0), t);
  }

  /** The node is completed; others are as before or have become ready. */
  predicate Completes(c: Core, d: Core, n: Id) {
    && d.completionOrder == c.completionOrder + [n] && d.status.Keys == c.status.Keys && n in c.status
    && d.status[n] == Completed
    && forall m | m in c.status && m != n ::
         d.status[m] == c.status[m] || (c.status[m] == Planned && d.status[m] == Ready)
  }

  lemma {:induction false} FinishesCompletes(a: Core, b: Core, c: Core, d: Core, n: Id)
    requires n in a.status && a.completionOrder == c.completionOrder
    requires b.status == a.status[n := Running] && c.status == b.status[n := Verifying] && Finishes(c, d, n)
    ensures Completes(a, d, n)
  {
    hide Inv, Promoted, Deps, Snaps;
    assert c.status.Keys == a.status.Keys;
  }

  /** The log of `t` has the completion of `n` at `k`, where that of `s` had ended. */
  predicate CompletesAt(s: State, t: State, k: nat, n: Id, result: NodeResult) {
    |s.core.log| <= k < |t.core.log| && t.core.log[k] == NodeCompleted(n, result)
  }

  /** From its start to the end of its handler. */
  lemma {:induction false} Handled(s: State, n: Id, result: NodeResult) returns (t: State)
    requires At(s, n, Started) && Executes(ById(s.core.graph)[n], result)
    ensures Onward(s, t) && At(t, n, Returned(Outcome(n, ById(s.core.graph)[n], result))) && t == s.(frames := t.frames)
  {
    hide Good, InputRef, Onward, At, ById, Outcome, NotChosen;
    AtGives(s, n, Started);
    var u := Invoked(s, n);
    t := Answered(u, n, result);
    OnwardTrans(s, u, t);
  }

  /** From the end of its handler to its completion. */
  lemma {:induction false} Concluded(s: State, n: Id, result: NodeResult) returns (t: State, c: Core, k: nat)
    requires At(s, n, Returned(result))
    ensures Onward(s, t) && Finishes(c, t.core, n)
    ensures c == s.core.(status := s.core.status[n := Verifying], log := c.log)
    ensures t.workers == s.workers[0 := Idle] && t.queue == s.queue && t.driver == s.driver
    ensures CompletesAt(s, t, k, n, result)
  {
    hide Good, Onward, At, Finishes, Key;
    AtGives(s, n, Returned(result));
    var u := ResultVerified(s, n, result);
    var v := ResultResolved(u, n, result);
    AtGives(v, n, Resolved(result));
    t := ResultRecorded(v, n, result);
    c, k := v.core, |v.core.log|;
    UnsetOnward(s, u);
    OnwardTrans(s, u, v);
    OnwardTrans(s, v, t);
  }

  /** A worker that waits for its seat executes the node to its completion. */
  lemma {:induction false} Executed(s: State, n: Id, result: NodeResult) returns (t: State, k: nat)
    requires Good(s) && Waits(s, 0, n) && Unseated(s.workers) && n in s.core.status && s.core.status[n] == Ready
    requires Bulkhead.CanEverAdmit(s.limits, Seat(s, n))
    requires n in ById(s.core.graph) && Executes(ById(s.core.graph)[n], result)
    ensures Onward(s, t) && Completes(s.core, t.core, n)
    ensures t.workers == s.workers[0 := Idle] && t.queue == s.queue && t.driver == s.driver
    ensures CompletesAt(s, t, k, n, Outcome(n, ById(s.core.graph)[n], result))
  {
    hide Good, Onward, At, ById, Outcome, Executes, Bulkhead.CanEverAdmit, Seat, Finishes, Completes;
    var u := BeginsNode(s, n);
    UnsetOnward(s, u);
    var v := Handled(u, n, result);
    var outcome, c := Outcome(n, ById(s.core.graph)[n], result), v.core;
    t, c, k := Concluded(v, n, outcome);
    FinishesCompletes(s.core, u.core, c, t.core, n);
    OnwardTrans(s, u, v);
    OnwardTrans(s, v, t);
  }

  /** Every cap that applies to the node is at least one. */
  predicate Admits(limits: Bulkhead.Limits, g: seq<Node>, n: Id) {
    Bulkhead.CanEverAdmit(limits, SlotOf("", g, n))
  }

  lemma {:induction false} AdmitsSeat(s: State, n: Id)
    ensures Admits(s.limits, s.core.graph, n) <==> Bulkhead.CanEverAdmit(s.limits, Seat(s, n))
  {
    hide Bulkhead.CanEverAdmit, SlotOf;
    AnyRunId(s.limits, s.core.graph, n, "", s.core.runId);
  }

  /* ---------- rounds ---------- */

  /** Between two rounds of an undisturbed process. */
  ghost predicate Poised(s: State) {
    Good(s) && s.driver.Between? && !s.cancelled && !s.fault
  }

  /** A round begins, and the first worker takes the job of a ready node. */
  lemma {:induction false} RoundAndJob(s: State, n: Id) returns (t: State)
    requires Poised(s) && n in ReadyList(s.core.graph, s.core.status)
    ensures Onward(s, t) && Waits(t, 0, n) && Unseated(t.workers) && t.driver.Dispatching?
    ensures t.core == s.core.(log := t.core.log) && n in t.core.status && t.core.status[n] == Ready
    ensures forall w | 1 <= w < |t.workers| :: t.workers[w].Idle?
    ensures forall m | m != n && m in ReadyList(s.core.graph, s.core.status) :: HasJob(t, m)
  {
    hide Good, ReadyList, Onward, SameSetting, Moves, JobsFor;
    ReadyMembers(s.core.graph, s.core.status, n);
    var u := RoundOpens(s);
    UnsetOnward(s, u);
    SettingGives(s, u);
    assert HasJob(u, n);
    var job :| job in u.queue && job.nodeId == n;
    t := JobTaken(u, job);
    OnwardTrans(s, u, t);
    forall m | m != n && m in ReadyList(s.core.graph, s.core.status)
      ensures HasJob(t, m)
    {
      JobsStay(u, t, job, m);
    }
  }

  lemma {:induction false} SettingGives(s: State, t: State)
    requires SameSetting(s, t)
    ensures t.cancelled == s.cancelled && t.fault == s.fault && t.limits == s.limits && t.core.graph == s.core.graph
  {}

  lemma {:induction false} InvKeys(c: Core)
    requires Inv(c)
    ensures c.status.Keys == Deps(c.graph).Keys
  {
    hide Deps;
    InvDeps(c);
  }

  lemma {:induction false} GoodKeys(s: State)
    requires Good(s)
    ensures s.core.status.Keys == Deps(s.core.graph).Keys
  {
    hide Good, Deps, Inv;
    GoodGives(s);
    InvKeys(s.core);
  }

  /** An idle node whose dependencies are completed is ready. */
  lemma {:induction false} IsReady(s: State, n: Id)
    requires Good(s) && n in s.core.status && Idles(s.core.status[n]) && DepsDone(Deps(s.core.graph), s.core.status, n)
    ensures s.core.status[n] == Ready && n in ReadyList(s.core.graph, s.core.status)
  {
    hide Good, ReadyList, Deps, Inv;
    GoodGives(s);
    ReadyMembers(s.core.graph, s.core.status, n);
  }

  /** An idle node with a dependency that is not completed is planned. */
  lemma {:induction false} IsPlanned(s: State, n: Id, d: Id)
    requires Good(s) && n in s.core.status && Idles(s.core.status[n]) && Edge(Deps(s.core.graph), n, d)
    requires d in s.core.status && s.core.status[d] != Completed
    ensures s.core.status[n] == Planned && n !in ReadyList(s.core.graph, s.core.status)
  {
    hide Good, ReadyList, Deps, Inv, DepSafe, AboveDone, SkipClosed, OrderOk, KnownDeps, Acyclic, Promoted, Edge;
    GoodGives(s);
    InvDeps(s.core);
    if s.core.status[n] == Ready { BegunDeps(Deps(s.core.graph), s.core.status, d, n); }
    ReadyMembers(s.core.graph, s.core.status, n);
  }

  predicate Idles(st: Status) {
    st == Planned || st == Ready
  }

  /* ---------- starting and restarting ---------- */

  /** A new run, before its first round. */
  lemma {:induction false} RunBegins(runId: string, g: seq<Node>, registry: map<string, Compensation>,
      limits: Bulkhead.Limits) returns (s: State)
    requires Valid(g)
    ensures Init(s) && Poised(s) && s.queue == multiset{} && s.limits == limits && s.registry == registry
    ensures s.core.graph == g && s.core.runId == runId && Fresh(s.core.status) && s.core.completionOrder == []
  {
    hide Good, Valid, Deps, NewRun, Promote, Seeds, Inv, Promoted;
    NewRunKeeps(runId, g);
    InvListed(NewRun(runId, g));
    NewRunPlanned(runId, g);
    PromoteAll(NewRun(runId, g));
    NewRunHas(runId, g);
    s := Boot(Promote(NewRun(runId, g), 0), registry, limits, false, true);
    assert Init(s);
    InitGood(s);
  }

  /** Nothing has started. */
  predicate Fresh(st: Statuses) {
    forall n | n in st :: Idles(st[n])
  }

  lemma {:induction false} NewRunHas(runId: string, g: seq<Node>)
    ensures var c := NewRun(runId, g); c.graph == g && c.runId == runId && c.completionOrder == []
  {}

  /** No node is skipped. */
  predicate NoSkips(st: Statuses) {
    forall n | n in st :: st[n] != Skipped
  }

  /** A crash that loses nothing of a log without skips: what is completed and has a name stays so. */
  ghost predicate Restarted(s: State, u: State) {
    && Poised(u) && Reaches(s, u) && u.limits == s.limits && u.registry == s.registry
    && u.core.graph == s.core.graph && s.core.log <= u.core.log && u.core.status.Keys == s.core.status.Keys
    && forall n | n in s.core.status :: RestartedAt(n, s.core.status[n], u.core.status[n])
  }

  predicate RestartedAt(n: Id, before: Status, after: Status) {
    && (before == Completed && Named(n) ==> after == Completed)
    && (!Terminal(before) || !Named(n) ==> Idles(after))
  }

  /** A crash that keeps the first entries of the log, and the process that starts from them. */
  lemma {:induction false} Crashes(s: State, kept: nat) returns (u: State)
    requires Good(s) && 1 <= kept <= |s.core.log|
    ensures Hydrate(s.core.log[..kept]).Some? && Next(s, u) && Good(u)
    ensures u == Boot(Hydrate(s.core.log[..kept]).value, s.registry, s.limits, false, false)
  {
    hide Good, Sound, Hydrate, Boot, StepTo;
    GoodGives(s);
    CrashKeeps(s, kept);
    u := Boot(Hydrate(s.core.log[..kept]).value, s.registry, s.limits, false, false);
    CrashIs(s, kept);
  }

  lemma {:induction false} CrashIs(s: State, kept: nat)
    requires Sound(s) && 1 <= kept <= |s.core.log| && Hydrate(s.core.log[..kept]).Some?
    ensures StepTo(s, Crash(kept), Boot(Hydrate(s.core.log[..kept]).value, s.registry, s.limits, false, false))
  {
    hide Sound, Hydrate, Boot, ReadyList, FrameStep, WorkerStep;
  }

  lemma {:induction false} CrashesWhole(s: State) returns (u: State)
    requires Good(s) && NoSkips(s.core.status)
    ensures Restarted(s, u)
  {
    hide Good, Sound, Inv, LogOk, Valid, Hydrate, Deps, Seeds, Next, Reaches, RestartedAt;
    GoodGives(s);
    InvLogged(s.core);
    var g, log := s.core.graph, s.core.log;
    assert log[..|log|] == log;
    LogNotEmpty(g, log);
    u := Crashes(s, |log|);
    HydrateKeeps(g, log);
    ReachesSelf(s);
    ReachesOn(s, s, u);
    GoodGives(u);
    InvKeys(s.core);
    InvKeys(u.core);
    forall n | n in s.core.status
      ensures RestartedAt(n, s.core.status[n], u.core.status[n])
    {
      RestartsAt(s.core, u.core, n);
    }
  }

  lemma {:induction false} LogAgrees(c: Core, n: Id)
    requires Inv(c) && n in c.status && Named(n)
    ensures AgreesAt(c.status[n], SnapOf(Told(c.log), n).status)
  {
    hide LogOk, DepSafe, AboveDone, OrderOk, SkipClosed, Static, Told, Snaps;
    ReplayedIfNamed(c.log, n);
  }

  lemma {:induction false} RestartsAt(c: Core, d: Core, n: Id)
    requires Inv(c) && n in c.status && NoSkips(c.status) && c.status.Keys == Deps(c.graph).Keys
    requires Hydrate(c.log) == Some(d) && n in d.status
    ensures RestartedAt(n, c.status[n], d.status[n])
  {
    hide Inv, LogOk, Valid, Hydrate, Deps, Told, Ancestor;
    InvLogged(c);
    HydrateExact(c.graph, c.log, n);
    if Named(n) { LogAgrees(c, n); }
    if BelowSkipped(c.graph, c.log, n) {
      var root :| root in Deps(c.graph) && Named(root) && SnapOf(Told(c.log), root).status == Skipped
        && Ancestor(Deps(c.graph), root, n);
      LogAgrees(c, root);
    }
  }

  /** What depends only on completed nodes with names is ready after the crash, unless it is restored as finished. */
  lemma {:induction false} ReadyAfterCrash(s: State, t: State, n: Id)
    requires Restarted(s, t) && n in s.core.status && n in Deps(s.core.graph)
    requires !Terminal(s.core.status[n]) || !Named(n)
    requires forall d | d in Deps(s.core.graph)[n] ::
               d in s.core.status && s.core.status[d] == Completed && Named(d)
    ensures n in t.core.status && t.core.status[n] == Ready && n in ReadyList(t.core.graph, t.core.status)
  {
    hide Good, Deps, Reaches, ReadyList;
    var r := Deps(s.core.graph);
    assert n in t.core.status.Keys;
    assert RestartedAt(n, s.core.status[n], t.core.status[n]);
    forall d | d in r[n]
      ensures d in t.core.status && t.core.status[d] == Completed
    {
      assert d in t.core.status.Keys;
      assert RestartedAt(d, s.core.status[d], t.core.status[d]);
    }
    IsReady(t, n);
  }

  lemma {:induction false} RestartGives(s: State, t: State)
    requires Restarted(s, t)
    ensures Poised(t) && Reaches(s, t) && t.limits == s.limits && t.registry == s.registry
            && t.core.graph == s.core.graph && s.core.log <= t.core.log
  {
    hide Good, Reaches, RestartedAt;
  }
}
