/**
 The executor as a state machine. A step is the code between two awaits of one of the concurrent activities:
 the drive loop, its workers, and the executions of nodes. Any enabled step may come next, jobs may be delivered
 again at any time, an approval callback may throw, and a crash throws everything away except a prefix of the log.
 */
module Machine {
  import opened Wrappers
  import opened WorkflowTypes
  import opened NodeMachine
  import opened Layers
  import opened WorkflowLog
  import opened WorkflowCore
  import opened Recovery
  import Bulkhead
  import opened Conditions
  import opened Keys
  import opened Retry

  /** Where the execution of one node is waiting. */
  datatype Pc =
    | Started
    | AwaitingApproval
    | Approved
    | Denied
    | Handling
    | Returned(result: NodeResult)
    | Verified(result: NodeResult)
    | Resolved(result: NodeResult)
    | Sleeping
    | Undoing
    | UndoingUpstream(pass: seq<Id>, next: nat, undone: seq<Id>)
    | Rejected
    | Escaped

  /** One execution of a node: its attempt, where it began, how often it ran, and the worker awaiting it. */
  datatype Frame = Frame(pc: Pc, attempt: int, start: int, runs: nat, owner: nat)

  datatype Job = Job(nodeId: Id, attempt: int)

  datatype Worker = Idle | Holding(job: Job) | Awaiting(nodeId: Id) | Gone

  datatype Driver = Between | Dispatching | Stopped

  datatype State = State(
    core: Core,
    registry: map<string, Compensation>,
    completed: map<string, NodeResult>,
    inFlight: set<string>,
    frames: map<Id, Frame>,
    started: seq<Id>,
    queue: multiset<Job>,
    issued: map<Id, int>,
    workers: seq<Worker>,
    driver: Driver,
    batches: seq<seq<Id>>,
    cancelled: bool,
    firstRun: bool,
    limits: Bulkhead.Limits,
    counters: Bulkhead.Counters,
    fault: bool)

  /** The immune system's verdict on a failure. */
  datatype Guard = Guard(stop: bool, quarantine: bool)

  datatype Step =
    // one execution of a node
    | StartFails(n: Id, error: string, guard: Guard)
    | Invoke(n: Id, needsApproval: bool, error: string, guard: Guard)
    | Answer(n: Id, approved: bool)
    | ApprovalThrows(n: Id, error: string, guard: Guard)
    | AfterApproval(n: Id, error: string, guard: Guard)
    | HandlerReturns(n: Id, outcome: Option<NodeResult>, error: string, guard: Guard)
    | VerifyResult(n: Id)
    | Resolve(n: Id)
    | Wake(n: Id)
    | UndoSelf(n: Id)
    | UndoNext(n: Id)
    // a worker
    | Take(w: nat, job: Job)
    | Leave(w: nat)
    | Begin(w: nat)
    | Settle(w: nat)
    // the drive loop
    | NextRound
    | EndRound
    | Stop
    // the environment
    | Cancelling
    | Redeliver(job: Job)
    | Crash(kept: nat)

  /** What every function below may rely on. */
  ghost predicate Sound(s: State) {
    && Listed(s.core)
    && s.core.status.Keys == ById(s.core.graph).Keys == s.core.attempt.Keys == s.core.failures.Keys
    && s.frames.Keys <= s.core.status.Keys
  }

  function DefOf(s: State, n: Id): Node
    requires n in ById(s.core.graph)
  {
    ById(s.core.graph)[n]
  }

  function Key(s: State, n: Id): string {
    NodeKey(s.core.runId, s.core.graph, n)
  }

  /** The execution of `n` moves on to `pc` with the given data. */
  function Goto(s: State, n: Id, c: Core, pc: Pc): State
    requires n in s.frames
  {
    s.(core := c, frames := s.frames[n := s.frames[n].(pc := pc)])
  }

  /* ---------- failure ---------- */

  /** The compensation of a node: its own, or the one registered for its action. */
  function CompensationFor(registry: map<string, Compensation>, n: Node): Option<Compensation> {
    if n.compensation.Some? then n.compensation
    else if Truthy(n.action) && n.action.value in registry then Some(registry[n.action.value])
    else None
  }

  predicate Undoable(registry: map<string, Compensation>, n: Node) {
    var spec := CompensationFor(registry, n);
    spec.Some? && spec.value.Undo?
  }

  /** The status a failing node is brought to before quarantine or compensation. */
  function FailedFrom(st: Status): Status {
    if st == Running || st == Verifying || st == Ready then Failed else st
  }

  /** An illegal transition escapes from the execution of `n`: its promise is rejected and its status stays as it is. */
  function Escape(s: State, n: Id, c: Core): State
    requires n in s.frames
  {
    Goto(s, n, c, Escaped).(fault := true)
  }

  /** `failNode` up to its first await. A waiting node cannot fail. */
  function FailNode(s: State, n: Id, quarantine: bool): State
    requires Sound(s) && n in s.frames
  {
    var c := s.core;
    var st := FailedFrom(c.status[n]);
    if st == Waiting then Escape(s, n, c)
    else if quarantine then
      if Transition(st, Quarantine).None? then Goto(s, n, c.(status := c.status[n := st]), Rejected)
      else Goto(s, n, Move(c, n, Quarantined, NodeQuarantined(n)), Rejected)
    else if Undoable(s.registry, DefOf(s, n)) then
      if Transition(st, Compensate).None? then Goto(s, n, c.(status := c.status[n := st]), Rejected)
      else Goto(s, n, Move(c, n, Compensating, NodeCompensating(n)), Undoing)
    else Goto(s, n, Move(c, n, st, NodeFailed(n)), Rejected)
  }

  /** The catch block around an attempt: give up, or arrange the next attempt. */
  function FailAttempt(s: State, n: Id, error: string, guard: Guard): State
    requires Sound(s) && n in s.frames
  {
    var f, policy := s.frames[n], PolicyOf(DefOf(s, n));
    var counted := s.(core := s.core.(failures := s.core.failures[n := s.core.failures[n] + 1]));
    if guard.stop || !(f.attempt < policy.maxAttempts && IsRetryable(policy, error)) then
      FailNode(counted, n, guard.quarantine)
    else if s.core.status[n] != Failed && Transition(s.core.status[n], Fail).None? then
      Escape(counted, n, counted.core)
    else if s.core.status[n] == Failed then
      // failing a failed node is illegal: the error escapes and nothing is logged
      Goto(counted, n, counted.core, Rejected)
    else
      Goto(counted, n, Move(counted.core, n, Retrying, NodeRetrying(n, f.attempt)), Sleeping)
  }

  lemma {:induction false} SkipAllSound(s: State, ns: seq<Id>)
    requires Sound(s)
    ensures Sound(s.(core := SkipAll(s.core, ns).core))
  {
    SkipAllRest(s.core, ns);
  }

  /** Nothing but statuses and the log differ. */
  predicate SameRest(c: Core, d: Core) {
    d == c.(status := d.status, log := d.log)
  }

  /** Cascading changes statuses and the log only. */
  lemma {:induction false} CascadeRest(c: Core, n: Id, i: nat)
    requires Listed(c)
    ensures SameRest(c, CascadeSkip(c, n, i).core)
    decreases Unfinished(c.status), |c.graph| - i
  {
    hide Unfinished, Deps;
    if i < |c.graph| {
      var other := c.graph[i].id;
      if n in c.graph[i].deps && !Terminal(c.status[other]) {
        if Transition(c.status[other], Skip).Some? {
          var marked := Move(c, other, Skipped, NodeSkipped(other));
          UnfinishedDrops(c.status, other);
          CascadeRest(marked, other, 0);
          CascadeRest(CascadeSkip(marked, other, 0).core, n, i + 1);
        }
      } else {
        CascadeRest(c, n, i + 1);
      }
    }
  }

  lemma {:induction false} UnfinishedDrops(st: Statuses, n: Id)
    requires n in st && !Terminal(st[n])
    ensures Unfinished(st[n := Skipped]) < Unfinished(st)
  {
    assert n in Unfinished(st) && n !in Unfinished(st[n := Skipped]);
  }

  lemma {:induction false} SkipAllRest(c: Core, ns: seq<Id>)
    requires Listed(c)
    ensures SameRest(c, SkipAll(c, ns).core)
    decreases |ns|
  {
    if ns != [] {
      if ns[0] in c.status && Transition(c.status[ns[0]], Skip).Some? {
        CascadeRest(Move(c, ns[0], Skipped, NodeSkipped(ns[0])), ns[0], 0);
      }
      SkipAllRest(SkipNode(c, ns[0]).core, ns[1..]);
    }
  }

  /* ---------- one attempt ---------- */

  /** The chosen branch of a conditional skips the nodes of the other. */
  function Branch(s: State, n: Id, cond: Condition, source: NodeResult, error: string, guard: Guard): State
    requires Sound(s) && n in s.frames
  {
    var a := SkipAll(s.core, NotChosen(cond, source));
    SkipAllSound(s, NotChosen(cond, source));
    if a.threw then FailAttempt(s.(core := a.core), n, error, guard)
    else Goto(s, n, a.core, Returned(BranchResult(n, cond, source)))
  }

  /** Runs the handler, unless the input or the condition cannot be resolved. */
  function CallHandler(s: State, n: Id, error: string, guard: Guard): State
    requires Sound(s) && n in s.frames
  {
    var def := DefOf(s, n);
    if InputResolves(s.core.results, def) then Goto(s, n, s.core, Handling) else FailAttempt(s, n, error, guard)
  }

  function InvokeNode(s: State, n: Id, needsApproval: bool, error: string, guard: Guard): State
    requires Sound(s) && n in s.frames
  {
    var def := DefOf(s, n);
    match def.kind
    case Conditional =>
      if def.condition.None? then FailAttempt(s, n, error, guard)
      else if Truthy(def.action) then CallHandler(s, n, error, guard)
      else if def.condition.value.when.nodeId !in s.core.results then FailAttempt(s, n, error, guard)
      else Branch(s, n, def.condition.value, s.core.results[def.condition.value.when.nodeId], error, guard)
    case Approval => Goto(s, n, Move(s.core, n, Waiting, ApprovalRequired(n)), AwaitingApproval)
    case Action =>
      if needsApproval then Goto(s, n, Move(s.core, n, Waiting, ApprovalRequired(n)), AwaitingApproval)
      else CallHandler(s, n, error, guard)
  }

  function AnswerApproval(s: State, n: Id, approved: bool): State
    requires Sound(s) && n in s.frames
  {
    if approved then Goto(s, n, Move(s.core, n, Running, ApprovalGranted(n)), Approved)
    else Goto(s, n, Move(s.core, n, Failed, ApprovalDenied(n)), Denied)
  }

  function ProceedAfterApproval(s: State, n: Id, error: string, guard: Guard): State
    requires Sound(s) && n in s.frames
  {
    if s.frames[n].pc.Denied? then FailAttempt(s, n, error, guard)
    else if DefOf(s, n).kind.Approval? then Goto(s, n, s.core, Returned(ApprovalResult(DefOf(s, n))))
    else CallHandler(s, n, error, guard)
  }

  function HandlerOutcome(s: State, n: Id, outcome: Option<NodeResult>, error: string, guard: Guard): State
    requires Sound(s) && n in s.frames
  {
    var def := DefOf(s, n);
    if outcome.None? then FailAttempt(s, n, error, guard)
    else if def.kind.Conditional? then
      if def.condition.None? then FailAttempt(s, n, error, guard)
      else Branch(s, n, def.condition.value, outcome.value, error, guard)
    else if outcome.value.status.Failure? then FailAttempt(s, n, error, guard)
    else Goto(s, n, s.core, Returned(outcome.value))
  }

  function RunNode(c: Core, n: Id, attempt: int): Core {
    Move(c.(attempt := c.attempt[n := attempt]), n, Running, NodeRunning(n, attempt))
  }

  function Compensated(c: Core, n: Id): Core {
    Emit(c.(compensated := c.compensated + [n]), NodeCompensated(n))
  }

  function WakeUp(s: State, n: Id): State
    requires Sound(s) && n in s.frames
  {
    var f := s.frames[n];
    s.(core := RunNode(s.core, n, f.attempt + 1),
       frames := s.frames[n := f.(pc := Started, attempt := f.attempt + 1, runs := f.runs + 1)])
  }

  function Reverse(order: seq<Id>): seq<Id> {
    if order == [] then [] else [order[|order| - 1]] + Reverse(order[..|order| - 1])
  }

  /** One turn of the loop that undoes completed work. */
  function UndoOne(s: State, n: Id): State
    requires Sound(s) && n in s.frames && s.frames[n].pc.UndoingUpstream?
  {
    var pc, c := s.frames[n].pc, s.core;
    if pc.next >= |pc.pass| then Goto(s, n, c, Rejected)
    else
      var id := pc.pass[pc.next];
      if id == n || id !in c.status || c.status[id] != Completed || !Undoable(s.registry, DefOf(s, id)) then
        Goto(s, n, c, pc.(next := pc.next + 1))
      else
        Goto(s, n, Compensated(c, id),
             pc.(next := pc.next + 1, undone := pc.undone + [id]))
  }

  /* ---------- workers ---------- */

  /** The seat in the bulkhead that a job for `n` takes. */
  function SlotOf(runId: string, g: seq<Node>, n: Id): Bulkhead.Slot {
    var id := "job-" + runId + "-" + n.text;
    if n in ById(g) then Bulkhead.Slot(id, ById(g)[n].agentId, ById(g)[n].tenantId, ById(g)[n].toolId)
    else Bulkhead.Slot(id, None, None, None)
  }

  function Seat(s: State, n: Id): Bulkhead.Slot {
    SlotOf(s.core.runId, s.core.graph, n)
  }

  /** As many workers as jobs may run at once, but at least one. */
  function WorkerCount(limits: Bulkhead.Limits): nat {
    if limits.maxJobs >= 1 then limits.maxJobs else 1
  }

  /** `executeWithRetry` called for the first time under its key, up to its first await. */
  function StartFrame(s: State, job: Job, w: nat): State
    requires Sound(s) && job.nodeId in s.core.status
  {
    var n := job.nodeId;
    var called := s.(started := s.started + [n], inFlight := s.inFlight + {Key(s, n)});
    if (s.core.status[n] == Ready || s.core.status[n] == Retrying) then
      called.(core := RunNode(s.core, n, job.attempt),
              frames := s.frames[n := Frame(Started, job.attempt, job.attempt, 1, w)])
    else
      called.(core := s.core.(attempt := s.core.attempt[n := job.attempt]),
              frames := s.frames[n := Frame(Rejected, job.attempt, job.attempt, 0, w)])
  }

  /** A worker takes the seat for its job and joins the execution of the node, starting it if nothing has. */
  function BeginJob(s: State, w: nat): State
    requires Sound(s) && w < |s.workers| && s.workers[w].Holding? && s.workers[w].job.nodeId in s.core.status
  {
    var job := s.workers[w].job;
    var waiting := s.(workers := s.workers[w := Awaiting(job.nodeId)],
                      counters := Bulkhead.Acquired(s.counters, Seat(s, job.nodeId)));
    if Key(s, job.nodeId) in s.completed || Key(s, job.nodeId) in s.inFlight then waiting
    else StartFrame(waiting, job, w)
  }

  /**
   A worker sees the outcome it waited for and gives its seat back; `None` while there is none. Where the execution let
   an exception escape, failing the node throws again and ends the worker.
   */
  function SettleJob(s: State, w: nat): Option<State>
    requires Sound(s) && w < |s.workers| && s.workers[w].Awaiting? && s.workers[w].nodeId in s.core.status
  {
    var n := s.workers[w].nodeId;
    var left := s.(counters := Bulkhead.Released(s.counters, Seat(s, n)));
    var free, dead := left.(workers := s.workers[w := Idle]), left.(workers := s.workers[w := Gone]);
    var st := s.core.status[n];
    if Key(s, n) in s.completed then
      if Terminal(st) then Some(free)
      else if (st == Running || st == Verifying)
        then Some(free.(core := CompleteNode(s.core, n, s.completed[Key(s, n)])))
      else Some(dead.(fault := true))
    else if n in s.frames && s.frames[n].pc.Rejected? then
      if Terminal(st) then Some(free) else Some(dead.(fault := true))
    else if n in s.frames && s.frames[n].pc.Escaped? then Some(dead)
    else None
  }

  /* ---------- the drive loop ---------- */

  /** The names of the ready nodes, in list order. */
  function ReadyList(g: seq<Node>, st: Statuses): seq<Id> {
    if g == [] then []
    else
      var n := g[|g| - 1].id;
      ReadyList(g[..|g| - 1], st) + (if n in st && st[n] == Ready then [n] else [])
  }

  function EnqueueAll(c: Core, ns: seq<Id>): Core
    decreases |ns|
  {
    if ns == [] then c
    else
      var n := ns[0];
      EnqueueAll(Emit(c, JobEnqueued(n, if n in c.attempt then c.attempt[n] else 1)), ns[1..])
  }

  function JobsFor(c: Core, ns: seq<Id>): multiset<Job> {
    if ns == [] then multiset{}
    else multiset{Job(ns[0], if ns[0] in c.attempt then c.attempt[ns[0]] else 1)} + JobsFor(c, ns[1..])
  }

  function Round(s: State, ready: seq<Id>): State
  {
    s.(core := EnqueueAll(s.core, ready),
       queue := s.queue + JobsFor(s.core, ready),
       issued := s.issued + map n | n in ready :: (if n in s.core.attempt then s.core.attempt[n] else 1),
       workers := seq(|s.workers|, _ => Idle),
       batches := s.batches + [ready],
       driver := Dispatching)
  }

  function StopRun(s: State): State
    requires Sound(s)
  {
    var c := if s.cancelled then CancelAll(s.core) else s.core;
    s.(core := Emit(c, RunEnded(FinalStatus(c.status))), driver := Stopped)
  }

  /* ---------- starting and restarting ---------- */

  /** The results already recorded, under their idempotency keys. */
  function Seeds(c: Core, order: seq<Id>): map<string, NodeResult> {
    if order == [] then map[]
    else
      var n, rest := order[|order| - 1], Seeds(c, order[..|order| - 1]);
      if n in c.results then rest[NodeKey(c.runId, c.graph, n) := c.results[n]] else rest
  }

  /** A process that has just rebuilt or created its data and entered the drive loop. */
  function Boot(c: Core, registry: map<string, Compensation>, limits: Bulkhead.Limits, cancelled: bool,
      firstRun: bool): State
  {
    State(c, registry,
          Seeds(c, c.completionOrder),
          {}, map[], [], multiset{}, map[], seq(WorkerCount(limits), _ => Gone), Between, [], cancelled, firstRun,
          limits, Bulkhead.NoneHeld(), false)
  }

  /** A new run: every node planned, the graph logged, and the first promotion done. */
  function NewRun(runId: string, g: seq<Node>): Core {
    Core(runId, g,
         map n | n in ById(g) :: Planned, map n | n in ById(g) :: 1, map n | n in ById(g) :: 0,
         map[], [], [], [Created(runId, g)])
  }

  ghost predicate Init(s: State) {
    && Valid(s.core.graph)
    && Listed(NewRun(s.core.runId, s.core.graph))
    && s == Boot(Promote(NewRun(s.core.runId, s.core.graph), 0), s.registry, s.limits, s.cancelled, true)
  }

  /* ---------- the step relation ---------- */

  ghost function FrameStep(s: State, step: Step): Option<State>
    requires Sound(s)
  {
    match step
    case StartFails(n, error, guard) =>
      if n in s.frames && s.frames[n].pc.Started? then Some(FailAttempt(s, n, error, guard)) else None
    case Invoke(n, needsApproval, error, guard) =>
      if n in s.frames && s.frames[n].pc.Started? then Some(InvokeNode(s, n, needsApproval, error, guard)) else None
    case Answer(n, approved) =>
      if n in s.frames && s.frames[n].pc.AwaitingApproval? then Some(AnswerApproval(s, n, approved)) else None
    case ApprovalThrows(n, error, guard) =>
      if n in s.frames && s.frames[n].pc.AwaitingApproval? then Some(FailAttempt(s, n, error, guard)) else None
    case AfterApproval(n, error, guard) =>
      if n in s.frames && (s.frames[n].pc.Approved? || s.frames[n].pc.Denied?) then
        Some(ProceedAfterApproval(s, n, error, guard)) else None
    case HandlerReturns(n, outcome, error, guard) =>
      if n in s.frames && s.frames[n].pc.Handling? then Some(HandlerOutcome(s, n, outcome, error, guard)) else None
    case VerifyResult(n) =>
      if n in s.frames && s.frames[n].pc.Returned? then
        Some(Goto(s, n, Move(s.core, n, Verifying, NodeVerified(n)), Verified(s.frames[n].pc.result))) else None
    case Resolve(n) =>
      if n in s.frames && s.frames[n].pc.Verified? then
        Some(Goto(s, n, s.core, Resolved(s.frames[n].pc.result)).(
             completed := s.completed[Key(s, n) := s.frames[n].pc.result],
             inFlight := s.inFlight - {Key(s, n)})) else None
    case Wake(n) =>
      if n in s.frames && s.frames[n].pc.Sleeping? then Some(WakeUp(s, n)) else None
    case UndoSelf(n) =>
      if n in s.frames && s.frames[n].pc.Undoing? then
        Some(Goto(s, n, Move(s.core, n, RolledBack, NodeRolledBack(n)),
                  UndoingUpstream(Reverse(s.core.completionOrder), 0, []))) else None
    case UndoNext(n) =>
      if n in s.frames && s.frames[n].pc.UndoingUpstream? then Some(UndoOne(s, n)) else None
    case _ => None
  }

  /** The node whose execution a step carries on. */
  function Subject(step: Step): Option<Id> {
    match step
    case StartFails(n, _, _) => Some(n)
    case Invoke(n, _, _, _) => Some(n)
    case Answer(n, _) => Some(n)
    case ApprovalThrows(n, _, _) => Some(n)
    case AfterApproval(n, _, _) => Some(n)
    case HandlerReturns(n, _, _, _) => Some(n)
    case VerifyResult(n) => Some(n)
    case Resolve(n) => Some(n)
    case Wake(n) => Some(n)
    case UndoSelf(n) => Some(n)
    case UndoNext(n) => Some(n)
    case _ => None
  }

  ghost function WorkerStep(s: State, step: Step): Option<State>
    requires Sound(s)
  {
    match step
    case Take(w, job) =>
      if w < |s.workers| && s.workers[w].Idle? && !s.cancelled && job in s.queue then
        Some(s.(queue := s.queue - multiset{job}, workers := s.workers[w := Holding(job)])) else None
    case Leave(w) =>
      if w < |s.workers| && s.workers[w].Idle? && (s.cancelled || s.queue == multiset{}) then
        Some(s.(workers := s.workers[w := Gone])) else None
    case Begin(w) =>
      if w < |s.workers| && s.workers[w].Holding? && s.workers[w].job.nodeId in s.core.status
         && !Bulkhead.Refuses(s.limits, s.counters, Seat(s, s.workers[w].job.nodeId)) then
        Some(BeginJob(s, w)) else None
    case Settle(w) =>
      if w < |s.workers| && s.workers[w].Awaiting? && s.workers[w].nodeId in s.core.status then
        SettleJob(s, w) else None
    case _ => None
  }

  ghost function DriverStep(s: State, step: Step): Option<State>
    requires Sound(s)
  {
    var ready := ReadyList(s.core.graph, s.core.status);
    match step
    case NextRound =>
      if s.driver.Between? && !s.cancelled && ready != [] then Some(Round(s, ready)) else None
    case EndRound =>
      if s.driver.Dispatching? && !s.fault
        && (forall w | w in s.workers :: w.Gone?) then Some(s.(driver := Between)) else None
    case Stop =>
      if s.driver.Between? && (s.cancelled || ready == []) then Some(StopRun(s)) else None
    case Cancelling => Some(s.(cancelled := true))
    case Redeliver(job) =>
      if job.nodeId in s.issued && s.issued[job.nodeId] == job.attempt then
        Some(s.(queue := s.queue + multiset{job})) else None
    case Crash(kept) =>
      if 1 <= kept <= |s.core.log| && Hydrate(s.core.log[..kept]).Some? then
        Some(Boot(Hydrate(s.core.log[..kept]).value, s.registry, s.limits, false, false)) else None
    case _ => None
  }

  ghost predicate StepTo(s: State, step: Step, t: State) {
    Sound(s) && (FrameStep(s, step) == Some(t) || WorkerStep(s, step) == Some(t) || DriverStep(s, step) == Some(t))
  }

  ghost predicate Next(s: State, t: State) {
    exists step :: StepTo(s, step, t)
  }

  /** A step other than a crash: the same process goes on. */
  ghost predicate Moves(s: State, t: State) {
    exists step: Step :: !step.Crash? && StepTo(s, step, t)
  }

  /** A run: it starts afresh, and each state follows from the one before by some step, crashes included. */
  ghost predicate IsRun(run: seq<State>) {
    && |run| >= 1 && Init(run[0])
    && forall i {:trigger run[i + 1]} | 0 <= i < |run| - 1 :: Next(run[i], run[i + 1])
  }

  /** Between positions `a` and `b` the run stays in one process. */
  ghost predicate OneProcess(run: seq<State>, a: nat, b: nat) {
    a <= b < |run| && forall i {:trigger run[i + 1]} | a <= i < b :: Moves(run[i], run[i + 1])
  }
}
