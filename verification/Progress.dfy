/**
 Left alone, that is without further redeliveries, cancellation requests or crashes, every step of the machine
 decreases a lexicographic measure. Here the measure, and the steps of executions.
 */
module Progress {
  import opened Wrappers
  import opened WorkflowTypes
  import opened NodeMachine
  import opened Graph
  import opened Layers
  import opened WorkflowLog
  import opened WorkflowCore
  import opened CoreInvariant
  import opened Conditions
  import opened Retry
  import opened Machine
  import opened MachineInvariant
  import opened MachineSteps
  import opened Safety
  import opened CompensationOrder

  /* ---------- the measure ---------- */

  /** How much of the current attempt is left, where compensation may walk up to `size` nodes. */
  function PcRank(pc: Pc, size: nat): nat {
    match pc
    case Started => size + 6
    case AwaitingApproval => size + 5
    case Approved => size + 4
    case Denied => size + 4
    case Handling => size + 3
    case Undoing => size + 2
    case UndoingUpstream(pass, next, _) => if next <= |pass| then |pass| - next + 1 else 1
    case Returned(_) => 2
    case Verified(_) => 1
    case Sleeping => 1
    case Resolved(_) => 0
    case Rejected => 0
    case Escaped => 0
  }

  function PcRanks(s: State): map<Id, nat> {
    map n | n in s.frames :: PcRank(s.frames[n].pc, |s.core.status|)
  }

  function AttemptsLeft(f: Frame, maxAttempts: int): nat {
    if f.attempt <= Max(f.start, maxAttempts) then Max(f.start, maxAttempts) - f.attempt else 0
  }

  function AttemptRanks(s: State): map<Id, nat> {
    map n | n in s.frames ::
      if n in ById(s.core.graph) then AttemptsLeft(s.frames[n], PolicyOf(DefOf(s, n)).maxAttempts) else 0
  }

  function Total(order: seq<Id>, ranks: map<Id, nat>): nat {
    if order == [] then 0
    else
      var n := order[|order| - 1];
      Total(order[..|order| - 1], ranks) + (if n in ranks then ranks[n] else 0)
  }

  function WorkerRank(w: Worker): nat {
    match w
    case Gone => 0
    case Idle => 1
    case Awaiting(_) => 2
    case Holding(_) => 3
  }

  function WorkerRanks(ws: seq<Worker>): nat {
    if ws == [] then 0 else WorkerRanks(ws[..|ws| - 1]) + WorkerRank(ws[|ws| - 1])
  }

  function DriverRank(d: Driver): nat {
    match d case Dispatching => 2 case Between => 1 case Stopped => 0
  }

  /** Rounds still possible, phase, nodes not yet executed, attempts left, work left in attempts, jobs and workers. */
  datatype Measure = Measure(rounds: int, phase: nat, unstarted: int, attempts: nat, pcs: nat, jobs: nat)

  function MeasureOf(s: State): Measure {
    Measure(|s.core.graph| - |s.batches|, DriverRank(s.driver), |s.core.status| - |s.frames|,
            Total(s.started, AttemptRanks(s)), Total(s.started, PcRanks(s)), 3 * |s.queue| + WorkerRanks(s.workers))
  }

  /** The lexicographic order. */
  predicate Below(m: Measure, k: Measure) {
    || m.rounds < k.rounds
    || (m.rounds == k.rounds && m.phase < k.phase)
    || (m.rounds == k.rounds && m.phase == k.phase && m.unstarted < k.unstarted)
    || (m.rounds == k.rounds && m.phase == k.phase && m.unstarted == k.unstarted && m.attempts < k.attempts)
    || (m.rounds == k.rounds && m.phase == k.phase && m.unstarted == k.unstarted && m.attempts == k.attempts
        && m.pcs < k.pcs)
    || (m.rounds == k.rounds && m.phase == k.phase && m.unstarted == k.unstarted && m.attempts == k.attempts
        && m.pcs == k.pcs && m.jobs < k.jobs)
  }

  /** Steps of the process itself, as opposed to its environment's. */
  predicate Working(step: Step) {
    !step.Cancelling? && !step.Redeliver? && !step.Crash?
  }

  /* ---------- sums ---------- */

  lemma {:induction false} TotalSame(order: seq<Id>, a: map<Id, nat>, b: map<Id, nat>)
    requires forall n | n in order :: (n in a <==> n in b) && (n in a ==> a[n] == b[n])
    ensures Total(order, a) == Total(order, b)
  {
    if order != [] { TotalSame(order[..|order| - 1], a, b); }
  }

  lemma {:induction false} TotalLess(order: seq<Id>, a: map<Id, nat>, b: map<Id, nat>, n: Id)
    requires forall i, j | 0 <= i < j < |order| :: order[i] != order[j]
    requires n in order && n in a && n in b && a[n] < b[n]
    requires forall m | m in order && m != n :: (m in a <==> m in b) && (m in a ==> a[m] == b[m])
    ensures Total(order, a) < Total(order, b)
  {
    var last, front := order[|order| - 1], order[..|order| - 1];
    assert order == front + [last];
    if last == n {
      assert n !in front;
      TotalSame(front, a, b);
    } else {
      TotalLess(front, a, b, n);
    }
  }

  lemma {:induction false} WorkerRanksSet(ws: seq<Worker>, i: nat, w: Worker)
    requires i < |ws|
    ensures WorkerRanks(ws[i := w]) == WorkerRanks(ws) - WorkerRank(ws[i]) + WorkerRank(w)
  {
    var last := |ws| - 1;
    if i == last {
      assert ws[i := w][..last] == ws[..last];
    } else {
      assert ws[i := w][..last] == ws[..last][i := w];
      WorkerRanksSet(ws[..last], i, w);
    }
  }

  /* ---------- steps of an execution ---------- */

  /** The frame of `n` advances within its attempt. */
  ghost predicate Advances(s: State, t: State, n: Id) {
    && n in s.frames && n in t.frames && t.frames[n] == s.frames[n].(pc := t.frames[n].pc)
    && PcRank(t.frames[n].pc, |s.core.status|) < PcRank(s.frames[n].pc, |s.core.status|)
  }

  /** The execution of `n` goes on to `pc`, or an exception escapes from it. */
  ghost predicate Goes(s: State, t: State, n: Id, c: Core, pc: Pc)
    requires n in s.frames
  {
    t == Goto(s, n, c, pc) || t == Escape(s, n, c)
  }

  lemma {:induction false} GoesFrames(s: State, t: State, n: Id, c: Core, pc: Pc) returns (next: Pc)
    requires n in s.frames && Goes(s, t, n, c, pc)
    ensures t.frames == s.frames[n := s.frames[n].(pc := next)] && (next == pc || next.Escaped?)
  {
    next := if t == Goto(s, n, c, pc) then pc else Escaped;
  }

  lemma {:induction false} FailNodeGoes(s: State, n: Id, quarantine: bool) returns (c: Core, pc: Pc)
    requires Sound(s) && n in s.frames
    ensures Goes(s, FailNode(s, n, quarantine), n, c, pc) && (pc.Rejected? || pc.Undoing?)
  {
    hide Undoable, ById, Listed, FailedFrom, Transition, Goto, Move, Escape;
    var st := FailedFrom(s.core.status[n]);
    c, pc := s.core.(status := s.core.status[n := st]), Rejected;
    if st == Waiting {
      c := s.core;
    } else if quarantine {
      if Transition(st, Quarantine).Some? { c := Move(s.core, n, Quarantined, NodeQuarantined(n)); }
    } else if Undoable(s.registry, DefOf(s, n)) {
      if Transition(st, Compensate).Some? { c, pc := Move(s.core, n, Compensating, NodeCompensating(n)), Undoing; }
    } else {
      c := Move(s.core, n, st, NodeFailed(n));
    }
  }

  lemma {:induction false} FailGoes(s: State, n: Id, error: string, guard: Guard) returns (c: Core, d: Core, pc: Pc)
    requires Sound(s) && n in s.frames
    ensures Goes(s.(core := d), FailAttempt(s, n, error, guard), n, c, pc)
    ensures pc.Rejected? || pc.Undoing? || pc.Sleeping?
  {
    hide Undoable, ById, FailNode, IsRetryable, PolicyOf, Goto, Move, Listed, Transition, Escape;
    var f, policy := s.frames[n], PolicyOf(DefOf(s, n));
    d := s.core.(failures := s.core.failures[n := s.core.failures[n] + 1]);
    assert d.failures.Keys == s.core.failures.Keys;
    CountedSound(s, d);
    c, pc := d, Rejected;
    if guard.stop || !(f.attempt < policy.maxAttempts && IsRetryable(policy, error)) {
      c, pc := FailNodeGoes(s.(core := d), n, guard.quarantine);
    } else if s.core.status[n] != Failed && Transition(s.core.status[n], Fail).Some? {
      c, pc := Move(d, n, Retrying, NodeRetrying(n, f.attempt)), Sleeping;
    }
  }

  lemma {:induction false} CountedSound(s: State, d: Core)
    requires Sound(s) && d == s.core.(failures := d.failures) && d.failures.Keys == s.core.failures.Keys
    ensures Sound(s.(core := d))
  {
    hide ById;
  }

  lemma {:induction false} FailAdvances(s: State, n: Id, error: string, guard: Guard)
    requires Sound(s) && n in s.frames
    requires var pc := s.frames[n].pc; pc.Started? || pc.AwaitingApproval? || pc.Handling? || pc.Denied? || pc.Approved?
    ensures Advances(s, FailAttempt(s, n, error, guard), n)
  {
    hide FailAttempt, Sound, Goes;
    var c, d, pc := FailGoes(s, n, error, guard);
    var next := GoesFrames(s.(core := d), FailAttempt(s, n, error, guard), n, c, pc);
  }

  lemma {:induction false} BranchAdvances(s: State, n: Id, cond: Condition, source: NodeResult, error: string,
      guard: Guard)
    requires Sound(s) && n in s.frames
    requires s.frames[n].pc.Started? || s.frames[n].pc.Handling?
    ensures Advances(s, Branch(s, n, cond, source, error, guard), n)
  {
    hide Sound, FailAttempt, SkipAll, NotChosen, BranchResult, Advances, Goto;
    SoundDef(s, n);
    SkipAllSound(s, NotChosen(cond, source));
    var a := SkipAll(s.core, NotChosen(cond, source));
    if a.threw {
      FailAdvances(s.(core := a.core), n, error, guard);
      AdvancesAnyCore(s, a.core, FailAttempt(s.(core := a.core), n, error, guard), n);
    } else {
      GotoAdvances(s, n, a.core, Returned(BranchResult(n, cond, source)));
    }
  }

  lemma {:induction false} AdvancesAnyCore(s: State, d: Core, t: State, n: Id)
    requires Advances(s.(core := d), t, n) && d.status.Keys == s.core.status.Keys
    ensures Advances(s, t, n)
  {
    assert |d.status| == |d.status.Keys| && |s.core.status| == |s.core.status.Keys|;
  }

  lemma {:induction false} CallAdvances(s: State, n: Id, error: string, guard: Guard)
    requires Sound(s) && n in s.frames
    requires s.frames[n].pc.Started? || s.frames[n].pc.Approved?
    ensures Advances(s, CallHandler(s, n, error, guard), n)
  {
    hide Sound, FailAttempt, InputResolves;
    SoundDef(s, n);
    if !InputResolves(s.core.results, DefOf(s, n)) { FailAdvances(s, n, error, guard); }
  }

  lemma {:induction false} SoundDef(s: State, n: Id)
    requires Sound(s) && n in s.frames
    ensures n in ById(s.core.graph) && Listed(s.core) && n in s.core.status
  {
    hide ById;
  }

  lemma {:induction false} InvokeAdvances(s: State, n: Id, needsApproval: bool, error: string, guard: Guard)
    requires Sound(s) && n in s.frames && s.frames[n].pc.Started?
    ensures Advances(s, InvokeNode(s, n, needsApproval, error, guard), n)
  {
    hide Sound, FailAttempt, CallHandler, Branch, Truthy, Advances;
    SoundDef(s, n);
    var def := DefOf(s, n);
    var t := InvokeNode(s, n, needsApproval, error, guard);
    if t == FailAttempt(s, n, error, guard) {
      FailAdvances(s, n, error, guard);
    } else if t == CallHandler(s, n, error, guard) {
      CallAdvances(s, n, error, guard);
    } else if def.kind.Conditional? {
      var cond := def.condition.value;
      BranchAdvances(s, n, cond, s.core.results[cond.when.nodeId], error, guard);
    } else {
      WaitIsAdvance(s, n);
    }
  }

  lemma {:induction false} WaitIsAdvance(s: State, n: Id)
    requires n in s.frames && s.frames[n].pc.Started?
    ensures Advances(s, Goto(s, n, Move(s.core, n, Waiting, ApprovalRequired(n)), AwaitingApproval), n)
  {}

  lemma {:induction false} ProceedAdvances(s: State, n: Id, error: string, guard: Guard)
    requires Sound(s) && n in s.frames
    requires s.frames[n].pc.Approved? || s.frames[n].pc.Denied?
    ensures Advances(s, ProceedAfterApproval(s, n, error, guard), n)
  {
    hide Sound, FailAttempt, CallHandler;
    SoundDef(s, n);
    if s.frames[n].pc.Denied? {
      FailAdvances(s, n, error, guard);
    } else if !DefOf(s, n).kind.Approval? {
      CallAdvances(s, n, error, guard);
    }
  }

  lemma {:induction false} HandlerAdvances(s: State, n: Id, outcome: Option<NodeResult>, error: string, guard: Guard)
    requires Sound(s) && n in s.frames && s.frames[n].pc.Handling?
    ensures Advances(s, HandlerOutcome(s, n, outcome, error, guard), n)
  {
    hide Sound, FailAttempt, Branch, Advances;
    SoundDef(s, n);
    var t := HandlerOutcome(s, n, outcome, error, guard);
    if t == FailAttempt(s, n, error, guard) {
      FailAdvances(s, n, error, guard);
    } else if DefOf(s, n).kind.Conditional? {
      BranchAdvances(s, n, DefOf(s, n).condition.value, outcome.value, error, guard);
    } else {
      ReturnIsAdvance(s, n, outcome.value);
    }
  }

  lemma {:induction false} ReturnIsAdvance(s: State, n: Id, result: NodeResult)
    requires n in s.frames && s.frames[n].pc.Handling?
    ensures Advances(s, Goto(s, n, s.core, Returned(result)), n)
  {}

  lemma {:induction false} UndoAdvances(s: State, n: Id)
    requires Sound(s) && n in s.frames && s.frames[n].pc.UndoingUpstream?
             && s.frames[n].pc.next <= |s.frames[n].pc.pass|
    ensures Advances(s, UndoOne(s, n), n)
  {
    hide UndoOne, Sound;
    var c, next := UndoOneGoes(s, n);
  }

  lemma {:induction false} CompletedFit(s: State)
    requires Good(s)
    ensures |Reverse(s.core.completionOrder)| <= |s.core.status|
  {
    hide Good, Inv, OrderOk, DepSafe, AboveDone, SkipClosed, KnownDeps, Acyclic, Deps, Reverse;
    GoodGives(s);
    InvDeps(s.core);
    var c := s.core;
    OrderPositions(Deps(c.graph), CompletedSet(c.status), c.completionOrder);
    ReverseLength(c.completionOrder);
    DistinctFits(c.completionOrder, c.status.Keys);
  }

  lemma {:induction false} PassBounds(s: State, n: Id)
    requires Good(s) && n in s.frames && s.frames[n].pc.UndoingUpstream?
    ensures s.frames[n].pc.next <= |s.frames[n].pc.pass|
  {
    hide Inv, AttemptsOk, NodesOk, OwnersOk, WorkersOk, QueueOk, BatchOk, LayersOk, Lists, Promoted, UndoPlan, FaultOk,
      SeatsOk, FramesDone;
    assert PassOk(s, n, s.frames[n].pc);
  }

  /** Every step of an execution but waking up advances it within its attempt. */
  lemma {:induction false} FrameAdvances(s: State, step: Step, t: State, n: Id)
    requires Good(s) && Sound(s) && FrameStep(s, step) == Some(t) && Subject(step) == Some(n) && !step.Wake?
    ensures Advances(s, t, n)
  {
    hide Good, Sound, FailAttempt, InvokeNode, AnswerApproval, ProceedAfterApproval, HandlerOutcome, UndoOne, Move,
      Reverse, Advances, Goto, Key;
    match step {
      case StartFails(_, error, guard) => FailAdvances(s, n, error, guard);
      case Invoke(_, needsApproval, error, guard) => InvokeAdvances(s, n, needsApproval, error, guard);
      case Answer(_, approved) => AnswerAdvances(s, n, approved);
      case ApprovalThrows(_, error, guard) => FailAdvances(s, n, error, guard);
      case AfterApproval(_, error, guard) => ProceedAdvances(s, n, error, guard);
      case HandlerReturns(_, outcome, error, guard) => HandlerAdvances(s, n, outcome, error, guard);
      case _ => QuietAdvances(s, step, t, n);
    }
  }

  /** The steps that cannot fail. */
  lemma {:induction false} QuietAdvances(s: State, step: Step, t: State, n: Id)
    requires Good(s) && Sound(s) && FrameStep(s, step) == Some(t) && Subject(step) == Some(n)
    requires step.VerifyResult? || step.Resolve? || step.UndoSelf? || step.UndoNext?
    ensures Advances(s, t, n)
  {
    hide Good, Sound, UndoOne, Move, Reverse, Advances, Goto, Key;
    match step {
      case VerifyResult(_) =>
        GotoAdvances(s, n, Move(s.core, n, Verifying, NodeVerified(n)), Verified(s.frames[n].pc.result));
      case Resolve(_) =>
        GotoAdvances(s, n, s.core, Resolved(s.frames[n].pc.result));
        ResolveAdvances(s, t, n);
      case UndoSelf(_) =>
        CompletedFit(s);
        GotoAdvances(s, n, Move(s.core, n, RolledBack, NodeRolledBack(n)),
                     UndoingUpstream(Reverse(s.core.completionOrder), 0, []));
      case UndoNext(_) => PassBounds(s, n); UndoAdvances(s, n);
      case _ =>
    }
  }

  lemma {:induction false} GotoAdvances(s: State, n: Id, c: Core, pc: Pc)
    requires n in s.frames && PcRank(pc, |s.core.status|) < PcRank(s.frames[n].pc, |s.core.status|)
    ensures Advances(s, Goto(s, n, c, pc), n)
  {}

  lemma {:induction false} ResolveAdvances(s: State, t: State, n: Id)
    requires n in s.frames && s.frames[n].pc.Verified?
    requires t == Goto(s, n, s.core, Resolved(s.frames[n].pc.result)).(completed := t.completed, inFlight := t.inFlight)
    ensures Advances(s, t, n)
  {}

  lemma {:induction false} AnswerAdvances(s: State, n: Id, approved: bool)
    requires Sound(s) && n in s.frames && s.frames[n].pc.AwaitingApproval?
    ensures Advances(s, AnswerApproval(s, n, approved), n)
  {
    hide Sound;
  }
}
