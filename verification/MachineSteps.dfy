/** Every step of the machine keeps `MachineInvariant.Good`: executions, workers, the drive loop, and crashes. */
module MachineSteps {
  import opened Wrappers
  import opened WorkflowTypes
  import opened NodeMachine
  import opened Layers
  import opened WorkflowLog
  import opened WorkflowCore
  import opened Machine
  import opened MachineInvariant

  /* ---------- steps of an execution ---------- */

  /** An effect on `n`, whose execution is live. */
  ghost predicate Acts(s: State, t: State, n: Id) {
    n in s.frames && n in s.core.status && NodeEffect(s, t, n) && Live(s.frames[n].pc, s.core.status[n])
  }

  lemma {:induction false} FrameStatus(s: State, n: Id)
    requires Stepping(s, n)
    ensures PcOk(s.frames[n].pc, s.core.status[n], SnapOf(Snaps(s.core.log), n).status)
  {}

  lemma {:induction false} StartFailsActs(s: State, n: Id, error: string, guard: Guard)
    requires Good(s) && n in s.frames && s.frames[n].pc.Started?
    ensures Acts(s, FailAttempt(s, n, error, guard), n)
  {
    hide Good, Stepping, NodeEffect, FailAttempt, Live;
    GoodGives(s);
    GoodStepping(s, n);
    FrameStatus(s, n);
    FailEffect(s, n, error, guard);
  }

  lemma {:induction false} InvokeActs(s: State, n: Id, needsApproval: bool, error: string, guard: Guard)
    requires Good(s) && n in s.frames && s.frames[n].pc.Started?
    ensures Acts(s, InvokeNode(s, n, needsApproval, error, guard), n)
  {
    hide Good, Stepping, NodeEffect, InvokeNode, Live;
    GoodGives(s);
    GoodStepping(s, n);
    FrameStatus(s, n);
    InvokeEffect(s, n, needsApproval, error, guard);
  }

  lemma {:induction false} AnswerActs(s: State, n: Id, approved: bool)
    requires Good(s) && n in s.frames && s.frames[n].pc.AwaitingApproval?
    ensures Acts(s, AnswerApproval(s, n, approved), n)
  {
    hide Good, Stepping, NodeEffect, AnswerApproval, Live;
    GoodGives(s);
    GoodStepping(s, n);
    FrameStatus(s, n);
    AnswerEffect(s, n, approved);
  }

  lemma {:induction false} EscapeActs(s: State, n: Id, error: string, guard: Guard)
    requires Good(s) && n in s.frames && s.frames[n].pc.AwaitingApproval?
    ensures Acts(s, FailAttempt(s, n, error, guard), n) && FailAttempt(s, n, error, guard).fault
  {
    hide Good, Stepping, NodeEffect, FailAttempt, Live;
    GoodGives(s);
    GoodStepping(s, n);
    FrameStatus(s, n);
    EscapeEffect(s, n, error, guard);
  }

  lemma {:induction false} ProceedActs(s: State, n: Id, error: string, guard: Guard)
    requires Good(s) && n in s.frames && (s.frames[n].pc.Approved? || s.frames[n].pc.Denied?)
    ensures Acts(s, ProceedAfterApproval(s, n, error, guard), n)
  {
    hide Good, Stepping, NodeEffect, ProceedAfterApproval, Live;
    GoodGives(s);
    GoodStepping(s, n);
    FrameStatus(s, n);
    ProceedEffect(s, n, error, guard);
  }

  lemma {:induction false} HandlerActs(s: State, n: Id, outcome: Option<NodeResult>, error: string, guard: Guard)
    requires Good(s) && n in s.frames && s.frames[n].pc.Handling?
    ensures Acts(s, HandlerOutcome(s, n, outcome, error, guard), n)
  {
    hide Good, Stepping, NodeEffect, HandlerOutcome, Live;
    GoodGives(s);
    GoodStepping(s, n);
    FrameStatus(s, n);
    HandlerEffect(s, n, outcome, error, guard);
  }

  lemma {:induction false} VerifyActs(s: State, n: Id, t: State)
    requires Good(s) && n in s.frames && s.frames[n].pc.Returned?
    requires t == Goto(s, n, Move(s.core, n, Verifying, NodeVerified(n)), Verified(s.frames[n].pc.result))
    ensures Acts(s, t, n)
  {
    hide Good, Stepping, NodeEffect, Goto, Move, Live;
    GoodGives(s);
    GoodStepping(s, n);
    FrameStatus(s, n);
    VerifyEffect(s, n);
  }

  lemma {:induction false} ResolveActs(s: State, n: Id, t: State)
    requires Good(s) && n in s.frames && s.frames[n].pc.Verified?
    requires t == Goto(s, n, s.core, Resolved(s.frames[n].pc.result)).(
                    completed := s.completed[Key(s, n) := s.frames[n].pc.result],
                    inFlight := s.inFlight - {Key(s, n)})
    ensures Acts(s, t, n)
  {
    hide Good, Stepping, NodeEffect, Goto, Key, Live;
    GoodGives(s);
    GoodStepping(s, n);
    FrameStatus(s, n);
    ResolveEffect(s, n);
  }

  lemma {:induction false} WakeActs(s: State, n: Id)
    requires Good(s) && n in s.frames && s.frames[n].pc.Sleeping? && Sound(s)
    ensures Acts(s, WakeUp(s, n), n)
  {
    hide Good, Stepping, NodeEffect, WakeUp, Live;
    GoodStepping(s, n);
    WakeEffect(s, n);
  }

  lemma {:induction false} UndoSelfActs(s: State, n: Id, t: State)
    requires Good(s) && n in s.frames && s.frames[n].pc.Undoing?
    requires t == Goto(s, n, Move(s.core, n, RolledBack, NodeRolledBack(n)),
                       UndoingUpstream(Reverse(s.core.completionOrder), 0, []))
    ensures Acts(s, t, n)
  {
    hide Good, Stepping, NodeEffect, Goto, Move, Live, Reverse;
    GoodGives(s);
    GoodStepping(s, n);
    FrameStatus(s, n);
    UndoSelfEffect(s, n);
  }

  lemma {:induction false} GoodGives(s: State)
    requires Good(s)
    ensures Sound(s) && Inv(s.core) && Promoted(Deps(s.core.graph), s.core.status)
    ensures Listed(s.core) && s.frames.Keys <= s.core.status.Keys
  {}

  /** A step of any execution is an effect on one node whose execution is live. */
  lemma {:induction false} FrameActs(s: State, step: Step, t: State) returns (n: Id)
    requires Good(s) && Sound(s) && FrameStep(s, step) == Some(t)
    ensures Subject(step) == Some(n) && Acts(s, t, n)
  {
    hide Good, FailAttempt, InvokeNode, AnswerApproval, ProceedAfterApproval, HandlerOutcome, Goto, Move, WakeUp,
      Reverse, UndoOne, NodeEffect, Sound, Key, Live;
    match step {
      case StartFails(m, error, guard) => n := m; StartFailsActs(s, m, error, guard);
      case Invoke(m, needsApproval, error, guard) => n := m; InvokeActs(s, m, needsApproval, error, guard);
      case Answer(m, approved) => n := m; AnswerActs(s, m, approved);
      case ApprovalThrows(m, error, guard) => n := m; EscapeActs(s, m, error, guard);
      case AfterApproval(m, error, guard) => n := m; ProceedActs(s, m, error, guard);
      case HandlerReturns(m, outcome, error, guard) => n := m; HandlerActs(s, m, outcome, error, guard);
      case VerifyResult(m) => n := m; VerifyActs(s, m, t);
      case Resolve(m) => n := m; ResolveActs(s, m, t);
      case Wake(m) => n := m; WakeActs(s, m);
      case UndoSelf(m) => n := m; UndoSelfActs(s, m, t);
      case UndoNext(m) => n := m; GoodGives(s); UndoNextEffect(s, m);
      case _ =>
    }
  }

  lemma {:induction false} FrameKeeps(s: State, step: Step, t: State)
    requires Good(s) && Sound(s) && FrameStep(s, step) == Some(t)
    ensures Good(t)
  {
    hide Good, FrameStep, NodeEffect, Sound, Live;
    var n := FrameActs(s, step, t);
    EffectKeeps(s, t, n);
  }

  /* ---------- what breaks a process ---------- */

  lemma {:induction false} WaitingPc(v: View)
    requires ViewOk(v) && v.frame.Some? && v.st == Waiting
    ensures v.frame.value.pc.AwaitingApproval? || v.frame.value.pc.Escaped?
  {}

  lemma {:induction false} WaitingAwaits(s: State, n: Id)
    requires Good(s) && n in s.frames && n in s.core.status && s.core.status[n] == Waiting
    requires Live(s.frames[n].pc, s.core.status[n])
    ensures s.frames[n].pc.AwaitingApproval?
  {
    hide Inv, OwnersOk, WorkersOk, QueueOk, BatchOk, LayersOk, AttemptsOk, PassesOk, SeatsOk, Promoted, Sound, ViewOk;
    assert ViewOk(ViewOf(s, n));
    WaitingPc(ViewOf(s, n));
  }

  /** The steps an execution that awaits its approval can take. */
  lemma {:induction false} AwaitingSteps(s: State, step: Step, t: State, n: Id)
    requires Sound(s) && FrameStep(s, step) == Some(t) && Subject(step) == Some(n) && n in s.frames
    requires s.frames[n].pc.AwaitingApproval? && !step.ApprovalThrows?
    ensures t.fault == s.fault
  {
    hide Sound, FailAttempt, InvokeNode, ProceedAfterApproval, HandlerOutcome, WakeUp, UndoOne, Move, Reverse, Key;
  }

  /** Of all steps of executions, those and only those break the process in which an approval callback throws. */
  lemma {:induction false} FrameFaults(s: State, step: Step, t: State)
    requires Good(s) && Sound(s) && FrameStep(s, step) == Some(t)
    ensures t.fault <==> s.fault || step.ApprovalThrows?
  {
    hide Good, FrameStep, Sound, Live, Touches, FailAttempt;
    var n := FrameActs(s, step, t);
    if step.ApprovalThrows? {
      ThrowIs(s, step, t, n);
      EscapeActs(s, n, step.error, step.guard);
    } else if t.fault && !s.fault {
      WaitingAwaits(s, n);
      AwaitingSteps(s, step, t, n);
    }
  }

  lemma {:induction false} ThrowIs(s: State, step: Step, t: State, n: Id)
    requires Sound(s) && FrameStep(s, step) == Some(t) && Subject(step) == Some(n) && step.ApprovalThrows?
    ensures n in s.frames && s.frames[n].pc.AwaitingApproval? && t == FailAttempt(s, n, step.error, step.guard)
  {
    hide Sound, FailAttempt;
  }
}
