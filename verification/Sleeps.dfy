/** How long an execution of the machine sleeps between its attempts. */
module Sleeps {
  import opened Wrappers
  import opened WorkflowTypes
  import opened Layers
  import opened WorkflowCore
  import opened Retry
  import opened RetryDelay
  import opened Powers
  import opened Machine
  import opened MachineInvariant
  import opened MachineSteps
  import opened Restart
  import opened Safety
  import opened Progress
  import opened Termination

  /** How often an execution has gone to sleep. */
  function SleepsOf(f: Frame): int {
    f.runs - 1 + (if f.pc.Sleeping? then 1 else 0)
  }

  lemma {:induction false} SleepingWakes(s: State, step: Step, t: State, n: Id)
    requires Sound(s) && FrameStep(s, step) == Some(t) && Subject(step) == Some(n) && n in s.frames
             && s.frames[n].pc.Sleeping?
    ensures step.Wake?
  {
    hide Sound, FailAttempt, InvokeNode, ProceedAfterApproval, HandlerOutcome, AnswerApproval, WakeUp, UndoOne, Move,
      Reverse, Key;
  }

  /** It is counted up exactly when a step puts the execution to sleep. */
  lemma {:induction false} SleepsCount(s: State, step: Step, t: State, n: Id)
    requires Good(s) && Sound(s) && FrameStep(s, step) == Some(t) && Subject(step) == Some(n)
    ensures n in s.frames && n in t.frames
    ensures SleepsOf(t.frames[n]) == SleepsOf(s.frames[n]) + (if t.frames[n].pc.Sleeping? then 1 else 0)
  {
    hide Good, Sound, FrameStep, Acts, WakeUp;
    var m := FrameActs(s, step, t);
    FrameShape(s, t, n);
    if step.Wake? {
      WakeIs(s, step, t, n);
      WakeFrame(s, n);
    } else {
      if s.frames[n].pc.Sleeping? { SleepingWakes(s, step, t, n); }
      FrameAdvances(s, step, t, n);
    }
  }

  /**
   With exponential backoff, the delays of an execution that began at attempt `start`, one per sleep, add up to at most
   the geometric sum over the attempts its policy allows.
   */
  lemma {:induction false} WaitsAtMost(run: seq<State>, i: nat, n: Id, draws: seq<real>)
    requires IsRun(run) && i < |run| && n in run[i].frames && n in ById(run[i].core.graph)
    requires PolicyOf(DefOf(run[i], n)).backoff.Exponential?
    requires |draws| == SleepsOf(run[i].frames[n]) && forall k | 0 <= k < |draws| :: 0.0 <= draws[k] < 1.0
    ensures run[i].frames[n].start >= 1
    ensures var policy, start := PolicyOf(DefOf(run[i], n)), run[i].frames[n].start;
            && |draws| <= Max(start, policy.maxAttempts) - start
            && TotalBackoff(policy, start, draws) <= 1000 * (Pow2(Max(start, policy.maxAttempts) - 1) - Pow2(start - 1))
  {
    hide Good, IsRun, PolicyOf, PassesOk, LayersOk, BatchOk, NodesOk, Lists, TotalBackoff, Pow2, ById;
    var s := run[i];
    RunsAreGood(run, i);
    GoodLists(s);
    var policy, f := PolicyOf(DefOf(s, n)), s.frames[n];
    assert AttemptOk(f, policy.maxAttempts);
    TotalBackoffBounds(policy, f.start, draws);
    Pow2Monotone(f.start - 1 + |draws|, Max(f.start, policy.maxAttempts) - 1);
  }
}
