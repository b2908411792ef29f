/**
 The local runner: every step of a plan passes the name guard, the policy, an approval if required, the quota and the
 immune gate before it is executed, and a task is completed only on verified success.
 */
module LocalRunner {
  import opened Wrappers
  import opened Policy
  import opened Verification

  /** What becomes of a request for approval; the callback may throw. */
  datatype Approval = Approves | Refuses | Raises

  /** What the executor registered for an action does. */
  datatype Execution = Unregistered | CannotExecute | Throws | Executed(success: bool, evidence: seq<string>)

  /**
   A planned step with all that its environment answers. The grants may change while an approval is awaited, so the
   check made by `execute` may see others than the runner's own.
   */
  datatype Step = Step(
    principal: string,
    action: string,
    guardRejects: bool,
    grants: seq<Grant>,
    approval: Approval,
    grantsAfterApproval: seq<Grant>,
    immuneAllows: bool,
    inputThrows: bool,
    execution: Execution)

  datatype Config = Config(approvals: map<string, Requirement>, maxToolCalls: int)

  datatype Resource = Runs | ModelCalls | ToolCalls

  /** Ledger entries; those of a step carry the number of the run and the position of the step. */
  datatype Entry =
    | RunCreated(run: nat)
    | TaskCreated(run: nat)
    | PlanGenerated(run: nat)
    | UsageRecorded(run: nat, resource: Resource)
    | CapabilityRejected(run: nat, at: nat)
    | ApprovalRequired(run: nat, at: nat)
    | ApprovalGranted(run: nat, at: nat)
    | ApprovalDenied(run: nat, at: nat)
    | QuotaExceeded(run: nat, at: nat)
    | ImmuneBlocked(run: nat, at: nat)
    | ExecutionDenied(run: nat, at: nat)
    | ExecutionRequested(run: nat, at: nat, step: Step)
    | ExecutionRejected(run: nat, at: nat)
    | ExecutionCompleted(run: nat, at: nat)
    | VerificationCompleted(run: nat, verdict: Verdict)
    | TaskCompleted(run: nat)
    | TaskFailed(run: nat)

  datatype StepResult = StepResult(success: bool, evidence: seq<string>)

  /** Whether the loop over the steps goes on, was left, or was cut short by an exception. */
  datatype Flow = Going | Left | Aborted

  datatype Progress = Progress(ledger: seq<Entry>, calls: nat, results: seq<StepResult>, flow: Flow)

  const FAILURE := StepResult(false, [])

  /* ---------- the specification ---------- */

  function FirstCheck(cfg: Config, step: Step): Decision {
    Evaluate(step.grants, cfg.approvals, step.principal, step.action, "*")
  }

  function SecondCheck(cfg: Config, step: Step): Decision {
    if FirstCheck(cfg, step).approvalRequired
    then Evaluate(step.grantsAfterApproval, cfg.approvals, step.principal, step.action, "*")
    else FirstCheck(cfg, step)
  }

  function Note(p: Progress, entries: seq<Entry>): Progress {
    p.(ledger := p.ledger + entries)
  }

  function Fail(p: Progress, entries: seq<Entry>): Progress {
    Progress(p.ledger + entries, p.calls, p.results + [FAILURE], p.flow)
  }

  function Metered(p: Progress, run: nat, entries: seq<Entry>, result: StepResult): Progress {
    Progress(p.ledger + entries + [UsageRecorded(run, ToolCalls)], p.calls + 1, p.results + [result], p.flow)
  }

  /** `execute`, with the metering that follows it. */
  function ExecuteStep(cfg: Config, p: Progress, run: nat, i: nat, step: Step): Progress {
    if !SecondCheck(cfg, step).allowed then Metered(p, run, [ExecutionDenied(run, i)], FAILURE)
    else
      match step.execution
      case Unregistered => Note(p, [ExecutionRequested(run, i, step)]).(flow := Aborted)
      case Throws => Note(p, [ExecutionRequested(run, i, step)]).(flow := Aborted)
      case CannotExecute => Metered(p, run, [ExecutionRequested(run, i, step), ExecutionRejected(run, i)], FAILURE)
      case Executed(success, evidence) =>
        Metered(p, run, [ExecutionRequested(run, i, step), ExecutionCompleted(run, i)], StepResult(success, evidence))
  }

  function PastApproval(cfg: Config, p: Progress, run: nat, i: nat, step: Step): Progress {
    if p.calls + 1 > cfg.maxToolCalls then Fail(p, [QuotaExceeded(run, i)]).(flow := Left)
    else if !step.immuneAllows then Fail(p, [ImmuneBlocked(run, i)])
    else if step.inputThrows then p.(flow := Aborted)
    else ExecuteStep(cfg, p, run, i, step)
  }

  function TakeStep(cfg: Config, p: Progress, run: nat, i: nat, step: Step): Progress {
    var decision := FirstCheck(cfg, step);
    if step.guardRejects then Fail(p, [CapabilityRejected(run, i)])
    else if !decision.allowed then Fail(p, [ApprovalDenied(run, i)])
    else if !decision.approvalRequired then PastApproval(cfg, p, run, i, step)
    else
      match step.approval
      case Raises => Note(p, [ApprovalRequired(run, i)]).(flow := Aborted)
      case Refuses => Fail(p, [ApprovalRequired(run, i), ApprovalDenied(run, i)])
      case Approves => PastApproval(cfg, Note(p, [ApprovalRequired(run, i), ApprovalGranted(run, i)]), run, i, step)
  }

  function TakeSteps(cfg: Config, p: Progress, run: nat, steps: seq<Step>): Progress {
    if steps == [] then p
    else
      var before := TakeSteps(cfg, p, run, steps[..|steps| - 1]);
      if before.flow.Going? then TakeStep(cfg, before, run, |steps| - 1, steps[|steps| - 1]) else before
  }

  function DefaultChecks(results: seq<StepResult>): seq<Check> {
    seq(|results|, i requires 0 <= i < |results| =>
      Check(if results[i].success then Passed else Verdict.Failed, results[i].evidence))
  }

  function Opening(run: nat): seq<Entry> {
    [RunCreated(run), TaskCreated(run), UsageRecorded(run, Runs), UsageRecorded(run, ModelCalls), PlanGenerated(run)]
  }

  function Closing(run: nat, verdict: Verdict): seq<Entry> {
    [VerificationCompleted(run, verdict), if verdict == Passed then TaskCompleted(run) else TaskFailed(run)]
  }

  /** Who verifies a run: the runner itself, or a custom verification, which returns its checks or throws. */
  datatype Verifier = Default | Custom(checks: seq<Check>) | CustomThrows

  datatype Request = Request(steps: seq<Step>, verifier: Verifier)

  /** The ledger and the metered tool calls, and how many runs there were. */
  datatype World = World(ledger: seq<Entry>, calls: nat, runs: nat)

  function Stepped(cfg: Config, w: World, request: Request): Progress {
    TakeSteps(cfg, Progress(w.ledger + Opening(w.runs), w.calls, [], Going), w.runs, request.steps)
  }

  /** The verdict of a run, or `None` when an exception ended it. */
  function VerdictOf(cfg: Config, w: World, request: Request): Option<Verdict> {
    var p := Stepped(cfg, w, request);
    if p.flow.Aborted? || request.verifier.CustomThrows? then None
    else Some(Verify(if request.verifier.Custom? then request.verifier.checks else DefaultChecks(p.results)))
  }

  function RunOnce(cfg: Config, w: World, request: Request): World {
    var p, verdict := Stepped(cfg, w, request), VerdictOf(cfg, w, request);
    World(p.ledger + (if verdict.Some? then Closing(w.runs, verdict.value) else []), p.calls, w.runs + 1)
  }

  function RunMany(cfg: Config, requests: seq<Request>): World {
    if requests == [] then World([], 0, 0)
    else RunOnce(cfg, RunMany(cfg, requests[..|requests| - 1]), requests[|requests| - 1])
  }

  /* ---------- the program ---------- */

  class LocalRunner {
    const cfg: Config
    var ledger: seq<Entry>
    var calls: nat
    var runs: nat
    /** The results of the run under way. */
    var results: seq<StepResult>

    function State(): World
      reads this
    {
      World(ledger, calls, runs)
    }

    constructor (cfg: Config)
      ensures this.cfg == cfg && State() == World([], 0, 0)
    {
      this.cfg := cfg;
      ledger, calls, runs, results := [], 0, 0, [];
    }

    method Append(e: Entry)
      modifies this`ledger
      ensures ledger == old(ledger) + [e]
    {
      ledger := ledger + [e];
    }

    /** Records one tool call, which the meter reports to the ledger. */
    method RecordCall()
      modifies this`ledger, this`calls
      ensures calls == old(calls) + 1 && ledger == old(ledger) + [UsageRecorded(runs, ToolCalls)]
    {
      calls := calls + 1;
      Append(UsageRecorded(runs, ToolCalls));
    }

    /** The atomic act: policy again, request, executor, completion. `None` when an exception escapes. */
    method Execute(i: nat, step: Step) returns (result: Option<StepResult>)
      modifies this`ledger
      ensures var p := ExecuteStep(cfg, Progress(old(ledger), calls, results, Going), runs, i, step);
              if result.None? then p == Progress(ledger, calls, results, Aborted)
              else p == Progress(ledger + [UsageRecorded(runs, ToolCalls)], calls + 1, results + [result.value], Going)
    {
      if !SecondCheck(cfg, step).allowed {
        Append(ExecutionDenied(runs, i));
        return Some(FAILURE);
      }
      Append(ExecutionRequested(runs, i, step));
      match step.execution {
        case Unregistered => return None;
        case Throws => return None;
        case CannotExecute =>
          Append(ExecutionRejected(runs, i));
          assert ledger == old(ledger) + [ExecutionRequested(runs, i, step), ExecutionRejected(runs, i)];
          return Some(FAILURE);
        case Executed(success, evidence) =>
          Append(ExecutionCompleted(runs, i));
          assert ledger == old(ledger) + [ExecutionRequested(runs, i, step), ExecutionCompleted(runs, i)];
          return Some(StepResult(success, evidence));
      }
    }

    /** One turn of the loop over the steps. */
    method DoStep(i: nat, step: Step) returns (flow: Flow)
      modifies this`ledger, this`calls, this`results
      ensures Progress(ledger, calls, results, flow) ==
              TakeStep(cfg, Progress(old(ledger), old(calls), old(results), Going), runs, i, step)
    {
      hide ExecuteStep, Evaluate;
      if step.guardRejects {
        Append(CapabilityRejected(runs, i));
        results := results + [FAILURE];
        return Going;
      }
      var decision := FirstCheck(cfg, step);
      if !decision.allowed {
        Append(ApprovalDenied(runs, i));
        results := results + [FAILURE];
        return Going;
      }
      if decision.approvalRequired {
        Append(ApprovalRequired(runs, i));
        if step.approval.Raises? { return Aborted; }
        if step.approval.Refuses? {
          Append(ApprovalDenied(runs, i));
          results := results + [FAILURE];
          assert ledger == old(ledger) + [ApprovalRequired(runs, i), ApprovalDenied(runs, i)];
          return Going;
        }
        Append(ApprovalGranted(runs, i));
        assert ledger == old(ledger) + [ApprovalRequired(runs, i), ApprovalGranted(runs, i)];
      }
      if calls + 1 > cfg.maxToolCalls {
        Append(QuotaExceeded(runs, i));
        results := results + [FAILURE];
        return Left;
      }
      if !step.immuneAllows {
        Append(ImmuneBlocked(runs, i));
        results := results + [FAILURE];
        return Going;
      }
      if step.inputThrows { return Aborted; }
      var result := Execute(i, step);
      if result.None? { return Aborted; }
      RecordCall();
      results := results + [result.value];
      return Going;
    }

    /** A whole run; the verdict is `None` when an exception ended it. */
    method Run(request: Request) returns (verdict: Option<Verdict>)
      modifies this
      ensures verdict == VerdictOf(cfg, old(State()), request)
      ensures State() == RunOnce(cfg, old(State()), request)
    {
      hide TakeStep, Verify;
      Append(RunCreated(runs));
      Append(TaskCreated(runs));
      Append(UsageRecorded(runs, Runs));
      Append(UsageRecorded(runs, ModelCalls));
      Append(PlanGenerated(runs));
      assert ledger == old(ledger) + Opening(runs);
      results := [];
      ghost var start := Progress(ledger, calls, [], Going);
      var flow, i := Going, 0;
      while i < |request.steps| && flow.Going?
        invariant 0 <= i <= |request.steps| && runs == old(runs)
        invariant Progress(ledger, calls, results, flow) == TakeSteps(cfg, start, runs, request.steps[..i])
      {
        assert request.steps[..i + 1][..i] == request.steps[..i];
        flow := DoStep(i, request.steps[i]);
        i := i + 1;
      }
      StoppedStays(cfg, start, runs, request.steps, i);
      runs := runs + 1;
      if flow.Aborted? || request.verifier.CustomThrows? { return None; }
      var checks := if request.verifier.Custom? then request.verifier.checks else DefaultChecks(results);
      verdict := Some(Verify(checks));
      Append(VerificationCompleted(runs - 1, verdict.value));
      if verdict.value == Passed { Append(TaskCompleted(runs - 1)); } else { Append(TaskFailed(runs - 1)); }
    }
  }

  /** Once the loop has been left, the remaining steps change nothing. */
  lemma {:induction false} StoppedStays(cfg: Config, p: Progress, run: nat, steps: seq<Step>, i: nat)
    requires i <= |steps| && (i == |steps| || !TakeSteps(cfg, p, run, steps[..i]).flow.Going?)
    ensures TakeSteps(cfg, p, run, steps) == TakeSteps(cfg, p, run, steps[..i])
  {
    hide TakeStep;
    if i == |steps| {
      assert steps[..i] == steps;
    } else {
      var front := steps[..|steps| - 1];
      assert front[..i] == steps[..i];
      StoppedStays(cfg, p, run, front, i);
    }
  }

  /* ---------- gates and quota ---------- */

  function CountCalls(ledger: seq<Entry>): nat {
    if ledger == [] then 0
    else
      var last := ledger[|ledger| - 1];
      CountCalls(ledger[..|ledger| - 1]) + (if last.UsageRecorded? && last.resource.ToolCalls? then 1 else 0)
  }

  /** Everything the gates must have said for a step to be executed. */
  predicate Cleared(cfg: Config, step: Step) {
    && !step.guardRejects && step.immuneAllows
    && FirstCheck(cfg, step).allowed && SecondCheck(cfg, step).allowed
    && (FirstCheck(cfg, step).approvalRequired ==> step.approval.Approves?)
  }

  /**
   Every requested execution was cleared by all gates, follows the approval of its own step where one was required, and
   was within the quota when requested.
   */
  ghost predicate Gated(cfg: Config, ledger: seq<Entry>) {
    ledger == [] ||
    (var front, last := ledger[..|ledger| - 1], ledger[|ledger| - 1];
     && Gated(cfg, front)
     && (last.ExecutionRequested? ==>
           && Cleared(cfg, last.step)
           && (FirstCheck(cfg, last.step).approvalRequired ==> ApprovalGranted(last.run, last.at) in front)
           && CountCalls(front) < cfg.maxToolCalls))
  }

  lemma {:induction false} GatedAppend(cfg: Config, ledger: seq<Entry>, e: Entry)
    ensures CountCalls(ledger + [e]) == CountCalls(ledger)
            + (if e.UsageRecorded? && e.resource.ToolCalls? then 1 else 0)
    ensures Gated(cfg, ledger + [e]) <==>
            && Gated(cfg, ledger)
            && (e.ExecutionRequested? ==>
                  && Cleared(cfg, e.step)
                  && (FirstCheck(cfg, e.step).approvalRequired ==> ApprovalGranted(e.run, e.at) in ledger)
                  && CountCalls(ledger) < cfg.maxToolCalls)
  {
    assert (ledger + [e])[..|ledger|] == ledger;
  }

  /** Entries that neither request an execution nor meter a tool call. */
  predicate Harmless(e: Entry) {
    !e.ExecutionRequested? && !(e.UsageRecorded? && e.resource.ToolCalls?)
  }

  lemma {:induction false} HarmlessKeeps(cfg: Config, ledger: seq<Entry>, entries: seq<Entry>)
    requires Gated(cfg, ledger) && forall e | e in entries :: Harmless(e)
    ensures Gated(cfg, ledger + entries) && CountCalls(ledger + entries) == CountCalls(ledger)
  {
    hide Cleared, FirstCheck;
    if entries == [] {
      assert ledger + entries == ledger;
    } else {
      var front, last := entries[..|entries| - 1], entries[|entries| - 1];
      HarmlessKeeps(cfg, ledger, front);
      assert last in entries;
      GatedAppend(cfg, ledger + front, last);
      assert ledger + entries == (ledger + front) + [last];
    }
  }

  /** The gates held so far, the meter agrees with the ledger, and the quota was never exceeded. */
  ghost predicate Accounted(cfg: Config, ledger: seq<Entry>, calls: nat) {
    Gated(cfg, ledger) && calls == CountCalls(ledger) && (calls > 0 ==> calls <= cfg.maxToolCalls)
  }

  lemma {:induction false} NoteKeeps(cfg: Config, ledger: seq<Entry>, calls: nat, entries: seq<Entry>)
    requires Accounted(cfg, ledger, calls) && forall e | e in entries :: Harmless(e)
    ensures Accounted(cfg, ledger + entries, calls)
  {
    HarmlessKeeps(cfg, ledger, entries);
  }

  lemma {:induction false} RequestKeeps(cfg: Config, ledger: seq<Entry>, calls: nat, e: Entry)
    requires Accounted(cfg, ledger, calls) && e.ExecutionRequested? && Cleared(cfg, e.step) && calls < cfg.maxToolCalls
    requires FirstCheck(cfg, e.step).approvalRequired ==> ApprovalGranted(e.run, e.at) in ledger
    ensures Accounted(cfg, ledger + [e], calls)
  {
    GatedAppend(cfg, ledger, e);
  }

  lemma {:induction false} MeterKeeps(cfg: Config, ledger: seq<Entry>, calls: nat, run: nat)
    requires Accounted(cfg, ledger, calls) && calls < cfg.maxToolCalls
    ensures Accounted(cfg, ledger + [UsageRecorded(run, ToolCalls)], calls + 1)
  {
    GatedAppend(cfg, ledger, UsageRecorded(run, ToolCalls));
  }

  lemma {:induction false} ExecuteKeeps(cfg: Config, p: Progress, run: nat, i: nat, step: Step)
    requires Accounted(cfg, p.ledger, p.calls) && p.calls < cfg.maxToolCalls
    requires !step.guardRejects && step.immuneAllows && FirstCheck(cfg, step).allowed
    requires FirstCheck(cfg, step).approvalRequired ==> step.approval.Approves? && ApprovalGranted(run, i) in p.ledger
    ensures var q := ExecuteStep(cfg, p, run, i, step); Accounted(cfg, q.ledger, q.calls)
  {
    hide Accounted, FirstCheck, SecondCheck;
    if !SecondCheck(cfg, step).allowed {
      NoteKeeps(cfg, p.ledger, p.calls, [ExecutionDenied(run, i)]);
      MeterKeeps(cfg, p.ledger + [ExecutionDenied(run, i)], p.calls, run);
    } else {
      var requested := p.ledger + [ExecutionRequested(run, i, step)];
      RequestKeeps(cfg, p.ledger, p.calls, ExecutionRequested(run, i, step));
      var after := if step.execution.CannotExecute? then ExecutionRejected(run, i) else ExecutionCompleted(run, i);
      NoteKeeps(cfg, requested, p.calls, [after]);
      MeterKeeps(cfg, requested + [after], p.calls, run);
      assert p.ledger + [ExecutionRequested(run, i, step), after] == requested + [after];
    }
  }

  lemma {:induction false} PastApprovalKeeps(cfg: Config, p: Progress, run: nat, i: nat, step: Step)
    requires Accounted(cfg, p.ledger, p.calls) && !step.guardRejects && FirstCheck(cfg, step).allowed
    requires FirstCheck(cfg, step).approvalRequired ==> step.approval.Approves? && ApprovalGranted(run, i) in p.ledger
    ensures var q := PastApproval(cfg, p, run, i, step); Accounted(cfg, q.ledger, q.calls)
  {
    hide Accounted, FirstCheck, ExecuteStep;
    NoteKeeps(cfg, p.ledger, p.calls, [QuotaExceeded(run, i)]);
    NoteKeeps(cfg, p.ledger, p.calls, [ImmuneBlocked(run, i)]);
    if p.calls + 1 <= cfg.maxToolCalls && step.immuneAllows && !step.inputThrows { ExecuteKeeps(cfg, p, run, i, step); }
  }

  lemma {:induction false} StepKeeps(cfg: Config, p: Progress, run: nat, i: nat, step: Step)
    requires Accounted(cfg, p.ledger, p.calls)
    ensures var q := TakeStep(cfg, p, run, i, step); Accounted(cfg, q.ledger, q.calls)
  {
    hide Accounted, FirstCheck, PastApproval;
    NoteKeeps(cfg, p.ledger, p.calls, [CapabilityRejected(run, i)]);
    NoteKeeps(cfg, p.ledger, p.calls, [ApprovalDenied(run, i)]);
    NoteKeeps(cfg, p.ledger, p.calls, [ApprovalRequired(run, i)]);
    NoteKeeps(cfg, p.ledger, p.calls, [ApprovalRequired(run, i), ApprovalDenied(run, i)]);
    NoteKeeps(cfg, p.ledger, p.calls, [ApprovalRequired(run, i), ApprovalGranted(run, i)]);
    if !step.guardRejects && FirstCheck(cfg, step).allowed {
      if !FirstCheck(cfg, step).approvalRequired {
        PastApprovalKeeps(cfg, p, run, i, step);
      } else if step.approval.Approves? {
        PastApprovalKeeps(cfg, Note(p, [ApprovalRequired(run, i), ApprovalGranted(run, i)]), run, i, step);
      }
    }
  }

  lemma {:induction false} StepsKeep(cfg: Config, p: Progress, run: nat, steps: seq<Step>)
    requires Accounted(cfg, p.ledger, p.calls)
    ensures var q := TakeSteps(cfg, p, run, steps); Accounted(cfg, q.ledger, q.calls)
  {
    hide Accounted, TakeStep;
    if steps != [] {
      StepsKeep(cfg, p, run, steps[..|steps| - 1]);
      StepKeeps(cfg, TakeSteps(cfg, p, run, steps[..|steps| - 1]), run, |steps| - 1, steps[|steps| - 1]);
    }
  }

  lemma {:induction false} RunKeeps(cfg: Config, w: World, request: Request)
    requires Accounted(cfg, w.ledger, w.calls)
    ensures Accounted(cfg, RunOnce(cfg, w, request).ledger, RunOnce(cfg, w, request).calls)
  {
    hide Accounted, TakeSteps, Verify;
    NoteKeeps(cfg, w.ledger, w.calls, Opening(w.runs));
    StepsKeep(cfg, Progress(w.ledger + Opening(w.runs), w.calls, [], Going), w.runs, request.steps);
    var p, verdict := Stepped(cfg, w, request), VerdictOf(cfg, w, request);
    if verdict.Some? {
      NoteKeeps(cfg, p.ledger, p.calls, Closing(w.runs, verdict.value));
    } else {
      assert p.ledger + [] == p.ledger;
    }
  }

  /**
   Over any sequence of runs: every execution requested was cleared by every gate in its own step, and the metered tool
   calls are those on the ledger and never exceed the budget.
   */
  lemma {:induction false} AlwaysGated(cfg: Config, requests: seq<Request>)
    ensures Accounted(cfg, RunMany(cfg, requests).ledger, RunMany(cfg, requests).calls)
  {
    hide RunOnce;
    if requests != [] {
      AlwaysGated(cfg, requests[..|requests| - 1]);
      RunKeeps(cfg, RunMany(cfg, requests[..|requests| - 1]), requests[|requests| - 1]);
    }
  }

  /** What `Gated` says of each request on the ledger, by position. */
  lemma {:induction false} GatedAt(cfg: Config, ledger: seq<Entry>, k: nat)
    requires Gated(cfg, ledger) && k < |ledger| && ledger[k].ExecutionRequested?
    ensures Cleared(cfg, ledger[k].step) && CountCalls(ledger[..k]) < cfg.maxToolCalls
    ensures FirstCheck(cfg, ledger[k].step).approvalRequired ==>
              ApprovalGranted(ledger[k].run, ledger[k].at) in ledger[..k]
  {
    hide Cleared, FirstCheck;
    if k < |ledger| - 1 {
      GatedAt(cfg, ledger[..|ledger| - 1], k);
      assert ledger[..|ledger| - 1][..k] == ledger[..k];
    }
  }

  /* ---------- completion ---------- */

  /** The step is cleared, its input can be computed, and its executor reports success. */
  predicate Succeeds(cfg: Config, step: Step) {
    Cleared(cfg, step) && !step.inputThrows && step.execution.Executed? && step.execution.success
  }

  /** Each of the steps succeeds, and the budget left allows for it. */
  predicate AllSucceed(cfg: Config, calls: nat, steps: seq<Step>) {
    forall i | 0 <= i < |steps| :: Succeeds(cfg, steps[i]) && calls + i + 1 <= cfg.maxToolCalls
  }

  predicate AllGood(results: seq<StepResult>) {
    forall i | 0 <= i < |results| :: results[i].success
  }

  /** From `p` to `q` the step succeeded within the budget, or an exception escaped, or it added a failure. */
  predicate Outcome(cfg: Config, p: Progress, q: Progress, step: Step) {
    if Succeeds(cfg, step) && p.calls + 1 <= cfg.maxToolCalls then
      && q.flow.Going? && q.calls == p.calls + 1
      && q.results == p.results + [StepResult(true, step.execution.evidence)]
    else
      || q.flow.Aborted?
      || (|q.results| == |p.results| + 1 && q.results[..|p.results|] == p.results && !q.results[|p.results|].success)
  }

  /** A step adds a success exactly when it succeeds within the budget, and then counts one call. */
  lemma {:induction false} StepOutcome(cfg: Config, p: Progress, run: nat, i: nat, step: Step)
    requires p.flow.Going?
    ensures Outcome(cfg, p, TakeStep(cfg, p, run, i, step), step)
  {
    hide Evaluate;
  }

  /** Where every result is a success and no exception escaped, every step succeeded, and the evidence is theirs. */
  lemma {:induction false} StepsOutcome(cfg: Config, p: Progress, run: nat, steps: seq<Step>)
    requires p.flow.Going? && p.results == []
    ensures var q := TakeSteps(cfg, p, run, steps);
            && ((!q.flow.Aborted? && AllGood(q.results)) <==> AllSucceed(cfg, p.calls, steps))
            && (AllSucceed(cfg, p.calls, steps) ==>
                  && q.flow.Going? && q.calls == p.calls + |steps| && |q.results| == |steps|
                  && forall i | 0 <= i < |steps| :: q.results[i].evidence == steps[i].execution.evidence)
            && (q.flow.Left? ==> !AllGood(q.results))
  {
    hide TakeStep, Succeeds;
    if steps != [] {
      var front, last := steps[..|steps| - 1], steps[|steps| - 1];
      StepsOutcome(cfg, p, run, front);
      FrontSucceeds(cfg, p.calls, steps);
      var before := TakeSteps(cfg, p, run, front);
      if before.flow.Going? {
        StepOutcome(cfg, before, run, |steps| - 1, last);
        NextResults(cfg, before, TakeStep(cfg, before, run, |steps| - 1, last), p.calls, steps);
      }
    }
  }

  lemma {:induction false} FrontSucceeds(cfg: Config, calls: nat, steps: seq<Step>)
    requires steps != []
    ensures AllSucceed(cfg, calls, steps) <==>
            && AllSucceed(cfg, calls, steps[..|steps| - 1])
            && Succeeds(cfg, steps[|steps| - 1]) && calls + |steps| <= cfg.maxToolCalls
  {
    hide Succeeds;
    var front := steps[..|steps| - 1];
    if AllSucceed(cfg, calls, front) && Succeeds(cfg, steps[|steps| - 1]) && calls + |steps| <= cfg.maxToolCalls {
      forall i | 0 <= i < |steps|
        ensures Succeeds(cfg, steps[i]) && calls + i + 1 <= cfg.maxToolCalls
      {
        if i < |front| { assert front[i] == steps[i]; }
      }
    }
    if AllSucceed(cfg, calls, steps) {
      forall i | 0 <= i < |front|
        ensures Succeeds(cfg, front[i]) && calls + i + 1 <= cfg.maxToolCalls
      {
        assert front[i] == steps[i];
      }
      var last := |steps| - 1;
      assert Succeeds(cfg, steps[last]) && calls + last + 1 <= cfg.maxToolCalls;
    }
  }

  lemma {:induction false} NextResults(cfg: Config, p: Progress, q: Progress, calls: nat, steps: seq<Step>)
    requires steps != [] && p.flow.Going?
    requires AllGood(p.results) <==> AllSucceed(cfg, calls, steps[..|steps| - 1])
    requires AllSucceed(cfg, calls, steps[..|steps| - 1]) ==>
               && p.calls == calls + |steps| - 1 && |p.results| == |steps| - 1
               && forall i | 0 <= i < |steps| - 1 :: p.results[i].evidence == steps[i].execution.evidence
    requires AllSucceed(cfg, calls, steps) <==>
             && AllSucceed(cfg, calls, steps[..|steps| - 1])
             && Succeeds(cfg, steps[|steps| - 1]) && calls + |steps| <= cfg.maxToolCalls
    requires Outcome(cfg, p, q, steps[|steps| - 1])
    ensures (!q.flow.Aborted? && AllGood(q.results)) <==> AllSucceed(cfg, calls, steps)
    ensures AllSucceed(cfg, calls, steps) ==>
              && q.flow.Going? && q.calls == calls + |steps| && |q.results| == |steps|
              && forall i | 0 <= i < |steps| :: q.results[i].evidence == steps[i].execution.evidence
    ensures q.flow.Left? ==> !AllGood(q.results)
  {
    hide Succeeds, AllSucceed;
    if AllGood(q.results) && !q.flow.Aborted? {
      forall i | 0 <= i < |p.results|
        ensures p.results[i].success
      {
        assert q.results[i] == p.results[i];
      }
    }
  }

  lemma {:induction false} DefaultPassed(results: seq<StepResult>)
    ensures Verify(DefaultChecks(results)) == Passed <==>
            results != [] && AllGood(results) && exists i :: 0 <= i < |results| && results[i].evidence != []
  {
    var checks := DefaultChecks(results);
    PassedNeedsEvidence(checks);
    assert |checks| == |results|;
    if AllGood(results) {
      forall c | c in checks
        ensures c.verdict == Passed
      {
        var i :| 0 <= i < |checks| && checks[i] == c;
        assert results[i].success;
      }
    }
    if forall c | c in checks :: c.verdict == Passed {
      forall i | 0 <= i < |results|
        ensures results[i].success
      {
        assert checks[i] in checks;
      }
    }
    if i :| 0 <= i < |results| && results[i].evidence != [] { assert checks[i] in checks; }
    if c :| c in checks && c.evidence != [] {
      var i :| 0 <= i < |checks| && checks[i] == c;
      assert results[i].evidence != [];
    }
  }

  /**
   Under default verification a run passes exactly when its plan is not empty, every step succeeds within the budget,
   and at least one of them produced evidence; and its task is completed on the ledger exactly when it passes.
   */
  lemma {:induction false} CompletedExactly(cfg: Config, w: World, steps: seq<Step>)
    ensures VerdictOf(cfg, w, Request(steps, Default)) == Some(Passed) <==>
            steps != [] && AllSucceed(cfg, w.calls, steps) && exists i :: 0 <= i < |steps|
                                                                && steps[i].execution.Executed?
                                                                    && steps[i].execution.evidence != []
  {
    hide TakeSteps, Verify, DefaultChecks, Succeeds;
    var start := Progress(w.ledger + Opening(w.runs), w.calls, [], Going);
    var q := TakeSteps(cfg, start, w.runs, steps);
    StepsOutcome(cfg, start, w.runs, steps);
    DefaultPassed(q.results);
    if AllSucceed(cfg, w.calls, steps) {
      forall i | 0 <= i < |steps|
        ensures steps[i].execution.Executed? && q.results[i].evidence == steps[i].execution.evidence
      {
        SuccessExecuted(cfg, steps[i]);
      }
    }
  }

  lemma {:induction false} SuccessExecuted(cfg: Config, step: Step)
    requires Succeeds(cfg, step)
    ensures step.execution.Executed?
  {}

  /** Steps add no completion entries. */
  lemma {:induction false} StepsNeverComplete(cfg: Config, p: Progress, run: nat, steps: seq<Step>, r: nat)
    ensures TaskCompleted(r) in TakeSteps(cfg, p, run, steps).ledger <==> TaskCompleted(r) in p.ledger
  {
    hide TakeStep;
    if steps != [] {
      StepsNeverComplete(cfg, p, run, steps[..|steps| - 1], r);
      StepNeverCompletes(cfg, TakeSteps(cfg, p, run, steps[..|steps| - 1]), run, |steps| - 1, steps[|steps| - 1], r);
    }
  }

  lemma {:induction false} StepNeverCompletes(cfg: Config, p: Progress, run: nat, i: nat, step: Step, r: nat)
    ensures TaskCompleted(r) in TakeStep(cfg, p, run, i, step).ledger <==> TaskCompleted(r) in p.ledger
  {
    hide Evaluate;
  }

  /** A run that is new to the ledger is marked completed there exactly when its verdict is "passed". */
  lemma {:induction false} CompletedOnLedger(cfg: Config, w: World, request: Request)
    requires TaskCompleted(w.runs) !in w.ledger
    ensures TaskCompleted(w.runs) in RunOnce(cfg, w, request).ledger <==> VerdictOf(cfg, w, request) == Some(Passed)
  {
    hide TakeSteps, Verify;
    StepsNeverComplete(cfg, Progress(w.ledger + Opening(w.runs), w.calls, [], Going), w.runs, request.steps, w.runs);
  }

  /** Runs are numbered in order, and each touches only its own mark of completion. */
  lemma {:induction false} OtherRunsKept(cfg: Config, w: World, request: Request, r: nat)
    requires r != w.runs
    ensures TaskCompleted(r) in RunOnce(cfg, w, request).ledger <==> TaskCompleted(r) in w.ledger
    ensures RunOnce(cfg, w, request).runs == w.runs + 1
  {
    hide TakeSteps, Verify;
    StepsNeverComplete(cfg, Progress(w.ledger + Opening(w.runs), w.calls, [], Going), w.runs, request.steps, r);
  }

  lemma {:induction false} LaterRunsUnmarked(cfg: Config, requests: seq<Request>, r: nat)
    ensures RunMany(cfg, requests).runs == |requests|
    ensures r >= |requests| ==> TaskCompleted(r) !in RunMany(cfg, requests).ledger
  {
    hide RunOnce;
    if requests != [] {
      var front := requests[..|requests| - 1];
      LaterRunsUnmarked(cfg, front, r);
      if r >= |requests| { OtherRunsKept(cfg, RunMany(cfg, front), requests[|requests| - 1], r); } else {
        OtherRunsKept(cfg, RunMany(cfg, front), requests[|requests| - 1], |front| + 1);
      }
    }
  }

  /** Over any sequence of runs, the ledger marks a task completed exactly when its own run ended with "passed". */
  lemma {:induction false} TasksCompletedExactly(cfg: Config, requests: seq<Request>, r: nat)
    requires r < |requests|
    ensures TaskCompleted(r) in RunMany(cfg, requests).ledger <==>
            VerdictOf(cfg, RunMany(cfg, requests[..r]), requests[r]) == Some(Passed)
  {
    hide RunOnce, VerdictOf;
    var front, last := requests[..|requests| - 1], requests[|requests| - 1];
    LaterRunsUnmarked(cfg, front, |front|);
    if r == |front| {
      CompletedOnLedger(cfg, RunMany(cfg, front), last);
    } else {
      OtherRunsKept(cfg, RunMany(cfg, front), last, r);
      TasksCompletedExactly(cfg, front, r);
      assert front[..r] == requests[..r];
    }
  }
}
