/**
 What an approval callback that throws does to a run: its process never stops, and a new one can start from every prefix
 of the log left behind.
 */
module BrokenRuns {
  import opened Wrappers
  import opened WorkflowTypes
  import opened NodeMachine
  import opened Layers
  import opened WorkflowLog
  import opened WorkflowCore
  import opened Recovery
  import Bulkhead
  import opened Machine
  import opened MachineInvariant
  import opened MachineSteps
  import opened Restart
  import opened Admission
  import opened Executions

  lemma {:induction false} AsksApproval(s: State, n: Id) returns (t: State)
    requires At(s, n, Started) && !ById(s.core.graph)[n].kind.Conditional?
    ensures Onward(s, t) && At(t, n, AwaitingApproval)
  {
    hide Good, Sound, FrameStep, Onward, ById, At;
    AtGives(s, n, Started);
    var c := Move(s.core, n, Waiting, ApprovalRequired(n));
    AskIs(s, n);
    GoesTo(s, n, Started, Invoke(n, true, "", Guard(false, false)), c, AwaitingApproval);
    t := Goto(s, n, c, AwaitingApproval);
  }

  lemma {:induction false} AskIs(s: State, n: Id)
    requires Sound(s) && n in s.frames && s.frames[n].pc.Started? && n in ById(s.core.graph)
    requires !ById(s.core.graph)[n].kind.Conditional?
    ensures FrameStep(s, Invoke(n, true, "", Guard(false, false))) ==
              Some(Goto(s, n, Move(s.core, n, Waiting, ApprovalRequired(n)), AwaitingApproval))
  {
    hide Sound, ById, FailAttempt, CallHandler, Goto, Branch, Move;
  }

  lemma {:induction false} CallbackThrows(s: State, n: Id, error: string, guard: Guard) returns (t: State)
    requires At(s, n, AwaitingApproval)
    ensures Next(s, t) && Good(t) && t.fault
  {
    hide Good, Sound, FailAttempt, FrameStep, Acts;
    GoodGives(s);
    t := FailAttempt(s, n, error, guard);
    EscapeActs(s, n, error, guard);
    ThrowStep(s, n, error, guard);
    assert StepTo(s, ApprovalThrows(n, error, guard), t);
    StepKeeps(s, ApprovalThrows(n, error, guard), t);
  }

  lemma {:induction false} ThrowStep(s: State, n: Id, error: string, guard: Guard)
    requires Sound(s) && n in s.frames && s.frames[n].pc.AwaitingApproval?
    ensures FrameStep(s, ApprovalThrows(n, error, guard)) == Some(FailAttempt(s, n, error, guard))
  {
    hide Sound, FailAttempt;
  }

  /** Once broken, a process never ends its round, whatever it still does. */
  lemma {:induction false} BreakLasts(s: State, path: seq<State>, k: nat)
    requires Good(s) && s.fault && Continues(s, path) && k < |path|
    ensures Good(path[k]) && path[k].fault && path[k].driver.Dispatching?
    decreases k
  {
    hide Good, Moves, StepTo;
    if k == 0 {
      BrokenDispatches(s);
    } else {
      var before := k - 1;
      BreakLasts(s, path, before);
      assert Moves(path[before], path[before + 1]);
      BreakStays(path[before], path[k]);
      BrokenDispatches(path[k]);
    }
  }

  lemma {:induction false} BreakStays(s: State, t: State)
    requires Good(s) && s.fault && Moves(s, t)
    ensures Good(t) && t.fault
  {
    hide Good, StepTo;
    var step: Step :| !step.Crash? && StepTo(s, step, t);
    FaultsExactly(s, step, t);
    StepKeeps(s, step, t);
  }

  lemma {:induction false} BrokenDispatches(s: State)
    requires Good(s) && s.fault
    ensures s.driver.Dispatching?
  {
    hide Inv, NodesOk, OwnersOk, AttemptsOk, PassesOk, WorkersOk, QueueOk, BatchOk, LayersOk, Promoted, Sound, SeatsOk,
      FramesDone, Lists;
  }

  /**
   Every run that comes between two rounds to a ready node that may ask for approval can go on so that the approval
   callback throws. The run then ends without a final status, as its process never stops; but from every prefix of the
   log left behind a new process can start.
   */
  lemma {:induction false} ThrowingApprovalBreaks(run: seq<State>, n: Id, error: string, guard: Guard)
      returns (longer: seq<State>)
    requires IsRun(run) && Asks(run[|run| - 1], n)
    ensures IsRun(longer) && run <= longer && Broken(longer[|longer| - 1]) && Recoverable(longer[|longer| - 1])
  {
    hide Good, ById, ReadyList, Next, Continues, Restarts, Admits, Reaches, Onward, IsRun, At, SlotOf,
      Bulkhead.CanEverAdmit;
    RunNotEmpty(run);
    var s := run[|run| - 1];
    RunsAreGood(run, |run| - 1);
    var job := RoundAndJob(s, n);
    UnsetOnward(s, job);
    AdmitsSeat(job, n);
    var begun := BeginsNode(job, n);
    UnsetOnward(job, begun);
    var t := AsksApproval(begun, n);
    var u := CallbackThrows(t, n, error, guard);
    OnwardTrans(s, job, begun);
    OnwardTrans(s, begun, t);
    OnwardReaches(s, t);
    ReachesOn(s, t, u);
    longer := RunOn(run, u);
    forall path: seq<State>, k | Continues(u, path) && 0 <= k < |path|
      ensures path[k].fault && path[k].driver.Dispatching?
    {
      BreakLasts(u, path, k);
    }
    forall kept | 1 <= kept <= |u.core.log|
      ensures Restarts(u, kept)
    {
      CrashRestarts(u, kept);
    }
  }

  /** Between rounds of an undisturbed process, a ready node that may ask for approval and can get a seat. */
  predicate Asks(s: State, n: Id) {
    && s.driver.Between? && !s.cancelled && !s.fault && n in ReadyList(s.core.graph, s.core.status)
    && n in ById(s.core.graph) && !ById(s.core.graph)[n].kind.Conditional? && Admits(s.limits, s.core.graph, n)
  }

  /** A run of any graph begins in a state between rounds in which each node without dependencies is ready. */
  lemma {:induction false} RootsReady(runId: string, g: seq<Node>, registry: map<string, Compensation>,
      limits: Bulkhead.Limits) returns (run: seq<State>)
    requires Valid(g)
    ensures IsRun(run) && |run| == 1 && Of(run[0], g, limits, registry) && Poised(run[0])
    ensures forall n | n in Deps(g) && Deps(g)[n] == {} :: n in ReadyList(g, run[0].core.status)
  {
    hide Good, Valid, Deps, ReadyList, Init, ById;
    var s := RunBegins(runId, g, registry, limits);
    run := [s];
    forall n | n in Deps(g) && Deps(g)[n] == {}
      ensures n in ReadyList(g, s.core.status)
    {
      GoodKeys(s);
      assert n in s.core.status.Keys;
      IsReady(s, n);
    }
  }

  /** An exception has escaped, and however the process goes on, its round never ends. */
  ghost predicate Broken(s: State) {
    s.fault && forall path: seq<State>, k | Continues(s, path) && 0 <= k < |path| :: path[k].fault
                 && path[k].driver.Dispatching?
  }

  ghost predicate Recoverable(s: State) {
    forall kept | 1 <= kept <= |s.core.log| :: Restarts(s, kept)
  }

  /** A process that starts from the first `kept` entries of the log is sound and unbroken. */
  ghost predicate Restarts(s: State, kept: nat) {
    && 1 <= kept <= |s.core.log| && Hydrate(s.core.log[..kept]).Some?
    && var t := Boot(Hydrate(s.core.log[..kept]).value, s.registry, s.limits, false, false);
       Next(s, t) && Good(t) && !t.fault
  }

  lemma {:induction false} CrashRestarts(s: State, kept: nat)
    requires Good(s) && 1 <= kept <= |s.core.log|
    ensures Restarts(s, kept)
  {
    hide Good, Hydrate, Seeds, Next;
    var t := Crashes(s, kept);
  }
}
