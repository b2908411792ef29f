/** Conditionals that name only their own descendants: skipping never fails, and the other branch never runs. */
module Branches {
  import opened Wrappers
  import opened WorkflowTypes
  import opened NodeMachine
  import opened Graph
  import opened Layers
  import opened WorkflowCore
  import opened CoreInvariant
  import opened Conditions
  import opened Machine
  import opened MachineInvariant
  import opened MachineSteps
  import opened Restart
  import opened Safety
  import opened Stopping

  /** Node `x` depends on `n`: directly or, if `n` has a name, in any way. */
  ghost predicate Below(r: Rel, n: Id, x: Id) {
    Edge(r, x, n) || (Named(n) && Ancestor(r, n, x))
  }

  /** A node below one that has not completed is not under way, and if the latter has a name it has never begun. */
  lemma {:induction false} DescendantIsIdle(c: Core, n: Id, x: Id)
    requires Inv(c) && n in c.status && c.status[n] != Completed && x in c.status && Below(Deps(c.graph), n, x)
    ensures c.status[x] == Planned || Terminal(c.status[x])
    ensures Named(n) ==> !Begun(c.status[x])
  {
    hide Inv, DepSafe, AboveDone, KnownDeps, OrderOk, SkipClosed, Acyclic, Ancestor, Deps;
    InvDeps(c);
    if Named(n) && Begun(c.status[x]) {
      BelowIsAncestor(Deps(c.graph), n, x);
      AncestorsDone(c, n, x);
    } else if !Named(n) && Begun(c.status[x]) && !Terminal(c.status[x]) {
      BegunDeps(Deps(c.graph), c.status, n, x);
    }
  }

  lemma {:induction false} BelowIsAncestor(r: Rel, n: Id, x: Id)
    requires Below(r, n, x)
    ensures Ancestor(r, n, x)
  {
    if Edge(r, x, n) { assert IsWalk(r, [x, n]); }
  }

  /** The listed nodes of the graph are below `n`. */
  ghost predicate AllBelow(c: Core, n: Id, ns: seq<Id>) {
    forall i | 0 <= i < |ns| :: ns[i] in c.status ==> Below(Deps(c.graph), n, ns[i])
  }

  /** What skipping makes of a node below `n`. */
  predicate Settles(n: Id, st: Status) {
    Terminal(st) && (Named(n) ==> st == Skipped || st == Cancelled)
  }

  /** Skipping nodes below a running one never meets an illegal transition, and settles each of them. */
  lemma {:induction false} SkipsSucceed(c: Core, n: Id, ns: seq<Id>)
    requires Inv(c) && n in c.status && c.status[n] == Running && AllBelow(c, n, ns)
    ensures !SkipAll(c, ns).threw
    ensures forall i | 0 <= i < |ns| && ns[i] in c.status :: Settles(n, SkipAll(c, ns).core.status[ns[i]])
    decreases |ns|
  {
    hide Inv, Below, SkipNode, Quiet;
    if ns != [] {
      InvListed(c);
      SkipNodeKeeps(c, ns[0]);
      if ns[0] in c.status { DescendantIsIdle(c, n, ns[0]); }
      var d := SkipNode(c, ns[0]).core;
      InvListed(d);
      BelowStays(c, d, n, ns);
      SkipsSucceed(d, n, ns[1..]);
      SkipAllKeeps(d, ns[1..]);
      assert SkipAll(c, ns) == SkipAll(d, ns[1..]);
      forall i | 0 <= i < |ns| && ns[i] in c.status
        ensures Settles(n, SkipAll(c, ns).core.status[ns[i]])
      {
        if i > 0 { assert ns[i] == ns[1..][i - 1]; }
      }
    }
  }

  lemma {:induction false} BelowStays(c: Core, d: Core, n: Id, ns: seq<Id>)
    requires AllBelow(c, n, ns) && ns != [] && Steady(c, d)
    ensures AllBelow(d, n, ns[1..])
  {
    hide Below;
    forall i | 0 <= i < |ns[1..]|
      ensures ns[1..][i] in d.status ==> Below(Deps(d.graph), n, ns[1..][i])
    {
      assert ns[1..][i] == ns[i + 1];
    }
  }

  /** The condition names, among the nodes of the graph, only nodes below the conditional. */
  ghost predicate NamesDescendants(c: Core, n: Id, cond: Condition) {
    AllBelow(c, n, cond.thenBranch) && AllBelow(c, n, cond.elseBranch)
  }

  /** The step at which conditional `n` has its source and chooses a branch. */
  ghost predicate Decides(s: State, step: Step, n: Id, cond: Condition, source: NodeResult) {
    && Sound(s) && n in s.frames && DefOf(s, n).kind.Conditional? && DefOf(s, n).condition == Some(cond)
    && Subject(step) == Some(n)
    && match step
       case Invoke(_, _, _, _) =>
         && s.frames[n].pc.Started? && !Truthy(DefOf(s, n).action)
         && cond.when.nodeId in s.core.results && source == s.core.results[cond.when.nodeId]
       case HandlerReturns(_, outcome, _, _) => s.frames[n].pc.Handling? && outcome == Some(source)
       case _ => false
  }

  lemma {:induction false} DecisionIsBranch(s: State, step: Step, t: State, n: Id, cond: Condition, source: NodeResult)
    requires Decides(s, step, n, cond, source) && FrameStep(s, step) == Some(t)
    ensures t == Branch(s, n, cond, source, step.error, step.guard)
  {
    hide Sound, Branch, FailAttempt, CallHandler;
  }

  lemma {:induction false} DecisionRuns(s: State, step: Step, t: State, n: Id, cond: Condition, source: NodeResult)
    requires Good(s) && Decides(s, step, n, cond, source) && StepTo(s, step, t)
    ensures FrameStep(s, step) == Some(t) && n in s.core.status && s.core.status[n] == Running
  {
    hide Good, Sound, FrameStep, Stepping;
    match step {
      case Invoke(_, _, _, _) =>
        GoodStepping(s, n);
        FrameStatus(s, n);
      case HandlerReturns(_, _, _, _) =>
        GoodStepping(s, n);
        FrameStatus(s, n);
      case _ =>
    }
    GoodGives(s);
  }

  /** A conditional that names only nodes below it always succeeds, and settles every node it did not choose. */
  lemma {:induction false} DecisionSettles(s: State, step: Step, t: State, n: Id, cond: Condition, source: NodeResult)
    requires Good(s) && Decides(s, step, n, cond, source) && StepTo(s, step, t) && NamesDescendants(s.core, n, cond)
    ensures n in t.frames && t.frames[n].pc == Returned(BranchResult(n, cond, source))
    ensures t.core.status.Keys == s.core.status.Keys
    ensures forall i | 0 <= i < |NotChosen(cond, source)| && NotChosen(cond, source)[i] in s.core.status ::
              Settles(n, t.core.status[NotChosen(cond, source)[i]])
  {
    hide Good, Sound, FrameStep, Decides, Matches, AllBelow, Inv, Deps, DriverStep, WorkerStep, SkipAll;
    DecisionRuns(s, step, t, n, cond, source);
    DecisionIsBranch(s, step, t, n, cond, source);
    DecidesGives(s, step, n, cond, source);
    GoodGives(s);
    SkipsSucceed(s.core, n, NotChosen(cond, source));
    SkipAllKeeps(s.core, NotChosen(cond, source));
  }

  lemma {:induction false} DecidesGives(s: State, step: Step, n: Id, cond: Condition, source: NodeResult)
    requires Decides(s, step, n, cond, source)
    ensures Sound(s) && n in s.frames && (step.Invoke? || step.HandlerReturns?)
  {
    hide Sound;
  }

  /** No node of the branch that was not chosen is executed by the process that chose. */
  lemma {:induction false} UnchosenNeverRuns(
      run: seq<State>, a: nat, step: Step, n: Id, cond: Condition, source: NodeResult, b: nat, m: Id)
    requires IsRun(run) && OneProcess(run, a, b) && a < b && StepTo(run[a], step, run[a + 1])
    requires Decides(run[a], step, n, cond, source) && NamesDescendants(run[a].core, n, cond) && Named(n)
    requires m in NotChosen(cond, source) && m in run[a].core.status
    ensures m !in run[b].frames && m !in run[b].started
    ensures m in run[b].core.status && (run[b].core.status[m] == Skipped || run[b].core.status[m] == Cancelled)
  {
    hide IsRun, Good, Decides, NamesDescendants, StepTo, NotChosen, BranchResult, Moves;
    RunsAreGood(run, a);
    DecisionSettles(run[a], step, run[a + 1], n, cond, source);
    var i :| 0 <= i < |NotChosen(cond, source)| && NotChosen(cond, source)[i] == m;
    assert OneProcess(run, a + 1, b);
    SettledStays(run, a + 1, b, m);
    SkippedNeverRuns(run, a + 1, b, m);
  }
}
