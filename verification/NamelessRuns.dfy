/**
 Why nodes must have names. At most one node of a graph has an empty one; a restart forgets that it was completed, and
 whatever does not directly depend on it can run beside its repetition. Then a reference to it does not resolve, a
 branch of it that skips such a node throws, and compensation undoes it before what depends on it. For every graph whose
 nodes can be executed this happens exactly to the node without a name.
 */
module NamelessRuns {
  import opened Wrappers
  import opened WorkflowTypes
  import opened NodeMachine
  import opened Graph
  import opened Layers
  import opened WorkflowLog
  import opened WorkflowCore
  import opened CoreInvariant
  import opened Recovery
  import opened Conditions
  import Bulkhead
  import opened Machine
  import opened MachineInvariant
  import opened MachineSteps
  import opened WorkerSteps
  import opened RoundSteps
  import opened Restart
  import opened Safety
  import opened Branches
  import opened CompensationOrder
  import opened Executions
  import opened Playing

  /* ---------- completed twice ---------- */

  /** In a state between rounds a ready node is executed. */
  lemma {:induction false} ExecutedOnce(s: State, n: Id, result: NodeResult) returns (t: State, k: nat)
    requires Poised(s) && n in ReadyList(s.core.graph, s.core.status) && Admits(s.limits, s.core.graph, n)
    requires n in ById(s.core.graph) && Executes(ById(s.core.graph)[n], result)
    ensures Onward(s, t) && CompletesAt(s, t, k, n, Outcome(n, ById(s.core.graph)[n], result))
    ensures Completes(s.core, t.core, n)
  {
    hide Good, ReadyList, Onward, Executes, Outcome, ById, Admits, SlotOf, Bulkhead.CanEverAdmit, HasJob;
    var u := RoundAndJob(s, n);
    UnsetOnward(s, u);
    AdmitsSeat(u, n);
    t, k := Executed(u, n, result);
    OnwardTrans(s, u, t);
  }

  /** After its completion and a crash that loses nothing the node without a name is ready again. */
  lemma {:induction false} NamelessReadyAgain(s: State, t: State, u: State, n: Id)
    requires Good(s) && n in s.core.status && s.core.status[n] == Ready && !Named(n) && t.core.graph == s.core.graph
    requires Completes(s.core, t.core, n) && Restarted(t, u)
    ensures n in ReadyList(u.core.graph, u.core.status)
  {
    hide Good, Deps, Restarted, ReadyList, Inv, DepSafe, AboveDone, SkipClosed, OrderOk, KnownDeps, Acyclic, Completes;
    GoodGives(s);
    InvDeps(s.core);
    SameKeys(s.core, t.core, n);
    var r := Deps(s.core.graph);
    assert n in r.Keys && n in t.core.status.Keys;
    NoSelfDep(s.core, n);
    forall d | d in r[n]
      ensures d in t.core.status && t.core.status[d] == Completed && Named(d)
    {
      BegunDeps(r, s.core.status, d, n);
      StaysCompleted(s.core, t.core, n, d);
    }
    ReadyAfterCrash(t, u, n);
  }

  lemma {:induction false} StaysCompleted(c: Core, d: Core, n: Id, m: Id)
    requires Completes(c, d, n) && m in c.status && c.status[m] == Completed
    ensures m in d.status && d.status[m] == Completed
  {
    assert m in d.status.Keys;
  }

  lemma {:induction false} SameKeys(c: Core, d: Core, n: Id)
    requires Completes(c, d, n)
    ensures d.status.Keys == c.status.Keys
  {}

  lemma {:induction false} NoSelfDep(c: Core, n: Id)
    requires Inv(c)
    ensures !Edge(Deps(c.graph), n, n)
  {
    hide Deps, DepSafe, AboveDone, SkipClosed, OrderOk;
    InvDeps(c);
    assert Edge(Deps(c.graph), n, n) ==> IsCycle(Deps(c.graph), [n, n]);
    assert !IsCycle(Deps(c.graph), [n, n]);
  }

  lemma {:induction false} StillNoSkips(c: Core, d: Core, n: Id)
    requires Smooth(c.status) && Completes(c, d, n)
    ensures NoSkips(d.status)
  {
    forall m | m in d.status
      ensures d.status[m] != Skipped
    {
      assert m in c.status.Keys;
    }
  }

  /**
   For every graph whose nodes can be executed there is a run whose log completes the node without a name twice, once
   before and once after a crash that lost nothing.
   */
  lemma {:induction false} NamelessCompletesTwice(runId: string, g: seq<Node>, registry: map<string, Compensation>,
      limits: Bulkhead.Limits, answers: Answers, n: Id) returns (run: seq<State>, a: nat, b: nat)
    requires Valid(g) && OthersPlay(g, limits, answers, n) && Plays(g, limits, answers, n) && !Named(n)
    ensures IsRun(run) && Of(run[|run| - 1], g, limits, registry) && a < b < |run[|run| - 1].core.log|
    ensures var log, event := run[|run| - 1].core.log, NodeCompleted(n, Outcome(n, ById(g)[n], answers[n]));
            log[a] == event == log[b]
  {
    hide Good, Valid, Deps, ById, ReadyList, Init, Executes, Outcome, Admits, Reaches, Onward, IsRun, OthersPlay,
      Completes, Smooth, Restarted;
    var s := RunBegins(runId, g, registry, limits);
    NodeStarts(s, n);
    var p := PlayedUntil(s, answers, n);
    UnsetOnward(s, p);
    GoodKeys(p);
    ReadyMembers(g, p.core.status, n);
    var t, u, v: State;
    t, a := ExecutedOnce(p, n, answers[n]);
    UnsetOnward(p, t);
    StillNoSkips(p.core, t.core, n);
    u := CrashesWhole(t);
    NamelessReadyAgain(p, t, u, n);
    RestartGives(t, u);
    v, b := ExecutedOnce(u, n, answers[n]);
    UnsetOnward(u, v);
    OnwardTrans(s, p, t);
    ReachesThree(s, t, u, v);
    run := RunTo(s, v);
    assert t.core.log <= u.core.log <= v.core.log;
  }

  lemma {:induction false} NodeStarts(s: State, n: Id)
    requires Good(s) && Fresh(s.core.status) && n in ById(s.core.graph)
    ensures Smooth(s.core.status) && n in s.core.status && Idles(s.core.status[n]) && n in Deps(s.core.graph)
  {
    hide Good, Deps, ById;
    GoodKeys(s);
    ByIdDeps(s.core.graph);
    assert n in s.core.status.Keys;
  }

  /** No run's log completes `n` twice. */
  ghost predicate CompletesOnce(g: seq<Node>, limits: Bulkhead.Limits, registry: map<string, Compensation>, n: Id) {
    forall run: seq<State>, i | IsRun(run) && 0 <= i < |run| && Of(run[i], g, limits, registry) ::
      !CompletedTwice(run[i].core.log, n)
  }

  predicate CompletedTwice(log: seq<Event>, n: Id) {
    exists a, b :: 0 <= a < b < |log| && CompletionOf(log[a], n) && CompletionOf(log[b], n)
  }

  predicate CompletionOf(e: Event, n: Id) {
    e.NodeCompleted? && e.nodeId == n
  }

  /**
   In a graph whose nodes can be executed, a node is completed at most once in every run if and only if it has a name.
   */
  lemma {:induction false} OnceExactly(g: seq<Node>, registry: map<string, Compensation>, limits: Bulkhead.Limits,
      answers: Answers, n: Id)
    requires Valid(g) && OthersPlay(g, limits, answers, n) && Plays(g, limits, answers, n)
    ensures CompletesOnce(g, limits, registry, n) <==> Named(n)
  {
    hide IsRun, OthersPlay, Valid, Plays, Good, Outcome, ById;
    if Named(n) {
      forall run: seq<State>, i | IsRun(run) && 0 <= i < |run| && Of(run[i], g, limits, registry)
        ensures !CompletedTwice(run[i].core.log, n)
      {
        var log := run[i].core.log;
        if a, b :| 0 <= a < b < |log| && CompletionOf(log[a], n) && CompletionOf(log[b], n) {
          CompletedOnceForAll(run, i, a, b);
        }
      }
    } else {
      PlaysKnows(g, limits, answers, n);
      var run, a, b := NamelessCompletesTwice("", g, registry, limits, answers, n);
      RunNotEmpty(run);
      var last := |run| - 1;
      assert CompletionOf(run[last].core.log[a], n) && CompletionOf(run[last].core.log[b], n);
      assert IsRun(run) && Of(run[last], g, limits, registry);
    }
  }

  lemma {:induction false} PlaysKnows(g: seq<Node>, limits: Bulkhead.Limits, answers: Answers, n: Id)
    requires Plays(g, limits, answers, n)
    ensures n in ById(g) && n in answers
  {
    hide Admits, Executes, ById;
  }

  lemma {:induction false} ReachesThree(s: State, t: State, u: State, v: State)
    requires Onward(s, t) && Restarted(t, u) && Onward(u, v)
    ensures Reaches(s, v)
  {
    hide Good, Reaches;
    ReachesTrans(s, t, u);
    ReachesTrans(s, u, v);
  }

  /* ---------- the node without a name, after a restart ---------- */

  /** The node `a` has no name and stands above `n`, though not directly. */
  ghost predicate Stranded(r: Rel, a: Id, n: Id) {
    !Named(a) && Ancestor(r, a, n) && !Edge(r, n, a)
  }

  /** All nodes that can come back from a crash, other than `a`, do: at most one has no name. */
  lemma {:induction false} OneNameless(a: Id, b: Id)
    requires !Named(a) && a != b
    ensures Named(b)
  {}

  lemma {:induction false} AncestorOfDep(r: Rel, d: Id, a: Id, n: Id)
    requires Edge(r, a, d) && Ancestor(r, a, n)
    ensures Ancestor(r, d, n)
  {
    hide Ancestor;
    EdgeIsAncestor(r, d, a);
    AncestorTransitive(r, d, a, n);
  }

  lemma {:induction false} EdgeIsAncestor(r: Rel, d: Id, a: Id)
    requires Edge(r, a, d)
    ensures Ancestor(r, d, a)
  {
    assert IsWalk(r, [a, d]);
  }

  lemma {:induction false} NotOwnAncestor(r: Rel, a: Id)
    requires Acyclic(r)
    ensures !Ancestor(r, a, a)
  {
    if Ancestor(r, a, a) {
      var p :| IsWalk(r, p) && |p| >= 2 && p[0] == a && p[|p| - 1] == a;
      assert IsCycle(r, p);
    }
  }

  /** Between rounds, `n` is ready, and so is `a`, which stands above it. */
  ghost predicate Beside(s: State, a: Id, n: Id) {
    && Poised(s) && Smooth(s.core.status) && a != n
    && a in s.core.status && s.core.status[a] == Ready && n in s.core.status && s.core.status[n] == Ready
  }

  /** What is ready, has a name, and depends on nothing without one is ready again after a crash that loses nothing. */
  lemma {:induction false} ReadyAgain(s: State, t: State, n: Id, a: Id)
    requires Good(s) && Restarted(s, t) && n in s.core.status && s.core.status[n] == Ready
    requires Stranded(Deps(s.core.graph), a, n)
    ensures n in t.core.status && t.core.status[n] == Ready
  {
    hide Good, Deps, Restarted, ReadyList, Inv, DepSafe, AboveDone, SkipClosed, OrderOk, KnownDeps, Acyclic, Ancestor;
    GoodGives(s);
    InvDeps(s.core);
    var r := Deps(s.core.graph);
    assert n in r.Keys;
    forall d | d in r[n]
      ensures d in s.core.status && s.core.status[d] == Completed && Named(d)
    {
      BegunDeps(r, s.core.status, d, n);
      OneNameless(a, d);
    }
    ReadyAfterCrash(s, t, n);
  }

  lemma {:induction false} AllDone(r: Rel, st: Statuses, n: Id)
    requires n in r && forall d | d in r[n] :: d in st && st[d] == Completed
    ensures DepsDone(r, st, n)
  {}

  /** And so is then the node without a name above it. */
  lemma {:induction false} NamelessReady(s: State, n: Id, a: Id)
    requires Good(s) && n in s.core.status && s.core.status[n] == Ready && a in s.core.status && Idles(s.core.status[a])
    requires !Named(a) && Ancestor(Deps(s.core.graph), a, n)
    ensures s.core.status[a] == Ready
  {
    hide Good, Deps, ReadyList, Inv, DepSafe, AboveDone, SkipClosed, OrderOk, KnownDeps, Acyclic, Ancestor, DepsDone;
    GoodGives(s);
    InvDeps(s.core);
    var r := Deps(s.core.graph);
    assert a in r.Keys;
    forall d | d in r[a]
      ensures d in s.core.status && s.core.status[d] == Completed
    {
      EdgeIsAncestor(r, d, a);
      NotOwnAncestor(r, a);
      OneNameless(a, d);
      AncestorOfDep(r, d, a, n);
      AncestorsDone(s.core, d, n);
    }
    AllDone(r, s.core.status, a);
    IsReady(s, a);
  }

  lemma {:induction false} AncestorKnown(s: State, a: Id, n: Id)
    requires Good(s) && Ancestor(Deps(s.core.graph), a, n)
    ensures a in s.core.status && n in s.core.status && a != n
  {
    hide Good, Deps, Ancestor, Inv, DepSafe, AboveDone, SkipClosed, OrderOk, KnownDeps, Acyclic;
    GoodGives(s);
    InvDeps(s.core);
    var d := AncestorSplits(Deps(s.core.graph), a, n);
    NotOwnAncestor(Deps(s.core.graph), a);
    assert a in s.core.status.Keys && n in s.core.status.Keys;
  }

  /**
   The graph is played until `n` is ready, and a crash loses nothing of the log: then the node without a name above `n`
   is ready beside it.
   */
  lemma {:induction false} ComeBeside(runId: string, g: seq<Node>, registry: map<string, Compensation>,
      limits: Bulkhead.Limits, answers: Answers, a: Id, n: Id) returns (s: State, t: State)
    requires Valid(g) && OthersPlay(g, limits, answers, n) && Stranded(Deps(g), a, n)
    ensures Init(s) && Reaches(s, t) && Beside(t, a, n) && Of(t, g, limits, registry)
  {
    hide Good, Init, Reaches, OthersPlay, Valid, Deps, Ancestor, Edge, Restarted, Onward;
    s := RunBegins(runId, g, registry, limits);
    AncestorKnown(s, a, n);
    FreshSmooth(s.core.status);
    var u := PlayedUntil(s, answers, n);
    UnsetOnward(s, u);
    OnwardReaches(s, u);
    t := CrashesWhole(u);
    RestartGives(u, t);
    ReachesTrans(s, u, t);
    AncestorKnown(t, a, n);
    ReadyAgain(u, t, n, a);
    SmoothAgain(u, t, a);
    NamelessReady(t, n, a);
  }

  lemma {:induction false} FreshSmooth(st: Statuses)
    requires Fresh(st)
    ensures Smooth(st)
  {}

  lemma {:induction false} SmoothAgain(s: State, t: State, a: Id)
    requires Restarted(s, t) && Smooth(s.core.status) && a in t.core.status && !Named(a)
    ensures Smooth(t.core.status) && Idles(t.core.status[a])
  {
    hide Good, Reaches;
    forall m | m in t.core.status
      ensures t.core.status[m] == Completed || Idles(t.core.status[m])
    {
      assert m in s.core.status.Keys;
      assert RestartedAt(m, s.core.status[m], t.core.status[m]);
    }
    assert a in s.core.status.Keys;
    assert RestartedAt(a, s.core.status[a], t.core.status[a]);
  }

  /* ---------- a reference that does not resolve ---------- */

  /** Of two ready nodes one begins to execute while the other stays ready. */
  lemma {:induction false} OneBegins(s: State, n: Id, other: Id) returns (t: State)
    requires Beside(s, n, other) || Beside(s, other, n)
    requires Admits(s.limits, s.core.graph, n)
    ensures Onward(s, t) && At(t, n, Started) && other in t.core.status && t.core.status[other] == Ready
    ensures t.core.status[n] == Running
  {
    hide Good, ReadyList, Onward, Admits, SlotOf, Bulkhead.CanEverAdmit, At, HasJob, ById;
    GoodKeys(s);
    ReadyMembers(s.core.graph, s.core.status, n);
    assert n in Deps(s.core.graph).Keys;
    var u := RoundAndJob(s, n);
    UnsetOnward(s, u);
    AdmitsSeat(u, n);
    t := BeginsNode(u, n);
    OnwardTrans(s, u, t);
  }

  /** A reference of the executed node `n` to what stands above it does not resolve. */
  ghost predicate Unresolved(s: State, n: Id, a: Id) {
    && Sound(s) && n in s.frames && Ancestor(Deps(s.core.graph), a, n)
    && InputRef(DefOf(s, n).input) == Some(a.text) && !InputResolves(s.core.results, DefOf(s, n))
  }

  lemma {:induction false} NotCompletedNoResult(s: State, n: Id)
    requires Good(s) && n in s.core.status && s.core.status[n] != Completed
    ensures n !in s.core.results
  {
    hide Good, Inv, Deps, DepSafe, AboveDone, SkipClosed, KnownDeps, Acyclic, OrderOk;
    GoodGives(s);
    InvDeps(s.core);
    assert n !in s.core.results.Keys;
  }

  /**
   For every graph whose other nodes can be executed, a node that refers to a nameless one above it, but not directly
   above it, is executed in some run in which the reference does not resolve.
   */
  lemma {:induction false} NamelessUnresolved(runId: string, g: seq<Node>, registry: map<string, Compensation>,
      limits: Bulkhead.Limits, answers: Answers, a: Id, n: Id) returns (run: seq<State>)
    requires Valid(g) && OthersPlay(g, limits, answers, n) && Admits(limits, g, n) && Stranded(Deps(g), a, n)
    ensures IsRun(run) && Of(run[|run| - 1], g, limits, registry)
    ensures n in run[|run| - 1].frames && a !in run[|run| - 1].core.results
    ensures n in ById(g) && (InputRef(ById(g)[n].input) == Some("") ==> Unresolved(run[|run| - 1], n, a))
  {
    hide Good, Init, Reaches, OthersPlay, Admits, Deps, ById, InputRef, Sound, Ancestor, Edge, IsRun, Valid, Onward,
      Smooth, At;
    var s, t := ComeBeside(runId, g, registry, limits, answers, a, n);
    var u := OneBegins(t, n, a);
    UnsetOnward(t, u);
    OnwardReaches(t, u);
    ReachesTrans(s, t, u);
    AtGives(u, n, Started);
    NotCompletedNoResult(u, a);
    run := RunTo(s, u);
  }

  /** Whenever `n` is executed, the result of `a` is there. */
  ghost predicate AlwaysThere(g: seq<Node>, limits: Bulkhead.Limits, registry: map<string, Compensation>, a: Id,
      n: Id) {
    forall run: seq<State>, i | IsRun(run) && 0 <= i < |run| && Of(run[i], g, limits, registry) && n in run[i].frames ::
      a in run[i].core.results
  }

  /**
   In a graph whose other nodes can be executed, the result of what stands above a node is there in every run whenever
   the node is executed if and only if it has a name or is a direct dependency.
   */
  lemma {:induction false} ThereExactly(g: seq<Node>, registry: map<string, Compensation>, limits: Bulkhead.Limits,
      answers: Answers, a: Id, n: Id)
    requires Valid(g) && OthersPlay(g, limits, answers, n) && Admits(limits, g, n) && Ancestor(Deps(g), a, n)
    ensures AlwaysThere(g, limits, registry, a, n) <==> Awaited(Deps(g), a, n)
  {
    hide IsRun, OthersPlay, Admits, Deps, ById, Ancestor, Edge, Valid, Unresolved, Good, Inv, DepSafe, AboveDone;
    if Awaited(Deps(g), a, n) {
      forall run: seq<State>, i | IsRun(run) && 0 <= i < |run| && Of(run[i], g, limits, registry) && n in run[i].frames
        ensures a in run[i].core.results
      {
        FramesBegun(run, i, n);
        DependenciesHold(run, i, n, a);
      }
    } else {
      var run := NamelessUnresolved("", g, registry, limits, answers, a, n);
      RunNotEmpty(run);
      var last := |run| - 1;
      assert IsRun(run) && Of(run[last], g, limits, registry) && n in run[last].frames;
    }
  }

  lemma {:induction false} FramesBegun(run: seq<State>, i: nat, n: Id)
    requires IsRun(run) && i < |run| && n in run[i].frames
    ensures n in run[i].core.status && Begun(run[i].core.status[n])
  {
    hide IsRun, Good, Flow;
    RunsAreGood(run, i);
    GoodFlows(run[i]);
    ExecutedHasBegun(run[i], n);
  }

  /* ---------- a branch that cannot be skipped ---------- */

  /** A list with a ready node cannot be skipped to its end. */
  lemma {:induction false} ReadyCannotSkip(c: Core, ns: seq<Id>, n: Id)
    requires Inv(c) && Listed(c) && n in ns && n in c.status && c.status[n] == Ready
    ensures SkipAll(c, ns).threw
    decreases |ns|
  {
    hide Inv, CascadeSkip, Quiet;
    if n != ns[0] && !SkipNode(c, ns[0]).threw {
      SkipNodeKeeps(c, ns[0]);
      var d := SkipNode(c, ns[0]).core;
      InvListed(d);
      ReadyCannotSkip(d, ns[1..], n);
    }
  }

  /** The node without a name is executed again, up to its handler, while `n` is ready. */
  lemma {:induction false} NamelessHandles(s: State, a: Id, n: Id) returns (t: State)
    requires Beside(s, a, n) && Admits(s.limits, s.core.graph, a)
    requires a in ById(s.core.graph) && Calls(ById(s.core.graph)[a])
    ensures Onward(s, t) && At(t, a, Handling) && n in t.core.status && t.core.status[n] == Ready
    ensures t.core.status[a] == Running
  {
    hide Good, Onward, Admits, At, ById, Calls, Beside;
    var u := OneBegins(s, a, n);
    UnsetOnward(s, u);
    AtGives(u, a, Started);
    t := Invoked(u, a);
    AtGives(t, a, Handling);
    OnwardTrans(s, u, t);
  }

  /**
   For every graph whose other nodes can be executed there is a run in which the nameless node above `n`, but not
   directly above it, is executed again while `n` is ready.
   */
  lemma {:induction false} NamelessRunsAgain(runId: string, g: seq<Node>, registry: map<string, Compensation>,
      limits: Bulkhead.Limits, answers: Answers, a: Id, n: Id) returns (run: seq<State>, s: State)
    requires Valid(g) && OthersPlay(g, limits, answers, n) && Stranded(Deps(g), a, n)
    ensures IsRun(run) && run[|run| - 1] == s && Of(s, g, limits, registry) && At(s, a, Handling)
    ensures n in s.core.status && s.core.status[n] == Ready && s.core.status[a] == Running
  {
    hide Good, Init, Reaches, Admits, Executes, Deps, ById, Ancestor, Edge, IsRun, Valid, Onward, Smooth, At, Beside,
      Calls, Plays;
    var first, t := ComeBeside(runId, g, registry, limits, answers, a, n);
    BesidePlays(t, g, limits, answers, a, n);
    s := NamelessHandles(t, a, n);
    UnsetOnward(t, s);
    OnwardReaches(t, s);
    ReachesTrans(first, t, s);
    run := RunTo(first, s);
  }

  lemma {:induction false} BesidePlays(s: State, g: seq<Node>, limits: Bulkhead.Limits, answers: Answers, a: Id, n: Id)
    requires Beside(s, a, n) && s.core.graph == g && OthersPlay(g, limits, answers, n)
    ensures a in ById(g) && a in answers && Executes(ById(g)[a], answers[a]) && Calls(ById(g)[a])
            && Admits(limits, g, a)
  {
    hide Good, Admits, ById, InputRef, NotChosen, Sound;
    GoodGives(s);
    SoundKnows(s, a);
    assert Plays(g, limits, answers, a);
  }

  /** The conditional `n` has its source, and skipping what it did not choose throws. */
  ghost predicate BranchThrows(s: State, step: Step, n: Id, cond: Condition, source: NodeResult) {
    Decides(s, step, n, cond, source) && SkipAll(s.core, NotChosen(cond, source)).threw
  }

  /**
   If that node is a conditional whose condition, with the new result of its handler, does not choose `n`, skipping `n`
   throws.
   */
  lemma {:induction false} NamelessBranchThrows(runId: string, g: seq<Node>, registry: map<string, Compensation>,
      limits: Bulkhead.Limits, answers: Answers, a: Id, n: Id, result: NodeResult, error: string, guard: Guard)
      returns (run: seq<State>)
    requires Valid(g) && OthersPlay(g, limits, answers, n) && Stranded(Deps(g), a, n)
    requires a in ById(g) && ById(g)[a].kind.Conditional? && ById(g)[a].condition.Some?
    requires n in NotChosen(ById(g)[a].condition.value, result)
    ensures IsRun(run) && Of(run[|run| - 1], g, limits, registry)
    ensures BranchThrows(run[|run| - 1], HandlerReturns(a, Some(result), error, guard), a, ById(g)[a].condition.value,
                         result)
  {
    hide Good, OthersPlay, Deps, ById, Ancestor, Edge, IsRun, Valid, NotChosen, SkipAll, Inv, Sound, At;
    var s: State;
    run, s := NamelessRunsAgain(runId, g, registry, limits, answers, a, n);
    AtGives(s, a, Handling);
    GoodGives(s);
    ReadyCannotSkip(s.core, NotChosen(ById(g)[a].condition.value, result), n);
  }

  /** While `a` is being executed, skipping `n` never throws. */
  ghost predicate AlwaysSkips(g: seq<Node>, limits: Bulkhead.Limits, registry: map<string, Compensation>, a: Id,
      n: Id) {
    forall run: seq<State>, i | IsRun(run) && 0 <= i < |run| && Of(run[i], g, limits, registry) && Runs(run[i], a) ::
      !SkipNode(run[i].core, n).threw
  }

  ghost predicate Runs(s: State, a: Id) {
    Listed(s.core) && a in s.core.status && s.core.status[a] == Running
  }

  /**
   In a graph whose other nodes can be executed, a node below `a` can be skipped in every run while `a` is being
   executed if and only if `a` has a name or the node directly depends on it.
   */
  lemma {:induction false} SkipsExactly(g: seq<Node>, registry: map<string, Compensation>, limits: Bulkhead.Limits,
      answers: Answers, a: Id, n: Id)
    requires Valid(g) && OthersPlay(g, limits, answers, n) && Ancestor(Deps(g), a, n)
    ensures AlwaysSkips(g, limits, registry, a, n) <==> Below(Deps(g), a, n)
  {
    hide IsRun, OthersPlay, Deps, ById, Ancestor, Edge, Valid, Good, Inv, SkipNode, At;
    if Below(Deps(g), a, n) {
      forall run: seq<State>, i | IsRun(run) && 0 <= i < |run| && Of(run[i], g, limits, registry) && Runs(run[i], a)
        ensures !SkipNode(run[i].core, n).threw
      {
        RunsAreGood(run, i);
        GoodGives(run[i]);
        BelowSkips(run[i].core, a, n);
      }
    } else {
      var run, s := NamelessRunsAgain("", g, registry, limits, answers, a, n);
      RunNotEmpty(run);
      AtGives(s, a, Handling);
      GoodGives(s);
      var last := |run| - 1;
      assert Runs(run[last], a);
      ReadyThrows(s.core, n);
    }
  }

  lemma {:induction false} ReadyThrows(c: Core, n: Id)
    requires Listed(c) && n in c.status && c.status[n] == Ready
    ensures SkipNode(c, n).threw
  {}

  lemma {:induction false} BelowSkips(c: Core, a: Id, n: Id)
    requires Inv(c) && Listed(c) && a in c.status && c.status[a] == Running && Below(Deps(c.graph), a, n)
    ensures !SkipNode(c, n).threw
  {
    hide Inv, SkipNode, Below, Quiet;
    SkipNodeKeeps(c, n);
    if n in c.status { DescendantIsIdle(c, a, n); }
  }

  /* ---------- compensation out of order ---------- */

  /** The nameless node is completed again, and stands last in the completion order; `n` is ready and its job waits. */
  lemma {:induction false} NamelessAgain(s: State, answers: Answers, a: Id, n: Id) returns (t: State)
    requires Beside(s, a, n) && OthersPlay(s.core.graph, s.limits, answers, n)
    ensures Onward(s, t) && t.core.completionOrder == s.core.completionOrder + [a] && HasJob(t, n) && AllIdle(t.workers)
    ensures n in t.core.status && t.core.status[n] == Ready
  {
    hide Good, ReadyList, Onward, Admits, SlotOf, Bulkhead.CanEverAdmit, HasJob, ById, Executes, OthersPlay, Deps,
      Outcome;
    BesidePlays(s, s.core.graph, s.limits, answers, a, n);
    GoodKeys(s);
    ReadyMembers(s.core.graph, s.core.status, a);
    ReadyMembers(s.core.graph, s.core.status, n);
    assert a in Deps(s.core.graph).Keys && n in Deps(s.core.graph).Keys;
    var u := RoundAndJob(s, a);
    UnsetOnward(s, u);
    AdmitsSeat(u, a);
    var k: nat;
    t, k := Executed(u, a, answers[a]);
    SameQueue(u, t, n);
    OnwardTrans(s, u, t);
  }

  lemma {:induction false} SameQueue(s: State, t: State, n: Id)
    requires t.queue == s.queue && HasJob(s, n)
    ensures HasJob(t, n)
  {}

  /** The job of a ready node is taken, and its handler runs. */
  lemma {:induction false} QueuedHandles(s: State, n: Id) returns (t: State)
    requires Good(s) && !s.cancelled && HasJob(s, n) && AllIdle(s.workers)
    requires n in s.core.status && s.core.status[n] == Ready && Admits(s.limits, s.core.graph, n)
    requires n in ById(s.core.graph) && Calls(ById(s.core.graph)[n])
    ensures Onward(s, t) && At(t, n, Handling) && t.core.completionOrder == s.core.completionOrder
    ensures t.core.status[n] == Running
  {
    hide Good, Onward, Admits, SlotOf, Bulkhead.CanEverAdmit, At, ById, Calls, Moves;
    var job :| job in s.queue && job.nodeId == n;
    var u := JobTaken(s, job);
    UnsetOnward(s, u);
    AdmitsSeat(u, n);
    var v := BeginsNode(u, n);
    UnsetOnward(u, v);
    AtGives(v, n, Started);
    t := Invoked(v, n);
    OnwardTrans(s, u, v);
    OnwardTrans(s, v, t);
  }

  /** The execution of a node fails for good and is to be undone. */
  lemma {:induction false} FailIs(s: State, n: Id)
    requires Sound(s) && n in s.frames && s.frames[n].pc.Handling? && n in s.core.status && s.core.status[n] == Running
    requires Undoable(s.registry, DefOf(s, n)) && n in s.core.failures
    ensures FrameStep(s, HandlerReturns(n, None, "", Guard(true, false))) ==
              Some(Goto(s, n, Move(Counted(s, n).core, n, Compensating, NodeCompensating(n)), Undoing))
  {
    hide ById, Listed, Undoable, FailNode, Goto, Move;
    CountedSound(s, n);
    GivesUp(Counted(s, n), n);
    assert FailAttempt(s, n, "", Guard(true, false)) == FailNode(Counted(s, n), n, false);
    SameGoto(s, Counted(s, n), n, Move(Counted(s, n).core, n, Compensating, NodeCompensating(n)));
  }

  lemma {:induction false} SameGoto(s: State, t: State, n: Id, c: Core)
    requires n in s.frames && t == s.(core := t.core)
    ensures Goto(t, n, c, Undoing) == Goto(s, n, c, Undoing)
  {}

  lemma {:induction false} GivesUp(s: State, n: Id)
    requires Sound(s) && n in s.frames && s.core.status[n] == Running && Undoable(s.registry, DefOf(s, n))
    ensures FailNode(s, n, false) == Goto(s, n, Move(s.core, n, Compensating, NodeCompensating(n)), Undoing)
  {
    hide Sound, ById, Undoable, Goto, Move;
  }


  lemma {:induction false} HandlerFails(s: State, n: Id) returns (t: State)
    requires At(s, n, Handling) && s.core.status[n] == Running && Undoable(s.registry, ById(s.core.graph)[n])
    ensures Onward(s, t) && At(t, n, Undoing) && t.core.completionOrder == s.core.completionOrder
    ensures t.core.status == s.core.status[n := Compensating]
  {
    hide Good, Sound, FrameStep, Onward, ById, At, Undoable;
    AtGives(s, n, Handling);
    CountedSound(s, n);
    FailIs(s, n);
    var c := Move(Counted(s, n).core, n, Compensating, NodeCompensating(n));
    GoesTo(s, n, Handling, HandlerReturns(n, None, "", Guard(true, false)), c, Undoing);
    t := Goto(s, n, c, Undoing);
  }

  lemma {:induction false} PassBegins(s: State, n: Id) returns (t: State)
    requires At(s, n, Undoing)
    ensures Onward(s, t) && At(t, n, UndoingUpstream(Reverse(s.core.completionOrder), 0, []))
    ensures t.core.status == s.core.status[n := RolledBack]
  {
    hide Good, Sound, Onward, ById, At, Reverse;
    AtGives(s, n, Undoing);
    var c, pc := Move(s.core, n, RolledBack, NodeRolledBack(n)),
      UndoingUpstream(Reverse(s.core.completionOrder), 0, []);
    assert FrameStep(s, UndoSelf(n)) == Some(Goto(s, n, c, pc));
    GoesTo(s, n, Undoing, UndoSelf(n), c, pc);
    t := Goto(s, n, c, pc);
  }

  /** A pass that undoes at `n` has come to its position `k`. */
  ghost predicate Walks(s: State, n: Id, pass: seq<Id>, k: nat) {
    && n in s.frames && At(s, n, s.frames[n].pc) && s.frames[n].pc.UndoingUpstream? && s.frames[n].pc.pass == pass
    && s.frames[n].pc.next == k
  }

  lemma {:induction false} TurnGoes(s: State, n: Id) returns (c: Core, pc: Pc)
    requires Sound(s) && n in s.frames && s.frames[n].pc.UndoingUpstream?
    requires s.frames[n].pc.next < |s.frames[n].pc.pass|
    ensures FrameStep(s, UndoNext(n)) == Some(Goto(s, n, c, pc)) && c.graph == s.core.graph && s.core.log <= c.log
    ensures c.status == s.core.status
    ensures pc.UndoingUpstream? && pc.pass == s.frames[n].pc.pass && pc.next == s.frames[n].pc.next + 1
  {
    hide Sound, Undoable, DefOf, Goto;
    var turn := s.frames[n].pc;
    var id := turn.pass[turn.next];
    if id in s.core.status { SoundKnows(s, id); }
    if id == n || id !in s.core.status || s.core.status[id] != Completed || !Undoable(s.registry, DefOf(s, id)) {
      c, pc := s.core, turn.(next := turn.next + 1);
    } else {
      c, pc := Compensated(s.core, id), turn.(next := turn.next + 1, undone := turn.undone + [id]);
    }
  }

  /** The rest of the pass is walked. */
  lemma {:induction false} PassWalked(s: State, n: Id, pass: seq<Id>, k: nat) returns (t: State)
    requires Good(s) && Walks(s, n, pass, k) && k <= |pass|
    ensures Onward(s, t) && Walks(t, n, pass, |pass|)
    decreases |pass| - k
  {
    hide Good, Sound, FrameStep, Onward, At, Reaches;
    if k == |pass| {
      t := s;
      ReachesSelf(s);
      OnwardSelf(s);
    } else {
      AtGives(s, n, s.frames[n].pc);
      var c, pc := TurnGoes(s, n);
      GoesTo(s, n, s.frames[n].pc, UndoNext(n), c, pc);
      var u := Goto(s, n, c, pc);
      UnsetOnward(s, u);
      AtGives(u, n, pc);
      t := PassWalked(u, n, pass, k + 1);
      OnwardTrans(s, u, t);
    }
  }

  /** A node that fails for good undoes what its pass lists. */
  lemma {:induction false} FailureUndoes(s: State, n: Id) returns (t: State)
    requires At(s, n, Handling) && s.core.status[n] == Running && Undoable(s.registry, ById(s.core.graph)[n])
    ensures Onward(s, t) && Walks(t, n, Reverse(s.core.completionOrder), |Reverse(s.core.completionOrder)|)
  {
    hide Good, Onward, At, ById, Undoable, Reverse;
    AtGives(s, n, Handling);
    var u := HandlerFails(s, n);
    UnsetOnward(s, u);
    var v := PassBegins(u, n);
    UnsetOnward(u, v);
    AtGives(v, n, UndoingUpstream(Reverse(u.core.completionOrder), 0, []));
    t := PassWalked(v, n, Reverse(s.core.completionOrder), 0);
    OnwardTrans(s, u, v);
    OnwardTrans(s, v, t);
  }

  /** What a finished pass has undone is its plan. */
  lemma {:induction false} WalkedIsPlan(s: State, n: Id, pass: seq<Id>)
    requires Walks(s, n, pass, |pass|)
    ensures s.frames[n].pc.undone == UndoPlan(s.registry, s.core.graph, n, pass)
  {
    hide Good, At, UndoPlan, AttemptsOk, NodesOk, BatchOk, LayersOk, Lists, Reverse;
    AtGives(s, n, s.frames[n].pc);
    GoodLists(s);
    assert PassOk(s, n, s.frames[n].pc);
    assert pass[..|pass|] == pass;
  }

  lemma {:induction false} PlanOfFirst(s: State, n: Id, a: Id, rest: seq<Id>)
    requires ToUndo(s, n, a)
    ensures UndoPlan(s.registry, s.core.graph, n, [a] + rest) == [a] + UndoPlan(s.registry, s.core.graph, n, rest)
  {
    hide Undoable, ById;
    var pass := [a] + rest;
    if rest == [] {
      assert pass[..|pass| - 1] == [] && pass[|pass| - 1] == a;
      assert UndoPlan(s.registry, s.core.graph, n, []) == [];
    } else {
      var last := |rest| - 1;
      PlanOfFirst(s, n, a, rest[..last]);
      assert pass[..|pass| - 1] == [a] + rest[..last] && pass[|pass| - 1] == rest[last];
    }
  }

  /** The pass of `n` has undone `a` before `b`. */
  ghost predicate UndoneBefore(s: State, n: Id, a: Id, b: Id) {
    && n in s.frames && s.frames[n].pc.UndoingUpstream?
    && exists i, j :: 0 <= i < j < |s.frames[n].pc.undone| && s.frames[n].pc.undone[i] == a
                      && s.frames[n].pc.undone[j] == b
  }

  lemma {:induction false} WalkedInOrder(s: State, n: Id, order: seq<Id>, a: Id, b: Id)
    requires Walks(s, n, Reverse(order + [a]), |Reverse(order + [a])|) && b in order
    requires ToUndo(s, n, a) && ToUndo(s, n, b)
    ensures UndoneBefore(s, n, a, b)
  {
    hide At, UndoPlan, ToUndo;
    var pass := Reverse(order + [a]);
    assert (order + [a])[..|order|] == order;
    assert pass == [a] + Reverse(order);
    WalkedIsPlan(s, n, pass);
    PlanOfFirst(s, n, a, Reverse(order));
    ReverseMembers(order, b);
    PlanMembers(s, n, Reverse(order), b);
    var plan := UndoPlan(s.registry, s.core.graph, n, Reverse(order));
    var j :| 0 <= j < |plan| && plan[j] == b;
    var undone := s.frames[n].pc.undone;
    assert undone == [a] + plan && undone[0] == a && undone[j + 1] == b;
  }

  /**
   The case in point: `b` depends on `a`, and `n` on `b` but not directly on `a`; all three can be undone, and `n` calls
   a handler.
   */
  ghost predicate UndoCase(g: seq<Node>, registry: map<string, Compensation>, a: Id, b: Id, n: Id) {
    && Ancestor(Deps(g), a, b) && Ancestor(Deps(g), b, n) && !Edge(Deps(g), n, a)
    && a in ById(g) && b in ById(g) && n in ById(g) && Calls(ById(g)[n])
    && Undoable(registry, ById(g)[a]) && Undoable(registry, ById(g)[b]) && Undoable(registry, ById(g)[n])
  }

  /** What has a name and stands above a ready node is in the completion order. */
  lemma {:induction false} AboveInOrder(s: State, b: Id, n: Id)
    requires Good(s) && n in s.core.status && s.core.status[n] == Ready && Ancestor(Deps(s.core.graph), b, n)
             && Named(b)
    ensures b in s.core.completionOrder
  {
    hide Good, Inv, Deps, Ancestor;
    GoodGives(s);
    AncestorsDone(s.core, b, n);
    OrderListsCompleted(s.core, b);
  }

  lemma {:induction false} CaseIsStranded(s: State, g: seq<Node>, registry: map<string, Compensation>, a: Id, b: Id,
      n: Id)
    requires Good(s) && s.core.graph == g && UndoCase(g, registry, a, b, n) && !Named(a)
    ensures Stranded(Deps(g), a, n) && Named(b) && a != n && b != n
  {
    hide Good, Ancestor, Edge, Deps, ById, Undoable;
    AncestorTransitive(Deps(g), a, b, n);
    AncestorKnown(s, a, b);
    AncestorKnown(s, a, n);
    AncestorKnown(s, b, n);
    OneNameless(a, b);
  }

  lemma {:induction false} CaseToUndo(s: State, g: seq<Node>, registry: map<string, Compensation>, a: Id, b: Id, n: Id)
    requires s.core.graph == g && s.registry == registry && UndoCase(g, registry, a, b, n) && a != n && b != n
    ensures ToUndo(s, n, a) && ToUndo(s, n, b)
  {
    hide Ancestor, Edge, Deps, ById, Undoable, Calls;
  }

  /** From the restart on: the nameless node completes, the other fails, and its pass is walked. */
  lemma {:induction false} UndoesNamelessFirst(s: State, answers: Answers, a: Id, b: Id, n: Id) returns (t: State)
    requires Beside(s, a, n) && OthersPlay(s.core.graph, s.limits, answers, n) && Admits(s.limits, s.core.graph, n)
    requires UndoCase(s.core.graph, s.registry, a, b, n) && !Named(a)
    ensures Onward(s, t) && UndoneBefore(t, n, a, b)
  {
    hide Good, Onward, OthersPlay, Admits, At, ById, Ancestor, Edge, Deps, Undoable, Calls, HasJob, AllIdle, Reverse,
      Walks, UndoneBefore, ToUndo;
    CaseIsStranded(s, s.core.graph, s.registry, a, b, n);
    AboveInOrder(s, b, n);
    var u := NamelessAgain(s, answers, a, n);
    UnsetOnward(s, u);
    var v := QueuedHandles(u, n);
    UnsetOnward(u, v);
    t := FailureUndoes(v, n);
    UnsetOnward(v, t);
    OnwardTrans(s, u, v);
    OnwardTrans(s, v, t);
    CaseToUndo(t, t.core.graph, t.registry, a, b, n);
    WalkedInOrder(t, n, s.core.completionOrder, a, b);
  }

  /**
   For every graph whose other nodes can be executed there is a run in which the failed node's pass undoes the nameless
   node before the one that depends on it.
   */
  lemma {:induction false} NamelessUndoneFirst(runId: string, g: seq<Node>, registry: map<string, Compensation>,
      limits: Bulkhead.Limits, answers: Answers, a: Id, b: Id, n: Id) returns (run: seq<State>)
    requires Valid(g) && OthersPlay(g, limits, answers, n) && Admits(limits, g, n)
    requires UndoCase(g, registry, a, b, n) && !Named(a)
    ensures IsRun(run) && Of(run[|run| - 1], g, limits, registry) && UndoneBefore(run[|run| - 1], n, a, b)
  {
    hide Good, Init, Reaches, OthersPlay, Admits, Deps, Ancestor, Edge, IsRun, Valid, Onward, UndoCase, Beside,
      UndoneBefore;
    var start := RunBegins(runId, g, registry, limits);
    CaseIsStranded(start, g, registry, a, b, n);
    var s, t := ComeBeside(runId, g, registry, limits, answers, a, n);
    var u := UndoesNamelessFirst(t, answers, a, b, n);
    UnsetOnward(t, u);
    OnwardReaches(t, u);
    ReachesTrans(s, t, u);
    run := RunTo(s, u);
  }

  /** In no run does a pass of `n` undo `a` before `b`. */
  ghost predicate NeverUndoneBefore(g: seq<Node>, limits: Bulkhead.Limits, registry: map<string, Compensation>, a: Id,
      b: Id, n: Id)
  {
    forall run: seq<State>, i | IsRun(run) && 0 <= i < |run| && Of(run[i], g, limits, registry) ::
      !UndoneBefore(run[i], n, a, b)
  }

  /**
   In a graph whose other nodes can be executed, a pass never undoes a node before one that depends on it if and only if
   the former has a name.
   */
  lemma {:induction false} UndoneInOrderExactly(g: seq<Node>, registry: map<string, Compensation>,
      limits: Bulkhead.Limits, answers: Answers, a: Id, b: Id, n: Id)
    requires Valid(g) && OthersPlay(g, limits, answers, n) && Admits(limits, g, n) && UndoCase(g, registry, a, b, n)
    ensures NeverUndoneBefore(g, limits, registry, a, b, n) <==> Named(a)
  {
    hide IsRun, OthersPlay, Deps, ById, Ancestor, Edge, Valid, Admits, Undoable, Calls;
    if Named(a) {
      forall run: seq<State>, i | IsRun(run) && 0 <= i < |run| && Of(run[i], g, limits, registry)
        ensures !UndoneBefore(run[i], n, a, b)
      {
        if UndoneBefore(run[i], n, a, b) {
          var undone := run[i].frames[n].pc.undone;
          var p, q :| 0 <= p < q < |undone| && undone[p] == a && undone[q] == b;
          DependentsFirst(run, i, n, p, q);
        }
      }
    } else {
      var run := NamelessUndoneFirst("", g, registry, limits, answers, a, b, n);
      RunNotEmpty(run);
      var last := |run| - 1;
      assert IsRun(run) && Of(run[last], g, limits, registry) && UndoneBefore(run[last], n, a, b);
    }
  }
}
