/**
 A run whose announced and reported status differ: a process is stopped while its cancellation is being logged, and the
 next one resumes from the part that survived.
 */
module StatusDisagreement {
  import opened Wrappers
  import opened WorkflowTypes
  import opened NodeMachine
  import opened Graph
  import opened Layers
  import opened WorkflowLog
  import opened WorkflowCore
  import opened CoreInvariant
  import opened Recovery
  import Bulkhead
  import opened Machine
  import opened MachineInvariant
  import opened MachineSteps
  import opened RoundSteps
  import opened Restart
  import opened Safety

  const FIRST := Id("a")
  const SECOND := Id("b")
  const ONE_JOB := Bulkhead.Limits(1, 1, 1, 1)

  /** Two actions, the second depending on the first. */
  function Chain(): seq<Node> {
    [Node(FIRST, Action, Some("x"), None, {}, None, None, None, None, None, None, None),
     Node(SECOND, Action, Some("y"), None, {FIRST}, None, None, None, None, None, None, None)]
  }

  lemma {:induction false} ChainDeps()
    ensures Deps(Chain()) == map[FIRST := {}, SECOND := {FIRST}]
    ensures UniqueIds(Chain())
  {
    var g := Chain();
    assert g[..1][..0] == [];
    assert g[..|g| - 1] == g[..1] && g[..1][..|g[..1]| - 1] == [];
    assert Deps(g[..1]) == map[FIRST := {}];
  }

  lemma {:induction false} ChainValid()
    ensures Valid(Chain())
  {
    ChainDeps();
    var r, order := Deps(Chain()), [FIRST, SECOND];
    assert order[..1] == [FIRST];
    OrderRulesOutCycles(r, order);
  }

  /** The state of a new run of the chain, before any cancellation. */
  lemma {:induction false} ChainStarts(c: Core)
    requires c == Promote(NewRun("r", Chain()), 0) && Listed(NewRun("r", Chain()))
    ensures c.graph == Chain() && c.status == map[FIRST := Ready, SECOND := Planned]
    ensures c.log == [Created("r", Chain()), NodeReady(FIRST)]
  {
    hide Deps, Transition;
    var g, n := Chain(), NewRun("r", Chain());
    ChainDeps();
    ByIdDeps(g);
    assert n.status == map[FIRST := Planned, SECOND := Planned];
    assert DepsDone(Deps(g), n.status, FIRST);
    var d := PromoteOne(n, FIRST);
    assert d.status == map[FIRST := Ready, SECOND := Planned];
    assert !DepsDone(Deps(g), d.status, SECOND);
    assert PromoteOne(d, SECOND) == d;
    assert Promote(n, 0) == Promote(d, 1) == Promote(d, 2) == d;
  }

  /** Cancelling the new run logs the cancellation of the first node first. */
  lemma {:induction false} ChainCancels(c: Core)
    requires Inv(c) && Listed(c) && c.graph == Chain() && c.status == map[FIRST := Ready, SECOND := Planned]
    requires c.log == [Created("r", Chain()), NodeReady(FIRST)]
    ensures |CancelAll(c).log| >= 3
    ensures CancelAll(c).log[..3] == c.log + [NodeCancelled(FIRST)]
  {
    hide Inv;
    var d := CancelOne(c, FIRST);
    CancelOneKeeps(c, FIRST);
    CancelFromKeeps(d, 1);
    assert CancelFrom(c, 0) == CancelFrom(d, 1);
    assert d.log <= CancelFrom(d, 1).log;
  }

  lemma {:induction false} SurvivorSnaps(log: seq<Event>)
    requires log == [Created("r", Chain()), NodeReady(FIRST), NodeCancelled(FIRST)]
    ensures SnapOf(Snaps(log), FIRST).status == Cancelled && SnapOf(Snaps(log), SECOND).status == Planned
  {
    SnapsAppend([], Created("r", Chain()));
    SnapsAppend([Created("r", Chain())], NodeReady(FIRST));
    SnapsAppend([Created("r", Chain()), NodeReady(FIRST)], NodeCancelled(FIRST));
    assert [] + [Created("r", Chain())] == [Created("r", Chain())];
    assert [Created("r", Chain())] + [NodeReady(FIRST)] == [Created("r", Chain()), NodeReady(FIRST)];
    assert [Created("r", Chain()), NodeReady(FIRST)] + [NodeCancelled(FIRST)] == log;
  }

  /** What the surviving prefix gives back: the first node cancelled, the second planned for ever. */
  lemma {:induction false} ChainResumes(log: seq<Event>)
    requires log == [Created("r", Chain()), NodeReady(FIRST), NodeCancelled(FIRST)] && LogOk(Chain(), log)
    ensures Hydrate(log).Some?
    ensures var st := Hydrate(log).value.status;
            st.Keys == {FIRST, SECOND} && st[FIRST] == Cancelled && st[SECOND] == Planned
  {
    hide LogOk, Valid, Hydrate, Inv, Ancestor, Snaps, Deps;
    ChainValid();
    ChainDeps();
    SurvivorSnaps(log);
    HydrateSnaps(Chain(), log, FIRST);
    HydrateSnaps(Chain(), log, SECOND);
    HydrateKeeps(Chain(), log);
    var c := Hydrate(log).value;
    InvListed(c);
    InvDeps(c);
    assert FIRST in Deps(Chain())[SECOND];
  }

  lemma {:induction false} PromotedGraph()
    requires Listed(NewRun("r", Chain())) && Inv(NewRun("r", Chain()))
    ensures Promote(NewRun("r", Chain()), 0).graph == Chain() && Promote(NewRun("r", Chain()), 0).runId == "r"
  {
    hide Inv, Promote;
    PromoteAll(NewRun("r", Chain()));
  }

  lemma {:induction false} StopIsStep(s: State)
    requires Sound(s) && s.driver.Between? && (s.cancelled || ReadyList(s.core.graph, s.core.status) == [])
    ensures Next(s, StopRun(s)) && StopRun(s).driver.Stopped?
  {
    hide Sound, ReadyList, FinalStatus, CancelAll;
    assert DriverStep(s, Stop) == Some(StopRun(s));
    assert StepTo(s, Stop, StopRun(s));
  }

  lemma {:induction false} StopGraph(s: State)
    requires Sound(s) && Inv(s.core)
    ensures StopRun(s).core.graph == s.core.graph && (!s.cancelled ==> StopRun(s).core.status == s.core.status)
    ensures s.cancelled ==> CancelAll(s.core).log <= StopRun(s).core.log
    ensures StopRun(s).registry == s.registry && StopRun(s).limits == s.limits
  {
    hide Inv, CancelAll, FinalStatus;
    ClosedKeeps(s.core, s.cancelled);
  }

  lemma {:induction false} NoReady(c: Core)
    requires c.status.Keys == {FIRST, SECOND} && c.status[FIRST] == Cancelled && c.status[SECOND] == Planned
    ensures ReadyList(c.graph, c.status) == []
  {
    if ReadyList(c.graph, c.status) != [] {
      ReadyMembers(c.graph, c.status, ReadyList(c.graph, c.status)[0]);
    }
  }

  lemma {:induction false} LastStatuses(st: Statuses)
    requires st.Keys == {FIRST, SECOND} && st[FIRST] == Cancelled && st[SECOND] == Planned
    ensures FinalStatus(st) == RunFailed && DerivedStatus(st) == RunCancelled
  {
    assert FIRST in st && SECOND in st;
    assert forall n | n in st :: n == FIRST || n == SECOND;
    assert AnyIs(st, {Cancelled});
  }

  /** A log that breaks off right after the first cancellation. */
  function Survivors(): seq<Event> {
    [Created("r", Chain()), NodeReady(FIRST), NodeCancelled(FIRST)]
  }

  /** The first process has just started, with cancellation already asked for. */
  lemma {:induction false} ChainInit() returns (s0: State)
    ensures Init(s0) && Good(s0) && s0.registry == map[] && s0.limits == ONE_JOB && s0.cancelled && s0.driver.Between?
    ensures s0.core.graph == Chain() && s0.core.status == map[FIRST := Ready, SECOND := Planned]
    ensures s0.core.log == [Created("r", Chain()), NodeReady(FIRST)]
  {
    hide Inv, Good, NewRun, Promote, Seeds, Valid;
    ChainValid();
    NewRunKeeps("r", Chain());
    InvListed(NewRun("r", Chain()));
    PromotedGraph();
    s0 := Boot(Promote(NewRun("r", Chain()), 0), map[], ONE_JOB, true, true);
    assert Init(s0);
    InitGood(s0);
    ChainStarts(s0.core);
  }

  lemma {:induction false} FirstProcess() returns (s0: State, s1: State)
    ensures Init(s0) && Next(s0, s1) && Good(s1) && s1.registry == map[] && s1.limits == ONE_JOB
    ensures s1.core.graph == Chain() && |s1.core.log| >= 3 && s1.core.log[..3] == Survivors()
  {
    hide Inv, Good, Sound, CancelAll, FinalStatus, ReadyList, Init, Next, StopRun, Chain;
    s0 := ChainInit();
    GoodGives(s0);
    s1 := StopRun(s0);
    StopIsStep(s0);
    NextKeeps(s0, s1);
    StopGraph(s0);
    ChainCancels(s0.core);
  }

  lemma {:induction false} SecondProcess(s1: State) returns (s2: State, s3: State)
    requires Good(s1) && s1.registry == map[] && s1.limits == ONE_JOB
    requires s1.core.graph == Chain() && |s1.core.log| >= 3 && s1.core.log[..3] == Survivors()
    ensures Next(s1, s2) && Next(s2, s3) && s3.driver.Stopped?
    ensures FinalStatus(s3.core.status) == RunFailed && DerivedStatus(s3.core.status) == RunCancelled
  {
    hide Inv, Good, Sound, FinalStatus, DerivedStatus, Hydrate, Seeds, Valid, LogOk, ReadyList, CancelAll;
    GoodGives(s1);
    InvLogged(s1.core);
    LogPrefix(s1.core.graph, s1.core.log, 3);
    ChainResumes(Survivors());
    s2 := Boot(Hydrate(Survivors()).value, map[], ONE_JOB, false, false);
    assert DriverStep(s1, Crash(3)) == Some(s2);
    assert StepTo(s1, Crash(3), s2);
    NextKeeps(s1, s2);
    GoodGives(s2);
    NoReady(s2.core);
    s3 := StopRun(s2);
    StopIsStep(s2);
    StopGraph(s2);
    LastStatuses(s3.core.status);
  }

  /**
   The run: start, cancel everything, lose all but the first cancellation to a crash, resume, stop. It announces failure
   and reports cancellation.
   */
  lemma {:induction false} StatusesCanDisagree() returns (run: seq<State>)
    ensures IsRun(run) && |run| == 4 && run[3].driver.Stopped?
    ensures FinalStatus(run[3].core.status) == RunFailed && DerivedStatus(run[3].core.status) == RunCancelled
  {
    hide Init, Next, Good, FinalStatus, DerivedStatus, Survivors;
    var s0, s1 := FirstProcess();
    var s2, s3 := SecondProcess(s1);
    run := [s0, s1, s2, s3];
  }
}
