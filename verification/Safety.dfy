/** What holds in every reachable state of every run: recovery, dependencies, single execution, layers. */
module Safety {
  import opened Wrappers
  import opened WorkflowTypes
  import opened NodeMachine
  import opened Graph
  import opened Layers
  import opened WorkflowLog
  import opened WorkflowCore
  import opened CoreInvariant
  import opened Recovery
  import opened Conditions
  import opened Machine
  import opened MachineInvariant
  import opened MachineSteps
  import opened WorkerSteps
  import opened Restart

  /* ---------- the log across crashes ---------- */

  /** Once the log has finished a node with a name, no later event of the log moves it, whichever process wrote it. */
  lemma {:induction false} NothingAfterFinish(g: seq<Node>, log: seq<Event>, a: nat, b: nat)
    requires LogOk(g, log) && 1 <= a < b < |log|
    requires Replayed(log[a]) && Terminal(Effect(log[a]).value) && Effect(log[b]).Some?
    ensures log[b].nodeId != log[a].nodeId
  {
    var n := log[a].nodeId;
    LogPrefix(g, log, b);
    assert log[..a + 1][..a] == log[..a] && log[..b][..a + 1] == log[..a + 1];
    assert SnapOf(Snaps(log[..a + 1]), n).status == Effect(log[a]).value;
    FinishedStays(g, log[..b], a + 1, n);
    LogLegalAt(g, log, b);
  }

  /**
   In the whole log of a run, restarts included, a node with a name has at most one completion, and after it no event
   that starts, fails, retries, skips, undoes or cancels the node.
   */
  lemma {:induction false} CompletedOnceForAll(run: seq<State>, i: nat, a: nat, b: nat)
    requires IsRun(run) && i < |run| && a < b < |run[i].core.log| && run[i].core.log[a].NodeCompleted?
    ensures var log := run[i].core.log; Named(log[a].nodeId) && Effect(log[b]).Some? ==> log[b].nodeId != log[a].nodeId
  {
    hide Good, IsRun, Inv, Valid, LogOk, Snaps, Sound;
    var c := run[i].core;
    RunsAreGood(run, i);
    GoodGives(run[i]);
    InvLogged(c);
    LogHead(c.graph, c.log);
    if Named(c.log[a].nodeId) && Effect(c.log[b]).Some? { NothingAfterFinish(c.graph, c.log, a, b); }
  }

  /** Whatever has begun has every node with a name above it completed. */
  lemma {:induction false} AncestorsDone(c: Core, a: Id, n: Id)
    requires Inv(c) && n in c.status && Begun(c.status[n]) && Ancestor(Deps(c.graph), a, n) && Named(a)
    ensures a in c.status && c.status[a] == Completed
  {
    hide Inv, DepSafe, Ancestor, SkipClosed, KnownDeps, Acyclic, Deps, OrderOk;
    InvDeps(c);
    var d := AncestorSplits(Deps(c.graph), a, n);
    assert a in NamedAbove(Deps(c.graph), n);
    assert a in CompletedSet(c.status);
  }

  /** Of the nodes above `n`, exactly those with a name are completed. */
  ghost predicate NamedCompleted(r: Rel, st: Statuses, n: Id) {
    forall a | Ancestor(r, a, n) :: a in st && (st[a] == Completed <==> Named(a))
  }

  /**
   Crash anywhere, any number of times: from every prefix of a reachable log hydration succeeds and restores what the
   prefix marks as finished exactly for the nodes with a name. Of the nodes above one restored as completed, exactly
   those with a name are restored as completed.
   */
  lemma {:induction false} RecoversExactly(run: seq<State>, i: nat, kept: nat, n: Id)
    requires IsRun(run) && i < |run| && 1 <= kept <= |run[i].core.log| && n in run[i].core.status
    ensures var log, g := run[i].core.log[..kept], run[i].core.graph;
            && Hydrate(log).Some?
            && var c := Hydrate(log).value;
               && n in c.status && Recovers(g, c, log, n)
               && (c.status[n] == Completed ==> NamedCompleted(Deps(g), c.status, n))
  {
    hide Good, IsRun, Hydrate, LogOk, Valid, Inv, Deps, Recovers, NamedCompleted;
    var c := run[i].core;
    RunsAreGood(run, i);
    GoodGives(run[i]);
    InvLogged(c);
    InvListed(c);
    LogPrefix(c.graph, c.log, kept);
    HydrateExact(c.graph, c.log[..kept], n);
    HydrateKeeps(c.graph, c.log[..kept]);
    if Hydrate(c.log[..kept]).value.status[n] == Completed {
      RecoveredAncestors(c.graph, c.log[..kept], n);
    }
  }

  lemma {:induction false} RecoveredAncestors(g: seq<Node>, log: seq<Event>, n: Id)
    requires Valid(g) && LogOk(g, log) && Hydrate(log).Some?
    requires Inv(Hydrate(log).value) && Hydrate(log).value.graph == g
    requires n in Hydrate(log).value.status && Hydrate(log).value.status[n] == Completed
    ensures NamedCompleted(Deps(g), Hydrate(log).value.status, n)
  {
    hide Hydrate, LogOk, Valid, Inv, Deps, Recovers, Ancestor, KnownDeps, DepSafe, AboveDone, SkipClosed, Acyclic,
      OrderOk;
    var d := Hydrate(log).value;
    InvDeps(d);
    forall a | Ancestor(Deps(g), a, n)
      ensures a in d.status && (d.status[a] == Completed <==> Named(a))
    {
      var child := AncestorSplits(Deps(g), a, n);
      if Named(a) { AncestorsDone(d, a, n); } else { NamelessLost(g, log, a); }
    }
  }

  lemma {:induction false} NamelessLost(g: seq<Node>, log: seq<Event>, a: Id)
    requires Valid(g) && LogOk(g, log) && a in Deps(g) && !Named(a)
    ensures Hydrate(log).Some? && a in Hydrate(log).value.status && Hydrate(log).value.status[a] != Completed
  {
    hide Hydrate, LogOk, Valid, Deps;
    HydrateExact(g, log, a);
  }

  lemma {:induction false} InvDeps(c: Core)
    requires Inv(c)
    ensures KnownDeps(Deps(c.graph)) && Acyclic(Deps(c.graph))
    ensures DepSafe(Deps(c.graph), c.status) && AboveDone(Deps(c.graph), c.status)
    ensures c.results.Keys == CompletedSet(c.status)
            && OrderOk(Deps(c.graph), CompletedSet(c.status), c.completionOrder)
    ensures SkipClosed(Deps(c.graph), c.status) && c.status.Keys == Deps(c.graph).Keys
  {}

  lemma {:induction false} BegunDeps(r: Rel, st: Statuses, n: Id, x: Id)
    requires DepSafe(r, st) && x in st && Begun(st[x]) && !Terminal(st[x]) && Edge(r, x, n)
    ensures n in st && st[n] == Completed
  {}

  /* ---------- dependencies ---------- */

  /**
   In every reachable state a node in any status but planned, skipped or cancelled has every node with a name above it
   completed, and a node being executed has all it depends on completed, named or not. The results are exactly those of
   the completed nodes.
   */
  lemma {:induction false} DependenciesHold(run: seq<State>, i: nat, n: Id, a: Id)
    requires IsRun(run) && i < |run|
    ensures run[i].core.results.Keys == CompletedSet(run[i].core.status)
    ensures var c, r := run[i].core, Deps(run[i].core.graph);
            || (n in c.status && Begun(c.status[n]) && Ancestor(r, a, n) && Named(a))
            || (n in run[i].frames && Edge(r, n, a)) ==>
              a in c.status && c.status[a] == Completed && a in c.results
  {
    hide Good, IsRun, Inv, DepSafe, AboveDone, Ancestor, SkipClosed, KnownDeps, Acyclic, Deps, OrderOk, FramesDone;
    var c, r := run[i].core, Deps(run[i].core.graph);
    RunsAreGood(run, i);
    GoodGives(run[i]);
    InvDeps(c);
    if n in run[i].frames && Edge(r, n, a) {
      GoodDone(run[i], n);
    } else if n in c.status && Begun(c.status[n]) && Ancestor(r, a, n) && Named(a) {
      AncestorsDone(c, a, n);
    }
    assert a in c.results <==> a in c.results.Keys;
  }

  lemma {:induction false} GoodDone(s: State, n: Id)
    requires Good(s) && n in s.frames
    ensures DepsDone(Deps(s.core.graph), s.core.status, n)
  {
    hide Inv, NodesOk, OwnersOk, AttemptsOk, PassesOk, WorkersOk, QueueOk, BatchOk, LayersOk, Promoted, Sound, FaultOk,
      SeatsOk, Deps, DepsDone;
  }

  /** The node `a` is a dependency of `n`, or has a name and stands above `n`. */
  ghost predicate Awaited(r: Rel, a: Id, n: Id) {
    Edge(r, n, a) || (Ancestor(r, a, n) && Named(a))
  }

  /** A reference to such a node, in an input or a condition, always resolves where an execution looks it up. */
  lemma {:induction false} ReferencesResolve(run: seq<State>, i: nat, n: Id)
    requires IsRun(run) && i < |run| && Sound(run[i]) && n in run[i].frames
    ensures var s := run[i]; var def, r := DefOf(s, n), Deps(s.core.graph);
            && (InputRef(def.input).Some? && Awaited(r, Id(InputRef(def.input).value), n) ==>
                  InputResolves(s.core.results, def))
            && (def.condition.Some? && Awaited(r, def.condition.value.when.nodeId, n) ==>
                  def.condition.value.when.nodeId in s.core.results)
  {
    hide IsRun, Inv, DepSafe, AboveDone, Ancestor, SkipClosed, KnownDeps, Acyclic, Deps, OrderOk, InputRef, Good, Begun,
      Flow;
    var s := run[i];
    RunsAreGood(run, i);
    GoodFlows(s);
    ExecutedHasBegun(s, n);
    var def := DefOf(s, n);
    if InputRef(def.input).Some? { DependenciesHold(run, i, n, Id(InputRef(def.input).value)); }
    if def.condition.Some? { DependenciesHold(run, i, n, def.condition.value.when.nodeId); }
  }

  lemma {:induction false} ExecutedHasBegun(s: State, n: Id)
    requires Flow(s) && n in s.frames
    ensures n in s.core.status && Begun(s.core.status[n]) && s.core.status[n] != Ready
  {
    hide OwnersOk, WorkersOk, QueueOk, BatchOk, LayersOk;
    NodesGive(s, n);
    PcBegun(s.frames[n].pc, s.core.status[n], SnapOf(Snaps(s.core.log), n).status);
  }

  /**
   In every reachable state no planned node depends on a skipped one, and skipping any node either throws at once, when
   the node is under way, and changes nothing, or succeeds and touches only that node and its dependents.
   */
  lemma {:induction false} SkipsAreClosed(run: seq<State>, i: nat, n: Id)
    requires IsRun(run) && i < |run|
    ensures SkipClosed(Deps(run[i].core.graph), run[i].core.status) && Listed(run[i].core)
    ensures var c, a := run[i].core, SkipNode(run[i].core, n);
            && (a.threw <==> n in c.status && c.status[n] != Planned && !Terminal(c.status[n]))
            && (a.threw ==> a.core == c)
            && SkipClosed(Deps(c.graph), a.core.status)
            && (forall x | x in c.status && a.core.status[x] != c.status[x] ::
                  c.status[x] == Planned && a.core.status[x] == Skipped && (x == n || Ancestor(Deps(c.graph), n, x)))
  {
    hide Good, IsRun, Inv, SkipNode, SkipClosed, Ancestor, Deps, Quiet;
    RunsAreGood(run, i);
    GoodGives(run[i]);
    InvDeps(run[i].core);
    SkipNodeKeeps(run[i].core, n);
    InvDeps(SkipNode(run[i].core, n).core);
  }

  /* ---------- single execution ---------- */

  lemma {:induction false} ListsEach(order: seq<Id>, members: set<Id>)
    requires Lists(order, members)
    ensures forall i, j | 0 <= i < j < |order| :: order[i] != order[j]
    ensures forall n :: n in order <==> n in members
    ensures |order| == |members|
  {
    if order != [] {
      var last, front := order[|order| - 1], order[..|order| - 1];
      ListsEach(front, members - {last});
      assert order == front + [last];
      forall i, j | 0 <= i < j < |order|
        ensures order[i] != order[j]
      {
        if j == |front| { assert front[i] in front; }
      }
    }
  }

  /**
   However often jobs are delivered and however workers interleave, a process starts executing each node at most once,
   starts only nodes it enqueued, and records each completion once.
   */
  lemma {:induction false} StartedAtMostOnce(run: seq<State>, i: nat)
    requires IsRun(run) && i < |run|
    ensures var s := run[i];
            && (forall a, b | 0 <= a < b < |s.started| :: s.started[a] != s.started[b])
            && (forall n :: n in s.started <==> n in s.frames)
            && (forall a, b | 0 <= a < b < |s.core.completionOrder| ::
                  s.core.completionOrder[a] != s.core.completionOrder[b])
            && (forall n :: n in s.core.completionOrder <==> n in s.core.results)
  {
    hide Good, IsRun, Inv, DepSafe, AboveDone, SkipClosed, KnownDeps, Acyclic, Deps, OrderOk, Lists;
    var s := run[i];
    RunsAreGood(run, i);
    GoodGives(s);
    GoodLists(s);
    ListsEach(s.started, s.frames.Keys);
    InvDeps(s.core);
    OrderPositions(Deps(s.core.graph), CompletedSet(s.core.status), s.core.completionOrder);
    assert forall n :: n in s.core.results <==> n in s.core.results.Keys;
  }

  lemma {:induction false} GoodLists(s: State)
    requires Good(s)
    ensures Lists(s.started, s.frames.Keys) && RoundsOk(s) && s.issued.Keys <= s.core.status.Keys
    ensures AttemptsOk(s) && PassesOk(s) && LayersOk(s) && BatchOk(s) && NodesOk(s)
  {
    hide Inv, NodesOk, OwnersOk, AttemptsOk, PassesOk, WorkersOk, BatchOk, LayersOk, Promoted, Lists;
  }

  /* ---------- rounds, attempts and layers ---------- */

  /**
   A process begins at most as many rounds as there are nodes, and an execution that began at attempt `start` makes at
   most max(1, maxAttempts - start + 1) attempts.
   */
  lemma {:induction false} BoundedWork(run: seq<State>, i: nat, n: Id)
    requires IsRun(run) && i < |run|
    ensures |run[i].batches| <= |run[i].core.graph|
    ensures var s := run[i];
            n in s.frames && n in ById(s.core.graph) ==>
              s.frames[n].runs <= Max(1, Retry.PolicyOf(DefOf(s, n)).maxAttempts - s.frames[n].start + 1)
  {
    hide Good, IsRun, Inv, Retry.PolicyOf, PassesOk, LayersOk, BatchOk, NodesOk, Lists, Deps;
    var s := run[i];
    RunsAreGood(run, i);
    GoodGives(s);
    GoodLists(s);
    InvListed(s.core);
    SubsetSize(s.issued.Keys, s.core.status.Keys);
    DepsSize(s.core.graph);
    if n in s.frames && n in ById(s.core.graph) {
      assert AttemptOk(s.frames[n], Retry.PolicyOf(DefOf(s, n)).maxAttempts);
    }
  }

  /**
   In a first run without failure, skip or cancellation, the batches of ready nodes are, list for list, the layers of
   `topologicalLayers`; when such a run stops with everything completed, all layers have been run.
   */
  lemma {:induction false} BatchesFollowLayers(run: seq<State>, i: nat)
    requires IsRun(run) && i < |run| && run[i].firstRun && !run[i].cancelled && NoBad(run[i].core.status)
    ensures var s, layers := run[i], AllLayers(run[i].core.graph);
            && |s.batches| <= |layers|
            && (forall k | 0 <= k < |s.batches| :: s.batches[k] == NodeIds(layers[k]))
            && ((forall n | n in s.core.status :: s.core.status[n] == Completed) ==> |s.batches| == |layers|)
  {
    hide Good, IsRun, Inv, AttemptsOk, PassesOk, NodesOk, BatchOk, Lists, DoneAfter, NodeIds, LayerAt;
    var s := run[i];
    RunsAreGood(run, i);
    GoodGives(s);
    GoodLists(s);
    InvListed(s.core);
    var g, k := s.core.graph, |s.batches|;
    RoundsWithinLayers(s);
    forall j | 0 <= j < k
      ensures s.batches[j] == NodeIds(AllLayers(g)[j])
    {
      LayersAt(g, j);
    }
    if forall n | n in s.core.status :: s.core.status[n] == Completed { AllRounds(s); }
  }

  /** A round is begun only when its layer is not empty. */
  lemma {:induction false} RoundsWithinLayers(s: State)
    requires Good(s) && s.firstRun && !s.cancelled && NoBad(s.core.status)
    ensures |s.batches| <= |AllLayers(s.core.graph)|
  {
    hide Good, Inv, AttemptsOk, PassesOk, NodesOk, BatchOk, Lists, DoneAfter, NodeIds, LayerAt, Deps, AllLayers;
    GoodGives(s);
    GoodLists(s);
    InvListed(s.core);
    var g, k := s.core.graph, |s.batches|;
    if k > |AllLayers(g)| {
      LayersAt(g, k - 1);
      LayerEmpty(g, k - 1);
      assert s.batches[k - 1] != [];
      assert NodeIds(LayerAt(g, k - 1)) == s.batches[k - 1];
      EmptyNames(LayerAt(g, k - 1));
    }
  }

  lemma {:induction false} EmptyNames(ns: seq<Node>)
    ensures NodeIds(ns) == [] <==> ns == []
  {
    assert |NodeIds(ns)| == |ns|;
  }

  lemma {:induction false} AllRounds(s: State)
    requires Good(s) && s.firstRun && !s.cancelled && NoBad(s.core.status)
    requires forall n | n in s.core.status :: s.core.status[n] == Completed
    ensures |s.batches| >= |AllLayers(s.core.graph)|
  {
    hide Good, Inv, AttemptsOk, PassesOk, NodesOk, BatchOk, Lists, NodeIds, LayerAt, Deps, AllLayers, DoneAfter;
    GoodGives(s);
    GoodLists(s);
    InvListed(s.core);
    var g, k := s.core.graph, |s.batches|;
    forall n | n in Ids(g)
      ensures n in DoneAfter(Deps(g), k)
    {
      assert s.core.status[n] == Completed;
    }
    DoneAfterMonotone(Deps(g), k, k);
    if k < |AllLayers(g)| {
      LayersAt(g, k);
      LayerEmpty(g, k);
      LayersNotEmpty(g, k);
    }
  }

  lemma {:induction false} LayersNotEmpty(g: seq<Node>, k: nat)
    requires Valid(g) && k < |AllLayers(g)|
    ensures AllLayers(g)[k] != []
  {
    LayersFromNotEmpty(g, 0, k);
  }

  lemma {:induction false} LayersFromNotEmpty(g: seq<Node>, k: nat, j: nat)
    requires j < |LayersFrom(g, k)|
    ensures LayersFrom(g, k)[j] != []
    decreases j
  {
    if j > 0 { LayersFromNotEmpty(g, k + 1, j - 1); }
  }
}
