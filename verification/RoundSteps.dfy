/** The drive loop: starting a round, whose batch is a layer of the graph, and stopping. */
module RoundSteps {
  import opened Wrappers
  import opened WorkflowTypes
  import opened NodeMachine
  import opened Graph
  import opened Layers
  import opened WorkflowLog
  import opened WorkflowCore
  import opened CoreInvariant
  import opened Keys
  import opened Retry
  import opened Machine
  import opened Seats
  import opened MachineInvariant
  import opened MachineSteps
  import opened WorkerSteps
  import opened DriverSteps

  /* ---------- the ready list ---------- */

  lemma {:induction false} ReadyMembers(g: seq<Node>, st: Statuses, n: Id)
    ensures n in ReadyList(g, st) <==> n in Deps(g) && n in st && st[n] == Ready
  {
    if g != [] {
      ReadyMembers(g[..|g| - 1], st, n);
    }
  }

  /** Where readiness and being enabled agree, the ready list is the next layer, in the same order. */
  lemma {:induction false} ReadyIsLayer(ns: seq<Node>, st: Statuses, done: set<Id>)
    requires forall i | 0 <= i < |ns| :: (ns[i].id in st && st[ns[i].id] == Ready) <==> Enabled(ns[i], done)
    ensures ReadyList(ns, st) == NodeIds(NextLayer(ns, done))
  {
    if ns != [] {
      var front, n := ns[..|ns| - 1], ns[|ns| - 1];
      ReadyIsLayer(front, st, done);
      if Enabled(n, done) {
        assert NodeIds(NextLayer(front, done) + [n]) == NodeIds(NextLayer(front, done)) + [n.id];
      }
    }
  }

  lemma {:induction false} DoneMeansReady(r: Rel, st: Statuses, done: set<Id>, n: Id)
    requires Delimited(st, done, done) && st.Keys == r.Keys && KnownDeps(r)
    requires n in r && r[n] <= done
    ensures DepsDone(r, st, n)
  {
    forall d | d in r[n]
      ensures d in st && st[d] == Completed
    {
      assert d in done;
    }
  }

  /** Between rounds, the ready nodes are exactly those the next full layer would take. */
  lemma {:induction false} ReadyIsEnabled(r: Rel, st: Statuses, done: set<Id>, n: Id)
    requires Delimited(st, done, done) && DepSafe(r, st) && Promoted(r, st) && st.Keys == r.Keys && KnownDeps(r)
    requires n in r
    ensures st[n] == Ready <==> n !in done && r[n] <= done
  {
    if st[n] == Ready {
      forall d | d in r[n]
        ensures d in done
      {
        assert d in st && st[d] == Completed;
      }
    }
    if r[n] <= done { DoneMeansReady(r, st, done, n); }
  }

  /** The batch a round of an undisturbed run starts is the layer with that round's index. */
  lemma {:induction false} BatchIsLayer(c: Core, k: nat)
    requires Inv(c) && Promoted(Deps(c.graph), c.status)
    requires Delimited(c.status, DoneAfter(Deps(c.graph), k), DoneAfter(Deps(c.graph), k))
    ensures ReadyList(c.graph, c.status) == NodeIds(LayerAt(c.graph, k))
    ensures forall n | n in Deps(c.graph) ::
              n in DoneAfter(Deps(c.graph), k + 1) <==>
                  n in DoneAfter(Deps(c.graph), k) || n in ReadyList(c.graph, c.status)
  {
    hide LogOk, OrderOk, Agrees, Delimited, Promoted, DepSafe, AboveDone;
    var r, done := Deps(c.graph), DoneAfter(Deps(c.graph), k);
    forall i | 0 <= i < |c.graph|
      ensures (c.graph[i].id in c.status && c.status[c.graph[i].id] == Ready) <==> Enabled(c.graph[i], done)
    {
      DepsAt(c.graph, i);
      ReadyIsEnabled(r, c.status, done, c.graph[i].id);
    }
    ReadyIsLayer(c.graph, c.status, done);
    DoneAfterMonotone(r, k, k + 1);
    forall n | n in r
      ensures n in DoneAfter(r, k + 1) <==> n in done || n in ReadyList(c.graph, c.status)
    {
      ReadyMembers(c.graph, c.status, n);
      ReadyIsEnabled(r, c.status, done, n);
    }
  }

  /* ---------- a round starts ---------- */

  lemma {:induction false} EnqueueKeeps(c: Core, ns: seq<Id>)
    requires Inv(c)
    ensures Inv(EnqueueAll(c, ns)) && Snaps(EnqueueAll(c, ns).log) == Snaps(c.log)
    ensures EnqueueAll(c, ns) == c.(log := EnqueueAll(c, ns).log)
    decreases |ns|
  {
    hide LogOk, OrderOk, DepSafe, AboveDone, SkipClosed, Static, Agrees, Snaps, InvSkipping;
    if ns != [] {
      var e := JobEnqueued(ns[0], if ns[0] in c.attempt then c.attempt[ns[0]] else 1);
      EmitKeeps(c, e);
      SnapsAppend(c.log, e);
      EnqueueKeeps(Emit(c, e), ns[1..]);
    }
  }

  lemma {:induction false} JobsCover(c: Core, ns: seq<Id>, n: Id)
    ensures n in ns ==> exists job :: job in JobsFor(c, ns) && job.nodeId == n
    ensures forall job | job in JobsFor(c, ns) :: job.nodeId in ns
  {
    if ns != [] {
      JobsCover(c, ns[1..], n);
      var first := Job(ns[0], if ns[0] in c.attempt then c.attempt[ns[0]] else 1);
      assert first in JobsFor(c, ns);
      if n in ns && n != ns[0] {
        var job :| job in JobsFor(c, ns[1..]) && job.nodeId == n;
        assert job in JobsFor(c, ns);
      }
    }
  }

  lemma {:induction false} JobsNumbered(c: Core, ns: seq<Id>)
    requires Numbered(c.attempt)
    ensures forall job | job in JobsFor(c, ns) :: job.attempt >= 1
    decreases |ns|
  {
    if ns != [] { JobsNumbered(c, ns[1..]); }
  }

  ghost predicate Opens(s: State, t: State, ready: seq<Id>) {
    && Flow(s) && s.driver.Between? && !s.cancelled && ready == ReadyList(s.core.graph, s.core.status) && ready != []
    && t == Round(s, ready)
    && Inv(s.core) && Promoted(Deps(s.core.graph), s.core.status)
    && Inv(t.core) && t.core == s.core.(log := t.core.log) && Snaps(t.core.log) == Snaps(s.core.log)
  }

  lemma {:induction false} OpenNodes(s: State, t: State, ready: seq<Id>)
    requires Opens(s, t, ready)
    ensures NodesOk(t)
  {
    hide ViewOk, OwnersOk, BatchOk, LayersOk, WorkersOk, SeatsOk, FaultOk, QueueOk, Inv, NodeKey, Sound, Promoted,
      ReadyList, EnqueueAll, JobsFor;
    forall n | n in t.core.status
      ensures ViewOk(ViewOf(t, n))
    {
      NodesGive(s, n);
      assert ViewOf(t, n) == ViewOf(s, n);
    }
  }

  lemma {:induction false} BetweenIdle(s: State)
    requires WorkersOk(s) && !s.driver.Dispatching?
    ensures forall w | w in s.workers :: w.Gone?
  {
    forall i | 0 <= i < |s.workers|
      ensures s.workers[i].Gone?
    {
      assert WorkerOk(s, s.workers[i]);
    }
  }

  lemma {:induction false} OpenWorkers(s: State, t: State, ready: seq<Id>)
    requires Opens(s, t, ready)
    ensures OwnersOk(t) && WorkersOk(t)
  {
    hide NodesOk, BatchOk, LayersOk, QueueOk, SeatsOk, FaultOk, Inv, NodeKey, Sound, Promoted, ReadyList, EnqueueAll,
      JobsFor;
    assert WorkersOk(s);
    BetweenIdle(s);
    NothingLive(s);
  }

  lemma {:induction false} OpenQueue(s: State, t: State, ready: seq<Id>)
    requires Opens(s, t, ready)
    ensures QueueOk(t)
  {
    hide NodesOk, OwnersOk, LayersOk, SeatsOk, FaultOk, Inv, NodeKey, Sound, Promoted, EnqueueAll, JobsFor, ReadyList,
      BatchOk, WorkersOk, Snaps;
    InvNumbered(s.core);
    JobsNumbered(s.core, ready);
    forall job | job in t.queue
      ensures job.nodeId in t.issued && job.attempt >= 1
    {
      JobsCover(s.core, ready, job.nodeId);
    }
    forall n | n in t.issued
      ensures n in t.core.status && IssuedOk(t, n) && t.issued[n] >= 1
    {
      ReadyMembers(s.core.graph, s.core.status, n);
      if n !in ready { assert IssuedOk(s, n); }
    }
  }

  lemma {:induction false} OpenBatch(s: State, t: State, ready: seq<Id>)
    requires Opens(s, t, ready)
    ensures BatchOk(t)
  {
    hide NodesOk, OwnersOk, LayersOk, SeatsOk, FaultOk, Inv, NodeKey, Sound, Promoted, EnqueueAll, JobsFor, ReadyList,
      BatchOk, WorkersOk, QueueOk, Flow, Queued, Held, Snaps;
    forall n | n in t.issued && n in t.core.status && t.core.status[n] == Ready
      ensures Queued(t, n)
    {
      OpenQueued(s, t, ready, n);
    }
    QueuedBatch(t);
  }

  lemma {:induction false} QueuedBatch(t: State)
    requires t.driver.Dispatching?
    requires forall n | n in t.issued && n in t.core.status && t.core.status[n] == Ready :: Queued(t, n)
    ensures BatchOk(t)
  {
    hide Queued;
  }

  lemma {:induction false} OpenQueued(s: State, t: State, ready: seq<Id>, n: Id)
    requires Opens(s, t, ready) && n in t.issued && n in t.core.status && t.core.status[n] == Ready
    ensures Queued(t, n)
  {
    hide NodesOk, OwnersOk, LayersOk, SeatsOk, FaultOk, NodeKey, Promoted, EnqueueAll, JobsFor, ReadyList, BatchOk,
      QueueOk, WorkersOk, InvSkipping, SkipClosed, ById;
    InvListed(s.core);
    ReadyMembers(s.core.graph, s.core.status, n);
    JobsCover(s.core, ready, n);
    var job :| job in JobsFor(s.core, ready) && job.nodeId == n;
    assert job in t.queue;
  }

  lemma {:induction false} OpenLayers(s: State, t: State, ready: seq<Id>)
    requires Opens(s, t, ready)
    ensures LayersOk(t)
  {
    hide NodesOk, OwnersOk, WorkersOk, QueueOk, BatchOk, SeatsOk, FaultOk, Sound, Inv, NodeKey, Promoted, EnqueueAll,
      JobsFor, ReadyList, NoBad, DoneAfter, LayerAt, Delimited;
    if t.firstRun && NoBad(t.core.status) {
      var r, k := Deps(s.core.graph), |s.batches|;
      BatchIsLayer(s.core, k);
      forall n
        ensures n in t.issued.Keys <==> n in DoneAfter(r, k + 1)
      {
        DoneAfterMonotone(r, k, k + 1);
        DoneAfterMonotone(r, k + 1, k + 1);
        ReadyMembers(s.core.graph, s.core.status, n);
      }
      assert t.issued.Keys == DoneAfter(r, k + 1);
      DelimitedWidens(s.core.status, r, k);
      BatchesExtend(s.core.graph, s.batches, ready);
    }
  }

  lemma {:induction false} DelimitedWidens(st: Statuses, r: Rel, k: nat)
    requires Delimited(st, DoneAfter(r, k), DoneAfter(r, k))
    ensures Delimited(st, DoneAfter(r, k), DoneAfter(r, k + 1))
  {
    DoneAfterMonotone(r, k, k + 1);
  }

  lemma {:induction false} BatchesExtend(g: seq<Node>, batches: seq<seq<Id>>, ready: seq<Id>)
    requires BatchesAreLayers(g, batches) && ready == NodeIds(LayerAt(g, |batches|))
    ensures BatchesAreLayers(g, batches + [ready])
  {
    hide NodeIds, LayerAt;
  }

  lemma {:induction false} OpenRest(s: State, t: State, ready: seq<Id>)
    requires Opens(s, t, ready) && AttemptsOk(s) && PassesOk(s)
    ensures AttemptsOk(t) && PassesOk(t)
  {
    hide NodesOk, BatchOk, LayersOk, OwnersOk, WorkersOk, QueueOk, SeatsOk, FaultOk, Inv, NodeKey, Sound, Promoted,
      PolicyOf, EnqueueAll, JobsFor, ReadyList;
    forall m | m in t.frames && m in ById(t.core.graph)
      ensures AttemptOk(t.frames[m], PolicyOf(DefOf(t, m)).maxAttempts)
    {
      assert AttemptOk(s.frames[m], PolicyOf(DefOf(s, m)).maxAttempts);
    }
    forall m | m in t.frames
      ensures PassOk(t, m, t.frames[m].pc)
    {
      assert PassOk(s, m, s.frames[m].pc);
    }
  }

  lemma {:induction false} OpenRounds(s: State, t: State, ready: seq<Id>)
    requires Opens(s, t, ready) && RoundsOk(s)
    ensures RoundsOk(t)
  {
    hide Flow, Inv, Promoted, JobsFor, ReadyList, Snaps, Round;
    OpenIssues(s, ready);
    RoundBatches(s, ready);
    MoreIssued(s.issued, t.issued, ready[0]);
  }

  lemma {:induction false} RoundBatches(s: State, ready: seq<Id>)
    ensures Round(s, ready).batches == s.batches + [ready] && s.issued.Keys <= Round(s, ready).issued.Keys
    ensures forall n | n in ready :: n in Round(s, ready).issued
  {
    hide EnqueueAll, JobsFor;
  }

  lemma {:induction false} MoreIssued(a: map<Id, int>, b: map<Id, int>, n: Id)
    requires a.Keys <= b.Keys && n in b && n !in a
    ensures |a| < |b|
  {
    assert a.Keys < b.Keys;
    SubsetSize(a.Keys, b.Keys);
    assert |a| == |a.Keys| && |b| == |b.Keys|;
  }

  lemma {:induction false} OpenIssues(s: State, ready: seq<Id>)
    requires Flow(s) && s.driver.Between? && !s.cancelled && ready == ReadyList(s.core.graph, s.core.status)
             && ready != []
    ensures ready[0] !in s.issued
  {
    hide NodesOk, LayersOk, OwnersOk, WorkersOk, QueueOk, NodeKey, Sound, ReadyList, SeatsOk;
    ReadyMembers(s.core.graph, s.core.status, ready[0]);
  }

  lemma {:induction false} OpenSound(s: State, t: State, ready: seq<Id>)
    requires Opens(s, t, ready)
    ensures Sound(t) && Inv(t.core) && Promoted(Deps(t.core.graph), t.core.status) && FaultOk(t)
    ensures t.started == s.started && t.frames == s.frames
  {
    hide NodesOk, OwnersOk, WorkersOk, QueueOk, BatchOk, SeatsOk, LayersOk, Promoted, EnqueueAll, JobsFor, ReadyList,
      InvSkipping;
    InvListed(t.core);
  }

  lemma {:induction false} OpenDone(s: State, t: State, ready: seq<Id>)
    requires Opens(s, t, ready) && FramesDone(s)
    ensures FramesDone(t)
  {
    hide NodesOk, OwnersOk, WorkersOk, QueueOk, BatchOk, SeatsOk, FaultOk, LayersOk, Promoted, EnqueueAll, JobsFor,
      ReadyList, InvSkipping, Deps, Sound;
    DoneKept(s, t);
  }

  /** No worker holds a seat before the round nor at its start. */
  lemma {:induction false} OpenSeats(s: State, t: State, ready: seq<Id>)
    requires Opens(s, t, ready)
    ensures SeatsOk(t)
  {
    hide NodesOk, OwnersOk, QueueOk, BatchOk, FaultOk, LayersOk, Promoted, EnqueueAll, JobsFor, ReadyList, Inv, Sound,
      SeatsMatch, Snaps;
    BetweenIdle(s);
    assert Unseated(s.workers) && Unseated(t.workers);
    UnseatedMatch(s.limits, s.counters, s.core.runId, s.core.graph, s.workers);
    UnseatedMatch(s.limits, s.counters, s.core.runId, s.core.graph, t.workers);
  }

  lemma {:induction false} RoundKeeps(s: State)
    requires Good(s) && s.driver.Between? && !s.cancelled && ReadyList(s.core.graph, s.core.status) != []
    ensures Good(Round(s, ReadyList(s.core.graph, s.core.status)))
  {
    hide Inv, NodesOk, OwnersOk, AttemptsOk, PassesOk, WorkersOk, QueueOk, BatchOk, LayersOk, Promoted, Sound, Lists,
      ReadyList, EnqueueAll, JobsFor, Flow, FaultOk, FramesDone, SeatsOk;
    var ready := ReadyList(s.core.graph, s.core.status);
    var t := Round(s, ready);
    GoodFlows(s);
    EnqueueKeeps(s.core, ready);
    OpenNodes(s, t, ready);
    OpenWorkers(s, t, ready);
    OpenQueue(s, t, ready);
    OpenBatch(s, t, ready);
    OpenLayers(s, t, ready);
    OpenRest(s, t, ready);
    OpenRounds(s, t, ready);
    OpenDone(s, t, ready);
    OpenSeats(s, t, ready);
    OpenSound(s, t, ready);
  }

  /* ---------- stopping ---------- */

  /** Cancellation, if any, and the final event. */
  function Closed(c: Core, cancelled: bool): Core
    requires Listed(c)
  {
    var d := if cancelled then CancelAll(c) else c;
    Emit(d, RunEnded(FinalStatus(d.status)))
  }

  lemma {:induction false} ClosedKeeps(c: Core, cancelled: bool)
    requires Inv(c) && Listed(c)
    ensures Inv(Closed(c, cancelled)) && Steady(c, Closed(c, cancelled))
    ensures OnlyCancels(c.status, Closed(c, cancelled).status)
    ensures !cancelled ==> Closed(c, cancelled).status == c.status
    ensures cancelled ==> forall n | n in c.status :: Terminal(Closed(c, cancelled).status[n])
  {
    hide Inv, CancelAll, Listed, FinalStatus;
    if cancelled { CancelAllKeeps(c); }
    var d := if cancelled then CancelAll(c) else c;
    EmitKeeps(d, RunEnded(FinalStatus(d.status)));
  }

  ghost predicate Closes(s: State, t: State) {
    && Flow(s) && s.driver.Between?
    && t == s.(core := t.core, driver := Stopped)
    && Inv(t.core) && Steady(s.core, t.core) && OnlyCancels(s.core.status, t.core.status)
    && (!s.cancelled ==> t.core.status == s.core.status)
  }

  lemma {:induction false} CloseNodes(s: State, t: State)
    requires Closes(s, t)
    ensures NodesOk(t)
  {
    hide ViewOk, BatchOk, LayersOk, QueueOk, Inv, NodeKey, Sound, Live, Snaps, SeatsOk;
    BetweenIdle(s);
    NothingLive(s);
    forall n | n in t.core.status
      ensures ViewOk(ViewOf(t, n))
    {
      NodesGive(s, n);
      ClosedView(ViewOf(s, n), ViewOf(t, n));
    }
  }

  lemma {:induction false} ClosedView(v: View, u: View)
    requires ViewOk(v) && u.frame == v.frame && u.inFlight == v.inFlight && u.done == v.done
    requires v.frame.Some? ==> !Live(v.frame.value.pc, v.st) && !v.frame.value.pc.Escaped?
    requires u.st == v.st || (!Terminal(v.st) && u.st == Cancelled)
    ensures ViewOk(u)
  {}

  lemma {:induction false} CloseFlow(s: State, t: State)
    requires Closes(s, t)
    ensures OwnersOk(t) && WorkersOk(t) && BatchOk(t)
  {
    hide NodeKey, NodesOk, Sound, Inv, LayersOk, QueueOk, BatchOk, SeatsOk;
    BetweenIdle(s);
    NothingLive(s);
    FlowNodes(s);
    forall n | n in t.frames && n in t.core.status
      ensures OwnerOk(t, n)
    {
      NodesGive(s, n);
      OverOrBad(s, n);
    }
    forall i | 0 <= i < |t.workers|
      ensures WorkerOk(t, t.workers[i])
    {
      assert WorkerOk(s, s.workers[i]);
    }
    NoBatch(t);
  }

  lemma {:induction false} NoBatch(t: State)
    requires t.driver.Stopped?
    ensures BatchOk(t)
  {}

  lemma {:induction false} CloseQueue(s: State, t: State)
    requires Closes(s, t)
    ensures QueueOk(t) && LayersOk(t)
  {
    hide NodeKey, NodesOk, Sound, Inv, WorkersOk, OwnersOk, BatchOk, Delimited, DoneAfter, Deps, BatchesAreLayers,
      NoBad, SeatsOk, FaultOk;
    forall n | n in t.issued
      ensures n in t.core.status && IssuedOk(t, n)
    {
      assert IssuedOk(s, n);
    }
  }

  lemma {:induction false} CloseRest(s: State, t: State)
    requires Closes(s, t) && AttemptsOk(s) && PassesOk(s) && Promoted(Deps(s.core.graph), s.core.status)
    ensures AttemptsOk(t) && PassesOk(t) && Promoted(Deps(t.core.graph), t.core.status)
  {
    hide NodesOk, BatchOk, LayersOk, OwnersOk, WorkersOk, QueueOk, SeatsOk, FaultOk, Inv, NodeKey, Sound, Promoted,
      PolicyOf;
    forall m | m in t.frames && m in ById(t.core.graph)
      ensures AttemptOk(t.frames[m], PolicyOf(DefOf(t, m)).maxAttempts)
    {
      assert AttemptOk(s.frames[m], PolicyOf(DefOf(s, m)).maxAttempts);
    }
    forall m | m in t.frames
      ensures PassOk(t, m, t.frames[m].pc)
    {
      assert PassOk(s, m, s.frames[m].pc);
    }
    PromotedStays(Deps(s.core.graph), s.core.status, t.core.status);
  }

  lemma {:induction false} CloseSound(s: State, t: State)
    requires Closes(s, t)
    ensures Sound(t) && Inv(t.core) && FaultOk(t) && SeatsOk(t) && t.batches == s.batches && t.issued == s.issued
    ensures t.started == s.started && t.frames == s.frames
  {
    hide NodesOk, OwnersOk, WorkersOk, QueueOk, BatchOk, SeatsMatch, LayersOk, InvSkipping;
    InvListed(t.core);
  }

  lemma {:induction false} CloseDone(s: State, t: State)
    requires Closes(s, t) && FramesDone(s)
    ensures FramesDone(t)
  {
    hide NodesOk, OwnersOk, WorkersOk, QueueOk, BatchOk, SeatsOk, FaultOk, LayersOk, InvSkipping, Deps, Sound;
    DoneKept(s, t);
  }

  lemma {:induction false} CloseAll(s: State, t: State)
    requires Good(s) && Closes(s, t)
    ensures Good(t)
  {
    hide Inv, NodesOk, OwnersOk, AttemptsOk, PassesOk, WorkersOk, QueueOk, BatchOk, LayersOk, Promoted, Sound, Lists,
      Closes, FaultOk, FramesDone, SeatsOk;
    CloseDone(s, t);
    CloseNodes(s, t);
    CloseFlow(s, t);
    CloseQueue(s, t);
    CloseRest(s, t);
    CloseSound(s, t);
  }

  lemma {:induction false} StopKeeps(s: State)
    requires Good(s) && Sound(s) && s.driver.Between?
    ensures Good(StopRun(s))
  {
    hide Good, Inv, Flow, CancelAll, FinalStatus, Steady, OnlyCancels;
    GoodGives(s);
    GoodFlows(s);
    ClosedKeeps(s.core, s.cancelled);
    CloseAll(s, StopRun(s));
  }
}
