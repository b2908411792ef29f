/** The steps of workers and of the queue keep the invariant. */
module WorkerSteps {
  import opened Wrappers
  import opened WorkflowTypes
  import opened NodeMachine
  import opened Graph
  import opened Layers
  import opened WorkflowLog
  import opened WorkflowCore
  import opened CoreInvariant
  import opened Keys
  import opened Retry
  import Bulkhead
  import opened Machine
  import opened Seats
  import opened MachineInvariant
  import opened MachineSteps

  /* ---------- steps that leave every node as it is ---------- */

  /** Only workers, their seats, queue, driver and the cancellation flag may differ. */
  ghost predicate SameNodes(s: State, t: State) {
    t == s.(workers := t.workers, counters := t.counters, queue := t.queue, driver := t.driver,
      cancelled := t.cancelled)
  }

  lemma {:induction false} SameNodesOk(s: State, t: State)
    requires SameNodes(s, t) && NodesOk(s)
    ensures NodesOk(t)
  {
    hide ViewOk;
    forall n | n in t.core.status
      ensures ViewOk(ViewOf(t, n))
    {
      assert ViewOf(t, n) == ViewOf(s, n);
      NodesGive(s, n);
    }
  }

  lemma {:induction false} SamePassesOk(s: State, t: State)
    requires SameNodes(s, t) && PassesOk(s)
    ensures PassesOk(t)
  {
    forall n | n in t.frames
      ensures PassOk(t, n, t.frames[n].pc)
    {
      assert PassOk(s, n, s.frames[n].pc);
    }
  }

  lemma {:induction false} SameAttemptsOk(s: State, t: State)
    requires SameNodes(s, t) && AttemptsOk(s)
    ensures AttemptsOk(t)
  {
    hide PolicyOf, AttemptOk;
    forall n | n in t.frames && n in ById(t.core.graph)
      ensures AttemptOk(t.frames[n], PolicyOf(DefOf(t, n)).maxAttempts)
    {
      assert AttemptOk(s.frames[n], PolicyOf(DefOf(s, n)).maxAttempts);
    }
  }

  lemma {:induction false} SameFramesDone(s: State, t: State)
    requires SameNodes(s, t) && FramesDone(s)
    ensures FramesDone(t)
  {
    hide Deps, DepsDone;
  }

  lemma {:induction false} SameFault(s: State, t: State)
    requires SameNodes(s, t) && FaultOk(s) && (s.fault ==> t.driver == s.driver)
    ensures FaultOk(t)
  {}

  lemma {:induction false} GoodFrom(s: State, t: State)
    requires Good(s) && SameNodes(s, t) && (s.fault ==> t.driver == s.driver)
    requires OwnersOk(t) && WorkersOk(t) && QueueOk(t) && BatchOk(t) && SeatsOk(t) && LayersOk(t)
    ensures Good(t)
  {
    hide Inv, NodesOk, OwnersOk, AttemptsOk, PassesOk, WorkersOk, QueueOk, BatchOk, LayersOk, Promoted, SameNodes,
      SeatsOk, FaultOk, FramesDone;
    SameNodesOk(s, t);
    SameFramesDone(s, t);
    SameFault(s, t);
    SamePassesOk(s, t);
    SameAttemptsOk(s, t);
    SameSound(s, t);
  }

  lemma {:induction false} SameSound(s: State, t: State)
    requires SameNodes(s, t) && Sound(s)
    ensures Sound(t) && t.core == s.core && t.fault == s.fault && t.started == s.started && t.frames == s.frames
    ensures t.batches == s.batches && t.issued == s.issued
  {
    hide ById;
  }

  /** The parts of the invariant that concern workers, queue and rounds. */
  ghost predicate Flow(s: State) {
    && Sound(s) && FaultOk(s) && NodesOk(s) && OwnersOk(s) && WorkersOk(s) && QueueOk(s) && BatchOk(s)
    && SeatsOk(s) && LayersOk(s)
  }

  lemma {:induction false} GoodFlows(s: State)
    requires Good(s)
    ensures Flow(s)
  {
    hide Inv, NodesOk, OwnersOk, AttemptsOk, PassesOk, WorkersOk, QueueOk, BatchOk, LayersOk, Promoted, Sound, FaultOk,
      FramesDone, SeatsOk;
  }

  /** The round bookkeeping does not look at workers or the queue. */
  lemma {:induction false} LayersSame(s: State, t: State)
    requires SameNodes(s, t) && LayersOk(s)
    requires t.cancelled || (t.cancelled == s.cancelled && t.driver.Dispatching? == s.driver.Dispatching?)
    ensures LayersOk(t)
  {
    hide Delimited, NoBad, BatchesAreLayers, DoneAfter, Deps;
  }

  /** Replacing the worker at `w`, where it awaited nothing. */
  lemma {:induction false} OwnersWithWorker(s: State, t: State, w: nat)
    requires OwnersOk(s) && w < |s.workers| && !s.workers[w].Awaiting?
    requires |t.workers| == |s.workers|
             && t == s.(queue := t.queue, workers := s.workers[w := t.workers[w]], counters := t.counters)
    ensures OwnersOk(t)
  {
    forall n | n in t.frames && n in t.core.status
      ensures OwnerOk(t, n)
    {
      assert OwnerOk(s, n);
    }
  }

  lemma {:induction false} WorkersWithWorker(s: State, t: State, w: nat)
    requires WorkersOk(s) && w < |s.workers| && |t.workers| == |s.workers| && WorkerOk(s, t.workers[w])
    requires t == s.(queue := t.queue, workers := s.workers[w := t.workers[w]], counters := t.counters)
    ensures WorkersOk(t)
  {
    hide NodeKey;
    forall i | 0 <= i < |t.workers|
      ensures WorkerOk(t, t.workers[i])
    {
      assert WorkerOk(s, s.workers[i]);
      assert WorkerOk(s, t.workers[i]);
    }
  }

  lemma {:induction false} QueueShrinks(s: State, t: State)
    requires QueueOk(s) && t == s.(queue := t.queue, workers := t.workers, counters := t.counters) && t.queue <= s.queue
    ensures QueueOk(t)
  {
    forall job | job in t.queue
      ensures job.nodeId in t.issued
    {
      assert job in s.queue;
    }
    forall n | n in t.issued
      ensures IssuedOk(t, n)
    {
      assert IssuedOk(s, n);
    }
  }

  /** A worker without a seat goes on without one. */
  lemma {:induction false} StandingSeats(s: State, t: State, w: nat)
    requires SeatsOk(s) && w < |s.workers| && |t.workers| == |s.workers| && !s.workers[w].Awaiting?
             && !t.workers[w].Awaiting?
    requires t == s.(queue := t.queue, workers := s.workers[w := t.workers[w]])
    ensures SeatsOk(t)
  {
    hide SeatsMatch;
    NoSeat(s.limits, s.counters, s.core.runId, s.core.graph, s.workers, w, t.workers[w]);
  }

  /** A worker takes a seat the bulkhead grants. */
  lemma {:induction false} TakenSeats(s: State, t: State, w: nat, n: Id)
    requires SeatsOk(s) && w < |s.workers| && !s.workers[w].Awaiting?
             && !Bulkhead.Refuses(s.limits, s.counters, Seat(s, n))
    requires t.workers == s.workers[w := Awaiting(n)] && t.counters == Bulkhead.Acquired(s.counters, Seat(s, n))
    requires t.limits == s.limits && t.core.runId == s.core.runId && t.core.graph == s.core.graph
    ensures SeatsOk(t)
  {
    hide SeatsMatch, Bulkhead.Refuses, Bulkhead.Acquired, SlotOf;
    TakeSeat(s.limits, s.counters, s.core.runId, s.core.graph, s.workers, w, n);
  }

  /* ---------- taking a job, and leaving ---------- */

  lemma {:induction false} StillHeld(s: State, t: State, w: nat, n: Id)
    requires Held(s, n) && w < |s.workers| && |t.workers| == |s.workers| && t.workers == s.workers[w := t.workers[w]]
    requires s.workers[w].Holding? ==> s.workers[w].job.nodeId != n
    ensures Held(t, n)
  {
    var i :| 0 <= i < |s.workers| && s.workers[i].Holding? && s.workers[i].job.nodeId == n;
    assert t.workers[i].Holding? && t.workers[i].job.nodeId == n;
  }

  lemma {:induction false} TakeBatch(s: State, t: State, w: nat, job: Job)
    requires BatchOk(s) && w < |s.workers| && s.workers[w].Idle? && job in s.queue
    requires t == s.(queue := s.queue - multiset{job}, workers := s.workers[w := Holding(job)])
    ensures BatchOk(t)
  {
    hide Held, Queued;
    forall n | OnCourse(t) && n in t.issued && n in t.core.status && t.core.status[n] == Ready
      ensures t.driver.Dispatching? && (Held(t, n) || Queued(t, n))
    {
      if Held(s, n) { StillHeld(s, t, w, n); } else { TakeQueued(s, t, w, job, n); }
    }
  }

  lemma {:induction false} TakeQueued(s: State, t: State, w: nat, job: Job, n: Id)
    requires Queued(s, n) && w < |s.workers| && job in s.queue
    requires t == s.(queue := s.queue - multiset{job}, workers := s.workers[w := Holding(job)])
    ensures Held(t, n) || Queued(t, n)
  {
    var other :| other in s.queue && other.nodeId == n;
    if other == job {
      assert t.workers[w].Holding? && t.workers[w].job.nodeId == n;
    } else {
      assert other in t.queue;
    }
  }

  lemma {:induction false} TakeKeeps(s: State, t: State, w: nat, job: Job)
    requires Good(s) && w < |s.workers| && s.workers[w].Idle? && !s.cancelled && job in s.queue
    requires t == s.(queue := s.queue - multiset{job}, workers := s.workers[w := Holding(job)])
    ensures Good(t)
  {
    hide Good, Sound, NodesOk, OwnersOk, BatchOk, LayersOk, FaultOk, SeatsOk;
    GoodFlows(s);
    assert WorkerOk(s, s.workers[w]);
    OwnersWithWorker(s, t, w);
    WorkersWithWorker(s, t, w);
    QueueShrinks(s, t);
    TakeBatch(s, t, w, job);
    StandingSeats(s, t, w);
    LayersSame(s, t);
    GoodFrom(s, t);
  }

  lemma {:induction false} LeaveBatch(s: State, t: State, w: nat)
    requires BatchOk(s) && w < |s.workers| && s.workers[w].Idle? && (s.cancelled || s.queue == multiset{})
    requires t == s.(workers := s.workers[w := Gone])
    ensures BatchOk(t)
  {
    hide Held;
    forall n | OnCourse(t) && n in t.issued && n in t.core.status && t.core.status[n] == Ready
      ensures t.driver.Dispatching? && (Held(t, n) || Queued(t, n))
    {
      assert !Queued(s, n);
      StillHeld(s, t, w, n);
    }
  }

  lemma {:induction false} LeaveKeeps(s: State, t: State, w: nat)
    requires Good(s) && w < |s.workers| && s.workers[w].Idle? && (s.cancelled || s.queue == multiset{})
    requires t == s.(workers := s.workers[w := Gone])
    ensures Good(t)
  {
    hide Good, Sound, NodesOk, OwnersOk, BatchOk, LayersOk, FaultOk, SeatsOk;
    GoodFlows(s);
    assert WorkerOk(s, s.workers[w]);
    OwnersWithWorker(s, t, w);
    WorkersWithWorker(s, t, w);
    QueueShrinks(s, t);
    LeaveBatch(s, t, w);
    StandingSeats(s, t, w);
    LayersSame(s, t);
    GoodFrom(s, t);
  }

  /* ---------- beginning a job ---------- */

  /** A worker that joins an execution already begun, or one already resolved. */
  lemma {:induction false} JoinKeeps(s: State, t: State, w: nat)
    requires Good(s) && w < |s.workers| && s.workers[w].Holding? && s.workers[w].job.nodeId in s.core.status
    requires var n := s.workers[w].job.nodeId; Key(s, n) in s.completed || Key(s, n) in s.inFlight
    requires !Bulkhead.Refuses(s.limits, s.counters, Seat(s, s.workers[w].job.nodeId))
    requires t == s.(workers := s.workers[w := Awaiting(s.workers[w].job.nodeId)],
                     counters := Bulkhead.Acquired(s.counters, Seat(s, s.workers[w].job.nodeId)))
    ensures Good(t)
  {
    hide Good, Sound, NodesOk, OwnersOk, BatchOk, LayersOk, NodeKey, FaultOk, SeatsOk, Seat, Bulkhead.Acquired,
      Bulkhead.Refuses;
    GoodFlows(s);
    var n := s.workers[w].job.nodeId;
    assert WorkerOk(s, s.workers[w]);
    NodesGive(s, n);
    NotReadyIfKeyed(ViewOf(s, n));
    OwnersWithWorker(s, t, w);
    WorkersWithWorker(s, t, w);
    QueueShrinks(s, t);
    JoinBatch(s, t, w);
    TakenSeats(s, t, w, n);
    LayersSame(s, t);
    GoodFrom(s, t);
  }

  lemma {:induction false} NotReadyIfKeyed(v: View)
    requires ViewOk(v) && (v.inFlight || v.done.Some?)
    ensures v.st != Ready && (v.inFlight ==> v.frame.Some?)
  {
    if v.frame.Some? { PcBegun(v.frame.value.pc, v.st, v.logged); }
  }

  /** A worker that stops holding a job whose node is not ready loses nothing. */
  lemma {:induction false} JoinBatch(s: State, t: State, w: nat)
    requires BatchOk(s) && w < |s.workers| && s.workers[w].Holding? && |t.workers| == |s.workers| && !t.workers[w].Gone?
    requires t == s.(workers := s.workers[w := t.workers[w]], counters := t.counters)
    requires var n := s.workers[w].job.nodeId; n in s.core.status && s.core.status[n] != Ready
    ensures BatchOk(t)
  {
    hide Held;
    forall n | OnCourse(t) && n in t.issued && n in t.core.status && t.core.status[n] == Ready
      ensures t.driver.Dispatching? && (Held(t, n) || Queued(t, n))
    {
      if Held(s, n) { StillHeld(s, t, w, n); }
    }
  }

  /* ---------- an execution begins ---------- */

  /** The node a worker holds a job for, when nothing has executed it yet, is ready. */
  lemma {:induction false} FreshIsReady(s: State, w: nat)
    requires Flow(s) && w < |s.workers| && s.workers[w].Holding? && s.workers[w].job.nodeId in s.core.status
    requires var n := s.workers[w].job.nodeId; Key(s, n) !in s.completed && Key(s, n) !in s.inFlight
    ensures var n := s.workers[w].job.nodeId; n in s.issued && n !in s.frames && s.core.status[n] == Ready
    ensures s.driver.Dispatching? && s.workers[w].job.attempt >= 1
  {
    hide OwnersOk, BatchOk, LayersOk, NodeKey, Sound, SeatsOk, FaultOk;
    var n := s.workers[w].job.nodeId;
    assert WorkerOk(s, s.workers[w]);
    NodesGive(s, n);
    assert IssuedOk(s, n);
  }

  ghost predicate Begins(s: State, t: State, w: nat) {
    && w < |s.workers| && s.workers[w].Holding?
    && var job, n := s.workers[w].job, s.workers[w].job.nodeId;
       && Flow(s) && n in s.core.status && n in s.issued && n !in s.frames && s.core.status[n] == Ready
           && s.driver.Dispatching?
       && t == s.(workers := s.workers[w := Awaiting(n)], counters := t.counters, started := s.started + [n],
                  inFlight := s.inFlight + {Key(s, n)},
                  core := RunNode(s.core, n, job.attempt),
                  frames := s.frames[n := Frame(Started, job.attempt, job.attempt, 1, w)])
       && job.attempt >= 1 && Others(s.core, t.core, n) && Inv(t.core) && t.core.status == s.core.status[n := Running]
  }

  lemma {:induction false} BeginCore(c: Core, n: Id, attempt: int)
    requires Inv(c) && n in c.status && c.status[n] == Ready && n in c.attempt && attempt >= 1
    ensures Inv(RunNode(c, n, attempt)) && Others(c, RunNode(c, n, attempt), n)
    ensures RunNode(c, n, attempt).status == c.status[n := Running]
  {
    hide LogOk, OrderOk, DepSafe, AboveDone, SkipClosed, Static, Agrees;
    UnderWayIfRunning(c, n);
    RunKeeps(c, n, attempt);
  }

  lemma {:induction false} BeginNodes(s: State, t: State, w: nat)
    requires Begins(s, t, w)
    ensures NodesOk(t)
  {
    hide ViewOk, OwnersOk, BatchOk, LayersOk, WorkersOk, QueueOk, Inv, RunNode, NodeKey, Sound, SeatsOk, FaultOk;
    var n := s.workers[w].job.nodeId;
    forall m | m in t.core.status
      ensures ViewOk(ViewOf(t, m))
    {
      NodesGive(s, m);
      if m == n {
        BegunView(ViewOf(s, n), ViewOf(t, n));
      } else {
        KeysDiffer(s, n, m);
        ViewIrrelevant(ViewOf(s, m), ViewOf(t, m));
      }
    }
  }

  lemma {:induction false} BegunView(v: View, u: View)
    requires ViewOk(v) && v.frame.None? && v.st == Ready
    requires u.frame.Some? && u.frame.value.pc.Started? && u.st == Running && u.inFlight && u.done == v.done
    ensures ViewOk(u)
  {}

  lemma {:induction false} BeginOwners(s: State, t: State, w: nat)
    requires Begins(s, t, w)
    ensures OwnersOk(t)
  {
    hide NodesOk, BatchOk, LayersOk, WorkersOk, QueueOk, Inv, RunNode, NodeKey, Sound, ViewOk, SeatsOk, FaultOk;
    forall m | m in t.frames && m in t.core.status
      ensures OwnerOk(t, m)
    {
      if m != s.workers[w].job.nodeId { assert OwnerOk(s, m); }
    }
  }

  lemma {:induction false} BeginWorkers(s: State, t: State, w: nat)
    requires Begins(s, t, w)
    ensures WorkersOk(t) && QueueOk(t)
  {
    hide NodesOk, BatchOk, LayersOk, OwnersOk, Inv, RunNode, NodeKey, Sound, SeatsOk, FaultOk;
    forall i | 0 <= i < |t.workers|
      ensures WorkerOk(t, t.workers[i])
    {
      assert WorkerOk(s, s.workers[i]);
    }
    forall m | m in t.issued
      ensures IssuedOk(t, m)
    {
      assert IssuedOk(s, m);
    }
  }

  lemma {:induction false} BeginBatch(s: State, t: State, w: nat)
    requires Begins(s, t, w)
    ensures BatchOk(t)
  {
    hide NodesOk, LayersOk, OwnersOk, WorkersOk, QueueOk, Inv, RunNode, NodeKey, Sound, Held, SeatsOk, FaultOk;
    forall m | OnCourse(t) && m in t.issued && m in t.core.status && t.core.status[m] == Ready
      ensures t.driver.Dispatching? && (Held(t, m) || Queued(t, m))
    {
      assert s.core.status[m] == Ready;
      if Held(s, m) { StillHeld(s, t, w, m); }
    }
  }

  lemma {:induction false} RunningDelimited(st: Statuses, n: Id, done: set<Id>, reach: set<Id>)
    requires n in st && st[n] == Ready && NoBad(st[n := Running])
    ensures NoBad(st) && (Delimited(st, done, reach) && n in reach ==> Delimited(st[n := Running], done, reach))
  {
    forall m | m in st
      ensures !Bad(st[m])
    {
      assert !Bad(st[n := Running][m]);
    }
  }

  lemma {:induction false} BeginLayers(s: State, t: State, w: nat)
    requires Begins(s, t, w)
    ensures LayersOk(t)
  {
    hide NodesOk, BatchOk, OwnersOk, WorkersOk, QueueOk, Inv, RunNode, NodeKey, Sound, DoneAfter, Deps,
      BatchesAreLayers, SeatsOk, FaultOk, Delimited, NoBad, Snaps, ById, Others;
    if t.firstRun && !t.cancelled && NoBad(t.core.status) {
      var n, r, begun := s.workers[w].job.nodeId, Deps(s.core.graph), |s.batches|;
      SameGraph(s.core, t.core, n);
      RunningDelimited(s.core.status, n, DoneAfter(r, if begun > 0 then begun - 1 else begun), DoneAfter(r, begun));
      assert n in s.issued.Keys;
    }
  }

  lemma {:induction false} BeginRest(s: State, t: State, w: nat)
    requires Begins(s, t, w)
    requires AttemptsOk(s) && PassesOk(s) && Promoted(Deps(s.core.graph), s.core.status)
             && Lists(s.started, s.frames.Keys)
    ensures AttemptsOk(t) && PassesOk(t) && Promoted(Deps(t.core.graph), t.core.status)
            && Lists(t.started, t.frames.Keys)
  {
    hide NodesOk, BatchOk, LayersOk, OwnersOk, WorkersOk, QueueOk, Inv, RunNode, NodeKey, Sound, Promoted, PolicyOf,
      SeatsOk, FaultOk;
    var n := s.workers[w].job.nodeId;
    forall m | m in t.frames && m in ById(t.core.graph)
      ensures AttemptOk(t.frames[m], PolicyOf(DefOf(t, m)).maxAttempts)
    {
      if m != n { assert AttemptOk(s.frames[m], PolicyOf(DefOf(s, m)).maxAttempts); }
    }
    forall m | m in t.frames
      ensures PassOk(t, m, t.frames[m].pc)
    {
      if m != n { assert PassOk(s, m, s.frames[m].pc); }
    }
    PromotedStays(Deps(s.core.graph), s.core.status, t.core.status);
    assert t.started[..|t.started| - 1] == s.started;
    assert t.frames.Keys - {n} == s.frames.Keys;
  }

  lemma {:induction false} BeginAll(s: State, t: State, w: nat)
    requires Good(s) && Begins(s, t, w) && SeatsOk(t)
    ensures Good(t)
  {
    hide Inv, NodesOk, OwnersOk, AttemptsOk, PassesOk, WorkersOk, QueueOk, BatchOk, LayersOk, Promoted, Begins, Sound,
      Lists, FaultOk, FramesDone, SeatsOk;
    BeginDone(s, t, w);
    BeginNodes(s, t, w);
    BeginOwners(s, t, w);
    BeginWorkers(s, t, w);
    BeginBatch(s, t, w);
    BeginLayers(s, t, w);
    BeginRest(s, t, w);
    BeginSound(s, t, w);
  }

  lemma {:induction false} BeginSound(s: State, t: State, w: nat)
    requires Begins(s, t, w)
    ensures Sound(t) && Inv(t.core) && FaultOk(t) && t.batches == s.batches && t.issued == s.issued
  {
    hide NodesOk, OwnersOk, WorkersOk, QueueOk, BatchOk, LayersOk, Inv, RunNode, SeatsOk;
    InvListed(t.core);
    BeginFault(s, t, s.workers[w].job.nodeId);
  }

  lemma {:induction false} BeginFault(s: State, t: State, n: Id)
    requires FaultOk(s) && t.fault == s.fault && t.driver == s.driver && n !in s.frames
    requires n in t.frames && t.frames == s.frames[n := t.frames[n]] && t.frames[n].pc.Started?
    ensures FaultOk(t)
  {
    if m :| m in s.frames && s.frames[m].pc.Escaped? { assert t.frames[m].pc.Escaped?; }
    if m :| m in t.frames && t.frames[m].pc.Escaped? { assert s.frames[m].pc.Escaped?; }
  }

  /** The node that begins was ready, so it has all it depends on completed; and nothing completed changes. */
  lemma {:induction false} BeginDone(s: State, t: State, w: nat)
    requires Begins(s, t, w) && FramesDone(s) && Inv(s.core)
    ensures FramesDone(t)
  {
    hide NodesOk, OwnersOk, WorkersOk, QueueOk, BatchOk, LayersOk, Inv, RunNode, SeatsOk, FaultOk, Deps, NodeKey, Sound;
    var n := s.workers[w].job.nodeId;
    ReadyDone(s.core, n);
    forall m | m in t.frames
      ensures DepsDone(Deps(t.core.graph), t.core.status, m)
    {
      assert DepsDone(Deps(s.core.graph), s.core.status, m);
    }
  }

  lemma {:induction false} ReadyDone(c: Core, n: Id)
    requires Inv(c) && n in c.status && c.status[n] == Ready
    ensures DepsDone(Deps(c.graph), c.status, n)
  {
    hide LogOk, OrderOk, DepSafe, AboveDone, SkipClosed, Static, Agrees;
    OpenDepsDone(c, n);
  }

  lemma {:induction false} FlowSeats(s: State)
    requires Flow(s)
    ensures SeatsOk(s)
  {}

  /** A worker that begins the execution of a ready node. */
  lemma {:induction false} BeginIs(s: State, w: nat)
    requires Sound(s) && w < |s.workers| && s.workers[w].Holding? && s.workers[w].job.nodeId in s.core.status
    requires var n := s.workers[w].job.nodeId;
             Key(s, n) !in s.completed && Key(s, n) !in s.inFlight && s.core.status[n] == Ready
    ensures var job, n := s.workers[w].job, s.workers[w].job.nodeId;
            BeginJob(s, w) ==
              s.(workers := s.workers[w := Awaiting(n)], counters := Bulkhead.Acquired(s.counters, Seat(s, n)),
                                 started := s.started + [n], inFlight := s.inFlight + {Key(s, n)},
                                 core := RunNode(s.core, n, job.attempt),
                                 frames := s.frames[n := Frame(Started, job.attempt, job.attempt, 1, w)])
  {
    hide Sound, ById, NodeKey, Bulkhead.Acquired, RunNode, Bulkhead.Refuses, SlotOf;
  }

  /** A worker that joins what has begun already. */
  lemma {:induction false} JoinIs(s: State, w: nat)
    requires Sound(s) && w < |s.workers| && s.workers[w].Holding? && s.workers[w].job.nodeId in s.core.status
    requires var n := s.workers[w].job.nodeId; Key(s, n) in s.completed || Key(s, n) in s.inFlight
    ensures var n := s.workers[w].job.nodeId;
            BeginJob(s, w) ==
              s.(workers := s.workers[w := Awaiting(n)], counters := Bulkhead.Acquired(s.counters, Seat(s, n)))
  {
    hide Sound, ById, NodeKey, Bulkhead.Acquired, StartFrame, SlotOf;
  }

  lemma {:induction false} BeginKeeps(s: State, w: nat)
    requires Good(s) && Sound(s) && w < |s.workers| && s.workers[w].Holding? && s.workers[w].job.nodeId in s.core.status
    requires !Bulkhead.Refuses(s.limits, s.counters, Seat(s, s.workers[w].job.nodeId))
    ensures Good(BeginJob(s, w))
  {
    hide Good, Flow, RunNode, Inv, Others, NodeKey, SeatsOk, Seat, Bulkhead.Acquired, Bulkhead.Refuses;
    var job, n := s.workers[w].job, s.workers[w].job.nodeId;
    if Key(s, n) in s.completed || Key(s, n) in s.inFlight {
      JoinKeeps(s, BeginJob(s, w), w);
    } else {
      GoodFlows(s);
      GoodGives(s);
      FreshIsReady(s, w);
      BeginCore(s.core, n, job.attempt);
      FlowSeats(s);
      BeginIs(s, w);
      SameGraph(s.core, RunNode(s.core, n, job.attempt), n);
      TakenSeats(s, BeginJob(s, w), w, n);
      BeginAll(s, BeginJob(s, w), w);
    }
  }
}
