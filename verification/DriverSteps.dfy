/** Recording results, the rounds of the drive loop, stopping, and restarting after a crash keep the invariant. */
module DriverSteps {
  import opened Wrappers
  import opened WorkflowTypes
  import opened NodeMachine
  import opened Graph
  import opened Layers
  import opened WorkflowLog
  import opened WorkflowCore
  import opened CoreInvariant
  import opened Keys
  import opened Retry
  import Bulkhead
  import opened Machine
  import opened Seats
  import opened MachineInvariant
  import opened MachineSteps
  import opened WorkerSteps

  /* ---------- a worker sees its outcome ---------- */

  /** Worker `w` stops waiting for `n` and gives its seat back; it ends only if the process is broken. */
  ghost predicate Frees(s: State, t: State, w: nat, n: Id) {
    && w < |s.workers| && s.workers[w] == Awaiting(n) && n in s.core.status
    && (n in s.frames ==> !Live(s.frames[n].pc, s.core.status[n]))
    && |t.workers| == |s.workers| && (t.workers[w].Idle? || (t.workers[w].Gone? && s.fault))
    && t == s.(workers := s.workers[w := t.workers[w]], counters := Bulkhead.Released(s.counters, Seat(s, n)))
  }

  lemma {:induction false} FreeOwners(s: State, t: State, w: nat, n: Id)
    requires OwnersOk(s) && Frees(s, t, w, n)
    ensures OwnersOk(t)
  {
    forall m | m in t.frames && m in t.core.status
      ensures OwnerOk(t, m)
    {
      assert OwnerOk(s, m);
    }
  }

  lemma {:induction false} FreeBatch(s: State, t: State, w: nat, n: Id)
    requires BatchOk(s) && Frees(s, t, w, n)
    ensures BatchOk(t)
  {
    hide Held, Bulkhead.Released, Seat;
    forall m | OnCourse(t) && m in t.issued && m in t.core.status && t.core.status[m] == Ready
      ensures t.driver.Dispatching? && (Held(t, m) || Queued(t, m))
    {
      if Held(s, m) { StillHeld(s, t, w, m); }
    }
  }

  lemma {:induction false} VacatedSeats(s: State, t: State, w: nat)
    requires SeatsOk(s) && w < |s.workers| && s.workers[w].Awaiting? && |t.workers| == |s.workers|
             && !t.workers[w].Awaiting?
    requires t.workers == s.workers[w := t.workers[w]]
    requires t.counters == Bulkhead.Released(s.counters, Seat(s, s.workers[w].nodeId))
    requires t.limits == s.limits && t.core.runId == s.core.runId && t.core.graph == s.core.graph
    ensures SeatsOk(t)
  {
    hide SeatsMatch, Bulkhead.Released, SlotOf;
    LeaveSeat(s.limits, s.counters, s.core.runId, s.core.graph, s.workers, w, t.workers[w]);
  }

  /** A worker whose outcome is already recorded becomes free, or ends if there will be none. */
  lemma {:induction false} FreeKeeps(s: State, t: State, w: nat, n: Id)
    requires Good(s) && Frees(s, t, w, n)
    ensures Good(t)
  {
    hide Good, Sound, NodesOk, OwnersOk, BatchOk, LayersOk, FaultOk, SeatsOk, Bulkhead.Released, Seat;
    GoodFlows(s);
    assert WorkerOk(s, s.workers[w]);
    FreeOwners(s, t, w, n);
    WorkersWithWorker(s, t, w);
    QueueShrinks(s, t);
    FreeBatch(s, t, w, n);
    VacatedSeats(s, t, w);
    LayersSame(s, t);
    GoodFrom(s, t);
  }

  /* ---------- a worker records a result ---------- */

  /** Node `n` is completed and what it unblocks is promoted; all else stays. */
  ghost predicate Finishes(c: Core, d: Core, n: Id) {
    && n in c.status && c.status[n] == Verifying
    && Inv(d) && Promoted(Deps(d.graph), d.status)
    && d == c.(status := d.status, results := d.results, completionOrder := c.completionOrder + [n], log := d.log)
    && d.status.Keys == c.status.Keys && d.status[n] == Completed
    && (forall m | m in c.status && m != n ::
          d.status[m] == c.status[m] || (c.status[m] == Planned && d.status[m] == Ready))
    && (forall m | m in c.status && m != n && c.status[m] != Planned ::
          SnapOf(Snaps(d.log), m) == SnapOf(Snaps(c.log), m))
  }

  lemma {:induction false} CompleteFinishes(c: Core, n: Id, result: NodeResult)
    requires Inv(c) && n in c.status && c.status[n] == Verifying && Listed(c)
    ensures Finishes(c, CompleteNode(c, n, result), n)
  {
    hide Inv, Promoted, CompleteNode, Deps, DepsDone, Promote;
    CompleteKeeps(c, n, result);
  }

  ghost predicate Records(s: State, t: State, w: nat, n: Id) {
    && Flow(s) && w < |s.workers| && s.workers[w] == Awaiting(n)
    && n in s.frames && s.frames[n].pc.Resolved?
    && t == s.(workers := s.workers[w := Idle], counters := t.counters, core := t.core)
    && Finishes(s.core, t.core, n)
  }

  lemma {:induction false} RecordNodes(s: State, t: State, w: nat, n: Id)
    requires Records(s, t, w, n)
    ensures NodesOk(t)
  {
    hide ViewOk, OwnersOk, BatchOk, LayersOk, WorkersOk, QueueOk, Inv, NodeKey, Sound, Promoted, SeatsOk, FaultOk;
    forall m | m in t.core.status
      ensures ViewOk(ViewOf(t, m))
    {
      NodesGive(s, m);
      if m == n {
        RecordedView(ViewOf(s, n), ViewOf(t, n));
      } else {
        ViewIrrelevant(ViewOf(s, m), ViewOf(t, m));
      }
    }
  }

  lemma {:induction false} RecordedView(v: View, u: View)
    requires ViewOk(v) && v.frame.Some? && v.frame.value.pc.Resolved? && u.st == Completed
    requires u.frame == v.frame && u.inFlight == v.inFlight && u.done == v.done
    ensures ViewOk(u)
  {}

  lemma {:induction false} RecordOwners(s: State, t: State, w: nat, n: Id)
    requires Records(s, t, w, n)
    ensures OwnersOk(t)
  {
    hide NodesOk, BatchOk, LayersOk, WorkersOk, QueueOk, Inv, NodeKey, Sound, Promoted, SeatsOk, FaultOk;
    forall m | m in t.frames && m in t.core.status
      ensures OwnerOk(t, m)
    {
      assert OwnerOk(s, m);
    }
  }

  lemma {:induction false} RecordWorkers(s: State, t: State, w: nat, n: Id)
    requires Records(s, t, w, n)
    ensures WorkersOk(t) && QueueOk(t)
  {
    hide NodesOk, BatchOk, LayersOk, OwnersOk, Inv, NodeKey, Sound, Promoted, SeatsOk, FaultOk;
    forall i | 0 <= i < |t.workers|
      ensures WorkerOk(t, t.workers[i])
    {
      assert WorkerOk(s, s.workers[i]);
      assert WorkerOk(s, s.workers[w]);
    }
    forall m | m in t.issued
      ensures m in t.core.status && IssuedOk(t, m)
    {
      assert IssuedOk(s, m);
    }
  }

  lemma {:induction false} RecordBatch(s: State, t: State, w: nat, n: Id)
    requires Records(s, t, w, n)
    ensures BatchOk(t)
  {
    hide NodesOk, LayersOk, OwnersOk, WorkersOk, Inv, NodeKey, Sound, Promoted, Held;
    forall m | OnCourse(t) && m in t.issued && m in t.core.status && t.core.status[m] == Ready
      ensures t.driver.Dispatching? && (Held(t, m) || Queued(t, m))
    {
      assert IssuedOk(s, m);
      if Held(s, m) { StillHeld(s, t, w, m); }
    }
  }

  lemma {:induction false} RecordLayers(s: State, t: State, w: nat, n: Id)
    requires Records(s, t, w, n)
    ensures LayersOk(t)
  {
    hide NodesOk, BatchOk, OwnersOk, WorkersOk, QueueOk, Inv, NodeKey, Sound, DoneAfter, Deps, BatchesAreLayers,
      Promoted;
    if t.firstRun && !t.cancelled && NoBad(t.core.status) {
      forall m | m in s.core.status
        ensures !Bad(s.core.status[m])
      {
        assert !Bad(t.core.status[m]);
      }
    }
  }

  lemma {:induction false} RecordRest(s: State, t: State, w: nat, n: Id)
    requires Records(s, t, w, n) && AttemptsOk(s) && PassesOk(s)
    ensures AttemptsOk(t) && PassesOk(t)
  {
    hide NodesOk, BatchOk, LayersOk, OwnersOk, WorkersOk, QueueOk, Inv, NodeKey, Sound, Promoted, PolicyOf;
    forall m | m in t.frames && m in ById(t.core.graph)
      ensures AttemptOk(t.frames[m], PolicyOf(DefOf(t, m)).maxAttempts)
    {
      assert AttemptOk(s.frames[m], PolicyOf(DefOf(s, m)).maxAttempts);
    }
    forall m | m in t.frames
      ensures PassOk(t, m, t.frames[m].pc)
    {
      assert PassOk(s, m, s.frames[m].pc);
      PassExtends(s, t, m, n);
    }
  }

  lemma {:induction false} PassExtends(s: State, t: State, m: Id, n: Id)
    requires m in s.frames && PassOk(s, m, s.frames[m].pc) && t.core.completionOrder == s.core.completionOrder + [n]
    requires t.frames == s.frames && t.registry == s.registry && t.core.graph == s.core.graph
    ensures PassOk(t, m, s.frames[m].pc)
  {
    var pc := s.frames[m].pc;
    if pc.UndoingUpstream? {
      assert t.core.completionOrder[..|pc.pass|] == s.core.completionOrder[..|pc.pass|];
    }
  }

  lemma {:induction false} RecordSound(s: State, t: State, w: nat, n: Id)
    requires Records(s, t, w, n)
    ensures Sound(t) && Inv(t.core) && Promoted(Deps(t.core.graph), t.core.status) && FaultOk(t)
    ensures t.batches == s.batches && t.issued == s.issued && t.started == s.started && t.frames == s.frames
  {
    hide NodesOk, OwnersOk, WorkersOk, QueueOk, BatchOk, LayersOk, Inv, Promoted, SeatsOk;
    InvListed(t.core);
  }

  lemma {:induction false} RecordDone(s: State, t: State, w: nat, n: Id)
    requires Records(s, t, w, n) && FramesDone(s)
    ensures FramesDone(t)
  {
    hide NodesOk, OwnersOk, WorkersOk, QueueOk, BatchOk, LayersOk, Inv, Promoted, SeatsOk, FaultOk, Deps, Sound;
    DoneKept(s, t);
  }

  lemma {:induction false} RecordStepKeeps(s: State, t: State, w: nat, n: Id)
    requires Good(s) && Records(s, t, w, n) && SeatsOk(t)
    ensures Good(t)
  {
    hide Inv, NodesOk, OwnersOk, AttemptsOk, PassesOk, WorkersOk, QueueOk, BatchOk, LayersOk, Promoted, Records, Sound,
      Lists, FaultOk, FramesDone, SeatsOk;
    RecordDone(s, t, w, n);
    RecordNodes(s, t, w, n);
    RecordOwners(s, t, w, n);
    RecordWorkers(s, t, w, n);
    RecordBatch(s, t, w, n);
    RecordLayers(s, t, w, n);
    RecordRest(s, t, w, n);
    RecordSound(s, t, w, n);
  }

  /** What the bookkeeping of a node says when its worker looks for the outcome. */
  lemma {:induction false} Outcome(v: View)
    requires ViewOk(v)
    ensures v.done.Some? ==> (Terminal(v.st) || v.st == Verifying)
    ensures v.done.Some? && Terminal(v.st) && v.frame.Some? ==> !Live(v.frame.value.pc, v.st)
    ensures v.done.Some? && !Terminal(v.st) ==> v.frame.Some? && v.frame.value.pc.Resolved?
    ensures v.frame.Some? && v.frame.value.pc.Rejected? ==> Terminal(v.st) && !Live(v.frame.value.pc, v.st)
    ensures v.frame.Some? && v.frame.value.pc.Escaped? ==> !Live(v.frame.value.pc, v.st)
  {}

  /** The outcomes of looking, told apart by what the bookkeeping says. */
  lemma {:induction false} SettleCases(s: State, w: nat, t: State)
    requires Sound(s) && w < |s.workers| && s.workers[w].Awaiting? && s.workers[w].nodeId in s.core.status
    requires SettleJob(s, w) == Some(t)
    ensures var n, st := s.workers[w].nodeId, s.core.status[s.workers[w].nodeId];
            var left := s.(counters := Bulkhead.Released(s.counters, Seat(s, n)));
            var free := left.(workers := s.workers[w := Idle]);
            if Key(s, n) in s.completed then
              && (Terminal(st) ==> t == free)
              && (st == Verifying ==> t == free.(core := CompleteNode(s.core, n, s.completed[Key(s, n)])))
            else
              && n in s.frames && (s.frames[n].pc.Rejected? || s.frames[n].pc.Escaped?)
              && (s.frames[n].pc.Rejected? && Terminal(st) ==> t == free)
              && (s.frames[n].pc.Escaped? ==> t == left.(workers := s.workers[w := Gone]))
  {
    hide Sound, NodeKey, SlotOf, Bulkhead.Released, ById, CompleteNode;
  }

  /** What settling does: the worker becomes free, ends in a broken process, or records the result. */
  lemma {:induction false} SettleIs(s: State, w: nat, t: State)
    requires Flow(s) && w < |s.workers| && s.workers[w].Awaiting? && s.workers[w].nodeId in s.core.status
    requires SettleJob(s, w) == Some(t)
    ensures var n := s.workers[w].nodeId;
            || Frees(s, t, w, n)
            || (Key(s, n) in s.completed && s.core.status[n] == Verifying && n in s.frames && s.frames[n].pc.Resolved?
                && t == s.(workers := s.workers[w := Idle], counters := Bulkhead.Released(s.counters, Seat(s, n)),
                           core := CompleteNode(s.core, n, s.completed[Key(s, n)])))
  {
    hide NodesOk, OwnersOk, WorkersOk, QueueOk, BatchOk, LayersOk, SeatsOk, ViewOk, Live, CompleteNode, NodeKey, Seat,
      Bulkhead.Released, Sound, SettleJob;
    var n := s.workers[w].nodeId;
    SettleCases(s, w, t);
    NodesGive(s, n);
    Outcome(ViewOf(s, n));
  }

  lemma {:induction false} SettleKeeps(s: State, w: nat, t: State)
    requires Good(s) && Sound(s) && w < |s.workers| && s.workers[w].Awaiting? && s.workers[w].nodeId in s.core.status
    requires SettleJob(s, w) == Some(t)
    ensures Good(t)
  {
    hide Good, Flow, Inv, CompleteNode, NodeKey, Finishes, SettleJob, Frees, SeatsOk, Bulkhead.Released, SlotOf;
    var n := s.workers[w].nodeId;
    GoodGives(s);
    GoodFlows(s);
    SettleIs(s, w, t);
    if Frees(s, t, w, n) {
      FreeKeeps(s, t, w, n);
    } else {
      CompleteFinishes(s.core, n, s.completed[Key(s, n)]);
      FlowSeats(s);
      FinishesSame(s.core, t.core, n);
      VacatedSeats(s, t, w);
      RecordStepKeeps(s, t, w, n);
    }
  }

  lemma {:induction false} FinishesSame(c: Core, d: Core, n: Id)
    requires Finishes(c, d, n)
    ensures d.graph == c.graph && d.runId == c.runId && d.status.Keys == c.status.Keys
  {
    hide Inv, Promoted;
  }

  lemma {:induction false} FlowNodes(s: State)
    requires Flow(s)
    ensures NodesOk(s) && FaultOk(s)
  {}

  /** A step of any worker keeps the invariant. */
  lemma {:induction false} WorkerKeeps(s: State, step: Step, t: State)
    requires Good(s) && Sound(s) && WorkerStep(s, step) == Some(t)
    ensures Good(t)
  {
    hide Good, Sound, BeginJob, SettleJob;
    match step {
      case Take(w, job) => TakeKeeps(s, t, w, job);
      case Leave(w) => LeaveKeeps(s, t, w);
      case Begin(w) => BeginKeeps(s, w);
      case Settle(w) => SettleKeeps(s, w, t);
      case _ =>
    }
  }

  /* ---------- redelivery and cancellation ---------- */

  lemma {:induction false} IssuedNumbered(s: State, n: Id)
    requires Good(s) && n in s.issued
    ensures s.issued[n] >= 1
  {
    hide Inv, NodesOk, OwnersOk, AttemptsOk, PassesOk, WorkersOk, BatchOk, LayersOk, Promoted, Sound, FaultOk,
      FramesDone, SeatsOk, Lists;
  }

  lemma {:induction false} RedeliverKeeps(s: State, t: State, job: Job)
    requires Good(s) && job.nodeId in s.issued && job.attempt >= 1
    requires t == s.(queue := s.queue + multiset{job})
    ensures Good(t)
  {
    hide Good, Sound, NodesOk, LayersOk, FaultOk, SeatsMatch;
    GoodFlows(s);
    forall n | n in t.frames && n in t.core.status
      ensures OwnerOk(t, n)
    {
      assert OwnerOk(s, n);
    }
    RedeliverQueue(s, t, job);
    RedeliverBatch(s, t, job);
    LayersSame(s, t);
    GoodFrom(s, t);
  }

  lemma {:induction false} RedeliverQueue(s: State, t: State, job: Job)
    requires WorkersOk(s) && QueueOk(s) && job.nodeId in s.issued && job.attempt >= 1
    requires t == s.(queue := s.queue + multiset{job})
    ensures WorkersOk(t) && QueueOk(t)
  {
    hide NodeKey;
    forall i | 0 <= i < |t.workers|
      ensures WorkerOk(t, t.workers[i])
    {
      assert WorkerOk(s, s.workers[i]);
    }
    forall n | n in t.issued
      ensures IssuedOk(t, n)
    {
      assert IssuedOk(s, n);
    }
  }

  lemma {:induction false} RedeliverBatch(s: State, t: State, job: Job)
    requires BatchOk(s) && t == s.(queue := s.queue + multiset{job})
    ensures BatchOk(t)
  {
    forall m | OnCourse(t) && m in t.issued && m in t.core.status && t.core.status[m] == Ready
      ensures t.driver.Dispatching? && (Held(t, m) || Queued(t, m))
    {
      if Held(s, m) {
        var i :| 0 <= i < |s.workers| && s.workers[i].Holding? && s.workers[i].job.nodeId == m;
        assert t.workers[i].Holding? && t.workers[i].job.nodeId == m;
      } else {
        var other :| other in s.queue && other.nodeId == m;
        assert other in t.queue;
      }
    }
  }

  lemma {:induction false} CancelFlagKeeps(s: State, t: State)
    requires Good(s) && t == s.(cancelled := true)
    ensures Good(t)
  {
    hide Good, Sound, NodesOk, LayersOk, FaultOk, SeatsMatch;
    GoodFlows(s);
    forall n | n in t.frames && n in t.core.status
      ensures OwnerOk(t, n)
    {
      assert OwnerOk(s, n);
    }
    FlagQueue(s, t);
    LayersSame(s, t);
    GoodFrom(s, t);
  }

  lemma {:induction false} FlagQueue(s: State, t: State)
    requires WorkersOk(s) && QueueOk(s) && t == s.(cancelled := true)
    ensures WorkersOk(t) && QueueOk(t)
  {
    hide NodeKey;
    forall i | 0 <= i < |t.workers|
      ensures WorkerOk(t, t.workers[i])
    {
      assert WorkerOk(s, s.workers[i]);
    }
    forall n | n in t.issued
      ensures IssuedOk(t, n)
    {
      assert IssuedOk(s, n);
    }
  }

  /* ---------- the end of a round ---------- */

  /** Once all workers are gone, no execution is live and, unless cancelled, every enqueued node was executed. */
  lemma {:induction false} NothingLive(s: State)
    requires Flow(s) && forall w | w in s.workers :: w.Gone?
    ensures forall n | n in s.frames && n in s.core.status :: !Live(s.frames[n].pc, s.core.status[n])
    ensures OnCourse(s) ==> forall n | n in s.issued :: n in s.frames
  {
    hide NodesOk, LayersOk, Sound, SeatsOk, FaultOk;
    forall n | n in s.frames && n in s.core.status
      ensures !Live(s.frames[n].pc, s.core.status[n])
    {
      assert OwnerOk(s, n);
      var owner := s.frames[n].owner;
      assert owner < |s.workers| ==> s.workers[owner] in s.workers;
    }
    forall n | n in s.issued && OnCourse(s)
      ensures n in s.frames
    {
      assert IssuedOk(s, n);
      assert s.workers[0] in s.workers && s.workers[0].Gone?;
      NotHeld(s, n);
      assert !Queued(s, n);
    }
  }

  lemma {:induction false} NotHeld(s: State, n: Id)
    requires forall w | w in s.workers :: w.Gone?
    ensures !Held(s, n)
  {
    forall i | 0 <= i < |s.workers|
      ensures !s.workers[i].Holding?
    {
      assert s.workers[i] in s.workers;
    }
  }

  /** An execution that is over has completed its node, or its node is bad. */
  lemma {:induction false} OverOrBad(s: State, n: Id)
    requires NodesOk(s) && n in s.core.status && n in s.frames && !Live(s.frames[n].pc, s.core.status[n])
    requires FaultOk(s) && !s.fault
    ensures s.core.status[n] == Completed || Bad(s.core.status[n])
  {
    hide ViewOk, Live, Bad, NodeKey;
    NodesGive(s, n);
    OverViewBad(ViewOf(s, n));
  }

  lemma {:induction false} OverViewBad(v: View)
    requires ViewOk(v) && v.frame.Some? && !Live(v.frame.value.pc, v.st) && !v.frame.value.pc.Escaped?
    ensures v.st == Completed || Bad(v.st)
  {}

  lemma {:induction false} EndLayers(s: State, t: State)
    requires Flow(s) && s.driver.Dispatching? && !s.fault && t == s.(driver := Between)
    requires forall w | w in s.workers :: w.Gone?
    ensures LayersOk(t)
  {
    hide NodesOk, OwnersOk, WorkersOk, QueueOk, BatchOk, Sound, BatchesAreLayers, DoneAfter, Deps, SeatsOk, FaultOk;
    NothingLive(s);
    if t.firstRun && !t.cancelled && NoBad(t.core.status) {
      forall n | n in s.core.status && n in DoneAfter(Deps(s.core.graph), |s.batches|)
        ensures s.core.status[n] == Completed
      {
        assert n in s.issued.Keys;
        FlowNodes(s);
        OverOrBad(s, n);
      }
    }
  }

  lemma {:induction false} EndKeeps(s: State, t: State)
    requires Good(s) && s.driver.Dispatching? && !s.fault && t == s.(driver := Between)
    requires forall w | w in s.workers :: w.Gone?
    ensures Good(t)
  {
    hide Good, Sound, NodesOk, OwnersOk, WorkersOk, QueueOk, BatchOk, LayersOk, FaultOk, SeatsMatch;
    GoodFlows(s);
    EndQueue(s, t);
    EndBatch(s, t);
    EndLayers(s, t);
    GoodFrom(s, t);
  }

  lemma {:induction false} EndQueue(s: State, t: State)
    requires Flow(s) && s.driver.Dispatching? && !s.fault && t == s.(driver := Between)
    requires forall w | w in s.workers :: w.Gone?
    ensures OwnersOk(t) && WorkersOk(t) && QueueOk(t)
  {
    hide NodeKey, NodesOk, BatchOk, LayersOk, Sound, SeatsOk, FaultOk;
    NothingLive(s);
    forall i | 0 <= i < |t.workers|
      ensures WorkerOk(t, t.workers[i])
    {
      assert WorkerOk(s, s.workers[i]);
      assert s.workers[i] in s.workers;
    }
    forall n | n in t.issued
      ensures IssuedOk(t, n)
    {
      assert IssuedOk(s, n);
    }
  }

  lemma {:induction false} EndBatch(s: State, t: State)
    requires Flow(s) && s.driver.Dispatching? && !s.fault && t == s.(driver := Between)
    requires forall w | w in s.workers :: w.Gone?
    ensures BatchOk(t)
  {
    hide LayersOk, OwnersOk, WorkersOk, QueueOk, Sound, SeatsOk, FaultOk;
    NothingLive(s);
    forall n | OnCourse(t) && n in t.issued && n in t.core.status
      ensures t.core.status[n] != Ready
    {
      OverOrBad(s, n);
    }
  }
}
