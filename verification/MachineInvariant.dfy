/** What every reachable state of the executor satisfies, and that each node step keeps it. */
module MachineInvariant {
  import opened Wrappers
  import opened WorkflowTypes
  import opened NodeMachine
  import opened Graph
  import opened Layers
  import opened WorkflowLog
  import opened WorkflowCore
  import opened CoreInvariant
  import opened Conditions
  import opened Keys
  import opened Retry
  import opened Machine
  import opened Seats

  /* ---------- one node ---------- */

  /** Everything the control state says about one node. */
  datatype View = View(st: Status, logged: Status, frame: Option<Frame>, inFlight: bool, done: Option<NodeResult>)

  function ViewOf(s: State, n: Id): View
    requires n in s.core.status
  {
    View(s.core.status[n],
         SnapOf(Snaps(s.core.log), n).status,
         if n in s.frames then Some(s.frames[n]) else None,
         Key(s, n) in s.inFlight,
         if Key(s, n) in s.completed then Some(s.completed[Key(s, n)]) else None)
  }

  predicate PcOk(pc: Pc, st: Status, logged: Status) {
    match pc
    case Started => st == Running
    case Approved => st == Running
    case Handling => st == Running
    case Returned(_) => st == Running
    case AwaitingApproval => st == Waiting
    case Denied => st == Failed && !Terminal(logged)
    case Verified(_) => st == Verifying
    case Resolved(_) => (st == Verifying || st == Completed)
    case Sleeping => st == Retrying
    case Undoing => st == Compensating
    case UndoingUpstream(_, _, _) => st == RolledBack
    case Rejected => (st == Failed || st == RolledBack || st == Quarantined)
    case Escaped => st == Waiting
  }

  /** Statuses a node can have outside any execution. */
  predicate AtRest(st: Status) {
    st != Running && st != Waiting && st != Verifying && st != Retrying && st != Compensating
  }

  /**
   A node has an execution exactly while its key is in flight or resolved by this process, and the execution's
   position fixes the node's status. Without one the node is not under way.
   */
  predicate ViewOk(v: View) {
    match v.frame
    case None => !v.inFlight && (v.done.Some? <==> v.st == Completed) && AtRest(v.st)
    case Some(f) =>
      && PcOk(f.pc, v.st, v.logged)
      && (v.inFlight <==> !f.pc.Resolved?)
      && v.done == (if f.pc.Resolved? then Some(f.pc.result) else None)
  }

  ghost predicate NodesOk(s: State) {
    forall n | n in s.core.status :: ViewOk(ViewOf(s, n))
  }

  /** The execution still has a step to take, or a result its worker has yet to record. */
  predicate Live(pc: Pc, st: Status) {
    !pc.Rejected? && !pc.Escaped? && (pc.Resolved? ==> st != Completed)
  }

  predicate OwnerOk(s: State, n: Id)
    requires n in s.frames && n in s.core.status
  {
    Live(s.frames[n].pc, s.core.status[n]) ==>
      s.driver.Dispatching? && s.frames[n].owner < |s.workers| && s.workers[s.frames[n].owner] == Awaiting(n)
  }

  ghost predicate OwnersOk(s: State) {
    forall n | n in s.frames && n in s.core.status :: OwnerOk(s, n)
  }

  /** Whatever is executed has all it depends on completed. */
  ghost predicate FramesDone(s: State) {
    forall n | n in s.frames :: DepsDone(Deps(s.core.graph), s.core.status, n)
  }

  /**
   The process is broken exactly when an illegal transition has escaped from some execution, and then its round never
   ends.
   */
  ghost predicate FaultOk(s: State) {
    && (s.fault <==> exists n :: n in s.frames && s.frames[n].pc.Escaped?)
    && (s.fault ==> s.driver.Dispatching?)
  }

  /* ---------- attempts and compensation ---------- */

  function Max(a: int, b: int): int { if a >= b then a else b }

  predicate AttemptOk(f: Frame, maxAttempts: int) {
    && 1 <= f.start <= f.attempt <= Max(f.start, maxAttempts)
    && (f.pc.Sleeping? ==> f.attempt < maxAttempts)
    && f.runs == f.attempt - f.start + 1
  }

  ghost predicate AttemptsOk(s: State) {
    forall n | n in s.frames && n in ById(s.core.graph) :: AttemptOk(s.frames[n], PolicyOf(DefOf(s, n)).maxAttempts)
  }

  /** The nodes of a pass that its loop undoes, in the order of the pass. */
  function UndoPlan(registry: map<string, Compensation>, g: seq<Node>, failed: Id, pass: seq<Id>): seq<Id> {
    if pass == [] then []
    else
      var n := pass[|pass| - 1];
      UndoPlan(registry, g, failed, pass[..|pass| - 1])
      + (if n != failed && n in ById(g) && Undoable(registry, ById(g)[n]) then [n] else [])
  }

  /** A pass walks the completion order, as it stood when the pass began, backwards, undoing what its plan lists. */
  ghost predicate PassOk(s: State, n: Id, pc: Pc) {
    pc.UndoingUpstream? ==>
      && |pc.pass| <= |s.core.completionOrder|
      && pc.pass == Reverse(s.core.completionOrder[..|pc.pass|])
      && pc.next <= |pc.pass|
      && pc.undone == UndoPlan(s.registry, s.core.graph, n, pc.pass[..pc.next])
  }

  ghost predicate PassesOk(s: State) {
    forall n | n in s.frames :: PassOk(s, n, s.frames[n].pc)
  }

  /* ---------- workers, queue, rounds ---------- */

  ghost predicate WorkerOk(s: State, w: Worker) {
    && (w.Holding? ==> w.job.nodeId in s.issued && w.job.attempt >= 1)
    && (w.Awaiting? ==> w.nodeId in s.core.status && (w.nodeId in s.frames || Key(s, w.nodeId) in s.completed))
    && (!s.driver.Dispatching? ==> w.Gone?)
  }

  ghost predicate WorkersOk(s: State) {
    |s.workers| >= 1 && forall i | 0 <= i < |s.workers| :: WorkerOk(s, s.workers[i])
  }

  ghost predicate QueueOk(s: State) {
    && (forall job | job in s.queue :: job.nodeId in s.issued && job.attempt >= 1)
    && s.issued.Keys <= s.core.status.Keys
    && (forall n | n in s.issued :: IssuedOk(s, n) && s.issued[n] >= 1)
  }

  /** A node that was enqueued has an execution, or waits for one, or was cancelled at the end of the run. */
  predicate IssuedOk(s: State, n: Id)
    requires n in s.core.status
  {
    var st := s.core.status[n];
    && st != Planned && st != Skipped
    && (n in s.frames || st == Ready || (st == Cancelled && s.driver.Stopped?))
  }

  ghost predicate Held(s: State, n: Id) {
    exists i :: 0 <= i < |s.workers| && s.workers[i].Holding? && s.workers[i].job.nodeId == n
  }

  ghost predicate Queued(s: State, n: Id) {
    && (forall i | 0 <= i < |s.workers| :: !s.workers[i].Gone?)
    && exists job :: job in s.queue && job.nodeId == n
  }

  /** Neither cancelled, stopped nor broken. */
  predicate OnCourse(s: State) {
    !s.cancelled && !s.driver.Stopped? && !s.fault
  }

  /** Until cancellation, no ready node that was enqueued can be forgotten. */
  ghost predicate BatchOk(s: State) {
    OnCourse(s) ==>
      forall n | n in s.issued && n in s.core.status && s.core.status[n] == Ready ::
        s.driver.Dispatching? && (Held(s, n) || Queued(s, n))
  }

  /** The bulkhead's counters are those of the seats the workers hold. */
  ghost predicate SeatsOk(s: State) {
    SeatsMatch(s.limits, s.counters, s.core.runId, s.core.graph, s.workers)
  }

  /** `order` lists exactly `members`, each once. */
  ghost predicate Lists(order: seq<Id>, members: set<Id>) {
    if order == [] then members == {}
    else order[|order| - 1] in members && Lists(order[..|order| - 1], members - {order[|order| - 1]})
  }

  /* ---------- the layers ---------- */

  /** Statuses of nodes that failed, were skipped or were cancelled. */
  predicate Bad(st: Status) {
    (st == Failed || st == Compensating || st == RolledBack || st == Quarantined || st == Skipped || st == Cancelled)
  }

  ghost predicate NoBad(st: Statuses) {
    forall n | n in st :: !Bad(st[n])
  }

  function NodeIds(ns: seq<Node>): seq<Id> {
    seq(|ns|, i requires 0 <= i < |ns| => ns[i].id)
  }

  ghost predicate BatchesAreLayers(g: seq<Node>, batches: seq<seq<Id>>) {
    forall k | 0 <= k < |batches| :: batches[k] == NodeIds(LayerAt(g, k))
  }

  /** All of `done` has completed, and nothing beyond `reach` has started. */
  ghost predicate Delimited(st: Statuses, done: set<Id>, reach: set<Id>) {
    && (forall n | n in st && n in done :: st[n] == Completed)
    && (forall n | n in st && st[n] != Planned && st[n] != Ready :: n in reach)
  }

  /** The rounds begun and the rounds finished delimit what can have started and what must have completed. */
  ghost predicate LayersOk(s: State) {
    var r, begun := Deps(s.core.graph), |s.batches|;
    s.firstRun && !s.cancelled && NoBad(s.core.status) ==>
      && (s.driver.Dispatching? ==> begun >= 1)
      && Delimited(s.core.status, DoneAfter(r, if s.driver.Dispatching? then begun - 1 else begun), DoneAfter(r, begun))
      && s.issued.Keys == DoneAfter(r, begun)
      && BatchesAreLayers(s.core.graph, s.batches)
  }

  /** Every round enqueued some node no earlier round of the process had. */
  ghost predicate RoundsOk(s: State) {
    |s.batches| <= |s.issued| && forall k | 0 <= k < |s.batches| :: s.batches[k] != []
  }

  /* ---------- the invariant ---------- */

  ghost predicate Good(s: State) {
    && Sound(s) && FaultOk(s)
    && Inv(s.core) && Promoted(Deps(s.core.graph), s.core.status)
    && NodesOk(s) && FramesDone(s) && OwnersOk(s) && AttemptsOk(s) && PassesOk(s)
    && WorkersOk(s) && QueueOk(s) && BatchOk(s) && SeatsOk(s)
    && Lists(s.started, s.frames.Keys) && RoundsOk(s)
    && LayersOk(s)
  }

  /* ---------- node steps ---------- */

  /** Apart from `n`, a node step at most skips planned nodes; it completes nothing. */
  ghost predicate Others(c: Core, d: Core, n: Id) {
    && d.graph == c.graph && d.runId == c.runId && d.results == c.results && d.completionOrder == c.completionOrder
    && d.status.Keys == c.status.Keys && d.attempt.Keys == c.attempt.Keys && d.failures.Keys == c.failures.Keys
    && (forall m | m in c.status && m != n ::
          d.status[m] == c.status[m] || (c.status[m] == Planned && d.status[m] == Skipped))
    && (forall m | m in c.status && m != n && c.status[m] != Planned ::
          SnapOf(Snaps(d.log), m) == SnapOf(Snaps(c.log), m))
  }

  /** Statuses a node can have after one of its own steps. */
  predicate Stepped(st: Status) {
    (st != Planned && st != Ready && st != Skipped && st != Cancelled && st != Completed)
  }

  /** What one step of the execution of `n` does to the rest of the state. */
  ghost predicate Touches(s: State, t: State, n: Id) {
    && n in s.frames && n in s.core.status && n in t.frames
    && t == s.(core := t.core, frames := s.frames[n := t.frames[n]], inFlight := t.inFlight, completed := t.completed,
               fault := t.fault)
    && Inv(t.core) && Others(s.core, t.core, n)
    && t.frames[n].owner == s.frames[n].owner
    && Stepped(t.core.status[n]) && ViewOk(ViewOf(t, n))
    && (Bad(s.core.status[n]) ==> Bad(t.core.status[n]))
    && (n in ById(t.core.graph) ==> AttemptOk(t.frames[n], PolicyOf(DefOf(t, n)).maxAttempts))
    && PassOk(t, n, t.frames[n].pc)
    && (forall k | k != Key(s, n) :: k in t.inFlight <==> k in s.inFlight)
    && t.completed.Keys <= s.completed.Keys + {Key(s, n)}
    && (forall k | k in s.completed && k != Key(s, n) :: k in t.completed && t.completed[k] == s.completed[k])
    && (Key(s, n) in s.completed ==> Key(s, n) in t.completed)
  }

  /** Such a step breaks the process exactly if an illegal transition escapes, which happens to waiting nodes only. */
  ghost predicate NodeEffect(s: State, t: State, n: Id) {
    && Touches(s, t, n)
    && t.fault == (s.fault || t.frames[n].pc.Escaped?)
    && (t.frames[n].pc.Escaped? ==> s.core.status[n] == Waiting)
  }

  /** The invariant does not look at attempt and failure counts or at what was compensated. */
  lemma {:induction false} InvIgnoresCounts(c: Core, d: Core)
    requires Inv(c) && d == c.(attempt := d.attempt, failures := d.failures, compensated := d.compensated)
    requires Numbered(d.attempt)
    ensures Inv(d)
  {
    hide LogOk, OrderOk, DepSafe, AboveDone, SkipClosed, Valid, Agrees;
  }

  lemma {:induction false} InvNumbered(c: Core)
    requires Inv(c)
    ensures Numbered(c.attempt)
  {
    hide SkipClosed, DepSafe, AboveDone, OrderOk, Agrees, LogOk, Numbered;
  }

  lemma {:induction false} RunKeeps(c: Core, n: Id, attempt: int)
    requires Inv(c) && UnderWay(c, n) && n in c.attempt && attempt >= 1
    ensures Inv(RunNode(c, n, attempt)) && Others(c, RunNode(c, n, attempt), n)
    ensures RunNode(c, n, attempt).status == c.status[n := Running]
  {
    hide LogOk, OrderOk, DepSafe, AboveDone, SkipClosed, Static, Agrees, InvSkipping;
    var d := c.(attempt := c.attempt[n := attempt]);
    assert d.attempt.Keys == c.attempt.Keys;
    InvNumbered(c);
    InvIgnoresCounts(c, d);
    MoveKeeps(d, n, Running, NodeRunning(n, attempt));
    SnapsAppend(c.log, NodeRunning(n, attempt));
  }

  lemma {:induction false} CompensatedKeeps(c: Core, id: Id, n: Id)
    requires Inv(c) && id in c.status && c.status[id] == Completed
    ensures Inv(Compensated(c, id)) && Others(c, Compensated(c, id), n)
    ensures Snaps(Compensated(c, id).log) == Snaps(c.log)
  {
    hide LogOk, OrderOk, DepSafe, AboveDone, SkipClosed, Static, Agrees, InvSkipping;
    var d := c.(compensated := c.compensated + [id]);
    InvNumbered(c);
    InvIgnoresCounts(c, d);
    EmitKeeps(d, NodeCompensated(id));
    SnapsAppend(c.log, NodeCompensated(id));
  }

  lemma {:induction false} PromotedStays(r: Rel, st: Statuses, st': Statuses)
    requires Promoted(r, st) && st'.Keys == st.Keys
    requires forall m | m in st :: (st'[m] == Completed ==> st[m] == Completed)
               && (st'[m] == Planned ==> st[m] == Planned)
    ensures Promoted(r, st')
  {
    forall n | n in st' && st'[n] == Planned
      ensures !DepsDone(r, st', n)
    {
      assert !DepsDone(r, st, n);
    }
  }

  lemma {:induction false} OtherViews(s: State, t: State, n: Id, m: Id)
    requires NodesOk(s) && Touches(s, t, n) && m in s.core.status && m != n
    ensures ViewOk(ViewOf(t, m))
  {
    hide Inv, NodeKey, PassOk, AttemptOk, PolicyOf, ViewOk, PcOk;
    assert ViewOk(ViewOf(s, m));
    KeysDiffer(s, n, m);
    ViewIrrelevant(ViewOf(s, m), ViewOf(t, m));
  }

  lemma {:induction false} PcBegun(pc: Pc, st: Status, logged: Status)
    requires PcOk(pc, st, logged)
    ensures (st != Planned && st != Ready && st != Skipped && st != Cancelled)
  {
    match pc {
      case Started => case Approved => case Handling => case Returned(_) => case AwaitingApproval =>
      case Denied => case Verified(_) => case Resolved(_) => case Sleeping => case Undoing =>
      case UndoingUpstream(_, _, _) => case Rejected => case Escaped =>
    }
  }

  lemma {:induction false} ViewIrrelevant(v: View, w: View)
    requires ViewOk(v) && w.frame == v.frame && w.inFlight == v.inFlight && w.done == v.done
    requires w.st == v.st || (v.st == Planned && (w.st == Skipped || w.st == Ready))
    requires v.st != Planned ==> w.logged == v.logged
    ensures ViewOk(w)
  {
    if v.frame.Some? { PcBegun(v.frame.value.pc, v.st, v.logged); }
  }

  lemma {:induction false} KeysDiffer(s: State, n: Id, m: Id)
    requires n != m
    ensures Key(s, n) != Key(s, m)
  {
    if Key(s, n) == Key(s, m) { NodeKeysDiffer(s.core.runId, s.core.graph, n, m); }
  }

  lemma {:induction false} EffectNodes(s: State, t: State, n: Id)
    requires NodesOk(s) && Touches(s, t, n)
    ensures NodesOk(t)
  {
    hide Inv, PassOk, AttemptOk, PolicyOf, ViewOk;
    forall m | m in t.core.status
      ensures ViewOk(ViewOf(t, m))
    {
      if m != n { OtherViews(s, t, n, m); }
    }
  }

  lemma {:induction false} EffectOwners(s: State, t: State, n: Id)
    requires OwnersOk(s) && Touches(s, t, n) && Live(s.frames[n].pc, s.core.status[n])
    ensures OwnersOk(t)
  {
    hide Inv, PassOk, AttemptOk, PolicyOf, ViewOk;
    assert OwnerOk(s, n);
    forall m | m in t.frames && m in t.core.status
      ensures OwnerOk(t, m)
    {
      if m != n { assert OwnerOk(s, m); }
    }
  }

  lemma {:induction false} EffectPasses(s: State, t: State, n: Id)
    requires PassesOk(s) && Touches(s, t, n)
    ensures PassesOk(t)
  {
    hide Inv, AttemptOk, PolicyOf, ViewOk;
    forall m | m in t.frames
      ensures PassOk(t, m, t.frames[m].pc)
    {
      if m != n { assert PassOk(s, m, s.frames[m].pc); }
    }
  }

  lemma {:induction false} EffectAttempts(s: State, t: State, n: Id)
    requires AttemptsOk(s) && Touches(s, t, n)
    ensures AttemptsOk(t)
  {
    hide Inv, PassOk, PolicyOf, ViewOk, AttemptOk;
    forall m | m in t.frames && m in ById(t.core.graph)
      ensures AttemptOk(t.frames[m], PolicyOf(DefOf(t, m)).maxAttempts)
    {
      if m != n { assert AttemptOk(s.frames[m], PolicyOf(DefOf(s, m)).maxAttempts); }
    }
  }

  lemma {:induction false} EffectWorkers(s: State, t: State, n: Id)
    requires WorkersOk(s) && QueueOk(s) && Touches(s, t, n)
    ensures WorkersOk(t) && QueueOk(t)
  {
    hide Inv, PassOk, AttemptOk, PolicyOf, ViewOk;
    forall i | 0 <= i < |t.workers|
      ensures WorkerOk(t, t.workers[i])
    {
      assert WorkerOk(s, s.workers[i]);
    }
  }

  lemma {:induction false} EffectBatch(s: State, t: State, n: Id)
    requires BatchOk(s) && NodeEffect(s, t, n)
    ensures BatchOk(t)
  {
    hide Inv, PassOk, AttemptOk, PolicyOf, ViewOk;
    forall m | OnCourse(t) && m in t.issued && m in t.core.status && t.core.status[m] == Ready
      ensures t.driver.Dispatching? && (Held(t, m) || Queued(t, m))
    {
      assert s.core.status[m] == Ready;
      if Held(s, m) {
        var i :| 0 <= i < |s.workers| && s.workers[i].Holding? && s.workers[i].job.nodeId == m;
        assert t.workers[i].Holding? && t.workers[i].job.nodeId == m;
      }
    }
  }

  lemma {:induction false} DelimitedStays(st: Statuses, st': Statuses, n: Id, done: set<Id>, reach: set<Id>)
    requires n in st && st'.Keys == st.Keys && NoBad(st')
    requires st[n] != Planned && st[n] != Ready && st[n] != Completed && (Bad(st[n]) ==> Bad(st'[n]))
    requires forall m | m in st && m != n :: st'[m] == st[m] || (st[m] == Planned && st'[m] == Skipped)
    ensures NoBad(st) && (Delimited(st, done, reach) ==> Delimited(st', done, reach))
  {
    forall m | m in st
      ensures !Bad(st[m]) && (m != n ==> st'[m] == st[m])
    {
      assert !Bad(st'[m]);
    }
  }

  lemma {:induction false} EffectLayers(s: State, t: State, n: Id)
    requires LayersOk(s) && Touches(s, t, n)
    requires s.core.status[n] != Planned && s.core.status[n] != Ready && s.core.status[n] != Completed
    ensures LayersOk(t)
  {
    hide Inv, PassOk, AttemptOk, PolicyOf, ViewOk, BatchesAreLayers, Snaps, SnapOf, NodeKey, ById, Deps, DoneAfter,
      Delimited, NoBad, Bad;
    if t.firstRun && !t.cancelled && NoBad(t.core.status) {
      var r, begun := Deps(s.core.graph), |s.batches|;
      DelimitedStays(s.core.status, t.core.status, n,
                     DoneAfter(r, if s.driver.Dispatching? && begun > 0 then begun - 1 else begun),
                       DoneAfter(r, begun));
    }
  }

  lemma {:induction false} InvListed(c: Core)
    requires Inv(c)
    ensures Listed(c) && c.status.Keys == Ids(c.graph) && Valid(c.graph)
  {
    hide Agrees, LogOk, OrderOk, DepSafe, AboveDone, SkipClosed;
  }

  lemma {:induction false} EffectSound(s: State, t: State, n: Id)
    requires Sound(s) && Touches(s, t, n)
    ensures Sound(t)
  {
    hide Inv, PassOk, AttemptOk, PolicyOf, ViewOk;
    InvListed(t.core);
  }

  lemma {:induction false} EffectIn(s: State, t: State, n: Id)
    requires Touches(s, t, n)
    ensures n in s.frames && n in s.core.status && n in t.frames
  {
    hide Inv, PassOk, AttemptOk, PolicyOf, ViewOk, Others;
  }

  /** A node step keeps the invariant. */
  lemma {:induction false} EffectKeeps(s: State, t: State, n: Id)
    requires Good(s) && NodeEffect(s, t, n) && Live(s.frames[n].pc, s.core.status[n])
    ensures Good(t)
  {
    hide Inv, NodesOk, OwnersOk, AttemptsOk, PassesOk, WorkersOk, QueueOk, BatchOk, LayersOk, Promoted, Touches, Sound,
      FaultOk, FramesDone, SeatsOk;
    EffectIn(s, t, n);
    LiveNotDone(s, n);
    EffectSound(s, t, n);
    EffectFault(s, t, n);
    EffectNodes(s, t, n);
    EffectDone(s, t, n);
    EffectOwners(s, t, n);
    EffectPasses(s, t, n);
    EffectAttempts(s, t, n);
    EffectWorkers(s, t, n);
    EffectBatch(s, t, n);
    EffectSeats(s, t, n);
    EffectLayers(s, t, n);
    EffectPromoted(s, t, n);
  }

  lemma {:induction false} EffectFault(s: State, t: State, n: Id)
    requires FaultOk(s) && OwnersOk(s) && NodeEffect(s, t, n) && Live(s.frames[n].pc, s.core.status[n])
    ensures FaultOk(t)
  {
    hide Inv, PassOk, AttemptOk, PolicyOf, ViewOk, Others;
    assert OwnerOk(s, n);
    if m :| m in s.frames && s.frames[m].pc.Escaped? { assert t.frames[m].pc.Escaped?; }
    if m :| m in t.frames && t.frames[m].pc.Escaped? && m != n { assert s.frames[m].pc.Escaped?; }
  }

  lemma {:induction false} EffectDone(s: State, t: State, n: Id)
    requires FramesDone(s) && Touches(s, t, n) && s.core.status[n] != Completed
    ensures FramesDone(t)
  {
    hide Inv, PassOk, AttemptOk, PolicyOf, ViewOk, Deps;
    DoneKept(s, t);
  }

  /** Completed nodes stay so, hence what was executed keeps what it depends on. */
  lemma {:induction false} DoneKept(s: State, t: State)
    requires FramesDone(s) && t.core.graph == s.core.graph && t.frames.Keys == s.frames.Keys
    requires forall m | m in s.core.status && s.core.status[m] == Completed ::
               m in t.core.status && t.core.status[m] == Completed
    ensures FramesDone(t)
  {
    hide Deps;
    forall m | m in t.frames
      ensures DepsDone(Deps(t.core.graph), t.core.status, m)
    {
      assert m in s.frames.Keys;
      assert DepsDone(Deps(s.core.graph), s.core.status, m);
    }
  }

  lemma {:induction false} EffectSeats(s: State, t: State, n: Id)
    requires SeatsOk(s) && Touches(s, t, n)
    ensures SeatsOk(t)
  {
    hide Inv, PassOk, AttemptOk, PolicyOf, ViewOk, SeatsMatch;
  }

  lemma {:induction false} EffectPromoted(s: State, t: State, n: Id)
    requires Touches(s, t, n) && (s.core.status[n] != Planned && s.core.status[n] != Completed)
    requires Promoted(Deps(s.core.graph), s.core.status)
    ensures Promoted(Deps(t.core.graph), t.core.status) && t.core.graph == s.core.graph && Inv(t.core)
    ensures t.started == s.started && t.frames.Keys == s.frames.Keys
    ensures t.batches == s.batches && t.issued == s.issued
  {
    hide Inv, PassOk, AttemptOk, PolicyOf, ViewOk, Promoted;
    assert t.frames.Keys == s.frames.Keys + {n};
    PromotedStays(Deps(s.core.graph), s.core.status, t.core.status);
  }

  lemma {:induction false} LiveNotDone(s: State, n: Id)
    requires NodesOk(s) && n in s.core.status && n in s.frames && Live(s.frames[n].pc, s.core.status[n])
    ensures (s.core.status[n] != Planned && s.core.status[n] != Ready && s.core.status[n] != Completed
            && s.core.status[n] != Skipped && s.core.status[n] != Cancelled) && ViewOk(ViewOf(s, n))
  {
    assert ViewOk(ViewOf(s, n));
  }

  /* ---------- the steps one by one ---------- */

  /** What a step of `n` may rely on: a live execution whose node is under way. */
  ghost predicate Stepping(s: State, n: Id) {
    && Sound(s) && Inv(s.core)
    && n in s.frames && n in s.core.status && n in ById(s.core.graph)
    && UnderWay(s.core, n) && ViewOk(ViewOf(s, n))
    && !s.frames[n].pc.Resolved? && !s.frames[n].pc.Rejected? && !s.frames[n].pc.Escaped?
    && AttemptOk(s.frames[n], PolicyOf(DefOf(s, n)).maxAttempts)
    && PassOk(s, n, s.frames[n].pc)
  }

  lemma {:induction false} GoodStepping(s: State, n: Id)
    requires Good(s) && n in s.frames && !s.frames[n].pc.Resolved? && !s.frames[n].pc.Rejected?
    requires !s.frames[n].pc.UndoingUpstream? && !s.frames[n].pc.Escaped?
    ensures Stepping(s, n) && Live(s.frames[n].pc, s.core.status[n])
  {
    hide Inv, OwnersOk, WorkersOk, QueueOk, BatchOk, LayersOk, AttemptOk, PolicyOf, PassOk, UnderWay, Promoted, FaultOk,
      SeatsOk, DepsDone;
    assert ViewOk(ViewOf(s, n));
    FrameUnderWay(s, n);
  }

  lemma {:induction false} FrameUnderWay(s: State, n: Id)
    requires Inv(s.core) && n in s.core.status && n in s.frames && ViewOk(ViewOf(s, n))
    requires !s.frames[n].pc.Resolved? && !s.frames[n].pc.Rejected? && !s.frames[n].pc.UndoingUpstream?
    requires !s.frames[n].pc.Escaped? && DepsDone(Deps(s.core.graph), s.core.status, n)
    ensures UnderWay(s.core, n)
  {
    hide LogOk, OrderOk, DepSafe, AboveDone, SkipClosed, Static, DepsDone, Deps;
    NamelessForgotten(s.core.log, n);
  }

  lemma {:induction false} MovedView(v: View, u: View, pc: Pc)
    requires ViewOk(v) && v.frame.Some? && !v.frame.value.pc.Resolved? && !pc.Resolved?
    requires u.frame == Some(v.frame.value.(pc := pc)) && u.inFlight == v.inFlight && u.done == v.done
    requires PcOk(pc, u.st, u.logged)
    ensures ViewOk(u)
  {
    hide PcOk;
  }

  lemma {:induction false} MovedAttempt(f: Frame, pc: Pc, maxAttempts: int)
    requires AttemptOk(f, maxAttempts) && (pc.Sleeping? ==> f.attempt < maxAttempts)
    ensures AttemptOk(f.(pc := pc), maxAttempts)
  {}

  lemma {:induction false} MovedPass(s: State, t: State, n: Id, pc: Pc)
    requires PassOk(s, n, pc) && t.registry == s.registry && t.core.graph == s.core.graph
    requires t.core.completionOrder == s.core.completionOrder
    ensures PassOk(t, n, pc)
  {}

  /** The execution of `n` goes on in frame `f` with data `c`, which differs in `n` and in skips at most. */
  lemma {:induction false} FrameTouches(s: State, n: Id, c: Core, f: Frame)
    requires Sound(s) && n in s.frames && n in s.core.status && n in c.status && n in ById(s.core.graph)
    requires Inv(c) && Others(s.core, c, n) && Stepped(c.status[n]) && (Bad(s.core.status[n]) ==> Bad(c.status[n]))
    requires f.owner == s.frames[n].owner
    requires ViewOk(View(c.status[n], SnapOf(Snaps(c.log), n).status, Some(f), ViewOf(s, n).inFlight,
             ViewOf(s, n).done))
    requires AttemptOk(f, PolicyOf(DefOf(s, n)).maxAttempts) && PassOk(s, n, f.pc)
    ensures Touches(s, s.(core := c, frames := s.frames[n := f]), n)
  {
    hide Inv, PolicyOf, ById, NodeKey, Snaps, ViewOk, PcOk, AttemptOk, PassOk, Sound;
    var t := s.(core := c, frames := s.frames[n := f]);
    SameGraph(s.core, c, n);
    MovedPass(s, t, n, f.pc);
  }

  /** The execution of `n` goes on to `pc` with data `c`, which differs in `n` and in skips at most. */
  lemma {:induction false} GotoEffect(s: State, n: Id, c: Core, pc: Pc)
    requires Sound(s) && n in s.frames && n in s.core.status && n in c.status && n in ById(s.core.graph)
    requires Inv(c) && Others(s.core, c, n) && Stepped(c.status[n]) && (Bad(s.core.status[n]) ==> Bad(c.status[n]))
    requires ViewOk(ViewOf(s, n)) && !s.frames[n].pc.Resolved? && !s.frames[n].pc.Escaped? && !pc.Resolved?
    requires PcOk(pc, c.status[n], SnapOf(Snaps(c.log), n).status)
    requires AttemptOk(s.frames[n], PolicyOf(DefOf(s, n)).maxAttempts)
    requires pc.Sleeping? ==> s.frames[n].attempt < PolicyOf(DefOf(s, n)).maxAttempts
    requires PassOk(s, n, pc)
    ensures Touches(s, Goto(s, n, c, pc), n)
    ensures !pc.Escaped? ==> NodeEffect(s, Goto(s, n, c, pc), n)
  {
    hide Inv, PolicyOf, ById, NodeKey, Snaps, ViewOk, PcOk, AttemptOk, PassOk, Sound;
    var t := Goto(s, n, c, pc);
    SameGraph(s.core, c, n);
    MovedView(ViewOf(s, n), ViewOf(t, n), pc);
    MovedAttempt(s.frames[n], pc, PolicyOf(DefOf(s, n)).maxAttempts);
    MovedPass(s, t, n, pc);
  }

  lemma {:induction false} MoveOthers(c: Core, n: Id, st: Status, e: Event)
    requires n in c.status && (Effect(e).Some? ==> e.nodeId == n)
    ensures Others(c, Move(c, n, st, e), n) && n in Move(c, n, st, e).status && Move(c, n, st, e).status[n] == st
    ensures SnapOf(Snaps(Move(c, n, st, e).log), n).status ==
            (if Replayed(e) then Effect(e).value else SnapOf(Snaps(c.log), n).status)
  {
    hide Snaps;
    SnapsAppend(c.log, e);
    assert Move(c, n, st, e).status.Keys == c.status.Keys + {n} == c.status.Keys;
  }

  /** The state after a move of `n` alone, with its execution going on to `pc`. */
  lemma {:induction false} MoveEffect(s: State, n: Id, st: Status, e: Event, pc: Pc)
    requires Stepping(s, n) && Begun(st) && st != Completed && Stepped(st) && Reports(e, n, st)
    requires PcOk(pc, st, if Replayed(e) then Effect(e).value else SnapOf(Snaps(s.core.log), n).status)
    requires !pc.Resolved? && !pc.Escaped? && (Bad(s.core.status[n]) ==> Bad(st))
    requires pc.Sleeping? ==> s.frames[n].attempt < PolicyOf(DefOf(s, n)).maxAttempts
    requires PassOk(s, n, pc)
    ensures NodeEffect(s, Goto(s, n, Move(s.core, n, st, e), pc), n)
  {
    hide Inv, PolicyOf, ById, Snaps, ViewOk, PcOk, AttemptOk, PassOk, Sound, NodeEffect, Others, Move, Goto, UnderWay;
    MoveKeeps(s.core, n, st, e);
    MoveOthers(s.core, n, st, e);
    GotoEffect(s, n, Move(s.core, n, st, e), pc);
  }

  lemma {:induction false} OthersSame(c: Core, n: Id)
    ensures Others(c, c, n)
  {
    hide Snaps;
  }

  lemma {:induction false} StayEffect(s: State, n: Id, pc: Pc)
    requires Stepping(s, n) && Stepped(s.core.status[n])
    requires PcOk(pc, s.core.status[n], SnapOf(Snaps(s.core.log), n).status)
    requires !pc.Resolved? && !pc.Sleeping? && !pc.Escaped? && PassOk(s, n, pc)
    ensures NodeEffect(s, Goto(s, n, s.core, pc), n)
  {
    hide Inv, PolicyOf, ById, Snaps, ViewOk, PcOk, AttemptOk, PassOk, Sound, NodeEffect, Others, Goto, UnderWay;
    OthersSame(s.core, n);
    GotoEffect(s, n, s.core, pc);
  }

  lemma {:induction false} EffectsCompose(s: State, mid: Core, t: State, n: Id)
    requires n in s.core.status && n in mid.status && mid.status[n] == s.core.status[n] && Others(s.core, mid, n)
    requires NodeEffect(s.(core := mid), t, n)
    ensures NodeEffect(s, t, n)
  {
    hide Others, Touches;
    TouchesCompose(s, mid, t, n);
  }

  function Counted(s: State, n: Id): State
    requires n in s.core.failures
  {
    s.(core := s.core.(failures := s.core.failures[n := s.core.failures[n] + 1]))
  }

  /** Data that leaves `n` as it is keeps what a step of `n` may rely on. */
  lemma {:induction false} SteppingWith(s: State, c: Core, n: Id)
    requires Stepping(s, n) && Sound(s.(core := c)) && Inv(c) && Others(s.core, c, n)
    requires n in c.status && c.status[n] == s.core.status[n]
    requires SnapOf(Snaps(c.log), n) == SnapOf(Snaps(s.core.log), n)
    ensures Stepping(s.(core := c), n)
  {
    hide Inv, PolicyOf, ById, Snaps, ViewOk, AttemptOk, PassOk, Sound, NodeKey, Deps;
    var t := s.(core := c);
    SameGraph(s.core, c, n);
    assert ViewOf(t, n) == ViewOf(s, n);
    MovedPass(s, t, n, s.frames[n].pc);
  }

  lemma {:induction false} CountedSound(s: State, n: Id)
    requires Sound(s) && n in s.core.status
    ensures n in s.core.failures && Sound(Counted(s, n)) && Others(s.core, Counted(s, n).core, n)
    ensures Counted(s, n).core.status == s.core.status && Counted(s, n).core.log == s.core.log
  {
    hide ById, Snaps;
    assert s.core.failures[n := s.core.failures[n] + 1].Keys == s.core.failures.Keys;
  }

  lemma {:induction false} CountKeeps(s: State, n: Id)
    requires Stepping(s, n)
    ensures n in s.core.failures && Stepping(Counted(s, n), n) && Others(s.core, Counted(s, n).core, n)
  {
    hide Inv, PolicyOf, ById, Snaps, ViewOk, AttemptOk, PassOk, Sound, Stepping, Others;
    SteppingGives(s, n);
    SteppingInv(s, n);
    CountedSound(s, n);
    InvNumbered(s.core);
    InvIgnoresCounts(s.core, Counted(s, n).core);
    SteppingWith(s, Counted(s, n).core, n);
  }

  lemma {:induction false} SteppingInv(s: State, n: Id)
    requires Stepping(s, n)
    ensures Inv(s.core)
  {
    hide Inv, PolicyOf, ById, Snaps, ViewOk, AttemptOk, PassOk, Sound;
  }

  lemma {:induction false} FailNodeEffect(s: State, n: Id, quarantine: bool)
    requires Stepping(s, n) && (s.core.status[n] == Running || s.core.status[n] == Failed)
    ensures NodeEffect(s, FailNode(s, n, quarantine), n)
  {
    hide Stepping, NodeEffect, PolicyOf, Undoable;
    SteppingGives(s, n);
    if quarantine {
      QuarantineEffect(s, n);
    } else if Undoable(s.registry, DefOf(s, n)) {
      CompensateEffect(s, n);
    } else {
      FailPlainEffect(s, n);
    }
  }

  lemma {:induction false} QuarantineEffect(s: State, n: Id)
    requires Stepping(s, n) && (s.core.status[n] == Running || s.core.status[n] == Failed)
    ensures NodeEffect(s, FailNode(s, n, true), n)
  {
    hide Stepping, NodeEffect, PolicyOf, FailNode, Goto, Move, UnderWay, Sound, Snaps, ById, DefOf, SnapOf;
    SteppingGives(s, n);
    FailNodeQuarantines(s, n);
    MoveEffect(s, n, Quarantined, NodeQuarantined(n), Rejected);
  }

  lemma {:induction false} FailNodeQuarantines(s: State, n: Id)
    requires Sound(s) && n in s.frames && (s.core.status[n] == Running || s.core.status[n] == Failed)
    ensures FailNode(s, n, true) == Goto(s, n, Move(s.core, n, Quarantined, NodeQuarantined(n)), Rejected)
  {
    hide Goto, Move;
  }

  lemma {:induction false} CompensateEffect(s: State, n: Id)
    requires Stepping(s, n) && (s.core.status[n] == Running || s.core.status[n] == Failed)
             && Undoable(s.registry, DefOf(s, n))
    ensures NodeEffect(s, FailNode(s, n, false), n)
  {
    hide Stepping, NodeEffect, PolicyOf, FailNode, Goto, Move, UnderWay, Sound, Snaps, ById, DefOf, SnapOf, Undoable;
    SteppingGives(s, n);
    FailNodeCompensates(s, n);
    MoveEffect(s, n, Compensating, NodeCompensating(n), Undoing);
  }

  lemma {:induction false} FailNodeCompensates(s: State, n: Id)
    requires Sound(s) && n in s.frames && (s.core.status[n] == Running || s.core.status[n] == Failed)
    requires Undoable(s.registry, DefOf(s, n))
    ensures FailNode(s, n, false) == Goto(s, n, Move(s.core, n, Compensating, NodeCompensating(n)), Undoing)
  {
    hide Goto, Move, Undoable;
  }

  lemma {:induction false} FailPlainEffect(s: State, n: Id)
    requires Stepping(s, n) && (s.core.status[n] == Running || s.core.status[n] == Failed)
             && !Undoable(s.registry, DefOf(s, n))
    ensures NodeEffect(s, FailNode(s, n, false), n)
  {
    hide Stepping, NodeEffect, PolicyOf, UnderWay, Sound, Snaps, ById, DefOf, SnapOf, Undoable;
    SteppingGives(s, n);
    MoveEffect(s, n, Failed, NodeFailed(n), Rejected);
  }

  /** The cases of the catch block. */
  lemma {:induction false} FailCases(s: State, n: Id, error: string, guard: Guard)
    requires Sound(s) && n in s.frames
    requires n in ById(s.core.graph) && n in s.core.status && n in s.core.failures && Sound(Counted(s, n))
    ensures var f, t, counted := s.frames[n], FailAttempt(s, n, error, guard), Counted(s, n);
            var policy := PolicyOf(ById(s.core.graph)[n]);
            if guard.stop || !(f.attempt < policy.maxAttempts && IsRetryable(policy, error)) then
              t == FailNode(counted, n, guard.quarantine)
            else if s.core.status[n] == Failed then t == Goto(s, n, counted.core, Rejected)
            else if Transition(s.core.status[n], Fail).None? then t == Escape(counted, n, counted.core)
            else
              t == Goto(s, n, Move(counted.core, n, Retrying, NodeRetrying(n, f.attempt)), Sleeping)
  {
    hide Undoable, ById, IsRetryable, PolicyOf, FailNode, Sound;
  }

  lemma {:induction false} FailEffect(s: State, n: Id, error: string, guard: Guard)
    requires Stepping(s, n) && (s.core.status[n] == Running || s.core.status[n] == Failed)
    ensures NodeEffect(s, FailAttempt(s, n, error, guard), n)
  {
    hide Stepping, NodeEffect, Others, PolicyOf, IsRetryable, FailNode, FailAttempt, Snaps, SnapOf, Move, Sound, ById;
    SteppingGives(s, n);
    CountKeeps(s, n);
    var counted := Counted(s, n);
    SteppingGives(counted, n);
    FailCases(s, n, error, guard);
    var f, policy := s.frames[n], PolicyOf(DefOf(s, n));
    if guard.stop || !(f.attempt < policy.maxAttempts && IsRetryable(policy, error)) {
      FailNodeEffect(counted, n, guard.quarantine);
    } else if s.core.status[n] == Failed {
      StayEffect(counted, n, Rejected);
    } else {
      RetryEffect(counted, n);
    }
    EffectsCompose(s, counted.core, FailAttempt(s, n, error, guard), n);
  }

  /** A waiting node cannot fail, whatever the error and the guard. */
  lemma {:induction false} WaitingEscapes(s: State, n: Id, error: string, guard: Guard)
    requires Sound(s) && n in s.frames && n in s.core.status && n in s.core.failures && s.core.status[n] == Waiting
    requires Sound(Counted(s, n))
    ensures FailAttempt(s, n, error, guard) == Escape(Counted(s, n), n, Counted(s, n).core)
  {
    hide Sound, ById, IsRetryable, PolicyOf, Undoable;
  }

  lemma {:induction false} EscapeEffect(s: State, n: Id, error: string, guard: Guard)
    requires Stepping(s, n) && s.core.status[n] == Waiting
    ensures NodeEffect(s, FailAttempt(s, n, error, guard), n) && FailAttempt(s, n, error, guard).fault
  {
    hide Stepping, Others, PolicyOf, ById, Snaps, SnapOf, FailAttempt, Inv, ViewOk, AttemptOk, PassOk, Sound, Touches;
    SteppingGives(s, n);
    CountKeeps(s, n);
    var counted := Counted(s, n);
    SteppingGives(counted, n);
    WaitingEscapes(s, n, error, guard);
    StuckTouches(counted, n);
    TouchesCompose(s, counted.core, Goto(counted, n, counted.core, Escaped), n);
    TouchesFault(s, Goto(counted, n, counted.core, Escaped), n);
  }

  lemma {:induction false} StuckTouches(s: State, n: Id)
    requires Stepping(s, n) && s.core.status[n] == Waiting
    ensures Touches(s, Goto(s, n, s.core, Escaped), n)
  {
    hide Inv, PolicyOf, ById, Snaps, ViewOk, AttemptOk, PassOk, Sound, Touches, Others, Goto, UnderWay;
    OthersSame(s.core, n);
    NoPass(s, n, Escaped);
    GotoEffect(s, n, s.core, Escaped);
  }

  lemma {:induction false} NoPass(s: State, n: Id, pc: Pc)
    requires !pc.UndoingUpstream?
    ensures PassOk(s, n, pc)
  {}

  lemma {:induction false} TouchesFault(s: State, t: State, n: Id)
    requires Touches(s, t, n)
    ensures Touches(s, t.(fault := true), n)
  {
    hide Inv, PassOk, AttemptOk, PolicyOf, ViewOk;
    var u := t.(fault := true);
    assert ViewOf(u, n) == ViewOf(t, n);
    MovedPass(t, u, n, t.frames[n].pc);
  }

  lemma {:induction false} TouchesCompose(s: State, mid: Core, t: State, n: Id)
    requires n in s.core.status && n in mid.status && mid.status[n] == s.core.status[n] && Others(s.core, mid, n)
    requires Touches(s.(core := mid), t, n)
    ensures Touches(s, t, n)
  {
    hide Inv, PassOk, AttemptOk, PolicyOf, ViewOk;
  }

  lemma {:induction false} RetryEffect(s: State, n: Id)
    requires Stepping(s, n) && s.core.status[n] == Running && s.frames[n].attempt < PolicyOf(DefOf(s, n)).maxAttempts
    ensures NodeEffect(s, Goto(s, n, Move(s.core, n, Retrying, NodeRetrying(n, s.frames[n].attempt)), Sleeping), n)
  {
    hide Stepping, NodeEffect, PolicyOf, Goto, Move, Snaps, SnapOf, ById, Sound, UnderWay;
    SteppingGives(s, n);
    MoveEffect(s, n, Retrying, NodeRetrying(n, s.frames[n].attempt), Sleeping);
  }

  lemma {:induction false} SkipsAreOthers(c: Core, d: Core, n: Id)
    requires n in c.status && c.status[n] == Running && OnlySkips(c.status, d.status) && Quiet(c, d) && SameRest(c, d)
    ensures Others(c, d, n) && n in d.status && d.status[n] == Running
    ensures SnapOf(Snaps(d.log), n) == SnapOf(Snaps(c.log), n)
  {
    hide Snaps, SnapOf;
  }

  lemma {:induction false} SkipsStepping(s: State, n: Id, ns: seq<Id>)
    requires Stepping(s, n) && s.core.status[n] == Running
    ensures var c := SkipAll(s.core, ns).core;
            Others(s.core, c, n) && Stepping(s.(core := c), n) && c.status[n] == Running
  {
    hide Inv, PolicyOf, ById, Snaps, ViewOk, AttemptOk, PassOk, Sound, Stepping, Others, SkipAll, OnlySkips, Quiet,
      SameRest;
    SteppingGives(s, n);
    SteppingInv(s, n);
    InvListed(s.core);
    SkipAllKeeps(s.core, ns);
    SkipAllRest(s.core, ns);
    SkipAllSound(s, ns);
    SkipsAreOthers(s.core, SkipAll(s.core, ns).core, n);
    SteppingWith(s, SkipAll(s.core, ns).core, n);
  }

  lemma {:induction false} BranchEffect(s: State, n: Id, cond: Condition, source: NodeResult, error: string,
      guard: Guard)
    requires Stepping(s, n) && s.core.status[n] == Running
    ensures NodeEffect(s, Branch(s, n, cond, source, error, guard), n)
  {
    hide Stepping, NodeEffect, Others, NotChosen, BranchResult, FailAttempt;
    SteppingGives(s, n);
    var a := SkipAll(s.core, NotChosen(cond, source));
    SkipsStepping(s, n, NotChosen(cond, source));
    SkipAllSound(s, NotChosen(cond, source));
    var mid := s.(core := a.core);
    SteppingGives(mid, n);
    if a.threw {
      FailEffect(mid, n, error, guard);
    } else {
      StayEffect(mid, n, Returned(BranchResult(n, cond, source)));
    }
    EffectsCompose(s, a.core, Branch(s, n, cond, source, error, guard), n);
  }

  lemma {:induction false} FailedIsDenied(v: View)
    requires ViewOk(v) && v.frame.Some? && !v.frame.value.pc.Rejected? && v.st == Failed
    ensures v.frame.value.pc.Denied?
  {}

  lemma {:induction false} SteppingGives(s: State, n: Id)
    requires Stepping(s, n)
    ensures Sound(s) && n in s.frames && n in s.core.status && n in ById(s.core.graph)
    ensures !Terminal(SnapOf(Snaps(s.core.log), n).status)
    ensures s.core.status[n] == Failed ==> s.frames[n].pc.Denied?
  {
    hide Inv, PolicyOf, ById, Snaps, ViewOk, PcOk, AttemptOk, PassOk, Sound, Begun;
    if s.core.status[n] == Failed { FailedIsDenied(ViewOf(s, n)); }
  }

  lemma {:induction false} CallEffect(s: State, n: Id, error: string, guard: Guard)
    requires Stepping(s, n) && s.core.status[n] == Running
    ensures NodeEffect(s, CallHandler(s, n, error, guard), n)
  {
    hide Stepping, NodeEffect, InputResolves, FailAttempt;
    SteppingGives(s, n);
    if InputResolves(s.core.results, DefOf(s, n)) {
      StayEffect(s, n, Handling);
    } else {
      FailEffect(s, n, error, guard);
    }
  }

  lemma {:induction false} InvokeEffect(s: State, n: Id, needsApproval: bool, error: string, guard: Guard)
    requires Stepping(s, n) && s.core.status[n] == Running
    ensures NodeEffect(s, InvokeNode(s, n, needsApproval, error, guard), n)
  {
    hide Stepping, NodeEffect, CallHandler, Branch, FailAttempt, Truthy, Goto, Move, Sound, ById;
    SteppingGives(s, n);
    var def := DefOf(s, n);
    if def.kind.Conditional? {
      FailEffect(s, n, error, guard);
      CallEffect(s, n, error, guard);
      if def.condition.Some? && def.condition.value.when.nodeId in s.core.results {
        BranchEffect(s, n, def.condition.value, s.core.results[def.condition.value.when.nodeId], error, guard);
      }
    } else {
      CallEffect(s, n, error, guard);
      AskEffect(s, n);
    }
  }

  lemma {:induction false} AskEffect(s: State, n: Id)
    requires Stepping(s, n) && s.core.status[n] == Running
    ensures NodeEffect(s, Goto(s, n, Move(s.core, n, Waiting, ApprovalRequired(n)), AwaitingApproval), n)
  {
    hide Stepping, NodeEffect, Goto, Move, UnderWay, Sound, Snaps, SnapOf, ById, PolicyOf;
    SteppingGives(s, n);
    MoveEffect(s, n, Waiting, ApprovalRequired(n), AwaitingApproval);
  }

  lemma {:induction false} AnswerEffect(s: State, n: Id, approved: bool)
    requires Stepping(s, n) && s.core.status[n] == Waiting
    ensures NodeEffect(s, AnswerApproval(s, n, approved), n)
  {
    if approved { GrantEffect(s, n); } else { DenyEffect(s, n); }
  }

  lemma {:induction false} GrantEffect(s: State, n: Id)
    requires Stepping(s, n) && s.core.status[n] == Waiting
    ensures NodeEffect(s, AnswerApproval(s, n, true), n)
  {
    hide Stepping, NodeEffect, Goto, Move, UnderWay, Sound, Snaps, SnapOf, ById, PolicyOf;
    SteppingGives(s, n);
    MoveEffect(s, n, Running, ApprovalGranted(n), Approved);
  }

  lemma {:induction false} DenyEffect(s: State, n: Id)
    requires Stepping(s, n) && s.core.status[n] == Waiting
    ensures NodeEffect(s, AnswerApproval(s, n, false), n)
  {
    hide Stepping, NodeEffect, Goto, Move, UnderWay, Sound, Snaps, SnapOf, ById, PolicyOf;
    SteppingGives(s, n);
    MoveEffect(s, n, Failed, ApprovalDenied(n), Denied);
  }

  lemma {:induction false} ProceedEffect(s: State, n: Id, error: string, guard: Guard)
    requires Stepping(s, n) && (s.core.status[n] == Running || s.core.status[n] == Failed)
    requires s.frames[n].pc.Denied? || s.core.status[n] == Running
    ensures NodeEffect(s, ProceedAfterApproval(s, n, error, guard), n)
  {
    hide Stepping, NodeEffect, CallHandler, FailAttempt;
    SteppingGives(s, n);
    if s.frames[n].pc.Denied? {
      FailEffect(s, n, error, guard);
    } else if DefOf(s, n).kind.Approval? {
      StayEffect(s, n, Returned(ApprovalResult(DefOf(s, n))));
    } else {
      CallEffect(s, n, error, guard);
    }
  }

  lemma {:induction false} HandlerEffect(s: State, n: Id, outcome: Option<NodeResult>, error: string, guard: Guard)
    requires Stepping(s, n) && s.core.status[n] == Running
    ensures NodeEffect(s, HandlerOutcome(s, n, outcome, error, guard), n)
  {
    hide Stepping, NodeEffect, Branch, FailAttempt;
    SteppingGives(s, n);
    FailEffect(s, n, error, guard);
    var def := DefOf(s, n);
    if outcome.Some? {
      StayEffect(s, n, Returned(outcome.value));
      if def.condition.Some? { BranchEffect(s, n, def.condition.value, outcome.value, error, guard); }
    }
  }

  lemma {:induction false} VerifyEffect(s: State, n: Id)
    requires Stepping(s, n) && s.frames[n].pc.Returned? && s.core.status[n] == Running
    ensures NodeEffect(s, Goto(s, n, Move(s.core, n, Verifying, NodeVerified(n)), Verified(s.frames[n].pc.result)), n)
  {
    hide Stepping, NodeEffect, Goto, Move, UnderWay, Sound, Snaps, SnapOf, ById, PolicyOf;
    SteppingGives(s, n);
    MoveEffect(s, n, Verifying, NodeVerified(n), Verified(s.frames[n].pc.result));
  }

  lemma {:induction false} ResolvedView(v: View, u: View, result: NodeResult)
    requires ViewOk(v) && v.frame.Some? && v.frame.value.pc == Verified(result) && u.st == v.st
    requires u.frame == Some(v.frame.value.(pc := Resolved(result))) && !u.inFlight && u.done == Some(result)
    ensures ViewOk(u)
  {}

  lemma {:induction false} ResolveEffect(s: State, n: Id)
    requires Stepping(s, n) && s.frames[n].pc.Verified? && s.core.status[n] == Verifying
    ensures NodeEffect(s, Goto(s, n, s.core, Resolved(s.frames[n].pc.result)).(
              completed := s.completed[Key(s, n) := s.frames[n].pc.result],
              inFlight := s.inFlight - {Key(s, n)}), n)
  {
    hide Inv, PolicyOf, NodeKey, ById, Snaps, ViewOk, AttemptOk, Sound, UnderWay, Others;
    var result := s.frames[n].pc.result;
    var t := Goto(s, n, s.core, Resolved(result)).(
               completed := s.completed[Key(s, n) := result], inFlight := s.inFlight - {Key(s, n)});
    OthersSame(s.core, n);
    MovedAttempt(s.frames[n], Resolved(result), PolicyOf(DefOf(s, n)).maxAttempts);
    ResolvedView(ViewOf(s, n), ViewOf(t, n), result);
  }

  lemma {:induction false} WokenView(v: View, u: View)
    requires ViewOk(v) && v.frame.Some? && v.frame.value.pc.Sleeping? && u.frame.Some? && u.frame.value.pc.Started?
    requires u.st == Running && u.inFlight == v.inFlight && u.done == v.done
    ensures ViewOk(u) && v.st == Retrying
  {}

  lemma {:induction false} WokenAttempt(f: Frame, maxAttempts: int)
    requires AttemptOk(f, maxAttempts) && f.pc.Sleeping?
    ensures AttemptOk(f.(pc := Started, attempt := f.attempt + 1, runs := f.runs + 1), maxAttempts) && f.attempt >= 1
  {}

  lemma {:induction false} WakeIsFrame(s: State, n: Id)
    requires Sound(s) && n in s.frames
    ensures var f := s.frames[n];
            WakeUp(s, n) == s.(core := RunNode(s.core, n, f.attempt + 1),
                               frames := s.frames[n := f.(pc := Started, attempt := f.attempt + 1, runs := f.runs + 1)])
  {
    hide Sound, RunNode;
  }

  lemma {:induction false} WakeEffect(s: State, n: Id)
    requires Stepping(s, n) && s.frames[n].pc.Sleeping?
    ensures NodeEffect(s, WakeUp(s, n), n)
  {
    hide Stepping, NodeEffect, Inv, PolicyOf, Others, UnderWay, NodeKey, RunNode, Snaps, ById, WakeUp, Sound;
    SteppingGives(s, n);
    WakeIsFrame(s, n);
    WakeTouches(s, n);
    Unbroken(s, WakeUp(s, n), n);
  }

  lemma {:induction false} Unbroken(s: State, t: State, n: Id)
    requires Touches(s, t, n) && t.fault == s.fault && !t.frames[n].pc.Escaped?
    ensures NodeEffect(s, t, n)
  {
    hide Touches;
  }

  lemma {:induction false} WakeTouches(s: State, n: Id)
    requires Stepping(s, n) && s.frames[n].pc.Sleeping?
    ensures Touches(s, WakeUp(s, n), n)
  {
    hide Inv, PolicyOf, Others, NodeKey, RunNode, ViewOk, AttemptOk, PassOk, Snaps, SnapOf, ById, WakeUp, Touches,
      Sound, UnderWay;
    CountsIn(s, n);
    WakeIsFrame(s, n);
    var f := s.frames[n];
    var g := f.(pc := Started, attempt := f.attempt + 1, runs := f.runs + 1);
    WokenAttempt(f, PolicyOf(DefOf(s, n)).maxAttempts);
    RunKeeps(s.core, n, f.attempt + 1);
    NoPass(s, n, Started);
    WokenTouches(s, n, RunNode(s.core, n, f.attempt + 1), g);
  }

  lemma {:induction false} WokenTouches(s: State, n: Id, c: Core, g: Frame)
    requires Sound(s) && n in s.frames && n in s.core.status && n in ById(s.core.graph) && ViewOk(ViewOf(s, n))
    requires s.frames[n].pc.Sleeping? && g.pc.Started? && g.owner == s.frames[n].owner
    requires Inv(c) && Others(s.core, c, n) && c.status == s.core.status[n := Running]
    requires AttemptOk(g, PolicyOf(DefOf(s, n)).maxAttempts) && PassOk(s, n, g.pc)
    ensures Touches(s, s.(core := c, frames := s.frames[n := g]), n)
  {
    hide Inv, PolicyOf, Others, NodeKey, ViewOk, AttemptOk, PassOk, Snaps, SnapOf, ById, Touches, Sound;
    var v := ViewOf(s, n);
    WokenView(v, View(Running, SnapOf(Snaps(c.log), n).status, Some(g), v.inFlight, v.done));
    FrameTouches(s, n, c, g);
  }

  lemma {:induction false} CountsIn(s: State, n: Id)
    requires Sound(s) && n in s.core.status
    ensures n in s.core.attempt
  {
    hide ById;
  }

  lemma {:induction false} SameGraph(c: Core, d: Core, n: Id)
    requires Others(c, d, n)
    ensures d.graph == c.graph && d.runId == c.runId && d.completionOrder == c.completionOrder
  {}

  lemma {:induction false} PassBegins(s: State, n: Id)
    ensures PassOk(s, n, UndoingUpstream(Reverse(s.core.completionOrder), 0, []))
  {
    ReverseLength(s.core.completionOrder);
    assert s.core.completionOrder[..|s.core.completionOrder|] == s.core.completionOrder;
    assert Reverse(s.core.completionOrder)[..0] == [];
  }

  lemma {:induction false} UndoSelfEffect(s: State, n: Id)
    requires Stepping(s, n) && s.frames[n].pc.Undoing? && s.core.status[n] == Compensating
    ensures NodeEffect(s, Goto(s, n, Move(s.core, n, RolledBack, NodeRolledBack(n)),
                               UndoingUpstream(Reverse(s.core.completionOrder), 0, [])), n)
  {
    hide Stepping, NodeEffect, PassOk, UnderWay, Snaps, SnapOf, PolicyOf, Goto, Move, Reverse, Sound, ById;
    SteppingGives(s, n);
    PassBegins(s, n);
    MoveEffect(s, n, RolledBack, NodeRolledBack(n), UndoingUpstream(Reverse(s.core.completionOrder), 0, []));
  }

  lemma {:induction false} ReverseLength(order: seq<Id>)
    ensures |Reverse(order)| == |order|
  {
    if order != [] { ReverseLength(order[..|order| - 1]); }
  }

  lemma {:induction false} ReverseAt(order: seq<Id>, i: nat)
    requires i < |order|
    ensures |Reverse(order)| == |order| && Reverse(order)[i] == order[|order| - 1 - i]
  {
    ReverseLength(order);
    ReverseLength(order[..|order| - 1]);
    if i > 0 { ReverseAt(order[..|order| - 1], i - 1); }
  }

  /** Every node of a pass is completed: the completion order lists only completed nodes, and they stay so. */
  lemma {:induction false} PassCompleted(s: State, n: Id, i: nat)
    requires Good(s) && n in s.frames && s.frames[n].pc.UndoingUpstream? && i < |s.frames[n].pc.pass|
    ensures var id := s.frames[n].pc.pass[i]; id in s.core.status && s.core.status[id] == Completed
  {
    hide NodesOk, OwnersOk, WorkersOk, QueueOk, BatchOk, LayersOk, AttemptsOk, UndoPlan, LogOk, Agrees, DepSafe,
      AboveDone, SkipClosed, Valid;
    var c, pc := s.core, s.frames[n].pc;
    assert PassOk(s, n, pc);
    var order := c.completionOrder[..|pc.pass|];
    ReverseAt(order, i);
    OrderPositions(Deps(c.graph), CompletedSet(c.status), c.completionOrder);
    assert pc.pass[i] == c.completionOrder[|pc.pass| - 1 - i];
    assert pc.pass[i] in c.completionOrder;
  }

  lemma {:induction false} UndoNextEffect(s: State, n: Id)
    requires Good(s) && n in s.frames && s.frames[n].pc.UndoingUpstream?
    ensures NodeEffect(s, UndoOne(s, n), n) && Live(s.frames[n].pc, s.core.status[n])
  {
    hide Inv, OwnersOk, WorkersOk, QueueOk, BatchOk, LayersOk, NodesOk, PolicyOf, Undoable, NodeEffect, AttemptOk,
      NodeKey, Promoted;
    var pc := s.frames[n].pc;
    NodesGive(s, n);
    assert PassOk(s, n, pc);
    if pc.next < |pc.pass| {
      PassCompleted(s, n, pc.next);
      UndoOneFrame(s, n);
    } else {
      UndoEnds(s, n);
    }
  }

  lemma {:induction false} NodesGive(s: State, n: Id)
    requires NodesOk(s) && n in s.core.status
    ensures ViewOk(ViewOf(s, n))
  {}

  ghost predicate UndoTurn(s: State, n: Id) {
    && Sound(s) && Inv(s.core) && n in s.frames && n in s.core.status && n in ById(s.core.graph)
    && s.frames[n].pc.UndoingUpstream? && s.frames[n].pc.next < |s.frames[n].pc.pass|
    && ViewOk(ViewOf(s, n)) && PassOk(s, n, s.frames[n].pc)
    && AttemptOk(s.frames[n], PolicyOf(DefOf(s, n)).maxAttempts)
    && (var id := s.frames[n].pc.pass[s.frames[n].pc.next]; id in s.core.status && s.core.status[id] == Completed)
  }

  lemma {:induction false} UndoOneFrame(s: State, n: Id)
    requires UndoTurn(s, n)
    ensures NodeEffect(s, UndoOne(s, n), n)
  {
    hide NodeEffect, UndoOne, Goto, Undoable, Compensated, PassOk, ViewOk, AttemptOk, Inv, Sound, PolicyOf;
    var pc := s.frames[n].pc;
    var id := pc.pass[pc.next];
    assert pc.pass[..pc.next + 1][..pc.next] == pc.pass[..pc.next];
    assert pc.pass[..pc.next + 1][pc.next] == id;
    UndoDef(s, n);
    PassAdvances(s, n, id);
    UndoStep(s, n, id);
    if id != n && Undoable(s.registry, DefOf(s, id)) {
      UndoHappens(s, n, id);
    } else {
      UndoPasses(s, n);
    }
  }

  lemma {:induction false} UndoDef(s: State, n: Id)
    requires UndoTurn(s, n)
    ensures s.frames[n].pc.pass[s.frames[n].pc.next] in ById(s.core.graph)
  {
    hide ById, Inv, PolicyOf, ViewOk, AttemptOk, PassOk;
  }

  lemma {:induction false} PassAdvances(s: State, n: Id, id: Id)
    requires UndoTurn(s, n) && id == s.frames[n].pc.pass[s.frames[n].pc.next]
    requires var pc := s.frames[n].pc;
             pc.pass[..pc.next + 1][..pc.next] == pc.pass[..pc.next] && pc.pass[..pc.next + 1][pc.next] == id
    ensures id == n || !Undoable(s.registry, DefOf(s, id)) ==>
              PassOk(s, n, s.frames[n].pc.(next := s.frames[n].pc.next + 1))
    ensures id != n && Undoable(s.registry, DefOf(s, id)) ==>
              PassOk(s, n, s.frames[n].pc.(next := s.frames[n].pc.next + 1, undone := s.frames[n].pc.undone + [id]))
  {
    hide Inv, PolicyOf, Undoable, NodeKey, Snaps, Deps, Reverse, SnapOf, ViewOk, AttemptOk;
  }

  lemma {:induction false} UndoView(v: View)
    requires ViewOk(v) && v.frame.Some? && v.frame.value.pc.UndoingUpstream?
    ensures v.st == RolledBack
  {}

  lemma {:induction false} UndoStep(s: State, n: Id, id: Id)
    requires UndoTurn(s, n) && id == s.frames[n].pc.pass[s.frames[n].pc.next]
    ensures var pc := s.frames[n].pc;
            UndoOne(s, n) == (if id != n && Undoable(s.registry, DefOf(s, id))
                              then Goto(s, n, Compensated(s.core, id),
                                pc.(next := pc.next + 1, undone := pc.undone + [id]))
                              else Goto(s, n, s.core, pc.(next := pc.next + 1)))
  {
    hide Inv, PolicyOf, ById, Snaps, ViewOk, AttemptOk, PassOk, Sound, Goto, Compensated, Undoable;
  }

  lemma {:induction false} UndoHappens(s: State, n: Id, id: Id)
    requires UndoTurn(s, n) && id == s.frames[n].pc.pass[s.frames[n].pc.next]
    requires var pc := s.frames[n].pc; PassOk(s, n, pc.(next := pc.next + 1, undone := pc.undone + [id]))
    ensures var pc := s.frames[n].pc;
            NodeEffect(s, Goto(s, n, Compensated(s.core, id), pc.(next := pc.next + 1, undone := pc.undone + [id])), n)
  {
    hide Inv, PolicyOf, ById, Snaps, ViewOk, AttemptOk, PassOk, Sound, NodeEffect, Others, Goto, Compensated;
    UndoView(ViewOf(s, n));
    CompensatedKeeps(s.core, id, n);
    StatusKept(s.core, id);
    var pc := s.frames[n].pc;
    GotoEffect(s, n, Compensated(s.core, id), pc.(next := pc.next + 1, undone := pc.undone + [id]));
  }

  lemma {:induction false} StatusKept(c: Core, id: Id)
    ensures Compensated(c, id).status == c.status
  {}

  lemma {:induction false} UndoPasses(s: State, n: Id)
    requires UndoTurn(s, n) && PassOk(s, n, s.frames[n].pc.(next := s.frames[n].pc.next + 1))
    ensures NodeEffect(s, Goto(s, n, s.core, s.frames[n].pc.(next := s.frames[n].pc.next + 1)), n)
  {
    hide Inv, PolicyOf, ById, Snaps, ViewOk, AttemptOk, PassOk, Sound, NodeEffect, Others, Goto;
    UndoView(ViewOf(s, n));
    OthersSame(s.core, n);
    GotoEffect(s, n, s.core, s.frames[n].pc.(next := s.frames[n].pc.next + 1));
  }

  lemma {:induction false} EndStep(s: State, n: Id)
    requires Sound(s) && n in s.frames && s.frames[n].pc.UndoingUpstream?
             && s.frames[n].pc.next >= |s.frames[n].pc.pass|
    ensures UndoOne(s, n) == Goto(s, n, s.core, Rejected)
  {
    hide Sound, ById, Goto;
  }

  lemma {:induction false} UndoEnds(s: State, n: Id)
    requires Sound(s) && Inv(s.core) && n in s.frames && n in s.core.status && n in ById(s.core.graph)
    requires s.frames[n].pc.UndoingUpstream? && s.frames[n].pc.next >= |s.frames[n].pc.pass|
    requires ViewOk(ViewOf(s, n)) && AttemptOk(s.frames[n], PolicyOf(DefOf(s, n)).maxAttempts)
    ensures NodeEffect(s, UndoOne(s, n), n)
  {
    hide Inv, PolicyOf, ById, Snaps, ViewOk, AttemptOk, Sound, NodeEffect, Others, Goto, UndoOne;
    EndStep(s, n);
    UndoView(ViewOf(s, n));
    OthersSame(s.core, n);
    GotoEffect(s, n, s.core, Rejected);
  }
}
