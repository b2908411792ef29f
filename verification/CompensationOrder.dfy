/** Each compensation pass undoes the completed work it should, once, dependents before what they depend on. */
module CompensationOrder {
  import opened Wrappers
  import opened WorkflowTypes
  import opened NodeMachine
  import opened Graph
  import opened Layers
  import opened WorkflowLog
  import opened WorkflowCore
  import opened CoreInvariant
  import opened Keys
  import Bulkhead
  import opened Machine
  import opened MachineInvariant
  import opened MachineSteps
  import opened WorkerSteps
  import opened Restart
  import opened Safety
  import opened Stopping

  /** What a pass for `failed` should undo among the nodes it walks. */
  ghost predicate ToUndo(s: State, failed: Id, x: Id) {
    x != failed && x in ById(s.core.graph) && Undoable(s.registry, ById(s.core.graph)[x])
  }

  lemma {:induction false} PlanMembers(s: State, failed: Id, pass: seq<Id>, x: Id)
    ensures x in UndoPlan(s.registry, s.core.graph, failed, pass) <==> x in pass && ToUndo(s, failed, x)
  {
    hide Undoable, ById;
    if pass != [] {
      PlanMembers(s, failed, pass[..|pass| - 1], x);
      assert pass == pass[..|pass| - 1] + [pass[|pass| - 1]];
    }
  }

  /** The plan keeps the order of the pass. */
  lemma {:induction false} PlanPositions(s: State, failed: Id, pass: seq<Id>, i: nat, j: nat) returns (a: nat, b: nat)
    requires i < j < |UndoPlan(s.registry, s.core.graph, failed, pass)|
    ensures a < b < |pass|
    ensures var plan := UndoPlan(s.registry, s.core.graph, failed, pass); pass[a] == plan[i] && pass[b] == plan[j]
  {
    hide Undoable, ById;
    var front, plan := pass[..|pass| - 1], UndoPlan(s.registry, s.core.graph, failed, pass);
    var early := UndoPlan(s.registry, s.core.graph, failed, front);
    if j < |early| {
      a, b := PlanPositions(s, failed, front, i, j);
    } else {
      b := |pass| - 1;
      assert plan[i] == early[i] && early[i] in early;
      PlanMembers(s, failed, front, early[i]);
      a :| 0 <= a < |front| && front[a] == early[i];
    }
  }

  lemma {:induction false} LaterIsNoAncestor(r: Rel, done: set<Id>, order: seq<Id>, p: nat, q: nat)
    requires OrderOk(r, done, order) && q < p < |order|
    ensures order[p] != order[q] && (Named(order[p]) ==> !Ancestor(r, order[p], order[q]))
  {
    hide OrderOk, Ancestor;
    OrderPositions(r, done, order);
    assert order[p] !in order[..q];
    assert order[p] !in NamedAbove(r, order[q]);
    assert order[p] in r;
  }

  /**
   What was compensated earlier in a pass never is something that later compensated work depends on, unless it has no
   name.
   */
  lemma {:induction false} DependentsFirst(run: seq<State>, k: nat, n: Id, i: nat, j: nat)
    requires IsRun(run) && k < |run| && n in run[k].frames && run[k].frames[n].pc.UndoingUpstream?
    requires i < j < |run[k].frames[n].pc.undone|
    ensures var undone, r := run[k].frames[n].pc.undone, Deps(run[k].core.graph);
            undone[i] != undone[j] && (Named(undone[i]) ==> !Ancestor(r, undone[i], undone[j]))
  {
    hide IsRun, Good, Inv, Deps, UndoPlan, AttemptsOk, NodesOk, BatchOk, LayersOk, Lists, OrderOk, DepSafe, AboveDone,
      SkipClosed, Ancestor, KnownDeps, Reverse, RoundsOk, Sound;
    var s := run[k];
    RunsAreGood(run, k);
    GoodGives(s);
    GoodLists(s);
    InvDeps(s.core);
    var pc, order := s.frames[n].pc, s.core.completionOrder;
    assert PassOk(s, n, pc);
    var a, b := PlanPositions(s, n, pc.pass[..pc.next], i, j);
    var walked := order[..|pc.pass|];
    ReverseAt(walked, a);
    ReverseAt(walked, b);
    LaterIsNoAncestor(Deps(s.core.graph), CompletedSet(s.core.status), order, |pc.pass| - 1 - a, |pc.pass| - 1 - b);
  }

  /** A pass starts with exactly the nodes then completed, each once. */
  lemma {:induction false} PassStartsWithCompleted(run: seq<State>, k: nat, n: Id, t: State, x: Id)
    requires IsRun(run) && k < |run| && StepTo(run[k], UndoSelf(n), t)
    ensures n in t.frames && t.frames[n].pc.UndoingUpstream? && t.frames[n].pc.next == 0 && t.frames[n].pc.undone == []
    ensures x in t.frames[n].pc.pass <==> x in run[k].core.status && run[k].core.status[x] == Completed
  {
    hide IsRun, Good, Inv, StepTo, Reverse, Sound;
    RunsAreGood(run, k);
    GoodGives(run[k]);
    UndoSelfIs(run[k], n, t);
    OrderListsCompleted(run[k].core, x);
    ReverseMembers(run[k].core.completionOrder, x);
  }

  lemma {:induction false} UndoSelfIs(s: State, n: Id, t: State)
    requires StepTo(s, UndoSelf(n), t)
    ensures n in t.frames && t.frames[n].pc == UndoingUpstream(Reverse(s.core.completionOrder), 0, [])
  {
    hide Sound, Reverse, Move, ReadyList;
  }

  /** The completion order lists exactly the completed nodes. */
  lemma {:induction false} OrderListsCompleted(c: Core, x: Id)
    requires Inv(c)
    ensures x in c.completionOrder <==> x in c.status && c.status[x] == Completed
  {
    hide Inv, Deps, OrderOk, DepSafe, AboveDone, SkipClosed, KnownDeps, Acyclic;
    InvDeps(c);
    OrderPositions(Deps(c.graph), CompletedSet(c.status), c.completionOrder);
    assert x in CompletedSet(c.status) <==> x in c.status && c.status[x] == Completed;
  }

  lemma {:induction false} ReverseMembers(order: seq<Id>, x: Id)
    ensures x in Reverse(order) <==> x in order
  {
    if order != [] {
      ReverseMembers(order[..|order| - 1], x);
      assert order == order[..|order| - 1] + [order[|order| - 1]];
    }
  }

  /**
   At its end a pass has undone exactly the nodes it walked that have an action to undo them, but for the failed one.
   */
  lemma {:induction false} PassUndoesAll(run: seq<State>, k: nat, n: Id, x: Id)
    requires IsRun(run) && k < |run| && n in run[k].frames && run[k].frames[n].pc.UndoingUpstream?
    requires var pc := run[k].frames[n].pc; pc.next == |pc.pass|
    ensures var pc := run[k].frames[n].pc; x in pc.undone <==> x in pc.pass && ToUndo(run[k], n, x)
  {
    hide IsRun, Good, UndoPlan, AttemptsOk, NodesOk, BatchOk, LayersOk, Lists, ToUndo, Reverse;
    var s := run[k];
    RunsAreGood(run, k);
    GoodLists(s);
    var pc := s.frames[n].pc;
    assert PassOk(s, n, pc);
    assert pc.pass[..pc.next] == pc.pass;
    PlanMembers(s, n, pc.pass, x);
  }

  /** The effect of one turn on the frame, the list of what was undone and the log. */
  ghost predicate Turned(s: State, t: State, n: Id, id: Id)
    requires n in s.frames && s.frames[n].pc.UndoingUpstream?
  {
    var pc := s.frames[n].pc;
    && n in t.frames
    && if ToUndo(s, n, id)
       then t.frames[n].pc == pc.(next := pc.next + 1, undone := pc.undone + [id])
            && t.core.log == s.core.log + [NodeCompensated(id)] && t.core.compensated == s.core.compensated + [id]
       else t.frames[n].pc == pc.(next := pc.next + 1) && t.core == s.core
  }

  /** Every turn of a pass logs one compensation exactly when it undoes something, and nothing else. */
  lemma {:induction false} TurnsAreLogged(run: seq<State>, k: nat, n: Id, t: State)
    requires IsRun(run) && k < |run| && StepTo(run[k], UndoNext(n), t)
    requires run[k].frames[n].pc.next < |run[k].frames[n].pc.pass|
    ensures var pc := run[k].frames[n].pc; Turned(run[k], t, n, pc.pass[pc.next])
  {
    hide IsRun, Good, Sound, UndoOne, ToUndo, Turned;
    var s := run[k];
    RunsAreGood(run, k);
    PassCompletedAt(s, n, s.frames[n].pc.next);
    GoodGives(s);
    UndoOneTurn(s, n);
  }

  lemma {:induction false} TurnIs(s: State, n: Id, id: Id)
    requires Sound(s) && n in s.frames && s.frames[n].pc.UndoingUpstream?
    requires s.frames[n].pc.next < |s.frames[n].pc.pass| && id == s.frames[n].pc.pass[s.frames[n].pc.next]
    requires id in s.core.status && s.core.status[id] == Completed && id in ById(s.core.graph)
    ensures var pc := s.frames[n].pc;
            UndoOne(s, n) == (if ToUndo(s, n, id)
                              then Goto(s, n, Compensated(s.core, id),
                                pc.(next := pc.next + 1, undone := pc.undone + [id]))
                              else Goto(s, n, s.core, pc.(next := pc.next + 1)))
  {
    hide Undoable, ById, Sound, Goto, Compensated;
  }

  lemma {:induction false} TurnedBy(s: State, n: Id, id: Id)
    requires n in s.frames && s.frames[n].pc.UndoingUpstream?
    ensures var pc := s.frames[n].pc;
            Turned(s, if ToUndo(s, n, id)
                      then Goto(s, n, Compensated(s.core, id), pc.(next := pc.next + 1, undone := pc.undone + [id]))
                      else Goto(s, n, s.core, pc.(next := pc.next + 1)), n, id)
  {
    hide ToUndo;
  }

  lemma {:induction false} UndoOneTurn(s: State, n: Id)
    requires Sound(s) && n in s.frames && s.frames[n].pc.UndoingUpstream?
    requires s.frames[n].pc.next < |s.frames[n].pc.pass|
    requires var id := s.frames[n].pc.pass[s.frames[n].pc.next];
             id in s.core.status && s.core.status[id] == Completed && id in ById(s.core.graph)
    ensures var pc := s.frames[n].pc; Turned(s, UndoOne(s, n), n, pc.pass[pc.next])
  {
    hide Undoable, ById, Sound, UndoOne, Goto, Compensated;
    var pc := s.frames[n].pc;
    var id := pc.pass[pc.next];
    TurnIs(s, n, id);
    TurnedBy(s, n, id);
  }

  lemma {:induction false} PassCompletedAt(s: State, n: Id, i: nat)
    requires Good(s) && n in s.frames && s.frames[n].pc.UndoingUpstream? && i < |s.frames[n].pc.pass|
    ensures var id := s.frames[n].pc.pass[i];
            id in s.core.status && s.core.status[id] == Completed && id in ById(s.core.graph)
  {
    hide Good, Inv, Flow;
    PassCompleted(s, n, i);
    GoodGives(s);
  }

  /** What a move can do to a pass: nothing, its next turn, or end it once it is through. */
  ghost predicate PassMoved(s: State, t: State, n: Id)
    requires n in s.frames && s.frames[n].pc.UndoingUpstream?
  {
    var pc := s.frames[n].pc;
    && n in t.frames
    && (|| t.frames[n] == s.frames[n]
        || (pc.next < |pc.pass| && Turned(s, t, n, pc.pass[pc.next]))
        || (pc.next >= |pc.pass| && t.frames[n].pc.Rejected?))
  }

  /** A process that has begun a pass keeps walking the same list until it is through. */
  lemma {:induction false} PassGoesOn(s: State, t: State, n: Id)
    requires Good(s) && Moves(s, t) && n in s.frames && s.frames[n].pc.UndoingUpstream?
    ensures PassMoved(s, t, n)
    ensures var pc := s.frames[n].pc;
            if t.frames[n].pc.UndoingUpstream? then t.frames[n].pc.pass == pc.pass && t.frames[n].pc.next >= pc.next
            else t.frames[n].pc.Rejected? && pc.next >= |pc.pass|
  {
    hide Good, Sound, FrameStep, WorkerStep, DriverStep, ToUndo;
    var step: Step :| !step.Crash? && StepTo(s, step, t);
    if FrameStep(s, step) == Some(t) {
      PassFrame(s, step, t, n);
    } else if WorkerStep(s, step) == Some(t) {
      PassWorker(s, step, t, n);
    } else {
      PassDriver(s, step, t);
    }
  }

  lemma {:induction false} PassFrame(s: State, step: Step, t: State, n: Id)
    requires Good(s) && Sound(s) && FrameStep(s, step) == Some(t) && n in s.frames && s.frames[n].pc.UndoingUpstream?
    ensures PassMoved(s, t, n)
  {
    hide Good, Sound, FrameStep, UndoOne, NodeEffect, Inv, Acts, ToUndo, Turned;
    var m := FrameActs(s, step, t);
    if m == n {
      PassStep(s, step, t, n);
      var c, next := UndoOneGoes(s, n);
      if s.frames[n].pc.next < |s.frames[n].pc.pass| {
        PassCompletedAt(s, n, s.frames[n].pc.next);
        UndoOneTurn(s, n);
        TurnedFrame(s, t, n, s.frames[n].pc.pass[s.frames[n].pc.next]);
      }
    } else {
      OthersKept(s, t, m, n);
    }
  }

  lemma {:induction false} TurnedFrame(s: State, t: State, n: Id, id: Id)
    requires n in s.frames && s.frames[n].pc.UndoingUpstream? && Turned(s, t, n, id)
    ensures n in t.frames && t.frames[n].pc.UndoingUpstream?
  {
    hide ToUndo;
  }

  lemma {:induction false} PassStep(s: State, step: Step, t: State, n: Id)
    requires Sound(s) && FrameStep(s, step) == Some(t) && Subject(step) == Some(n)
    requires n in s.frames && s.frames[n].pc.UndoingUpstream?
    ensures t == UndoOne(s, n)
  {
    hide Sound, FailAttempt, InvokeNode, AnswerApproval, ProceedAfterApproval, HandlerOutcome, WakeUp, UndoOne, Move,
      Reverse, Key;
  }

  /** A turn of a pass moves on by one entry, or ends the execution. */
  lemma {:induction false} UndoOneGoes(s: State, n: Id) returns (c: Core, next: Pc)
    requires Sound(s) && n in s.frames && s.frames[n].pc.UndoingUpstream?
    ensures UndoOne(s, n) == Goto(s, n, c, next)
    ensures var pc := s.frames[n].pc;
            if next.UndoingUpstream? then next.pass == pc.pass && next.next == pc.next + 1 && pc.next < |pc.pass|
            else next.Rejected? && pc.next >= |pc.pass|
  {
    hide Undoable, ById, Listed, Compensated, Goto;
    var pc := s.frames[n].pc;
    c := s.core;
    if pc.next >= |pc.pass| {
      next := Rejected;
    } else {
      var id := pc.pass[pc.next];
      next := pc.(next := pc.next + 1);
      if id != n && id in c.status && c.status[id] == Completed && Undoable(s.registry, DefOf(s, id)) {
        c := Compensated(c, id);
        next := next.(undone := pc.undone + [id]);
      }
    }
  }

  lemma {:induction false} OthersKept(s: State, t: State, m: Id, n: Id)
    requires Acts(s, t, m) && n in s.frames && n != m
    ensures n in t.frames && t.frames[n] == s.frames[n]
  {
    hide Inv, ViewOk, PassOk, AttemptOk, Retry.PolicyOf;
  }

  lemma {:induction false} PassBegin(s: State, w: nat, n: Id)
    requires Good(s) && Sound(s) && w < |s.workers| && s.workers[w].Holding? && s.workers[w].job.nodeId in s.core.status
    requires n in s.frames
    ensures n in BeginJob(s, w).frames && BeginJob(s, w).frames[n] == s.frames[n]
  {
    hide Good, Sound, RunNode, NodeKey, Flow, Bulkhead.Acquired, SlotOf;
    GoodFlows(s);
    if Key(s, s.workers[w].job.nodeId) !in s.completed && Key(s, s.workers[w].job.nodeId) !in s.inFlight {
      FreshIsReady(s, w);
    }
  }

  lemma {:induction false} PassSettle(s: State, w: nat, t: State)
    requires Sound(s) && w < |s.workers| && s.workers[w].Awaiting? && s.workers[w].nodeId in s.core.status
    requires SettleJob(s, w) == Some(t)
    ensures t.frames == s.frames
  {
    hide Sound, CompleteNode, Key, Terminal, Listed, Bulkhead.Released, SlotOf;
  }

  lemma {:induction false} PassWorker(s: State, step: Step, t: State, n: Id)
    requires Good(s) && Sound(s) && WorkerStep(s, step) == Some(t) && n in s.frames
    ensures n in t.frames && t.frames[n] == s.frames[n]
  {
    hide Good, Sound, BeginJob, SettleJob;
    match step {
      case Begin(w) => PassBegin(s, w, n);
      case Settle(w) => PassSettle(s, w, t);
      case _ =>
    }
  }

  lemma {:induction false} PassDriver(s: State, step: Step, t: State)
    requires Sound(s) && DriverStep(s, step) == Some(t) && !step.Crash?
    ensures t.frames == s.frames
  {
    hide Sound, ReadyList, CancelAll, FinalStatus, EnqueueAll, JobsFor, Seeds;
  }

  /* ---------- a whole pass ---------- */

  /** Position `i` of the run is on the pass of `n` over `pass`. */
  ghost predicate Walking(run: seq<State>, i: nat, n: Id, pass: seq<Id>) {
    i < |run| && n in run[i].frames && run[i].frames[n].pc.UndoingUpstream? && run[i].frames[n].pc.pass == pass
  }

  /** The move from position `i` is the turn of the pass for its entry `p`. */
  ghost predicate TurnAt(run: seq<State>, i: nat, n: Id, pass: seq<Id>, p: nat) {
    && i + 1 < |run| && Walking(run, i, n, pass) && run[i].frames[n].pc.next == p && p < |pass|
    && Turned(run[i], run[i + 1], n, pass[p])
  }

  ghost predicate TurnTaken(run: seq<State>, a: nat, b: nat, n: Id, pass: seq<Id>, p: nat) {
    exists i :: a <= i < b && TurnAt(run, i, n, pass, p)
  }

  lemma {:induction false} RejectedStays(s: State, t: State, n: Id)
    requires Good(s) && Moves(s, t) && n in s.frames && s.frames[n].pc.Rejected?
    ensures n in t.frames && t.frames[n] == s.frames[n]
  {
    hide Good, Sound, FrameStep, WorkerStep, DriverStep, Acts;
    var step: Step :| !step.Crash? && StepTo(s, step, t);
    if FrameStep(s, step) == Some(t) {
      var m := FrameActs(s, step, t);
      ActsLive(s, t, m);
      if m != n { OthersKept(s, t, m, n); }
    } else if WorkerStep(s, step) == Some(t) {
      PassWorker(s, step, t, n);
    } else {
      PassDriver(s, step, t);
    }
  }

  /** From one position of a pass to a later one it took each of its turns in between. */
  lemma {:induction false} PassHistory(run: seq<State>, a: nat, b: nat, n: Id, pass: seq<Id>)
    requires IsRun(run) && OneProcess(run, a, b) && Walking(run, a, n, pass)
    ensures n in run[b].frames && (Walking(run, b, n, pass) || run[b].frames[n].pc.Rejected?)
    ensures Walking(run, b, n, pass) ==> run[a].frames[n].pc.next <= run[b].frames[n].pc.next
    ensures Walking(run, b, n, pass) ==>
              forall p | run[a].frames[n].pc.next <= p < run[b].frames[n].pc.next :: TurnTaken(run, a, b, n, pass, p)
    decreases b
  {
    hide Good, IsRun, Moves, Turned;
    if a < b {
      var before := b - 1;
      assert Moves(run[before], run[before + 1]);
      PassHistory(run, a, before, n, pass);
      RunsAreGood(run, before);
      if Walking(run, before, n, pass) {
        PassGoesOn(run[before], run[b], n);
        if Walking(run, b, n, pass) { HistoryExtends(run, a, before, b, n, pass); }
      } else {
        RejectedStays(run[before], run[b], n);
      }
    }
  }

  lemma {:induction false} HistoryExtends(run: seq<State>, a: nat, before: nat, b: nat, n: Id, pass: seq<Id>)
    requires a <= before && b == before + 1 && b < |run| && Walking(run, a, n, pass) && Walking(run, before, n, pass)
             && Walking(run, b, n, pass)
    requires PassMoved(run[before], run[b], n)
    requires forall p | run[a].frames[n].pc.next <= p < run[before].frames[n].pc.next ::
               TurnTaken(run, a, before, n, pass, p)
    ensures forall p | run[a].frames[n].pc.next <= p < run[b].frames[n].pc.next :: TurnTaken(run, a, b, n, pass, p)
  {
    hide ToUndo;
    forall p | run[a].frames[n].pc.next <= p < run[b].frames[n].pc.next
      ensures TurnTaken(run, a, b, n, pass, p)
    {
      if p >= run[before].frames[n].pc.next {
        assert TurnAt(run, before, n, pass, p);
      } else {
        assert TurnTaken(run, a, before, n, pass, p);
        var i :| a <= i < before && TurnAt(run, i, n, pass, p);
        assert a <= i < b && TurnAt(run, i, n, pass, p);
      }
    }
  }

  /** In the move from position `i` the pass of `n` undoes `x`, once, and logs it. */
  ghost predicate Undoes(run: seq<State>, i: nat, n: Id, x: Id) {
    && i + 1 < |run| && n in run[i].frames && n in run[i + 1].frames
    && run[i].frames[n].pc.UndoingUpstream? && run[i + 1].frames[n].pc.UndoingUpstream?
    && var pc := run[i].frames[n].pc;
       && pc.next < |pc.pass| && pc.pass[pc.next] == x && run[i + 1].frames[n].pc.next == pc.next + 1
       && run[i + 1].core.log == run[i].core.log + [NodeCompensated(x)]
       && run[i + 1].core.compensated == run[i].core.compensated + [x]
  }

  lemma {:induction false} TurnUndoes(run: seq<State>, i: nat, n: Id, pass: seq<Id>, p: nat)
    requires TurnAt(run, i, n, pass, p)
    ensures Undoes(run, i, n, pass[p]) <==> ToUndo(run[i], n, pass[p])
  {
    hide ToUndo;
  }

  lemma {:induction false} UndoIsTurn(run: seq<State>, i: nat, n: Id, x: Id)
    requires IsRun(run) && OneProcess(run, i, i + 1) && Undoes(run, i, n, x)
    ensures var pc := run[i].frames[n].pc; TurnAt(run, i, n, pc.pass, pc.next) && ToUndo(run[i], n, x)
  {
    hide IsRun, Good, Moves, ToUndo;
    assert Moves(run[i], run[i + 1]);
    RunsAreGood(run, i);
    PassGoesOn(run[i], run[i + 1], n);
    TurnUndoes(run, i, n, run[i].frames[n].pc.pass, run[i].frames[n].pc.next);
  }

  lemma {:induction false} SameToUndo(s: State, t: State, failed: Id, x: Id)
    requires t.core.graph == s.core.graph && t.registry == s.registry
    ensures ToUndo(s, failed, x) <==> ToUndo(t, failed, x)
  {}

  /**
   From the step that begins a pass to its end the pass undoes exactly what was completed at its start and has an action
   to undo it, but for the failed node.
   */
  lemma {:induction false} WholePass(run: seq<State>, a: nat, b: nat, n: Id, x: Id)
    requires IsRun(run) && a < b && OneProcess(run, a, b) && StepTo(run[a], UndoSelf(n), run[a + 1])
    requires n in run[b].frames && run[b].frames[n].pc.UndoingUpstream?
    requires run[b].frames[n].pc.next == |run[b].frames[n].pc.pass|
    ensures (exists i :: a < i < b && Undoes(run, i, n, x)) <==>
            x in run[a].core.status && run[a].core.status[x] == Completed && ToUndo(run[a], n, x)
  {
    hide IsRun, Good, Moves, ToUndo, StepTo, Turned, TurnAt, Undoes;
    PassStartsWithCompleted(run, a, n, run[a + 1], x);
    var pass := run[a + 1].frames[n].pc.pass;
    assert OneProcess(run, a + 1, b);
    PassHistory(run, a + 1, b, n, pass);
    assert Walking(run, b, n, pass);
    if i :| a < i < b && Undoes(run, i, n, x) { UndoneWasThere(run, a, i, n, pass, x); }
    if x in pass && ToUndo(run[a], n, x) {
      var p :| 0 <= p < |pass| && pass[p] == x;
      assert TurnTaken(run, a + 1, b, n, pass, p);
      var i :| a + 1 <= i < b && TurnAt(run, i, n, pass, p);
      assert OneProcess(run, a, i);
      ProcessConstant(run, a, i);
      SameToUndo(run[a], run[i], n, x);
      TurnUndoes(run, i, n, pass, p);
    }
  }

  lemma {:induction false} UndoneWasThere(run: seq<State>, a: nat, i: nat, n: Id, pass: seq<Id>, x: Id)
    requires IsRun(run) && a < i && i + 1 < |run| && OneProcess(run, a, i + 1) && Walking(run, a + 1, n, pass)
    requires Undoes(run, i, n, x)
    ensures x in pass && ToUndo(run[a], n, x)
  {
    hide IsRun, Moves, ToUndo, Turned;
    assert OneProcess(run, a, i) && OneProcess(run, a + 1, i) && OneProcess(run, i, i + 1);
    PassHistory(run, a + 1, i, n, pass);
    UndoIsTurn(run, i, n, x);
    ProcessConstant(run, a, i);
    SameToUndo(run[a], run[i], n, x);
  }

  /**
   Within one process a failed node undoes nothing twice, and nothing with a name before completed work that
   depends on it.
   */
  lemma {:induction false} UndoneOnceInOrder(run: seq<State>, i: nat, j: nat, n: Id, x: Id, y: Id)
    requires IsRun(run) && i < j && j + 1 < |run| && OneProcess(run, i, j + 1) && Undoes(run, i, n, x)
             && Undoes(run, j, n, y)
    ensures var r := Deps(run[j].core.graph); x != y && (Named(x) ==> !Ancestor(r, x, y))
  {
    hide IsRun, Moves, ToUndo, Turned, Good, Ancestor, Deps;
    assert OneProcess(run, i, i + 1) && OneProcess(run, i + 1, j);
    UndoIsTurn(run, i, n, x);
    var pass, p, q := run[i].frames[n].pc.pass, run[i].frames[n].pc.next, run[j].frames[n].pc.next;
    RunsAreGood(run, i);
    assert Moves(run[i], run[i + 1]);
    PassGoesOn(run[i], run[i + 1], n);
    PassHistory(run, i + 1, j, n, pass);
    assert p < q < |pass|;
    RunsAreGood(run, j);
    PassPositions(run[j], n, p, q);
  }

  lemma {:induction false} PassPositions(s: State, n: Id, p: nat, q: nat)
    requires Good(s) && n in s.frames && s.frames[n].pc.UndoingUpstream? && p < q < |s.frames[n].pc.pass|
    ensures var pass, r := s.frames[n].pc.pass, Deps(s.core.graph);
            pass[p] != pass[q] && (Named(pass[p]) ==> !Ancestor(r, pass[p], pass[q]))
  {
    hide Good, Inv, Deps, UndoPlan, AttemptsOk, NodesOk, BatchOk, LayersOk, Lists, OrderOk, DepSafe, AboveDone,
      SkipClosed, Ancestor, KnownDeps, Reverse, RoundsOk, Sound;
    GoodGives(s);
    GoodLists(s);
    InvDeps(s.core);
    var pc, order := s.frames[n].pc, s.core.completionOrder;
    assert PassOk(s, n, pc);
    var walked := order[..|pc.pass|];
    ReverseAt(walked, p);
    ReverseAt(walked, q);
    LaterIsNoAncestor(Deps(s.core.graph), CompletedSet(s.core.status), order, |pc.pass| - 1 - p, |pc.pass| - 1 - q);
  }
}
