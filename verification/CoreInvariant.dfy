/** Each await-free operation keeps `WorkflowCore.Inv`, and what it changes besides. */
module CoreInvariant {
  import opened Wrappers
  import opened WorkflowTypes
  import opened NodeMachine
  import opened Graph
  import opened Layers
  import opened WorkflowLog
  import opened WorkflowCore

  /** Only statuses differ, and the log has only grown. */
  ghost predicate Steady(c: Core, d: Core) {
    d == c.(status := d.status, log := d.log) && d.status.Keys == c.status.Keys && c.log <= d.log
  }

  /** Replay sees no change in any node that had left the planned status. */
  ghost predicate Quiet(c: Core, d: Core) {
    forall m | m in c.status && c.status[m] != Planned :: SnapOf(Snaps(d.log), m) == SnapOf(Snaps(c.log), m)
  }

  /* ---------- one status at a time ---------- */

  lemma {:induction false} StaticSet(c: Core, n: Id, s: Status, e: Event)
    requires Static(c) && n in c.status
    ensures Static(Move(c, n, s, e)) && Steady(c, Move(c, n, s, e))
  {
    assert Move(c, n, s, e).status.Keys == c.status.Keys;
  }

  lemma {:induction false} DepSafeSet(r: Rel, st: Statuses, n: Id, s: Status)
    requires DepSafe(r, st) && n in st && st[n] != Completed
    requires Begun(s) ==> DepsDone(r, st, n)
    ensures DepSafe(r, st[n := s])
  {}

  /** Where the dependencies of a node are done, so is every node with a name above it. */
  lemma {:induction false} DoneAbove(r: Rel, st: Statuses, n: Id)
    requires KnownDeps(r) && AboveDone(r, st) && DepsDone(r, st, n)
    ensures NamedAbove(r, n) <= CompletedSet(st)
  {
    hide Ancestor;
    forall a | a in NamedAbove(r, n)
      ensures a in CompletedSet(st)
    {
      var d := AncestorSplits(r, a, n);
      assert d in st && st[d] == Completed;
      if a != d { assert a in NamedAbove(r, d); }
    }
  }

  lemma {:induction false} AboveDoneSet(r: Rel, st: Statuses, n: Id, s: Status)
    requires KnownDeps(r) && AboveDone(r, st) && n in st && st[n] != Completed
    requires Begun(s) ==> DepsDone(r, st, n)
    ensures AboveDone(r, st[n := s])
  {
    hide NamedAbove, KnownDeps;
    if Begun(s) { DoneAbove(r, st, n); }
    assert CompletedSet(st) <= CompletedSet(st[n := s]);
  }

  lemma {:induction false} SkipClosedSet(r: Rel, st: Statuses, n: Id, s: Status)
    requires SkipClosed(r, st) && n in st && s != Skipped && s != Planned
    ensures SkipClosed(r, st[n := s])
  {}

  lemma {:induction false} CompletedSame(st: Statuses, n: Id, s: Status)
    requires n in st && st[n] != Completed && s != Completed
    ensures CompletedSet(st[n := s]) == CompletedSet(st)
  {}

  lemma {:induction false} AgreesSet(st: Statuses, m: Snapshots, results: map<Id, NodeResult>, n: Id, s: Status,
      e: Event)
    requires Agrees(st, m, results) && n in st && n !in results
    requires Effect(e).Some? ==> e.nodeId == n
    requires AgreesAt(s, if Effect(e).Some? then Effect(e).value else SnapOf(m, n).status)
    ensures Agrees(st[n := s], ApplyTo(m, e), results)
  {}

  lemma {:induction false} AboveIsLogged(r: Rel, st: Statuses, m: Snapshots, results: map<Id, NodeResult>, n: Id)
    requires KnownDeps(r) && AboveDone(r, st) && Agrees(st, m, results) && DepsDone(r, st, n)
    ensures AboveLogged(r, m, n)
  {
    hide KnownDeps, AboveDone, DepsDone;
    DoneAbove(r, st, n);
    forall a | a in NamedAbove(r, n)
      ensures SnapOf(m, a).status == Completed
    {
      assert a in CompletedSet(st);
    }
  }

  lemma {:induction false} SkippingGives(c: Core)
    requires InvSkipping(c)
    ensures Static(c) && KnownDeps(Deps(c.graph)) && Listed(c)
    ensures DepSafe(Deps(c.graph), c.status) && AboveDone(Deps(c.graph), c.status)
    ensures c.results.Keys == CompletedSet(c.status)
    ensures OrderOk(Deps(c.graph), CompletedSet(c.status), c.completionOrder)
    ensures Agrees(c.status, Snaps(c.log), c.results) && LogOk(c.graph, c.log) && c.log != []
  {
    hide Agrees, OrderOk, DepSafe, AboveDone, HasCycle, KnownDeps, UniqueIds, Snaps;
  }

  /** The general step: a node that is not completed changes to an uncompleted status, reported by `e`. */
  lemma {:induction false} SetKeeps(c: Core, n: Id, s: Status, e: Event)
    requires InvSkipping(c) && n in c.status && c.status[n] != Completed && s != Completed
    requires Begun(s) ==> DepsDone(Deps(c.graph), c.status, n)
    requires Effect(e).Some? ==> e.nodeId == n
    requires AgreesAt(s, if Effect(e).Some? then Effect(e).value else SnapOf(Snaps(c.log), n).status)
    requires Legal(Deps(c.graph), Snaps(c.log), e)
    ensures InvSkipping(Move(c, n, s, e)) && Steady(c, Move(c, n, s, e))
  {
    hide Agrees, AgreesAt, LogOk, OrderOk, DepSafe, AboveDone, Legal, KnownDeps, Static, DepsDone, Snaps, SnapOf,
      ApplyTo, Deps, Steady;
    SkippingGives(c);
    StaticSet(c, n, s, e);
    DepSafeSet(Deps(c.graph), c.status, n, s);
    AboveDoneSet(Deps(c.graph), c.status, n, s);
    CompletedSame(c.status, n, s);
    LogAppend(c.graph, c.log, e);
    assert n !in c.results.Keys;
    AgreesSet(c.status, Snaps(c.log), c.results, n, s, e);
  }

  /** A node under way: begun, not completed, not finished as far as the log knows, and with all it depends on done. */
  ghost predicate UnderWay(c: Core, n: Id) {
    && n in c.status && Begun(c.status[n]) && c.status[n] != Completed
    && DepsDone(Deps(c.graph), c.status, n)
    && !Terminal(SnapOf(Snaps(c.log), n).status)
  }

  /** `e` is a faithful report of node `n` moving to `s`, where `s` is neither completed, skipped nor cancelled. */
  ghost predicate Reports(e: Event, n: Id, s: Status) {
    && !e.Created? && !e.NodeCompensated? && !e.NodeCompleted?
    && (e.NodeRunning? ==> e.attempt >= 1) && (Effect(e).None? ==> !MustLog(s))
    && (Effect(e).Some? ==> e.nodeId == n && AgreesAt(s, Effect(e).value))
  }

  lemma {:induction false} UnderWayIfRunning(c: Core, n: Id)
    requires InvSkipping(c) && n in c.status && Begun(c.status[n]) && !Terminal(c.status[n])
    ensures UnderWay(c, n)
  {
    hide LogOk, OrderOk, Valid, DepSafe, AboveDone, Snaps;
    NamelessForgotten(c.log, n);
    OpenDepsDone(c, n);
  }

  /** An unfinished node that has begun has everything it depends on completed. */
  lemma {:induction false} OpenDepsDone(c: Core, n: Id)
    requires InvSkipping(c) && n in c.status && Begun(c.status[n]) && !Terminal(c.status[n])
    ensures DepsDone(Deps(c.graph), c.status, n)
  {
    hide Agrees, LogOk, OrderOk, Valid;
  }

  lemma {:induction false} MoveKeeps(c: Core, n: Id, s: Status, e: Event)
    requires Inv(c) && UnderWay(c, n) && Begun(s) && s != Completed && Reports(e, n, s)
    ensures Inv(Move(c, n, s, e)) && Steady(c, Move(c, n, s, e))
  {
    hide InvSkipping, Agrees, LogOk, OrderOk, DepSafe, AboveDone, KnownDeps, Static, Snaps, Deps, Steady, SkipClosed,
      AboveLogged;
    SkippingGives(c);
    AboveIsLogged(Deps(c.graph), c.status, Snaps(c.log), c.results, n);
    SetKeeps(c, n, s, e);
    SkipClosedSet(Deps(c.graph), c.status, n, s);
  }

  /** Events that replay ignores change nothing but the log. */
  lemma {:induction false} EmitKeeps(c: Core, e: Event)
    requires Inv(c) && !e.Created? && Effect(e).None?
    requires e.NodeCompensated? ==> e.nodeId in c.status && c.status[e.nodeId] == Completed
    ensures Inv(Emit(c, e)) && Steady(c, Emit(c, e))
  {
    LogAppend(c.graph, c.log, e);
  }

  /* ---------- promotion ---------- */

  ghost predicate OnlyPromotes(r: Rel, st: Statuses, st': Statuses) {
    && st'.Keys == st.Keys
    && forall n | n in st :: st'[n] == st[n] || (st[n] == Planned && DepsDone(r, st, n) && st'[n] == Ready)
  }

  /** Readiness is logged by an event replay ignores, about a node the log does not show as finished. */
  lemma {:induction false} DoneIsLegal(c: Core, n: Id)
    requires InvSkipping(c) && n in c.status && c.status[n] == Planned
    ensures Legal(Deps(c.graph), Snaps(c.log), NodeReady(n))
    ensures AgreesAt(Ready, SnapOf(Snaps(c.log), n).status)
  {
    hide LogOk, OrderOk, Snaps, Valid, DepSafe, AboveDone, Deps;
    NamelessForgotten(c.log, n);
  }

  lemma {:induction false} PromoteOneKeeps(c: Core, n: Id)
    requires Inv(c) && n in c.status
    ensures Inv(PromoteOne(c, n)) && Steady(c, PromoteOne(c, n))
    ensures OnlyPromotes(Deps(c.graph), c.status, PromoteOne(c, n).status)
    ensures PromoteOne(c, n).status[n] == Planned ==> !DepsDone(Deps(c.graph), c.status, n)
    ensures Snaps(PromoteOne(c, n).log) == Snaps(c.log)
  {
    hide LogOk, OrderOk, Snaps, SnapOf, Valid, Agrees, DepSafe, AboveDone;
    if PromoteOne(c, n) != c {
      DoneIsLegal(c, n);
      SetKeeps(c, n, Ready, NodeReady(n));
      SnapsAppend(c.log, NodeReady(n));
      SkipClosedSet(Deps(c.graph), c.status, n, Ready);
    }
  }

  lemma {:induction false} PromotionsCompose(r: Rel, a: Statuses, b: Statuses, c: Statuses)
    requires OnlyPromotes(r, a, b) && OnlyPromotes(r, b, c)
    ensures OnlyPromotes(r, a, c)
  {
    forall n | n in a
      ensures DepsDone(r, a, n) == DepsDone(r, b, n)
    {
      PromotionsSameDone(r, a, b, n);
    }
  }

  lemma {:induction false} PromotionsSameDone(r: Rel, a: Statuses, b: Statuses, n: Id)
    requires OnlyPromotes(r, a, b)
    ensures DepsDone(r, a, n) == DepsDone(r, b, n)
  {}

  /** From index `i` on, the sweep from `c` to `e` leaves no node planned whose dependencies are done. */
  ghost predicate PromotedFrom(c: Core, e: Core, i: nat) {
    forall j | i <= j < |c.graph| :: var n := c.graph[j].id;
      n in c.status && n in e.status && (e.status[n] == Planned ==> !DepsDone(Deps(c.graph), c.status, n))
  }

  lemma {:induction false} PromoteKeeps(c: Core, i: nat)
    requires Inv(c)
    ensures Inv(Promote(c, i)) && Steady(c, Promote(c, i)) && Snaps(Promote(c, i).log) == Snaps(c.log)
    ensures OnlyPromotes(Deps(c.graph), c.status, Promote(c, i).status)
    ensures PromotedFrom(c, Promote(c, i), i)
    decreases |c.graph| - i
  {
    hide Inv, PromoteOne, OnlyPromotes, DepsDone, Deps, Snaps, PromotedFrom, Steady, Listed;
    InvGives(c);
    if i < |c.graph| {
      PromoteOneGraph(c, i);
      var n := c.graph[i].id;
      var d := PromoteOne(c, n);
      PromoteOneKeeps(c, n);
      InvGives(d);
      PromoteKeeps(d, i + 1);
      PromoteRest(c, d, Promote(d, i + 1), i);
    } else {
      NothingPromoted(c, i);
    }
  }

  lemma {:induction false} PromoteOneGraph(c: Core, i: nat)
    requires Listed(c) && i < |c.graph|
    ensures c.graph[i].id in c.status && PromoteOne(c, c.graph[i].id).graph == c.graph
  {
    hide Deps, DepsDone;
  }

  lemma {:induction false} NothingPromoted(c: Core, i: nat)
    requires i >= |c.graph|
    ensures OnlyPromotes(Deps(c.graph), c.status, c.status) && PromotedFrom(c, c, i) && Steady(c, c)
  {}

  lemma {:induction false} InvGives(c: Core)
    requires Inv(c)
    ensures InvSkipping(c) && Listed(c) && SkipClosed(Deps(c.graph), c.status)
  {
    hide InvSkipping, SkipClosed;
    SkippingGives(c);
  }

  lemma {:induction false} PromoteRest(c: Core, d: Core, e: Core, i: nat)
    requires i < |c.graph| && c.graph[i].id in c.status
    requires Steady(c, d) && Steady(d, e)
    requires OnlyPromotes(Deps(c.graph), c.status, d.status) && OnlyPromotes(Deps(c.graph), d.status, e.status)
    requires d.status[c.graph[i].id] == Planned ==> !DepsDone(Deps(c.graph), c.status, c.graph[i].id)
    requires PromotedFrom(d, e, i + 1)
    ensures Steady(c, e) && OnlyPromotes(Deps(c.graph), c.status, e.status)
    ensures PromotedFrom(c, e, i)
  {
    PromotionsCompose(Deps(c.graph), c.status, d.status, e.status);
    forall j | i <= j < |c.graph|
      ensures var n := c.graph[j].id;
              n in c.status && (e.status[n] == Planned ==> !DepsDone(Deps(c.graph), c.status, n))
    {
      PromotionsSameDone(Deps(c.graph), c.status, d.status, c.graph[j].id);
    }
  }

  /** A full sweep leaves no runnable node planned, and completes nothing. */
  lemma {:induction false} PromoteAll(c: Core)
    requires Inv(c)
    ensures Inv(Promote(c, 0)) && Steady(c, Promote(c, 0)) && Snaps(Promote(c, 0).log) == Snaps(c.log)
    ensures OnlyPromotes(Deps(c.graph), c.status, Promote(c, 0).status)
    ensures Promoted(Deps(c.graph), Promote(c, 0).status)
  {
    PromoteKeeps(c, 0);
    var d := Promote(c, 0);
    forall n | n in d.status && d.status[n] == Planned
      ensures !DepsDone(Deps(c.graph), d.status, n)
    {
      PromotionsSameDone(Deps(c.graph), c.status, d.status, n);
      DepsKeys(c.graph, n);
    }
  }

  /* ---------- completion ---------- */

  lemma {:induction false} OrderAppend(r: Rel, done: set<Id>, order: seq<Id>, n: Id)
    requires OrderOk(r, done, order) && n in r && n !in done && NamedAbove(r, n) <= done
    ensures OrderOk(r, done + {n}, order + [n])
  {
    hide NamedAbove;
    assert (order + [n])[..|order|] == order;
    assert done + {n} - {n} == done;
  }

  lemma {:induction false} OrderKeeps(r: Rel, st: Statuses, order: seq<Id>, n: Id)
    requires KnownDeps(r) && AboveDone(r, st) && DepsDone(r, st, n) && OrderOk(r, CompletedSet(st), order)
    requires n in st && st[n] != Completed
    ensures CompletedSet(st[n := Completed]) == CompletedSet(st) + {n}
    ensures OrderOk(r, CompletedSet(st[n := Completed]), order + [n])
  {
    hide KnownDeps, AboveDone, OrderOk, NamedAbove;
    assert CompletedSet(st[n := Completed]) == CompletedSet(st) + {n};
    DoneAbove(r, st, n);
    OrderAppend(r, CompletedSet(st), order, n);
  }

  /** The recursive reading of `OrderOk`, spelled out by positions. */
  lemma {:induction false} OrderPositions(r: Rel, done: set<Id>, order: seq<Id>)
    requires OrderOk(r, done, order)
    ensures forall i, j | 0 <= i < j < |order| :: order[i] != order[j]
    ensures forall n :: n in order <==> n in done
    ensures forall k | 0 <= k < |order| :: order[k] in r && forall a | a in NamedAbove(r, order[k]) :: a in order[..k]
  {
    hide NamedAbove;
    if order != [] {
      var last, front := order[|order| - 1], order[..|order| - 1];
      OrderPositions(r, done - {last}, front);
      assert order == front + [last];
      forall k | 0 <= k < |order|
        ensures order[k] in r && forall a | a in NamedAbove(r, order[k]) :: a in order[..k]
      {
        if k < |front| { assert front[k] == order[k] && front[..k] == order[..k]; } else { assert order[..k] == front; }
      }
    }
  }

  lemma {:induction false} RecordAgrees(st: Statuses, m: Snapshots, results: map<Id, NodeResult>, n: Id,
      result: NodeResult)
    requires Agrees(st, m, results) && n in st
    ensures Agrees(st[n := Completed], ApplyTo(m, NodeCompleted(n, result)), results[n := result])
  {}

  lemma {:induction false} RecordLogged(c: Core, n: Id, result: NodeResult)
    requires InvSkipping(c) && n in c.status && c.status[n] == Verifying
    ensures LogOk(c.graph, c.log + [NodeCompleted(n, result)])
    ensures Agrees(c.status[n := Completed], Snaps(c.log + [NodeCompleted(n, result)]), c.results[n := result])
  {
    hide InvSkipping, Static, KnownDeps, OrderOk, Snaps, Deps, LogOk, DepSafe, AboveDone, AboveLogged, ApplyTo;
    SkippingGives(c);
    OpenDepsDone(c, n);
    AboveIsLogged(Deps(c.graph), c.status, Snaps(c.log), c.results, n);
    LogAppend(c.graph, c.log, NodeCompleted(n, result));
    RecordAgrees(c.status, Snaps(c.log), c.results, n, result);
  }

  lemma {:induction false} RecordKeeps(c: Core, n: Id, result: NodeResult)
    requires Inv(c) && n in c.status && c.status[n] == Verifying
    ensures Inv(Record(c, n, result))
  {
    hide Static, KnownDeps, Snaps, Agrees, LogOk, DepSafe, AboveDone, SkipClosed, OrderOk, Deps, DepsDone;
    var r := Deps(c.graph);
    SkippingGives(c);
    RecordLogged(c, n, result);
    OpenDepsDone(c, n);
    StaticSet(c, n, Completed, NodeCompleted(n, result));
    RecordStatic(c, n, result);
    DepSafeSet(r, c.status, n, Completed);
    AboveDoneSet(r, c.status, n, Completed);
    SkipClosedSet(r, c.status, n, Completed);
    OrderKeeps(r, c.status, c.completionOrder, n);
  }

  lemma {:induction false} RecordStatic(c: Core, n: Id, result: NodeResult)
    requires Static(Move(c, n, Completed, NodeCompleted(n, result)))
    ensures Static(Record(c, n, result))
  {}

  /** Completing a verified node keeps the invariant, records the result, and promotes all it unblocks. */
  lemma {:induction false} CompleteKeeps(c: Core, n: Id, result: NodeResult)
    requires Inv(c) && n in c.status && c.status[n] == Verifying
    ensures Inv(CompleteNode(c, n, result)) && Steady(Record(c, n, result), CompleteNode(c, n, result))
    ensures Promoted(Deps(c.graph), CompleteNode(c, n, result).status)
    ensures OnlyPromotes(Deps(c.graph), c.status[n := Completed], CompleteNode(c, n, result).status)
    ensures Snaps(CompleteNode(c, n, result).log) == ApplyTo(Snaps(c.log), NodeCompleted(n, result))
  {
    SnapsAppend(c.log, NodeCompleted(n, result));
    RecordKeeps(c, n, result);
    PromoteAll(Record(c, n, result));
  }

  /* ---------- skipping ---------- */

  ghost predicate OnlySkips(st: Statuses, st': Statuses) {
    && st'.Keys == st.Keys
    && forall n | n in st :: st'[n] == st[n] || (st[n] == Planned && st'[n] == Skipped)
  }

  /** No node still planned depends on one that was skipped on the way from `st` to `st'`. */
  ghost predicate NewSkipsClosed(r: Rel, st: Statuses, st': Statuses) {
    forall n, x {:trigger x in r[n]} | n in r && n in st' && st'[n] == Planned && x in r[n] && x in st && x in st' ::
      st'[x] == Skipped ==> st[x] == Skipped
  }

  /** No planned node depends on `n`. */
  ghost predicate NothingPlannedOn(r: Rel, st: Statuses, n: Id) {
    forall x | x in st && st[x] == Planned && x in r :: n !in r[x]
  }

  /** Whatever changed depends on `n`, directly or not. */
  ghost predicate OnlyBelow(r: Rel, st: Statuses, st': Statuses, n: Id)
    requires st.Keys == st'.Keys
  {
    forall x | x in st && st'[x] != st[x] :: Ancestor(r, n, x)
  }

  /** What a cascade from `n`, run from list index `i` on, guarantees. */
  ghost predicate Cascaded(c: Core, a: Attempt, n: Id, i: nat) {
    && !a.threw && InvSkipping(a.core) && Steady(c, a.core)
    && OnlySkips(c.status, a.core.status)
    && NewSkipsClosed(Deps(c.graph), c.status, a.core.status)
    && OnlyBelow(Deps(c.graph), c.status, a.core.status, n)
    && Quiet(c, a.core)
    && forall j | i <= j < |c.graph| :: c.graph[j].id in a.core.status &&
         (a.core.status[c.graph[j].id] == Planned ==> n !in c.graph[j].deps)
  }

  lemma {:induction false} SkipIsLegal(c: Core, n: Id)
    requires InvSkipping(c) && n in c.status && c.status[n] == Planned
    ensures Legal(Deps(c.graph), Snaps(c.log), NodeSkipped(n))
  {
    hide OrderOk, LogOk, DepSafe, AboveDone, Valid, Snaps, Deps;
  }

  lemma {:induction false} MarkKeeps(c: Core, n: Id)
    requires InvSkipping(c) && n in c.status && c.status[n] == Planned
    ensures InvSkipping(Move(c, n, Skipped, NodeSkipped(n))) && Steady(c, Move(c, n, Skipped, NodeSkipped(n)))
    ensures Unfinished(Move(c, n, Skipped, NodeSkipped(n)).status) == Unfinished(c.status) - {n}
    ensures Quiet(c, Move(c, n, Skipped, NodeSkipped(n)))
  {
    hide Valid, InvSkipping, Deps, DepSafe, AboveDone, OrderOk, LogOk, Agrees, Legal;
    SkipIsLegal(c, n);
    SnapsAppend(c.log, NodeSkipped(n));
    SetKeeps(c, n, Skipped, NodeSkipped(n));
  }

  lemma {:induction false} DependentsArePlanned(c: Core, n: Id, i: nat)
    requires Static(c) && DepSafe(Deps(c.graph), c.status) && n in c.status && c.status[n] == Skipped
    requires i < |c.graph| && n in c.graph[i].deps && !Terminal(c.status[c.graph[i].id])
    ensures c.status[c.graph[i].id] == Planned && Edge(Deps(c.graph), c.graph[i].id, n)
  {
    DepsAt(c.graph, i);
  }

  /**
   The cascade from a skipped node never meets an illegal transition, only skips planned nodes that depend on
   the root, and leaves no planned node behind that depends on the root or on anything newly skipped.
   */
  lemma {:induction false} CascadeKeeps(c: Core, n: Id, i: nat)
    requires InvSkipping(c) && n in c.status && c.status[n] == Skipped
    ensures Cascaded(c, CascadeSkip(c, n, i), n, i)
    decreases Unfinished(c.status), |c.graph| - i, 1
  {
    hide Agrees, LogOk, OrderOk, Valid, Cascaded, DepSafe, AboveDone;
    if i >= |c.graph| {
      CascadeEnds(c, n, i);
    } else if n in c.graph[i].deps && !Terminal(c.status[c.graph[i].id]) {
      CascadeInto(c, n, i);
    } else {
      CascadeKeeps(c, n, i + 1);
      assert CascadeSkip(c, n, i) == CascadeSkip(c, n, i + 1);
      CascadePasses(c, CascadeSkip(c, n, i + 1), n, i);
    }
  }

  /** How the cascade goes on from an unfinished dependent. */
  lemma {:induction false} CascadeUnfolds(c: Core, n: Id, i: nat)
    requires Listed(c) && i < |c.graph| && n in c.graph[i].deps && c.status[c.graph[i].id] == Planned
    ensures var marked := Move(c, c.graph[i].id, Skipped, NodeSkipped(c.graph[i].id));
            && Listed(marked) && Unfinished(marked.status) < Unfinished(c.status)
            && var inner := CascadeSkip(marked, c.graph[i].id, 0);
               Listed(inner.core) && inner.core.graph == c.graph
                 && Unfinished(inner.core.status) <= Unfinished(marked.status)
               && (!inner.threw ==> CascadeSkip(c, n, i) == CascadeSkip(inner.core, n, i + 1))
  {
    hide Unfinished;
    var other := c.graph[i].id;
    MarkDrops(c.status, other);
  }

  lemma {:induction false} MarkDrops(st: Statuses, n: Id)
    requires n in st && st[n] == Planned
    ensures Unfinished(st[n := Skipped]) < Unfinished(st)
  {
    assert n in Unfinished(st) && n !in Unfinished(st[n := Skipped]);
  }

  lemma {:induction false} CascadeInto(c: Core, n: Id, i: nat)
    requires InvSkipping(c) && n in c.status && c.status[n] == Skipped && i < |c.graph|
    requires n in c.graph[i].deps && !Terminal(c.status[c.graph[i].id])
    ensures Cascaded(c, CascadeSkip(c, n, i), n, i)
    decreases Unfinished(c.status), |c.graph| - i, 0
  {
    hide InvSkipping, Cascaded, CascadeSkip, Unfinished, Deps, Quiet, Listed;
    var other := c.graph[i].id;
    SkippingGives(c);
    DependentsArePlanned(c, n, i);
    CascadeUnfolds(c, n, i);
    var marked := Move(c, other, Skipped, NodeSkipped(other));
    MarkKeeps(c, other);
    CascadeKeeps(marked, other, 0);
    var inner := CascadeSkip(marked, other, 0);
    StillSkipped(marked, inner, other, n);
    CascadeKeeps(inner.core, n, i + 1);
    CascadesCompose(c, inner, CascadeSkip(inner.core, n, i + 1), n, i);
  }

  lemma {:induction false} CascadeEnds(c: Core, n: Id, i: nat)
    requires InvSkipping(c) && i >= |c.graph|
    ensures Cascaded(c, Attempt(c, false), n, i)
  {}

  lemma {:induction false} CascadePasses(c: Core, a: Attempt, n: Id, i: nat)
    requires Cascaded(c, a, n, i + 1) && i < |c.graph| && c.graph[i].id in c.status
    requires n !in c.graph[i].deps || Terminal(c.status[c.graph[i].id])
    ensures Cascaded(c, a, n, i)
  {}

  lemma {:induction false} StillSkipped(c: Core, a: Attempt, other: Id, n: Id)
    requires Cascaded(c, a, other, 0) && n in c.status && c.status[n] == Skipped
    ensures !a.threw && InvSkipping(a.core) && Steady(c, a.core)
    ensures n in a.core.status && a.core.status[n] == Skipped
  {}

  lemma {:induction false} CascadesCompose(c: Core, inner: Attempt, outer: Attempt, n: Id, i: nat)
    requires InvSkipping(c) && i < |c.graph| && n in c.status
    requires var other := c.graph[i].id;
             other in c.status && c.status[other] == Planned && Edge(Deps(c.graph), other, n)
    requires var other := c.graph[i].id; Cascaded(Move(c, other, Skipped, NodeSkipped(other)), inner, other, 0)
    requires Cascaded(inner.core, outer, n, i + 1)
    ensures Cascaded(c, outer, n, i)
  {
    hide InvSkipping, NewSkipsClosed, NothingPlannedOn, Quiet, OnlyBelow, OnlySkips, Unfinished;
    var other := c.graph[i].id;
    var r, mid, end := Deps(c.graph), inner.core.status, outer.core.status;
    SkipsAfterMark(c.status, mid, end, other);
    FromZero(c, inner.core, other);
    CascadeCloses(r, c.status, mid, end, other);
    CascadeBelow(r, c.status, mid, end, n, other);
    var marked := Move(c, other, Skipped, NodeSkipped(other));
    MarkKeeps(c, other);
    NoneReplanned(c.status, mid, other);
    QuietCompose(c, marked, inner.core);
    QuietCompose(c, inner.core, outer.core);
  }

  /** Statuses only ever leave the planned status. */
  ghost predicate Leaves(st: Statuses, st': Statuses) {
    st'.Keys == st.Keys && forall n | n in st :: st[n] != Planned ==> st'[n] != Planned
  }

  lemma {:induction false} QuietCompose(a: Core, b: Core, c: Core)
    requires Quiet(a, b) && Quiet(b, c) && Leaves(a.status, b.status)
    ensures Quiet(a, c)
  {}

  lemma {:induction false} NoneReplanned(st: Statuses, st': Statuses, n: Id)
    requires n in st && OnlySkips(st[n := Skipped], st')
    ensures Leaves(st, st') && Leaves(st, st[n := Skipped])
  {}

  lemma {:induction false} SkipsAfterMark(st: Statuses, mid: Statuses, end: Statuses, other: Id)
    requires other in st && st[other] == Planned
    requires OnlySkips(st[other := Skipped], mid) && OnlySkips(mid, end)
    ensures OnlySkips(st, end) && end[other] == Skipped && st.Keys == mid.Keys == end.Keys
  {}

  lemma {:induction false} FromZero(c: Core, d: Core, n: Id)
    requires InvSkipping(c) && InvSkipping(d) && d.graph == c.graph
    requires forall j | 0 <= j < |c.graph| :: c.graph[j].id in d.status &&
               (d.status[c.graph[j].id] == Planned ==> n !in c.graph[j].deps)
    ensures NothingPlannedOn(Deps(c.graph), d.status, n)
  {
    hide Agrees, LogOk, OrderOk, DepSafe, AboveDone;
    forall x | x in d.status && d.status[x] == Planned && x in Deps(c.graph)
      ensures n !in Deps(c.graph)[x]
    {
      DepsKeys(c.graph, x);
      var j :| 0 <= j < |c.graph| && c.graph[j].id == x;
      DepsAt(c.graph, j);
    }
  }

  lemma {:induction false} CascadeCloses(r: Rel, st: Statuses, mid: Statuses, end: Statuses, other: Id)
    requires other in st && OnlySkips(st[other := Skipped], mid) && OnlySkips(mid, end)
    requires NewSkipsClosed(r, st[other := Skipped], mid) && NewSkipsClosed(r, mid, end)
    requires NothingPlannedOn(r, mid, other)
    ensures NewSkipsClosed(r, st, end)
  {}

  lemma {:induction false} AncestorStep(r: Rel, n: Id, other: Id, x: Id)
    requires Edge(r, other, n) && (x == other || Ancestor(r, other, x))
    ensures Ancestor(r, n, x)
  {
    if x == other {
      assert IsWalk(r, [other, n]);
    } else {
      var p :| IsWalk(r, p) && |p| >= 2 && p[0] == x && p[|p| - 1] == other;
      WalkAppend(r, p, n);
      assert IsWalk(r, p + [n]);
    }
  }

  lemma {:induction false} CascadeBelow(r: Rel, st: Statuses, mid: Statuses, end: Statuses, n: Id, other: Id)
    requires other in st && Edge(r, other, n) && st.Keys == mid.Keys == end.Keys
    requires OnlyBelow(r, st[other := Skipped], mid, other) && OnlyBelow(r, mid, end, n)
    ensures OnlyBelow(r, st, end, n)
  {
    forall x | x in st && end[x] != st[x]
      ensures Ancestor(r, n, x)
    {
      if end[x] == mid[x] { AncestorStep(r, n, other, x); }
    }
  }

  /** A complete cascade from a skipped node closes over that node. */
  lemma {:induction false} CascadeAll(c: Core, n: Id)
    requires InvSkipping(c) && n in c.status && c.status[n] == Skipped
    ensures Cascaded(c, CascadeSkip(c, n, 0), n, 0)
    ensures NothingPlannedOn(Deps(c.graph), CascadeSkip(c, n, 0).core.status, n)
  {
    CascadeKeeps(c, n, 0);
    FromZero(c, CascadeSkip(c, n, 0).core, n);
  }

  lemma {:induction false} ClosureRestored(r: Rel, st: Statuses, end: Statuses, n: Id)
    requires SkipClosed(r, st) && n in st && OnlySkips(st[n := Skipped], end)
    requires NewSkipsClosed(r, st[n := Skipped], end) && NothingPlannedOn(r, end, n)
    ensures SkipClosed(r, end)
  {}

  lemma {:induction false} SkipPlannedKeeps(c: Core, n: Id)
    requires Inv(c) && n in c.status && c.status[n] == Planned
    ensures var a := SkipNode(c, n);
            && !a.threw && Inv(a.core) && Steady(c, a.core) && OnlySkips(c.status, a.core.status)
            && a.core.status[n] == Skipped && Quiet(c, a.core)
            && OnlyBelow(Deps(c.graph), c.status[n := Skipped], a.core.status, n)
  {
    hide InvSkipping, NewSkipsClosed, NothingPlannedOn, Quiet, SkipClosed, OnlyBelow, Unfinished, Deps, Snaps,
      CascadeSkip;
    InvGives(c);
    var marked := Move(c, n, Skipped, NodeSkipped(n));
    MarkKeeps(c, n);
    SkippingGives(marked);
    CascadeAll(marked, n);
    var a := CascadeSkip(marked, n, 0);
    SkipIsCascade(c, n);
    ClosureRestored(Deps(c.graph), c.status, a.core.status, n);
    StillSkipped(marked, a, n, n);
    NoneReplanned(c.status, marked.status, n);
    QuietCompose(c, marked, a.core);
  }

  lemma {:induction false} SkipIsCascade(c: Core, n: Id)
    requires Listed(c) && n in c.status && c.status[n] == Planned && Listed(Move(c, n, Skipped, NodeSkipped(n)))
    ensures SkipNode(c, n) == CascadeSkip(Move(c, n, Skipped, NodeSkipped(n)), n, 0)
  {
    hide CascadeSkip;
  }

  /**
   Skipping keeps the invariant whether or not it throws. It throws exactly when the target is under way, and
   then changes nothing; otherwise the target ends up finished and only it and its dependents are touched.
   */
  lemma {:induction false} SkipNodeKeeps(c: Core, n: Id)
    requires Inv(c)
    ensures var a := SkipNode(c, n);
            && Inv(a.core) && Steady(c, a.core) && OnlySkips(c.status, a.core.status) && Quiet(c, a.core)
            && (a.threw <==> n in c.status && c.status[n] != Planned && !Terminal(c.status[n]))
            && (a.threw ==> a.core == c)
            && (!a.threw && n in c.status ==> Terminal(a.core.status[n]))
            && (forall x | x in c.status && a.core.status[x] != c.status[x] ::
                  x == n || Ancestor(Deps(c.graph), n, x))
  {
    hide Inv, SkipNode, Steady, Quiet, OnlyBelow, Deps;
    if n in c.status && c.status[n] == Planned {
      SkipPlannedKeeps(c, n);
      InvGives(c);
      BelowOrSelf(Deps(c.graph), c.status, SkipNode(c, n).core.status, n);
    } else {
      SkipIdle(c, n);
    }
  }

  lemma {:induction false} BelowOrSelf(r: Rel, st: Statuses, end: Statuses, n: Id)
    requires n in st && end.Keys == st.Keys && OnlyBelow(r, st[n := Skipped], end, n)
    ensures forall x | x in st && end[x] != st[x] :: x == n || Ancestor(r, n, x)
  {
    hide Ancestor;
  }

  /** Skipping a node that is not planned changes nothing. */
  lemma {:induction false} SkipIdle(c: Core, n: Id)
    requires Inv(c) && !(n in c.status && c.status[n] == Planned)
    ensures Listed(c) && SkipNode(c, n).core == c && Steady(c, c) && Quiet(c, c)
    ensures SkipNode(c, n).threw <==> n in c.status && !Terminal(c.status[n])
  {
    hide Agrees, LogOk, OrderOk, Valid, DepSafe, AboveDone, SkipClosed, Deps, Snaps, CascadeSkip;
  }

  lemma {:induction false} SkipAllKeeps(c: Core, ns: seq<Id>)
    requires Inv(c)
    ensures Inv(SkipAll(c, ns).core) && Steady(c, SkipAll(c, ns).core)
    ensures OnlySkips(c.status, SkipAll(c, ns).core.status) && Quiet(c, SkipAll(c, ns).core)
    decreases |ns|
  {
    if ns != [] {
      SkipNodeKeeps(c, ns[0]);
      var d := SkipNode(c, ns[0]);
      if !d.threw { SkipAllKeeps(d.core, ns[1..]); }
    }
  }

  /* ---------- cancellation ---------- */

  ghost predicate OnlyCancels(st: Statuses, st': Statuses) {
    && st'.Keys == st.Keys
    && forall n | n in st :: st'[n] == st[n] || (!Terminal(st[n]) && st'[n] == Cancelled)
  }

  lemma {:induction false} CancelOneKeeps(c: Core, n: Id)
    requires Inv(c) && n in c.status
    ensures Inv(CancelOne(c, n)) && Steady(c, CancelOne(c, n)) && OnlyCancels(c.status, CancelOne(c, n).status)
    ensures Terminal(CancelOne(c, n).status[n])
  {
    if !Terminal(c.status[n]) {
      SetKeeps(c, n, Cancelled, NodeCancelled(n));
      SkipClosedSet(Deps(c.graph), c.status, n, Cancelled);
    }
  }

  /** The nodes from index `i` on are finished. */
  ghost predicate CancelledFrom(c: Core, i: nat) {
    forall j | i <= j < |c.graph| :: c.graph[j].id in c.status && Terminal(c.status[c.graph[j].id])
  }

  lemma {:induction false} CancelFromKeeps(c: Core, i: nat)
    requires Inv(c)
    ensures Inv(CancelFrom(c, i)) && Steady(c, CancelFrom(c, i)) && OnlyCancels(c.status, CancelFrom(c, i).status)
    ensures CancelledFrom(CancelFrom(c, i), i)
    decreases |c.graph| - i
  {
    hide Inv, CancelOne, OnlyCancels, Terminal, Listed, Steady, CancelledFrom;
    InvGives(c);
    if i < |c.graph| {
      CancelOneGraph(c, i);
      var d := CancelOne(c, c.graph[i].id);
      CancelOneKeeps(c, c.graph[i].id);
      InvGives(d);
      CancelFromKeeps(d, i + 1);
      CancelRest(c, d, CancelFrom(d, i + 1), i);
    } else {
      NothingCancelled(c, i);
    }
  }

  lemma {:induction false} CancelOneGraph(c: Core, i: nat)
    requires Listed(c) && i < |c.graph|
    ensures c.graph[i].id in c.status && CancelOne(c, c.graph[i].id).graph == c.graph
  {}

  lemma {:induction false} NothingCancelled(c: Core, i: nat)
    requires i >= |c.graph|
    ensures OnlyCancels(c.status, c.status) && Steady(c, c) && CancelledFrom(c, i)
  {}

  lemma {:induction false} CancelRest(c: Core, d: Core, e: Core, i: nat)
    requires i < |c.graph| && c.graph[i].id in c.status && Steady(c, d) && Steady(d, e)
    requires OnlyCancels(c.status, d.status) && OnlyCancels(d.status, e.status) && Terminal(d.status[c.graph[i].id])
    requires CancelledFrom(e, i + 1)
    ensures Steady(c, e) && OnlyCancels(c.status, e.status)
    ensures CancelledFrom(e, i)
  {}

  /** Cancellation finishes every node and disturbs none that already was. */
  lemma {:induction false} CancelAllKeeps(c: Core)
    requires Inv(c)
    ensures Inv(CancelAll(c)) && Steady(c, CancelAll(c)) && OnlyCancels(c.status, CancelAll(c).status)
    ensures forall n | n in c.status :: Terminal(CancelAll(c).status[n])
  {
    hide Agrees, LogOk, OrderOk, DepSafe, AboveDone, SkipClosed;
    CancelFromKeeps(c, 0);
    EmitKeeps(CancelFrom(c, 0), RunCancelRequested);
    forall n | n in c.status
      ensures Terminal(CancelFrom(c, 0).status[n])
    {
      DepsKeys(c.graph, n);
    }
  }
}
