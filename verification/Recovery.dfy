/**
 Rebuilding an executor from its log. `Hydrate` is what the recovering process computes; the lemmas say what
 any prefix of a run's log gives back.
 */
module Recovery {
  import opened Wrappers
  import opened WorkflowTypes
  import opened NodeMachine
  import opened Graph
  import opened Layers
  import opened WorkflowLog
  import opened WorkflowCore
  import opened CoreInvariant

  /** Finished nodes come back as the log has them, all others as planned. */
  function Restored(logged: Status): Status {
    if Terminal(logged) then logged else Planned
  }

  function Keep(order: seq<Id>, done: set<Id>): seq<Id> {
    if order == [] then []
    else
      var n := order[|order| - 1];
      Keep(order[..|order| - 1], done) + (if n in done then [n] else [])
  }

  /** The nodes replay has completed. */
  function LoggedDone(g: seq<Node>, m: Snapshots): set<Id> {
    set n | n in Deps(g) && SnapOf(m, n).status == Completed && SnapOf(m, n).result.Some?
  }

  /** The state the snapshots describe, before skips are carried on and nodes promoted. */
  function Restore(runId: string, g: seq<Node>, log: seq<Event>): Core {
    var m := Snaps(log);
    Core(
      runId, g,
      map n | n in Deps(g) :: Restored(SnapOf(m, n).status),
      map n | n in Deps(g) :: SnapOf(m, n).attempt,
      map n | n in Deps(g) :: 0,
      map n | n in LoggedDone(g, m) :: SnapOf(m, n).result.value,
      Keep(FirstSeen(log), LoggedDone(g, m)),
      [],
      log)
  }

  /** Carries every skip, in list order from `i` on, to its dependents. */
  function CloseSkips(c: Core, i: nat): (a: Attempt)
    requires Listed(c)
    ensures a.core.graph == c.graph && a.core.status.Keys == c.status.Keys
    decreases |c.graph| - i
  {
    if i >= |c.graph| then Attempt(c, false)
    else if c.status[c.graph[i].id] != Skipped then CloseSkips(c, i + 1)
    else
      var a := CascadeSkip(c, c.graph[i].id, 0);
      if a.threw then a else CloseSkips(a.core, i + 1)
  }

  /** The last graph a log announces. */
  function Announced(log: seq<Event>): Option<Event> {
    if log == [] then None
    else if log[|log| - 1].Created? then Some(log[|log| - 1])
    else Announced(log[..|log| - 1])
  }

  /** `None` where the program reports that no run was created or a skip was illegal. */
  function Hydrate(log: seq<Event>): Option<Core> {
    var created := Announced(log);
    if created.None? then None
    else
      var c := Restore(Run(created.value), Plan(created.value), log);
      RestoreListed(Run(created.value), Plan(created.value), log);
      var a := CloseSkips(c, 0);
      if a.threw then None else Some(Promote(a.core, 0))
  }

  function Run(e: Event): string { if e.Created? then e.runId else "" }

  function Plan(e: Event): seq<Node> { if e.Created? then e.graph else [] }

  lemma {:induction false} RestoreListed(runId: string, g: seq<Node>, log: seq<Event>)
    ensures Listed(Restore(runId, g, log))
  {
    forall i | 0 <= i < |g|
      ensures g[i].id in Deps(g)
    {
      DepsKeys(g, g[i].id);
    }
  }

  lemma {:induction false} AnnouncedFirst(g: seq<Node>, log: seq<Event>)
    requires LogOk(g, log)
    ensures Announced(log) == Some(log[0]) && log[0].Created? && log[0].graph == g
  {
    if |log| > 1 {
      AnnouncedFirst(g, log[..|log| - 1]);
    } else {
      assert log[|log| - 1] == log[0];
    }
  }

  /* ---------- the restored state satisfies the invariant ---------- */

  lemma {:induction false} CompletedHasResult(log: seq<Event>, n: Id)
    requires SnapOf(Snaps(log), n).status == Completed
    ensures SnapOf(Snaps(log), n).result.Some?
  {
    if log != [] {
      var e := log[|log| - 1];
      if !(Replayed(e) && e.nodeId == n) { CompletedHasResult(log[..|log| - 1], n); }
    }
  }

  lemma {:induction false} KeepAppend(order: seq<Id>, n: Id, done: set<Id>)
    ensures Keep(order + [n], done) == Keep(order, done) + (if n in done then [n] else [])
  {
    assert (order + [n])[..|order|] == order;
  }

  /** A node the log ends up completing had, when first seen, every node with a name above it seen and completed. */
  lemma {:induction false} FirstSeenBelow(g: seq<Node>, log: seq<Event>, k: nat, n: Id)
    requires LogOk(g, log) && 1 <= k < |log|
    requires Replayed(log[k]) && log[k].nodeId == n
    requires SnapOf(Snaps(log), n).status == Completed
    ensures n in Deps(g) && AboveLogged(Deps(g), Snaps(log[..k]), n)
  {
    LogLegalAt(g, log, k);
    if log[k].NodeSkipped? || log[k].NodeCancelled? {
      assert log[..k + 1][..k] == log[..k];
      FinishedStays(g, log, k + 1, n);
    }
  }

  /**
   Along the log, in the order nodes first appear, the nodes that end up completed stand after every node with a name
   above them, although they need not have completed in that order.
   */
  lemma {:induction false} FirstSeenOrder(g: seq<Node>, log: seq<Event>, k: nat)
    requires LogOk(g, log) && 1 <= k <= |log|
    ensures var done := LoggedDone(g, Snaps(log));
            OrderOk(Deps(g), done * Snaps(log[..k]).Keys, Keep(FirstSeen(log[..k]), done))
  {
    hide LogOk, LoggedDone, Legal, Snaps, FirstSeen, Keep, OrderOk;
    var done := LoggedDone(g, Snaps(log));
    if k == 1 {
      LogHead(g, log);
      NothingSeen(Deps(g), log[..1], done);
    } else {
      FirstSeenOrder(g, log, k - 1);
      var front, e := log[..k - 1], log[k - 1];
      SeenStep(front, e, done);
      assert log[..k] == front + [e];
      if Replayed(e) && e.nodeId in done && e.nodeId !in Snaps(front) {
        SeenNext(g, log, k - 1, done);
      }
    }
  }

  lemma {:induction false} NothingSeen(r: Rel, log: seq<Event>, done: set<Id>)
    requires |log| == 1 && log[0].Created?
    ensures OrderOk(r, done * Snaps(log).Keys, Keep(FirstSeen(log), done))
  {
    assert log[..|log| - 1] == [];
    assert done * Snaps(log).Keys == {};
  }

  lemma {:induction false} SeenStep(front: seq<Event>, e: Event, done: set<Id>)
    ensures var added := if Replayed(e) && e.nodeId in done && e.nodeId !in Snaps(front) then [e.nodeId] else [];
            && Keep(FirstSeen(front + [e]), done) == (if added == [] then Keep(FirstSeen(front), done)
                                                      else Keep(FirstSeen(front), done) + added)
            && (added == [] ==> done * Snaps(front + [e]).Keys == done * Snaps(front).Keys)
  {
    assert (front + [e])[..|front|] == front;
    if Replayed(e) && e.nodeId !in Snaps(front) { KeepAppend(FirstSeen(front), e.nodeId, done); }
    if Replayed(e) { assert Snaps(front + [e]).Keys == Snaps(front).Keys + {e.nodeId}; }
  }

  lemma {:induction false} SeenNext(g: seq<Node>, log: seq<Event>, k: nat, done: set<Id>)
    requires LogOk(g, log) && 1 <= k < |log| && done == LoggedDone(g, Snaps(log))
    requires Replayed(log[k]) && log[k].nodeId in done && log[k].nodeId !in Snaps(log[..k])
    requires OrderOk(Deps(g), done * Snaps(log[..k]).Keys, Keep(FirstSeen(log[..k]), done))
    ensures OrderOk(Deps(g), done * Snaps(log[..k + 1]).Keys, Keep(FirstSeen(log[..k]), done) + [log[k].nodeId])
  {
    var n := log[k].nodeId;
    FirstSeenBelow(g, log, k, n);
    hide NamedAbove, OrderOk;
    forall d | d in NamedAbove(Deps(g), n)
      ensures d in done * Snaps(log[..k]).Keys
    {
      assert SnapOf(Snaps(log[..k]), d).status == Completed;
      FinishedStays(g, log, k, d);
      StartedInGraph(g, log, d);
      CompletedHasResult(log, d);
    }
    assert log[..k + 1][..k] == log[..k];
    assert done * Snaps(log[..k + 1]).Keys == done * Snaps(log[..k]).Keys + {n};
    OrderAppend(Deps(g), done * Snaps(log[..k]).Keys, Keep(FirstSeen(log[..k]), done), n);
  }

  lemma {:induction false} StartedInGraph(g: seq<Node>, log: seq<Event>, n: Id)
    requires LogOk(g, log) && n in Snaps(log)
    ensures n in Deps(g)
  {
    SnapsInGraph(g, log);
  }

  /** Nothing restored is under way, and what is finished has the named nodes above it completed. */
  lemma {:induction false} RestoredSafe(runId: string, g: seq<Node>, log: seq<Event>)
    requires LogOk(g, log)
    ensures DepSafe(Deps(g), Restore(runId, g, log).status) && AboveDone(Deps(g), Restore(runId, g, log).status)
  {
    hide NamedAbove, Keep, FirstSeen, Deps;
    var c := Restore(runId, g, log);
    forall n | n in Deps(g) && n in c.status && Begun(c.status[n])
      ensures NamedAbove(Deps(g), n) <= CompletedSet(c.status)
    {
      RestoredAbove(g, log, n, c.status);
    }
  }

  lemma {:induction false} RestoredAbove(g: seq<Node>, log: seq<Event>, n: Id, st: Statuses)
    requires LogOk(g, log) && n in Deps(g) && Terminal(SnapOf(Snaps(log), n).status)
    requires SnapOf(Snaps(log), n).status != Skipped && SnapOf(Snaps(log), n).status != Cancelled
    requires st == map m | m in Deps(g) :: Restored(SnapOf(Snaps(log), m).status)
    ensures NamedAbove(Deps(g), n) <= CompletedSet(st)
  {
    hide NamedAbove, Snaps, Deps, LogOk;
    LogNotEmpty(g, log);
    SomethingSeen(g, log, n);
    StartedAbove(g, log, n);
    forall a | a in NamedAbove(Deps(g), n)
      ensures a in CompletedSet(st)
    {
      assert SnapOf(Snaps(log), a).status == Completed;
      StartedInGraph(g, log, a);
    }
  }

  /** What replay knows of was logged after the graph. */
  lemma {:induction false} SomethingSeen(g: seq<Node>, log: seq<Event>, n: Id)
    requires LogOk(g, log) && SnapOf(Snaps(log), n).status != Planned
    ensures n in Snaps(log) && |log| > 1
  {
    NothingSeenYet(log);
  }

  lemma {:induction false} NothingSeenYet(log: seq<Event>)
    ensures |log| == 1 && log[0].Created? ==> Snaps(log) == map[]
  {
    if |log| == 1 { assert log[..0] == []; }
  }

  lemma {:induction false} RestoredDone(runId: string, g: seq<Node>, log: seq<Event>)
    ensures CompletedSet(Restore(runId, g, log).status) == LoggedDone(g, Snaps(log)) ==
            Restore(runId, g, log).results.Keys
  {
    hide Snaps, Keep, FirstSeen, Deps;
    var c := Restore(runId, g, log);
    forall n | n in c.status
      ensures n in LoggedDone(g, Snaps(log)) <==> c.status[n] == Completed
    {
      if SnapOf(Snaps(log), n).status == Completed { CompletedHasResult(log, n); }
    }
  }

  lemma {:induction false} RestoredAgrees(runId: string, g: seq<Node>, log: seq<Event>)
    requires LogOk(g, log)
    ensures Agrees(Restore(runId, g, log).status, Snaps(log), Restore(runId, g, log).results)
  {
    hide Snaps, Keep, FirstSeen, Deps, LogOk;
    SnapsInGraph(g, log);
  }

  lemma {:induction false} RestoreKeeps(runId: string, g: seq<Node>, log: seq<Event>)
    requires Valid(g) && LogOk(g, log)
    ensures InvSkipping(Restore(runId, g, log))
  {
    hide Valid, Snaps, Keep, FirstSeen, LogOk, DepSafe, AboveDone, OrderOk, Agrees, LoggedDone, CompletedSet;
    RestoreListed(runId, g, log);
    RestoredSafe(runId, g, log);
    RestoredAttempts(runId, g, log);
    LogNotEmpty(g, log);
    FirstSeenOrder(g, log, |log|);
    assert log[..|log|] == log;
    RestoredDone(runId, g, log);
    DoneWasSeen(g, log);
    RestoredAgrees(runId, g, log);
  }

  lemma {:induction false} RestoredAttempts(runId: string, g: seq<Node>, log: seq<Event>)
    requires LogOk(g, log)
    ensures Numbered(Restore(runId, g, log).attempt)
  {
    hide Snaps, Keep, FirstSeen, Deps, LogOk;
    forall n | n in Restore(runId, g, log).attempt
      ensures SnapOf(Snaps(log), n).attempt >= 1
    {
      SnapAttempts(g, log, n);
    }
  }

  lemma {:induction false} LogNotEmpty(g: seq<Node>, log: seq<Event>)
    requires LogOk(g, log)
    ensures |log| >= 1
  {}

  lemma {:induction false} DoneWasSeen(g: seq<Node>, log: seq<Event>)
    ensures LoggedDone(g, Snaps(log)) * Snaps(log).Keys == LoggedDone(g, Snaps(log))
  {
    hide Snaps, Deps;
  }

  /* ---------- carrying skips on ---------- */

  /** Whatever changed depends on a node that was already skipped. */
  ghost predicate OnlyBelowSkips(r: Rel, st: Statuses, st': Statuses)
    requires st.Keys == st'.Keys
  {
    forall x | x in st && st'[x] != st[x] :: exists root :: root in st && st[root] == Skipped && Ancestor(r, root, x)
  }

  ghost predicate SkipsClosedFrom(c: Core, d: Core, i: nat) {
    && InvSkipping(d) && Steady(c, d) && OnlySkips(c.status, d.status)
    && NewSkipsClosed(Deps(c.graph), c.status, d.status)
    && OnlyBelowSkips(Deps(c.graph), c.status, d.status)
    && (forall j | i <= j < |c.graph| :: c.graph[j].id in c.status &&
          (c.status[c.graph[j].id] == Skipped ==> NothingPlannedOn(Deps(c.graph), d.status, c.graph[j].id)))
  }

  lemma {:induction false} CloseSkipsKeeps(c: Core, i: nat)
    requires InvSkipping(c)
    ensures !CloseSkips(c, i).threw && SkipsClosedFrom(c, CloseSkips(c, i).core, i)
    decreases |c.graph| - i
  {
    hide Agrees, LogOk, OrderOk, Valid, DepSafe, AboveDone, Cascaded, NothingPlannedOn, NewSkipsClosed, OnlyBelowSkips;
    if i < |c.graph| {
      var n := c.graph[i].id;
      if c.status[n] == Skipped {
        CascadeAll(c, n);
        var a := CascadeSkip(c, n, 0);
        StillSkipped(c, a, n, n);
        CloseSkipsKeeps(a.core, i + 1);
        CloseSkipsStep(c, a, CloseSkips(a.core, i + 1).core, i);
      } else {
        CloseSkipsKeeps(c, i + 1);
        CloseSkipsPass(c, CloseSkips(c, i + 1).core, i);
      }
    } else {
      CloseSkipsEnd(c, i);
    }
  }

  lemma {:induction false} CloseSkipsEnd(c: Core, i: nat)
    requires InvSkipping(c) && i >= |c.graph|
    ensures SkipsClosedFrom(c, c, i)
  {}

  lemma {:induction false} CloseSkipsPass(c: Core, d: Core, i: nat)
    requires SkipsClosedFrom(c, d, i + 1) && i < |c.graph| && c.graph[i].id in c.status
    requires c.status[c.graph[i].id] != Skipped
    ensures SkipsClosedFrom(c, d, i)
  {}

  lemma {:induction false} CloseSkipsStep(c: Core, a: Attempt, d: Core, i: nat)
    requires InvSkipping(c) && i < |c.graph| && c.status[c.graph[i].id] == Skipped
    requires Cascaded(c, a, c.graph[i].id, 0)
    requires NothingPlannedOn(Deps(c.graph), a.core.status, c.graph[i].id)
    requires SkipsClosedFrom(a.core, d, i + 1)
    ensures SkipsClosedFrom(c, d, i)
  {
    hide Agrees, LogOk, OrderOk, Valid, DepSafe, AboveDone;
    var r := Deps(c.graph);
    NewSkipsCompose(r, c.status, a.core.status, d.status);
    BelowSkipsCompose(r, c.status, a.core.status, d.status, c.graph[i].id);
    PlannedOnShrinks(r, a.core.status, d.status, c.graph[i].id);
  }

  lemma {:induction false} NewSkipsCompose(r: Rel, a: Statuses, b: Statuses, c: Statuses)
    requires OnlySkips(a, b) && OnlySkips(b, c) && NewSkipsClosed(r, a, b) && NewSkipsClosed(r, b, c)
    ensures OnlySkips(a, c) && NewSkipsClosed(r, a, c)
  {}

  lemma {:induction false} BelowSkipsCompose(r: Rel, a: Statuses, b: Statuses, c: Statuses, n: Id)
    requires OnlySkips(a, b) && OnlySkips(b, c) && n in a && a[n] == Skipped
    requires OnlyBelow(r, a, b, n) && OnlyBelowSkips(r, b, c)
    ensures OnlyBelowSkips(r, a, c)
  {
    forall x | x in a && c[x] != a[x]
      ensures exists root :: root in a && a[root] == Skipped && Ancestor(r, root, x)
    {
      if c[x] != b[x] {
        var root :| root in b && b[root] == Skipped && Ancestor(r, root, x);
        if a[root] != Skipped {
          assert Ancestor(r, n, root);
          AncestorTransitive(r, n, root, x);
        }
      }
    }
  }

  lemma {:induction false} AncestorTransitive(r: Rel, a: Id, b: Id, x: Id)
    requires Ancestor(r, a, b) && Ancestor(r, b, x)
    ensures Ancestor(r, a, x)
  {
    var p :| IsWalk(r, p) && |p| >= 2 && p[0] == x && p[|p| - 1] == b;
    var q :| IsWalk(r, q) && |q| >= 2 && q[0] == b && q[|q| - 1] == a;
    WalksJoin(r, p, q, |q|);
    assert IsWalk(r, p + q[1..|q|]);
  }

  lemma {:induction false} WalksJoin(r: Rel, p: seq<Id>, q: seq<Id>, k: nat)
    requires IsWalk(r, p) && IsWalk(r, q) && p[|p| - 1] == q[0] && 1 <= k <= |q|
    ensures IsWalk(r, p + q[1..k]) && (p + q[1..k])[|p| + k - 2] == q[k - 1]
  {
    if k == 1 {
      assert p + q[1..1] == p;
    } else {
      WalksJoin(r, p, q, k - 1);
      assert Edge(r, q[k - 2], q[k - 1]);
      WalkAppend(r, p + q[1..k - 1], q[k - 1]);
      assert p + q[1..k] == p + q[1..k - 1] + [q[k - 1]];
    }
  }

  lemma {:induction false} PlannedOnShrinks(r: Rel, st: Statuses, st': Statuses, n: Id)
    requires OnlySkips(st, st') && NothingPlannedOn(r, st, n)
    ensures NothingPlannedOn(r, st', n)
  {}

  lemma {:induction false} ClosedFromZero(c: Core, d: Core)
    requires Static(c) && SkipsClosedFrom(c, d, 0)
    ensures SkipClosed(Deps(c.graph), d.status)
  {
    var r := Deps(c.graph);
    forall n, x {:trigger x in r[n]} | n in r && n in d.status && d.status[n] == Planned && x in r[n]
      ensures x in d.status && d.status[x] != Skipped
    {
      assert r[n] <= r.Keys;
      DepsKeys(c.graph, x);
      var j :| 0 <= j < |c.graph| && c.graph[j].id == x;
    }
  }

  /* ---------- what hydration gives back ---------- */

  /**
   From any prefix of a run's log hydration succeeds, keeps the log as a prefix of the ledger, and satisfies the
   executor's invariant with promotion carried through.
   */
  lemma {:induction false} HydrateKeeps(g: seq<Node>, log: seq<Event>)
    requires Valid(g) && LogOk(g, log)
    ensures Hydrate(log).Some?
    ensures var c := Hydrate(log).value;
            Inv(c) && Promoted(Deps(g), c.status) && c.graph == g && log <= c.log
  {
    hide Valid, InvSkipping;
    AnnouncedFirst(g, log);
    var c := Restore(log[0].runId, g, log);
    RestoreListed(log[0].runId, g, log);
    HydrateCloses(c);
    PromoteAll(CloseSkips(c, 0).core);
  }

  lemma {:induction false} HydrateCloses(c: Core)
    requires exists runId, g, log :: Valid(g) && LogOk(g, log) && c == Restore(runId, g, log)
    ensures Listed(c) && InvSkipping(c)
    ensures !CloseSkips(c, 0).threw && SkipsClosedFrom(c, CloseSkips(c, 0).core, 0)
    ensures Inv(CloseSkips(c, 0).core)
  {
    var runId, g, log :| Valid(g) && LogOk(g, log) && c == Restore(runId, g, log);
    RestoreKeeps(runId, g, log);
    CloseSkipsKeeps(c, 0);
    ClosedFromZero(c, CloseSkips(c, 0).core);
  }

  /** From what is restored, through carrying on skips to `d`, to what hydration returns. */
  lemma {:induction false} HydrateStages(g: seq<Node>, log: seq<Event>) returns (runId: string, d: Core)
    requires Valid(g) && LogOk(g, log)
    ensures Hydrate(log).Some?
    ensures var c, e := Restore(runId, g, log), Hydrate(log).value;
            && OnlySkips(c.status, d.status) && OnlyBelowSkips(Deps(g), c.status, d.status)
            && OnlyPromotes(Deps(g), d.status, e.status) && e.results == c.results
            && e.attempt == c.attempt && e.failures == c.failures
  {
    hide Valid, InvSkipping, SkipClosed, NewSkipsClosed, LogOk, Promoted, Deps, Snaps, OnlySkips, OnlyBelowSkips,
      OnlyPromotes, Restore;
    AnnouncedFirst(g, log);
    runId := log[0].runId;
    var c := Restore(runId, g, log);
    RestoredGraph(runId, g, log);
    RestoreListed(runId, g, log);
    HydrateCloses(c);
    d := CloseSkips(c, 0).core;
    PromoteAll(d);
  }

  lemma {:induction false} RestoredGraph(runId: string, g: seq<Node>, log: seq<Event>)
    ensures Restore(runId, g, log).graph == g
  {}

  /** What hydration makes of the snapshots. */
  lemma {:induction false} HydrateSnaps(g: seq<Node>, log: seq<Event>, n: Id)
    requires Valid(g) && LogOk(g, log) && n in Deps(g)
    ensures Hydrate(log).Some?
    ensures var c, logged := Hydrate(log).value, SnapOf(Snaps(log), n).status;
            && n in c.status
            && (Terminal(logged) ==> c.status[n] == logged)
            && (c.status[n] == Completed <==> logged == Completed)
            && (c.status[n] == Completed ==> n in c.results && SnapOf(Snaps(log), n).result == Some(c.results[n]))
            && (!Terminal(logged) ==>
                  || (c.status[n] == Planned || c.status[n] == Ready)
                  || (c.status[n] == Skipped && exists root :: root in Deps(g)
                                                  && SnapOf(Snaps(log), root).status == Skipped
                                                               && Ancestor(Deps(g), root, n)))
  {
    hide Valid, LogOk, Deps, Snaps, Ancestor, OnlyBelowSkips, Hydrate, Keep, FirstSeen;
    var runId, d := HydrateStages(g, log);
    var c := Restore(runId, g, log);
    if SnapOf(Snaps(log), n).status == Completed { CompletedHasResult(log, n); }
    if d.status[n] != c.status[n] { SkippedBelow(c, d, n); }
  }

  /**
   Hydration restores what the log marks as finished, with the logged results, exactly for nodes with a name. Every
   other node comes back planned or ready, except that dependents of a named node logged as skipped are skipped too.
   */
  lemma {:induction false} HydrateExact(g: seq<Node>, log: seq<Event>, n: Id)
    requires Valid(g) && LogOk(g, log) && n in Deps(g)
    ensures Hydrate(log).Some? && n in Hydrate(log).value.status
    ensures Recovers(g, Hydrate(log).value, log, n)
  {
    hide Valid, LogOk, Deps, Snaps, Told, Ancestor, Hydrate;
    HydrateSnaps(g, log, n);
    ReplayedIfNamed(log, n);
    SkipIsTold(g, log, n);
  }

  /** Node `n` of the restored data `c`, compared with what the log says of it. */
  ghost predicate Recovers(g: seq<Node>, c: Core, log: seq<Event>, n: Id)
    requires n in c.status
  {
    var told := SnapOf(Told(log), n);
    && (Terminal(told.status) && Named(n) ==> c.status[n] == told.status)
    && (Terminal(told.status) && told.status != Skipped ==> (c.status[n] == told.status <==> Named(n)))
    && (c.status[n] == Completed <==> told.status == Completed && Named(n))
    && (c.status[n] == Completed ==> n in c.results && told.result == Some(c.results[n]))
    && (!Terminal(told.status) || !Named(n) ==>
          || (c.status[n] == Planned || c.status[n] == Ready)
          || (c.status[n] == Skipped && BelowSkipped(g, log, n)))
  }

  /** A node with a name that the log skips is among the ancestors of `n`. */
  ghost predicate BelowSkipped(g: seq<Node>, log: seq<Event>, n: Id) {
    exists root :: root in Deps(g) && Named(root) && SnapOf(Told(log), root).status == Skipped
      && Ancestor(Deps(g), root, n)
  }

  lemma {:induction false} SkipIsTold(g: seq<Node>, log: seq<Event>, n: Id)
    ensures (exists root :: root in Deps(g) && SnapOf(Snaps(log), root).status == Skipped
               && Ancestor(Deps(g), root, n)) ==>
              BelowSkipped(g, log, n)
  {
    hide Deps, Snaps, Told, Ancestor;
    if root :| root in Deps(g) && SnapOf(Snaps(log), root).status == Skipped && Ancestor(Deps(g), root, n) {
      ReplayedIfNamed(log, root);
    }
  }

  lemma {:induction false} SkippedBelow(c: Core, d: Core, n: Id)
    requires exists runId, g, log :: c == Restore(runId, g, log)
    requires c.status.Keys == d.status.Keys && OnlyBelowSkips(Deps(c.graph), c.status, d.status)
    requires n in c.status && d.status[n] != c.status[n]
    ensures exists root :: root in Deps(c.graph) && SnapOf(Snaps(c.log), root).status == Skipped
                           && Ancestor(Deps(c.graph), root, n)
  {
    var root :| root in c.status && c.status[root] == Skipped && Ancestor(Deps(c.graph), root, n);
    assert SnapOf(Snaps(c.log), root).status == Skipped;
  }
}
