/**
 Undisturbed play: where the handlers succeed and no branch is skipped, rounds complete node after node until a given
 node is ready.
 */
module Playing {
  import opened WorkflowTypes
  import opened NodeMachine
  import opened Graph
  import opened Layers
  import opened WorkflowCore
  import Bulkhead
  import opened Machine
  import opened MachineSteps
  import opened RoundSteps
  import opened MachineInvariant
  import opened Safety
  import opened Executions

  type Answers = map<Id, NodeResult>

  /** The node can get a seat, and with its answer it is executed without skipping anything. */
  predicate Plays(g: seq<Node>, limits: Bulkhead.Limits, answers: Answers, n: Id) {
    n in ById(g) && n in answers && Executes(ById(g)[n], answers[n]) && Admits(limits, g, n)
  }

  predicate AllPlay(g: seq<Node>, limits: Bulkhead.Limits, answers: Answers, ns: seq<Id>) {
    forall n | n in ns :: Plays(g, limits, answers, n)
  }

  predicate Distinct(ns: seq<Id>) {
    forall i, j | 0 <= i < j < |ns| :: ns[i] != ns[j]
  }

  /** The listed nodes are completed; others are as before or have become ready. */
  predicate Advanced(st: Statuses, st': Statuses, ns: seq<Id>) {
    && st'.Keys == st.Keys
    && forall m | m in st :: if m in ns then st'[m] == Completed
                             else st'[m] == st[m] || (st[m] == Planned && st'[m] == Ready)
  }

  /** In a round of an undisturbed process, with all workers idle. */
  ghost predicate InRound(s: State) {
    Good(s) && s.driver.Dispatching? && !s.cancelled && !s.fault && AllIdle(s.workers)
  }

  predicate AllReady(st: Statuses, ns: seq<Id>) {
    forall n | n in ns :: n in st && st[n] == Ready
  }

  /** The first worker takes the job for a node and executes it. */
  lemma {:induction false} JobPlayed(s: State, job: Job, answers: Answers) returns (t: State)
    requires InRound(s) && job in s.queue && job.nodeId in s.core.status && s.core.status[job.nodeId] == Ready
    requires Plays(s.core.graph, s.limits, answers, job.nodeId)
    ensures Onward(s, t) && InRound(t) && Completes(s.core, t.core, job.nodeId)
    ensures t.queue == s.queue - multiset{job} && t.core.graph == s.core.graph && t.limits == s.limits
  {
    hide Good, Onward, Executes, Outcome, ById, Admits, SlotOf, Bulkhead.CanEverAdmit, Moves, Completes;
    var u := JobTaken(s, job);
    UnsetOnward(s, u);
    AdmitsSeat(u, job.nodeId);
    var k: nat;
    t, k := Executed(u, job.nodeId, answers[job.nodeId]);
    UnsetOnward(u, t);
    OnwardTrans(s, u, t);
  }

  lemma {:induction false} AdvancedOne(c: Core, d: Core, st: Statuses, ns: seq<Id>)
    requires ns != [] && Distinct(ns) && AllReady(c.status, ns) && Completes(c, d, ns[0])
    ensures AllReady(d.status, ns[1..]) && Distinct(ns[1..])
    ensures Advanced(d.status, st, ns[1..]) ==> Advanced(c.status, st, ns)
  {
    assert ns[0] !in ns[1..];
    assert ns == [ns[0]] + ns[1..];
  }

  /** One after the other, the queued jobs are executed. */
  lemma {:induction false} JobsPlayed(s: State, c: Core, ns: seq<Id>, answers: Answers) returns (t: State)
    requires InRound(s) && s.queue == JobsFor(c, ns) && Distinct(ns) && AllReady(s.core.status, ns)
    requires AllPlay(s.core.graph, s.limits, answers, ns)
    ensures Onward(s, t) && InRound(t) && t.queue == multiset{} && Advanced(s.core.status, t.core.status, ns)
    decreases |ns|
  {
    hide Good, Onward, Reaches, Plays, Completes, AllIdle, Advanced, Distinct;
    if ns == [] {
      t := s;
      ReachesSelf(s);
      OnwardSelf(s);
      AdvancedNone(s.core.status);
    } else {
      var job := Job(ns[0], if ns[0] in c.attempt then c.attempt[ns[0]] else 1);
      assert s.queue == multiset{job} + JobsFor(c, ns[1..]);
      var u := JobPlayed(s, job, answers);
      assert u.queue == JobsFor(c, ns[1..]);
      AdvancedOne(s.core, u.core, u.core.status, ns);
      t := JobsPlayed(u, c, ns[1..], answers);
      AdvancedOne(s.core, u.core, t.core.status, ns);
      OnwardTrans(s, u, t);
    }
  }

  lemma {:induction false} OnwardSelf(s: State)
    requires Good(s) && Reaches(s, s)
    ensures Onward(s, s)
  {
    hide Good, Reaches;
  }

  lemma {:induction false} AdvancedNone(st: Statuses)
    ensures Advanced(st, st, [])
  {}

  lemma {:induction false} ReadyDistinct(g: seq<Node>, st: Statuses)
    requires UniqueIds(g)
    ensures Distinct(ReadyList(g, st)) && AllReady(st, ReadyList(g, st))
    ensures forall n | n in ReadyList(g, st) :: exists i :: 0 <= i < |g| && g[i].id == n
  {
    if g != [] {
      var front, n := g[..|g| - 1], g[|g| - 1].id;
      ReadyDistinct(front, st);
      assert n !in ReadyList(front, st) by {
        forall i | 0 <= i < |front|
          ensures front[i].id != n
        {
          assert g[i].id != g[|g| - 1].id;
        }
      }
      forall m | m in ReadyList(g, st)
        ensures exists i :: 0 <= i < |g| && g[i].id == m
      {
        if m in ReadyList(front, st) {
          var i :| 0 <= i < |front| && front[i].id == m;
          assert g[i].id == m;
        } else {
          assert g[|g| - 1].id == m;
        }
      }
    }
  }

  /** A whole round: every ready node is executed to its completion. */
  lemma {:induction false} RoundPlayed(s: State, answers: Answers) returns (t: State)
    requires Poised(s) && s.queue == multiset{} && ReadyList(s.core.graph, s.core.status) != []
    requires AllPlay(s.core.graph, s.limits, answers, ReadyList(s.core.graph, s.core.status))
    ensures Onward(s, t) && Poised(t) && t.queue == multiset{}
    ensures Advanced(s.core.status, t.core.status, ReadyList(s.core.graph, s.core.status))
  {
    hide Good, ReadyList, Onward, SameSetting, AllPlay, Moves, JobsFor, HasJob, AllIdle, Distinct, AllReady, Advanced;
    var ready := ReadyList(s.core.graph, s.core.status);
    UniqueInGood(s);
    ReadyDistinct(s.core.graph, s.core.status);
    var u := RoundOpens(s);
    UnsetOnward(s, u);
    SettingGives(s, u);
    assert u.queue == JobsFor(s.core, ready);
    var v := JobsPlayed(u, s.core, ready, answers);
    UnsetOnward(u, v);
    SettingGives(u, v);
    t := RoundEnds(v);
    UnsetOnward(v, t);
    OnwardTrans(s, u, v);
    OnwardTrans(s, v, t);
  }

  lemma {:induction false} UniqueInGood(s: State)
    requires Good(s)
    ensures UniqueIds(s.core.graph)
  {
    hide Good, Acyclic, UniqueIds, DepSafe, AboveDone, SkipClosed, OrderOk;
    GoodGives(s);
  }

  /* ---------- until a node is ready ---------- */

  /** Every node is completed, or planned or ready. */
  predicate Smooth(st: Statuses) {
    forall m | m in st :: st[m] == Completed || Idles(st[m])
  }

  /** All nodes but one play. */
  predicate OthersPlay(g: seq<Node>, limits: Bulkhead.Limits, answers: Answers, n: Id) {
    forall m | m in ById(g) && m != n :: Plays(g, limits, answers, m)
  }

  lemma {:induction false} AdvancedSmooth(st: Statuses, st': Statuses, ns: seq<Id>, n: Id)
    requires Smooth(st) && Advanced(st, st', ns) && n in st && Idles(st[n]) && n !in ns
    ensures Smooth(st') && n in st' && Idles(st'[n])
  {}

  /** While some node is not completed, some node is ready. */
  lemma {:induction false} SomeReady(s: State, n: Id)
    requires Good(s) && Smooth(s.core.status) && n in s.core.status && s.core.status[n] != Completed
    ensures ReadyList(s.core.graph, s.core.status) != []
  {
    hide Good, ReadyList, Deps, Inv, DepSafe, AboveDone, SkipClosed, OrderOk, Acyclic;
    GoodGives(s);
    InvDeps(s.core);
    InvAcyclic(s.core);
    assert n in Deps(s.core.graph).Keys;
    var x := GrowStrict(Deps(s.core.graph), CompletedSet(s.core.status));
    IsReady(s, x);
  }

  lemma {:induction false} InvAcyclic(c: Core)
    requires Inv(c)
    ensures KnownDeps(Deps(c.graph)) && !HasCycle(Deps(c.graph))
  {
    hide Deps, HasCycle, KnownDeps, DepSafe, AboveDone, SkipClosed, OrderOk;
    InvDeps(c);
  }

  lemma {:induction false} MoreCompleted(st: Statuses, st': Statuses, ns: seq<Id>)
    requires Advanced(st, st', ns) && ns != [] && AllReady(st, ns)
    ensures CompletedSet(st) < CompletedSet(st') <= st.Keys
  {
    assert ns[0] in ns && ns[0] !in CompletedSet(st) && ns[0] in CompletedSet(st');
    assert forall m | m in st && st[m] == Completed :: m !in ns;
  }

  /** Round after round, until `n` is ready. */
  lemma {:induction false} PlayedUntil(s: State, answers: Answers, n: Id) returns (t: State)
    requires Poised(s) && s.queue == multiset{} && Smooth(s.core.status)
    requires n in s.core.status && Idles(s.core.status[n]) && OthersPlay(s.core.graph, s.limits, answers, n)
    ensures Onward(s, t) && Poised(t) && Smooth(t.core.status) && n in t.core.status && t.core.status[n] == Ready
    decreases s.core.status.Keys - CompletedSet(s.core.status)
  {
    hide Good, ReadyList, Reaches, Plays, Deps, ById, Advanced, Smooth, Inv, AllReady, Distinct, Onward;
    if s.core.status[n] == Ready {
      t := s;
      ReachesSelf(s);
      OnwardSelf(s);
    } else {
      var ready := ReadyList(s.core.graph, s.core.status);
      GoodGives(s);
      SomeReady(s, n);
      OthersOnly(s, answers, n);
      var u := RoundPlayed(s, answers);
      UnsetOnward(s, u);
      SettingGives(s, u);
      AdvancedSmooth(s.core.status, u.core.status, ready, n);
      UniqueInGood(s);
      ReadyDistinct(s.core.graph, s.core.status);
      MoreCompleted(s.core.status, u.core.status, ready);
      AdvancedKeys(s.core.status, u.core.status, ready);
      t := PlayedUntil(u, answers, n);
      OnwardTrans(s, u, t);
    }
  }

  lemma {:induction false} AdvancedKeys(st: Statuses, st': Statuses, ns: seq<Id>)
    requires Advanced(st, st', ns)
    ensures st'.Keys == st.Keys
  {}

  lemma {:induction false} OthersOnly(s: State, answers: Answers, n: Id)
    requires Good(s) && n in s.core.status && s.core.status[n] == Planned
    requires OthersPlay(s.core.graph, s.limits, answers, n)
    ensures var ready := ReadyList(s.core.graph, s.core.status);
            n !in ready && AllPlay(s.core.graph, s.limits, answers, ready)
  {
    hide Good, ReadyList, Plays, Deps, ById, Sound;
    GoodGives(s);
    var ready := ReadyList(s.core.graph, s.core.status);
    forall m
      ensures m in ready ==> m != n && m in ById(s.core.graph)
    {
      ReadyMembers(s.core.graph, s.core.status, m);
      if m in ready { SoundKnows(s, m); }
    }
  }
}
