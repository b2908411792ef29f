/**
 The executor's data and the await-free operations on it: promotion, skipping, completion, cancellation and
 the final status. `Inv` is what each of them keeps.
 */
module WorkflowCore {
  import opened Wrappers
  import opened WorkflowTypes
  import opened NodeMachine
  import opened Graph
  import opened Layers
  import opened WorkflowLog

  type Statuses = map<Id, Status>

  /** The executor's fields; a node record's mutable parts are kept in one map each. */
  datatype Core = Core(
    runId: string,
    graph: seq<Node>,
    status: Statuses,
    attempt: map<Id, int>,
    failures: map<Id, nat>,
    results: map<Id, NodeResult>,
    completionOrder: seq<Id>,
    compensated: seq<Id>,
    log: seq<Event>)

  /* ---------- operations ---------- */

  function Emit(c: Core, e: Event): Core {
    c.(log := c.log + [e])
  }

  /** A status change together with the event that reports it. */
  function Move(c: Core, n: Id, s: Status, e: Event): Core {
    c.(status := c.status[n := s], log := c.log + [e])
  }

  predicate DepsDone(r: Rel, st: Statuses, n: Id) {
    n in r && forall d | d in r[n] :: d in st && st[d] == Completed
  }

  function PromoteOne(c: Core, n: Id): Core
    requires n in c.status
  {
    if c.status[n] == Planned && DepsDone(Deps(c.graph), c.status, n) then Move(c, n, Ready, NodeReady(n)) else c
  }

  /** Every listed node has a status. */
  ghost predicate Listed(c: Core) {
    forall i | 0 <= i < |c.graph| :: c.graph[i].id in c.status
  }

  /** One sweep over the nodes in list order, from index `i`. */
  function Promote(c: Core, i: nat): Core
    requires Listed(c)
    decreases |c.graph| - i
  {
    if i >= |c.graph| then c else Promote(PromoteOne(c, c.graph[i].id), i + 1)
  }

  /** The outcome of an operation that may throw an illegal-transition error part of the way through. */
  datatype Attempt = Attempt(core: Core, threw: bool)

  ghost function Unfinished(st: Statuses): set<Id> {
    set n | n in st && !Terminal(st[n])
  }

  /** `d` has the same nodes as `c` and no more unfinished ones. */
  ghost predicate NoMoreOpen(c: Core, d: Core) {
    d.graph == c.graph && d.status.Keys == c.status.Keys && Unfinished(d.status) <= Unfinished(c.status)
  }

  /** Marks the unfinished dependents of `n`, from list index `i` on, and theirs in turn. */
  function CascadeSkip(c: Core, n: Id, i: nat): (a: Attempt)
    requires Listed(c)
    ensures NoMoreOpen(c, a.core)
    decreases Unfinished(c.status), |c.graph| - i
  {
    if i >= |c.graph| then Attempt(c, false)
    else
      var other := c.graph[i].id;
      if n in c.graph[i].deps && !Terminal(c.status[other]) then
        if Transition(c.status[other], Skip).None? then Attempt(c, true)
        else
          var marked := Move(c, other, Skipped, NodeSkipped(other));
          assert other in Unfinished(c.status) && Unfinished(marked.status) == Unfinished(c.status) - {other};
          var inner := CascadeSkip(marked, other, 0);
          if inner.threw then inner else CascadeSkip(inner.core, n, i + 1)
      else CascadeSkip(c, n, i + 1)
  }

  function SkipNode(c: Core, n: Id): (a: Attempt)
    requires Listed(c)
    ensures a.core.graph == c.graph && a.core.status.Keys == c.status.Keys
  {
    if n !in c.status || Terminal(c.status[n]) then Attempt(c, false)
    else if Transition(c.status[n], Skip).None? then Attempt(c, true)
    else CascadeSkip(Move(c, n, Skipped, NodeSkipped(n)), n, 0)
  }

  function SkipAll(c: Core, ns: seq<Id>): (a: Attempt)
    requires Listed(c)
    ensures a.core.graph == c.graph && a.core.status.Keys == c.status.Keys
    decreases |ns|
  {
    if ns == [] then Attempt(c, false)
    else
      var first := SkipNode(c, ns[0]);
      if first.threw then first else SkipAll(first.core, ns[1..])
  }

  function Record(c: Core, n: Id, result: NodeResult): Core {
    Move(c, n, Completed, NodeCompleted(n, result)).(
    results := c.results[n := result],
    completionOrder := c.completionOrder + [n])
  }

  /** Records a verified result and promotes what it unblocks. */
  function CompleteNode(c: Core, n: Id, result: NodeResult): Core
    requires Listed(c) && n in c.status
  {
    Promote(Record(c, n, result), 0)
  }

  function CancelOne(c: Core, n: Id): Core
    requires n in c.status
  {
    if Terminal(c.status[n]) then c else Move(c, n, Cancelled, NodeCancelled(n))
  }

  function CancelFrom(c: Core, i: nat): Core
    requires Listed(c)
    decreases |c.graph| - i
  {
    if i >= |c.graph| then c else CancelFrom(CancelOne(c, c.graph[i].id), i + 1)
  }

  function CancelAll(c: Core): Core
    requires Listed(c)
  {
    Emit(CancelFrom(c, 0), RunCancelRequested)
  }

  predicate AnyIs(st: Statuses, s: set<Status>) {
    exists n :: n in st && st[n] in s
  }

  predicate AllAre(st: Statuses, s: set<Status>) {
    forall n | n in st :: st[n] in s
  }

  /** The status `finalize` announces. */
  function FinalStatus(st: Statuses): RunStatus {
    if AnyIs(st, {Quarantined}) then RunQuarantined
    else if AnyIs(st, {Failed, RolledBack}) then RunFailed
    else if AllAre(st, {Completed, Skipped, Cancelled}) then
      (if AnyIs(st, {Cancelled}) then RunCancelled else RunCompleted)
    else RunFailed
  }

  /** The status the outcome reports. */
  function DerivedStatus(st: Statuses): RunStatus {
    if AnyIs(st, {Quarantined}) then RunQuarantined
    else if AnyIs(st, {Failed, RolledBack}) then RunFailed
    else if AnyIs(st, {Cancelled}) then RunCancelled
    else RunCompleted
  }

  /* ---------- the invariant ---------- */

  /** Statuses only a node whose dependencies completed can have. */
  predicate Begun(s: Status) {
    (s != Planned && s != Skipped && s != Cancelled)
  }

  /** A node that has begun and not finished has all it depends on completed. */
  ghost predicate DepSafe(r: Rel, st: Statuses) {
    forall n, d {:trigger d in r[n]} |
      n in r && n in st && Begun(st[n]) && !Terminal(st[n]) && d in r[n] :: d in st && st[d] == Completed
  }

  /**
   A node that has begun, finished or not, has every node with a name above it completed; replay forgets the others.
   */
  ghost predicate AboveDone(r: Rel, st: Statuses) {
    forall n | n in r && n in st && Begun(st[n]) :: NamedAbove(r, n) <= CompletedSet(st)
  }

  ghost predicate SkipClosed(r: Rel, st: Statuses) {
    forall n, d {:trigger d in r[n]} | n in r && n in st && st[n] == Planned && d in r[n] :: d in st && st[d] != Skipped
  }

  /** No planned node is runnable: promotion has been carried through. */
  ghost predicate Promoted(r: Rel, st: Statuses) {
    forall n | n in st && st[n] == Planned :: !DepsDone(r, st, n)
  }

  ghost function CompletedSet(st: Statuses): set<Id> {
    set n | n in st && st[n] == Completed
  }

  /** `order` lists exactly the nodes in `done`, each once and after every node with a name above it. */
  ghost predicate OrderOk(r: Rel, done: set<Id>, order: seq<Id>) {
    if order == [] then done == {}
    else
      var n := order[|order| - 1];
      n in done && n in r && NamedAbove(r, n) <= done - {n} && OrderOk(r, done - {n}, order[..|order| - 1])
  }

  /** Statuses that the log must show of a named node: no crash may forget them. */
  predicate MustLog(s: Status) {
    (s == Completed || s == Skipped || s == RolledBack || s == Quarantined || s == Cancelled || s == Verifying)
  }

  predicate AgreesAt(s: Status, logged: Status) {
    && (Terminal(logged) ==> logged == s)
    && (MustLog(s) ==> logged == s)
  }

  ghost predicate Agrees(st: Statuses, m: Snapshots, results: map<Id, NodeResult>) {
    && m.Keys <= st.Keys
    && (forall n | n in st && Named(n) :: AgreesAt(st[n], SnapOf(m, n).status))
    && (forall n | n in results && Named(n) :: SnapOf(m, n).result == Some(results[n]))
  }

  /** Attempts are counted from one. */
  predicate Numbered(attempt: map<Id, int>) {
    forall n | n in attempt :: attempt[n] >= 1
  }

  ghost predicate Static(c: Core) {
    && Valid(c.graph) && c.status.Keys == Ids(c.graph) && Listed(c)
    && Numbered(c.attempt)
  }

  /** Everything but the closure that a skip under way has yet to restore. */
  ghost predicate InvSkipping(c: Core) {
    && Static(c)
    && DepSafe(Deps(c.graph), c.status) && AboveDone(Deps(c.graph), c.status)
    && c.results.Keys == CompletedSet(c.status)
    && OrderOk(Deps(c.graph), CompletedSet(c.status), c.completionOrder)
    && Agrees(c.status, Snaps(c.log), c.results)
    && LogOk(c.graph, c.log)
  }

  ghost predicate Inv(c: Core) {
    InvSkipping(c) && SkipClosed(Deps(c.graph), c.status)
  }
}
