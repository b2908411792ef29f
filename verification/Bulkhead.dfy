/** The bulkhead: caps on how many jobs run at once, in all and per agent, tenant and tool. */
module Bulkhead {
  import opened Wrappers

  datatype Limits = Limits(maxJobs: int, maxPerAgent: int, maxPerTenant: int, maxPerTool: int)

  datatype Slot = Slot(id: string, agentId: Option<string>, tenantId: Option<string>, toolId: Option<string>)

  /** What a counter counts by. */
  datatype Dim = Agent | Tenant | Tool

  function RawKey(slot: Slot, dim: Dim): Option<string> {
    match dim case Agent => slot.agentId case Tenant => slot.tenantId case Tool => slot.toolId
  }

  /** A slot counts under a key unless it is absent or empty. */
  predicate CountsUnder(slot: Slot, dim: Dim, key: string) {
    key != "" && RawKey(slot, dim) == Some(key)
  }

  function CapOf(limits: Limits, dim: Dim): int {
    match dim case Agent => limits.maxPerAgent case Tenant => limits.maxPerTenant case Tool => limits.maxPerTool
  }

  datatype Counters =
      Counters(running: set<string>, byAgent: map<string, int>, byTenant: map<string, int>, byTool: map<string, int>)

  function CounterMap(c: Counters, dim: Dim): map<string, int> {
    match dim case Agent => c.byAgent case Tenant => c.byTenant case Tool => c.byTool
  }

  function ValueAt(m: map<string, int>, key: string): int {
    if key in m then m[key] else 0
  }

  predicate Blocked(m: map<string, int>, key: Option<string>, cap: int) {
    key.Some? && key.value != "" && ValueAt(m, key.value) >= cap
  }

  predicate Refuses(limits: Limits, c: Counters, slot: Slot) {
    || |c.running| >= limits.maxJobs
    || Blocked(c.byAgent, slot.agentId, limits.maxPerAgent)
    || Blocked(c.byTenant, slot.tenantId, limits.maxPerTenant)
    || Blocked(c.byTool, slot.toolId, limits.maxPerTool)
  }

  function Bump(m: map<string, int>, key: Option<string>): map<string, int> {
    if key.None? || key.value == "" then m else m[key.value := ValueAt(m, key.value) + 1]
  }

  /** One less, but not below zero; a missing entry becomes zero. */
  function Drop(m: map<string, int>, key: Option<string>): map<string, int> {
    if key.None? || key.value == "" then m
    else
      var before := if key.value in m then m[key.value] else 1;
      m[key.value := if before - 1 < 0 then 0 else before - 1]
  }

  function Acquired(c: Counters, slot: Slot): Counters {
    Counters(c.running + {slot.id}, Bump(c.byAgent, slot.agentId), Bump(c.byTenant, slot.tenantId),
      Bump(c.byTool, slot.toolId))
  }

  function Released(c: Counters, slot: Slot): Counters {
    Counters(c.running - {slot.id}, Drop(c.byAgent, slot.agentId), Drop(c.byTenant, slot.tenantId),
      Drop(c.byTool, slot.toolId))
  }

  class ConcurrencyLimiter {
    const limits: Limits
    var running: set<string>
    var byAgent: map<string, int>
    var byTenant: map<string, int>
    var byTool: map<string, int>

    function State(): Counters
      reads this
    {
      Counters(running, byAgent, byTenant, byTool)
    }

    constructor (limits: Limits)
      ensures this.limits == limits && State() == NoneHeld()
    {
      this.limits := limits;
      running, byAgent, byTenant, byTool := {}, map[], map[], map[];
    }

    /** Takes a slot unless a cap forbids it; a refusal changes nothing. */
    method TryAcquire(slot: Slot) returns (granted: bool)
      modifies this
      ensures granted <==> !Refuses(limits, old(State()), slot)
      ensures State() == if granted then Acquired(old(State()), slot) else old(State())
    {
      if |running| >= limits.maxJobs { return false; }
      if Blocked(byAgent, slot.agentId, limits.maxPerAgent) { return false; }
      if Blocked(byTenant, slot.tenantId, limits.maxPerTenant) { return false; }
      if Blocked(byTool, slot.toolId, limits.maxPerTool) { return false; }
      running := running + {slot.id};
      byAgent := Bump(byAgent, slot.agentId);
      byTenant := Bump(byTenant, slot.tenantId);
      byTool := Bump(byTool, slot.toolId);
      return true;
    }

    method Release(slot: Slot)
      modifies this
      ensures State() == Released(old(State()), slot)
    {
      running := running - {slot.id};
      byAgent := Drop(byAgent, slot.agentId);
      byTenant := Drop(byTenant, slot.tenantId);
      byTool := Drop(byTool, slot.toolId);
    }
  }

  function NoneHeld(): Counters {
    Counters({}, map[], map[], map[])
  }

  /* ---------- single counters ---------- */

  lemma {:induction false} AcquiredValue(c: Counters, slot: Slot, dim: Dim, key: string)
    ensures ValueAt(CounterMap(Acquired(c, slot), dim), key) ==
            ValueAt(CounterMap(c, dim), key) + (if CountsUnder(slot, dim, key) then 1 else 0)
  {}

  lemma {:induction false} ReleasedValue(c: Counters, slot: Slot, dim: Dim, key: string)
    requires CountsUnder(slot, dim, key) ==> ValueAt(CounterMap(c, dim), key) >= 1
    ensures ValueAt(CounterMap(Released(c, slot), dim), key) ==
            ValueAt(CounterMap(c, dim), key) - (if CountsUnder(slot, dim, key) then 1 else 0)
  {}

  lemma {:induction false} AdmittedBelowCap(limits: Limits, c: Counters, slot: Slot, dim: Dim, key: string)
    requires !Refuses(limits, c, slot) && CountsUnder(slot, dim, key)
    ensures ValueAt(CounterMap(c, dim), key) < CapOf(limits, dim)
  {}

  /** Every cap that applies to the slot is at least one. */
  predicate CanEverAdmit(limits: Limits, slot: Slot) {
    && limits.maxJobs >= 1
    && (Truthy(slot.agentId) ==> limits.maxPerAgent >= 1)
    && (Truthy(slot.tenantId) ==> limits.maxPerTenant >= 1)
    && (Truthy(slot.toolId) ==> limits.maxPerTool >= 1)
  }

  ghost predicate NonNegative(c: Counters) {
    forall dim, key :: ValueAt(CounterMap(c, dim), key) >= 0
  }

  /**
   A slot is admitted when nothing is counted, and can be admitted at all, exactly if every cap that applies is one or
   more.
   */
  lemma {:induction false} AdmissionNeedsCaps(limits: Limits, c: Counters, slot: Slot)
    requires NonNegative(c)
    ensures !CanEverAdmit(limits, slot) ==> Refuses(limits, c, slot)
    ensures CanEverAdmit(limits, slot) && c.running == {}
            && (forall dim, key :: ValueAt(CounterMap(c, dim), key) == 0) ==>
              !Refuses(limits, c, slot)
  {
    if slot.agentId.Some? { assert ValueAt(CounterMap(c, Agent), slot.agentId.value) >= 0; }
    if slot.tenantId.Some? { assert ValueAt(CounterMap(c, Tenant), slot.tenantId.value) >= 0; }
    if slot.toolId.Some? { assert ValueAt(CounterMap(c, Tool), slot.toolId.value) >= 0; }
  }

  /* ---------- traces ---------- */

  datatype Op = Acquire(slot: Slot) | Release(slot: Slot)

  /** The limiter and the slots held, oldest first. */
  datatype World = World(counters: Counters, held: seq<Slot>)

  /** Gives one occurrence of a slot back. */
  function Without(held: seq<Slot>, slot: Slot): seq<Slot> {
    if held == [] then []
    else if held[|held| - 1] == slot then held[..|held| - 1]
    else Without(held[..|held| - 1], slot) + [held[|held| - 1]]
  }

  function StepOp(limits: Limits, w: World, op: Op): World {
    match op
    case Acquire(slot) =>
      if Refuses(limits, w.counters, slot) then w else World(Acquired(w.counters, slot), w.held + [slot])
    case Release(slot) => World(Released(w.counters, slot), Without(w.held, slot))
  }

  function RunOps(limits: Limits, ops: seq<Op>): World {
    if ops == [] then World(NoneHeld(), []) else StepOp(limits, RunOps(limits, ops[..|ops| - 1]), ops[|ops| - 1])
  }

  /** Only held slots are released. */
  predicate Matched(limits: Limits, ops: seq<Op>) {
    ops == [] ||
    (var front, op := ops[..|ops| - 1], ops[|ops| - 1];
     Matched(limits, front) && (op.Release? ==> op.slot in RunOps(limits, front).held))
  }

  function HeldUnder(held: seq<Slot>, dim: Dim, key: string): nat {
    if held == [] then 0
    else HeldUnder(held[..|held| - 1], dim, key) + (if CountsUnder(held[|held| - 1], dim, key) then 1 else 0)
  }

  lemma {:induction false} HeldAppend(held: seq<Slot>, slot: Slot, dim: Dim, key: string)
    ensures HeldUnder(held + [slot], dim, key) == HeldUnder(held, dim, key)
            + (if CountsUnder(slot, dim, key) then 1 else 0)
  {
    assert (held + [slot])[..|held|] == held;
  }

  lemma {:induction false} HeldWithout(held: seq<Slot>, slot: Slot, dim: Dim, key: string)
    requires slot in held
    ensures HeldUnder(Without(held, slot), dim, key) ==
            HeldUnder(held, dim, key) - (if CountsUnder(slot, dim, key) then 1 else 0)
    ensures |Without(held, slot)| == |held| - 1
  {
    var front, last := held[..|held| - 1], held[|held| - 1];
    assert held == front + [last];
    if last != slot {
      HeldWithout(front, slot, dim, key);
      HeldAppend(Without(front, slot), last, dim, key);
    }
  }

  ghost predicate Accounts(w: World, dim: Dim) {
    forall key :: ValueAt(CounterMap(w.counters, dim), key) == HeldUnder(w.held, dim, key)
  }

  ghost predicate WithinCap(limits: Limits, w: World, dim: Dim) {
    forall key :: HeldUnder(w.held, dim, key) > 0 ==> HeldUnder(w.held, dim, key) <= CapOf(limits, dim)
  }

  lemma {:induction false} AcquireAccounts(limits: Limits, w: World, slot: Slot, dim: Dim)
    requires Accounts(w, dim) && WithinCap(limits, w, dim) && !Refuses(limits, w.counters, slot)
    ensures var t := World(Acquired(w.counters, slot), w.held + [slot]); Accounts(t, dim) && WithinCap(limits, t, dim)
  {
    var t := World(Acquired(w.counters, slot), w.held + [slot]);
    forall key
      ensures ValueAt(CounterMap(t.counters, dim), key) == HeldUnder(t.held, dim, key)
      ensures HeldUnder(t.held, dim, key) > 0 ==> HeldUnder(t.held, dim, key) <= CapOf(limits, dim)
    {
      HeldAppend(w.held, slot, dim, key);
      assert ValueAt(CounterMap(w.counters, dim), key) == HeldUnder(w.held, dim, key);
    }
  }

  lemma {:induction false} ReleaseAccounts(limits: Limits, w: World, slot: Slot, dim: Dim)
    requires Accounts(w, dim) && WithinCap(limits, w, dim) && slot in w.held
    ensures var t := World(Released(w.counters, slot), Without(w.held, slot));
            Accounts(t, dim) && WithinCap(limits, t, dim)
    ensures forall key | CountsUnder(slot, dim, key) :: ValueAt(CounterMap(w.counters, dim), key) >= 1
  {
    var t := World(Released(w.counters, slot), Without(w.held, slot));
    forall key
      ensures ValueAt(CounterMap(t.counters, dim), key) == HeldUnder(t.held, dim, key)
      ensures HeldUnder(t.held, dim, key) > 0 ==> HeldUnder(t.held, dim, key) <= CapOf(limits, dim)
      ensures CountsUnder(slot, dim, key) ==> ValueAt(CounterMap(w.counters, dim), key) >= 1
    {
      HeldWithout(w.held, slot, dim, key);
      assert ValueAt(CounterMap(w.counters, dim), key) == HeldUnder(w.held, dim, key);
    }
  }

  /**
   After any trace of matched acquires and releases every counter equals the number of slots held under its key, and no
   such number exceeds its cap.
   */
  lemma {:induction false} CountersAreExact(limits: Limits, ops: seq<Op>, dim: Dim)
    requires Matched(limits, ops)
    ensures Accounts(RunOps(limits, ops), dim) && WithinCap(limits, RunOps(limits, ops), dim)
  {
    if ops != [] {
      var front, op := ops[..|ops| - 1], ops[|ops| - 1];
      CountersAreExact(limits, front, dim);
      var w := RunOps(limits, front);
      match op {
        case Acquire(slot) => if !Refuses(limits, w.counters, slot) { AcquireAccounts(limits, w, slot, dim); }
        case Release(slot) => ReleaseAccounts(limits, w, slot, dim);
      }
    }
  }

  /** A matched release never meets the clamp at zero: what it takes back was counted. */
  lemma {:induction false} ClampNeverReached(limits: Limits, ops: seq<Op>, slot: Slot, dim: Dim, key: string)
    requires Matched(limits, ops + [Release(slot)]) && CountsUnder(slot, dim, key)
    ensures var c := RunOps(limits, ops).counters;
            key in CounterMap(c, dim) && CounterMap(c, dim)[key] >= 1
            && CounterMap(Released(c, slot), dim)[key] == CounterMap(c, dim)[key] - 1
  {
    assert (ops + [Release(slot)])[..|ops|] == ops;
    CountersAreExact(limits, ops, dim);
    ReleaseAccounts(limits, RunOps(limits, ops), slot, dim);
    assert ValueAt(CounterMap(RunOps(limits, ops).counters, dim), key) >= 1;
  }

  function IdsOf(held: seq<Slot>): set<string> {
    if held == [] then {} else IdsOf(held[..|held| - 1]) + {held[|held| - 1].id}
  }

  predicate DistinctIds(held: seq<Slot>) {
    held == [] || (DistinctIds(held[..|held| - 1]) && held[|held| - 1].id !in IdsOf(held[..|held| - 1]))
  }

  lemma {:induction false} IdHeld(held: seq<Slot>, id: string)
    ensures id in IdsOf(held) <==> exists s :: s in held && s.id == id
  {
    if held != [] {
      IdHeld(held[..|held| - 1], id);
      assert held == held[..|held| - 1] + [held[|held| - 1]];
    }
  }

  lemma {:induction false} IdsAppend(held: seq<Slot>, slot: Slot)
    ensures IdsOf(held + [slot]) == IdsOf(held) + {slot.id}
    ensures DistinctIds(held + [slot]) <==> DistinctIds(held) && slot.id !in IdsOf(held)
  {
    assert (held + [slot])[..|held|] == held;
  }

  lemma {:induction false} IdsCount(held: seq<Slot>)
    ensures |IdsOf(held)| <= |held|
    ensures |IdsOf(held)| == |held| <==> DistinctIds(held)
  {
    if held != [] { IdsCount(held[..|held| - 1]); }
  }

  lemma {:induction false} WithoutIds(held: seq<Slot>, slot: Slot)
    requires DistinctIds(held) && slot in held
    ensures DistinctIds(Without(held, slot)) && IdsOf(Without(held, slot)) == IdsOf(held) - {slot.id}
  {
    var front, last := held[..|held| - 1], held[|held| - 1];
    assert held == front + [last];
    if last != slot {
      WithoutIds(front, slot);
      WithoutLater(front, last, slot);
    }
  }

  lemma {:induction false} WithoutLater(front: seq<Slot>, last: Slot, slot: Slot)
    requires slot in front && last.id !in IdsOf(front)
    requires DistinctIds(Without(front, slot)) && IdsOf(Without(front, slot)) == IdsOf(front) - {slot.id}
    ensures DistinctIds(Without(front, slot) + [last])
    ensures IdsOf(Without(front, slot) + [last]) == IdsOf(front) + {last.id} - {slot.id}
  {
    hide Without, DistinctIds, IdsOf;
    IdsAppend(Without(front, slot), last);
    IdHeld(front, slot.id);
  }

  lemma {:induction false} OpsAppend(limits: Limits, ops: seq<Op>, op: Op)
    ensures RunOps(limits, ops + [op]) == StepOp(limits, RunOps(limits, ops), op)
    ensures Matched(limits, ops + [op]) <==>
            Matched(limits, ops) && (op.Release? ==> op.slot in RunOps(limits, ops).held)
  {
    assert (ops + [op])[..|ops|] == ops;
  }

  /* ---------- the cap on all jobs together ---------- */

  /** A grant is fresh when its identifier is not held already. */
  predicate Fresh(limits: Limits, w: World, op: Op) {
    op.Acquire? && !Refuses(limits, w.counters, op.slot) ==> op.slot.id !in IdsOf(w.held)
  }

  /** After `ops`, every grant along `more` is fresh. */
  predicate FreshAfter(limits: Limits, ops: seq<Op>, more: seq<Op>) {
    more == [] ||
    (var front, op := more[..|more| - 1], more[|more| - 1];
     FreshAfter(limits, ops, front) && Fresh(limits, RunOps(limits, ops + front), op))
  }

  predicate WithinGlobal(limits: Limits, w: World) {
    w.held == [] || |w.held| <= limits.maxJobs
  }

  /** The running set is exactly the identifiers held, each held once. */
  predicate RunningExact(w: World) {
    DistinctIds(w.held) && w.counters.running == IdsOf(w.held)
  }

  lemma {:induction false} FreshStep(limits: Limits, w: World, op: Op)
    requires RunningExact(w) && WithinGlobal(limits, w) && Fresh(limits, w, op) && (op.Release? ==> op.slot in w.held)
    ensures RunningExact(StepOp(limits, w, op)) && WithinGlobal(limits, StepOp(limits, w, op))
  {
    hide DistinctIds, IdsOf, Without, Bump, Drop, Blocked;
    IdsCount(w.held);
    match op {
      case Acquire(slot) => IdsAppend(w.held, slot);
      case Release(slot) => WithoutIds(w.held, slot); HeldWithout(w.held, slot, Agent, "");
    }
  }

  lemma {:induction false} FreshKeeps(limits: Limits, ops: seq<Op>, more: seq<Op>)
    requires Matched(limits, ops + more) && FreshAfter(limits, ops, more)
    requires RunningExact(RunOps(limits, ops)) && WithinGlobal(limits, RunOps(limits, ops))
    ensures RunningExact(RunOps(limits, ops + more)) && WithinGlobal(limits, RunOps(limits, ops + more))
    decreases |more|
  {
    hide RunningExact, WithinGlobal, StepOp, Fresh;
    if more == [] {
      assert ops + more == ops;
    } else {
      var front, op := more[..|more| - 1], more[|more| - 1];
      assert (ops + more)[..|ops + more| - 1] == ops + front;
      FreshKeeps(limits, ops, front);
      FreshStep(limits, RunOps(limits, ops + front), op);
    }
  }

  /** If every grant is fresh, the running set is exactly the identifiers held, within the cap on all jobs. */
  lemma {:induction false} GlobalCapHolds(limits: Limits, ops: seq<Op>)
    requires Matched(limits, ops) && FreshAfter(limits, [], ops)
    ensures RunningExact(RunOps(limits, ops)) && WithinGlobal(limits, RunOps(limits, ops))
  {
    assert [] + ops == ops;
    FreshKeeps(limits, [], ops);
  }

  lemma {:induction false} IdsWithout(held: seq<Slot>, slot: Slot)
    requires slot in held
    ensures IdsOf(held) - {slot.id} <= IdsOf(Without(held, slot))
  {
    var front, last := held[..|held| - 1], held[|held| - 1];
    assert held == front + [last];
    if last != slot {
      IdsWithout(front, slot);
      IdsAppend(Without(front, slot), last);
    }
  }

  /** Whatever identifiers are used, every running identifier is held. */
  lemma {:induction false} RunningIsHeld(limits: Limits, ops: seq<Op>)
    requires Matched(limits, ops)
    ensures RunOps(limits, ops).counters.running <= IdsOf(RunOps(limits, ops).held)
  {
    hide IdsOf, Without, Bump, Drop, Blocked;
    if ops != [] {
      var front, op := ops[..|ops| - 1], ops[|ops| - 1];
      RunningIsHeld(limits, front);
      match op {
        case Acquire(slot) => IdsAppend(RunOps(limits, front).held, slot);
        case Release(slot) => IdsWithout(RunOps(limits, front).held, slot);
      }
    }
  }

  lemma {:induction false} RunningWithin(limits: Limits, ops: seq<Op>)
    ensures var running := RunOps(limits, ops).counters.running; running == {} || |running| <= limits.maxJobs
  {
    hide Bump, Drop, Blocked, Without;
    if ops != [] {
      RunningWithin(limits, ops[..|ops| - 1]);
      var w, op := RunOps(limits, ops[..|ops| - 1]), ops[|ops| - 1];
      if op.Release? { SmallerSet(w.counters.running, op.slot.id); }
    }
  }

  lemma {:induction false} SmallerSet(s: set<string>, id: string)
    ensures |s - {id}| <= |s|
  {
    if id in s { assert |s - {id}| == |s| - 1; } else { assert s - {id} == s; }
  }

  /** At least as many slots are held as identifiers are counted. */
  lemma {:induction false} HeldCoversRunning(limits: Limits, ops: seq<Op>)
    requires Matched(limits, ops)
    ensures var w := RunOps(limits, ops); |w.counters.running| <= |IdsOf(w.held)| <= |w.held|
  {
    hide Matched, RunOps, IdsOf;
    var w := RunOps(limits, ops);
    RunningIsHeld(limits, ops);
    IdsCount(w.held);
    SubsetFits(w.counters.running, IdsOf(w.held));
  }

  lemma {:induction false} SubsetFits(a: set<string>, b: set<string>)
    requires a <= b
    ensures |a| <= |b| && (|a| == |b| ==> a == b)
    decreases a
  {
    if x :| x in a {
      SubsetFits(a - {x}, b - {x});
      assert a == (a - {x}) + {x} && b == (b - {x}) + {x};
    } else {
      assert a == {};
    }
  }

  predicate Longer(ids: set<string>, n: nat) {
    forall id | id in ids :: |id| < n
  }

  lemma {:induction false} LengthBound(ids: set<string>) returns (n: nat)
    ensures Longer(ids, n)
    decreases ids
  {
    if id :| id in ids {
      n := LengthBound(ids - {id});
      if n <= |id| { n := |id| + 1; }
    } else {
      n := 0;
    }
  }

  /** There is always another identifier. */
  lemma {:induction false} UnusedId(ids: set<string>) returns (id: string)
    ensures id !in ids
  {
    var n := LengthBound(ids);
    id := seq(n, _ => 'x');
  }

  /** A job that counts under no agent, tenant or tool. */
  function Plain(id: string): Slot {
    Slot(id, None, None, None)
  }

  lemma {:induction false} PlainGranted(limits: Limits, w: World, id: string)
    requires |w.counters.running| < limits.maxJobs && id !in w.counters.running
    ensures !Refuses(limits, w.counters, Plain(id))
    ensures var t := StepOp(limits, w, Acquire(Plain(id)));
            |t.held| == |w.held| + 1 && |t.counters.running| == |w.counters.running| + 1
  {}

  /** Where more slots are held than are counted, fresh grants can fill the count up and so exceed the cap. */
  lemma {:induction false} FillUp(limits: Limits, ops: seq<Op>, done: seq<Op>) returns (more: seq<Op>)
    requires Matched(limits, ops + done) && FreshAfter(limits, ops, done)
    requires var w := RunOps(limits, ops + done);
             |w.held| > |w.counters.running| && |w.counters.running| <= limits.maxJobs
    ensures Matched(limits, ops + more) && FreshAfter(limits, ops, more)
            && |RunOps(limits, ops + more).held| > limits.maxJobs
    decreases limits.maxJobs - |RunOps(limits, ops + done).counters.running|
  {
    hide Matched, RunOps, StepOp, Refuses, IdsOf;
    var w := RunOps(limits, ops + done);
    if |w.counters.running| == limits.maxJobs {
      more := done;
    } else {
      var id := UnusedId(w.counters.running + IdsOf(w.held));
      var op := Acquire(Plain(id));
      PlainGranted(limits, w, id);
      OpsAppend(limits, ops + done, op);
      assert ops + (done + [op]) == (ops + done) + [op];
      assert (done + [op])[..|done|] == done;
      more := FillUp(limits, ops, done + [op]);
    }
  }

  /** From a trace on, fresh grants and matched releases stay within the cap on all jobs. */
  ghost predicate CapSafe(limits: Limits, ops: seq<Op>) {
    forall more | FreshAfter(limits, ops, more)
      && Matched(limits, ops + more) :: WithinGlobal(limits, RunOps(limits, ops + more))
  }

  /** The cap on all jobs holds from here on exactly if every slot held is counted. */
  lemma {:induction false} CapSafeExactly(limits: Limits, ops: seq<Op>)
    requires Matched(limits, ops)
    ensures CapSafe(limits, ops) <==>
            var w := RunOps(limits, ops); |w.held| == |w.counters.running|
  {
    hide Matched, RunOps, IdsOf, DistinctIds, FreshAfter;
    var w := RunOps(limits, ops);
    HeldCoversRunning(limits, ops);
    RunningWithin(limits, ops);
    if |w.held| == |w.counters.running| {
      IdsCount(w.held);
      RunningIsHeld(limits, ops);
      SubsetFits(w.counters.running, IdsOf(w.held));
      forall more | FreshAfter(limits, ops, more) && Matched(limits, ops + more)
        ensures WithinGlobal(limits, RunOps(limits, ops + more))
      {
        FreshKeeps(limits, ops, more);
      }
    } else {
      assert ops + [] == ops;
      NothingMore(limits, ops);
      HoldersNeedJobs(limits, ops);
      var more := FillUp(limits, ops, []);
      assert !WithinGlobal(limits, RunOps(limits, ops + more));
    }
  }

  lemma {:induction false} NothingMore(limits: Limits, ops: seq<Op>)
    ensures FreshAfter(limits, ops, [])
  {}

  /** Slots are only ever held where jobs may run. */
  lemma {:induction false} HoldersNeedJobs(limits: Limits, ops: seq<Op>)
    requires Matched(limits, ops) && RunOps(limits, ops).held != []
    ensures limits.maxJobs >= 1
  {
    hide Bump, Drop, Blocked;
    var w, op := RunOps(limits, ops[..|ops| - 1]), ops[|ops| - 1];
    if w.held != [] { HoldersNeedJobs(limits, ops[..|ops| - 1]); }
  }

  /**
   Whatever the limits: once an identifier is granted while it is counted, the cap on all jobs no longer holds from
   there on, though every later grant be fresh.
   */
  lemma {:induction false} RegrantEvadesCap(limits: Limits, ops: seq<Op>, slot: Slot)
    requires Matched(limits, ops) && !Refuses(limits, RunOps(limits, ops).counters, slot)
    requires slot.id in RunOps(limits, ops).counters.running
    ensures !CapSafe(limits, ops + [Acquire(slot)])
  {
    hide Matched, RunOps, IdsOf, CapSafe, Refuses;
    var w := RunOps(limits, ops);
    OpsAppend(limits, ops, Acquire(slot));
    HeldCoversRunning(limits, ops);
    assert w.counters.running + {slot.id} == w.counters.running;
    CapSafeExactly(limits, ops + [Acquire(slot)]);
  }
}
