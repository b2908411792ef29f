/**
 The theory of dependency relations: walks, cycles, and the sets of nodes that full layers complete.
 A relation maps each node to what it depends on.
 */
module Graph {
  import opened WorkflowTypes

  type Rel = map<Id, set<Id>>

  /** Node `a` depends directly on node `b`. */
  predicate Edge(r: Rel, a: Id, b: Id) {
    a in r && b in r[a]
  }

  ghost predicate KnownDeps(r: Rel) {
    forall a | a in r :: r[a] <= r.Keys
  }

  /** A walk from a node towards what it depends on. */
  ghost predicate IsWalk(r: Rel, p: seq<Id>) {
    && |p| >= 1
    && p[0] in r
    && forall i, j :: 0 <= i && j == i + 1 && j < |p| ==> Edge(r, p[i], p[j])
  }

  ghost predicate IsCycle(r: Rel, p: seq<Id>) {
    IsWalk(r, p) && |p| >= 2 && p[0] == p[|p| - 1]
  }

  ghost predicate HasCycle(r: Rel) {
    exists p :: IsCycle(r, p)
  }

  /** Every dependency is known and none is circular. */
  ghost predicate Acyclic(r: Rel) {
    KnownDeps(r) && !HasCycle(r)
  }

  /** `a` is reached from `n` by one or more dependency edges. */
  ghost predicate Ancestor(r: Rel, a: Id, n: Id) {
    exists p :: IsWalk(r, p) && |p| >= 2 && p[0] == n && p[|p| - 1] == a
  }

  /** The nodes with a name that `n` depends on, directly or not. */
  ghost function NamedAbove(r: Rel, n: Id): set<Id> {
    set a | a in r && Named(a) && Ancestor(r, a, n)
  }

  /** What stands above a node is one of its dependencies, or stands above one. */
  lemma {:induction false} AncestorSplits(r: Rel, a: Id, n: Id) returns (d: Id)
    requires KnownDeps(r) && Ancestor(r, a, n)
    ensures Edge(r, n, d) && d in r && a in r && (a == d || Ancestor(r, a, d))
  {
    var p :| IsWalk(r, p) && |p| >= 2 && p[0] == n && p[|p| - 1] == a;
    assert Edge(r, p[0], p[1]);
    WalkStays(r, p, |p| - 1);
    d := p[1];
    if |p| > 2 {
      WalkSlice(r, p, 1, |p|);
      assert p[1..][0] == d;
    }
  }

  lemma {:induction false} WalkStays(r: Rel, p: seq<Id>, i: nat)
    requires KnownDeps(r) && IsWalk(r, p) && i < |p|
    ensures p[i] in r
  {
    if i > 0 {
      assert Edge(r, p[i - 1], p[i]);
    }
  }

  lemma {:induction false} WalkPrepend(r: Rel, a: Id, p: seq<Id>)
    requires IsWalk(r, p) && Edge(r, a, p[0])
    ensures IsWalk(r, [a] + p)
  {
    var q := [a] + p;
    forall i, j | 0 <= i && j == i + 1 && j < |q|
      ensures Edge(r, q[i], q[j])
    {
      if i > 0 { assert q[i] == p[i - 1] && q[j] == p[j - 1]; }
    }
  }

  lemma {:induction false} WalkAppend(r: Rel, p: seq<Id>, b: Id)
    requires IsWalk(r, p) && Edge(r, p[|p| - 1], b)
    ensures IsWalk(r, p + [b])
  {
    var q := p + [b];
    forall i, j | 0 <= i && j == i + 1 && j < |q|
      ensures Edge(r, q[i], q[j])
    {
      if j < |p| { assert q[i] == p[i] && q[j] == p[j]; }
    }
  }

  lemma {:induction false} WalkSlice(r: Rel, p: seq<Id>, lo: nat, hi: nat)
    requires KnownDeps(r) && IsWalk(r, p) && lo < hi <= |p|
    ensures IsWalk(r, p[lo..hi])
  {
    WalkStays(r, p, lo);
    var q := p[lo..hi];
    forall i, j | 0 <= i && j == i + 1 && j < |q|
      ensures Edge(r, q[i], q[j])
    {
      assert q[i] == p[lo + i] && q[j] == p[lo + j];
    }
  }

  /** A property that dependencies inherit is inherited by every ancestor. */
  lemma {:induction false} WalkInherits(r: Rel, p: seq<Id>, s: set<Id>)
    requires KnownDeps(r) && IsWalk(r, p) && p[0] in s
    requires forall a | a in s && a in r :: r[a] <= s
    ensures p[|p| - 1] in s
    decreases |p|
  {
    if |p| > 1 {
      assert Edge(r, p[0], p[1]);
      WalkSlice(r, p, 1, |p|);
      WalkInherits(r, p[1..], s);
    }
  }

  /* ---------- pigeonhole: where every node has a dependency inside a set, there is a cycle ---------- */

  lemma {:induction false} DistinctFits(p: seq<Id>, s: set<Id>)
    requires forall i :: 0 <= i < |p| ==> p[i] in s
    requires forall i, j :: 0 <= i < j < |p| ==> p[i] != p[j]
    ensures |p| <= |s|
  {
    if p != [] {
      var last := p[|p| - 1];
      DistinctFits(p[..|p| - 1], s - {last});
    }
  }

  /** `next` names, for each member of `s`, a dependency that is again in `s`. */
  ghost predicate StaysInside(r: Rel, s: set<Id>, next: map<Id, Id>) {
    next.Keys == s && forall x {:trigger next[x]} | x in s :: next[x] in s && Edge(r, x, next[x])
  }

  lemma {:induction false} LongWalkInside(r: Rel, s: set<Id>, next: map<Id, Id>, k: nat) returns (p: seq<Id>)
    requires s != {} && s <= r.Keys && StaysInside(r, s, next)
    ensures IsWalk(r, p) && |p| == k + 1
    ensures forall i :: 0 <= i < |p| ==> p[i] in s
  {
    if k == 0 {
      var x :| x in s;
      p := [x];
    } else {
      var q := LongWalkInside(r, s, next, k - 1);
      var x := q[|q| - 1];
      assert x in s && next[x] in s;
      WalkAppend(r, q, next[x]);
      p := q + [next[x]];
    }
  }

  lemma {:induction false} ClosedSetHasCycle(r: Rel, s: set<Id>, next: map<Id, Id>)
    requires KnownDeps(r) && s != {} && s <= r.Keys && StaysInside(r, s, next)
    ensures HasCycle(r)
  {
    var p := LongWalkInside(r, s, next, |s|);
    RepeatHasCycle(r, s, p);
  }

  lemma {:induction false} RepeatHasCycle(r: Rel, s: set<Id>, p: seq<Id>)
    requires KnownDeps(r) && IsWalk(r, p) && |p| > |s|
    requires forall i :: 0 <= i < |p| ==> p[i] in s
    ensures HasCycle(r)
  {
    hide KnownDeps, IsWalk;
    if forall i, j :: 0 <= i < j < |p| ==> p[i] != p[j] {
      DistinctFits(p, s);
    } else {
      var i, j :| 0 <= i < j < |p| && p[i] == p[j];
      WalkSlice(r, p, i, j + 1);
      assert IsCycle(r, p[i..j + 1]);
    }
  }

  /* ---------- orders ---------- */

  /** Every listed node stands once, after its dependencies. */
  ghost predicate DepsEarlier(r: Rel, order: seq<Id>) {
    && (forall i, j :: 0 <= i < j < |order| ==> order[i] != order[j])
    && (forall k | 0 <= k < |order| :: order[k] in r && forall d | d in r[order[k]] :: d in order[..k])
  }

  lemma {:induction false} WalkDescends(r: Rel, order: seq<Id>, p: seq<Id>, start: nat) returns (end: nat)
    requires KnownDeps(r) && DepsEarlier(r, order) && IsWalk(r, p)
    requires start < |order| && order[start] == p[0]
    ensures end < |order| && order[end] == p[|p| - 1] && end + |p| <= start + 1
    decreases |p|
  {
    if |p| == 1 {
      end := start;
    } else {
      assert Edge(r, p[0], p[1]);
      assert p[1] in order[..start];
      var k :| 0 <= k < start && order[k] == p[1];
      WalkSlice(r, p, 1, |p|);
      end := WalkDescends(r, order, p[1..], k);
    }
  }

  /** A list of all nodes in which each stands after its dependencies rules cycles out. */
  lemma {:induction false} OrderRulesOutCycles(r: Rel, order: seq<Id>)
    requires KnownDeps(r) && DepsEarlier(r, order)
    requires forall x | x in r :: x in order
    ensures !HasCycle(r)
  {
    if HasCycle(r) {
      var p :| IsCycle(r, p);
      assert p[0] in order;
      var start :| 0 <= start < |order| && order[start] == p[0];
      var end := WalkDescends(r, order, p, start);
      assert false;
    }
  }

  /* ---------- layers as sets ---------- */

  /** The nodes whose dependencies are all in `done`. */
  function Grow(r: Rel, done: set<Id>): set<Id> {
    set x | x in r && r[x] <= done
  }

  /** The nodes that `k` full layers complete. */
  function DoneAfter(r: Rel, k: nat): set<Id> {
    if k == 0 then {} else Grow(r, DoneAfter(r, k - 1))
  }

  lemma {:induction false} DoneAfterMonotone(r: Rel, j: nat, k: nat)
    requires j <= k
    ensures DoneAfter(r, j) <= DoneAfter(r, k) <= r.Keys
  {
    if j > 0 { DoneAfterMonotone(r, j - 1, k - 1); }
  }

  lemma {:induction false} SubsetSize<T>(a: set<T>, b: set<T>)
    requires a <= b
    ensures |a| <= |b|
    ensures a < b ==> |a| < |b|
  {
    assert b == a + (b - a);
  }

  /** Until everything is done, an acyclic relation always lets something more be done. */
  lemma {:induction false} GrowStrict(r: Rel, done: set<Id>) returns (x: Id)
    requires Acyclic(r) && done < r.Keys
    ensures x in r && x !in done && r[x] <= done
  {
    x :| x in r.Keys && x !in done;
    if y :| y in r && y !in done && !Blocked(r, done, y) {
      x := y;
    } else {
      BlockedForever(r, done);
    }
  }

  predicate Blocked(r: Rel, done: set<Id>, x: Id)
    requires x in r
  {
    !(r[x] <= done)
  }

  lemma {:induction false} BlockedForever(r: Rel, done: set<Id>)
    requires KnownDeps(r) && done < r.Keys
    requires forall y {:trigger Blocked(r, done, y)} | y in r && y !in done :: Blocked(r, done, y)
    ensures HasCycle(r)
  {
    var s := r.Keys - done;
    var next := map y | y in s :: PickOutside(r, done, y);
    var x0 :| x0 in r.Keys && x0 !in done;
    assert x0 in s;
    ClosedSetHasCycle(r, s, next);
  }

  ghost function PickOutside(r: Rel, done: set<Id>, y: Id): (x: Id)
    requires KnownDeps(r) && y in r && Blocked(r, done, y)
    ensures x in r[y] && x in r && x !in done
  {
    var x :| x in r[y] && x !in done; x
  }

  lemma {:induction false} DoneAfterGrows(r: Rel, k: nat)
    requires Acyclic(r)
    ensures DoneAfter(r, k) == r.Keys || |DoneAfter(r, k)| >= k
  {
    if k > 0 {
      var before, after := DoneAfter(r, k - 1), DoneAfter(r, k);
      DoneAfterMonotone(r, k - 1, k);
      DoneAfterGrows(r, k - 1);
      if before != r.Keys {
        var x := GrowStrict(r, before);
        assert x in after;
        SubsetSize(before, after);
      }
    }
  }

  lemma {:induction false} AllDone(r: Rel)
    requires Acyclic(r)
    ensures DoneAfter(r, |r|) == r.Keys
  {
    DoneAfterGrows(r, |r|);
    DoneAfterMonotone(r, |r|, |r|);
    SubsetSize(DoneAfter(r, |r|), r.Keys);
  }

  /** The number of full layers needed to complete `x`. */
  function Rank(r: Rel, x: Id): (k: nat) {
    RankBelow(r, x, |r|)
  }

  function RankBelow(r: Rel, x: Id, k: nat): (rank: nat) {
    if k == 0 then 0 else if x in DoneAfter(r, k - 1) then RankBelow(r, x, k - 1) else k
  }

  lemma {:induction false} RankBelowSound(r: Rel, x: Id, k: nat)
    requires x in DoneAfter(r, k)
    ensures 1 <= RankBelow(r, x, k) <= k
    ensures x in DoneAfter(r, RankBelow(r, x, k)) && x !in DoneAfter(r, RankBelow(r, x, k) - 1)
  {
    if x in DoneAfter(r, k - 1) { RankBelowSound(r, x, k - 1); }
  }

  lemma {:induction false} RankSound(r: Rel, x: Id)
    requires Acyclic(r) && x in r
    ensures 1 <= Rank(r, x) <= |r|
    ensures x in DoneAfter(r, Rank(r, x)) && x !in DoneAfter(r, Rank(r, x) - 1)
  {
    AllDone(r);
    RankBelowSound(r, x, |r|);
  }

  /** Dependencies have smaller rank: the induction measure of every argument about a graph. */
  lemma {:induction false} RankDecreases(r: Rel, x: Id, d: Id)
    requires Acyclic(r) && Edge(r, x, d)
    ensures d in r && Rank(r, d) < Rank(r, x)
  {
    RankSound(r, x);
    RankSound(r, d);
    assert d in DoneAfter(r, Rank(r, x) - 1);
    if Rank(r, d) >= Rank(r, x) {
      DoneAfterMonotone(r, Rank(r, x) - 1, Rank(r, d) - 1);
    }
  }

  lemma {:induction false} WalksAreShort(r: Rel, k: nat, p: seq<Id>)
    requires KnownDeps(r) && IsWalk(r, p) && p[0] in DoneAfter(r, k)
    ensures |p| <= k
  {
    if |p| > 1 {
      assert Edge(r, p[0], p[1]);
      WalkSlice(r, p, 1, |p|);
      WalksAreShort(r, k - 1, p[1..]);
    }
  }

  lemma {:induction false} LongWalk(r: Rel, k: nat, x: Id) returns (p: seq<Id>)
    requires KnownDeps(r) && x in r && x !in DoneAfter(r, k)
    ensures IsWalk(r, p) && p[0] == x && |p| == k + 1
  {
    if k == 0 {
      p := [x];
    } else {
      assert !(r[x] <= DoneAfter(r, k - 1));
      var d :| d in r[x] && d !in DoneAfter(r, k - 1);
      var q := LongWalk(r, k - 1, d);
      WalkPrepend(r, x, q);
      p := [x] + q;
    }
  }
}
