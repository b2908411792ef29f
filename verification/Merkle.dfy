/** The Merkle root over the hashes of a list of events, level by level, against a recursive description of the tree. */
module Merkle {
  import opened HashChain
  import opened Powers

  function Pair(h: Hash, left: string, right: string): string {
    h(left + right)
  }

  function Half(n: nat): nat {
    (n + 1) / 2
  }

  /** How many nodes level `k` has above `n` leaves. */
  function SizeAt(n: nat, k: nat): nat {
    if k == 0 then n else Half(SizeAt(n, k - 1))
  }

  /** Node `i` of level `k`: a leaf, or the pair below it, whose right half repeats the left where there is none. */
  function NodeAt(h: Hash, leaves: seq<string>, k: nat, i: nat): string
    requires i < SizeAt(|leaves|, k)
    decreases k
  {
    if k == 0 then leaves[i]
    else
      var left := NodeAt(h, leaves, k - 1, 2 * i);
      var right := if 2 * i + 1 < SizeAt(|leaves|, k - 1) then NodeAt(h, leaves, k - 1, 2 * i + 1) else left;
      Pair(h, left, right)
  }

  /** The number of levels above the leaves, the base-two logarithm rounded up. */
  function Depth(n: nat): (d: nat)
    ensures n <= 1 ==> d == 0
  {
    if n <= 1 then 0 else 1 + Depth(Half(n))
  }

  lemma {:induction false} DepthIsLogarithm(n: nat)
    requires n >= 1
    ensures n <= Pow2(Depth(n)) && (n > 1 ==> Pow2(Depth(n) - 1) < n)
  {
    if n > 1 { DepthIsLogarithm(Half(n)); }
  }

  lemma {:induction false} SizeShift(n: nat, k: nat)
    ensures SizeAt(Half(n), k) == SizeAt(n, k + 1)
  {
    if k > 0 { SizeShift(n, k - 1); }
  }

  lemma {:induction false} TopIsSingle(n: nat)
    requires n >= 1
    ensures SizeAt(n, Depth(n)) == 1
  {
    if n > 1 {
      TopIsSingle(Half(n));
      SizeShift(n, Depth(Half(n)));
    }
  }

  function Hashes(events: seq<LedgerEvent>): (hs: seq<string>)
    ensures |hs| == |events| && forall i | 0 <= i < |events| :: hs[i] == events[i].hash
  {
    seq(|events|, i requires 0 <= i < |events| => events[i].hash)
  }

  function RootOf(h: Hash, leaves: seq<string>): string {
    if leaves == [] then ""
    else
      TopIsSingle(|leaves|);
      NodeAt(h, leaves, Depth(|leaves|), 0)
  }

  /** The hash calls made over `n` leaves. */
  function Calls(n: nat): nat {
    if n <= 1 then 0 else Half(n) + Calls(Half(n))
  }

  lemma {:induction false} CallsBounded(n: nat)
    requires n >= 1
    ensures Calls(n) <= n - 1 + Depth(n)
  {
    if n > 1 { CallsBounded(Half(n)); }
  }

  /** Computes the root level by level; `calls` counts the hash calls. */
  method MerkleRoot(h: Hash, events: seq<LedgerEvent>) returns (root: string, calls: nat)
    ensures root == RootOf(h, Hashes(events))
    ensures events != [] ==> calls <= |events| - 1 + Depth(|events|)
    ensures events == [] ==> root == "" && calls == 0
  {
    calls := 0;
    if |events| == 0 { return "", 0; }
    var leaves := Hashes(events);
    var level := leaves;
    ghost var k := 0;
    while |level| > 1
      invariant |level| >= 1 && |level| == SizeAt(|leaves|, k)
      invariant forall i | 0 <= i < |level| :: level[i] == NodeAt(h, leaves, k, i)
      invariant k + Depth(|level|) == Depth(|leaves|)
      invariant calls + Calls(|level|) == Calls(|leaves|)
      decreases |level|
    {
      var next, made := NextLevel(h, level);
      LevelUp(h, leaves, k, level, next);
      level, calls, k := next, calls + made, k + 1;
    }
    CallsBounded(|leaves|);
    TopIsSingle(|leaves|);
    root := level[0];
  }

  method NextLevel(h: Hash, level: seq<string>) returns (next: seq<string>, made: nat)
    requires |level| > 1
    ensures |next| == Half(|level|) == made
    ensures forall j | 0 <= j < |next| ::
              next[j] == Pair(h, level[2 * j], if 2 * j + 1 < |level| then level[2 * j + 1] else level[2 * j])
  {
    next, made := [], 0;
    var i := 0;
    while i < |level|
      invariant 0 <= i <= |level| + 1 && i == 2 * |next| && made == |next|
      invariant forall j | 0 <= j < |next| ::
                  2 * j < |level|
                  && next[j] == Pair(h, level[2 * j], if 2 * j + 1 < |level| then level[2 * j + 1] else level[2 * j])
    {
      var left := level[i];
      var right := if i + 1 < |level| then level[i + 1] else left;
      next, made := next + [Pair(h, left, right)], made + 1;
      i := i + 2;
    }
  }

  lemma {:induction false} LevelUp(h: Hash, leaves: seq<string>, k: nat, level: seq<string>, next: seq<string>)
    requires |level| > 1 && |level| == SizeAt(|leaves|, k) && |next| == Half(|level|)
    requires forall i | 0 <= i < |level| :: level[i] == NodeAt(h, leaves, k, i)
    requires forall j | 0 <= j < |next| ::
               next[j] == Pair(h, level[2 * j], if 2 * j + 1 < |level| then level[2 * j + 1] else level[2 * j])
    ensures |next| == SizeAt(|leaves|, k + 1)
    ensures forall i | 0 <= i < |next| :: next[i] == NodeAt(h, leaves, k + 1, i)
  {
    forall i | 0 <= i < |next|
      ensures next[i] == NodeAt(h, leaves, k + 1, i)
    {
      assert level[2 * i] == NodeAt(h, leaves, k, 2 * i);
      if 2 * i + 1 < |level| { assert level[2 * i + 1] == NodeAt(h, leaves, k, 2 * i + 1); }
    }
  }

  /* ---------- what the root commits to ---------- */

  /** The two halves joined at node `i` of level `k`. */
  function JoinedAt(h: Hash, leaves: seq<string>, k: nat, i: nat): string
    requires k >= 1 && i < SizeAt(|leaves|, k)
  {
    var left := NodeAt(h, leaves, k - 1, 2 * i);
    left + (if 2 * i + 1 < SizeAt(|leaves|, k - 1) then NodeAt(h, leaves, k - 1, 2 * i + 1) else left)
  }

  /** On the texts joined anywhere in the two trees the hash does not collide. */
  ghost predicate PairsDoNotCollide(h: Hash, a: seq<string>, b: seq<string>)
    requires |a| == |b|
  {
    forall k: nat, i: nat {:trigger JoinedAt(h, a, k, i)} | k >= 1 && i < SizeAt(|a|, k) ::
      h(JoinedAt(h, a, k, i)) == h(JoinedAt(h, b, k, i)) ==> JoinedAt(h, a, k, i) == JoinedAt(h, b, k, i)
  }

  /** All nodes of both trees have the same length, as digests of one hash function do. */
  ghost predicate SameLengths(h: Hash, a: seq<string>, b: seq<string>, length: nat)
    requires |a| == |b|
  {
    forall k: nat, i: nat {:trigger NodeAt(h, a, k, i)} | i < SizeAt(|a|, k) ::
      |NodeAt(h, a, k, i)| == |NodeAt(h, b, k, i)| == length
  }

  lemma {:induction false} EqualNodesEqualBelow(h: Hash, a: seq<string>, b: seq<string>, length: nat, k: nat, i: nat)
    requires |a| == |b| && PairsDoNotCollide(h, a, b) && SameLengths(h, a, b, length)
    requires k >= 1 && i < SizeAt(|a|, k) && NodeAt(h, a, k, i) == NodeAt(h, b, k, i)
    ensures NodeAt(h, a, k - 1, 2 * i) == NodeAt(h, b, k - 1, 2 * i)
    ensures 2 * i + 1 < SizeAt(|a|, k - 1) ==> NodeAt(h, a, k - 1, 2 * i + 1) == NodeAt(h, b, k - 1, 2 * i + 1)
  {
    var x, y := JoinedAt(h, a, k, i), JoinedAt(h, b, k, i);
    assert h(x) == NodeAt(h, a, k, i) && h(y) == NodeAt(h, b, k, i);
    assert x == y;
    assert |NodeAt(h, a, k - 1, 2 * i)| == |NodeAt(h, b, k - 1, 2 * i)| == length;
    assert NodeAt(h, a, k - 1, 2 * i) == x[..length] && NodeAt(h, b, k - 1, 2 * i) == y[..length];
    if 2 * i + 1 < SizeAt(|a|, k - 1) {
      assert NodeAt(h, a, k - 1, 2 * i + 1) == x[length..] && NodeAt(h, b, k - 1, 2 * i + 1) == y[length..];
    }
  }

  /** Both trees agree on level `k`. */
  ghost predicate LevelsAgree(h: Hash, a: seq<string>, b: seq<string>, k: nat)
    requires |a| == |b|
  {
    forall i: nat {:trigger NodeAt(h, a, k, i)} | i < SizeAt(|a|, k) :: NodeAt(h, a, k, i) == NodeAt(h, b, k, i)
  }

  lemma {:induction false} LevelBelowAgrees(h: Hash, a: seq<string>, b: seq<string>, length: nat, k: nat)
    requires |a| == |b| && PairsDoNotCollide(h, a, b) && SameLengths(h, a, b, length)
    requires k >= 1 && LevelsAgree(h, a, b, k)
    ensures LevelsAgree(h, a, b, k - 1)
  {
    hide NodeAt, PairsDoNotCollide, SameLengths;
    forall i: nat {:trigger NodeAt(h, a, k - 1, i)} | i < SizeAt(|a|, k - 1)
      ensures NodeAt(h, a, k - 1, i) == NodeAt(h, b, k - 1, i)
    {
      var j := i / 2;
      assert j < SizeAt(|a|, k);
      assert NodeAt(h, a, k, j) == NodeAt(h, b, k, j);
      EqualNodesEqualBelow(h, a, b, length, k, j);
      assert i == 2 * j || i == 2 * j + 1;
    }
  }

  lemma {:induction false} LeafLevel(h: Hash, a: seq<string>, b: seq<string>)
    requires |a| == |b| && LevelsAgree(h, a, b, 0)
    ensures a == b
  {
    forall i: nat | i < |a|
      ensures a[i] == b[i]
    {
      assert NodeAt(h, a, 0, i) == NodeAt(h, b, 0, i);
    }
  }

  lemma {:induction false} EqualLevelsEqualLeaves(h: Hash, a: seq<string>, b: seq<string>, length: nat, k: nat)
    requires |a| == |b| && PairsDoNotCollide(h, a, b) && SameLengths(h, a, b, length) && LevelsAgree(h, a, b, k)
    ensures a == b
  {
    hide LevelsAgree, PairsDoNotCollide, SameLengths;
    if k == 0 {
      LeafLevel(h, a, b);
    } else {
      LevelBelowAgrees(h, a, b, length, k);
      EqualLevelsEqualLeaves(h, a, b, length, k - 1);
    }
  }

  /** Event lists of equal length with the same root have the same hashes, if no two joined texts collide. */
  lemma {:induction false} RootBindsLeaves(h: Hash, a: seq<LedgerEvent>, b: seq<LedgerEvent>, length: nat)
    requires |a| == |b| && RootOf(h, Hashes(a)) == RootOf(h, Hashes(b))
    requires PairsDoNotCollide(h, Hashes(a), Hashes(b)) && SameLengths(h, Hashes(a), Hashes(b), length)
    ensures Hashes(a) == Hashes(b)
  {
    if a != [] {
      var d := Depth(|a|);
      TopIsSingle(|a|);
      EqualLevelsEqualLeaves(h, Hashes(a), Hashes(b), length, d);
    }
  }

  /** Repeating the last of an odd number of leaves changes the size of no level above them. */
  lemma {:induction false} SameSizes(n: nat, k: nat)
    requires n % 2 == 1 && k >= 1
    ensures SizeAt(n, k) == SizeAt(n + 1, k)
  {
    if k > 1 { SameSizes(n, k - 1); }
  }

  /** Nor does it change any node above the leaves. */
  lemma {:induction false} SameNodes(h: Hash, leaves: seq<string>, k: nat, i: nat)
    requires |leaves| % 2 == 1 && k >= 1 && i < SizeAt(|leaves|, k)
    ensures i < SizeAt(|leaves| + 1, k)
    ensures NodeAt(h, leaves + [leaves[|leaves| - 1]], k, i) == NodeAt(h, leaves, k, i)
  {
    hide Pair;
    var longer := leaves + [leaves[|leaves| - 1]];
    SameSizes(|leaves|, k);
    if k == 1 {
      assert longer[2 * i] == leaves[2 * i];
    } else {
      SameSizes(|leaves|, k - 1);
      SameNodes(h, leaves, k - 1, 2 * i);
      if 2 * i + 1 < SizeAt(|leaves|, k - 1) { SameNodes(h, leaves, k - 1, 2 * i + 1); }
    }
  }

  /**
   The root does not bind the length: any odd number of leaves above one has the root of the list with its last leaf
   repeated.
   */
  lemma {:induction false} LengthNotBound(h: Hash, leaves: seq<string>)
    requires |leaves| % 2 == 1 && |leaves| > 1
    ensures RootOf(h, leaves + [leaves[|leaves| - 1]]) == RootOf(h, leaves)
  {
    hide NodeAt, SizeAt;
    assert Half(|leaves|) == Half(|leaves| + 1);
    TopIsSingle(|leaves|);
    SameNodes(h, leaves, Depth(|leaves|), 0);
  }
}
