/** Node lists as graphs, and the layers `topologicalLayers` cuts them into. */
module Layers {
  import opened WorkflowTypes
  import opened Graph

  /** The node names of a list. */
  function Ids(g: seq<Node>): set<Id> {
    Deps(g).Keys
  }

  /** The dependency relation a node list describes. */
  function Deps(g: seq<Node>): Rel {
    if g == [] then map[] else Deps(g[..|g| - 1])[g[|g| - 1].id := g[|g| - 1].deps]
  }

  ghost predicate UniqueIds(g: seq<Node>) {
    forall i, j :: 0 <= i < j < |g| ==> g[i].id != g[j].id
  }

  /** What `validateGraph` accepts. */
  ghost predicate Valid(g: seq<Node>) {
    UniqueIds(g) && Acyclic(Deps(g))
  }

  lemma {:induction false} DepsKeys(g: seq<Node>, x: Id)
    ensures x in Deps(g) <==> exists i :: 0 <= i < |g| && g[i].id == x
  {
    if g != [] {
      var front := g[..|g| - 1];
      DepsKeys(front, x);
      assert g[|g| - 1].id in Deps(g);
      if x in Deps(front) {
        var i :| 0 <= i < |front| && front[i].id == x;
        assert g[i].id == x;
      }
      if i :| 0 <= i < |g| && g[i].id == x {
        if i < |front| { assert front[i].id == x; }
      }
    }
  }

  lemma {:induction false} DepsAt(g: seq<Node>, i: nat)
    requires UniqueIds(g) && i < |g|
    ensures g[i].id in Deps(g) && Deps(g)[g[i].id] == g[i].deps
  {
    if i < |g| - 1 { DepsAt(g[..|g| - 1], i); }
  }

  /** Lookup by name; the last of equally named nodes wins. */
  function ById(nodes: seq<Node>): map<Id, Node> {
    if nodes == [] then map[] else ById(nodes[..|nodes| - 1])[nodes[|nodes| - 1].id := nodes[|nodes| - 1]]
  }

  lemma {:induction false} ByIdDeps(nodes: seq<Node>)
    ensures ById(nodes).Keys == Deps(nodes).Keys
    ensures forall x | x in ById(nodes) :: ById(nodes)[x].deps == Deps(nodes)[x]
  {
    if nodes != [] { ByIdDeps(nodes[..|nodes| - 1]); }
  }

  lemma {:induction false} ByIdAt(g: seq<Node>, i: nat)
    requires UniqueIds(g) && i < |g|
    ensures g[i].id in ById(g) && ById(g)[g[i].id] == g[i]
  {
    if i < |g| - 1 { ByIdAt(g[..|g| - 1], i); }
  }

  predicate Enabled(n: Node, done: set<Id>) {
    n.id !in done && n.deps <= done
  }

  /** The nodes, in list order, that become runnable once exactly `done` has completed. */
  function NextLayer(ns: seq<Node>, done: set<Id>): seq<Node> {
    if ns == [] then []
    else
      var n := ns[|ns| - 1];
      NextLayer(ns[..|ns| - 1], done) + (if Enabled(n, done) then [n] else [])
  }

  /** The nodes still to be placed, in list order. */
  function Remaining(ns: seq<Node>, done: set<Id>): seq<Node> {
    if ns == [] then []
    else
      var n := ns[|ns| - 1];
      Remaining(ns[..|ns| - 1], done) + (if n.id !in done then [n] else [])
  }

  lemma {:induction false} NextLayerMembers(ns: seq<Node>, done: set<Id>, n: Node)
    ensures n in NextLayer(ns, done) <==> n in ns && Enabled(n, done)
  {
    if ns != [] {
      NextLayerMembers(ns[..|ns| - 1], done, n);
      assert ns == ns[..|ns| - 1] + [ns[|ns| - 1]];
    }
  }

  lemma {:induction false} NextLayerOfRemaining(ns: seq<Node>, done: set<Id>)
    ensures NextLayer(Remaining(ns, done), done) == NextLayer(ns, done)
  {
    if ns != [] {
      var n, front := ns[|ns| - 1], ns[..|ns| - 1];
      NextLayerOfRemaining(front, done);
      if n.id !in done {
        assert Remaining(ns, done)[..|Remaining(ns, done)| - 1] == Remaining(front, done);
      } else {
        assert Remaining(ns, done) == Remaining(front, done);
      }
    }
  }

  lemma {:induction false} RemainingShrinks(ns: seq<Node>, done: set<Id>, more: set<Id>)
    ensures Remaining(Remaining(ns, done), more) == Remaining(ns, done + more)
  {
    if ns != [] {
      var n, front := ns[|ns| - 1], ns[..|ns| - 1];
      RemainingShrinks(front, done, more);
      if n.id !in done {
        assert Remaining(ns, done)[..|Remaining(ns, done)| - 1] == Remaining(front, done);
      } else {
        assert Remaining(ns, done) == Remaining(front, done);
      }
    }
  }

  lemma {:induction false} RemainingMembers(ns: seq<Node>, done: set<Id>, n: Node)
    ensures n in Remaining(ns, done) <==> n in ns && n.id !in done
  {
    if ns != [] {
      RemainingMembers(ns[..|ns| - 1], done, n);
      assert ns == ns[..|ns| - 1] + [ns[|ns| - 1]];
    }
  }

  /** The layer with index `k`: the nodes that exactly `k` full layers make runnable. */
  function LayerAt(g: seq<Node>, k: nat): seq<Node> {
    NextLayer(g, DoneAfter(Deps(g), k))
  }

  lemma {:induction false} LayerMembers(g: seq<Node>, k: nat, i: nat)
    requires UniqueIds(g) && i < |g|
    ensures g[i] in LayerAt(g, k) <==>
            g[i].id in DoneAfter(Deps(g), k + 1) && g[i].id !in DoneAfter(Deps(g), k)
  {
    NextLayerMembers(g, DoneAfter(Deps(g), k), g[i]);
    DepsAt(g, i);
  }

  lemma {:induction false} LayerEmpty(g: seq<Node>, k: nat)
    requires Valid(g)
    ensures LayerAt(g, k) == [] <==> DoneAfter(Deps(g), k) == Ids(g)
  {
    var done := DoneAfter(Deps(g), k);
    DoneAfterMonotone(Deps(g), k, k);
    if done != Ids(g) {
      var x := GrowStrict(Deps(g), done);
      DepsKeys(g, x);
      var i :| 0 <= i < |g| && g[i].id == x;
      DepsAt(g, i);
      NextLayerMembers(g, done, g[i]);
    } else if LayerAt(g, k) != [] {
      var n := LayerAt(g, k)[0];
      NextLayerMembers(g, done, n);
      DepsKeys(g, n.id);
    }
  }

  /** The layers from index `k` on. */
  function LayersFrom(g: seq<Node>, k: nat): (layers: seq<seq<Node>>)
    decreases |g| - k
  {
    if LayerAt(g, k) == [] || k >= |g| then [] else [LayerAt(g, k)] + LayersFrom(g, k + 1)
  }

  function AllLayers(g: seq<Node>): seq<seq<Node>> {
    LayersFrom(g, 0)
  }

  lemma {:induction false} DepsSize(g: seq<Node>)
    ensures |Deps(g)| <= |g|
  {
    if g != [] {
      DepsSize(g[..|g| - 1]);
      assert Deps(g).Keys == Deps(g[..|g| - 1]).Keys + {g[|g| - 1].id};
    }
  }

  /** `|g|` layers are enough for every node. */
  lemma {:induction false} EnoughLayers(g: seq<Node>)
    requires Valid(g)
    ensures DoneAfter(Deps(g), |g|) == Ids(g)
  {
    AllDone(Deps(g));
    DepsSize(g);
    DoneAfterMonotone(Deps(g), |Deps(g)|, |g|);
  }

  lemma {:induction false} LayersFromAt(g: seq<Node>, k: nat, j: nat)
    requires Valid(g) && k <= |g|
    ensures j < |LayersFrom(g, k)| ==> LayersFrom(g, k)[j] == LayerAt(g, k + j) && k + j < |g|
    ensures j >= |LayersFrom(g, k)| ==> DoneAfter(Deps(g), k + j) == Ids(g)
    decreases j
  {
    if k >= |g| || LayerAt(g, k) == [] {
      if k >= |g| { EnoughLayers(g); } else { LayerEmpty(g, k); }
      DoneAfterMonotone(Deps(g), k, k + j);
    } else if j > 0 {
      LayersFromAt(g, k + 1, j - 1);
    }
  }

  lemma {:induction false} LayersAt(g: seq<Node>, j: nat)
    requires Valid(g)
    ensures j < |AllLayers(g)| ==> AllLayers(g)[j] == LayerAt(g, j)
    ensures j >= |AllLayers(g)| ==> DoneAfter(Deps(g), j) == Ids(g)
  {
    LayersFromAt(g, 0, j);
  }

  /** The layers partition a valid graph: every node stands in exactly one, the one its rank names. */
  lemma {:induction false} LayersPartition(g: seq<Node>, i: nat, j: nat)
    requires Valid(g) && i < |g|
    ensures 1 <= Rank(Deps(g), g[i].id) <= |AllLayers(g)|
    ensures j < |AllLayers(g)| ==> (g[i] in AllLayers(g)[j] <==> j + 1 == Rank(Deps(g), g[i].id))
  {
    var r, x := Deps(g), g[i].id;
    DepsAt(g, i);
    RankSound(r, x);
    var k := Rank(r, x) - 1;
    LayersAt(g, k);
    if j < |AllLayers(g)| {
      LayersAt(g, j);
      LayerMembers(g, j, i);
      if j < k { DoneAfterMonotone(r, j + 1, k); }
      if k < j { DoneAfterMonotone(r, k + 1, j); }
    }
  }

  /** A node's layer index is the length, in edges, of its longest dependency chain. */
  lemma {:induction false} LayerIsLongestChain(g: seq<Node>, i: nat, j: nat)
    requires Valid(g) && i < |g| && j < |AllLayers(g)| && g[i] in AllLayers(g)[j]
    ensures exists p :: IsWalk(Deps(g), p) && p[0] == g[i].id && |p| == j + 1
    ensures forall p | IsWalk(Deps(g), p) && p[0] == g[i].id :: |p| <= j + 1
  {
    LayersAt(g, j);
    LayerMembers(g, j, i);
    DepsAt(g, i);
    var p := LongWalk(Deps(g), j, g[i].id);
    assert IsWalk(Deps(g), p) && p[0] == g[i].id && |p| == j + 1;
    forall p | IsWalk(Deps(g), p) && p[0] == g[i].id
      ensures |p| <= j + 1
    {
      WalksAreShort(Deps(g), j + 1, p);
    }
  }
}
