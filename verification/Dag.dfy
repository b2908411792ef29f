/**
 The graph checks a run starts with: a three-colour depth-first search for cycles, the validation around it,
 and the layering. Each method is proved against the theory in `Graph` and `Layers`.
 */
module Dag {
  import opened Wrappers
  import opened WorkflowTypes
  import opened Graph
  import opened Layers

  datatype DagError = DuplicateIds | UnknownDependency(node: Id, dep: Id) | Cyclic | Unreachable

  datatype Colour = Visiting | Visited

  /** The search's mutable colour map, with the finishing order as a ghost. */
  class CycleSearch {
    const byId: map<Id, Node>
    ghost const deps: Rel
    var state: map<Id, Colour>
    ghost var finished: seq<Id>

    constructor (nodes: seq<Node>)
      requires UniqueIds(nodes) && KnownDeps(Deps(nodes))
      ensures deps == Deps(nodes) && Inv([]) && state == map[]
    {
      byId := ById(nodes);
      deps := Deps(nodes);
      state := map[];
      finished := [];
      new;
      ByIdDeps(nodes);
    }

    /** `path` is the chain of nodes being visited, outermost first. */
    ghost predicate Inv(path: seq<Id>)
      reads this
    {
      && KnownDeps(deps)
      && byId.Keys == deps.Keys && (forall x | x in byId :: byId[x].deps == deps[x])
      && state.Keys <= deps.Keys
      && (forall x :: x in path <==> x in state && state[x] == Visiting)
      && (forall x :: x in finished <==> x in state && state[x] == Visited)
      && (path != [] ==> IsWalk(deps, path))
      && DepsEarlier(deps, finished)
    }

    method Visit(id: Id, ghost path: seq<Id>) returns (cyclic: bool)
      requires Inv(path) && id in deps
      requires path != [] ==> Edge(deps, path[|path| - 1], id)
      modifies this
      ensures cyclic ==> HasCycle(deps)
      ensures !cyclic ==> Inv(path) && id in finished
      ensures old(state.Keys) <= state.Keys
      ensures !cyclic ==> forall x | x in old(finished) :: x in finished
      decreases deps.Keys - state.Keys
    {
      if id in state && state[id] == Visiting {
        ClosesCycle(id, path);
        return true;
      }
      if id in state {
        return false;
      }
      state := state[id := Visiting];
      ghost var deeper := path + [id];
      if path != [] { WalkAppend(deps, path, id); }
      var todo := byId[id].deps;
      while todo != {}
        invariant Inv(deeper) && id in state
        invariant todo <= deps[id]
        invariant forall d | d in deps[id] - todo :: d in finished
        invariant old(state.Keys) + {id} <= state.Keys
        invariant forall x | x in old(finished) :: x in finished
        decreases todo
      {
        var d :| d in todo;
        assert deps[id] <= deps.Keys;
        var found := Visit(d, deeper);
        if found { return true; }
        todo := todo - {d};
      }
      Finish(id, path);
      return false;
    }

    method Finish(id: Id, ghost path: seq<Id>)
      requires Inv(path + [id]) && id !in path
      requires path != [] ==> IsWalk(deps, path)
      requires forall d | d in deps[id] :: d in finished
      modifies this
      ensures Inv(path) && finished == old(finished) + [id]
      ensures state.Keys == old(state.Keys)
    {
      assert id in path + [id];
      forall x
        ensures x in path <==> x in path + [id] && x != id
      {}
      state := state[id := Visited];
      finished := finished + [id];
      forall k | 0 <= k < |finished|
        ensures finished[k] in deps && forall d | d in deps[finished[k]] :: d in finished[..k]
      {
        assert finished[..k] == old(finished)[..k];
      }
    }

    lemma ClosesCycle(id: Id, path: seq<Id>)
      requires Inv(path) && id in path && Edge(deps, path[|path| - 1], id)
      ensures HasCycle(deps)
    {
      var k :| 0 <= k < |path| && path[k] == id;
      WalkAppend(deps, path, id);
      WalkSlice(deps, path + [id], k, |path| + 1);
      assert IsCycle(deps, (path + [id])[k..]);
    }
  }

  /** The depth-first search answers exactly whether the dependencies are circular. */
  method DetectCycle(nodes: seq<Node>) returns (cyclic: bool)
    requires UniqueIds(nodes) && KnownDeps(Deps(nodes))
    ensures cyclic <==> HasCycle(Deps(nodes))
  {
    var search := new CycleSearch(nodes);
    for i := 0 to |nodes|
      invariant search.Inv([]) && search.deps == Deps(nodes)
      invariant forall j | 0 <= j < i :: nodes[j].id in search.finished
    {
      DepsAt(nodes, i);
      var found := search.Visit(nodes[i].id, []);
      if found { return true; }
    }
    forall x | x in Deps(nodes)
      ensures x in search.finished
    {
      DepsKeys(nodes, x);
    }
    OrderRulesOutCycles(search.deps, search.finished);
    return false;
  }

  lemma {:induction false} IdsCountUnique(g: seq<Node>)
    ensures |Ids(g)| <= |g|
    ensures |Ids(g)| == |g| <==> UniqueIds(g)
  {
    if g != [] {
      var front, x := g[..|g| - 1], g[|g| - 1].id;
      IdsCountUnique(front);
      assert Ids(g) == Ids(front) + {x};
      DepsKeys(front, x);
      if x in Ids(front) {
        assert Ids(g) == Ids(front);
        var i :| 0 <= i < |front| && front[i].id == x;
        assert g[i].id == g[|g| - 1].id;
      } else if UniqueIds(front) {
        forall i, j | 0 <= i < j < |g|
          ensures g[i].id != g[j].id
        {
          if j == |g| - 1 { assert front[i].id != x; }
        }
      }
    }
  }

  lemma {:induction false} KnownFromList(g: seq<Node>)
    requires UniqueIds(g)
    requires forall i | 0 <= i < |g| :: g[i].deps <= Ids(g)
    ensures KnownDeps(Deps(g))
  {
    forall x | x in Deps(g)
      ensures Deps(g)[x] <= Deps(g).Keys
    {
      DepsKeys(g, x);
      var i :| 0 <= i < |g| && g[i].id == x;
      DepsAt(g, i);
    }
  }

  /** Acceptance means unique names, known dependencies and no cycle; a refusal names what is wrong. */
  method ValidateGraph(nodes: seq<Node>) returns (error: Option<DagError>)
    ensures error.None? <==> Valid(nodes)
    ensures error == Some(DuplicateIds) <==> !UniqueIds(nodes)
    ensures error == Some(Cyclic) <==> UniqueIds(nodes) && KnownDeps(Deps(nodes)) && HasCycle(Deps(nodes))
    ensures error.Some? && error.value.UnknownDependency? ==>
              exists i :: 0 <= i < |nodes| && nodes[i].id == error.value.node
                          && error.value.dep in nodes[i].deps && error.value.dep !in Ids(nodes)
    ensures error != Some(Unreachable)
  {
    var ids: set<Id> := {};
    for i := 0 to |nodes|
      invariant ids == Ids(nodes[..i])
    {
      ids := ids + {nodes[i].id};
      assert nodes[..i + 1][..i] == nodes[..i];
    }
    assert nodes[..|nodes|] == nodes;
    IdsCountUnique(nodes);
    if |ids| != |nodes| { return Some(DuplicateIds); }
    for i := 0 to |nodes|
      invariant forall j | 0 <= j < i :: nodes[j].deps <= ids
    {
      if !(nodes[i].deps <= ids) {
        var dep :| dep in nodes[i].deps && dep !in ids;
        DepsAt(nodes, i);
        assert !(Deps(nodes)[nodes[i].id] <= Deps(nodes).Keys);
        return Some(UnknownDependency(nodes[i].id, dep));
      }
    }
    KnownFromList(nodes);
    var cyclic := DetectCycle(nodes);
    return if cyclic then Some(Cyclic) else None;
  }

  lemma {:induction false} LayerCompletes(g: seq<Node>, k: nat)
    requires Valid(g)
    ensures DoneAfter(Deps(g), k + 1) == DoneAfter(Deps(g), k) + IdSet(LayerAt(g, k))
  {
    var r := Deps(g);
    DoneAfterMonotone(r, k, k + 1);
    forall x | x in r
      ensures x in DoneAfter(r, k + 1) <==> x in DoneAfter(r, k) || x in IdSet(LayerAt(g, k))
    {
      DepsKeys(g, x);
      var i :| 0 <= i < |g| && g[i].id == x;
      LayerMembers(g, k, i);
      if x in IdSet(LayerAt(g, k)) {
        var n :| n in LayerAt(g, k) && n.id == x;
        NextLayerMembers(g, DoneAfter(r, k), n);
        var j :| 0 <= j < |g| && g[j] == n;
        assert i == j;
      }
    }
    forall x | x in IdSet(LayerAt(g, k))
      ensures x in r
    {
      var n :| n in LayerAt(g, k) && n.id == x;
      NextLayerMembers(g, DoneAfter(r, k), n);
      DepsKeys(g, x);
    }
  }

  function IdSet(ns: seq<Node>): set<Id> {
    set n | n in ns :: n.id
  }

  /** One pass over the nodes still to be placed: those whose dependencies are satisfied. */
  method TakeLayer(ghost nodes: seq<Node>, remaining: seq<Node>, satisfied: set<Id>) returns (layer: seq<Node>)
    requires remaining == Remaining(nodes, satisfied)
    ensures layer == NextLayer(nodes, satisfied)
  {
    layer := [];
    for i := 0 to |remaining|
      invariant layer == NextLayer(remaining[..i], satisfied)
    {
      assert remaining[..i + 1][..i] == remaining[..i];
      RemainingMembers(nodes, satisfied, remaining[i]);
      if remaining[i].deps <= satisfied { layer := layer + [remaining[i]]; }
    }
    assert remaining[..|remaining|] == remaining;
    NextLayerOfRemaining(nodes, satisfied);
  }

  /** Moves a layer from the nodes still to be placed to the satisfied names. */
  method PlaceLayer(ghost nodes: seq<Node>, remaining: seq<Node>, satisfied: set<Id>, layer: seq<Node>)
    returns (left: seq<Node>, done: set<Id>)
    requires remaining == Remaining(nodes, satisfied)
    ensures done == satisfied + IdSet(layer)
    ensures left == Remaining(nodes, done)
  {
    left, done := remaining, satisfied;
    for j := 0 to |layer|
      invariant done == satisfied + IdSet(layer[..j])
      invariant left == Remaining(nodes, done)
    {
      RemainingShrinks(nodes, done, {layer[j].id});
      left := Remaining(left, {layer[j].id});
      done := done + {layer[j].id};
      assert layer[..j + 1] == layer[..j] + [layer[j]];
    }
    assert layer[..|layer|] == layer;
  }

  /** The loop's state after `k` layers. */
  ghost predicate AfterLayers(g: seq<Node>, k: nat, remaining: seq<Node>, satisfied: set<Id>, layers: seq<seq<Node>>) {
    && satisfied == DoneAfter(Deps(g), k)
    && remaining == Remaining(g, satisfied)
    && layers + LayersFrom(g, k) == AllLayers(g)
  }

  /** Placing the next layer, which is never empty, leads to the state after `k + 1` layers. */
  lemma {:induction false} LayerStep(g: seq<Node>, k: nat, remaining: seq<Node>, satisfied: set<Id>,
                                     layers: seq<seq<Node>>, layer: seq<Node>)
    requires Valid(g) && AfterLayers(g, k, remaining, satisfied, layers) && remaining != []
    requires layer == NextLayer(g, satisfied)
    ensures layer != []
    ensures var done := satisfied + IdSet(layer);
            AfterLayers(g, k + 1, Remaining(g, done), done, layers + [layer]) && |Ids(g) - done| < |Ids(g) - satisfied|
  {
    SomethingRemains(g, k);
    LayerCompletes(g, k);
    assert layers + LayersFrom(g, k) == layers + [layer] + LayersFrom(g, k + 1);
    ShrinkMeasure(g, satisfied, satisfied + IdSet(layer), layer);
  }

  /**
   The layering loop returns the layers of the theory for every graph validation accepts, and its own
   "unreachable nodes" error never occurs.
   */
  method TopologicalLayers(nodes: seq<Node>) returns (r: Result<seq<seq<Node>>, DagError>)
    ensures r.Ok? <==> Valid(nodes)
    ensures r.Ok? ==> r.value == AllLayers(nodes)
    ensures r.Err? ==> r.error != Unreachable
  {
    var error := ValidateGraph(nodes);
    if error.Some? { return Err(error.value); }
    var remaining, layers: seq<seq<Node>>, satisfied: set<Id> := nodes, [], {};
    RemainingAll(nodes);
    ghost var k := 0;
    while remaining != []
      invariant AfterLayers(nodes, k, remaining, satisfied, layers)
      decreases |Ids(nodes) - satisfied|
    {
      var layer := TakeLayer(nodes, remaining, satisfied);
      LayerStep(nodes, k, remaining, satisfied, layers, layer);
      if layer == [] { return Err(Unreachable); }
      remaining, satisfied := PlaceLayer(nodes, remaining, satisfied, layer);
      layers := layers + [layer];
      k := k + 1;
    }
    NothingRemains(nodes, k);
    return Ok(layers);
  }

  lemma {:induction false} RemainingAll(g: seq<Node>)
    ensures Remaining(g, {}) == g
  {
    if g != [] { RemainingAll(g[..|g| - 1]); }
  }

  lemma {:induction false} SomethingRemains(g: seq<Node>, k: nat)
    requires Valid(g) && Remaining(g, DoneAfter(Deps(g), k)) != []
    ensures LayerAt(g, k) != [] && k < |g|
  {
    var n := Remaining(g, DoneAfter(Deps(g), k))[0];
    RemainingMembers(g, DoneAfter(Deps(g), k), n);
    DepsKeys(g, n.id);
    LayerEmpty(g, k);
    if k >= |g| {
      EnoughLayers(g);
      DoneAfterMonotone(Deps(g), |g|, k);
    }
  }

  lemma {:induction false} NothingRemains(g: seq<Node>, k: nat)
    requires Valid(g) && Remaining(g, DoneAfter(Deps(g), k)) == []
    ensures LayersFrom(g, k) == []
  {
    if LayerAt(g, k) != [] {
      var n := LayerAt(g, k)[0];
      NextLayerMembers(g, DoneAfter(Deps(g), k), n);
      RemainingMembers(g, DoneAfter(Deps(g), k), n);
    }
  }

  lemma {:induction false} ShrinkMeasure(g: seq<Node>, before: set<Id>, after: set<Id>, layer: seq<Node>)
    requires after == before + IdSet(layer) && layer != [] && layer == NextLayer(g, before)
    ensures |Ids(g) - after| < |Ids(g) - before|
  {
    NextLayerMembers(g, before, layer[0]);
    DepsKeys(g, layer[0].id);
    assert layer[0].id in Ids(g) - before && layer[0].id in IdSet(layer);
    SubsetSize(Ids(g) - after, Ids(g) - before);
  }
}
