/**
 * The search engine as the object it is: one `GraphSearch` owns the state of
 * one search and its methods update it in place.  Its methods are proved to
 * compute what the functions of module SearchSpec describe.
 */
module Engine {
  import opened Graphs
  import opened Frontier
  import opened Reconstruction
  import opened SearchSpec

  datatype Option<T> = None | Some(value: T)

  /**
   * `GraphSearch` together with its strategy subclass: `strategy` decides
   * where `_add_to_frontier` puts a node (`BreadthFirstSearch.__queue` and
   * `DepthFirstSearch.__stack` are both the field `frontier`).
   */
  class GraphSearch {
    const graph: Graph
    const strategy: Strategy
    var expanded: set<Node>
    var ancestors: Ancestors
    var frontier: seq<Node>

    /** The search state as a value. */
    function Snapshot(): Session
      reads this
    {
      Session(expanded, ancestors, frontier)
    }

    constructor (graph: Graph, strategy: Strategy)
      ensures this.graph == graph && this.strategy == strategy
      ensures Snapshot() == Session({}, map[], [])
    {
      this.graph := graph;
      this.strategy := strategy;
      expanded := {};
      ancestors := map[];
      frontier := [];
    }

    /** `_add_to_frontier(node)`: `appendleft` for breadth-first, `append` for depth-first. */
    method AddToFrontier(node: Node)
      modifies this`frontier
      ensures frontier == Add(strategy, old(frontier), node)
    {
      match strategy
      case BreadthFirst => frontier := [node] + frontier;
      case DepthFirst => frontier := frontier + [node];
    }

    /** One step of `_expandable_nodes`: `pop()` from the right-hand end of a non-empty frontier. */
    method PopNext() returns (node: Node)
      requires frontier != []
      modifies this`frontier
      ensures node == Next(old(frontier)) && frontier == Rest(old(frontier))
    {
      node := frontier[|frontier| - 1];
      frontier := frontier[..|frontier| - 1];
    }

    /**
     * `__update_ancestor(parent, child)`.  The assignment expression binds the
     * result of the `is None` test, not the looked-up set, so a child that
     * already has an ancestor leads to `.add` on `False`, which raises.
     */
    method UpdateAncestor(parent: Node, child: Node) returns (fault: Option<Fault>)
      modifies this`ancestors
      ensures child !in old(ancestors) ==> fault == None && ancestors == old(ancestors)[child := {parent}]
      ensures child in old(ancestors) ==> fault == Some(SecondAncestor(parent, child)) && ancestors == old(ancestors)
    {
      var isNone := child !in ancestors;
      if isNone {
        ancestors := ancestors[child := {}];
      } else {
        return Some(SecondAncestor(parent, child));
      }
      ghost var before := ancestors;
      assert before[child] + {parent} == {parent};
      ancestors := ancestors[child := ancestors[child] + {parent}];
      assert ancestors == before[child := {parent}];
      return None;
    }

    /**
     * One pass of the neighbour loop of `__expand_node`: skip an expanded
     * neighbour, otherwise add it to the frontier and record `node` as its
     * ancestor.
     */
    method VisitNeighbour(node: Node, m: Node) returns (fault: Option<Fault>)
      modifies this`ancestors, this`frontier
      ensures var r := Visit(strategy, old(Snapshot()), node, m);
        (r.Ok? ==> fault == None && Snapshot() == r.value) &&
        (r.Err? ==> fault == Some(r.fault) && frontier == Add(strategy, old(frontier), m) && ancestors == old(ancestors))
    {
      fault := None;
      if m in expanded {
        return;
      }
      AddToFrontier(m);
      fault := UpdateAncestor(node, m);
    }

    /**
     * `__expand_node(node)`.  On success the state is what Expand computes.
     * On failure the fault is Expand's, and the state is the one the neighbour
     * loop leaves when the exception interrupts it (unchanged for an unknown
     * node).
     */
    method ExpandNode(node: Node) returns (fault: Option<Fault>)
      modifies this`expanded, this`ancestors, this`frontier
      ensures var r := Expand(graph, strategy, old(Snapshot()), node);
        (r.Ok? ==> fault == None && Snapshot() == r.value) &&
        (r.Err? ==> fault == Some(r.fault))
      ensures Expand(graph, strategy, old(Snapshot()), node).Err? ==>
        Snapshot() == if node in graph then Halted(strategy, old(Snapshot()), node, graph[node]) else old(Snapshot())
    {
      if node !in graph {
        return Some(UnknownNode(node));
      }
      ghost var e0 := Snapshot();
      var nbrs := graph[node];
      var i := 0;
      while i < |nbrs|
        invariant 0 <= i <= |nbrs|
        invariant ExpandAll(strategy, e0, node, nbrs[..i]) == Ok(Snapshot())
      {
        ExpandAllSnoc(strategy, e0, node, nbrs, i);
        fault := VisitNeighbour(node, nbrs[i]);
        if fault.Some? {
          ExpandAllFailureSticks(strategy, e0, node, nbrs, i + 1);
          return;
        }
        i := i + 1;
      }
      assert nbrs[..i] == nbrs;
      expanded := expanded + {node};
      fault := None;
    }

    /**
     * `find_paths(start, end)` on a fresh engine (an engine serves one
     * search): seed the frontier with `start`, expand nodes in the
     * strategy's order until `end` is expanded or the frontier is empty,
     * then rebuild the paths.
     */
    method FindPaths(start: Node, end: Node) returns (r: Outcome)
      requires Snapshot() == Session({}, map[], [])
      requires NoSelfLoop(graph, start)
      modifies this`expanded, this`ancestors, this`frontier
      ensures r == Run(graph, strategy, start, end)
      ensures r.Paths? ==> Search(graph, strategy, start, end) == Ok(Snapshot())
    {
      AddToFrontier(start);
      assert Snapshot() == Seed(strategy, start);
      while frontier != []
        invariant Drain(graph, strategy, end, Snapshot()) == Search(graph, strategy, start, end)
        decreases |Universe(graph) - ancestors.Keys|, |frontier|
      {
        ghost var before := Snapshot();
        var node := PopNext();
        var fault := ExpandNode(node);
        if fault.Some? {
          return Failure(fault.value);
        }
        if end in expanded {
          assert Search(graph, strategy, start, end) == Ok(Snapshot());
          break;
        }
        ExpandProgress(graph, strategy, before, Snapshot());
      }
      assert Search(graph, strategy, start, end) == Ok(Snapshot());
      SearchKeepsInv(graph, strategy, start, end);
      r := Paths(BuildPaths(ancestors, start, end, SomeRank(ancestors, start)));
    }
  }
}
