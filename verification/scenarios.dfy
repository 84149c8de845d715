/**
 * Concrete searches, worked out step by step on small graphs.  Each neighbour
 * list is in the order a networkx graph reports it when built from the edges
 * listed with the graph, in that order.
 */
module Scenarios {
  import opened Graphs
  import opened Frontier
  import opened Reconstruction
  import opened SearchSpec

  /** The path 0 - 1 - 2, built from the edges (0, 1), (1, 2). */
  const Line: Graph := map[0 := [1], 1 := [0, 2], 2 := [1]]

  /**
   * The square 0 - 1 - 2 - 3 - 0, built from the edges (0, 1), (1, 2), (0, 3),
   * (3, 2): two routes lead from 0 to 2.
   */
  const Square: Graph := map[0 := [1, 3], 1 := [0, 2], 2 := [1, 3], 3 := [0, 2]]

  /**
   * One loop iteration of `find_paths` that does not reach `end`: the node
   * taken off the right-hand end of the frontier is expanded.
   */
  lemma DrainStep(g: Graph, s: Strategy, end: Node, e: Session, rest: seq<Node>, node: Node, e': Session)
    requires e.frontier == rest + [node]
    requires Expand(g, s, Session(e.expanded, e.ancestors, rest), node) == Ok(e')
    requires end !in e'.expanded
    ensures Drain(g, s, end, e) == Drain(g, s, end, e')
  {
    assert Rest(e.frontier) == rest;
  }

  /** The loop iteration of `find_paths` that expands `end`. */
  lemma DrainLast(g: Graph, s: Strategy, end: Node, e: Session, rest: seq<Node>, node: Node, e': Session)
    requires e.frontier == rest + [node]
    requires Expand(g, s, Session(e.expanded, e.ancestors, rest), node) == Ok(e')
    requires end in e'.expanded
    ensures Drain(g, s, end, e) == Ok(e')
  {
    assert Rest(e.frontier) == rest;
  }

  /** A loop iteration of `find_paths` whose expansion raises. */
  lemma DrainFails(g: Graph, s: Strategy, end: Node, e: Session, rest: seq<Node>, node: Node, f: Fault)
    requires e.frontier == rest + [node]
    requires Expand(g, s, Session(e.expanded, e.ancestors, rest), node) == Err(f)
    ensures Drain(g, s, end, e) == Err(f)
  {
    assert Rest(e.frontier) == rest;
  }

  /** A search that does not fail ends with the rebuilt paths. */
  lemma RunOk(g: Graph, s: Strategy, start: Node, end: Node, e: Session)
    requires NoSelfLoop(g, start) && Search(g, s, start, end) == Ok(e)
    ensures Acyclic(e.ancestors, start)
    ensures Run(g, s, start, end) == Paths(BuildPaths(e.ancestors, start, end, SomeRank(e.ancestors, start)))
  {
    SearchKeepsInv(g, s, start, end);
  }

  /** A search that fails ends with the fault. */
  lemma RunErr(g: Graph, s: Strategy, start: Node, end: Node, f: Fault)
    requires NoSelfLoop(g, start) && Search(g, s, start, end) == Err(f)
    ensures Run(g, s, start, end) == Failure(f)
  {
  }

  lemma ExpandOne(g: Graph, s: Strategy, e: Session, node: Node, m: Node)
    requires node in g && g[node] == [m]
    ensures Expand(g, s, e, node) == match Visit(s, e, node, m)
      case Err(f) => Err(f)
      case Ok(e') => Ok(e'.(expanded := e'.expanded + {node}))
  {
    assert [m][..0] == [];
    assert ExpandAll(s, e, node, []) == Ok(e);
    assert ExpandAll(s, e, node, [m]) == Visit(s, e, node, m);
  }

  lemma ExpandTwo(g: Graph, s: Strategy, e: Session, node: Node, m1: Node, m2: Node)
    requires node in g && g[node] == [m1, m2]
    ensures Expand(g, s, e, node) == match Visit(s, e, node, m1)
      case Err(f) => Err(f)
      case Ok(e1) => match Visit(s, e1, node, m2)
        case Err(f) => Err(f)
        case Ok(e') => Ok(e'.(expanded := e'.expanded + {node}))
  {
    assert [m1, m2][..1] == [m1] && [m1][..0] == [];
    assert ExpandAll(s, e, node, []) == Ok(e);
    assert ExpandAll(s, e, node, [m1]) == Visit(s, e, node, m1);
    assert ExpandAll(s, e, node, [m1, m2]) == match Visit(s, e, node, m1)
      case Err(f) => Err(f)
      case Ok(e1) => Visit(s, e1, node, m2);
  }

  lemma LineStart(s: Strategy)
    ensures Expand(Line, s, Session({}, map[], []), 0) == Ok(Session({0}, map[1 := {0}], [1]))
  {
    var e := Session({}, map[], []);
    ExpandOne(Line, s, e, 0, 1);
    assert Add(s, [], 1) == [1];
    assert Visit(s, e, 0, 1) == Ok(Session({}, map[1 := {0}], [1]));
    assert {} + {0} == {0};
  }

  lemma LineMiddle(s: Strategy)
    ensures Expand(Line, s, Session({0}, map[1 := {0}], []), 1) == Ok(Session({0, 1}, map[1 := {0}, 2 := {1}], [2]))
  {
    var e := Session({0}, map[1 := {0}], []);
    ExpandTwo(Line, s, e, 1, 0, 2);
    assert Visit(s, e, 1, 0) == Ok(e);
    assert Add(s, [], 2) == [2];
    assert Visit(s, e, 1, 2) == Ok(Session({0}, map[1 := {0}, 2 := {1}], [2]));
    assert {0} + {1} == {0, 1};
  }

  lemma LineEnd(s: Strategy)
    ensures Expand(Line, s, Session({0, 1}, map[1 := {0}, 2 := {1}], []), 2) == Ok(Session({0, 1, 2}, map[1 := {0}, 2 := {1}], []))
  {
    var e := Session({0, 1}, map[1 := {0}, 2 := {1}], []);
    ExpandOne(Line, s, e, 2, 1);
    assert Visit(s, e, 2, 1) == Ok(e);
    assert {0, 1} + {2} == {0, 1, 2};
  }

  /** The search on the line expands 0, 1 and 2 in turn. */
  lemma LineDrain(s: Strategy)
    ensures Search(Line, s, 0, 2) == Ok(Session({0, 1, 2}, map[1 := {0}, 2 := {1}], []))
  {
    assert Seed(s, 0) == Session({}, map[], [0]);
    LineStart(s);
    DrainStep(Line, s, 2, Session({}, map[], [0]), [], 0, Session({0}, map[1 := {0}], [1]));
    LineDrain1(s);
  }

  lemma LineDrain1(s: Strategy)
    ensures Drain(Line, s, 2, Session({0}, map[1 := {0}], [1])) == Ok(Session({0, 1, 2}, map[1 := {0}, 2 := {1}], []))
  {
    var e2 := Session({0, 1}, map[1 := {0}, 2 := {1}], [2]);
    LineMiddle(s);
    DrainStep(Line, s, 2, Session({0}, map[1 := {0}], [1]), [], 1, e2);
    LineEnd(s);
    DrainLast(Line, s, 2, e2, [], 2, Session({0, 1, 2}, map[1 := {0}, 2 := {1}], []));
  }

  /** Either strategy walks the line from 0 to 2 and returns the one path along it. */
  lemma LineSearch(s: Strategy)
    ensures Run(Line, s, 0, 2) == Paths([[0, 1, 2]])
  {
    var anc := map[1 := {0}, 2 := {1}];
    LineDrain(s);
    assert NoSelfLoop(Line, 0);
    RunOk(Line, s, 0, 2, Session({0, 1, 2}, anc, []));
    LinePath(SomeRank(anc, 0));
  }

  lemma LinePath(rank: map<Node, nat>)
    requires Ranked(map[1 := {0}, 2 := {1}], rank)
    ensures BuildPaths(map[1 := {0}, 2 := {1}], 0, 2, rank) == [[0, 1, 2]]
  {
    var anc := map[1 := {0}, 2 := {1}];
    assert BuildPaths(anc, 0, 0, rank) == [[0]];
    assert anc[1] == {0} && anc[2] == {1};
    assert [0] + [1] == [0, 1] && [0, 1] + [2] == [0, 1, 2];
    assert AppendToEach([[0]], 1) == [[0, 1]];
    assert BuildPaths(anc, 0, 1, rank) == [[0, 1]];
    assert AppendToEach([[0, 1]], 2) == [[0, 1, 2]];
  }

  /** Expanding 0 discovers 1 and then 3. */
  lemma SquareStart(s: Strategy)
    ensures Expand(Square, s, Session({}, map[], []), 0) ==
      Ok(Session({0}, map[1 := {0}, 3 := {0}], Add(s, [1], 3)))
  {
    var e := Session({}, map[], []);
    var e' := Session({}, map[1 := {0}], [1]);
    ExpandTwo(Square, s, e, 0, 1, 3);
    assert Add(s, [], 1) == [1];
    assert Visit(s, e, 0, 1) == Ok(e');
    assert Visit(s, e', 0, 3) == Ok(Session({}, map[1 := {0}, 3 := {0}], Add(s, [1], 3)));
    assert {} + {0} == {0};
  }

  /** Breadth-first expands 1 second and discovers 2 from it. */
  lemma SquareSecondBreadthFirst()
    ensures Expand(Square, BreadthFirst, Session({0}, map[1 := {0}, 3 := {0}], [3]), 1) ==
      Ok(Session({0, 1}, map[1 := {0}, 3 := {0}, 2 := {1}], [2, 3]))
  {
    var e := Session({0}, map[1 := {0}, 3 := {0}], [3]);
    ExpandTwo(Square, BreadthFirst, e, 1, 0, 2);
    assert Visit(BreadthFirst, e, 1, 0) == Ok(e);
    assert 2 !in e.expanded && 2 !in e.ancestors;
    assert Add(BreadthFirst, [3], 2) == [2, 3];
    assert Visit(BreadthFirst, e, 1, 2) == Ok(Session({0}, map[1 := {0}, 3 := {0}, 2 := {1}], [2, 3]));
    assert {0} + {1} == {0, 1};
  }

  /** Breadth-first expands 3 third and meets 2 again. */
  lemma SquareThirdBreadthFirst()
    ensures Expand(Square, BreadthFirst, Session({0, 1}, map[1 := {0}, 3 := {0}, 2 := {1}], [2]), 3) ==
      Err(SecondAncestor(3, 2))
  {
    var e := Session({0, 1}, map[1 := {0}, 3 := {0}, 2 := {1}], [2]);
    ExpandTwo(Square, BreadthFirst, e, 3, 0, 2);
    assert Visit(BreadthFirst, e, 3, 0) == Ok(e);
    assert Visit(BreadthFirst, e, 3, 2) == Err(SecondAncestor(3, 2));
  }

  /**
   * Breadth-first on the square discovers 2 from 1 and then meets it again
   * from 3: the second ancestor is fatal.
   */
  lemma SquareBreadthFirst()
    ensures Run(Square, BreadthFirst, 0, 2) == Failure(SecondAncestor(3, 2))
  {
    SquareBreadthFirstSearch();
    assert NoSelfLoop(Square, 0);
    RunErr(Square, BreadthFirst, 0, 2, SecondAncestor(3, 2));
  }

  lemma SquareBreadthFirstSearch()
    ensures Search(Square, BreadthFirst, 0, 2) == Err(SecondAncestor(3, 2))
  {
    assert Seed(BreadthFirst, 0) == Session({}, map[], [0]);
    SquareBreadthFirstDrain();
  }

  lemma SquareBreadthFirstDrain()
    ensures Drain(Square, BreadthFirst, 2, Session({}, map[], [0])) == Err(SecondAncestor(3, 2))
  {
    var e1 := Session({0}, map[1 := {0}, 3 := {0}], [3, 1]);
    SquareStart(BreadthFirst);
    assert Add(BreadthFirst, [1], 3) == [3, 1];
    DrainStep(Square, BreadthFirst, 2, Session({}, map[], [0]), [], 0, e1);
    SquareBreadthFirstDrain1();
  }

  lemma SquareBreadthFirstDrain1()
    ensures Drain(Square, BreadthFirst, 2, Session({0}, map[1 := {0}, 3 := {0}], [3, 1])) == Err(SecondAncestor(3, 2))
  {
    var e2 := Session({0, 1}, map[1 := {0}, 3 := {0}, 2 := {1}], [2, 3]);
    SquareSecondBreadthFirst();
    DrainStep(Square, BreadthFirst, 2, Session({0}, map[1 := {0}, 3 := {0}], [3, 1]), [3], 1, e2);
    SquareThirdBreadthFirst();
    DrainFails(Square, BreadthFirst, 2, e2, [2], 3, SecondAncestor(3, 2));
  }

  /** Depth-first expands 3 second and discovers 2 from it. */
  lemma SquareSecondDepthFirst()
    ensures Expand(Square, DepthFirst, Session({0}, map[1 := {0}, 3 := {0}], [1]), 3) ==
      Ok(Session({0, 3}, map[1 := {0}, 3 := {0}, 2 := {3}], [1, 2]))
  {
    var e := Session({0}, map[1 := {0}, 3 := {0}], [1]);
    ExpandTwo(Square, DepthFirst, e, 3, 0, 2);
    assert Visit(DepthFirst, e, 3, 0) == Ok(e);
    assert 2 !in e.expanded && 2 !in e.ancestors;
    assert Add(DepthFirst, [1], 2) == [1, 2];
    assert Visit(DepthFirst, e, 3, 2) == Ok(Session({0}, map[1 := {0}, 3 := {0}, 2 := {3}], [1, 2]));
    assert {0} + {3} == {0, 3};
  }

  /** Depth-first expands 2 third and meets 1, discovered from 0, again. */
  lemma SquareThirdDepthFirst()
    ensures Expand(Square, DepthFirst, Session({0, 3}, map[1 := {0}, 3 := {0}, 2 := {3}], [1]), 2) ==
      Err(SecondAncestor(2, 1))
  {
    var e := Session({0, 3}, map[1 := {0}, 3 := {0}, 2 := {3}], [1]);
    ExpandTwo(Square, DepthFirst, e, 2, 1, 3);
    assert Visit(DepthFirst, e, 2, 1) == Err(SecondAncestor(2, 1));
  }

  /**
   * Depth-first on the square goes 0, 3, 2 and then finds 1, already
   * discovered from 0, among the neighbours of 2.
   */
  lemma SquareDepthFirst()
    ensures Run(Square, DepthFirst, 0, 2) == Failure(SecondAncestor(2, 1))
  {
    SquareDepthFirstSearch();
    assert NoSelfLoop(Square, 0);
    RunErr(Square, DepthFirst, 0, 2, SecondAncestor(2, 1));
  }

  lemma SquareDepthFirstSearch()
    ensures Search(Square, DepthFirst, 0, 2) == Err(SecondAncestor(2, 1))
  {
    assert Seed(DepthFirst, 0) == Session({}, map[], [0]);
    SquareDepthFirstDrain();
  }

  lemma SquareDepthFirstDrain()
    ensures Drain(Square, DepthFirst, 2, Session({}, map[], [0])) == Err(SecondAncestor(2, 1))
  {
    var e1 := Session({0}, map[1 := {0}, 3 := {0}], [1, 3]);
    SquareStart(DepthFirst);
    assert Add(DepthFirst, [1], 3) == [1, 3];
    DrainStep(Square, DepthFirst, 2, Session({}, map[], [0]), [], 0, e1);
    SquareDepthFirstDrain1();
  }

  lemma SquareDepthFirstDrain1()
    ensures Drain(Square, DepthFirst, 2, Session({0}, map[1 := {0}, 3 := {0}], [1, 3])) == Err(SecondAncestor(2, 1))
  {
    var e2 := Session({0, 3}, map[1 := {0}, 3 := {0}, 2 := {3}], [1, 2]);
    SquareSecondDepthFirst();
    DrainStep(Square, DepthFirst, 2, Session({0}, map[1 := {0}, 3 := {0}], [1, 3]), [1], 3, e2);
    SquareThirdDepthFirst();
    DrainFails(Square, DepthFirst, 2, e2, [1], 2, SecondAncestor(2, 1));
  }

  /** A graph of one isolated node: the search for it from itself returns `[[0]]`. */
  lemma SingleNode(s: Strategy)
    ensures Run(map[0 := []], s, 0, 0) == Paths([[0]])
  {
    RunSameNode(map[0 := []], s, 0);
  }
}
