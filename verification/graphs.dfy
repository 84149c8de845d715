/**
 * Nodes and graphs as the search sees them.  The search only ever asks a
 * graph for the neighbours of a node, so a graph is a map from each node to
 * its neighbours in iteration order.
 */
module Graphs {
  type Node = int

  /** Neighbour lists in iteration order; a node that is not a key is unknown to the graph. */
  type Graph = map<Node, seq<Node>>

  function Elems(xs: seq<Node>): (r: set<Node>)
    ensures forall x :: x in r <==> x in xs
  {
    set x | x in xs
  }

  /** Every node that appears in some neighbour list. */
  function Universe(g: Graph): (r: set<Node>)
    ensures forall n, x | n in g && x in g[n] :: x in r
  {
    set n, x | n in g && x in g[n] :: x
  }

  ghost predicate Distinct(xs: seq<Node>) {
    forall i, j | 0 <= i < j < |xs| :: xs[i] != xs[j]
  }

  /** Consecutive nodes of `p` are joined by an edge of `g`. */
  ghost predicate IsWalk(g: Graph, p: seq<Node>) {
    forall i | 0 <= i < |p| - 1 :: p[i] in g && p[i + 1] in g[p[i]]
  }

  /** What a networkx graph guarantees: no neighbour is listed twice and every neighbour is a node. */
  ghost predicate WellFormed(g: Graph) {
    forall n | n in g :: Distinct(g[n]) && forall x | x in g[n] :: x in g
  }

  /** Discovering new nodes of `u` leaves fewer of them undiscovered. */
  lemma FewerUndiscovered(u: set<Node>, known: set<Node>, known': set<Node>)
    requires known < known' && known' - known <= u
    ensures |u - known'| < |u - known|
  {
    var d := known' - known;
    assert d != {};
    assert u - known == (u - known') + d;
    assert (u - known') * d == {};
    assert |u - known| == |u - known'| + |d|;
  }
}
