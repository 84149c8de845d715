/**
 * Path reconstruction (`__build_paths`): once the search is over, paths are
 * rebuilt backwards from the end node by following recorded ancestors.
 */
module Reconstruction {
  import opened Graphs

  /** `__node_ancestors`: each discovered node mapped to the nodes it was discovered from. */
  type Ancestors = map<Node, set<Node>>

  ghost predicate IsSingleton(s: set<Node>) {
    exists p :: s == {p}
  }

  /**
   * `rank` orders the ancestor relation: every recorded parent ranks strictly
   * below its child, so following parents always stops.  Every ancestor set
   * holds one node, which is all a search that does not fail ever records.
   */
  ghost predicate Ranked(anc: Ancestors, rank: map<Node, nat>) {
    forall c | c in anc ::
      IsSingleton(anc[c]) && c in rank && forall p | p in anc[c] :: p in rank && rank[p] < rank[c]
  }

  /** Every chain of ancestors ends at `start`, which has no ancestor itself. */
  ghost predicate RootedAt(anc: Ancestors, start: Node) {
    start !in anc && forall c | c in anc :: forall p | p in anc[c] :: p == start || p in anc
  }

  /** The in-place `path.append(_end)` over the freshly built partial paths. */
  function AppendToEach(paths: seq<seq<Node>>, n: Node): (r: seq<seq<Node>>)
    ensures |r| == |paths| && forall i | 0 <= i < |r| :: r[i] == paths[i] + [n]
  {
    seq(|paths|, i requires 0 <= i < |paths| => paths[i] + [n])
  }

  /**
   * `_build_paths(start, end)`.  A node without ancestors is taken to be the
   * start, and the base case yields `[[start]]` whatever `end` is.  Otherwise
   * the paths to each parent are extended by `end`; with a single parent that
   * is one extension.  The memoisation wrapper of the source never takes
   * effect (each recursive call builds a fresh cache), so this is plain
   * recursion.
   */
  function BuildPaths(anc: Ancestors, start: Node, end: Node, ghost rank: map<Node, nat>): (paths: seq<seq<Node>>)
    requires Ranked(anc, rank)
    ensures |paths| == 1 && |paths[0]| >= 1 && paths[0][0] == start
    decreases if end in anc then rank[end] + 1 else 0
  {
    if end !in anc then [[start]]
    else
      var parent :| parent in anc[end];
      AppendToEach(BuildPaths(anc, start, parent, rank), end)
  }

  /** `p` follows the ancestor relation from a node without ancestors, with ranks rising along it. */
  ghost predicate AncestorChain(anc: Ancestors, rank: map<Node, nat>, p: seq<Node>) {
    |p| >= 1 && p[0] !in anc &&
    (forall i | 0 < i < |p| :: p[i] in anc && p[i - 1] in anc[p[i]]) &&
    (forall i, j | 0 < i < j < |p| :: p[i] in rank && p[j] in rank && rank[p[i]] < rank[p[j]])
  }

  /** Rising ranks after a first node without ancestors: no node repeats. */
  lemma ChainDistinct(anc: Ancestors, rank: map<Node, nat>, p: seq<Node>)
    requires AncestorChain(anc, rank, p)
    ensures Distinct(p)
  {
    forall i, j | 0 <= i < j < |p| ensures p[i] != p[j] {
      if i > 0 {
        assert rank[p[i]] < rank[p[j]];
      }
    }
  }

  /** Extending a chain that ends at `parent` by a child of `parent`. */
  lemma ChainSnoc(anc: Ancestors, rank: map<Node, nat>, q: seq<Node>, end: Node)
    requires Ranked(anc, rank) && AncestorChain(anc, rank, q) && end in anc && q[|q| - 1] in anc[end]
    ensures AncestorChain(anc, rank, q + [end])
  {
    var p := q + [end];
    var parent := q[|q| - 1];
    forall i, j | 0 < i < j < |p|
      ensures p[i] in rank && p[j] in rank && rank[p[i]] < rank[p[j]]
    {
      if j < |q| {
        assert p[i] == q[i] && p[j] == q[j];
      } else if i < |q| - 1 {
        assert rank[q[i]] < rank[parent];
      }
    }
  }

  /**
   * When every chain of ancestors ends at `start`, the one path rebuilt is the
   * whole chain from `start` to `end`: it ends with `end` (or is `[start]` when
   * `end` has no ancestor), each node is recorded as the ancestor of the next,
   * every node after the first has an ancestor and the first has none, and the
   * ranks rise along it, so no node repeats.
   */
  lemma {:induction false} BuildPathsChain(anc: Ancestors, start: Node, end: Node, rank: map<Node, nat>)
    requires Ranked(anc, rank) && RootedAt(anc, start)
    ensures var p := BuildPaths(anc, start, end, rank)[0];
      AncestorChain(anc, rank, p) && Distinct(p) &&
      (end in anc ==> |p| >= 2 && p[|p| - 1] == end) &&
      (end !in anc ==> p == [start])
    decreases if end in anc then rank[end] + 1 else 0
  {
    var p := BuildPaths(anc, start, end, rank)[0];
    if end in anc {
      var parent :| parent in anc[end];
      BuildPathsChain(anc, start, parent, rank);
      var q := BuildPaths(anc, start, parent, rank)[0];
      assert p == q + [end];
      ChainSnoc(anc, rank, q, end);
    }
    ChainDistinct(anc, rank, p);
  }
}
