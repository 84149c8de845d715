# Graph search engine: a Dafny model

This project models the generic graph-search engine of
`homework1/homework1/graph_search.py`: the abstract `GraphSearch` with its
expanded set, ancestor map and frontier, and the two strategies
`BreadthFirstSearch` (a deque: `appendleft` and `pop`) and `DepthFirstSearch`
(a list: `append` and `pop`).

`find_paths(start, end)` seeds the frontier with `start`. It then takes nodes
off the frontier and expands them until `end` has been expanded or the
frontier is empty. Expanding a node puts every neighbour that is not yet
expanded on the frontier and records the node as that neighbour's ancestor.
Finally it rebuilds the paths backwards through the ancestor map.

The model has six modules:

- `Graphs` (graphs.dfy): nodes are integers and a graph is a map from each
  node to its neighbours in iteration order. This stands in for the networkx
  graph, whose only use is `neighbors`.
- `Frontier` (frontier.dfy): the two frontier disciplines. `Pending(f)` is the
  order in which the nodes now on the frontier would be expanded. The lemmas
  show that breadth-first is FIFO and depth-first is LIFO.
- `Reconstruction` (reconstruction.dfy): `__build_paths` as a recursive
  function over the finished ancestor map, with a ghost rank for termination.
- `SearchSpec` (search_spec.dfy): the search as pure functions over a
  `Session` value (`Visit`, `ExpandAll`, `Expand`, `Drain`, `Search`, `Run`).
  It also holds the session invariant and the properties proved of a whole
  search, including that a search that does not raise reaches every `end`
  to which the graph has a walk from `start`.
- `Engine` (engine.dfy): the class `GraphSearch`, whose fields are updated in
  place by its methods. Each method is proved to leave the state, or return
  the result, that the matching `SearchSpec` function describes.
- `Scenarios` (scenarios.dfy): concrete searches on a line and on a square.

Behaviour of the code that the model keeps as written:

- **A second ancestor is fatal.** In `__update_ancestor` (line 44), the
  assignment expression binds the result of the `is None` test rather than
  the looked-up set. When a child already has an ancestor, line 48 calls `add`
  on `False` and raises. The model returns `Failure(SecondAncestor(parent,
  child))`. A search that succeeds therefore records exactly one ancestor per
  discovered node and returns exactly one path. `Scenarios.SquareBreadthFirst`
  and `Scenarios.SquareDepthFirst` show the failure on a 4-cycle.
- **An unknown node is fatal.** `neighbors` of a node the graph does not hold
  raises in networkx. The model returns `Failure(UnknownNode(node))`.
- **The base case returns `[[start]]`.** A node without ancestors yields
  `[[start]]` (line 95). So an `end` that was never discovered gives
  `[[start]]`.
- **The memo never hits.** The recursive call (line 100) goes through
  `__build_paths`, which makes a fresh `lru_cache` wrapper each time.
  Reconstruction is therefore plain recursion.
- **The expansion does work before it fails.** The neighbour loop pushes a
  neighbour before it records the ancestor, so a failing expansion leaves the
  frontier and the ancestor map partly updated. `SearchSpec.Halted` gives that
  state, and `Engine.GraphSearch.ExpandNode` is proved to leave it.

Where the program's own comments promise more than its code does, the model
follows the code:

- The comment at lines 31-32 says the map holds a node's ancestors, and line
  48 adds to a set. The code raises on the second ancestor, so every set holds
  one node.
- The docstring of `find_paths` (lines 141-157) promises all optimal paths,
  or otherwise a subset of all possible paths. A search that does not raise
  returns exactly one path.
- The docstring at line 88 calls the inner function memoized. The cache never
  hits.
- The comment at line 94 says a node without ancestors must be a starting
  node. An `end` that was never discovered also has none, and yields
  `[[start]]`.

## Model

| member | source | states |
|---|---|---|
| Frontier.Add | homework1/homework1/graph_search.py:192-218 | adding a node makes the frontier one longer and adds exactly that node to its contents |
| Frontier.AddAll | homework1/homework1/graph_search.py:58-66 | adding the fresh neighbours one by one adds exactly those nodes to the frontier's contents |
| Frontier.Pending | homework1/homework1/graph_search.py:188-190 | the expansion order of a frontier holds as many nodes as the frontier |
| Frontier.PendingReversed | homework1/homework1/graph_search.py:188-190 | both strategies take nodes from the right-hand end, so the expansion order is the frontier read right to left |
| Frontier.Next | homework1/homework1/graph_search.py:188-190 | the node `pop()` yields is one that is on the frontier |
| Frontier.Rest | homework1/homework1/graph_search.py:188-190 | `pop()` leaves a frontier one node shorter |
| Frontier.TakeNext | homework1/homework1/graph_search.py:213-215 | `pop()` removes exactly one occurrence of the node it yields and leaves every other node on the frontier |
| Frontier.AddOrder | homework1/homework1/graph_search.py:186-193 | breadth-first adds a node at the back of the expansion order (FIFO); depth-first adds it at the front (LIFO) |
| Frontier.AddAllOrder | homework1/homework1/graph_search.py:58-66 | after a node's fresh neighbours are added, breadth-first expands the old frontier and then the neighbours in order; depth-first expands the neighbours newest first and then the old frontier |
| Frontier.AddAllFifo | homework1/homework1/graph_search.py:188-193 | the breadth-first half of AddAllOrder |
| Frontier.AddAllLifo | homework1/homework1/graph_search.py:213-218 | the depth-first half of AddAllOrder |
| Reconstruction.BuildPaths | homework1/homework1/graph_search.py:86-107 | over a ranked single-ancestor map, reconstruction returns one path, and it starts at `start` |
| Reconstruction.BuildPathsChain | homework1/homework1/graph_search.py:92-107 | the rebuilt path is a chain of recorded ancestors with strictly rising rank and no repeated node; it ends at `end` when `end` has an ancestor and is `[start]` otherwise |
| Reconstruction.ChainDistinct | homework1/homework1/graph_search.py:97-105 | a chain of ancestors with rising ranks repeats no node |
| SearchSpec.Seed | homework1/homework1/graph_search.py:158-159 | the session starts empty with only `start` pending |
| SearchSpec.Visit | homework1/homework1/graph_search.py:58-66 | one neighbour step never changes the expanded set and never removes an ancestor |
| SearchSpec.ExpandAll | homework1/homework1/graph_search.py:58-66 | the neighbour loop never changes the expanded set |
| SearchSpec.ExpandAllGrows | homework1/homework1/graph_search.py:58-66 | the neighbour loop only adds ancestors, only for neighbours, and puts each newly discovered node on the frontier once |
| SearchSpec.ExpandAllFailureSticks | homework1/homework1/graph_search.py:58-66 | once a neighbour step raises, the rest of the loop does not change the fault |
| SearchSpec.HaltedOk | homework1/homework1/graph_search.py:58-66 | when the neighbour loop does not raise, the state it leaves is its result |
| SearchSpec.HaltedFailure | homework1/homework1/graph_search.py:44-66 | when the neighbour loop raises, it raises on a neighbour that already has an ancestor, with `node` as the second parent; that neighbour has just been pushed on the frontier, which has grown by one node per newly recorded ancestor plus that one |
| SearchSpec.Halted | homework1/homework1/graph_search.py:44-66 | the state the neighbour loop leaves, also when line 48 raises part-way through it; the loop never changes the expanded set (HaltedOk and HaltedFailure pin the rest) |
| SearchSpec.ExpandAllWithin | homework1/homework1/graph_search.py:58-66 | expanding a node of the graph discovers only nodes that appear in the graph's neighbour lists |
| SearchSpec.Expand | homework1/homework1/graph_search.py:50-69 | a successful expansion is of a node of the graph and adds exactly that node to the expanded set |
| SearchSpec.ExpandProgress | homework1/homework1/graph_search.py:161-166 | each loop iteration discovers a new node or shrinks the frontier, so the loop ends |
| SearchSpec.Drain | homework1/homework1/graph_search.py:161-166 | the loop stops with `end` expanded or the frontier empty |
| SearchSpec.Search | homework1/homework1/graph_search.py:158-166 | a search phase that does not raise has expanded `start`, which is a node of the graph, and stops with `end` expanded or the frontier empty |
| SearchSpec.Run | homework1/homework1/graph_search.py:141-168 | a search either fails, exactly when the loop raised, or returns one path that starts at `start` |
| SearchSpec.ExpandAllSpec | homework1/homework1/graph_search.py:58-66 | the neighbour loop succeeds exactly when the unexpanded neighbours are distinct and undiscovered; then it adds them to the frontier in order with the node as their only ancestor and changes nothing else; otherwise it raises on a neighbour that already has an ancestor or occurs twice |
| SearchSpec.ExpandSpec | homework1/homework1/graph_search.py:50-69 | expansion raises on an unknown node; otherwise it succeeds exactly when the unexpanded neighbours are undiscovered, and then marks the node expanded, pushes those neighbours in order with the node as their ancestor, and leaves the expanded neighbours alone |
| SearchSpec.ExpandSucceeds | homework1/homework1/graph_search.py:50-69 | the resulting state when no unexpanded neighbour has been discovered |
| SearchSpec.ExpandFailsOnRediscovery | homework1/homework1/graph_search.py:44-48 | on a graph without repeated neighbours, expansion raises exactly when an unexpanded neighbour already has an ancestor |
| SearchSpec.Fresh | homework1/homework1/graph_search.py:58-61 | the neighbours the loop does not skip are exactly those not yet expanded |
| SearchSpec.FreshDistinct | homework1/homework1/graph_search.py:58-61 | skipping expanded neighbours keeps a neighbour list free of repeats |
| SearchSpec.ExpandKeepsInv | homework1/homework1/graph_search.py:161-162 | one loop iteration keeps the session invariant: single ranked ancestors, parents are expanded and adjacent, `start` has no ancestor, and the frontier holds distinct, discovered, unexpanded nodes |
| SearchSpec.DrainKeepsInv | homework1/homework1/graph_search.py:161-166 | the whole loop keeps the session invariant |
| SearchSpec.SearchKeepsInv | homework1/homework1/graph_search.py:158-166 | a search that does not fail ends in a state satisfying the session invariant |
| SearchSpec.SearchAncestors | homework1/homework1/graph_search.py:58-66 | after a search that did not fail, `start` has no ancestor, and every discovered node has exactly one ancestor, which is expanded and lists it as a neighbour |
| SearchSpec.InvPath | homework1/homework1/graph_search.py:92-107 | the path rebuilt from a session satisfying the invariant is a walk of the graph from `start` along ancestor links, without repeats, ending at `end` when `end` was discovered |
| SearchSpec.RunPaths | homework1/homework1/graph_search.py:141-168 | a search that does not fail returns one path: from `start`, a walk of the graph without repeats along ancestor links, ending at `end` if `end` was discovered and `[start]` otherwise; an undiscovered `end` other than `start` means the frontier was drained; whenever some walk of the graph leads from `start` to `end`, the path ends at `end` |
| SearchSpec.ExpandKeepsClosed | homework1/homework1/graph_search.py:58-69 | one loop iteration keeps every neighbour of an expanded node discovered, and every discovered node that is not expanded on the frontier |
| SearchSpec.DrainKeepsClosed | homework1/homework1/graph_search.py:161-166 | the whole loop keeps that closure |
| SearchSpec.SearchFindsReachable | homework1/homework1/graph_search.py:141-168 | after a search that does not raise, an `end` that some walk of the graph reaches from `start` is `start` or has a recorded ancestor |
| SearchSpec.SearchStops | homework1/homework1/graph_search.py:161-166 | the search stops with `end` expanded or the frontier drained; an undiscovered `end` other than `start` was never expanded |
| SearchSpec.FirstExpansion | homework1/homework1/graph_search.py:159-162 | on a well-formed graph without a self-loop at `start`, the first expansion succeeds and does not give `start` an ancestor |
| SearchSpec.RunSameNode | homework1/homework1/graph_search.py:159-168 | `find_paths(start, start)` expands only `start` and returns `[[start]]` |
| Engine.GraphSearch.constructor | homework1/homework1/graph_search.py:19-33 | a new engine holds the graph and an empty session |
| Engine.GraphSearch.AddToFrontier | homework1/homework1/graph_search.py:192-218 | the frontier becomes `Add(strategy, old frontier, node)` |
| Engine.GraphSearch.PopNext | homework1/homework1/graph_search.py:188-190 | the right-hand node is returned and removed |
| Engine.GraphSearch.UpdateAncestor | homework1/homework1/graph_search.py:35-48 | a child without an ancestor gets `{parent}`; a child that has one leaves the map unchanged and reports the second-ancestor fault |
| Engine.GraphSearch.VisitNeighbour | homework1/homework1/graph_search.py:58-66 | one pass of the neighbour loop does what `Visit` describes; when it raises, the neighbour is already on the frontier and the ancestor map is unchanged |
| Engine.GraphSearch.ExpandNode | homework1/homework1/graph_search.py:50-69 | on success the new state is `Expand` of the old one; on failure the fault is `Expand`'s and the state is the one `Halted` describes: the neighbours handled so far pushed and recorded, and the one that raised pushed as well (for an unknown node, the state is unchanged) |
| Engine.GraphSearch.FindPaths | homework1/homework1/graph_search.py:141-168 | the result is `Run` of the graph, strategy and endpoints, and on success the final state is the searched session |
| Scenarios.LineSearch | homework1/homework1/graph_search.py:141-168 | on the path 0 - 1 - 2, both strategies return `[[0, 1, 2]]` |
| Scenarios.SquareBreadthFirst | homework1/homework1/graph_search.py:44-48 | breadth-first from 0 to 2 on the square 0 - 1 - 2 - 3 - 0 raises when 3 meets 2 again |
| Scenarios.SquareDepthFirst | homework1/homework1/graph_search.py:44-48 | depth-first from 0 to 2 on the same square raises when 2 meets 1 again |
| Scenarios.SingleNode | homework1/homework1/graph_search.py:92-95 | searching a one-node graph from the node to itself returns `[[0]]` |

## Left out

- The networkx graph object is replaced by a map from node to neighbour list in iteration order. Nodes are integers rather than arbitrary hashable values.
- `lru_cache`, the `abc` abstract-method machinery and generator suspension are not modelled. The cache never hits, and `_expandable_nodes` becomes an explicit "while the frontier is not empty, pop" loop.
- Python's recursion limit is not modelled. A deep ancestor chain that would raise `RecursionError` in `__build_paths` is rebuilt in full.
- SearchSpec.Run: requires that `start` does not list itself as a neighbour. Such a self-loop makes `start` its own ancestor. On those inputs the source raises `RecursionError` in reconstruction when `end` was discovered or equals `start`, raises on a second ancestor, or returns `[[start]]`. The model does not cover these inputs. A self-loop at any other node already raises as a second ancestor.
- Engine.GraphSearch.FindPaths: requires a fresh engine. The source allows a second `find_paths` on the same object, which then runs on the stale expanded set and ancestor map; that reuse is not modelled.
- A variant that takes the union of ancestors (what the code evidently meant at line 44) is not modelled. With several ancestors the order of Python's set iteration would also matter.
- SearchSpec.RunPaths: does not state that the breadth-first path has the fewest edges, which the `find_paths` docstring promises for an optimal search (line 146). Proving it needs an invariant that the frontier's nodes lie on at most two consecutive distance levels from `start`, and distances over the graph are not part of this model. The promise of all optimal paths cannot hold as written, because a search that does not raise records one ancestor per node.
- SearchSpec.Run: does not state on which graphs a whole search succeeds. On a graph without cycles, such as the maze the driver builds, no unexpanded neighbour is ever met a second time, so the search does not raise. Proving it needs a connection between rediscovery and cycles of the graph that this model does not develop. The model proves success only for the graphs of the `Scenarios` module and for `find_paths(start, start)` (`SearchSpec.RunSameNode`).
- The driver `problem2.py` (building the maze, printing) is not part of this model, and neither is its maze as a concrete example.
