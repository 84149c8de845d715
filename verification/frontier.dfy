/**
 * The two frontier disciplines.  Both strategies keep their frontier in a
 * sequence and take the next node from its right-hand end (`deque.pop` for
 * breadth-first, `list.pop` for depth-first); they differ only in where
 * `_add_to_frontier` puts a new node: breadth-first on the left
 * (`appendleft`), depth-first on the right (`append`).
 */
module Frontier {
  import opened Graphs

  datatype Strategy = BreadthFirst | DepthFirst

  /** `_add_to_frontier`. */
  function Add(s: Strategy, f: seq<Node>, x: Node): (r: seq<Node>)
    ensures |r| == |f| + 1
    ensures multiset(r) == multiset(f) + multiset{x}
  {
    match s
    case BreadthFirst => [x] + f
    case DepthFirst => f + [x]
  }

  /** Adds the nodes of `xs` one after the other. */
  function AddAll(s: Strategy, f: seq<Node>, xs: seq<Node>): (r: seq<Node>)
    ensures multiset(r) == multiset(f) + multiset(xs)
    decreases |xs|
  {
    if xs == [] then f
    else
      assert xs == xs[..|xs| - 1] + [xs[|xs| - 1]];
      Add(s, AddAll(s, f, xs[..|xs| - 1]), xs[|xs| - 1])
  }

  /** The node `_expandable_nodes` yields next: one that is on the frontier. */
  function Next(f: seq<Node>): (x: Node)
    requires f != []
    ensures x in f
  {
    f[|f| - 1]
  }

  /** The frontier once `Next(f)` has been taken out. */
  function Rest(f: seq<Node>): (r: seq<Node>)
    requires f != []
    ensures |r| == |f| - 1
  {
    f[..|f| - 1]
  }

  /** Taking the next node out removes exactly one occurrence of it and nothing else. */
  lemma TakeNext(f: seq<Node>)
    requires f != []
    ensures multiset(Rest(f)) + multiset{Next(f)} == multiset(f)
  {
    assert f == Rest(f) + [Next(f)];
  }

  /** The order in which the nodes now in the frontier would be yielded if nothing more were added. */
  function Pending(f: seq<Node>): (r: seq<Node>)
    ensures |r| == |f|
    decreases |f|
  {
    if f == [] then [] else [Next(f)] + Pending(Rest(f))
  }

  /** The pending order is the frontier read from right to left. */
  lemma {:induction false} PendingReversed(f: seq<Node>)
    ensures forall i | 0 <= i < |f| :: Pending(f)[i] == f[|f| - 1 - i]
    decreases |f|
  {
    if f != [] {
      PendingReversed(Rest(f));
    }
  }

  /** What is on the right of a frontier is yielded before what is on its left. */
  lemma {:induction false} PendingAppend(a: seq<Node>, b: seq<Node>)
    ensures Pending(a + b) == Pending(b) + Pending(a)
    decreases |b|
  {
    if b == [] {
      assert a + b == a;
    } else {
      assert Next(a + b) == Next(b);
      assert Rest(a + b) == a + Rest(b);
      PendingAppend(a, Rest(b));
    }
  }

  /** Breadth-first adds at the back of the pending order (FIFO), depth-first at the front (LIFO). */
  lemma AddOrder(s: Strategy, f: seq<Node>, x: Node)
    ensures Pending(Add(s, f, x)) == if s.BreadthFirst? then Pending(f) + [x] else [x] + Pending(f)
  {
    if s.BreadthFirst? {
      PendingAppend([x], f);
    } else {
      assert Rest(f + [x]) == f;
    }
  }

  /**
   * After adding `xs`, a breadth-first frontier yields what it held and then
   * `xs` in the order added; a depth-first one yields `xs` newest first and
   * then what it held.
   */
  lemma AddAllOrder(s: Strategy, f: seq<Node>, xs: seq<Node>)
    ensures Pending(AddAll(s, f, xs)) == if s.BreadthFirst? then Pending(f) + xs else Pending(xs) + Pending(f)
  {
    if s.BreadthFirst? {
      AddAllFifo(f, xs);
    } else {
      AddAllLifo(f, xs);
    }
  }

  lemma {:induction false} AddAllFifo(f: seq<Node>, xs: seq<Node>)
    ensures Pending(AddAll(BreadthFirst, f, xs)) == Pending(f) + xs
    decreases |xs|
  {
    if xs != [] {
      var init, x := xs[..|xs| - 1], xs[|xs| - 1];
      var a := AddAll(BreadthFirst, f, init);
      AddAllFifo(f, init);
      assert AddAll(BreadthFirst, f, xs) == [x] + a;
      PendingAppend([x], a);
      assert Pending([x]) == [x];
      assert xs == init + [x];
      assert Pending(f) + init + [x] == Pending(f) + xs;
    }
  }

  lemma {:induction false} AddAllLifo(f: seq<Node>, xs: seq<Node>)
    ensures Pending(AddAll(DepthFirst, f, xs)) == Pending(xs) + Pending(f)
    decreases |xs|
  {
    if xs != [] {
      var init, x := xs[..|xs| - 1], xs[|xs| - 1];
      var a := AddAll(DepthFirst, f, init);
      AddAllLifo(f, init);
      assert AddAll(DepthFirst, f, xs) == a + [x];
      assert Rest(a + [x]) == a;
      assert Pending(xs) == [x] + Pending(init);
    }
  }
}
