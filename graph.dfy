/** Directed graphs given as adjacency lists keyed by node, the shape both cycle checks of
    the repository work on (`adjList[name] || []` in the resolver, `graph.get(start)` in the
    benchmark generator). A node without an entry has no successors. */
module Graph {
  import opened Common

  function Succ<T>(adj: map<T, seq<T>>, x: T): seq<T> {
    if x in adj then adj[x] else []
  }

  /** Every node that occurs in the graph, as a key or as a successor. */
  ghost function Nodes<T>(adj: map<T, seq<T>>): set<T> {
    adj.Keys + (set k, d | k in adj && d in adj[k] :: d)
  }

  lemma SuccInNodes<T>(adj: map<T, seq<T>>, x: T, d: T)
    requires d in Succ(adj, x)
    ensures d in Nodes(adj)
  {
  }

  /** `p` follows edges of the graph. */
  ghost predicate IsWalk<T>(adj: map<T, seq<T>>, p: seq<T>) {
    forall i :: 0 <= i < |p| - 1 ==> p[i + 1] in Succ(adj, p[i])
  }

  /** A closed walk with at least one edge, written with its first node repeated at the end,
      as in `A -> B -> C -> A`. */
  ghost predicate IsCycle<T>(adj: map<T, seq<T>>, p: seq<T>) {
    |p| >= 2 && p[0] == Last(p) && IsWalk(adj, p)
  }

  /** A walk from `start` that comes back to a node it has already passed: a cycle is
      reachable from `start`. */
  ghost predicate ReachesCycle<T(!new)>(adj: map<T, seq<T>>, start: T) {
    exists p :: IsWalk(adj, p) && |p| >= 2 && p[0] == start && Last(p) in DropLast(p)
  }

  /** The order in which a depth-first search finishes nodes: every successor of a node was
      finished before it. */
  ghost predicate FinishOrder<T>(adj: map<T, seq<T>>, order: seq<T>) {
    forall k :: 0 <= k < |order| ==> forall d :: d in Succ(adj, order[k]) ==> d in order[..k]
  }

  lemma FinishOrderStep<T>(adj: map<T, seq<T>>, order: seq<T>, x: T, d: T)
    requires FinishOrder(adj, order)
    requires x in order && d in Succ(adj, x)
    ensures d in order && IndexOf(order, d) < IndexOf(order, x)
  {
    var k := IndexOf(order, x);
    assert d in order[..k];
    var j :| 0 <= j < k && order[j] == d;
    assert IndexOf(order, d) <= j;
  }

  /** Along a walk that starts at a finished node, every node is finished, and finished
      strictly earlier than the nodes before it. */
  lemma {:induction false} WalkDescends<T>(adj: map<T, seq<T>>, order: seq<T>, p: seq<T>)
    requires FinishOrder(adj, order)
    requires IsWalk(adj, p) && |p| > 0 && p[0] in order
    ensures forall i :: 0 <= i < |p| ==> p[i] in order
    ensures forall i, j :: 0 <= i < j < |p| ==> IndexOf(order, p[j]) < IndexOf(order, p[i])
    decreases |p|
  {
    if |p| > 1 {
      var q := DropLast(p);
      assert IsWalk(adj, q) by {
        forall i | 0 <= i < |q| - 1 ensures q[i + 1] in Succ(adj, q[i]) {
          assert q[i] == p[i] && q[i + 1] == p[i + 1];
        }
      }
      WalkDescends(adj, order, q);
      var n := |p| - 1;
      assert p[n] in Succ(adj, p[n - 1]);
      assert p[n - 1] == q[n - 1];
      FinishOrderStep(adj, order, p[n - 1], p[n]);
      forall i, j | 0 <= i < j < |p| ensures IndexOf(order, p[j]) < IndexOf(order, p[i]) {
        if j < n {
          assert p[i] == q[i] && p[j] == q[j];
        } else if i < n - 1 {
          assert p[i] == q[i] && p[n - 1] == q[n - 1];
        }
      }
    }
  }

  /** No cycle passes through a finished node. */
  lemma FinishedNotOnCycle<T>(adj: map<T, seq<T>>, order: seq<T>, p: seq<T>)
    requires FinishOrder(adj, order)
    requires |p| > 0 && p[0] in order
    ensures !IsCycle(adj, p)
  {
    if IsWalk(adj, p) && |p| >= 2 {
      WalkDescends(adj, order, p);
      assert IndexOf(order, p[|p| - 1]) < IndexOf(order, p[0]);
    }
  }

  /** No cycle is reachable from a finished node. */
  lemma FinishedReachesNoCycle<T(!new)>(adj: map<T, seq<T>>, order: seq<T>, start: T)
    requires FinishOrder(adj, order)
    requires start in order
    ensures !ReachesCycle(adj, start)
  {
    forall p | IsWalk(adj, p) && |p| >= 2 && p[0] == start ensures Last(p) !in DropLast(p) {
      WalkDescends(adj, order, p);
      forall j | 0 <= j < |p| - 1 ensures p[j] != Last(p) {
        assert IndexOf(order, p[|p| - 1]) < IndexOf(order, p[j]);
      }
    }
  }

  /** A cycle through a node that a walk from `start` reaches makes a cycle reachable from
      `start`. */
  lemma WalkToCycle<T(!new)>(adj: map<T, seq<T>>, p: seq<T>, x: T)
    requires IsWalk(adj, p) && |p| > 0
    requires x in p && x in Succ(adj, Last(p))
    ensures ReachesCycle(adj, p[0])
  {
    var q := p + [x];
    assert IsWalk(adj, q) by {
      forall i | 0 <= i < |q| - 1 ensures q[i + 1] in Succ(adj, q[i]) {
        if i < |p| - 1 {
          assert q[i] == p[i] && q[i + 1] == p[i + 1];
        }
      }
    }
    assert DropLast(q) == p;
  }

  /** No cycle at all. */
  ghost predicate Acyclic<T(!new)>(adj: map<T, seq<T>>) {
    forall p :: !IsCycle(adj, p)
  }

  lemma WalkAppend<T>(adj: map<T, seq<T>>, p: seq<T>, x: T)
    requires IsWalk(adj, p)
    requires p == [] || x in Succ(adj, Last(p))
    ensures IsWalk(adj, p + [x])
  {
    var q := p + [x];
    forall i | 0 <= i < |q| - 1 ensures q[i + 1] in Succ(adj, q[i]) {
      if i < |p| - 1 {
        assert q[i] == p[i] && q[i + 1] == p[i + 1];
      }
    }
  }

  lemma WalkSlice<T>(adj: map<T, seq<T>>, p: seq<T>, i: nat, j: nat)
    requires IsWalk(adj, p) && i <= j <= |p|
    ensures IsWalk(adj, p[i..j])
  {
    var q := p[i..j];
    forall k | 0 <= k < |q| - 1 ensures q[k + 1] in Succ(adj, q[k]) {
      assert q[k] == p[i + k] && q[k + 1] == p[i + k + 1];
    }
  }

  /** Finishing a node all of whose successors are finished keeps a finish order. */
  lemma FinishOrderAppend<T>(adj: map<T, seq<T>>, order: seq<T>, x: T)
    requires FinishOrder(adj, order)
    requires forall d :: d in Succ(adj, x) ==> d in order
    ensures FinishOrder(adj, order + [x])
  {
    var o := order + [x];
    forall k, d | 0 <= k < |o| && d in Succ(adj, o[k]) ensures d in o[..k] {
      if k < |order| {
        assert o[k] == order[k] && o[..k] == order[..k];
      } else {
        assert o[..k] == order;
      }
    }
  }

  /** A finish order that holds every key of the graph rules out every cycle. */
  lemma FinishOrderAcyclic<T(!new)>(adj: map<T, seq<T>>, order: seq<T>)
    requires FinishOrder(adj, order)
    requires forall k :: k in adj ==> k in order
    ensures Acyclic(adj)
  {
    forall p ensures !IsCycle(adj, p) {
      if |p| > 0 && p[0] in adj {
        FinishedNotOnCycle(adj, order, p);
      } else if |p| >= 2 {
        assert p[1] !in Succ(adj, p[0]);
      }
    }
  }

  /** The stack of a depth-first search, closed by an edge back to one of its nodes: the
      part of the stack from that node on, with the node repeated, is a simple cycle. */
  lemma StackCycle<T>(adj: map<T, seq<T>>, stack: seq<T>, x: T)
    requires IsWalk(adj, stack) && Distinct(stack)
    requires x in stack && x in Succ(adj, Last(stack))
    ensures IsCycle(adj, stack[IndexOf(stack, x)..] + [x])
    ensures Distinct(DropLast(stack[IndexOf(stack, x)..] + [x]))
  {
    var i := IndexOf(stack, x);
    var path := stack[i..] + [x];
    WalkSlice(adj, stack, i, |stack|);
    assert Last(stack[i..]) == Last(stack);
    WalkAppend(adj, stack[i..], x);
    assert DropLast(path) == stack[i..];
  }

  /** The state of a depth-first search that records the nodes on its stack both as a
      sequence and as a set: the stack is a walk without repeated nodes, every node on it is
      visited, and every visited node off the stack is finished, after all its successors. */
  ghost predicate SearchInv<T>(adj: map<T, seq<T>>, visited: set<T>, inStack: set<T>, stack: seq<T>, finished: seq<T>) {
    && inStack == ToSet(stack)
    && Distinct(stack)
    && IsWalk(adj, stack)
    && inStack <= visited
    && ToSet(finished) == visited - inStack
    && FinishOrder(adj, finished)
  }

  /** What a depth-first search reports, and the visited set it leaves behind. */
  datatype Probe<T> = Probe(cycle: Option<seq<T>>, visited: set<T>)

  /** The search from `x`, reached with the given visited set and stack. A node on the stack
      reports the stack from that node's first occurrence, closed by the node. A node visited
      before reports nothing. Any other node is pushed, and its successors are searched in
      order until one of them reports a cycle. */
  ghost function Dfs<T>(adj: map<T, seq<T>>, visited: set<T>, stack: seq<T>, x: T): (p: Probe<T>)
    decreases Nodes(adj) + {x} - visited, 0, 0
    ensures visited <= p.visited
  {
    if x in stack then Probe(Some(stack[IndexOf(stack, x)..] + [x]), visited)
    else if x in visited then Probe(None, visited)
    else DfsFrom(adj, visited + {x}, stack + [x], Succ(adj, x), 0)
  }

  /** The searches from the successors `nbrs[k..]` of the top of the stack, each starting
      with the visited set the one before it left. */
  ghost function DfsFrom<T>(adj: map<T, seq<T>>, visited: set<T>, stack: seq<T>, nbrs: seq<T>, k: nat): (p: Probe<T>)
    requires k <= |nbrs|
    requires forall d :: d in nbrs ==> d in Nodes(adj)
    decreases Nodes(adj) - visited, 1, |nbrs| - k
    ensures visited <= p.visited
  {
    if k == |nbrs| then Probe(None, visited)
    else
      assert Nodes(adj) + {nbrs[k]} - visited == Nodes(adj) - visited;
      var p := Dfs(adj, visited, stack, nbrs[k]);
      if p.cycle.Some? then p else DfsFrom(adj, p.visited, stack, nbrs, k + 1)
  }

  /** The search from a node on the stack reports the stack from that node. */
  lemma DfsOnStack<T>(adj: map<T, seq<T>>, visited: set<T>, stack: seq<T>, x: T)
    requires x in stack
    ensures Dfs(adj, visited, stack, x) == Probe(Some(stack[IndexOf(stack, x)..] + [x]), visited)
  {
  }

  /** The search from a node visited before, and off the stack, reports nothing. */
  lemma DfsVisited<T>(adj: map<T, seq<T>>, visited: set<T>, stack: seq<T>, x: T)
    requires x !in stack && x in visited
    ensures Dfs(adj, visited, stack, x) == Probe(None, visited)
  {
  }

  /** The search from a new node is the search from its successors with the node pushed. */
  lemma DfsEnter<T>(adj: map<T, seq<T>>, visited: set<T>, stack: seq<T>, x: T)
    requires x !in stack && x !in visited
    ensures forall d :: d in Succ(adj, x) ==> d in Nodes(adj)
    ensures Dfs(adj, visited, stack, x) == DfsFrom(adj, visited + {x}, stack + [x], Succ(adj, x), 0)
  {
  }

  /** A successor whose search reports nothing hands its visited set on to the next one. */
  lemma DfsFromNext<T>(adj: map<T, seq<T>>, visited: set<T>, stack: seq<T>, nbrs: seq<T>, k: nat)
    requires k < |nbrs| && forall d :: d in nbrs ==> d in Nodes(adj)
    requires Dfs(adj, visited, stack, nbrs[k]).cycle.None?
    ensures DfsFrom(adj, visited, stack, nbrs, k)
         == DfsFrom(adj, Dfs(adj, visited, stack, nbrs[k]).visited, stack, nbrs, k + 1)
  {
  }

  /** A successor whose search reports a cycle ends the search with that report. */
  lemma DfsFromFound<T>(adj: map<T, seq<T>>, visited: set<T>, stack: seq<T>, nbrs: seq<T>, k: nat)
    requires k < |nbrs| && forall d :: d in nbrs ==> d in Nodes(adj)
    requires Dfs(adj, visited, stack, nbrs[k]).cycle.Some?
    ensures DfsFrom(adj, visited, stack, nbrs, k).cycle == Dfs(adj, visited, stack, nbrs[k]).cycle
  {
  }

  /** With no successor left, the search reports nothing. */
  lemma DfsFromEnd<T>(adj: map<T, seq<T>>, visited: set<T>, stack: seq<T>, nbrs: seq<T>)
    requires forall d :: d in nbrs ==> d in Nodes(adj)
    ensures DfsFrom(adj, visited, stack, nbrs, |nbrs|) == Probe(None, visited)
  {
  }

  /** Entering an unvisited node reached from the top of the stack. */
  lemma SearchPush<T>(adj: map<T, seq<T>>, visited: set<T>, inStack: set<T>, stack: seq<T>, finished: seq<T>, x: T)
    requires SearchInv(adj, visited, inStack, stack, finished)
    requires x !in visited
    requires stack == [] || x in Succ(adj, Last(stack))
    ensures SearchInv(adj, visited + {x}, inStack + {x}, stack + [x], finished)
  {
    WalkAppend(adj, stack, x);
    ToSetAppend(stack, x);
  }

  /** Leaving a node whose successors are all finished: it is finished after them. */
  lemma SearchPop<T>(adj: map<T, seq<T>>, visited: set<T>, inStack: set<T>, stack: seq<T>, finished: seq<T>, x: T)
    requires SearchInv(adj, visited, inStack + {x}, stack + [x], finished)
    requires x !in inStack && inStack == ToSet(stack)
    requires forall d :: d in Succ(adj, x) ==> d in visited - (inStack + {x})
    ensures SearchInv(adj, visited, inStack, stack, finished + [x])
  {
    FinishOrderAppend(adj, finished, x);
    ToSetAppend(finished, x);
    WalkSlice(adj, stack + [x], 0, |stack|);
    assert (stack + [x])[0..|stack|] == stack;
  }

  /** Every node of `u` has a successor in `u`. */
  ghost predicate Closed<T>(adj: map<T, seq<T>>, u: set<T>) {
    forall y {:trigger Succ(adj, y)} :: y in u ==> exists d :: d in Succ(adj, y) && d in u
  }

  /** A walk of any length inside a closed set. */
  lemma {:induction false} WalkInClosed<T>(adj: map<T, seq<T>>, u: set<T>, x: T, n: nat) returns (p: seq<T>)
    requires Closed(adj, u) && x in u
    ensures |p| == n + 1 && p[0] == x && IsWalk(adj, p)
    ensures forall i :: 0 <= i < |p| ==> p[i] in u
  {
    if n == 0 {
      p := [x];
    } else {
      var q := WalkInClosed(adj, u, x, n - 1);
      assert Last(q) in u;
      var d :| d in Succ(adj, Last(q)) && d in u;
      WalkAppend(adj, q, d);
      p := q + [d];
    }
  }

  /** A nonempty set in which every node has a successor holds a cycle. */
  lemma ClosedSetCycle<T>(adj: map<T, seq<T>>, u: set<T>, x: T) returns (c: seq<T>)
    requires Closed(adj, u) && x in u
    ensures IsCycle(adj, c)
  {
    var p := WalkInClosed(adj, u, x, |u|);
    Pigeonhole(p, u);
    var i, j :| 0 <= i < j < |p| && p[i] == p[j];
    WalkSlice(adj, p, i, j + 1);
    c := p[i..j + 1];
  }
}
