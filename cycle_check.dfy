/** `hasCycle` of the benchmark generator: a recursive depth-first search over a graph of
    numbered nodes that adds to and deletes from two shared sets, `visited` and `stack`.
    The sets are the fields of a search object; the order in which the nodes entered
    `stack`, and the order in which they left it, are kept as ghost fields. */
module CycleCheck {
  import opened Common
  import opened Graph

  class CycleSearch {
    var visited: set<int>
    var stack: set<int>
    /** The nodes of `stack`, in the order the search entered them. */
    ghost var path: seq<int>
    /** The nodes the search has left, in the order it left them. */
    ghost var finished: seq<int>

    /** A search with fresh `visited` and `stack` sets. */
    constructor ()
      ensures visited == {} && stack == {} && path == [] && finished == []
    {
      visited := {};
      stack := {};
      path := [];
      finished := [];
    }

    ghost predicate Valid(adj: map<int, seq<int>>)
      reads this
    {
      SearchInv(adj, visited, stack, path, finished)
    }

    /** `hasCycle(graph, start, visited, stack)`. A start that is already visited is only
        deleted from `stack`. Otherwise `start` is marked, pushed, and its neighbours are
        tried in order: one that is not visited is searched, one that is on the stack
        closes a cycle. `true` means a walk from `start` runs into a cycle, and the search
        stops with its path still on `stack`; `false` means `start` is finished and `stack`
        is as it was. */
    method HasCycle(adj: map<int, seq<int>>, start: int) returns (found: bool)
      modifies this`visited, this`stack, this`path, this`finished
      requires Valid(adj)
      requires start in visited || path == [] || start in Succ(adj, Last(path))
      decreases Nodes(adj) + {start} - visited
      ensures old(visited) <= visited
      ensures start in old(visited) ==>
        && !found && visited == old(visited) && stack == old(stack) - {start}
        && path == old(path) && finished == old(finished)
      ensures start !in old(visited) ==> start in visited
      ensures start !in old(visited) && found ==> ReachesCycle(adj, start)
      ensures start !in old(visited) && found ==> old(stack) + {start} <= stack
      ensures start !in old(visited) && !found ==>
        Valid(adj) && stack == old(stack) && path == old(path) && start !in stack
    {
      if start in visited {
        stack := stack - {start};
        return false;
      }
      SearchPush(adj, visited, stack, path, finished, start);
      visited := visited + {start};
      stack := stack + {start};
      path := path + [start];
      var neighbors := Succ(adj, start);
      var i := 0;
      while i < |neighbors|
        invariant 0 <= i <= |neighbors|
        invariant Valid(adj)
        invariant path == old(path) + [start] && stack == old(stack) + {start}
        invariant old(visited) + {start} <= visited
        invariant forall k :: 0 <= k < i ==> neighbors[k] in visited - stack
      {
        var neighbor := neighbors[i];
        SuccInNodes(adj, start, neighbor);
        assert Last(path) == start;
        var descend := neighbor !in visited;
        var r := false;
        if descend {
          r := HasCycle(adj, neighbor);
        }
        if descend && r {
          PrependReachesCycle(adj, start, neighbor);
          return true;
        } else if neighbor in stack {
          BackEdgeReachesCycle(adj, old(path), start, neighbor);
          return true;
        }
        i := i + 1;
      }
      SearchPop(adj, visited, old(stack), old(path), finished, start);
      stack := stack - {start};
      path := DropLast(path);
      assert stack == old(stack) && path == old(path);
      finished := finished + [start];
      return false;
    }
  }

  /** An edge into a node that reaches a cycle. */
  lemma PrependReachesCycle(adj: map<int, seq<int>>, x: int, d: int)
    requires d in Succ(adj, x) && ReachesCycle(adj, d)
    ensures ReachesCycle(adj, x)
  {
    var p :| IsWalk(adj, p) && |p| >= 2 && p[0] == d && Last(p) in DropLast(p);
    var q := [x] + p;
    assert IsWalk(adj, q) by {
      forall i | 0 <= i < |q| - 1 ensures q[i + 1] in Succ(adj, q[i]) {
        if i > 0 {
          assert q[i] == p[i - 1] && q[i + 1] == p[i];
        }
      }
    }
    assert Last(q) in DropLast(q) by {
      assert Last(q) == Last(p) && DropLast(q) == [x] + DropLast(p);
    }
    assert q[0] == x && |q| >= 2;
  }

  /** An edge from the top of the stack back to a node on it closes a cycle through the top. */
  lemma BackEdgeReachesCycle(adj: map<int, seq<int>>, below: seq<int>, x: int, d: int)
    requires IsWalk(adj, below + [x])
    requires d in below + [x] && d in Succ(adj, x)
    ensures ReachesCycle(adj, x)
  {
    var p := below + [x];
    var j := IndexOf(p, d);
    var t := p[j..];
    assert IsWalk(adj, t) by {
      WalkSlice(adj, p, j, |p|);
    }
    var q := [x] + t;
    assert IsWalk(adj, q) by {
      forall i | 0 <= i < |q| - 1 ensures q[i + 1] in Succ(adj, q[i]) {
        if i > 0 {
          assert q[i] == t[i - 1] && q[i + 1] == t[i];
        }
      }
    }
    assert Last(q) in DropLast(q) by {
      assert Last(q) == Last(p) == x == q[0];
    }
    assert q[0] == x && |q| >= 2;
  }

  /** `hasCycle(graph, start, new Set(), new Set())`: true exactly when a cycle is reachable
      from `start`. */
  method HasCycleFrom(adj: map<int, seq<int>>, start: int) returns (found: bool)
    ensures found <==> ReachesCycle(adj, start)
  {
    var search := new CycleSearch();
    found := search.HasCycle(adj, start);
    if !found {
      assert start in ToSet(search.finished);
      FinishedReachesNoCycle(adj, search.finished, start);
    }
  }

  /** A node with no entry in the graph has no successors, so no cycle is reachable from it. */
  lemma NoEntryNoCycle(adj: map<int, seq<int>>, start: int)
    requires start !in adj
    ensures !ReachesCycle(adj, start)
  {
    forall p | IsWalk(adj, p) && |p| >= 2 ensures p[0] != start {
      assert p[1] in Succ(adj, p[0]);
    }
  }
}
