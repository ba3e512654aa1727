/** The dependency resolver of the container: it refuses a dependency on a name nobody
    provides, refuses a dependency cycle (found by a depth-first search over the shared
    `visited`, `inStack` and `stack` fields), and otherwise orders the functions with a
    Kahn-style queue that is stably re-sorted by a weight table after every step.

    The functional part of this module (`InDegreeOf`, `ReleaseUpTo`, `Step`, `KahnLoop`,
    `KahnOrder`) is the specification the class's methods are proved against; the
    properties of that specification are proved in module `ResolverProofs`. */
module Resolver {
  import opened Common
  import opened JsStrings
  import opened Graph

  /** A function's name and the type names it depends on. */
  datatype TypeDependencies = TypeDependencies(name: string, dependencies: seq<string>)

  /** The two errors `sortFunctions` throws. */
  datatype ResolveError =
    | UnresolvedDependency(owner: string, missing: string)
    | CircularDependency(path: seq<string>)

  /** The text of the thrown `Error`. */
  function Message(e: ResolveError): (m: string)
    ensures e.CircularDependency? ==> StartsWith(m, "Circular dependency detected: ")
    ensures e.UnresolvedDependency? ==> StartsWith(m, "Function ")
  {
    match e
    case UnresolvedDependency(f, d) =>
      "Function " + f + " cannot be resolved because it depends on " + d + " which is not defined."
    case CircularDependency(p) => "Circular dependency detected: " + Join(p, " -> ")
  }

  function NameSet(fs: seq<TypeDependencies>): set<string> {
    set k | 0 <= k < |fs| :: fs[k].name
  }

  /** Names are unique: the property under which the resolver's order is a permutation. */
  predicate UniqueNames(fs: seq<TypeDependencies>) {
    forall i, j :: 0 <= i < j < |fs| ==> fs[i].name != fs[j].name
  }

  /** Every dependency names one of the functions. */
  predicate AllDefined(fs: seq<TypeDependencies>) {
    forall k, j :: 0 <= k < |fs| && 0 <= j < |fs[k].dependencies| ==> fs[k].dependencies[j] in NameSet(fs)
  }

  /** Dependency `j` of function `k` is missing, and it is the first missing one in list order
      and then dependency order. */
  predicate FirstMissing(fs: seq<TypeDependencies>, k: int, j: int) {
    && 0 <= k < |fs| && 0 <= j < |fs[k].dependencies|
    && fs[k].dependencies[j] !in NameSet(fs)
    && (forall k', j' :: 0 <= k' < k && 0 <= j' < |fs[k'].dependencies| ==> fs[k'].dependencies[j'] in NameSet(fs))
    && (forall j' :: 0 <= j' < j ==> fs[k].dependencies[j'] in NameSet(fs))
  }

  ghost predicate IsFirstMissing(fs: seq<TypeDependencies>, e: ResolveError) {
    exists k, j :: FirstMissing(fs, k, j) && e == UnresolvedDependency(fs[k].name, fs[k].dependencies[j])
  }

  // ---------------------------------------------------------------------------
  // The weight table of `getInDegree`.

  /** `w[x] || 0`. */
  function Get(w: map<string, nat>, x: string): nat {
    if x in w then w[x] else 0
  }

  /** The comparator key of `queue.sort((a, b) => inDegree[a] - inDegree[b])`. */
  function Weight(w: map<string, nat>): string -> int {
    x => Get(w, x)
  }

  /** Adds one to the entry of every dependency in turn. */
  function Bump(w: map<string, nat>, deps: seq<string>): map<string, nat> {
    if deps == [] then w
    else
      var v := Bump(w, DropLast(deps));
      v[Last(deps) := Get(v, Last(deps)) + 1]
  }

  /** The table `getInDegree` builds: for each function in turn, its own entry is reset to 0
      and then every one of its dependencies is counted. */
  function InDegreeOf(fs: seq<TypeDependencies>): map<string, nat> {
    if fs == [] then map[]
    else
      var f := Last(fs);
      Bump(InDegreeOf(DropLast(fs))[f.name := 0], f.dependencies)
  }

  /** The adjacency map of `findCircularDependency`: a later function with the same name
      overwrites an earlier one. */
  function AdjOf(fs: seq<TypeDependencies>): (adj: map<string, seq<string>>)
    ensures adj.Keys == NameSet(fs)
  {
    if fs == [] then map[]
    else
      var f := Last(fs);
      var adj := AdjOf(DropLast(fs));
      assert NameSet(fs) == NameSet(DropLast(fs)) + {f.name} by {
        forall x | x in NameSet(fs) ensures x in NameSet(DropLast(fs)) + {f.name} {
          var k :| 0 <= k < |fs| && fs[k].name == x;
          if k < |fs| - 1 {
            assert DropLast(fs)[k] == fs[k];
          }
        }
        forall x | x in NameSet(DropLast(fs)) ensures x in NameSet(fs) {
          var k :| 0 <= k < |fs| - 1 && DropLast(fs)[k].name == x;
          assert fs[k] == DropLast(fs)[k];
        }
      }
      adj[f.name := f.dependencies]
  }

  // ---------------------------------------------------------------------------
  // The ordering queue of `sortFunctions`.

  /** The names of functions without dependencies, in list order: the initial queue. */
  function InitialQueue(fs: seq<TypeDependencies>): (q: seq<string>)
    ensures |q| <= |fs|
    ensures forall i :: 0 <= i < |q| ==> q[i] in NameSet(fs)
  {
    if fs == [] then []
    else
      var p := DropLast(fs);
      var f := Last(fs);
      assert forall k :: 0 <= k < |p| ==> p[k] == fs[k];
      assert fs[|fs| - 1] == f;
      if f.dependencies == [] then InitialQueue(p) + [f.name] else InitialQueue(p)
  }

  /** The state after the `forEach` that follows the output of `node` has visited the first
      `i` functions: the functions seen so far, with `node` filtered out of the
      dependencies that held it, the names pushed onto the queue, and the resolved set. */
  datatype Release = Release(done: seq<TypeDependencies>, pushed: seq<string>, resolved: set<string>)

  /** A function after the release of `node`: `node` filtered out of its dependencies when
      it lists `node`, unchanged otherwise. */
  function Released(f: TypeDependencies, node: string): (g: TypeDependencies)
    ensures g.name == f.name
    ensures node in f.dependencies ==> |g.dependencies| == |f.dependencies| - Count(f.dependencies, node)
    ensures node !in f.dependencies ==> g == f
  {
    if node in f.dependencies then f.(dependencies := RemoveAll(f.dependencies, node)) else f
  }

  function ReleaseUpTo(fs: seq<TypeDependencies>, node: string, resolved: set<string>, i: nat): (r: Release)
    requires i <= |fs|
    ensures |r.done| == i
  {
    if i == 0 then Release([], [], resolved)
    else
      var r := ReleaseUpTo(fs, node, resolved, i - 1);
      var f := fs[i - 1];
      var g := Released(f, node);
      if node in f.dependencies && f.name !in r.resolved && g.dependencies == [] then
        Release(r.done + [g], r.pushed + [f.name], r.resolved + {f.name})
      else
        Release(r.done + [g], r.pushed, r.resolved)
  }

  /** A release changes every function as `Released` says. */
  lemma {:induction false} ReleaseDone(fs: seq<TypeDependencies>, node: string, resolved: set<string>, i: nat)
    requires i <= |fs|
    ensures forall k :: 0 <= k < i ==> ReleaseUpTo(fs, node, resolved, i).done[k] == Released(fs[k], node)
  {
    if i > 0 {
      ReleaseDone(fs, node, resolved, i - 1);
      var p := ReleaseUpTo(fs, node, resolved, i - 1);
      var r := ReleaseUpTo(fs, node, resolved, i);
      assert r.done == p.done + [Released(fs[i - 1], node)];
    }
  }

  /** Each pushed name was unresolved and is pushed once; the resolved set grows by exactly
      the pushed names. */
  lemma {:induction false} ReleasePushed(fs: seq<TypeDependencies>, node: string, resolved: set<string>, i: nat)
    requires i <= |fs|
    ensures var r := ReleaseUpTo(fs, node, resolved, i);
      && r.resolved == resolved + ToSet(r.pushed)
      && Distinct(r.pushed)
      && (forall j :: 0 <= j < |r.pushed| ==> r.pushed[j] !in resolved)
  {
    if i > 0 {
      ReleasePushed(fs, node, resolved, i - 1);
      var p := ReleaseUpTo(fs, node, resolved, i - 1);
      var r := ReleaseUpTo(fs, node, resolved, i);
      if r.pushed != p.pushed {
        ToSetAppend(p.pushed, fs[i - 1].name);
      }
    }
  }

  /** `x` names a function, among the first `|done|`, whose dependency list held `node` and
      has become empty. */
  ghost predicate Waiting(fs: seq<TypeDependencies>, done: seq<TypeDependencies>, node: string, x: string) {
    exists k :: 0 <= k < |done| && k < |fs| && fs[k].name == x && node in fs[k].dependencies && done[k].dependencies == []
  }

  /** Each pushed name belongs to a function that was waiting only for `node`. */
  lemma {:induction false} ReleaseWitness(fs: seq<TypeDependencies>, node: string, resolved: set<string>, i: nat)
    requires i <= |fs|
    ensures forall x :: x in ReleaseUpTo(fs, node, resolved, i).pushed ==> Waiting(fs, ReleaseUpTo(fs, node, resolved, i).done, node, x)
  {
    if i > 0 {
      ReleaseWitness(fs, node, resolved, i - 1);
      var p := ReleaseUpTo(fs, node, resolved, i - 1);
      var r := ReleaseUpTo(fs, node, resolved, i);
      assert r.done == p.done + [Released(fs[i - 1], node)];
      forall x | x in r.pushed ensures Waiting(fs, r.done, node, x) {
        if x in p.pushed {
          assert Waiting(fs, p.done, node, x);
          var k :| 0 <= k < i - 1 && fs[k].name == x && node in fs[k].dependencies && p.done[k].dependencies == [];
          assert r.done[k] == p.done[k];
        } else {
          assert x == fs[i - 1].name && r.done[i - 1].dependencies == [];
          assert fs[i - 1].name == x && node in fs[i - 1].dependencies;
        }
      }
    }
  }

  /** Every function that was waiting only for `node` ends up resolved. */
  lemma {:induction false} ReleaseComplete(fs: seq<TypeDependencies>, node: string, resolved: set<string>, i: nat)
    requires i <= |fs|
    ensures var r := ReleaseUpTo(fs, node, resolved, i);
      forall k :: 0 <= k < i && node in fs[k].dependencies && r.done[k].dependencies == [] ==> fs[k].name in r.resolved
  {
    if i > 0 {
      ReleaseComplete(fs, node, resolved, i - 1);
      var p := ReleaseUpTo(fs, node, resolved, i - 1);
      var r := ReleaseUpTo(fs, node, resolved, i);
      assert p.resolved <= r.resolved;
      assert r.done == p.done + [Released(fs[i - 1], node)];
      assert forall k :: 0 <= k < i - 1 ==> r.done[k] == p.done[k];
    }
  }

  /** Position `j` of `done + fs[j..]`, where `done` has length `j`, holds `fs[j]`, and
      replacing it gives `done + [x] + fs[j + 1..]`. */
  lemma SpliceAt<T>(done: seq<T>, fs: seq<T>, j: nat)
    requires |done| == j < |fs|
    ensures (done + fs[j..])[j] == fs[j]
    ensures forall x :: (done + fs[j..])[j := x] == done + [x] + fs[j + 1..]
    ensures done + fs[j..] == done + [fs[j]] + fs[j + 1..]
  {
    forall x ensures (done + fs[j..])[j := x] == done + [x] + fs[j + 1..] {
      assert |(done + fs[j..])[j := x]| == |done + [x] + fs[j + 1..]|;
    }
    assert fs[j..] == [fs[j]] + fs[j + 1..];
  }

  /** The state of the ordering loop of `sortFunctions`. */
  datatype KahnState = KahnState(
    functions: seq<TypeDependencies>,
    queue: seq<string>,
    resolved: set<string>,
    sorted: seq<string>)

  /** Every resolved name leaves the unresolved part of the name set, and every queued name
      leaves the queue once: the loop's variant. */
  ghost function Measure(s: KahnState): nat {
    |NameSet(s.functions) - s.resolved| + |s.queue|
  }

  lemma NameSetSame(a: seq<TypeDependencies>, b: seq<TypeDependencies>)
    requires |a| == |b| && forall k :: 0 <= k < |a| ==> a[k].name == b[k].name
    ensures NameSet(a) == NameSet(b)
  {
  }

  /** The names a release pushes were unresolved names, each pushed once. */
  lemma ReleaseMeasure(fs: seq<TypeDependencies>, node: string, resolved: set<string>)
    ensures var rel := ReleaseUpTo(fs, node, resolved, |fs|);
      NameSet(rel.done) == NameSet(fs) && |NameSet(rel.done) - rel.resolved| + |rel.pushed| == |NameSet(fs) - resolved|
  {
    var rel := ReleaseUpTo(fs, node, resolved, |fs|);
    var u := NameSet(fs) - resolved;
    var p := ToSet(rel.pushed);
    assert NameSet(rel.done) == NameSet(fs) by {
      ReleaseDone(fs, node, resolved, |fs|);
      NameSetSame(rel.done, fs);
    }
    assert rel.resolved == resolved + p && |p| == |rel.pushed| by {
      ReleasePushed(fs, node, resolved, |fs|);
      DistinctCard(rel.pushed);
    }
    assert p <= u by {
      ReleasePushed(fs, node, resolved, |fs|);
      ReleaseWitness(fs, node, resolved, |fs|);
      forall x | x in p ensures x in u {
        assert Waiting(fs, rel.done, node, x);
        var j :| 0 <= j < |rel.pushed| && rel.pushed[j] == x;
      }
    }
    CardDiff(u, p);
    assert NameSet(fs) - rel.resolved == u - p;
  }

  /** One round of the `while (queue.length > 0)` loop: shift the head, output it, release
      the functions that were waiting only for it, and re-sort the queue by weight. */
  function Step(s: KahnState, w: map<string, nat>): (r: KahnState)
    requires s.queue != []
    ensures r.sorted == s.sorted + [s.queue[0]]
    ensures Measure(r) < Measure(s)
  {
    var node := s.queue[0];
    var rel := ReleaseUpTo(s.functions, node, s.resolved, |s.functions|);
    var r := KahnState(rel.done, StableSortBy(s.queue[1..] + rel.pushed, Weight(w)), rel.resolved, s.sorted + [node]);
    ReleaseMeasure(s.functions, node, s.resolved);
    r
  }

  /** Runs the ordering loop until the queue is empty. */
  function KahnLoop(s: KahnState, w: map<string, nat>): (r: KahnState)
    ensures r.queue == []
    decreases Measure(s)
  {
    if s.queue == [] then s else KahnLoop(Step(s, w), w)
  }

  /** Everything `sortFunctions` computes after its two checks: the initial queue sorted by
      the weights of `getInDegree`, then the ordering loop. */
  function KahnOrder(fs: seq<TypeDependencies>): KahnState {
    var w := InDegreeOf(fs);
    var q := InitialQueue(fs);
    KahnLoop(KahnState(fs, StableSortBy(q, Weight(w)), ToSet(q), []), w)
  }

  /** The cycle `findCircularDependency` reports: the searches from the functions, in list
      order, share one visited set, and the first one that reaches a node on its own stack
      reports that cycle. */
  ghost function FirstCycleFrom(adj: map<string, seq<string>>, fs: seq<TypeDependencies>, visited: set<string>)
    : Option<seq<string>>
    decreases |fs|
  {
    if fs == [] then None
    else
      var p := Dfs(adj, visited, [], fs[0].name);
      if p.cycle.Some? then p.cycle else FirstCycleFrom(adj, fs[1..], p.visited)
  }

  /** The searches from `fs[i..]`: the one from `fs[i]`, then, when it reports nothing, the
      rest with the visited set it leaves. */
  lemma FirstCycleStep(adj: map<string, seq<string>>, fs: seq<TypeDependencies>, i: nat, visited: set<string>)
    requires i < |fs|
    ensures var p := Dfs(adj, visited, [], fs[i].name);
      FirstCycleFrom(adj, fs[i..], visited) == if p.cycle.Some? then p.cycle else FirstCycleFrom(adj, fs[i + 1..], p.visited)
  {
    assert fs[i..][0] == fs[i] && fs[i..][1..] == fs[i + 1..];
  }

  ghost function FirstCycle(fs: seq<TypeDependencies>): Option<seq<string>> {
    FirstCycleFrom(AdjOf(fs), fs, {})
  }

  // ---------------------------------------------------------------------------
  // The class.

  class DependencyResolver {
    var functions: seq<TypeDependencies>
    var resolvedDependencies: set<string>
    var visited: set<string>
    var inStack: set<string>
    var stack: seq<string>
    /** The nodes the search has finished, in the order it finished them. */
    ghost var finished: seq<string>

    ghost predicate Fresh()
      reads this
    {
      resolvedDependencies == {} && visited == {} && inStack == {} && stack == [] && finished == []
    }

    /** The search state: the stack is a walk without repeated nodes that `inStack` mirrors,
        and every visited node that left the stack is finished, after all its successors. */
    ghost predicate DfsInv(adj: map<string, seq<string>>)
      reads this
    {
      SearchInv(adj, visited, inStack, stack, finished)
    }

    constructor(fs: seq<TypeDependencies>)
      ensures functions == fs && Fresh()
    {
      functions := fs;
      resolvedDependencies := {};
      visited := {};
      inStack := {};
      stack := [];
      finished := [];
    }

    /** `getInDegree`. */
    method GetInDegree() returns (w: map<string, nat>)
      ensures w == InDegreeOf(functions)
    {
      w := map[];
      var i := 0;
      while i < |functions|
        invariant 0 <= i <= |functions|
        invariant w == InDegreeOf(functions[..i])
      {
        var f := functions[i];
        PrefixStep(functions, i);
        w := w[f.name := 0];
        var j := 0;
        while j < |f.dependencies|
          invariant 0 <= j <= |f.dependencies|
          invariant w == Bump(InDegreeOf(functions[..i])[f.name := 0], f.dependencies[..j])
        {
          var dep := f.dependencies[j];
          PrefixStep(f.dependencies, j);
          w := w[dep := Get(w, dep) + 1];
          j := j + 1;
        }
        assert f.dependencies[..j] == f.dependencies;
        i := i + 1;
      }
      assert functions[..i] == functions;
    }

    /** `detectCycle`: a depth-first search from `node`, which is reached from the top of
        the stack. A found cycle runs from the first occurrence of the revisited node on the
        stack to the top and back; when none is found, the stack is as it was and `node`
        is finished. */
    method DetectCycle(node: string, adj: map<string, seq<string>>) returns (r: Option<seq<string>>)
      requires DfsInv(adj)
      requires stack == [] || node in Succ(adj, Last(stack))
      modifies this`visited, this`inStack, this`stack, this`finished
      decreases Nodes(adj) + {node} - visited
      ensures old(visited) <= visited
      ensures r.Some? ==> IsCycle(adj, r.value) && Distinct(DropLast(r.value))
      ensures r.None? ==> DfsInv(adj) && stack == old(stack) && inStack == old(inStack)
      ensures r.None? ==> node in visited && node !in inStack
      ensures r == Dfs(adj, old(visited), old(stack), node).cycle
      ensures r.None? ==> visited == Dfs(adj, old(visited), old(stack), node).visited
    {
      if node in inStack {
        StackCycle(adj, stack, node);
        DfsOnStack(adj, visited, stack, node);
        return Some(stack[IndexOf(stack, node)..] + [node]);
      }
      if node in visited {
        DfsVisited(adj, visited, stack, node);
        return None;
      }
      DfsEnter(adj, visited, stack, node);
      SearchPush(adj, visited, inStack, stack, finished, node);
      visited := visited + {node};
      inStack := inStack + {node};
      stack := stack + [node];
      var nbrs := Succ(adj, node);
      var k := 0;
      while k < |nbrs|
        invariant 0 <= k <= |nbrs|
        invariant DfsInv(adj)
        invariant stack == old(stack) + [node] && inStack == old(inStack) + {node}
        invariant old(visited) + {node} <= visited
        invariant forall j :: 0 <= j < k ==> nbrs[j] in visited - inStack
        invariant Dfs(adj, old(visited), old(stack), node) == DfsFrom(adj, visited, stack, nbrs, k)
      {
        SuccInNodes(adj, node, nbrs[k]);
        assert Last(stack) == node;
        ghost var before, path := visited, stack;
        var res := DetectCycle(nbrs[k], adj);
        if res.Some? {
          DfsFromFound(adj, before, path, nbrs, k);
          return res;
        }
        DfsFromNext(adj, before, stack, nbrs, k);
        k := k + 1;
      }
      DfsFromEnd(adj, visited, stack, nbrs);
      SearchPop(adj, visited, old(inStack), old(stack), finished, node);
      inStack := inStack - {node};
      stack := DropLast(stack);
      assert stack == old(stack) && inStack == old(inStack);
      finished := finished + [node];
      return None;
    }

    /** The `forEach` of `findCircularDependency` that fills `adjList`. */
    method AdjList() returns (adj: map<string, seq<string>>)
      ensures adj == AdjOf(functions)
    {
      adj := map[];
      var i := 0;
      while i < |functions|
        invariant 0 <= i <= |functions|
        invariant adj == AdjOf(functions[..i])
      {
        assert DropLast(functions[..i + 1]) == functions[..i];
        adj := adj[functions[i].name := functions[i].dependencies];
        i := i + 1;
      }
      assert functions[..i] == functions;
    }

    /** `findCircularDependency`: builds the adjacency map and searches from every function
        in list order. */
    method FindCircularDependency() returns (r: Option<seq<string>>)
      requires stack == [] && DfsInv(AdjOf(functions))
      modifies this`visited, this`inStack, this`stack, this`finished
      ensures r.Some? ==> IsCycle(AdjOf(functions), r.value) && Distinct(DropLast(r.value))
      ensures r.None? ==> Acyclic(AdjOf(functions))
      ensures r == FirstCycleFrom(AdjOf(functions), functions, old(visited))
    {
      var adj := AdjList();
      var i := 0;
      while i < |functions|
        invariant 0 <= i <= |functions|
        invariant stack == [] && DfsInv(adj)
        invariant forall j :: 0 <= j < i ==> functions[j].name in visited - inStack
        invariant FirstCycleFrom(adj, functions, old(visited)) == FirstCycleFrom(adj, functions[i..], visited)
      {
        FirstCycleStep(adj, functions, i, visited);
        var res := DetectCycle(functions[i].name, adj);
        if res.Some? {
          return res;
        }
        i := i + 1;
      }
      forall x | x in adj ensures x in finished {
        var j :| 0 <= j < |functions| && functions[j].name == x;
        assert x in ToSet(finished);
      }
      FinishOrderAcyclic(adj, finished);
      return None;
    }

    /** `checkMissingDependencies`: the first dependency, in list order and then dependency
        order, that no function provides. */
    method CheckMissingDependencies() returns (err: Option<ResolveError>)
      ensures err.None? <==> AllDefined(functions)
      ensures err.Some? ==> IsFirstMissing(functions, err.value)
    {
      var names := set f | f in functions :: f.name;
      assert names == NameSet(functions) by {
        forall x | x in names ensures x in NameSet(functions) {
          var f :| f in functions && f.name == x;
          var k :| 0 <= k < |functions| && functions[k] == f;
        }
      }
      var k := 0;
      while k < |functions|
        invariant 0 <= k <= |functions|
        invariant forall k', j' :: 0 <= k' < k && 0 <= j' < |functions[k'].dependencies| ==>
                    functions[k'].dependencies[j'] in names
      {
        var deps := functions[k].dependencies;
        var j := 0;
        while j < |deps|
          invariant 0 <= j <= |deps|
          invariant forall j' :: 0 <= j' < j ==> deps[j'] in names
        {
          if deps[j] !in names {
            assert FirstMissing(functions, k, j);
            return Some(UnresolvedDependency(functions[k].name, deps[j]));
          }
          j := j + 1;
        }
        k := k + 1;
      }
      return None;
    }

    /** `sortFunctions`: the missing-dependency check, then the cycle check, then the
        ordering loop, which empties every function's dependency list as it goes. */
    method SortFunctions() returns (r: Result<seq<string>, ResolveError>)
      requires Fresh()
      modifies this
      ensures !AllDefined(old(functions)) ==>
                r.Failure? && IsFirstMissing(old(functions), r.error) && functions == old(functions)
      ensures r.Failure? && r.error.CircularDependency? ==>
                AllDefined(old(functions)) && IsCycle(AdjOf(old(functions)), r.error.path)
                && Distinct(DropLast(r.error.path)) && functions == old(functions)
      ensures r.Failure? && r.error.CircularDependency? ==> FirstCycle(old(functions)) == Some(r.error.path)
      ensures r.Failure? && AllDefined(old(functions)) ==> r.error.CircularDependency?
      ensures r.Success? <==> AllDefined(old(functions)) && Acyclic(AdjOf(old(functions)))
      ensures r.Success? ==> r.value == KahnOrder(old(functions)).sorted
      ensures r.Success? ==> functions == KahnOrder(old(functions)).functions
    {
      var missing := CheckMissingDependencies();
      if missing.Some? {
        return Failure(missing.value);
      }
      var cycle := FindCircularDependency();
      if cycle.Some? {
        return Failure(CircularDependency(cycle.value));
      }
      var sorted := Order();
      return Success(sorted);
    }

    /** The ordering part of `sortFunctions`, after both checks have passed: the weights,
        the initial queue of functions without dependencies, and the loop that outputs the
        head of the queue and releases the functions waiting for it. */
    method Order() returns (sorted: seq<string>)
      requires resolvedDependencies == {}
      modifies this`functions, this`resolvedDependencies
      ensures sorted == KahnOrder(old(functions)).sorted
      ensures functions == KahnOrder(old(functions)).functions
    {
      var w := GetInDegree();
      ghost var fs0 := functions;
      sorted := [];
      var queue: seq<string> := [];
      var i := 0;
      while i < |functions|
        invariant 0 <= i <= |functions| && functions == fs0
        invariant queue == InitialQueue(functions[..i]) && resolvedDependencies == ToSet(queue)
      {
        PrefixStep(functions, i);
        if functions[i].dependencies == [] {
          ToSetAppend(queue, functions[i].name);
          queue := queue + [functions[i].name];
          resolvedDependencies := resolvedDependencies + {functions[i].name};
        }
        i := i + 1;
      }
      assert functions[..i] == functions;
      queue := StableSortBy(queue, Weight(w));
      while queue != []
        invariant KahnLoop(KahnState(functions, queue, resolvedDependencies, sorted), w) == KahnOrder(fs0)
        decreases Measure(KahnState(functions, queue, resolvedDependencies, sorted))
      {
        ghost var s := KahnState(functions, queue, resolvedDependencies, sorted);
        var node := queue[0];
        sorted := sorted + [node];
        queue := ReleaseDependents(node, queue[1..]);
        queue := StableSortBy(queue, Weight(w));
        assert KahnState(functions, queue, resolvedDependencies, sorted) == Step(s, w);
      }
    }

    /** The `forEach` after a node is output: every function that lists `node` loses it, and
        one that thereby has no dependency left and is not yet resolved is queued. */
    method ReleaseDependents(node: string, queue: seq<string>) returns (q: seq<string>)
      modifies this`functions, this`resolvedDependencies
      ensures var rel := ReleaseUpTo(old(functions), node, old(resolvedDependencies), |old(functions)|);
        functions == rel.done && q == queue + rel.pushed && resolvedDependencies == rel.resolved
    {
      ghost var fs0 := functions;
      ghost var res0 := resolvedDependencies;
      q := queue;
      var j := 0;
      while j < |functions|
        invariant 0 <= j <= |fs0| && |functions| == |fs0|
        invariant Releasing(fs0, node, res0, j, queue, q)
      {
        q := ReleaseAt(node, j, q, queue, fs0, res0);
        j := j + 1;
      }
      assert fs0[j..] == [];
    }

    /** The state after the callback has run on the first `j` functions. */
    ghost predicate Releasing(fs0: seq<TypeDependencies>, node: string, res0: set<string>, j: nat,
                              queue: seq<string>, q: seq<string>)
      reads this
    {
      && j <= |fs0|
      && var rel := ReleaseUpTo(fs0, node, res0, j);
      && functions == rel.done + fs0[j..]
      && q == queue + rel.pushed
      && resolvedDependencies == rel.resolved
    }

    /** One call of the `forEach` callback, on the function at position `j`. */
    method ReleaseAt(node: string, j: nat, q0: seq<string>, ghost queue: seq<string>,
                     ghost fs0: seq<TypeDependencies>, ghost res0: set<string>) returns (q: seq<string>)
      requires j < |fs0| && Releasing(fs0, node, res0, j, queue, q0)
      modifies this`functions, this`resolvedDependencies
      ensures Releasing(fs0, node, res0, j + 1, queue, q)
    {
      ghost var before := ReleaseUpTo(fs0, node, res0, j);
      SpliceAt(before.done, fs0, j);
      q := q0;
      var f := functions[j];
      if node in f.dependencies {
        var nd := RemoveAll(f.dependencies, node);
        functions := functions[j := f.(dependencies := nd)];
        if f.name !in resolvedDependencies && nd == [] {
          q := q + [f.name];
          resolvedDependencies := resolvedDependencies + {f.name};
        }
      }
    }
  }
}
