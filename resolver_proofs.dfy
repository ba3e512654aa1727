/** What the ordering of `sortFunctions` guarantees, proved about its specification in
    module `Resolver`: the weight of a name, and, for unique names without a missing
    dependency or a cycle, an output that holds every name once, lists every dependency
    before the functions that need it, and leaves every dependency list empty. */
module ResolverProofs {
  import opened Common
  import opened Graph
  import opened Resolver

  // ---------------------------------------------------------------------------
  // Weights.

  /** Occurrences of `x` in all the dependency lists of `fs`, counting duplicates. */
  function DepCount(fs: seq<TypeDependencies>, x: string): nat {
    if fs == [] then 0 else DepCount(DropLast(fs), x) + Count(Last(fs).dependencies, x)
  }

  lemma {:induction false} DepCountAppend(a: seq<TypeDependencies>, b: seq<TypeDependencies>, x: string)
    ensures DepCount(a + b, x) == DepCount(a, x) + DepCount(b, x)
    decreases |b|
  {
    if b == [] {
      assert a + b == a;
    } else {
      assert DropLast(a + b) == a + DropLast(b);
      DepCountAppend(a, DropLast(b), x);
    }
  }

  /** The position of the last function named `x`. */
  function LastNamed(fs: seq<TypeDependencies>, x: string): (r: Option<nat>)
    ensures r.Some? ==> r.value < |fs| && fs[r.value].name == x
    ensures r.Some? ==> forall k :: r.value < k < |fs| ==> fs[k].name != x
    ensures r.None? ==> forall k :: 0 <= k < |fs| ==> fs[k].name != x
  {
    if fs == [] then None
    else if Last(fs).name == x then Some(|fs| - 1)
    else LastNamed(DropLast(fs), x)
  }

  /** The weight a name is given: its occurrences in the dependency lists of the functions
      from its own (last) position on, or in all of them when no function carries it. */
  function ExpectedWeight(fs: seq<TypeDependencies>, x: string): nat {
    match LastNamed(fs, x)
    case None => DepCount(fs, x)
    case Some(p) => DepCount(fs[p..], x)
  }

  lemma {:induction false} BumpGet(w: map<string, nat>, deps: seq<string>, x: string)
    ensures Get(Bump(w, deps), x) == Get(w, x) + Count(deps, x)
  {
    if deps != [] {
      BumpGet(w, DropLast(deps), x);
    }
  }

  /** The weight table `getInDegree` builds holds, for every name, the number of its
      occurrences in the dependency lists at or after the position of the function that
      carries it: the reset to 0 discards the occurrences before it. */
  lemma {:induction false} InDegreeWeight(fs: seq<TypeDependencies>, x: string)
    ensures Get(InDegreeOf(fs), x) == ExpectedWeight(fs, x)
  {
    if fs != [] {
      var p, f := DropLast(fs), Last(fs);
      InDegreeWeight(p, x);
      BumpGet(InDegreeOf(p)[f.name := 0], f.dependencies, x);
      assert fs == p + [f];
      assert DepCount([f], x) == Count(f.dependencies, x) by {
        assert DropLast([f]) == [];
      }
      if f.name == x {
        assert fs[|fs| - 1..] == [f];
      } else {
        match LastNamed(p, x)
        case None =>
          DepCountAppend(p, [f], x);
        case Some(q) =>
          assert fs[q..] == p[q..] + [f];
          DepCountAppend(p[q..], [f], x);
      }
    }
  }

  /** With unique names, a name's weight counts the references from its own function and
      the ones listed after it. */
  lemma WeightOfName(fs: seq<TypeDependencies>, k: nat)
    requires UniqueNames(fs) && k < |fs|
    ensures Get(InDegreeOf(fs), fs[k].name) == DepCount(fs[k..], fs[k].name)
  {
    InDegreeWeight(fs, fs[k].name);
  }

  /** One function more: its own entry restarts from 0, then its dependencies count. */
  lemma InDegreeStep(fs: seq<TypeDependencies>, x: string)
    requires fs != []
    ensures Get(InDegreeOf(fs), x) ==
      (if Last(fs).name == x then 0 else Get(InDegreeOf(DropLast(fs)), x)) + Count(Last(fs).dependencies, x)
  {
    BumpGet(InDegreeOf(DropLast(fs))[Last(fs).name := 0], Last(fs).dependencies, x);
  }

  // ---------------------------------------------------------------------------
  // Functions without dependencies keep their list order.

  /** A release of a name nobody lists changes nothing. */
  lemma {:induction false} ReleaseNone(fs: seq<TypeDependencies>, node: string, resolved: set<string>, i: nat)
    requires i <= |fs| && forall k :: 0 <= k < i ==> node !in fs[k].dependencies
    ensures ReleaseUpTo(fs, node, resolved, i) == Release(fs[..i], [], resolved)
  {
    if i > 0 {
      ReleaseNone(fs, node, resolved, i - 1);
      assert fs[..i] == fs[..i - 1] + [fs[i - 1]];
    }
  }

  lemma {:induction false} InitialQueueAll(fs: seq<TypeDependencies>)
    requires forall k :: 0 <= k < |fs| ==> fs[k].dependencies == []
    ensures InitialQueue(fs) == NamesOf(fs)
  {
    if fs != [] {
      var p := DropLast(fs);
      assert forall k :: 0 <= k < |p| ==> p[k] == fs[k];
      InitialQueueAll(p);
      assert Last(fs) == fs[|fs| - 1];
    }
  }

  lemma {:induction false} WeightsZero(fs: seq<TypeDependencies>, x: string)
    requires forall k :: 0 <= k < |fs| ==> fs[k].dependencies == []
    ensures Get(InDegreeOf(fs), x) == 0
  {
    if fs != [] {
      var p := DropLast(fs);
      assert forall k :: 0 <= k < |p| ==> p[k] == fs[k];
      WeightsZero(p, x);
      InDegreeStep(fs, x);
      assert Last(fs) == fs[|fs| - 1];
    }
  }

  /** A step without any dependency only moves the head of a queue in weight order. */
  lemma StepNoDeps(s: KahnState, w: map<string, nat>)
    requires forall k :: 0 <= k < |s.functions| ==> s.functions[k].dependencies == []
    requires SortedBy(s.queue, Weight(w)) && s.queue != []
    ensures Step(s, w).functions == s.functions && Step(s, w).queue == s.queue[1..]
  {
    ReleaseNone(s.functions, s.queue[0], s.resolved, |s.functions|);
    assert s.functions[..|s.functions|] == s.functions;
    assert s.queue[1..] + [] == s.queue[1..];
    SortedTail(s.queue, Weight(w));
    StableSortSorted(s.queue[1..], Weight(w));
  }

  /** One round of the loop, unfolded. */
  lemma LoopUnfold(s: KahnState, w: map<string, nat>)
    requires s.queue != []
    ensures KahnLoop(s, w) == KahnLoop(Step(s, w), w)
  {
  }

  /** Without any dependency, the loop outputs a queue that is already in weight order
      as it stands. */
  lemma {:induction false} LoopNoDeps(s: KahnState, w: map<string, nat>)
    requires forall k :: 0 <= k < |s.functions| ==> s.functions[k].dependencies == []
    requires SortedBy(s.queue, Weight(w))
    ensures KahnLoop(s, w).sorted == s.sorted + s.queue
    decreases Measure(s)
  {
    if s.queue != [] {
      var t := Step(s, w);
      assert t.functions == s.functions && t.queue == s.queue[1..] && SortedBy(t.queue, Weight(w)) by {
        StepNoDeps(s, w);
        SortedTail(s.queue, Weight(w));
      }
      LoopNoDeps(t, w);
      assert KahnLoop(s, w) == KahnLoop(t, w) by {
        LoopUnfold(s, w);
      }
      MoveHead(s.sorted, s.queue);
    }
  }

  /** Functions without dependencies come out in their list order. */
  lemma KahnNoDeps(fs: seq<TypeDependencies>)
    requires forall k :: 0 <= k < |fs| ==> fs[k].dependencies == []
    ensures KahnOrder(fs).sorted == NamesOf(fs)
  {
    var w := InDegreeOf(fs);
    InitialQueueAll(fs);
    var q := NamesOf(fs);
    forall x ensures Weight(w)(x) == 0 {
      WeightsZero(fs, x);
    }
    assert SortedBy(q, Weight(w));
    StableSortSorted(q, Weight(w));
    LoopNoDeps(KahnState(fs, q, ToSet(q), []), w);
    assert [] + q == q;
  }

  // ---------------------------------------------------------------------------
  // Facts about the pieces, for unique names.

  lemma {:induction false} AdjOfUnique(fs: seq<TypeDependencies>, k: nat)
    requires UniqueNames(fs) && k < |fs|
    ensures AdjOf(fs)[fs[k].name] == fs[k].dependencies
  {
    if k < |fs| - 1 {
      var p := DropLast(fs);
      assert p[k] == fs[k];
      assert UniqueNames(p);
      AdjOfUnique(p, k);
    }
  }

  lemma {:induction false} InitialQueueMem(fs: seq<TypeDependencies>, k: nat)
    requires UniqueNames(fs) && k < |fs|
    ensures fs[k].name in InitialQueue(fs) <==> fs[k].dependencies == []
  {
    var p, f := DropLast(fs), Last(fs);
    assert forall i :: 0 <= i < |p| ==> p[i] == fs[i];
    assert UniqueNames(p);
    if k < |fs| - 1 {
      InitialQueueMem(p, k);
    }
    if k < |fs| - 1 || f.dependencies != [] {
      assert fs[k].name in InitialQueue(fs) <==> fs[k].name in InitialQueue(p);
      if k == |fs| - 1 {
        assert forall i :: 0 <= i < |InitialQueue(p)| ==> InitialQueue(p)[i] != f.name by {
          forall i | 0 <= i < |InitialQueue(p)| ensures InitialQueue(p)[i] != f.name {
            var j :| 0 <= j < |p| && p[j].name == InitialQueue(p)[i];
          }
        }
      }
    }
  }

  lemma {:induction false} InitialQueueDistinct(fs: seq<TypeDependencies>)
    requires UniqueNames(fs)
    ensures Distinct(InitialQueue(fs))
  {
    if fs != [] {
      var p, f := DropLast(fs), Last(fs);
      assert forall i :: 0 <= i < |p| ==> p[i] == fs[i];
      assert UniqueNames(p);
      InitialQueueDistinct(p);
      if f.dependencies == [] {
        var q := InitialQueue(p);
        forall i | 0 <= i < |q| ensures q[i] != f.name {
          var j :| 0 <= j < |p| && p[j].name == q[i];
        }
        DistinctConcat(q, [f.name]);
      }
    }
  }

  // ---------------------------------------------------------------------------
  // The invariant of the ordering loop, relative to the input `fs0`, in six parts.

  /** The functions keep their names and positions. */
  ghost predicate KShape(fs0: seq<TypeDependencies>, s: KahnState) {
    |s.functions| == |fs0| && forall k :: 0 <= k < |fs0| ==> s.functions[k].name == fs0[k].name
  }

  /** Dependency `d` of function `k` of the input is not output yet. */
  ghost predicate Pending(fs0: seq<TypeDependencies>, sorted: seq<string>, k: int, d: string)
    requires 0 <= k < |fs0|
  {
    d in fs0[k].dependencies && d !in sorted
  }

  /** A dependency list holds the dependencies not yet output. */
  ghost predicate KDeps(fs0: seq<TypeDependencies>, s: KahnState)
    requires KShape(fs0, s)
  {
    forall k, d :: 0 <= k < |fs0| ==> (d in s.functions[k].dependencies <==> Pending(fs0, s.sorted, k, d))
  }

  /** Every name is output or queued at most once, and resolved means output or queued. */
  ghost predicate KQueue(fs0: seq<TypeDependencies>, s: KahnState) {
    && Distinct(s.sorted + s.queue)
    && s.resolved == ToSet(s.sorted) + ToSet(s.queue)
    && s.resolved <= NameSet(fs0)
  }

  /** Every output name comes after its dependencies. */
  ghost predicate KOrder(fs0: seq<TypeDependencies>, sorted: seq<string>) {
    forall i, k, d :: (0 <= i < |sorted| && 0 <= k < |fs0| && fs0[k].name == sorted[i]
      && d in fs0[k].dependencies) ==> d in sorted[..i]
  }

  /** A queued name waits for nothing. */
  ghost predicate KQueued(fs0: seq<TypeDependencies>, s: KahnState)
    requires KShape(fs0, s)
  {
    forall k :: 0 <= k < |fs0| && fs0[k].name in s.queue ==> s.functions[k].dependencies == []
  }

  /** An output name waits for nothing. */
  ghost predicate KDone(fs0: seq<TypeDependencies>, s: KahnState)
    requires KShape(fs0, s)
  {
    forall k :: 0 <= k < |fs0| && fs0[k].name in s.sorted ==> s.functions[k].dependencies == []
  }

  /** An unresolved name waits for something. */
  ghost predicate KWaiting(fs0: seq<TypeDependencies>, s: KahnState)
    requires KShape(fs0, s)
  {
    forall k :: 0 <= k < |fs0| && fs0[k].name !in s.resolved ==> s.functions[k].dependencies != []
  }

  ghost predicate KInv(fs0: seq<TypeDependencies>, s: KahnState) {
    && KShape(fs0, s) && KDeps(fs0, s) && KQueue(fs0, s) && KOrder(fs0, s.sorted)
    && KQueued(fs0, s) && KDone(fs0, s) && KWaiting(fs0, s)
  }

  lemma KInvInitQueue(fs: seq<TypeDependencies>, w: map<string, nat>)
    requires UniqueNames(fs)
    ensures var q := InitialQueue(fs);
      KQueue(fs, KahnState(fs, StableSortBy(q, Weight(w)), ToSet(q), []))
    ensures var q := InitialQueue(fs);
      forall k :: 0 <= k < |fs| ==> (fs[k].name in StableSortBy(q, Weight(w)) <==> fs[k].dependencies == [])
  {
    var q := InitialQueue(fs);
    var sq := StableSortBy(q, Weight(w));
    assert multiset(sq) == multiset(q) by {
      StableSortPerm(q, Weight(w));
    }
    assert Distinct([] + sq) by {
      InitialQueueDistinct(fs);
      DistinctPerm(q, sq);
      assert [] + sq == sq;
    }
    assert ToSet(sq) == ToSet(q) by {
      ToSetMultiset(q, sq);
    }
    assert ToSet([]) + ToSet(sq) == ToSet(q);
    forall k | 0 <= k < |fs| ensures fs[k].name in sq <==> fs[k].dependencies == [] {
      InitialQueueMem(fs, k);
      assert fs[k].name in sq <==> fs[k].name in multiset(sq);
      assert fs[k].name in q <==> fs[k].name in multiset(q);
    }
  }

  lemma KInvInit(fs: seq<TypeDependencies>, w: map<string, nat>)
    requires UniqueNames(fs)
    ensures var q := InitialQueue(fs);
      KInv(fs, KahnState(fs, StableSortBy(q, Weight(w)), ToSet(q), []))
  {
    var q := InitialQueue(fs);
    var s := KahnState(fs, StableSortBy(q, Weight(w)), ToSet(q), []);
    KInvInitQueue(fs, w);
    assert KShape(fs, s);
    assert KDeps(fs, s);
    assert KOrder(fs, s.sorted);
    assert KQueued(fs, s);
    assert KDone(fs, s);
    assert KWaiting(fs, s);
  }

  /** What one step does to each function, in the terms of the invariant. */
  lemma StepFacts(fs0: seq<TypeDependencies>, s: KahnState, w: map<string, nat>)
    requires KShape(fs0, s) && s.queue != []
    ensures var node := s.queue[0];
      var rel := ReleaseUpTo(s.functions, node, s.resolved, |s.functions|);
      && Step(s, w) == KahnState(rel.done, StableSortBy(s.queue[1..] + rel.pushed, Weight(w)), rel.resolved, s.sorted + [node])
      && KShape(fs0, Step(s, w))
      && (forall k :: 0 <= k < |fs0| ==>
            rel.done[k].dependencies == (if node in s.functions[k].dependencies
                                        then RemoveAll(s.functions[k].dependencies, node)
                                        else s.functions[k].dependencies))
  {
    ReleaseDone(s.functions, s.queue[0], s.resolved, |s.functions|);
  }

  lemma StepKeepsDeps(fs0: seq<TypeDependencies>, s: KahnState, w: map<string, nat>)
    requires KShape(fs0, s) && KDeps(fs0, s) && s.queue != []
    ensures KShape(fs0, Step(s, w)) && KDeps(fs0, Step(s, w))
  {
    StepFacts(fs0, s, w);
    var t := Step(s, w);
    var node := s.queue[0];
    var rel := ReleaseUpTo(s.functions, node, s.resolved, |s.functions|);
    forall k, d | 0 <= k < |fs0|
      ensures d in t.functions[k].dependencies <==> Pending(fs0, t.sorted, k, d)
    {
      RemoveAllMem(s.functions[k].dependencies, node, d);
      assert t.functions[k] == rel.done[k];
      assert d in t.sorted <==> d in s.sorted || d == node;
      assert d in s.functions[k].dependencies <==> Pending(fs0, s.sorted, k, d);
    }
  }

  /** The names a step pushes were unresolved names of functions that now wait for nothing. */
  lemma StepPushed(fs0: seq<TypeDependencies>, s: KahnState, w: map<string, nat>)
    requires KShape(fs0, s) && s.queue != []
    ensures var rel := ReleaseUpTo(s.functions, s.queue[0], s.resolved, |s.functions|);
      && rel.resolved == s.resolved + ToSet(rel.pushed)
      && Distinct(rel.pushed)
      && (forall j :: 0 <= j < |rel.pushed| ==> rel.pushed[j] !in s.resolved)
      && (forall x :: x in rel.pushed ==> x in NameSet(fs0))
      && (forall k :: 0 <= k < |fs0| && fs0[k].name in rel.pushed ==> UniqueNames(fs0) ==> rel.done[k].dependencies == [])
  {
    var node := s.queue[0];
    var rel := ReleaseUpTo(s.functions, node, s.resolved, |s.functions|);
    ReleasePushed(s.functions, node, s.resolved, |s.functions|);
    ReleaseWitness(s.functions, node, s.resolved, |s.functions|);
    forall x | x in rel.pushed ensures x in NameSet(fs0) {
      assert Waiting(s.functions, rel.done, node, x);
      var k :| 0 <= k < |rel.done| && k < |s.functions| && s.functions[k].name == x;
      assert fs0[k].name == x;
    }
    forall k | 0 <= k < |fs0| && fs0[k].name in rel.pushed && UniqueNames(fs0)
      ensures rel.done[k].dependencies == []
    {
      var x := fs0[k].name;
      assert Waiting(s.functions, rel.done, node, x);
      var k' :| 0 <= k' < |rel.done| && k' < |s.functions| && s.functions[k'].name == x
               && node in s.functions[k'].dependencies && rel.done[k'].dependencies == [];
      assert fs0[k'].name == x;
    }
  }

  /** Moving the head of the queue to the output and appending fresh names to the queue, in
      any order, keeps both free of repetitions and keeps what they hold together. */
  lemma ShiftAndPush(sorted: seq<string>, queue: seq<string>, pushed: seq<string>, resolved: set<string>, next: seq<string>)
    requires queue != []
    requires Distinct(sorted + queue) && resolved == ToSet(sorted) + ToSet(queue)
    requires Distinct(pushed) && forall j :: 0 <= j < |pushed| ==> pushed[j] !in resolved
    requires multiset(next) == multiset(queue[1..] + pushed)
    ensures Distinct(sorted + [queue[0]] + next)
    ensures resolved + ToSet(pushed) == ToSet(sorted + [queue[0]]) + ToSet(next)
  {
    var out := sorted + [queue[0]];
    var rest := queue[1..] + pushed;
    assert sorted + queue == out + queue[1..];
    forall i | 0 <= i < |pushed| ensures pushed[i] !in out + queue[1..] {
      assert pushed[i] !in resolved;
    }
    DistinctConcat(out + queue[1..], pushed);
    assert out + queue[1..] + pushed == out + rest;
    assert multiset(out + rest) == multiset(out + next);
    DistinctPerm(out + rest, out + next);
    ToSetMultiset(rest, next);
    assert queue == [queue[0]] + queue[1..];
  }

  lemma StepKeepsQueue(fs0: seq<TypeDependencies>, s: KahnState, w: map<string, nat>)
    requires KShape(fs0, s) && KQueue(fs0, s) && s.queue != []
    ensures KQueue(fs0, Step(s, w))
  {
    StepFacts(fs0, s, w);
    StepPushed(fs0, s, w);
    var rel := ReleaseUpTo(s.functions, s.queue[0], s.resolved, |s.functions|);
    var rest := s.queue[1..] + rel.pushed;
    StableSortPerm(rest, Weight(w));
    ShiftAndPush(s.sorted, s.queue, rel.pushed, s.resolved, StableSortBy(rest, Weight(w)));
  }

  lemma StepKeepsQueued(fs0: seq<TypeDependencies>, s: KahnState, w: map<string, nat>)
    requires UniqueNames(fs0) && KShape(fs0, s) && KQueued(fs0, s) && s.queue != []
    ensures KShape(fs0, Step(s, w)) && KQueued(fs0, Step(s, w))
  {
    StepFacts(fs0, s, w);
    StepPushed(fs0, s, w);
    var t := Step(s, w);
    var node := s.queue[0];
    var rel := ReleaseUpTo(s.functions, node, s.resolved, |s.functions|);
    var rest := s.queue[1..] + rel.pushed;
    StableSortByProps(rest, Weight(w));
    forall k | 0 <= k < |fs0| && fs0[k].name in t.queue ensures t.functions[k].dependencies == [] {
      var x := fs0[k].name;
      assert x in multiset(rest);
      if x in s.queue[1..] {
        assert x in s.queue;
        assert s.functions[k].dependencies == [];
      } else {
        assert x in rel.pushed;
      }
    }
  }

  lemma StepKeepsDone(fs0: seq<TypeDependencies>, s: KahnState, w: map<string, nat>)
    requires KShape(fs0, s) && KQueued(fs0, s) && KDone(fs0, s) && s.queue != []
    ensures KShape(fs0, Step(s, w)) && KDone(fs0, Step(s, w))
  {
    StepFacts(fs0, s, w);
    var t := Step(s, w);
    var node := s.queue[0];
    forall k | 0 <= k < |fs0| && fs0[k].name in t.sorted ensures t.functions[k].dependencies == [] {
      if fs0[k].name in s.sorted {
        assert s.functions[k].dependencies == [];
      } else {
        assert fs0[k].name == node && node in s.queue;
        assert s.functions[k].dependencies == [];
      }
    }
  }

  lemma StepKeepsOrder(fs0: seq<TypeDependencies>, s: KahnState, w: map<string, nat>)
    requires KShape(fs0, s) && KDeps(fs0, s) && KOrder(fs0, s.sorted) && KQueued(fs0, s) && s.queue != []
    ensures KOrder(fs0, Step(s, w).sorted)
  {
    var t := Step(s, w).sorted;
    var node := s.queue[0];
    forall i, k, d | 0 <= i < |t| && 0 <= k < |fs0| && fs0[k].name == t[i] && d in fs0[k].dependencies
      ensures d in t[..i]
    {
      if i < |s.sorted| {
        assert t[..i] == s.sorted[..i];
      } else {
        assert t[..i] == s.sorted;
        assert fs0[k].name == node && node in s.queue;
        assert d !in s.functions[k].dependencies;
      }
    }
  }

  lemma StepKeepsWaiting(fs0: seq<TypeDependencies>, s: KahnState, w: map<string, nat>)
    requires KShape(fs0, s) && KWaiting(fs0, s) && s.queue != []
    ensures KShape(fs0, Step(s, w)) && KWaiting(fs0, Step(s, w))
  {
    StepFacts(fs0, s, w);
    var node := s.queue[0];
    ReleaseComplete(s.functions, node, s.resolved, |s.functions|);
    ReleasePushed(s.functions, node, s.resolved, |s.functions|);
  }

  lemma StepKeepsKInv(fs0: seq<TypeDependencies>, s: KahnState, w: map<string, nat>)
    requires UniqueNames(fs0) && KInv(fs0, s) && s.queue != []
    ensures KInv(fs0, Step(s, w))
  {
    StepKeepsDeps(fs0, s, w);
    StepKeepsQueue(fs0, s, w);
    StepKeepsQueued(fs0, s, w);
    StepKeepsDone(fs0, s, w);
    StepKeepsOrder(fs0, s, w);
    StepKeepsWaiting(fs0, s, w);
  }

  lemma {:induction false} LoopKeepsKInv(fs0: seq<TypeDependencies>, s: KahnState, w: map<string, nat>)
    requires UniqueNames(fs0) && KInv(fs0, s)
    ensures KInv(fs0, KahnLoop(s, w))
    decreases Measure(s)
  {
    if s.queue != [] {
      StepKeepsKInv(fs0, s, w);
      LoopKeepsKInv(fs0, Step(s, w), w);
    }
  }

  /** Each name not yet output waits for another name not yet output. */
  lemma UnresolvedClosed(fs0: seq<TypeDependencies>, s: KahnState)
    requires UniqueNames(fs0) && AllDefined(fs0)
    requires KShape(fs0, s) && KDeps(fs0, s) && KWaiting(fs0, s) && s.resolved == ToSet(s.sorted)
    ensures Closed(AdjOf(fs0), NameSet(fs0) - ToSet(s.sorted))
  {
    var adj := AdjOf(fs0);
    var u := NameSet(fs0) - ToSet(s.sorted);
    forall y | y in u ensures exists d :: d in Succ(adj, y) && d in u {
      var k :| 0 <= k < |fs0| && fs0[k].name == y;
      var d := WaitedFor(fs0, s, k);
      AdjOfUnique(fs0, k);
      assert d in Succ(adj, y);
    }
  }

  /** A function whose name is not resolved lists a dependency that was not output yet. */
  lemma WaitedFor(fs0: seq<TypeDependencies>, s: KahnState, k: nat) returns (d: string)
    requires AllDefined(fs0)
    requires KShape(fs0, s) && KDeps(fs0, s) && KWaiting(fs0, s)
    requires k < |fs0| && fs0[k].name !in s.resolved
    ensures d in fs0[k].dependencies && d in NameSet(fs0) && d !in s.sorted
  {
    var deps := s.functions[k].dependencies;
    d := deps[0];
    assert d in deps;
    assert d in fs0[k].dependencies;
    var j :| 0 <= j < |fs0[k].dependencies| && fs0[k].dependencies[j] == d;
  }

  /** When the queue has run dry, every name without a missing dependency or a cycle has
      been output: the unresolved names would otherwise each wait for another unresolved
      name, which makes a cycle. */
  lemma DrainedIsComplete(fs0: seq<TypeDependencies>, s: KahnState)
    requires UniqueNames(fs0) && AllDefined(fs0) && Acyclic(AdjOf(fs0))
    requires KInv(fs0, s) && s.queue == []
    ensures ToSet(s.sorted) == NameSet(fs0)
  {
    var u := NameSet(fs0) - ToSet(s.sorted);
    assert s.sorted + s.queue == s.sorted;
    assert ToSet(s.sorted) <= NameSet(fs0);
    if u != {} {
      assert s.resolved == ToSet(s.sorted);
      UnresolvedClosed(fs0, s);
      var x :| x in u;
      var c := ClosedSetCycle(AdjOf(fs0), u, x);
    } else {
      forall x | x in NameSet(fs0) ensures x in ToSet(s.sorted) {
        assert x !in u;
      }
    }
  }

  function NamesOf(fs: seq<TypeDependencies>): (r: seq<string>)
    ensures |r| == |fs| && forall k :: 0 <= k < |fs| ==> r[k] == fs[k].name
  {
    if fs == [] then [] else NamesOf(DropLast(fs)) + [Last(fs).name]
  }

  /** Unique names make as many names as functions. */
  lemma NameCount(fs: seq<TypeDependencies>)
    requires UniqueNames(fs)
    ensures |NameSet(fs)| == |fs|
  {
    assert NameSet(fs) == ToSet(NamesOf(fs));
    DistinctCard(NamesOf(fs));
  }

  /** Once every name is output, no function waits for anything. */
  lemma DrainedEmpty(fs0: seq<TypeDependencies>, s: KahnState, k: nat)
    requires KShape(fs0, s) && KDone(fs0, s) && ToSet(s.sorted) == NameSet(fs0)
    requires k < |fs0|
    ensures s.functions[k].dependencies == []
  {
    assert fs0[k].name in NameSet(fs0);
    assert fs0[k].name in ToSet(s.sorted);
  }

  /** The ordering of `sortFunctions` for unique names, none of them missing and no cycle:
      it outputs every name exactly once, every dependency comes before every function that
      lists it, and every dependency list has been emptied, with names and order kept. */
  lemma KahnCorrect(fs: seq<TypeDependencies>)
    requires UniqueNames(fs) && AllDefined(fs) && Acyclic(AdjOf(fs))
    ensures var r := KahnOrder(fs);
      && Distinct(r.sorted)
      && ToSet(r.sorted) == NameSet(fs)
      && |r.sorted| == |fs|
      && KOrder(fs, r.sorted)
      && |r.functions| == |fs|
      && (forall k :: 0 <= k < |fs| ==> r.functions[k].name == fs[k].name && r.functions[k].dependencies == [])
  {
    KahnOutput(fs);
    KahnEmptied(fs);
  }

  /** The output of the ordering holds every name once, after its dependencies. */
  lemma KahnOutput(fs: seq<TypeDependencies>)
    requires UniqueNames(fs) && AllDefined(fs) && Acyclic(AdjOf(fs))
    ensures var r := KahnOrder(fs);
      Distinct(r.sorted) && ToSet(r.sorted) == NameSet(fs) && |r.sorted| == |fs| && KOrder(fs, r.sorted)
  {
    var r := KahnOrder(fs);
    assert KQueue(fs, r) && KOrder(fs, r.sorted) && ToSet(r.sorted) == NameSet(fs) by {
      KahnKeepsKInv(fs);
      DrainedIsComplete(fs, r);
    }
    assert Distinct(r.sorted) by {
      assert r.sorted + r.queue == r.sorted;
    }
    assert |r.sorted| == |fs| by {
      DistinctCard(r.sorted);
      NameCount(fs);
    }
  }

  /** The ordering keeps every function's name and empties its dependency list. */
  lemma KahnEmptied(fs: seq<TypeDependencies>)
    requires UniqueNames(fs) && AllDefined(fs) && Acyclic(AdjOf(fs))
    ensures var r := KahnOrder(fs);
      && |r.functions| == |fs|
      && (forall k :: 0 <= k < |fs| ==> r.functions[k].name == fs[k].name && r.functions[k].dependencies == [])
  {
    var r := KahnOrder(fs);
    KahnKeepsKInv(fs);
    DrainedIsComplete(fs, r);
    forall k | 0 <= k < |fs| ensures r.functions[k].dependencies == [] {
      DrainedEmpty(fs, r, k);
    }
  }

  /** The invariant holds when the ordering loop stops. */
  lemma KahnKeepsKInv(fs: seq<TypeDependencies>)
    requires UniqueNames(fs)
    ensures KInv(fs, KahnOrder(fs))
  {
    var w := InDegreeOf(fs);
    KInvInit(fs, w);
    var q := InitialQueue(fs);
    LoopKeepsKInv(fs, KahnState(fs, StableSortBy(q, Weight(w)), ToSet(q), []), w);
  }
}
