/** The orders and error messages of the resolver's test suite, derived from the model. */
module ResolverExamples {
  import opened Common
  import opened Graph
  import opened JsStrings
  import opened Resolver
  import opened ResolverProofs

  const A0 := TypeDependencies("A", [])
  const B0 := TypeDependencies("B", [])
  const C0 := TypeDependencies("C", [])
  const B1 := TypeDependencies("B", ["A"])
  const C1 := TypeDependencies("C", ["B"])

  /** A step, given its release and its re-sorted queue. */
  lemma StepIs(s: KahnState, w: map<string, nat>, rel: Release, q: seq<string>)
    requires s.queue != [] && rel == ReleaseUpTo(s.functions, s.queue[0], s.resolved, |s.functions|)
    requires q == StableSortBy(s.queue[1..] + rel.pushed, Weight(w))
    ensures Step(s, w) == KahnState(rel.done, q, rel.resolved, s.sorted + [s.queue[0]])
  {
  }

  /** Functions with the given names and no dependencies. */
  function Plain(names: seq<string>): (fs: seq<TypeDependencies>)
    ensures |fs| == |names|
    ensures forall k :: 0 <= k < |fs| ==> fs[k] == TypeDependencies(names[k], [])
  {
    if names == [] then [] else Plain(DropLast(names)) + [TypeDependencies(Last(names), [])]
  }

  /** Functions without dependencies come out in their list order, whatever their names. */
  lemma NoDependencies(names: seq<string>)
    ensures KahnOrder(Plain(names)).sorted == names
  {
    var fs := Plain(names);
    KahnNoDeps(fs);
    assert NamesOf(fs) == names;
  }

  lemma LinearStart()
    ensures InitialQueue([A0, B1, C1]) == ["A"]
  {
    assert DropLast([A0, B1, C1]) == [A0, B1];
    assert DropLast([A0, B1]) == [A0];
    assert InitialQueue([A0]) == ["A"];
    assert InitialQueue([A0, B1]) == ["A"];
  }

  /** A name of its own is already sorted. */
  lemma SortOne(x: string, w: map<string, nat>)
    ensures StableSortBy([x], Weight(w)) == [x]
  {
    assert DropLast([x]) == [];
  }

  lemma LinearRelease1()
    ensures ReleaseUpTo([A0, B1, C1], "A", {"A"}, 3) == Release([A0, B0, C1], ["B"], {"A", "B"})
  {
    var fs := [A0, B1, C1];
    assert RemoveAll(["A"], "A") == [];
    assert ReleaseUpTo(fs, "A", {"A"}, 1) == Release([A0], [], {"A"});
    assert ReleaseUpTo(fs, "A", {"A"}, 2) == Release([A0, B0], ["B"], {"A", "B"});
  }

  lemma LinearStep1(w: map<string, nat>)
    ensures Step(KahnState([A0, B1, C1], ["A"], {"A"}, []), w) == KahnState([A0, B0, C1], ["B"], {"A", "B"}, ["A"])
  {
    LinearRelease1();
    SortOne("B", w);
    assert ["A"][1..] + ["B"] == ["B"];
    StepIs(KahnState([A0, B1, C1], ["A"], {"A"}, []), w, Release([A0, B0, C1], ["B"], {"A", "B"}), ["B"]);
  }

  lemma LinearRelease2()
    ensures ReleaseUpTo([A0, B0, C1], "B", {"A", "B"}, 3) == Release([A0, B0, C0], ["C"], {"A", "B", "C"})
  {
    var fs := [A0, B0, C1];
    assert RemoveAll(["B"], "B") == [];
    assert ReleaseUpTo(fs, "B", {"A", "B"}, 1) == Release([A0], [], {"A", "B"});
    assert ReleaseUpTo(fs, "B", {"A", "B"}, 2) == Release([A0, B0], [], {"A", "B"});
    assert {"A", "B"} + {"C"} == {"A", "B", "C"};
  }

  lemma LinearStep2(w: map<string, nat>)
    ensures Step(KahnState([A0, B0, C1], ["B"], {"A", "B"}, ["A"]), w) == KahnState([A0, B0, C0], ["C"], {"A", "B", "C"}, ["A", "B"])
  {
    LinearRelease2();
    SortOne("C", w);
    assert ["B"][1..] + ["C"] == ["C"];
    StepIs(KahnState([A0, B0, C1], ["B"], {"A", "B"}, ["A"]), w, Release([A0, B0, C0], ["C"], {"A", "B", "C"}), ["C"]);
  }

  lemma LinearStep3(w: map<string, nat>)
    ensures Step(KahnState([A0, B0, C0], ["C"], {"A", "B", "C"}, ["A", "B"]), w).sorted == ["A", "B", "C"]
    ensures Step(KahnState([A0, B0, C0], ["C"], {"A", "B", "C"}, ["A", "B"]), w).queue == []
  {
    var fs := [A0, B0, C0];
    ReleaseNone(fs, "C", {"A", "B", "C"}, 3);
  }

  /** A run whose initial queue is one name starts from that name alone. */
  lemma KahnStart(fs: seq<TypeDependencies>, x: string)
    requires InitialQueue(fs) == [x]
    ensures KahnOrder(fs) == KahnLoop(KahnState(fs, [x], {x}, []), InDegreeOf(fs))
  {
    SortOne(x, InDegreeOf(fs));
    assert ToSet([x]) == {x};
  }

  /** A chain `C` needs `B` needs `A` comes out as `A`, `B`, `C`. */
  lemma Linear()
    ensures KahnOrder([A0, B1, C1]).sorted == ["A", "B", "C"]
  {
    var fs := [A0, B1, C1];
    var w := InDegreeOf(fs);
    LinearStart();
    var s0 := KahnState(fs, ["A"], {"A"}, []);
    KahnStart(fs, "A");
    var s1 := Step(s0, w);
    LinearStep1(w);
    LoopUnfold(s0, w);
    var s2 := Step(s1, w);
    LinearStep2(w);
    LoopUnfold(s1, w);
    var s3 := Step(s2, w);
    LinearStep3(w);
    LoopUnfold(s2, w);
  }

  // The diamond: `B` and `C` need `A`, `D` needs both.

  const Bd := TypeDependencies("B", ["A"])
  const Cd := TypeDependencies("C", ["A"])
  const Dd := TypeDependencies("D", ["B", "C"])
  const Dc := TypeDependencies("D", ["C"])
  const D0 := TypeDependencies("D", [])

  /** The weight of each name of the diamond: how many functions need it. */
  lemma DiamondWeights()
    ensures var w := InDegreeOf([A0, Bd, Cd, Dd]);
      Get(w, "A") == 2 && Get(w, "B") == 1 && Get(w, "C") == 1 && Get(w, "D") == 0
  {
    var fs := [A0, Bd, Cd, Dd];
    assert DropLast(fs) == [A0, Bd, Cd];
    assert DropLast([A0, Bd, Cd]) == [A0, Bd];
    assert DropLast([A0, Bd]) == [A0];
    assert DropLast([A0]) == [];
    forall x | x in {"A", "B", "C", "D"}
      ensures Get(InDegreeOf(fs), x) == Count(["B", "C"], x) + (if x == "D" then 0 else Get(InDegreeOf([A0, Bd, Cd]), x))
    {
      InDegreeStep(fs, x);
    }
    forall x | x in {"A", "B", "C", "D"}
      ensures Get(InDegreeOf([A0, Bd, Cd]), x) == Count(["A"], x) + (if x == "C" then 0 else Get(InDegreeOf([A0, Bd]), x))
    {
      InDegreeStep([A0, Bd, Cd], x);
    }
    forall x | x in {"A", "B", "C", "D"}
      ensures Get(InDegreeOf([A0, Bd]), x) == Count(["A"], x) + (if x == "B" then 0 else Get(InDegreeOf([A0]), x))
    {
      InDegreeStep([A0, Bd], x);
    }
    forall x | x in {"A", "B", "C", "D"}
      ensures Get(InDegreeOf([A0]), x) == 0
    {
      InDegreeStep([A0], x);
    }
  }

  lemma DiamondStart()
    ensures InitialQueue([A0, Bd, Cd, Dd]) == ["A"]
  {
    assert DropLast([A0, Bd, Cd, Dd]) == [A0, Bd, Cd];
    assert DropLast([A0, Bd, Cd]) == [A0, Bd];
    assert DropLast([A0, Bd]) == [A0];
    assert InitialQueue([A0]) == ["A"];
    assert InitialQueue([A0, Bd]) == ["A"];
    assert InitialQueue([A0, Bd, Cd]) == ["A"];
  }

  /** A step that leads to `t` lets the loop go on from `t`. */
  lemma LoopThrough(s: KahnState, w: map<string, nat>, t: KahnState)
    requires s.queue != [] && Step(s, w) == t
    ensures KahnLoop(s, w) == KahnLoop(t, w)
  {
  }

  /** Two names of equal weight keep their order. */
  lemma SortPair(x: string, y: string, w: map<string, nat>)
    requires Get(w, x) <= Get(w, y)
    ensures StableSortBy([x, y], Weight(w)) == [x, y]
  {
    StableSortSorted([x, y], Weight(w));
  }

  lemma DiamondRelease1()
    ensures ReleaseUpTo([A0, Bd, Cd, Dd], "A", {"A"}, 4) == Release([A0, B0, C0, Dd], ["B", "C"], {"A", "B", "C"})
  {
    var fs := [A0, Bd, Cd, Dd];
    assert RemoveAll(["A"], "A") == [];
    assert ReleaseUpTo(fs, "A", {"A"}, 1) == Release([A0], [], {"A"});
    assert ReleaseUpTo(fs, "A", {"A"}, 2) == Release([A0, B0], ["B"], {"A", "B"});
    assert {"A", "B"} + {"C"} == {"A", "B", "C"};
    assert ReleaseUpTo(fs, "A", {"A"}, 3) == Release([A0, B0, C0], ["B", "C"], {"A", "B", "C"});
  }

  lemma DiamondStep1(w: map<string, nat>)
    requires Get(w, "B") <= Get(w, "C")
    ensures Step(KahnState([A0, Bd, Cd, Dd], ["A"], {"A"}, []), w)
         == KahnState([A0, B0, C0, Dd], ["B", "C"], {"A", "B", "C"}, ["A"])
  {
    DiamondRelease1();
    SortPair("B", "C", w);
    StepIs(KahnState([A0, Bd, Cd, Dd], ["A"], {"A"}, []), w, Release([A0, B0, C0, Dd], ["B", "C"], {"A", "B", "C"}), ["B", "C"]);
  }

  lemma DiamondStep2(w: map<string, nat>)
    ensures Step(KahnState([A0, B0, C0, Dd], ["B", "C"], {"A", "B", "C"}, ["A"]), w)
         == KahnState([A0, B0, C0, Dc], ["C"], {"A", "B", "C"}, ["A", "B"])
  {
    var fs := [A0, B0, C0, Dd];
    var res := {"A", "B", "C"};
    assert RemoveAll(["B", "C"], "B") == ["C"];
    ReleaseNone(fs, "B", res, 3);
    assert fs[..3] == [A0, B0, C0];
    assert ReleaseUpTo(fs, "B", res, 4) == Release([A0, B0, C0, Dc], [], res);
    StepIs(KahnState(fs, ["B", "C"], res, ["A"]), w, Release([A0, B0, C0, Dc], [], res), ["C"]);
  }

  lemma DiamondStep3(w: map<string, nat>)
    ensures Step(KahnState([A0, B0, C0, Dc], ["C"], {"A", "B", "C"}, ["A", "B"]), w)
         == KahnState([A0, B0, C0, D0], ["D"], {"A", "B", "C", "D"}, ["A", "B", "C"])
  {
    DiamondRelease3();
    StepIs(KahnState([A0, B0, C0, Dc], ["C"], {"A", "B", "C"}, ["A", "B"]), w, Release([A0, B0, C0, D0], ["D"], {"A", "B", "C", "D"}), ["D"]);
  }

  lemma DiamondRelease3()
    ensures ReleaseUpTo([A0, B0, C0, Dc], "C", {"A", "B", "C"}, 4) == Release([A0, B0, C0, D0], ["D"], {"A", "B", "C", "D"})
  {
    var fs := [A0, B0, C0, Dc];
    var res := {"A", "B", "C"};
    assert RemoveAll(["C"], "C") == [];
    ReleaseNone(fs, "C", res, 3);
    assert fs[..3] == [A0, B0, C0];
    assert res + {"D"} == {"A", "B", "C", "D"};
  }

  lemma DiamondStep4(w: map<string, nat>)
    ensures Step(KahnState([A0, B0, C0, D0], ["D"], {"A", "B", "C", "D"}, ["A", "B", "C"]), w).sorted == ["A", "B", "C", "D"]
    ensures Step(KahnState([A0, B0, C0, D0], ["D"], {"A", "B", "C", "D"}, ["A", "B", "C"]), w).queue == []
  {
    ReleaseNone([A0, B0, C0, D0], "D", {"A", "B", "C", "D"}, 4);
  }

  /** The diamond comes out as `A`, `B`, `C`, `D`: `B` and `C` have the same weight, so the
      stable sort keeps them in list order. */
  lemma Diamond()
    ensures KahnOrder([A0, Bd, Cd, Dd]).sorted == ["A", "B", "C", "D"]
  {
    var fs := [A0, Bd, Cd, Dd];
    var w := InDegreeOf(fs);
    DiamondStart();
    DiamondWeights();
    var s0 := KahnState(fs, ["A"], {"A"}, []);
    KahnStart(fs, "A");
    var s1 := Step(s0, w);
    DiamondStep1(w);
    LoopUnfold(s0, w);
    var s2 := Step(s1, w);
    DiamondStep2(w);
    LoopUnfold(s1, w);
    var s3 := Step(s2, w);
    DiamondStep3(w);
    LoopUnfold(s2, w);
    var s4 := Step(s3, w);
    DiamondStep4(w);
    LoopUnfold(s3, w);
  }

  // The larger graph: `B` and `C` need `A`, `D` needs `B`, `E` needs `C`, `F` needs `D`
  // and `E`.

  const Db := TypeDependencies("D", ["B"])
  const Ec := TypeDependencies("E", ["C"])
  const E0 := TypeDependencies("E", [])
  const Fde := TypeDependencies("F", ["D", "E"])
  const Fe := TypeDependencies("F", ["E"])
  const F0 := TypeDependencies("F", [])

  /** `B`, `C`, `D` and `E` are each needed by one function. */
  lemma LayeredWeights()
    ensures var w := InDegreeOf([A0, Bd, Cd, Db, Ec, Fde]);
      Get(w, "B") == 1 && Get(w, "C") == 1 && Get(w, "D") == 1 && Get(w, "E") == 1
  {
    LayeredWeight("B");
    LayeredWeight("C");
    LayeredWeight("D");
    LayeredWeight("E");
  }

  lemma LayeredWeight(x: string)
    requires x == "B" || x == "C" || x == "D" || x == "E"
    ensures Get(InDegreeOf([A0, Bd, Cd, Db, Ec, Fde]), x) == 1
  {
    var f3, f4, f5 := [A0, Bd, Cd], [A0, Bd, Cd, Db], [A0, Bd, Cd, Db, Ec];
    var fs := [A0, Bd, Cd, Db, Ec, Fde];
    assert DropLast(fs) == f5 && DropLast(f5) == f4 && DropLast(f4) == f3;
    LayeredWeightHead(x);
    InDegreeStep(f4, x);
    InDegreeStep(f5, x);
    InDegreeStep(fs, x);
  }

  /** Among the first three functions, nobody needs `B`, `C`, `D` or `E`. */
  lemma LayeredWeightHead(x: string)
    requires x == "B" || x == "C" || x == "D" || x == "E"
    ensures Get(InDegreeOf([A0, Bd, Cd]), x) == 0
  {
    var f1, f2, f3 := [A0], [A0, Bd], [A0, Bd, Cd];
    assert DropLast(f3) == f2 && DropLast(f2) == f1 && DropLast(f1) == [];
    InDegreeStep(f1, x);
    InDegreeStep(f2, x);
    InDegreeStep(f3, x);
  }

  lemma LayeredStart()
    ensures InitialQueue([A0, Bd, Cd, Db, Ec, Fde]) == ["A"]
  {
    var f1, f2, f3, f4, f5 := [A0], [A0, Bd], [A0, Bd, Cd], [A0, Bd, Cd, Db], [A0, Bd, Cd, Db, Ec];
    var fs := [A0, Bd, Cd, Db, Ec, Fde];
    assert DropLast(fs) == f5 && DropLast(f5) == f4 && DropLast(f4) == f3;
    assert DropLast(f3) == f2 && DropLast(f2) == f1 && DropLast(f1) == [];
    assert InitialQueue(f1) == ["A"];
    assert InitialQueue(f2) == ["A"];
    assert InitialQueue(f3) == ["A"];
    assert InitialQueue(f4) == ["A"];
    assert InitialQueue(f5) == ["A"];
  }

  lemma LayeredRelease1()
    ensures ReleaseUpTo([A0, Bd, Cd, Db, Ec, Fde], "A", {"A"}, 6)
         == Release([A0, B0, C0, Db, Ec, Fde], ["B", "C"], {"A", "B", "C"})
  {
    var fs := [A0, Bd, Cd, Db, Ec, Fde];
    LayeredRelease1Head();
    assert ReleaseUpTo(fs, "A", {"A"}, 4) == Release([A0, B0, C0, Db], ["B", "C"], {"A", "B", "C"});
    assert ReleaseUpTo(fs, "A", {"A"}, 5) == Release([A0, B0, C0, Db, Ec], ["B", "C"], {"A", "B", "C"});
  }

  lemma LayeredRelease1Head()
    ensures ReleaseUpTo([A0, Bd, Cd, Db, Ec, Fde], "A", {"A"}, 3) == Release([A0, B0, C0], ["B", "C"], {"A", "B", "C"})
  {
    var fs := [A0, Bd, Cd, Db, Ec, Fde];
    assert RemoveAll(["A"], "A") == [];
    assert ReleaseUpTo(fs, "A", {"A"}, 1) == Release([A0], [], {"A"});
    assert ReleaseUpTo(fs, "A", {"A"}, 2) == Release([A0, B0], ["B"], {"A", "B"});
    assert {"A", "B"} + {"C"} == {"A", "B", "C"};
  }

  lemma LayeredRelease2()
    ensures ReleaseUpTo([A0, B0, C0, Db, Ec, Fde], "B", {"A", "B", "C"}, 6)
         == Release([A0, B0, C0, D0, Ec, Fde], ["D"], {"A", "B", "C", "D"})
  {
    var fs := [A0, B0, C0, Db, Ec, Fde];
    var res := {"A", "B", "C"};
    ReleaseNone(fs, "B", res, 3);
    assert fs[..3] == [A0, B0, C0];
    assert RemoveAll(["B"], "B") == [];
    assert res + {"D"} == {"A", "B", "C", "D"};
    assert ReleaseUpTo(fs, "B", res, 4) == Release([A0, B0, C0, D0], ["D"], {"A", "B", "C", "D"});
    assert ReleaseUpTo(fs, "B", res, 5) == Release([A0, B0, C0, D0, Ec], ["D"], {"A", "B", "C", "D"});
  }

  lemma LayeredRelease3()
    ensures ReleaseUpTo([A0, B0, C0, D0, Ec, Fde], "C", {"A", "B", "C", "D"}, 6)
         == Release([A0, B0, C0, D0, E0, Fde], ["E"], {"A", "B", "C", "D", "E"})
  {
    var fs := [A0, B0, C0, D0, Ec, Fde];
    var res := {"A", "B", "C", "D"};
    ReleaseNone(fs, "C", res, 4);
    assert fs[..4] == [A0, B0, C0, D0];
    assert RemoveAll(["C"], "C") == [];
    assert res + {"E"} == {"A", "B", "C", "D", "E"};
    assert ReleaseUpTo(fs, "C", res, 5) == Release([A0, B0, C0, D0, E0], ["E"], {"A", "B", "C", "D", "E"});
  }

  lemma LayeredRelease4()
    ensures ReleaseUpTo([A0, B0, C0, D0, E0, Fde], "D", {"A", "B", "C", "D", "E"}, 6)
         == Release([A0, B0, C0, D0, E0, Fe], [], {"A", "B", "C", "D", "E"})
  {
    var fs := [A0, B0, C0, D0, E0, Fde];
    var res := {"A", "B", "C", "D", "E"};
    ReleaseNone(fs, "D", res, 5);
    assert fs[..5] == [A0, B0, C0, D0, E0];
    assert RemoveAll(["D", "E"], "D") == ["E"];
  }

  lemma LayeredRelease5()
    ensures ReleaseUpTo([A0, B0, C0, D0, E0, Fe], "E", {"A", "B", "C", "D", "E"}, 6)
         == Release([A0, B0, C0, D0, E0, F0], ["F"], {"A", "B", "C", "D", "E", "F"})
  {
    var fs := [A0, B0, C0, D0, E0, Fe];
    var res := {"A", "B", "C", "D", "E"};
    ReleaseNone(fs, "E", res, 5);
    assert fs[..5] == [A0, B0, C0, D0, E0];
    assert RemoveAll(["E"], "E") == [];
    assert res + {"F"} == {"A", "B", "C", "D", "E", "F"};
  }

  lemma LayeredStep1(w: map<string, nat>)
    requires Get(w, "B") <= Get(w, "C")
    ensures Step(KahnState([A0, Bd, Cd, Db, Ec, Fde], ["A"], {"A"}, []), w)
         == KahnState([A0, B0, C0, Db, Ec, Fde], ["B", "C"], {"A", "B", "C"}, ["A"])
  {
    var t := KahnState([A0, B0, C0, Db, Ec, Fde], ["B", "C"], {"A", "B", "C"}, ["A"]);
    LayeredRelease1();
    SortPair("B", "C", w);
    StepIs(KahnState([A0, Bd, Cd, Db, Ec, Fde], ["A"], {"A"}, []), w, Release(t.functions, ["B", "C"], t.resolved), t.queue);
  }

  lemma LayeredStep2(w: map<string, nat>)
    requires Get(w, "C") <= Get(w, "D")
    ensures Step(KahnState([A0, B0, C0, Db, Ec, Fde], ["B", "C"], {"A", "B", "C"}, ["A"]), w)
         == KahnState([A0, B0, C0, D0, Ec, Fde], ["C", "D"], {"A", "B", "C", "D"}, ["A", "B"])
  {
    var t := KahnState([A0, B0, C0, D0, Ec, Fde], ["C", "D"], {"A", "B", "C", "D"}, ["A", "B"]);
    LayeredRelease2();
    SortPair("C", "D", w);
    StepIs(KahnState([A0, B0, C0, Db, Ec, Fde], ["B", "C"], {"A", "B", "C"}, ["A"]), w, Release(t.functions, ["D"], t.resolved), t.queue);
  }

  lemma LayeredStep3(w: map<string, nat>)
    requires Get(w, "D") <= Get(w, "E")
    ensures Step(KahnState([A0, B0, C0, D0, Ec, Fde], ["C", "D"], {"A", "B", "C", "D"}, ["A", "B"]), w)
         == KahnState([A0, B0, C0, D0, E0, Fde], ["D", "E"], {"A", "B", "C", "D", "E"}, ["A", "B", "C"])
  {
    var t := KahnState([A0, B0, C0, D0, E0, Fde], ["D", "E"], {"A", "B", "C", "D", "E"}, ["A", "B", "C"]);
    LayeredRelease3();
    SortPair("D", "E", w);
    StepIs(KahnState([A0, B0, C0, D0, Ec, Fde], ["C", "D"], {"A", "B", "C", "D"}, ["A", "B"]), w, Release(t.functions, ["E"], t.resolved), t.queue);
  }

  lemma LayeredStep4(w: map<string, nat>)
    ensures Step(KahnState([A0, B0, C0, D0, E0, Fde], ["D", "E"], {"A", "B", "C", "D", "E"}, ["A", "B", "C"]), w)
         == KahnState([A0, B0, C0, D0, E0, Fe], ["E"], {"A", "B", "C", "D", "E"}, ["A", "B", "C", "D"])
  {
    var t := KahnState([A0, B0, C0, D0, E0, Fe], ["E"], {"A", "B", "C", "D", "E"}, ["A", "B", "C", "D"]);
    LayeredRelease4();
    StepIs(KahnState([A0, B0, C0, D0, E0, Fde], ["D", "E"], {"A", "B", "C", "D", "E"}, ["A", "B", "C"]), w, Release(t.functions, [], t.resolved), t.queue);
  }

  lemma LayeredStep5(w: map<string, nat>)
    ensures Step(KahnState([A0, B0, C0, D0, E0, Fe], ["E"], {"A", "B", "C", "D", "E"}, ["A", "B", "C", "D"]), w)
         == KahnState([A0, B0, C0, D0, E0, F0], ["F"], {"A", "B", "C", "D", "E", "F"}, ["A", "B", "C", "D", "E"])
  {
    var t := KahnState([A0, B0, C0, D0, E0, F0], ["F"], {"A", "B", "C", "D", "E", "F"}, ["A", "B", "C", "D", "E"]);
    LayeredRelease5();
    StepIs(KahnState([A0, B0, C0, D0, E0, Fe], ["E"], {"A", "B", "C", "D", "E"}, ["A", "B", "C", "D"]), w, Release(t.functions, ["F"], t.resolved), t.queue);
  }

  lemma LayeredLast(w: map<string, nat>)
    ensures KahnLoop(KahnState([A0, B0, C0, D0, E0, F0], ["F"], {"A", "B", "C", "D", "E", "F"}, ["A", "B", "C", "D", "E"]), w).sorted == ["A", "B", "C", "D", "E", "F"]
  {
    var s5 := KahnState([A0, B0, C0, D0, E0, F0], ["F"], {"A", "B", "C", "D", "E", "F"}, ["A", "B", "C", "D", "E"]);
    ReleaseNone(s5.functions, "F", s5.resolved, 6);
    LoopUnfold(s5, w);
  }

  /** The ordering loop on the larger graph, under the weights that decide its sorts. */
  lemma LayeredLoop(w: map<string, nat>)
    requires Get(w, "B") <= Get(w, "C") && Get(w, "C") <= Get(w, "D") && Get(w, "D") <= Get(w, "E")
    ensures KahnLoop(KahnState([A0, Bd, Cd, Db, Ec, Fde], ["A"], {"A"}, []), w).sorted == ["A", "B", "C", "D", "E", "F"]
  {
    var s0 := KahnState([A0, Bd, Cd, Db, Ec, Fde], ["A"], {"A"}, []);
    var s1 := KahnState([A0, B0, C0, Db, Ec, Fde], ["B", "C"], {"A", "B", "C"}, ["A"]);
    var s2 := KahnState([A0, B0, C0, D0, Ec, Fde], ["C", "D"], {"A", "B", "C", "D"}, ["A", "B"]);
    var s3 := KahnState([A0, B0, C0, D0, E0, Fde], ["D", "E"], {"A", "B", "C", "D", "E"}, ["A", "B", "C"]);
    var s4 := KahnState([A0, B0, C0, D0, E0, Fe], ["E"], {"A", "B", "C", "D", "E"}, ["A", "B", "C", "D"]);
    var s5 := KahnState([A0, B0, C0, D0, E0, F0], ["F"], {"A", "B", "C", "D", "E", "F"}, ["A", "B", "C", "D", "E"]);
    LayeredStep1(w);
    LoopThrough(s0, w, s1);
    LayeredStep2(w);
    LoopThrough(s1, w, s2);
    LayeredStep3(w);
    LoopThrough(s2, w, s3);
    LayeredStep4(w);
    LoopThrough(s3, w, s4);
    LayeredStep5(w);
    LoopThrough(s4, w, s5);
    LayeredLast(w);
  }

  /** The larger graph comes out as `A` to `F`: the names of equal weight keep the order in
      which they were queued. */
  lemma Layered()
    ensures KahnOrder([A0, Bd, Cd, Db, Ec, Fde]).sorted == ["A", "B", "C", "D", "E", "F"]
  {
    var fs := [A0, Bd, Cd, Db, Ec, Fde];
    var w := InDegreeOf(fs);
    LayeredStart();
    LayeredWeights();
    KahnStart(fs, "A");
    LayeredLoop(w);
  }

  // The two errors.

  const Ax := TypeDependencies("A", ["X"])

  /** A function that depends on a name nobody provides is refused with an error that names
      both, in the order the message gives them. */
  lemma MissingDependency(e: ResolveError)
    requires IsFirstMissing([Ax], e)
    ensures e == UnresolvedDependency("A", "X")
  {
    var k, j :| FirstMissing([Ax], k, j) && e == UnresolvedDependency([Ax][k].name, [Ax][k].dependencies[j]);
    assert k == 0 && j == 0;
  }

  /** The list is refused for a missing dependency. */
  lemma MissingDependencyRefused()
    ensures !AllDefined([Ax])
  {
    assert NameSet([Ax]) == {"A"};
    assert [Ax][0].dependencies[0] !in NameSet([Ax]);
  }

  /** The message for that error is the one the test suite expects. */
  lemma MissingDependencyMessage()
    ensures Message(UnresolvedDependency("A", "X"))
            == "Function A cannot be resolved because it depends on X which is not defined."
  {
    MessageHead();
    MessageTail();
  }

  // The text is joined two literals at a time, so that each equality stays small.

  lemma MessageHead()
    ensures "Function " + "A" + " cannot be resolved because it depends on "
            == "Function A cannot be resolved because it depends on "
  {
    MessageA();
    MessageCannot();
  }

  lemma MessageA()
    ensures "Function " + "A" == "Function A"
  {
  }

  lemma MessageCannot()
    ensures "Function A" + " cannot be resolved because it depends on "
            == "Function A cannot be resolved because it depends on "
  {
    MessageMiddle();
    MessageResolved();
    MessageBecause();
    var a, b, c := "Function A", " cannot be resolved", " because it depends on ";
    assert a + (b + c) == (a + b) + c;
  }

  lemma MessageMiddle()
    ensures " cannot be resolved" + " because it depends on " == " cannot be resolved because it depends on "
  {
  }

  lemma MessageResolved()
    ensures "Function A" + " cannot be resolved" == "Function A cannot be resolved"
  {
  }

  lemma MessageBecause()
    ensures "Function A cannot be resolved" + " because it depends on "
            == "Function A cannot be resolved because it depends on "
  {
  }

  lemma MessageTail()
    ensures "Function A cannot be resolved because it depends on " + "X" + " which is not defined."
            == "Function A cannot be resolved because it depends on X which is not defined."
  {
    MessageX();
  }

  lemma MessageX()
    ensures "Function A cannot be resolved because it depends on " + "X"
            == "Function A cannot be resolved because it depends on X"
  {
  }


  /** The test's resolver refuses the list with exactly the message the test expects. */
  method MissingDependencyThrown() returns (r: Result<seq<string>, ResolveError>)
    ensures r == Failure(UnresolvedDependency("A", "X"))
    ensures Message(r.error) == "Function A cannot be resolved because it depends on X which is not defined."
  {
    var resolver := new DependencyResolver([Ax]);
    MissingDependencyRefused();
    r := resolver.SortFunctions();
    MissingDependency(r.error);
    MissingDependencyMessage();
  }

  const Ab := TypeDependencies("A", ["B"])
  const Bc := TypeDependencies("B", ["C"])
  const Ca := TypeDependencies("C", ["A"])

  /** `A -> B -> C -> A` is a cycle of the three functions, so the list is refused. */
  lemma CircularDependencyFound()
    ensures AllDefined([Ab, Bc, Ca])
    ensures IsCycle(AdjOf([Ab, Bc, Ca]), ["A", "B", "C", "A"])
    ensures !Acyclic(AdjOf([Ab, Bc, Ca]))
  {
    var fs := [Ab, Bc, Ca];
    assert fs[0].name == "A" && fs[1].name == "B" && fs[2].name == "C";
    assert NameSet(fs) == {"A", "B", "C"};
    assert UniqueNames(fs);
    var adj := AdjOf(fs);
    AdjOfUnique(fs, 0);
    AdjOfUnique(fs, 1);
    AdjOfUnique(fs, 2);
    var p := ["A", "B", "C", "A"];
    assert p[1] in Succ(adj, p[0]) && p[2] in Succ(adj, p[1]) && p[3] in Succ(adj, p[2]);
    assert IsCycle(adj, p);
  }

  /** The search starts at `A`, the first function, and follows `B` and `C` back to `A`,
      which is on its stack: it reports `A -> B -> C -> A`. */
  lemma CircularDependencyReported()
    ensures FirstCycle([Ab, Bc, Ca]) == Some(["A", "B", "C", "A"])
  {
    var adj := CycleAdj();
    CycleFromC(adj);
    CycleFromB(adj);
    CycleFromA(adj);
  }

  lemma CycleAdj() returns (adj: map<string, seq<string>>)
    ensures adj == AdjOf([Ab, Bc, Ca])
    ensures Succ(adj, "A") == ["B"] && Succ(adj, "B") == ["C"] && Succ(adj, "C") == ["A"]
  {
    var fs := [Ab, Bc, Ca];
    assert fs[0].name == "A" && fs[1].name == "B" && fs[2].name == "C";
    assert UniqueNames(fs);
    adj := AdjOf(fs);
    AdjOfUnique(fs, 0);
    AdjOfUnique(fs, 1);
    AdjOfUnique(fs, 2);
  }

  /** From `C`, with `A` and `B` on the stack, the search re-enters `A`. */
  lemma CycleFromC(adj: map<string, seq<string>>)
    requires Succ(adj, "C") == ["A"]
    ensures Dfs(adj, {"A", "B"}, ["A", "B"], "C").cycle == Some(["A", "B", "C", "A"])
  {
    var s3 := ["A", "B", "C"];
    assert IndexOf(s3, "A") == 0 && s3[0..] == s3;
    assert s3 + ["A"] == ["A", "B", "C", "A"];
    DfsOnStack(adj, {"A", "B", "C"}, s3, "A");
    DfsEnter(adj, {"A", "B"}, ["A", "B"], "C");
    assert ["A", "B"] + ["C"] == s3 && {"A", "B"} + {"C"} == {"A", "B", "C"};
    DfsFromFound(adj, {"A", "B", "C"}, s3, ["A"], 0);
  }

  lemma CycleFromB(adj: map<string, seq<string>>)
    requires Succ(adj, "B") == ["C"]
    requires Dfs(adj, {"A", "B"}, ["A", "B"], "C").cycle == Some(["A", "B", "C", "A"])
    ensures Dfs(adj, {"A"}, ["A"], "B").cycle == Some(["A", "B", "C", "A"])
  {
    DfsEnter(adj, {"A"}, ["A"], "B");
    assert ["A"] + ["B"] == ["A", "B"] && {"A"} + {"B"} == {"A", "B"};
    DfsFromFound(adj, {"A", "B"}, ["A", "B"], ["C"], 0);
  }

  lemma CycleFromA(adj: map<string, seq<string>>)
    requires adj == AdjOf([Ab, Bc, Ca]) && Succ(adj, "A") == ["B"]
    requires Dfs(adj, {"A"}, ["A"], "B").cycle == Some(["A", "B", "C", "A"])
    ensures FirstCycle([Ab, Bc, Ca]) == Some(["A", "B", "C", "A"])
  {
    DfsEnter(adj, {}, [], "A");
    assert [] + ["A"] == ["A"] && {} + {"A"} == {"A"};
    DfsFromFound(adj, {"A"}, ["A"], ["B"], 0);
    assert [Ab, Bc, Ca][0].name == "A";
  }

  /** The test's resolver refuses the list with exactly the message the test expects. */
  method CircularDependencyThrown() returns (r: Result<seq<string>, ResolveError>)
    ensures r == Failure(CircularDependency(["A", "B", "C", "A"]))
    ensures Message(r.error) == "Circular dependency detected: A -> B -> C -> A"
  {
    var resolver := new DependencyResolver([Ab, Bc, Ca]);
    CircularDependencyFound();
    CircularDependencyReported();
    CircularDependencyMessage();
    r := resolver.SortFunctions();
  }

  /** The message for that cycle is the one the test suite expects. */
  lemma CircularDependencyMessage()
    ensures Message(CircularDependency(["A", "B", "C", "A"])) == "Circular dependency detected: A -> B -> C -> A"
  {
    JoinCycle();
  }

  lemma JoinCycle()
    ensures Join(["A", "B", "C", "A"], " -> ") == "A -> B -> C -> A"
  {
    assert DropLast(["A", "B"]) == ["A"];
    assert Join(["A", "B"], " -> ") == "A -> B";
    assert DropLast(["A", "B", "C"]) == ["A", "B"];
    assert Join(["A", "B", "C"], " -> ") == "A -> B -> C";
    assert DropLast(["A", "B", "C", "A"]) == ["A", "B", "C"];
    assert Join(["A", "B", "C", "A"], " -> ") == "A -> B -> C -> A";
  }
}
