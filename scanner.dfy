/** The scanner pipeline: `extractFunctions` registers the exported functions whose JSDoc
    carries a `Config`, `Wrapper` or `Action` tag, `sortFunctionsByKind` orders them with the
    dependency resolver and splits them by kind, and `scanFunctions` instantiates configs,
    then wrappers, then actions, each action wrapped by every wrapper in ordinal order.
    Loading a module and calling one of its functions is modelled by the symbolic instance
    `Called(path, name, arguments)`, and calling a wrapper by `Wrapped`. */
module Scanner {
  import opened Common
  import opened JsStrings
  import opened Json
  import opened Types
  import opened Annotations
  import opened Introspection
  import opened Graph
  import opened Resolver

  /** A function declaration: whether it is exported, its name (`None` when it has none),
      the text of its return type (`None` when it is not written), the inner texts of its
      JSDoc blocks, and the type texts of its parameters. */
  datatype FuncDecl = FuncDecl(
    exported: bool,
    name: Option<string>,
    returnType: Option<string>,
    jsDocs: seq<string>,
    parameterTypes: seq<string>)

  /** A source file of the project with the functions declared in it. */
  datatype ProjectFile = ProjectFile(file: SourceFile, functions: seq<FuncDecl>)

  /** A function together with the file that declares it. */
  datatype Located = Located(decl: FuncDecl, file: SourceFile)

  /** An entry of `funcMap`: the metadata, the declaration and its file. */
  datatype FuncDeclMetadata = FuncDeclMetadata(funcMetadata: FuncMetadata, funcDeclaration: FuncDecl, sourceFile: SourceFile)

  // ---------------------------------------------------------------------------------------
  // The decorators of one function

  /** The last decorator whose name is injectable: the one `mainDecorator` ends up holding. */
  function LastInjectable(ds: seq<Decorator>): Option<Decorator> {
    if ds == [] then None
    else if IsInjectable(Last(ds).name) then Some(Last(ds))
    else LastInjectable(DropLast(ds))
  }

  function NotInjectable(d: Decorator): bool {
    !IsInjectable(d.name)
  }

  /** The `decorators.forEach` loop: every injectable tag replaces `mainDecorator`, every
      other tag is pushed to `additionalDecorators`. */
  method SplitDecorators(decorators: seq<Decorator>) returns (mainDecorator: Option<Decorator>, additionalDecorators: seq<Decorator>)
    ensures mainDecorator == LastInjectable(decorators)
    ensures additionalDecorators == Filter(decorators, NotInjectable)
  {
    mainDecorator := None;
    additionalDecorators := [];
    var i := 0;
    while i < |decorators|
      invariant 0 <= i <= |decorators|
      invariant mainDecorator.Some? ==> mainDecorator == LastInjectable(decorators[..i])
      invariant mainDecorator.None? ==> LastInjectable(decorators[..i]).None?
      invariant additionalDecorators == Filter(decorators[..i], NotInjectable)
    {
      PrefixStep(decorators, i);
      var d := decorators[i];
      if IsInjectable(d.name) {
        mainDecorator := Some(d);
      } else {
        additionalDecorators := additionalDecorators + [d];
      }
      i := i + 1;
    }
    assert decorators[..i] == decorators;
  }

  /** There is no main decorator exactly when no tag is injectable; otherwise it is an
      injectable tag after which no injectable tag follows. */
  lemma {:induction false} LastInjectableSpec(ds: seq<Decorator>)
    ensures LastInjectable(ds).None? <==> forall i :: 0 <= i < |ds| ==> !IsInjectable(ds[i].name)
    ensures LastInjectable(ds).Some? ==>
      exists i :: 0 <= i < |ds| && ds[i] == LastInjectable(ds).value && IsInjectable(ds[i].name)
        && forall j :: i < j < |ds| ==> !IsInjectable(ds[j].name)
  {
    if ds != [] && !IsInjectable(Last(ds).name) {
      var p := DropLast(ds);
      LastInjectableSpec(p);
      assert forall i :: 0 <= i < |p| ==> p[i] == ds[i];
    } else if ds != [] {
      assert ds[|ds| - 1] == LastInjectable(ds).value;
    }
  }

  /** No additional decorator is injectable, and every non-injectable tag is one of them. */
  lemma {:induction false} AdditionalSpec(ds: seq<Decorator>)
    ensures forall d :: d in Filter(ds, NotInjectable) <==> d in ds && !IsInjectable(d.name)
  {
    if ds != [] {
      AdditionalSpec(DropLast(ds));
      assert ds == DropLast(ds) + [Last(ds)];
    }
  }

  /** The metadata a declaration contributes when it qualifies: exported, named, with a
      return type, and carrying an injectable tag. Its name is the return type's text and
      its dependencies are its parameters' type texts, in order. */
  function Candidate(f: FuncDecl, parse: string -> Option<Json>): Option<FuncMetadata> {
    if !f.exported || f.name.None? || f.name.value == "" || f.returnType.None? then None
    else
      var ds := DecoratorsOf(f.jsDocs, parse);
      match LastInjectable(ds)
      case None => None
      case Some(main) =>
        Some(FuncMetadata(f.returnType.value, f.parameterTypes, main, Filter(ds, NotInjectable), None, None, None))
  }

  // ---------------------------------------------------------------------------------------
  // funcMap

  /** The keys of `funcMap`, in insertion order. */
  function Registered(m: seq<FuncDeclMetadata>): (ns: seq<string>)
    ensures |ns| == |m|
  {
    if m == [] then [] else Registered(DropLast(m)) + [Last(m).funcMetadata.name]
  }

  /** `funcMap.get(name)`. */
  function GetEntry(m: seq<FuncDeclMetadata>, name: string): Option<FuncDeclMetadata> {
    if m == [] then None
    else if m[0].funcMetadata.name == name then Some(m[0])
    else GetEntry(m[1..], name)
  }

  /** One declaration considered: registered when it qualifies and its name is new. */
  function Register(m: seq<FuncDeclMetadata>, x: Located, parse: string -> Option<Json>): seq<FuncDeclMetadata> {
    match Candidate(x.decl, parse)
    case None => m
    case Some(meta) => if meta.name in Registered(m) then m else m + [FuncDeclMetadata(meta, x.decl, x.file)]
  }

  function RegisterAll(m: seq<FuncDeclMetadata>, xs: seq<Located>, parse: string -> Option<Json>): seq<FuncDeclMetadata> {
    if xs == [] then m else Register(RegisterAll(m, DropLast(xs), parse), Last(xs), parse)
  }

  /** Every function of the project, file by file. */
  function Declared(project: seq<ProjectFile>): seq<Located> {
    if project == [] then [] else Declared(DropLast(project)) + Locate(Last(project))
  }

  function Locate(pf: ProjectFile): (xs: seq<Located>)
    ensures |xs| == |pf.functions|
  {
    seq(|pf.functions|, i requires 0 <= i < |pf.functions| => Located(pf.functions[i], pf.file))
  }

  /** What `extractFunctions` returns. */
  function Extracted(project: seq<ProjectFile>, parse: string -> Option<Json>): seq<FuncDeclMetadata> {
    RegisterAll([], Declared(project), parse)
  }

  /** `extractFunctions`. */
  method ExtractFunctions(project: seq<ProjectFile>, parse: string -> Option<Json>) returns (funcMap: seq<FuncDeclMetadata>)
    ensures funcMap == Extracted(project, parse)
  {
    funcMap := [];
    var k := 0;
    while k < |project|
      invariant 0 <= k <= |project|
      invariant funcMap == RegisterAll([], Declared(project[..k]), parse)
    {
      var sourceFile := project[k];
      ghost var before := funcMap;
      ghost var done := Declared(project[..k]);
      var i := 0;
      while i < |sourceFile.functions|
        invariant 0 <= i <= |sourceFile.functions|
        invariant funcMap == RegisterAll(before, Locate(sourceFile)[..i], parse)
      {
        assert DropLast(Locate(sourceFile)[..i + 1]) == Locate(sourceFile)[..i];
        var func := sourceFile.functions[i];
        funcMap := RegisterOne(funcMap, func, sourceFile.file, parse);
        i := i + 1;
      }
      assert Locate(sourceFile)[..i] == Locate(sourceFile);
      PrefixStep(project, k);
      assert Declared(project[..k + 1]) == done + Locate(sourceFile);
      RegisterAllAppend([], done, Locate(sourceFile), parse);
      k := k + 1;
    }
    assert project[..k] == project;
  }

  /** The body of the inner `forEach` of `extractFunctions`, for one function. */
  method RegisterOne(funcMap: seq<FuncDeclMetadata>, func: FuncDecl, sourceFile: SourceFile, parse: string -> Option<Json>)
    returns (next: seq<FuncDeclMetadata>)
    ensures next == Register(funcMap, Located(func, sourceFile), parse)
  {
    next := funcMap;
    if !func.exported || func.name.None? || func.name.value == "" || func.returnType.None? {
      return;
    }
    var functionReturnTypeName := func.returnType.value;
    if functionReturnTypeName in Registered(funcMap) {
      return;
    }
    var decorators := GetDecoratorMetadata(func.jsDocs, parse);
    var mainDecorator, additionalDecorators := SplitDecorators(decorators);
    if mainDecorator.None? {
      return;
    }
    var dependencies := func.parameterTypes;
    var meta := FuncMetadata(functionReturnTypeName, dependencies, mainDecorator.value, additionalDecorators, None, None, None);
    next := funcMap + [FuncDeclMetadata(meta, func, sourceFile)];
  }

  lemma {:induction false} RegisterAllAppend(m: seq<FuncDeclMetadata>, xs: seq<Located>, ys: seq<Located>, parse: string -> Option<Json>)
    ensures RegisterAll(m, xs + ys, parse) == RegisterAll(RegisterAll(m, xs, parse), ys, parse)
    decreases |ys|
  {
    if ys == [] {
      assert xs + ys == xs;
    } else {
      assert DropLast(xs + ys) == xs + DropLast(ys);
      assert Last(xs + ys) == Last(ys);
      RegisterAllAppend(m, xs, DropLast(ys), parse);
    }
  }

  // ---------------------------------------------------------------------------------------
  // What extraction guarantees

  /** Appending an entry changes only the lookup of a name that was not registered. */
  lemma {:induction false} GetEntryAppend(m: seq<FuncDeclMetadata>, e: FuncDeclMetadata, name: string)
    ensures GetEntry(m + [e], name) ==
      if name in Registered(m) then GetEntry(m, name)
      else if e.funcMetadata.name == name then Some(e) else None
  {
    if m != [] {
      assert (m + [e])[1..] == m[1..] + [e];
      GetEntryAppend(m[1..], e, name);
      RegisteredHead(m);
    } else {
      assert (m + [e])[1..] == [];
    }
  }

  lemma RegisteredHead(m: seq<FuncDeclMetadata>)
    requires m != []
    ensures forall n :: n in Registered(m) <==> n == m[0].funcMetadata.name || n in Registered(m[1..])
  {
    RegisteredAt(m);
    RegisteredAt(m[1..]);
    forall n ensures n in Registered(m) <==> n == m[0].funcMetadata.name || n in Registered(m[1..]) {
      if n in Registered(m) {
        var i :| 0 <= i < |m| && Registered(m)[i] == n;
        if i > 0 {
          assert Registered(m[1..])[i - 1] == n;
        }
      }
      if n in Registered(m[1..]) {
        var i :| 0 <= i < |m[1..]| && Registered(m[1..])[i] == n;
        assert Registered(m)[i + 1] == n;
      }
      assert Registered(m)[0] == m[0].funcMetadata.name;
    }
  }

  lemma {:induction false} RegisteredAt(m: seq<FuncDeclMetadata>)
    ensures forall i :: 0 <= i < |m| ==> Registered(m)[i] == m[i].funcMetadata.name
  {
    if m != [] {
      RegisteredAt(DropLast(m));
    }
  }

  /** The keys of `funcMap` are distinct: a name is registered once. */
  lemma {:induction false} RegisteredDistinct(m: seq<FuncDeclMetadata>, xs: seq<Located>, parse: string -> Option<Json>)
    requires Distinct(Registered(m))
    ensures Distinct(Registered(RegisterAll(m, xs, parse)))
  {
    if xs != [] {
      RegisteredDistinct(m, DropLast(xs), parse);
      var r := RegisterAll(m, DropLast(xs), parse);
      match Candidate(Last(xs).decl, parse)
      case None =>
      case Some(meta) =>
        if meta.name !in Registered(r) {
          assert DropLast(r + [FuncDeclMetadata(meta, Last(xs).decl, Last(xs).file)]) == r;
        }
    }
  }

  /** `xs[i]` qualifies under the name `name`. */
  predicate QualifiesAs(xs: seq<Located>, i: int, name: string, parse: string -> Option<Json>) {
    0 <= i < |xs| && Candidate(xs[i].decl, parse).Some? && Candidate(xs[i].decl, parse).value.name == name
  }

  /** A registered name was registered before, or some declaration qualifies under it. */
  lemma {:induction false} RegisteredFrom(m: seq<FuncDeclMetadata>, xs: seq<Located>, name: string, parse: string -> Option<Json>)
    requires name in Registered(RegisterAll(m, xs, parse))
    ensures name in Registered(m) || exists i :: QualifiesAs(xs, i, name, parse)
  {
    if xs != [] {
      var r := RegisterAll(m, DropLast(xs), parse);
      var c := Candidate(Last(xs).decl, parse);
      if name in Registered(r) {
        RegisteredFrom(m, DropLast(xs), name, parse);
        if !(name in Registered(m)) {
          var i :| QualifiesAs(DropLast(xs), i, name, parse);
          assert QualifiesAs(xs, i, name, parse);
        }
      } else {
        assert c.Some? && !(c.value.name in Registered(r));
        assert DropLast(r + [FuncDeclMetadata(c.value, Last(xs).decl, Last(xs).file)]) == r;
        assert QualifiesAs(xs, |xs| - 1, name, parse);
      }
    }
  }

  /** The first qualifying declaration wins: when `xs[i]` is the first declaration that
      qualifies under a name not yet registered, the entry for that name is `xs[i]`'s. */
  lemma {:induction false} FirstWins(m: seq<FuncDeclMetadata>, xs: seq<Located>, i: nat, name: string, parse: string -> Option<Json>)
    requires name !in Registered(m)
    requires QualifiesAs(xs, i, name, parse)
    requires forall j :: 0 <= j < i ==> !QualifiesAs(xs, j, name, parse)
    ensures GetEntry(RegisterAll(m, xs, parse), name)
         == Some(FuncDeclMetadata(Candidate(xs[i].decl, parse).value, xs[i].decl, xs[i].file))
  {
    var p := DropLast(xs);
    var r := RegisterAll(m, p, parse);
    var c := Candidate(Last(xs).decl, parse);
    if i < |xs| - 1 {
      assert QualifiesAs(p, i, name, parse);
      assert forall j :: 0 <= j < i ==> !QualifiesAs(p, j, name, parse) by {
        forall j | 0 <= j < i ensures !QualifiesAs(p, j, name, parse) {
          assert !QualifiesAs(xs, j, name, parse);
        }
      }
      FirstWins(m, p, i, name, parse);
      RegisteredIn(r, name);
      if c.Some? && !(c.value.name in Registered(r)) {
        GetEntryAppend(r, FuncDeclMetadata(c.value, Last(xs).decl, Last(xs).file), name);
      }
    } else {
      if name in Registered(r) {
        RegisteredFrom(m, p, name, parse);
        var j :| QualifiesAs(p, j, name, parse);
        assert QualifiesAs(xs, j, name, parse);
      }
      GetEntryAppend(r, FuncDeclMetadata(c.value, Last(xs).decl, Last(xs).file), name);
    }
  }

  lemma {:induction false} RegisteredIn(m: seq<FuncDeclMetadata>, name: string)
    requires GetEntry(m, name).Some?
    ensures name in Registered(m)
  {
    RegisteredHead(m);
    if m[0].funcMetadata.name != name {
      RegisteredIn(m[1..], name);
    }
  }

  predicate AllInjectable(m: seq<FuncDeclMetadata>) {
    forall k :: 0 <= k < |m| ==> IsInjectable(m[k].funcMetadata.mainDecorator.name)
  }

  /** Every entry's main decorator is injectable. */
  lemma {:induction false} EntriesInjectable(m: seq<FuncDeclMetadata>, xs: seq<Located>, parse: string -> Option<Json>)
    requires AllInjectable(m)
    ensures AllInjectable(RegisterAll(m, xs, parse))
  {
    if xs != [] {
      EntriesInjectable(m, DropLast(xs), parse);
      var r := RegisterAll(m, DropLast(xs), parse);
      RegisterShape(r, Last(xs), parse);
      var n := RegisterAll(m, xs, parse);
      assert n == Register(r, Last(xs), parse);
      forall k | 0 <= k < |n| ensures IsInjectable(n[k].funcMetadata.mainDecorator.name) {
        if k < |r| {
          assert n[k] == r[k];
          assert IsInjectable(r[k].funcMetadata.mainDecorator.name);
        } else {
          assert k == |r| && n != r;
        }
      }
    }
  }

  /** Registering keeps the entries and adds at most the declaration's own, whose main
      decorator is injectable. */
  lemma RegisterShape(r: seq<FuncDeclMetadata>, x: Located, parse: string -> Option<Json>)
    ensures Register(r, x, parse) == r || (
      && Candidate(x.decl, parse).Some?
      && Register(r, x, parse) == r + [FuncDeclMetadata(Candidate(x.decl, parse).value, x.decl, x.file)]
      && IsInjectable(Candidate(x.decl, parse).value.mainDecorator.name))
  {
    if Candidate(x.decl, parse).Some? {
      LastInjectableIs(DecoratorsOf(x.decl.jsDocs, parse));
    }
  }

  lemma {:induction false} LastInjectableIs(ds: seq<Decorator>)
    ensures LastInjectable(ds).Some? ==> IsInjectable(LastInjectable(ds).value.name)
  {
    if ds != [] && !IsInjectable(Last(ds).name) {
      LastInjectableIs(DropLast(ds));
    }
  }

  // ---------------------------------------------------------------------------------------
  // sortFunctionsByKind

  /** `Array.from(funcMap.values()).map(x => ({ name, dependencies }))`: fresh records for the
      resolver, so emptying their dependency lists leaves the metadata alone. */
  function DepsOf(m: seq<FuncDeclMetadata>): (fs: seq<TypeDependencies>)
    ensures |fs| == |m|
  {
    if m == [] then [] else DepsOf(DropLast(m)) + [TypeDependencies(Last(m).funcMetadata.name, Last(m).funcMetadata.dependencies)]
  }

  datatype Kinds = Kinds(configMetadatas: seq<FuncMetadata>, wrapperMetadatas: seq<FuncMetadata>, actionMetadatas: seq<FuncMetadata>)

  /** One name of the resolver's order: its metadata joins the list of its kind. */
  function Classify(m: seq<FuncDeclMetadata>, ks: Kinds, x: string): Kinds {
    match GetEntry(m, x)
    case None => ks
    case Some(e) =>
      var fm := e.funcMetadata;
      if fm.mainDecorator.name == "Config" then ks.(configMetadatas := ks.configMetadatas + [fm])
      else if fm.mainDecorator.name == "Wrapper" then ks.(wrapperMetadatas := ks.wrapperMetadatas + [fm])
      else if fm.mainDecorator.name == "Action" then ks.(actionMetadatas := ks.actionMetadatas + [fm])
      else ks
  }

  function KindsOf(m: seq<FuncDeclMetadata>, ordered: seq<string>): Kinds {
    if ordered == [] then Kinds([], [], []) else Classify(m, KindsOf(m, DropLast(ordered)), Last(ordered))
  }

  /** `sortFunctionsByKind`: the resolver's order of the registered functions, split by the
      main decorator's name. The resolver's errors are passed on. */
  method SortFunctionsByKind(funcMap: seq<FuncDeclMetadata>) returns (r: Result<Kinds, ResolveError>)
    ensures !AllDefined(DepsOf(funcMap)) ==> r.Failure? && IsFirstMissing(DepsOf(funcMap), r.error)
    ensures r.Failure? && r.error.CircularDependency? ==>
      AllDefined(DepsOf(funcMap)) && IsCycle(AdjOf(DepsOf(funcMap)), r.error.path) && Distinct(DropLast(r.error.path))
    ensures r.Failure? && r.error.CircularDependency? ==> FirstCycle(DepsOf(funcMap)) == Some(r.error.path)
    ensures r.Failure? && AllDefined(DepsOf(funcMap)) ==> r.error.CircularDependency?
    ensures r.Success? <==> AllDefined(DepsOf(funcMap)) && Acyclic(AdjOf(DepsOf(funcMap)))
    ensures r.Success? ==> r.value == KindsOf(funcMap, KahnOrder(DepsOf(funcMap)).sorted)
  {
    var nameAndDeps := DepsOf(funcMap);
    var dr := new DependencyResolver(nameAndDeps);
    var sorted := dr.SortFunctions();
    if sorted.Failure? {
      return Failure(sorted.error);
    }
    var kinds := Partition(funcMap, sorted.value);
    return Success(kinds);
  }

  /** The loop of `sortFunctionsByKind` over the resolver's order. */
  method Partition(funcMap: seq<FuncDeclMetadata>, orderedFunctions: seq<string>) returns (kinds: Kinds)
    ensures kinds == KindsOf(funcMap, orderedFunctions)
  {
    var configMetadatas, wrapperMetadatas, actionMetadatas := [], [], [];
    var i := 0;
    while i < |orderedFunctions|
      invariant 0 <= i <= |orderedFunctions|
      invariant Kinds(configMetadatas, wrapperMetadatas, actionMetadatas) == KindsOf(funcMap, orderedFunctions[..i])
    {
      var x := orderedFunctions[i];
      PrefixStep(orderedFunctions, i);
      var fm := GetEntry(funcMap, x);
      if fm.Some? {
        var meta := fm.value.funcMetadata;
        if meta.mainDecorator.name == "Config" {
          configMetadatas := configMetadatas + [meta];
        } else if meta.mainDecorator.name == "Wrapper" {
          wrapperMetadatas := wrapperMetadatas + [meta];
        } else if meta.mainDecorator.name == "Action" {
          actionMetadatas := actionMetadatas + [meta];
        }
      }
      i := i + 1;
    }
    assert orderedFunctions[..i] == orderedFunctions;
    return Kinds(configMetadatas, wrapperMetadatas, actionMetadatas);
  }

  /** The main decorator's name of a registered function, `""` for an unknown name. */
  function KindOf(m: seq<FuncDeclMetadata>, x: string): string {
    match GetEntry(m, x)
    case None => ""
    case Some(e) => e.funcMetadata.mainDecorator.name
  }

  function OfKind(m: seq<FuncDeclMetadata>, kind: string): string -> bool {
    x => KindOf(m, x) == kind
  }

  /** The metadata of the registered names among `xs`, in order. */
  function MetasOf(m: seq<FuncDeclMetadata>, xs: seq<string>): seq<FuncMetadata> {
    if xs == [] then []
    else match GetEntry(m, Last(xs))
      case None => MetasOf(m, DropLast(xs))
      case Some(e) => MetasOf(m, DropLast(xs)) + [e.funcMetadata]
  }

  /** Each list is the resolver's order restricted to its kind: order within a kind is the
      resolver's. */
  lemma {:induction false} KindsKeepOrder(m: seq<FuncDeclMetadata>, ordered: seq<string>)
    ensures KindsOf(m, ordered).configMetadatas == MetasOf(m, Filter(ordered, OfKind(m, "Config")))
    ensures KindsOf(m, ordered).wrapperMetadatas == MetasOf(m, Filter(ordered, OfKind(m, "Wrapper")))
    ensures KindsOf(m, ordered).actionMetadatas == MetasOf(m, Filter(ordered, OfKind(m, "Action")))
  {
    KindKeepsOrder(m, ordered, "Config");
    KindKeepsOrder(m, ordered, "Wrapper");
    KindKeepsOrder(m, ordered, "Action");
  }

  /** The list of one main decorator's kind. */
  function ListOf(ks: Kinds, kind: string): seq<FuncMetadata> {
    if kind == "Config" then ks.configMetadatas
    else if kind == "Wrapper" then ks.wrapperMetadatas
    else if kind == "Action" then ks.actionMetadatas
    else []
  }

  lemma {:induction false} KindKeepsOrder(m: seq<FuncDeclMetadata>, ordered: seq<string>, kind: string)
    requires IsInjectable(kind)
    ensures ListOf(KindsOf(m, ordered), kind) == MetasOf(m, Filter(ordered, OfKind(m, kind)))
  {
    if ordered != [] {
      var p, x := DropLast(ordered), Last(ordered);
      KindKeepsOrder(m, p, kind);
      var f := Filter(p, OfKind(m, kind));
      assert Filter(ordered, OfKind(m, kind)) == if OfKind(m, kind)(x) then f + [x] else f;
      MetasLast(m, f, x);
      ClassifyListOf(m, KindsOf(m, p), x, kind);
    }
  }

  /** Classifying one more name extends the list of its kind and leaves the others alone. */
  lemma ClassifyListOf(m: seq<FuncDeclMetadata>, ks: Kinds, x: string, kind: string)
    requires IsInjectable(kind)
    ensures ListOf(Classify(m, ks, x), kind) ==
      ListOf(ks, kind) + (if KindOf(m, x) == kind then [GetEntry(m, x).value.funcMetadata] else [])
  {
  }

  lemma MetasLast(m: seq<FuncDeclMetadata>, xs: seq<string>, x: string)
    ensures MetasOf(m, xs + [x]) == MetasOf(m, xs) + (if GetEntry(m, x).Some? then [GetEntry(m, x).value.funcMetadata] else [])
  {
    assert DropLast(xs + [x]) == xs;
  }

  /** When every name of the order is registered with an injectable main decorator, every
      name lands in exactly one of the three lists. */
  lemma {:induction false} KindsCover(m: seq<FuncDeclMetadata>, ordered: seq<string>)
    requires AllInjectable(m)
    requires forall i :: 0 <= i < |ordered| ==> GetEntry(m, ordered[i]).Some?
    ensures var ks := KindsOf(m, ordered);
      |ks.configMetadatas| + |ks.wrapperMetadatas| + |ks.actionMetadatas| == |ordered|
  {
    if ordered != [] {
      assert forall i :: 0 <= i < |ordered| - 1 ==> DropLast(ordered)[i] == ordered[i];
      KindsCover(m, DropLast(ordered));
      assert GetEntry(m, ordered[|ordered| - 1]).Some?;
      GetEntryIn(m, Last(ordered));
    }
  }

  /** What a lookup finds is one of the entries, under the name looked up. */
  lemma GetEntryIn(m: seq<FuncDeclMetadata>, name: string)
    requires GetEntry(m, name).Some?
    ensures GetEntry(m, name).value in m && GetEntry(m, name).value.funcMetadata.name == name
  {
  }
}
