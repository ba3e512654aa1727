/** The instantiation half of the scanner: `getParameterHandler`, the config and wrapper
    phase `resolveConfigAndWrapperFunctions`, the action phase `resolveActionFunctions` with
    `applyWrappers`, and `scanFunctions`, which runs them in that order over one shared
    result map.

    Importing a module and calling its function is symbolic: the instance a call produces is
    `Called(path, funcName, arguments)`, and a wrapper applied to a handler produces
    `Wrapped(wrapper, handler, metadata)`. A call can fail in the same places the
    JavaScript throws: a name the function map lacks, a declaration without a name, a
    wrapper that has no instance yet, and the type introspection's errors. */
module Instances {
  import opened Common
  import opened Json
  import J = Json
  import opened Types
  import opened Introspection
  import opened Graph
  import opened Resolver
  import opened Scanner

  datatype Instance =
    | Called(path: string, funcName: string, args: seq<Instance>)
    | Wrapped(wrapper: Instance, handler: Instance, metadata: FuncMetadata)

  /** One entry of `funcResultMap`: the key and the stored `{ funcInstance, funcMetadata }`. */
  datatype FuncInstanceMetadata = FuncInstanceMetadata(name: string, funcInstance: Instance, funcMetadata: FuncMetadata)

  /** Why `scanFunctions` throws: the resolver refused the dependencies, or instantiating
      a function failed. */
  datatype ScanError =
    | Unresolvable(cause: ResolveError)
    | Failed(failure: CallError)

  /** Why instantiating one function throws. */
  datatype CallError =
    | TypeIntrospection(failure: IntrospectionError)
    /** `funcMap.get(metadata.name)` found nothing, so `funcDecl.getName()` throws. */
    | MissingDeclaration(name: string)
    /** The value called is `undefined`: an unnamed declaration, or a wrapper without an
        instance. */
    | NotAFunction(name: string)

  // ---------------------------------------------------------------------------------------
  // funcResultMap

  /** The keys of the result map, in insertion order. */
  function Keys(rs: seq<FuncInstanceMetadata>): (ks: seq<string>)
    ensures |ks| == |rs|
  {
    if rs == [] then [] else Keys(DropLast(rs)) + [Last(rs).name]
  }

  /** `funcResultMap.get(name)`. */
  function GetResult(rs: seq<FuncInstanceMetadata>, name: string): Option<FuncInstanceMetadata> {
    if rs == [] then None
    else if rs[0].name == name then Some(rs[0])
    else GetResult(rs[1..], name)
  }

  /** `funcResultMap.set(e.name, e)`: an existing key keeps its place and takes the new
      value, a new key goes last. */
  function Put(rs: seq<FuncInstanceMetadata>, e: FuncInstanceMetadata): (r: seq<FuncInstanceMetadata>)
    ensures |r| == if GetResult(rs, e.name).Some? then |rs| else |rs| + 1
  {
    if rs == [] then [e]
    else if rs[0].name == e.name then [e] + rs[1..]
    else [rs[0]] + Put(rs[1..], e)
  }

  /** The map is a class over its entries, as in the source it is one shared object. */
  class FuncResultMap {
    var entries: seq<FuncInstanceMetadata>

    constructor()
      ensures entries == []
    {
      entries := [];
    }

    function Get(name: string): Option<FuncInstanceMetadata>
      reads this
    {
      GetResult(entries, name)
    }

    method Set(e: FuncInstanceMetadata)
      modifies this
      ensures entries == Put(old(entries), e)
    {
      entries := Put(entries, e);
    }
  }

  /** After a `set`, looking the key up finds the new entry. */
  lemma {:induction false} PutGet(rs: seq<FuncInstanceMetadata>, e: FuncInstanceMetadata, name: string)
    ensures GetResult(Put(rs, e), name) == if name == e.name then Some(e) else GetResult(rs, name)
  {
    if rs != [] && rs[0].name != e.name {
      PutGet(rs[1..], e, name);
    }
  }

  lemma {:induction false} KeysFront(rs: seq<FuncInstanceMetadata>, x: FuncInstanceMetadata)
    ensures Keys([x] + rs) == [x.name] + Keys(rs)
  {
    if rs != [] {
      assert DropLast([x] + rs) == [x] + DropLast(rs);
      KeysFront(DropLast(rs), x);
    }
  }

  /** Keys of a `set`: a new key is appended, an existing one leaves the keys alone. */
  lemma {:induction false} PutKeys(rs: seq<FuncInstanceMetadata>, e: FuncInstanceMetadata)
    ensures Keys(Put(rs, e)) == if e.name in Keys(rs) then Keys(rs) else Keys(rs) + [e.name]
  {
    if rs == [] {
    } else {
      KeysFront(rs[1..], rs[0]);
      assert rs == [rs[0]] + rs[1..];
      if rs[0].name == e.name {
        KeysFront(rs[1..], e);
      } else {
        PutKeys(rs[1..], e);
        KeysFront(Put(rs[1..], e), rs[0]);
        if e.name !in Keys(rs[1..]) {
          assert [rs[0].name] + (Keys(rs[1..]) + [e.name]) == ([rs[0].name] + Keys(rs[1..])) + [e.name];
        }
      }
    }
  }

  // ---------------------------------------------------------------------------------------
  // getParameterHandler

  /** The instances of the parameter types that the map already holds, in parameter order;
      a parameter whose type has no entry is skipped. */
  function ParamHandlers(params: seq<string>, rs: seq<FuncInstanceMetadata>): (hs: seq<Instance>)
    ensures |hs| <= |params|
  {
    if params == [] then []
    else match GetResult(rs, Last(params))
      case None => ParamHandlers(DropLast(params), rs)
      case Some(e) => ParamHandlers(DropLast(params), rs) + [e.funcInstance]
  }

  method GetParameterHandler(funcDecl: FuncDecl, funcResultMap: FuncResultMap) returns (paramHandlers: seq<Instance>)
    ensures paramHandlers == ParamHandlers(funcDecl.parameterTypes, funcResultMap.entries)
  {
    var params := funcDecl.parameterTypes;
    paramHandlers := [];
    var i := 0;
    while i < |params|
      invariant 0 <= i <= |params|
      invariant paramHandlers == ParamHandlers(params[..i], funcResultMap.entries)
    {
      PrefixStep(params, i);
      var found := funcResultMap.Get(params[i]);
      if found.Some? {
        paramHandlers := paramHandlers + [found.value.funcInstance];
      }
      i := i + 1;
    }
    assert params[..i] == params;
  }

  /** When every parameter type has an entry, there is one argument per parameter, and
      argument `i` is the instance stored under parameter `i`'s type. */
  lemma {:induction false} ParamHandlersAll(params: seq<string>, rs: seq<FuncInstanceMetadata>)
    requires forall i :: 0 <= i < |params| ==> GetResult(rs, params[i]).Some?
    ensures |ParamHandlers(params, rs)| == |params|
    ensures forall i :: 0 <= i < |params| ==> ParamHandlers(params, rs)[i] == GetResult(rs, params[i]).value.funcInstance
  {
    if params != [] {
      var p := DropLast(params);
      assert forall i :: 0 <= i < |p| ==> p[i] == params[i];
      ParamHandlersAll(p, rs);
      var x := Last(params);
      assert GetResult(rs, params[|params| - 1]).Some?;
      assert ParamHandlers(params, rs) == ParamHandlers(p, rs) + [GetResult(rs, x).value.funcInstance];
    }
  }

  /** A parameter type without an entry contributes nothing: only the known types count. */
  lemma {:induction false} ParamHandlersNone(params: seq<string>, rs: seq<FuncInstanceMetadata>)
    requires forall i :: 0 <= i < |params| ==> GetResult(rs, params[i]).None?
    ensures ParamHandlers(params, rs) == []
  {
    if params != [] {
      var p := DropLast(params);
      assert forall i :: 0 <= i < |p| ==> p[i] == params[i];
      ParamHandlersNone(p, rs);
      assert GetResult(rs, params[|params| - 1]).None?;
    }
  }

  // ---------------------------------------------------------------------------------------
  // Calling a registered function

  /** `module[funcName](...paramHandlers)` for the declaration registered under `name`. */
  function Instantiate(funcMap: seq<FuncDeclMetadata>, rs: seq<FuncInstanceMetadata>, name: string): Result<Instance, CallError> {
    match GetEntry(funcMap, name)
    case None => Failure(MissingDeclaration(name))
    case Some(e) =>
      match e.funcDeclaration.name
      case None => Failure(NotAFunction(name))
      case Some(funcName) => Success(Called(e.sourceFile.path, funcName, ParamHandlers(e.funcDeclaration.parameterTypes, rs)))
  }

  method Call(funcMap: seq<FuncDeclMetadata>, funcResultMap: FuncResultMap, name: string) returns (r: Result<Instance, CallError>)
    ensures r == Instantiate(funcMap, funcResultMap.entries, name)
  {
    var fm := GetEntry(funcMap, name);
    if fm.None? {
      return Failure(MissingDeclaration(name));
    }
    var funcDecl := fm.value.funcDeclaration;
    if funcDecl.name.None? {
      return Failure(NotAFunction(name));
    }
    var paramHandlers := GetParameterHandler(funcDecl, funcResultMap);
    return Success(Called(fm.value.sourceFile.path, funcDecl.name.value, paramHandlers));
  }

  // ---------------------------------------------------------------------------------------
  // resolveConfigAndWrapperFunctions

  function ConfigStep(funcMap: seq<FuncDeclMetadata>, rs: seq<FuncInstanceMetadata>, metadata: FuncMetadata)
    : Result<seq<FuncInstanceMetadata>, CallError>
  {
    var instance :- Instantiate(funcMap, rs, metadata.name);
    Success(Put(rs, FuncInstanceMetadata(metadata.name, instance, metadata)))
  }

  /** The configs (or the wrappers) instantiated in order, each with the instances stored
      before it as arguments. */
  function ConfigPhase(funcMap: seq<FuncDeclMetadata>, rs: seq<FuncInstanceMetadata>, metadatas: seq<FuncMetadata>)
    : Result<seq<FuncInstanceMetadata>, CallError>
  {
    if metadatas == [] then Success(rs)
    else
      var before :- ConfigPhase(funcMap, rs, DropLast(metadatas));
      ConfigStep(funcMap, before, Last(metadatas))
  }

  method ResolveConfigAndWrapperFunctions(metadatas: seq<FuncMetadata>, funcMap: seq<FuncDeclMetadata>, funcResultMap: FuncResultMap)
    returns (r: Result<seq<FuncInstanceMetadata>, CallError>)
    modifies funcResultMap
    ensures r == ConfigPhase(funcMap, old(funcResultMap.entries), metadatas)
    ensures r.Success? ==> funcResultMap.entries == r.value
  {
    ghost var start := funcResultMap.entries;
    var i := 0;
    while i < |metadatas|
      invariant 0 <= i <= |metadatas|
      invariant ConfigPhase(funcMap, start, metadatas[..i]) == Success(funcResultMap.entries)
    {
      var metadata := metadatas[i];
      ConfigPhaseNext(funcMap, start, metadatas, i);
      var funcResult := Call(funcMap, funcResultMap, metadata.name);
      if funcResult.Failure? {
        FailureSticks(funcMap, start, metadatas, i + 1);
        return Failure(funcResult.error);
      }
      funcResultMap.Set(FuncInstanceMetadata(metadata.name, funcResult.value, metadata));
      i := i + 1;
    }
    assert metadatas[..i] == metadatas;
    return Success(funcResultMap.entries);
  }

  /** The phase over one more config is that config's step after the phase so far. */
  lemma ConfigPhaseNext(funcMap: seq<FuncDeclMetadata>, rs: seq<FuncInstanceMetadata>, metadatas: seq<FuncMetadata>, i: nat)
    requires i < |metadatas| && ConfigPhase(funcMap, rs, metadatas[..i]).Success?
    ensures ConfigPhase(funcMap, rs, metadatas[..i + 1]) == ConfigStep(funcMap, ConfigPhase(funcMap, rs, metadatas[..i]).value, metadatas[i])
  {
    PrefixStep(metadatas, i);
  }

  /** Once a prefix of the configs fails, the whole phase fails with the same error. */
  lemma {:induction false} FailureSticks(funcMap: seq<FuncDeclMetadata>, rs: seq<FuncInstanceMetadata>, metadatas: seq<FuncMetadata>, n: nat)
    requires n <= |metadatas| && ConfigPhase(funcMap, rs, metadatas[..n]).Failure?
    ensures ConfigPhase(funcMap, rs, metadatas) == ConfigPhase(funcMap, rs, metadatas[..n])
    decreases |metadatas| - n
  {
    if n < |metadatas| {
      PrefixStep(metadatas, n);
      FailureSticks(funcMap, rs, metadatas, n + 1);
    } else {
      assert metadatas[..n] == metadatas;
    }
  }

  /** The names of a list of metadata. */
  function MetaNames(ms: seq<FuncMetadata>): (ns: seq<string>)
    ensures |ns| == |ms|
  {
    if ms == [] then [] else MetaNames(DropLast(ms)) + [Last(ms).name]
  }

  /** A phase that succeeds stores its functions under their own names, after the keys
      already there, when all those names are distinct. */
  lemma {:induction false} ConfigPhaseKeys(funcMap: seq<FuncDeclMetadata>, rs: seq<FuncInstanceMetadata>, metadatas: seq<FuncMetadata>)
    requires Distinct(Keys(rs) + MetaNames(metadatas))
    requires ConfigPhase(funcMap, rs, metadatas).Success?
    ensures Keys(ConfigPhase(funcMap, rs, metadatas).value) == Keys(rs) + MetaNames(metadatas)
  {
    if metadatas != [] {
      var p, x := DropLast(metadatas), Last(metadatas);
      var ks, ns := Keys(rs), MetaNames(p);
      assert MetaNames(metadatas) == ns + [x.name];
      ConcatAssoc(ks, ns, [x.name]);
      DistinctPrefix(ks + ns, x.name);
      ConfigPhaseKeys(funcMap, rs, p);
      var before := ConfigPhase(funcMap, rs, p).value;
      assert Keys(before) == ks + ns;
      var instance := Instantiate(funcMap, before, x.name).value;
      PutKeys(before, FuncInstanceMetadata(x.name, instance, x));
    }
  }

  lemma DistinctPrefix(s: seq<string>, x: string)
    requires Distinct(s + [x])
    ensures Distinct(s) && x !in s
  {
    var t := s + [x];
    assert forall i :: 0 <= i < |s| ==> t[i] == s[i];
    forall i | 0 <= i < |s| ensures s[i] != x {
      assert t[i] == s[i] && t[|s|] == x;
    }
  }

  // ---------------------------------------------------------------------------------------
  // applyWrappers

  /** The ordinal of a wrapper: its tag's `ordinal` member when that is a number, else 0. */
  function OrdinalKey(m: FuncMetadata): int {
    match J.Member(m.mainDecorator.data, "ordinal")
    case Some(JNumber(n)) => n
    case _ => 0
  }

  /** Each wrapper in turn wraps the current handler: the handler is passed to the wrapper's
      instance together with the action's metadata. */
  function Chain(current: Instance, metadata: FuncMetadata, wrappers: seq<FuncMetadata>, rs: seq<FuncInstanceMetadata>)
    : Result<Instance, CallError>
  {
    if wrappers == [] then Success(current)
    else
      var inner :- Chain(current, metadata, DropLast(wrappers), rs);
      match GetResult(rs, Last(wrappers).name)
      case None => Failure(NotAFunction(Last(wrappers).name))
      case Some(w) => Success(Wrapped(w.funcInstance, inner, metadata))
  }

  /** The handler under `n` layers of wrapping, `None` when there are fewer. */
  function Peel(x: Instance, n: nat): Option<Instance> {
    if n == 0 then Some(x)
    else match x
      case Wrapped(_, handler, _) => Peel(handler, n - 1)
      case Called(_, _, _) => None
  }

  /** The chain succeeds exactly when every wrapper has an instance. */
  lemma {:induction false} ChainSucceeds(current: Instance, metadata: FuncMetadata, wrappers: seq<FuncMetadata>, rs: seq<FuncInstanceMetadata>)
    ensures Chain(current, metadata, wrappers, rs).Success? <==>
      forall i :: 0 <= i < |wrappers| ==> GetResult(rs, wrappers[i].name).Some?
  {
    if wrappers != [] {
      var p := DropLast(wrappers);
      assert forall i :: 0 <= i < |p| ==> p[i] == wrappers[i];
      ChainSucceeds(current, metadata, p, rs);
    }
  }

  /** Under `k` layers sits the chain of the first `|wrappers| - k` wrappers: the last wrapper
      is outermost, the first is closest to the action, and peeling every layer gives the
      action's own instance. Every layer carries the action's metadata. */
  lemma {:induction false} ChainLayers(current: Instance, metadata: FuncMetadata, wrappers: seq<FuncMetadata>, rs: seq<FuncInstanceMetadata>, k: nat)
    requires Chain(current, metadata, wrappers, rs).Success? && k < |wrappers|
    ensures var layer := Peel(Chain(current, metadata, wrappers, rs).value, k);
      layer.Some? && layer.value.Wrapped? &&
      GetResult(rs, wrappers[|wrappers| - 1 - k].name).Some? &&
      layer.value.wrapper == GetResult(rs, wrappers[|wrappers| - 1 - k].name).value.funcInstance &&
      layer.value.metadata == metadata
  {
    var p := DropLast(wrappers);
    if k > 0 {
      assert p[|p| - 1 - (k - 1)] == wrappers[|wrappers| - 1 - k];
      ChainLayers(current, metadata, p, rs, k - 1);
    }
  }

  lemma {:induction false} ChainCore(current: Instance, metadata: FuncMetadata, wrappers: seq<FuncMetadata>, rs: seq<FuncInstanceMetadata>)
    requires Chain(current, metadata, wrappers, rs).Success?
    ensures Peel(Chain(current, metadata, wrappers, rs).value, |wrappers|) == Some(current)
  {
    if wrappers != [] {
      ChainCore(current, metadata, DropLast(wrappers), rs);
    }
  }

  /** `Array.prototype.sort` with the comparator `(a, b) => key(a) - key(b)`, in place: the
      stable insertion of each element into the sorted prefix before it. */
  method SortBy<T>(a: array<T>, key: T -> int)
    modifies a
    ensures a[..] == StableSortBy(old(a[..]), key)
  {
    ghost var s := a[..];
    var i := 0;
    while i < a.Length
      invariant 0 <= i <= a.Length
      invariant a[..i] == StableSortBy(s[..i], key)
      invariant a[i..] == s[i..]
    {
      PrefixStep(s, i);
      InsertInto(a, i, key);
      i := i + 1;
    }
    assert a[..] == a[..i] && s[..i] == s;
  }

  /** Inserts `a[i]` into `a[..i]`, shifting the larger ordinals one place up. */
  method InsertInto<T>(a: array<T>, i: nat, key: T -> int)
    requires i < a.Length
    modifies a
    ensures a[..i + 1] == InsertBy(old(a[i]), old(a[..i]), key)
    ensures a[i + 1..] == old(a[i + 1..])
  {
    ghost var s := a[..];
    ghost var t := s[..i];
    var x := a[i];
    var j := i;
    assert t[..j] == t && t[j..] == [];
    while j > 0 && key(a[j - 1]) > key(x)
      invariant 0 <= j <= i
      invariant ShiftedUpTo(a[..], s, i, j)
      invariant InsertBy(x, t, key) == InsertBy(x, t[..j], key) + t[j..]
    {
      ghost var b := a[..];
      assert a[j - 1] == t[j - 1];
      InsertByShift(x, t, j, key);
      a[j] := a[j - 1];
      assert a[..] == b[j := b[j - 1]];
      ShiftStep(b, s, i, j);
      j := j - 1;
    }
    ghost var b := a[..];
    a[j] := x;
    assert a[..] == b[j := x];
    InsertByStop(x, t, j, key);
    Shifted(b, s, i, j, x);
  }

  /** Partway through the insertion: the cells below `j` and above `i` are as they were, and
      the cells from `j + 1` to `i` hold the run shifted one place up. */
  ghost predicate ShiftedUpTo<T>(b: seq<T>, s: seq<T>, i: nat, j: nat) {
    j <= i < |b| == |s| &&
    (forall k :: 0 <= k < j ==> b[k] == s[k]) &&
    (forall k :: j < k <= i ==> b[k] == s[k - 1]) &&
    (forall k :: i < k < |b| ==> b[k] == s[k])
  }

  /** Shifting cell `j - 1` up into cell `j` moves the gap one place down. */
  lemma ShiftStep<T>(b: seq<T>, s: seq<T>, i: nat, j: nat)
    requires 0 < j && ShiftedUpTo(b, s, i, j)
    ensures ShiftedUpTo(b[j := b[j - 1]], s, i, j - 1)
  {
  }

  /** The array after the insertion, read as a sequence: the prefix, the inserted element,
      the shifted run, and the untouched rest. */
  lemma Shifted<T>(b: seq<T>, s: seq<T>, i: nat, j: nat, x: T)
    requires ShiftedUpTo(b, s, i, j)
    ensures b[j := x][..i + 1] == s[..i][..j] + [x] + s[..i][j..]
    ensures b[j := x][i + 1..] == s[i + 1..]
  {
    var c := b[j := x];
    var r := s[..i][..j] + [x] + s[..i][j..];
    forall k | 0 <= k <= i ensures c[k] == r[k] {
      if k > j {
        assert r[k] == s[..i][j..][k - j - 1];
      }
    }
  }

  lemma InsertByShift<T>(x: T, t: seq<T>, j: nat, key: T -> int)
    requires 0 < j <= |t| && key(t[j - 1]) > key(x)
    ensures InsertBy(x, t[..j], key) + t[j..] == InsertBy(x, t[..j - 1], key) + t[j - 1..]
  {
    assert DropLast(t[..j]) == t[..j - 1] && Last(t[..j]) == t[j - 1];
    assert t[j - 1..] == [t[j - 1]] + t[j..];
  }

  lemma InsertByStop<T>(x: T, t: seq<T>, j: nat, key: T -> int)
    requires j <= |t| && (j == 0 || key(t[j - 1]) <= key(x))
    ensures InsertBy(x, t[..j], key) == t[..j] + [x]
  {
    if j > 0 {
      assert Last(t[..j]) == t[j - 1];
    }
  }

  /** The ordinal sort leaves the wrappers in ascending ordinal order, a permutation of the
      input, with equal ordinals in their registration order; sorting them again, as every
      later action does, changes nothing. */
  lemma SortTwice(ws: seq<FuncMetadata>)
    ensures SortedBy(StableSortBy(ws, OrdinalKey), OrdinalKey)
    ensures multiset(StableSortBy(ws, OrdinalKey)) == multiset(ws)
    ensures forall k :: Filter(StableSortBy(ws, OrdinalKey), HasKey(OrdinalKey, k)) == Filter(ws, HasKey(OrdinalKey, k))
    ensures StableSortBy(StableSortBy(ws, OrdinalKey), OrdinalKey) == StableSortBy(ws, OrdinalKey)
  {
    StableSortByProps(ws, OrdinalKey);
    StableSortSorted(StableSortBy(ws, OrdinalKey), OrdinalKey);
  }

  /** `applyWrappers`: sorts the shared wrapper array by ordinal, then chains the wrappers. */
  method ApplyWrappers(currentResult: Instance, metadata: FuncMetadata, wrapperMetadatas: array<FuncMetadata>, funcResultMap: FuncResultMap)
    returns (r: Result<Instance, CallError>)
    modifies wrapperMetadatas
    ensures wrapperMetadatas[..] == StableSortBy(old(wrapperMetadatas[..]), OrdinalKey)
    ensures r == Chain(currentResult, metadata, wrapperMetadatas[..], funcResultMap.entries)
  {
    SortBy(wrapperMetadatas, OrdinalKey);
    var current := currentResult;
    var i := 0;
    while i < wrapperMetadatas.Length
      invariant 0 <= i <= wrapperMetadatas.Length
      invariant Chain(currentResult, metadata, wrapperMetadatas[..i], funcResultMap.entries) == Success(current)
    {
      var w := wrapperMetadatas[i];
      assert DropLast(wrapperMetadatas[..i + 1]) == wrapperMetadatas[..i] && Last(wrapperMetadatas[..i + 1]) == w;
      var wrapperHandler := funcResultMap.Get(w.name);
      if wrapperHandler.None? {
        ChainFails(currentResult, metadata, wrapperMetadatas[..], funcResultMap.entries, i + 1);
        return Failure(NotAFunction(w.name));
      }
      current := Wrapped(wrapperHandler.value.funcInstance, current, metadata);
      i := i + 1;
    }
    assert wrapperMetadatas[..i] == wrapperMetadatas[..];
    return Success(current);
  }

  lemma {:induction false} ChainFails(current: Instance, metadata: FuncMetadata, ws: seq<FuncMetadata>, rs: seq<FuncInstanceMetadata>, n: nat)
    requires n <= |ws| && Chain(current, metadata, ws[..n], rs).Failure?
    ensures Chain(current, metadata, ws, rs) == Chain(current, metadata, ws[..n], rs)
    decreases |ws| - n
  {
    if n < |ws| {
      PrefixStep(ws, n);
      ChainFails(current, metadata, ws, rs, n + 1);
    } else {
      assert ws[..n] == ws;
    }
  }

  // ---------------------------------------------------------------------------------------
  // resolveActionFunctions

  /** `metadata.mainDecorator.data?.["readTypeArguments"]` is truthy. */
  predicate ReadsTypeArguments(metadata: FuncMetadata) {
    match J.Member(metadata.mainDecorator.data, "readTypeArguments")
    case Some(v) => Truthy(v)
    case None => false
  }

  /** The metadata of an action after `extractUseCaseMetadata`, which runs only when the
      tag asks for it. */
  function ActionMetadata(files: seq<SourceFile>, file: SourceFile, metadata: FuncMetadata, parse: string -> Option<Json>)
    : Result<FuncMetadata, CallError>
  {
    if !ReadsTypeArguments(metadata) then Success(metadata)
    else match UseCaseMetadata(files, file, metadata, parse)
      case Failure(e) => Failure(TypeIntrospection(e))
      case Success(m) => Success(m)
  }

  /** One action: its metadata is completed from its type alias, it is called with the
      instances stored so far, and the sorted wrappers wrap it. */
  function ActionStep(files: seq<SourceFile>, funcMap: seq<FuncDeclMetadata>, rs: seq<FuncInstanceMetadata>,
                      wrappers: seq<FuncMetadata>, metadata: FuncMetadata, parse: string -> Option<Json>)
    : Result<seq<FuncInstanceMetadata>, CallError>
  {
    match GetEntry(funcMap, metadata.name)
    case None => Failure(MissingDeclaration(metadata.name))
    case Some(e) =>
      var meta :- ActionMetadata(files, e.sourceFile, metadata, parse);
      var instance :- Instantiate(funcMap, rs, metadata.name);
      var wrapped :- Chain(instance, meta, wrappers, rs);
      Success(Put(rs, FuncInstanceMetadata(metadata.name, wrapped, meta)))
  }

  function ActionPhase(files: seq<SourceFile>, funcMap: seq<FuncDeclMetadata>, rs: seq<FuncInstanceMetadata>,
                       wrappers: seq<FuncMetadata>, metadatas: seq<FuncMetadata>, parse: string -> Option<Json>)
    : Result<seq<FuncInstanceMetadata>, CallError>
  {
    if metadatas == [] then Success(rs)
    else
      var before :- ActionPhase(files, funcMap, rs, wrappers, DropLast(metadatas), parse);
      ActionStep(files, funcMap, before, wrappers, Last(metadatas), parse)
  }

  /** One iteration of `resolveActionFunctions`. The shared wrapper array is sorted by the
      first action that reaches `applyWrappers` and stays sorted after that. */
  method ResolveAction(files: seq<SourceFile>, metadata: FuncMetadata, wrapperMetadatas: array<FuncMetadata>,
                       funcMap: seq<FuncDeclMetadata>, funcResultMap: FuncResultMap, parse: string -> Option<Json>)
    returns (r: Result<seq<FuncInstanceMetadata>, CallError>)
    modifies wrapperMetadatas, funcResultMap
    ensures wrapperMetadatas[..] == old(wrapperMetadatas[..]) || wrapperMetadatas[..] == StableSortBy(old(wrapperMetadatas[..]), OrdinalKey)
    ensures r == ActionStep(files, funcMap, old(funcResultMap.entries), StableSortBy(old(wrapperMetadatas[..]), OrdinalKey), metadata, parse)
    ensures r.Success? ==> funcResultMap.entries == r.value
  {
    var fm := GetEntry(funcMap, metadata.name);
    if fm.None? {
      return Failure(MissingDeclaration(metadata.name));
    }
    var meta := metadata;
    if ReadsTypeArguments(metadata) {
      var extracted := ExtractUseCaseMetadata(files, fm.value.sourceFile, metadata, parse);
      if extracted.Failure? {
        return Failure(TypeIntrospection(extracted.error));
      }
      meta := extracted.value;
    }
    var currentResult := Call(funcMap, funcResultMap, metadata.name);
    if currentResult.Failure? {
      return Failure(currentResult.error);
    }
    var wrapped := ApplyWrappers(currentResult.value, meta, wrapperMetadatas, funcResultMap);
    if wrapped.Failure? {
      return Failure(wrapped.error);
    }
    funcResultMap.Set(FuncInstanceMetadata(metadata.name, wrapped.value, meta));
    return Success(funcResultMap.entries);
  }

  method ResolveActionFunctions(files: seq<SourceFile>, metadatas: seq<FuncMetadata>, wrapperMetadatas: array<FuncMetadata>,
                                funcMap: seq<FuncDeclMetadata>, funcResultMap: FuncResultMap, parse: string -> Option<Json>)
    returns (r: Result<seq<FuncInstanceMetadata>, CallError>)
    modifies wrapperMetadatas, funcResultMap
    ensures wrapperMetadatas[..] == old(wrapperMetadatas[..]) || wrapperMetadatas[..] == StableSortBy(old(wrapperMetadatas[..]), OrdinalKey)
    ensures r == ActionPhase(files, funcMap, old(funcResultMap.entries), StableSortBy(old(wrapperMetadatas[..]), OrdinalKey), metadatas, parse)
    ensures r.Success? ==> funcResultMap.entries == r.value
  {
    ghost var start := funcResultMap.entries;
    ghost var w0 := wrapperMetadatas[..];
    ghost var sorted := StableSortBy(w0, OrdinalKey);
    SortTwice(w0);
    var i := 0;
    while i < |metadatas|
      invariant 0 <= i <= |metadatas|
      invariant wrapperMetadatas[..] == w0 || wrapperMetadatas[..] == sorted
      invariant ActionPhase(files, funcMap, start, sorted, metadatas[..i], parse) == Success(funcResultMap.entries)
    {
      var metadata := metadatas[i];
      ActionPhaseNext(files, funcMap, start, sorted, metadatas, parse, i);
      assert StableSortBy(wrapperMetadatas[..], OrdinalKey) == sorted;
      var step := ResolveAction(files, metadata, wrapperMetadatas, funcMap, funcResultMap, parse);
      if step.Failure? {
        ActionFailureSticks(files, funcMap, start, sorted, metadatas, parse, i + 1);
        return Failure(step.error);
      }
      i := i + 1;
    }
    assert metadatas[..i] == metadatas;
    return Success(funcResultMap.entries);
  }

  /** The phase over one more action is that action's step after the phase so far. */
  lemma ActionPhaseNext(files: seq<SourceFile>, funcMap: seq<FuncDeclMetadata>, rs: seq<FuncInstanceMetadata>,
                        wrappers: seq<FuncMetadata>, metadatas: seq<FuncMetadata>, parse: string -> Option<Json>, i: nat)
    requires i < |metadatas| && ActionPhase(files, funcMap, rs, wrappers, metadatas[..i], parse).Success?
    ensures ActionPhase(files, funcMap, rs, wrappers, metadatas[..i + 1], parse) ==
      ActionStep(files, funcMap, ActionPhase(files, funcMap, rs, wrappers, metadatas[..i], parse).value, wrappers, metadatas[i], parse)
  {
    PrefixStep(metadatas, i);
  }

  lemma {:induction false} ActionFailureSticks(files: seq<SourceFile>, funcMap: seq<FuncDeclMetadata>, rs: seq<FuncInstanceMetadata>,
                                               wrappers: seq<FuncMetadata>, metadatas: seq<FuncMetadata>, parse: string -> Option<Json>, n: nat)
    requires n <= |metadatas| && ActionPhase(files, funcMap, rs, wrappers, metadatas[..n], parse).Failure?
    ensures ActionPhase(files, funcMap, rs, wrappers, metadatas, parse) == ActionPhase(files, funcMap, rs, wrappers, metadatas[..n], parse)
    decreases |metadatas| - n
  {
    if n < |metadatas| {
      PrefixStep(metadatas, n);
      ActionFailureSticks(files, funcMap, rs, wrappers, metadatas, parse, n + 1);
    } else {
      assert metadatas[..n] == metadatas;
    }
  }

  /** The entry an action stores: its own instance under exactly as many layers as there are
      wrappers, the outermost layer being the last wrapper of the sorted order, each layer
      given the action's metadata; that metadata is the registered one unless the tag asks
      for the type arguments to be read. */
  lemma ActionEntry(files: seq<SourceFile>, funcMap: seq<FuncDeclMetadata>, rs: seq<FuncInstanceMetadata>,
                    wrappers: seq<FuncMetadata>, metadata: FuncMetadata, parse: string -> Option<Json>)
    requires ActionStep(files, funcMap, rs, wrappers, metadata, parse).Success?
    ensures var after := ActionStep(files, funcMap, rs, wrappers, metadata, parse).value;
      var e := GetEntry(funcMap, metadata.name).value;
      var stored := GetResult(after, metadata.name);
      GetEntry(funcMap, metadata.name).Some? && e.funcDeclaration.name.Some? &&
      stored.Some? &&
      Peel(stored.value.funcInstance, |wrappers|) ==
        Some(Called(e.sourceFile.path, e.funcDeclaration.name.value, ParamHandlers(e.funcDeclaration.parameterTypes, rs))) &&
      (!ReadsTypeArguments(metadata) ==> stored.value.funcMetadata == metadata)
  {
    var e := GetEntry(funcMap, metadata.name).value;
    var meta := ActionMetadata(files, e.sourceFile, metadata, parse).value;
    var instance := Instantiate(funcMap, rs, metadata.name).value;
    var wrapped := Chain(instance, meta, wrappers, rs).value;
    ChainCore(instance, meta, wrappers, rs);
    PutGet(rs, FuncInstanceMetadata(metadata.name, wrapped, meta), metadata.name);
  }

  /** Together with the sort: the wrapper closest to the action has the smallest ordinal and
      the outermost the largest. */
  lemma ActionLayers(files: seq<SourceFile>, funcMap: seq<FuncDeclMetadata>, rs: seq<FuncInstanceMetadata>,
                     ws: seq<FuncMetadata>, metadata: FuncMetadata, parse: string -> Option<Json>, k: nat)
    requires ActionStep(files, funcMap, rs, StableSortBy(ws, OrdinalKey), metadata, parse).Success?
    requires k < |ws|
    ensures var sorted := StableSortBy(ws, OrdinalKey);
      var stored := GetResult(ActionStep(files, funcMap, rs, sorted, metadata, parse).value, metadata.name);
      stored.Some? &&
      var layer := Peel(stored.value.funcInstance, k);
      layer.Some? && layer.value.Wrapped? &&
      GetResult(rs, sorted[|ws| - 1 - k].name).Some? &&
      layer.value.wrapper == GetResult(rs, sorted[|ws| - 1 - k].name).value.funcInstance &&
      layer.value.metadata == stored.value.funcMetadata &&
      forall i :: 0 <= i < |ws| - 1 - k ==> OrdinalKey(sorted[i]) <= OrdinalKey(sorted[|ws| - 1 - k])
  {
    var sorted := StableSortBy(ws, OrdinalKey);
    ActionStepLayer(files, funcMap, rs, sorted, metadata, parse, k);
    SortedBefore(ws, k);
  }

  /** Layer `k` of the stored action, counted from the outside, is the wrapper `k` places
      from the end of the list, given the stored metadata. */
  lemma ActionStepLayer(files: seq<SourceFile>, funcMap: seq<FuncDeclMetadata>, rs: seq<FuncInstanceMetadata>,
                        wrappers: seq<FuncMetadata>, metadata: FuncMetadata, parse: string -> Option<Json>, k: nat)
    requires ActionStep(files, funcMap, rs, wrappers, metadata, parse).Success?
    requires k < |wrappers|
    ensures var stored := GetResult(ActionStep(files, funcMap, rs, wrappers, metadata, parse).value, metadata.name);
      stored.Some? &&
      var layer := Peel(stored.value.funcInstance, k);
      layer.Some? && layer.value.Wrapped? &&
      GetResult(rs, wrappers[|wrappers| - 1 - k].name).Some? &&
      layer.value.wrapper == GetResult(rs, wrappers[|wrappers| - 1 - k].name).value.funcInstance &&
      layer.value.metadata == stored.value.funcMetadata
  {
    var e := GetEntry(funcMap, metadata.name).value;
    var meta := ActionMetadata(files, e.sourceFile, metadata, parse).value;
    var instance := Instantiate(funcMap, rs, metadata.name).value;
    ChainLayers(instance, meta, wrappers, rs, k);
    var wrapped := Chain(instance, meta, wrappers, rs).value;
    PutGet(rs, FuncInstanceMetadata(metadata.name, wrapped, meta), metadata.name);
  }

  /** In the ordinal sort, nothing before a wrapper has a larger ordinal. */
  lemma SortedBefore(ws: seq<FuncMetadata>, k: nat)
    requires k < |ws|
    ensures var sorted := StableSortBy(ws, OrdinalKey);
      forall i :: 0 <= i < |ws| - 1 - k ==> OrdinalKey(sorted[i]) <= OrdinalKey(sorted[|ws| - 1 - k])
  {
    StableSortByProps(ws, OrdinalKey);
  }

  // ---------------------------------------------------------------------------------------
  // scanFunctions

  /** `project.getSourceFiles()`. */
  function Files(project: seq<ProjectFile>): (fs: seq<SourceFile>)
    ensures |fs| == |project|
  {
    seq(|project|, i requires 0 <= i < |project| => project[i].file)
  }

  /** The three phases over one result map that starts empty: configs, then wrappers, then
      actions wrapped by the wrappers in ordinal order. */
  function Instantiated(files: seq<SourceFile>, funcMap: seq<FuncDeclMetadata>, kinds: Kinds, parse: string -> Option<Json>)
    : Result<seq<FuncInstanceMetadata>, CallError>
  {
    var configs :- ConfigPhase(funcMap, [], kinds.configMetadatas);
    var wrappers :- ConfigPhase(funcMap, configs, kinds.wrapperMetadatas);
    ActionPhase(files, funcMap, wrappers, StableSortBy(kinds.wrapperMetadatas, OrdinalKey), kinds.actionMetadatas, parse)
  }

  method ScanFunctions(project: seq<ProjectFile>, parse: string -> Option<Json>) returns (r: Result<seq<FuncInstanceMetadata>, ScanError>)
    ensures var deps := DepsOf(Extracted(project, parse));
      !AllDefined(deps) ==> r.Failure? && r.error.Unresolvable? && IsFirstMissing(deps, r.error.cause)
    ensures var deps := DepsOf(Extracted(project, parse));
      r.Failure? && r.error.Unresolvable? && r.error.cause.CircularDependency? ==>
        AllDefined(deps) && IsCycle(AdjOf(deps), r.error.cause.path) && Distinct(DropLast(r.error.cause.path))
    ensures var deps := DepsOf(Extracted(project, parse));
      r.Failure? && r.error.Unresolvable? && r.error.cause.CircularDependency? ==>
        FirstCycle(deps) == Some(r.error.cause.path)
    ensures var deps := DepsOf(Extracted(project, parse));
      r.Failure? && r.error.Unresolvable? && AllDefined(deps) ==> r.error.cause.CircularDependency?
    ensures var deps := DepsOf(Extracted(project, parse));
      (r.Failure? && r.error.Unresolvable?) <==> !(AllDefined(deps) && Acyclic(AdjOf(deps)))
    ensures var funcMap := Extracted(project, parse);
      var deps := DepsOf(funcMap);
      AllDefined(deps) && Acyclic(AdjOf(deps)) ==>
        r == Scanned(Instantiated(Files(project), funcMap, KindsOf(funcMap, KahnOrder(deps).sorted), parse))
  {
    var funcMap := ExtractFunctions(project, parse);
    var sorted := SortFunctionsByKind(funcMap);
    if sorted.Failure? {
      return Failure(Unresolvable(sorted.error));
    }
    var instances := InstantiateAll(Files(project), funcMap, sorted.value, parse);
    return Scanned(instances);
  }

  /** The body of `scanFunctions` after the sort: one result map through the three phases. */
  method InstantiateAll(files: seq<SourceFile>, funcMap: seq<FuncDeclMetadata>, kinds: Kinds, parse: string -> Option<Json>)
    returns (r: Result<seq<FuncInstanceMetadata>, CallError>)
    ensures r == Instantiated(files, funcMap, kinds, parse)
  {
    var funcResultMap := new FuncResultMap();
    var configs := ResolveConfigAndWrapperFunctions(kinds.configMetadatas, funcMap, funcResultMap);
    if configs.Failure? {
      return Failure(configs.error);
    }
    var wrappers := ResolveConfigAndWrapperFunctions(kinds.wrapperMetadatas, funcMap, funcResultMap);
    if wrappers.Failure? {
      return Failure(wrappers.error);
    }
    var wrapperMetadatas := new FuncMetadata[|kinds.wrapperMetadatas|](i requires 0 <= i < |kinds.wrapperMetadatas| => kinds.wrapperMetadatas[i]);
    assert wrapperMetadatas[..] == kinds.wrapperMetadatas;
    r := ResolveActionFunctions(files, kinds.actionMetadatas, wrapperMetadatas, funcMap, funcResultMap, parse);
  }

  /** A failed call becomes the scan's error. */
  function Scanned(r: Result<seq<FuncInstanceMetadata>, CallError>): (s: Result<seq<FuncInstanceMetadata>, ScanError>)
    ensures s.Success? <==> r.Success?
    ensures s.Failure? ==> s.error == Failed(r.error)
  {
    match r
    case Success(v) => Success(v)
    case Failure(e) => Failure(Failed(e))
  }

  /** The keys of the result map after a successful action phase, as for the other phases. */
  lemma {:induction false} ActionPhaseKeys(files: seq<SourceFile>, funcMap: seq<FuncDeclMetadata>, rs: seq<FuncInstanceMetadata>,
                                           wrappers: seq<FuncMetadata>, metadatas: seq<FuncMetadata>, parse: string -> Option<Json>)
    requires Distinct(Keys(rs) + MetaNames(metadatas))
    requires ActionPhase(files, funcMap, rs, wrappers, metadatas, parse).Success?
    ensures Keys(ActionPhase(files, funcMap, rs, wrappers, metadatas, parse).value) == Keys(rs) + MetaNames(metadatas)
  {
    if metadatas != [] {
      var p, x := DropLast(metadatas), Last(metadatas);
      var ks, ns := Keys(rs), MetaNames(p);
      assert MetaNames(metadatas) == ns + [x.name];
      ConcatAssoc(ks, ns, [x.name]);
      DistinctPrefix(ks + ns, x.name);
      ActionPhaseKeys(files, funcMap, rs, wrappers, p, parse);
      var before := ActionPhase(files, funcMap, rs, wrappers, p, parse).value;
      assert Keys(before) == ks + ns;
      var e := GetEntry(funcMap, x.name).value;
      var meta := ActionMetadata(files, e.sourceFile, x, parse).value;
      var instance := Instantiate(funcMap, before, x.name).value;
      var wrapped := Chain(instance, meta, wrappers, before).value;
      PutKeys(before, FuncInstanceMetadata(x.name, wrapped, meta));
    }
  }

  /** The result map holds the configs, then the wrappers, then the actions, each in the
      resolver's order, when no name is shared. */
  lemma ScanKeys(files: seq<SourceFile>, funcMap: seq<FuncDeclMetadata>, kinds: Kinds, parse: string -> Option<Json>)
    requires Distinct(MetaNames(kinds.configMetadatas) + MetaNames(kinds.wrapperMetadatas) + MetaNames(kinds.actionMetadatas))
    requires Instantiated(files, funcMap, kinds, parse).Success?
    ensures Keys(Instantiated(files, funcMap, kinds, parse).value) ==
      MetaNames(kinds.configMetadatas) + MetaNames(kinds.wrapperMetadatas) + MetaNames(kinds.actionMetadatas)
  {
    var c, w, a := MetaNames(kinds.configMetadatas), MetaNames(kinds.wrapperMetadatas), MetaNames(kinds.actionMetadatas);
    DistinctSplit(c + w, a);
    DistinctSplit(c, w);
    assert Keys([]) + c == c;
    ConfigPhaseKeys(funcMap, [], kinds.configMetadatas);
    var configs := ConfigPhase(funcMap, [], kinds.configMetadatas).value;
    ConfigPhaseKeys(funcMap, configs, kinds.wrapperMetadatas);
    var wrappers := ConfigPhase(funcMap, configs, kinds.wrapperMetadatas).value;
    ActionPhaseKeys(files, funcMap, wrappers, StableSortBy(kinds.wrapperMetadatas, OrdinalKey), kinds.actionMetadatas, parse);
  }

  lemma DistinctSplit(a: seq<string>, b: seq<string>)
    requires Distinct(a + b)
    ensures Distinct(a) && Distinct(b)
  {
    var t := a + b;
    forall i, j | 0 <= i < j < |a| ensures a[i] != a[j] {
      assert t[i] == a[i] && t[j] == a[j];
    }
    forall i, j | 0 <= i < j < |b| ensures b[i] != b[j] {
      assert t[|a| + i] == b[i] && t[|a| + j] == b[j];
    }
  }
}
