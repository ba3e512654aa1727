# skeleto core, modelled in Dafny

Skeleto is a small dependency-injection container for TypeScript back ends. It reads the
project's source. It registers every exported function whose JSDoc carries one of the
tags `@Config`, `@Wrapper` or `@Action`. These functions are its *injectables*. The name it
registers each one under is the text of the function's return type, and the
function depends on the type texts of its parameters. The dependency resolver then
orders the injectables so that every dependency comes before the functions that need
it. It refuses a dependency that nothing provides, and a dependency cycle. The container
then calls the configs, then the wrappers, then the actions. Each one gets as arguments
the instances built before it. Every action is wrapped by every wrapper, in the order of
the wrappers' `ordinal`. Around this core sit three more pieces:
- the route table an application prints at start-up;
- the helper that turns a camel-case function name into words;
- the OpenAPI document the example application builds from the use cases' metadata.

A depth-first cycle check from the benchmark generator is modelled here too.

The project proves the following about this model:
- **The resolver.** For unique names with no missing dependency and no cycle, its order
  holds every name exactly once. Every dependency comes before every function that lists
  it, and every dependency list ends up empty (`ResolverProofs.KahnCorrect`). The resolver
  fails exactly when a dependency is missing or the graph has a cycle. A missing dependency
  is reported as the first one in list order. A reported cycle is a real cycle with no
  repeated node. It is the first cycle the depth-first searches meet, starting from the
  functions in list order (`Resolver.DependencyResolver.SortFunctions`). The weight table it sorts
  by counts, for each name, the references to it from the functions at or after its last
  declaration, because the count is reset there (`ResolverProofs.InDegreeWeight`).
- **The JSDoc parser.** It keeps one decorator per tag line, in order. Data that starts with
  `{` is parsed as JSON, and is kept raw when parsing fails. Any other data is trimmed.
- **The scanner.** The first qualifying declaration of a name wins, and the keys of its
  function map are distinct. Each kind list follows the resolver's order.
- **Instantiation.** An action's stored instance is its own call, wrapped once by every
  wrapper. The wrapper with the smallest ordinal is innermost. Sorting the wrapper array in
  place is a stable, idempotent permutation.
- **The route table.** Its columns line up, and a tag is printed only where it changes.
- **`camelToPascalWithSpace`.** It capitalises every word of a camel-case name and separates
  the words with spaces.
- **The OpenAPI document.** It holds, under every path and method, the operation of the last
  use case with that route. The parameters and body fields are exactly those the request
  fields declare. References are rewritten and nothing else is changed.
- **The benchmark's cycle check.** It answers true exactly when a cycle is reachable from
  its start node.

The main modelling choices are these:
- **Symbolic instances.** Importing a module and calling a function is the symbolic
  instance `Called(path, name, arguments)`. Applying a wrapper is
  `Wrapped(wrapper, handler, metadata)`.
- **Parameters for outside code.** The compiler's syntax tree is replaced by plain records
  of declarations and imports. `JSON.parse` is the parameter `parse`, and the JSON-schema
  generator is the parameter `generate`.
- **Objects as entry lists.** JavaScript objects are ordered lists of entries, in insertion
  order, and an absent key reads as `undefined`.
- **Sorting.** The source's two `Array.prototype.sort` calls use comparators that subtract
  integer keys. JavaScript's sort is stable, so both are the stable sort by that key.

Several behaviours are modelled as the code has them:
- **Two field keys.** The scanner stores a type literal's field decorators under the key
  `decorator` (src/core/scanner.ts:379), but a named payload type's under `decorators`
  (src/core/scanner.ts:411). The OpenAPI generator reads only `decorators`, so on a request
  declared as a type literal it throws (`OpenApi.BindFieldsSucceeds`).
- **Payload fields come from the contract's file.** A payload type's fields are read from
  the type alias of that name in the contract's own file
  (src/core/scanner.ts:393). So an imported payload type gets no fields, although its
  path and decorators are those of its own declaration
  (`Introspection.ImportedPayloadHasNoFields`).
- **Only the last use case's schemas survive.** The OpenAPI document's
  `components.schemas` is replaced wholesale by every use case
  (src/example/src/app/open_api.ts:157-160). It ends up holding only the last use case's
  definitions (`OpenApi.SchemasAfterSpec`).
- **Route data read from `decorators`.** `printController` reads the `Controller`
  decorator from `funcMetadata.decorators` (src/core/printcontroller.ts:12, 33). The
  metadata type declares only `additionalDecorators` (src/core/type.ts:77), so on the
  metadata the scanner builds, that read finds no list and throws. The model reads the
  list a use case gives as `decorators`, as the test's data supplies it.
- **An import cycle is an error.** A type looked up through a cycle of imports makes
  `getTypeDeclarationSourceFile` recurse until the stack overflows. The model reports this
  as the error `ImportCycle`. The recursion is deterministic, so reaching a file again
  means it never ends.

## Model

| member | source | states |
|---|---|---|
| Resolver.Message | src/core/dependency_resolver.ts:82-95 | A cycle error's text begins `Circular dependency detected: `, and a missing-dependency error's text begins `Function `. |
| Resolver.AdjOf | src/core/dependency_resolver.ts:60-64 | The adjacency map's keys are exactly the function names. |
| Resolver.InitialQueue | src/core/dependency_resolver.ts:102-107 | The initial queue holds at most one entry per function, and each entry is a function name. |
| Resolver.Released | src/core/dependency_resolver.ts:117-118 | A released function keeps its name. If it listed the node, it loses exactly that node's occurrences; otherwise it is unchanged. |
| Resolver.ReleaseUpTo | src/core/dependency_resolver.ts:116-124 | After the callback has visited `i` functions, it has produced `i` updated functions. |
| Resolver.ReleaseDone | src/core/dependency_resolver.ts:116-118 | Each visited function becomes the function with the node filtered out of its dependencies. |
| Resolver.ReleasePushed | src/core/dependency_resolver.ts:119-122 | The pushed names are distinct and were unresolved. The resolved set grows by exactly those names. |
| Resolver.ReleaseWitness | src/core/dependency_resolver.ts:117-121 | Every pushed name belongs to a function that listed the node and now has no dependency left. |
| Resolver.ReleaseComplete | src/core/dependency_resolver.ts:117-122 | Every function that listed the node and now has no dependency left ends up resolved. |
| Resolver.ReleaseMeasure | src/core/dependency_resolver.ts:116-124 | A release keeps the name set. The unresolved names drop by exactly the number of names pushed. |
| Resolver.Step | src/core/dependency_resolver.ts:111-126 | One round of the loop appends the head of the queue to the output, and strictly decreases the loop's variant. |
| Resolver.KahnLoop | src/core/dependency_resolver.ts:111-127 | The ordering loop always stops, and then the queue is empty. |
| Resolver.DependencyResolver.constructor | src/core/dependency_resolver.ts:9-17 | The resolver holds the given functions, with empty resolved, visited and in-stack sets and an empty stack. |
| Resolver.DependencyResolver.GetInDegree | src/core/dependency_resolver.ts:19-30 | The loop computes the weight table `InDegreeOf`. Its meaning is stated by `ResolverProofs.InDegreeWeight`. |
| Resolver.DependencyResolver.DetectCycle | src/core/dependency_resolver.ts:32-57 | A returned path is a cycle of the graph, with no node repeated except the closing one. Without one, the stack and in-stack set are as before, the node is visited and off the stack, and every finished node is finished after its successors. The result is the one the specification `Graph.Dfs` gives; without a cycle, so is the new visited set. |
| Resolver.DependencyResolver.AdjList | src/core/dependency_resolver.ts:60-64 | The `forEach` builds the adjacency map `AdjOf`, whose keys are exactly the function names. |
| Resolver.DependencyResolver.FindCircularDependency | src/core/dependency_resolver.ts:59-74 | A returned path is a cycle of the adjacency map without repeated nodes. A null result means the graph has no cycle at all. The result is the specification `Resolver.FirstCycleFrom`: the searches from the functions in list order share one visited set, and the first cycle they meet is returned. |
| Resolver.DependencyResolver.CheckMissingDependencies | src/core/dependency_resolver.ts:76-86 | It reports an error exactly when some dependency names no function. The error names the first such dependency and its owner, in list order and then dependency order. |
| Resolver.DependencyResolver.SortFunctions | src/core/dependency_resolver.ts:88-130 | A missing dependency gives the first such error, with the functions untouched. With nothing missing, every failure is a cycle error. A cycle error carries a real cycle without repeated nodes, and it is the cycle the search from the functions in list order meets first. It succeeds exactly when nothing is missing and the graph is acyclic, and then returns the Kahn order and leaves the functions as the loop leaves them. |
| Resolver.DependencyResolver.Order | src/core/dependency_resolver.ts:98-127 | The output and the new function list are those of the specification `KahnOrder`. |
| Resolver.DependencyResolver.ReleaseDependents | src/core/dependency_resolver.ts:116-124 | After the `forEach`, the functions, the queue and the resolved set are those of the specification `ReleaseUpTo`. |
| Resolver.DependencyResolver.ReleaseAt | src/core/dependency_resolver.ts:117-122 | Running the callback on function `j` extends the release state from `j` functions to `j + 1`. |
| ResolverProofs.BumpGet | src/core/dependency_resolver.ts:24-26 | Counting a dependency list raises each name's weight by its number of occurrences in the list. |
| ResolverProofs.InDegreeStep | src/core/dependency_resolver.ts:22-27 | One more function resets its own weight to 0, then counts its dependencies. |
| ResolverProofs.InDegreeWeight | src/core/dependency_resolver.ts:19-30 | A name's weight counts its occurrences in the dependency lists of the functions from its last declaration onwards, or of all functions when no function has that name. |
| ResolverProofs.WeightOfName | src/core/dependency_resolver.ts:19-30 | With unique names, a function's weight counts the references to it from its own position onwards. |
| ResolverProofs.ReleaseNone | src/core/dependency_resolver.ts:116-124 | Releasing a name that no function lists pushes nothing and changes nothing. |
| ResolverProofs.KahnNoDeps | src/core/dependency_resolver.ts:102-127 | Functions without dependencies come out in list order. |
| ResolverProofs.AdjOfUnique | src/core/dependency_resolver.ts:62-64 | With unique names, a function's entry in the adjacency map is its dependency list. |
| ResolverProofs.InitialQueueMem | src/core/dependency_resolver.ts:102-107 | With unique names, a function is queued initially exactly when it has no dependencies. |
| ResolverProofs.InitialQueueDistinct | src/core/dependency_resolver.ts:102-107 | With unique names, the initial queue has no repeated name. |
| ResolverProofs.KInvInit | src/core/dependency_resolver.ts:98-109 | The sorted initial queue satisfies the loop invariant: names kept, pending dependencies listed, nothing repeated, and the output ordered. |
| ResolverProofs.StepKeepsKInv | src/core/dependency_resolver.ts:111-126 | One round of the loop keeps the invariant. |
| ResolverProofs.LoopKeepsKInv | src/core/dependency_resolver.ts:111-127 | The whole loop keeps the invariant. |
| ResolverProofs.UnresolvedClosed | src/core/dependency_resolver.ts:111-127 | When the queue is empty, every name not yet output waits for another name not yet output. |
| ResolverProofs.WaitedFor | src/core/dependency_resolver.ts:116-122 | An unresolved function lists a defined dependency that is not output yet. |
| ResolverProofs.DrainedIsComplete | src/core/dependency_resolver.ts:111-127 | With unique names, nothing missing and no cycle, the drained loop has output every name. |
| ResolverProofs.NameCount | src/core/dependency_resolver.ts:1-4 | Unique names make as many names as functions. |
| ResolverProofs.DrainedEmpty | src/core/dependency_resolver.ts:116-118 | Once every name is output, every dependency list is empty. |
| ResolverProofs.KahnCorrect | src/core/dependency_resolver.ts:88-130 | With unique names, nothing missing and no cycle, the order holds every name exactly once, and each dependency comes before every function listing it. Every function keeps its name and its dependency list is emptied. |
| ResolverProofs.KahnOutput | src/core/dependency_resolver.ts:111-127 | Under the same assumptions, the output is distinct, covers every name, and respects every dependency. |
| ResolverProofs.KahnEmptied | src/core/dependency_resolver.ts:116-118 | Under the same assumptions, the loop leaves every function with its name and an empty dependency list. |
| ResolverProofs.KahnKeepsKInv | src/core/dependency_resolver.ts:98-127 | With unique names, the invariant holds when the loop stops. |
| ResolverExamples.NoDependencies | src/test/dependency_resolver.test.ts:4-13 | Functions without dependencies, whatever their names, come out in list order. |
| ResolverExamples.Linear | src/test/dependency_resolver.test.ts:15-24 | The chain `C` needs `B` needs `A` comes out as `A`, `B`, `C`. |
| ResolverExamples.DiamondWeights | src/test/dependency_resolver.test.ts:26-36 | In the diamond, `A` has weight 2, `B` and `C` weight 1, and `D` weight 0. |
| ResolverExamples.Diamond | src/test/dependency_resolver.test.ts:26-36 | The diamond comes out as `A`, `B`, `C`, `D`. |
| ResolverExamples.MissingDependency | src/test/dependency_resolver.test.ts:38-42 | The only error a function `A` needing `X` can report names owner `A` and missing `X`. |
| ResolverExamples.MissingDependencyMessage | src/test/dependency_resolver.test.ts:41 | That error's message is `Function A cannot be resolved because it depends on X which is not defined.` |
| ResolverExamples.MissingDependencyThrown | src/test/dependency_resolver.test.ts:38-42 | A resolver for `A` needing `X` fails with exactly that error, and its message is the text the test expects. |
| ResolverExamples.MissingDependencyRefused | src/test/dependency_resolver.test.ts:38-42 | That list has a missing dependency, so it is refused. |
| ResolverExamples.CircularDependencyFound | src/test/dependency_resolver.test.ts:44-52 | `A -> B -> C -> A` is a cycle of the three functions, none of whose dependencies is missing, so the graph is not acyclic. |
| ResolverExamples.CircularDependencyReported | src/test/dependency_resolver.test.ts:44-52 | The search starts at `A` and reports exactly the cycle `A -> B -> C -> A`. |
| ResolverExamples.CircularDependencyThrown | src/test/dependency_resolver.test.ts:44-52 | A resolver for the test's three functions fails with exactly that cycle, and its message is `Circular dependency detected: A -> B -> C -> A`. |
| ResolverExamples.CircularDependencyMessage | src/test/dependency_resolver.test.ts:51 | That cycle's message is `Circular dependency detected: A -> B -> C -> A`. |
| ResolverExamples.LayeredWeights | src/test/dependency_resolver.test.ts:54-66 | In the six-node graph, `B`, `C`, `D` and `E` each have weight 1. |
| ResolverExamples.Layered | src/test/dependency_resolver.test.ts:54-66 | The six-node graph comes out as `A` to `F`. |
| Graph.StackCycle | src/core/dependency_resolver.ts:33-36 | The stack slice from the revisited node, closed by that node, is a cycle without repeated nodes. |
| Graph.SearchPush | src/core/dependency_resolver.ts:43-45 | Entering an unvisited successor of the top of the stack keeps the search invariant. |
| Graph.SearchPop | src/core/dependency_resolver.ts:54-55 | Leaving a node whose successors are all finished keeps the invariant and finishes the node. |
| Graph.FinishOrderAcyclic | src/core/dependency_resolver.ts:66-73 | A search that finished every key of the graph without a cycle proves that the graph has no cycle. |
| Graph.FinishedReachesNoCycle | benchmarking/scan_folders/src/index.ts:56 | No cycle is reachable from a node the search has finished. |
| Graph.WalkToCycle | benchmarking/scan_folders/src/index.ts:65-66 | An edge back to a node of a walk from `start` makes a cycle reachable from `start`. |
| Graph.ClosedSetCycle | src/core/dependency_resolver.ts:111-127 | A nonempty set of nodes, each with a successor in the set, holds a cycle. |
| CycleCheck.CycleSearch.constructor | benchmarking/scan_folders/src/index.ts:95 | A search starts with empty `visited` and `stack` sets. |
| CycleCheck.CycleSearch.HasCycle | benchmarking/scan_folders/src/index.ts:55-73 | An already visited start is only deleted from `stack`. Otherwise `true` means a cycle is reachable from the start, and the start stays on `stack` with everything that was on it. `false` means the start is finished and `stack` is as before. |
| CycleCheck.HasCycleFrom | benchmarking/scan_folders/src/index.ts:95 | With fresh sets, the answer is true exactly when a cycle is reachable from the start. |
| CycleCheck.PrependReachesCycle | benchmarking/scan_folders/src/index.ts:63 | An edge into a node that reaches a cycle makes the cycle reachable from the edge's source. |
| CycleCheck.BackEdgeReachesCycle | benchmarking/scan_folders/src/index.ts:65-66 | An edge from the top of the stack back to a node on it makes a cycle reachable from the top. |
| CycleCheck.NoEntryNoCycle | benchmarking/scan_folders/src/index.ts:60-61 | A node without an entry in the graph reaches no cycle. |
| Annotations.GetDecoratorMetadata | src/core/scanner.ts:31-81 | The decorators are those of the doc blocks, block after block. |
| Annotations.ReadBlock | src/core/scanner.ts:57-77 | The line loop over one block yields one decoded decorator per tag its lines build. |
| Annotations.DecodeAll | src/core/scanner.ts:34-53 | There is one decorator per tag. |
| Annotations.FindTag | src/core/scanner.ts:62 | A found position is at or after the start, and an `@` followed by a word character begins there. |
| Annotations.FindTagNone | src/core/scanner.ts:62 | No position found means no tag starts anywhere after the start. |
| Annotations.FindTagFirst | src/core/scanner.ts:62 | The found position is the first one after the start. |
| Annotations.WordLengthSpec | src/core/scanner.ts:62 | `\w+` takes every word character at the front and stops at the first other character. |
| Annotations.LineLengthSpec | src/core/scanner.ts:62 | `.*` takes no line terminator. |
| Annotations.TagMatchNone | src/core/scanner.ts:62-63 | A line fails to match exactly when it holds no `@` followed by a word character. |
| Annotations.TagMatchFirst | src/core/scanner.ts:62 | The leftmost `@` with a word character is matched, and the name is the whole word after it. |
| Annotations.TagMatchShape | src/core/scanner.ts:62-68 | A matched name is a nonempty run of word characters. The data holds no line terminator and does not start with white space. |
| Annotations.LineStep | src/core/scanner.ts:61-72 | A tag line appends a tag. Any other line extends the last tag's data, or changes nothing before the first tag. |
| Annotations.BlockNames | src/core/scanner.ts:61-77 | The tags' names are those of the tag lines, in order; continuation lines never rename a tag. |
| Annotations.UntaggedPrefix | src/core/scanner.ts:70 | Lines before the first tag leave no trace. |
| Annotations.UntaggedNone | src/core/scanner.ts:58-77 | A block without a tag line gives no decorator. |
| Annotations.TagLineSplits | src/core/scanner.ts:63-69 | A tag line closes the tags before it. The tags from it on follow the earlier ones, which it does not change. |
| Annotations.OneTag | src/core/scanner.ts:68-71 | A tag line followed by untagged lines gives one tag. Its data is the tag line's data, then each later line trimmed, each after a space. |
| Annotations.DecodeNames | src/core/scanner.ts:34-53 | Decoding keeps each tag's name and position. |
| Annotations.JsonData | src/core/scanner.ts:37-52 | Data that starts with `{` is the parsed JSON, or the raw text when parsing fails. |
| Annotations.TextData | src/core/scanner.ts:43-47 | Any other data is the trimmed text. |
| Annotations.BareTag | src/core/scanner.ts:62-77 | A block holding only `@Config` gives one `Config` decorator with empty text as data. |
| JsStrings.ToUpperAt | src/core/printcontroller.ts:45-47 | Upper-casing changes each character alone: ASCII lower-case letters become upper-case, and every other character is kept. |
| JsStrings.TrimSpec | src/core/scanner.ts:71 | The trimmed text is what lies between the leading and the trailing white space. |
| JsStrings.TrimEnds | src/core/scanner.ts:46 | Trimmed text neither starts nor ends with white space. |
| JsStrings.PadEndAt | src/core/printcontroller.ts:45-48 | `padEnd` keeps the text as a prefix and fills the rest with spaces. |
| JsStrings.PadStartAt | src/core/printcontroller.ts:47 | `padStart` keeps the text as a suffix and fills the front with spaces. |
| JsStrings.FindFrom | src/example/src/app/open_api.ts:174 | The found index is the first occurrence at or after the start. Nothing found means no occurrence. |
| JsStrings.ReplaceFirstAtStart | src/example/src/app/open_api.ts:174 | A pattern at the front is replaced there. |
| JsStrings.Split | src/core/scanner.ts:57 | `split` gives at least one part, and no part holds the separator. |
| JsStrings.SplitJoin | src/core/scanner.ts:57 | Joining the parts of a split with the separator gives the text back. |
| Json.LookupAbsent | src/example/src/app/open_api.ts:61 | A key reads as `undefined` exactly when no entry has it. |
| Json.LookupSetKey | src/example/src/app/open_api.ts:121-155 | After an assignment, the key reads as the new value and every other key as before. |
| Json.KeysSetKey | src/example/src/app/open_api.ts:121-155 | An assignment keeps the key order and appends a new key at the end. |
| Json.LookupDeleteKey | src/example/src/app/open_api.ts:188 | After a `delete`, the key reads as `undefined` and every other key as before. |
| Json.DeleteKeyMem | src/example/src/app/open_api.ts:188 | An entry survives a `delete` exactly when its key is another one. |
| Json.LookupSpread | src/example/src/app/open_api.ts:118 | A spread reads a key from the second object when it has the key, and from the first otherwise. |
| Types.FindDecoratorSpec | src/core/printcontroller.ts:12 | `find` fails exactly when no decorator has the name, and what it finds has the name. |
| Types.FindDecoratorFirst | src/core/printcontroller.ts:12 | `find` returns the first decorator with the name. |
| Naming.SplitCamelSpaced | src/example/demo_001/src/infrastructure/shared.ts:3 | The global scan of the first replacement puts one space after each lower-case letter followed by an upper-case one. |
| Naming.SpacedLength | src/example/demo_001/src/infrastructure/shared.ts:3 | The first replacement adds one character per lower-to-upper boundary. |
| Naming.CapitalizeRunsAt | src/example/demo_001/src/infrastructure/shared.ts:4 | The second replacement upper-cases the first letter of every maximal run of letters and keeps every other character. |
| Naming.CamelToPascalWithSpaceSpec | src/example/demo_001/src/infrastructure/shared.ts:1-5 | The result has one space more per boundary. Each character is the spaced input's character, upper-cased where a run of letters starts. |
| Naming.CamelWordsSpaced | src/example/demo_001/src/infrastructure/shared.ts:1-5 | A camel-case name comes out as its words, each capitalised, separated by single spaces. |
| Naming.SpacedWordsJoin | src/example/demo_001/src/infrastructure/shared.ts:3 | The first replacement turns a camel-case name into its words joined by spaces. |
| Naming.CapitalizeJoin | src/example/demo_001/src/infrastructure/shared.ts:4 | The second replacement capitalises each word of a space-separated sequence of words. |
| Naming.CamelCaseString | src/test/helper.test.ts:5 | `camelCaseString` becomes `Camel Case String`. |
| Naming.AnotherExampleString | src/test/helper.test.ts:6 | `anotherExampleString` becomes `Another Example String`. |
| Naming.SimpleTest | src/test/helper.test.ts:7 | `simpleTest` becomes `Simple Test`. |
| Naming.EmptyName | src/test/helper.test.ts:11 | The empty name stays empty. |
| Naming.PascalCase | src/test/helper.test.ts:15 | `PascalCase` becomes `Pascal Case`. |
| Naming.SimpleWord | src/test/helper.test.ts:16 | `simple` becomes `Simple`. |
| Scanner.SplitDecorators | src/core/scanner.ts:137-145 | The main decorator is the last injectable tag, and the additional ones are the other tags, in order. |
| Scanner.LastInjectableSpec | src/core/scanner.ts:135-141 | There is no main decorator exactly when no tag is injectable. Otherwise it is one of the injectable tags. |
| Scanner.AdditionalSpec | src/core/scanner.ts:142-144 | The additional decorators are exactly the tags that are not injectable. |
| Scanner.ExtractFunctions | src/core/scanner.ts:114-165 | The loops register the project's declarations file by file, each as the specification `Register` says. |
| Scanner.RegisterOne | src/core/scanner.ts:119-158 | One declaration is registered when it is exported, named, has a return type and an injectable tag, and its return type's name is new. |
| Scanner.RegisterAllAppend | src/core/scanner.ts:117-118 | Registering two lists of declarations is registering the first, then the second. |
| Scanner.RegisteredDistinct | src/core/scanner.ts:129 | The function map's keys stay distinct. |
| Scanner.RegisteredFrom | src/core/scanner.ts:119-158 | A registered name was there before, or some declaration qualifies under it. |
| Scanner.FirstWins | src/core/scanner.ts:129-158 | The entry of a new name is that of the first declaration qualifying under it. |
| Scanner.EntriesInjectable | src/core/scanner.ts:135-141 | Every entry's main decorator is injectable. |
| Scanner.RegisterShape | src/core/scanner.ts:119-158 | Registering keeps the entries. It adds at most the declaration's own entry, whose main decorator is injectable. |
| Scanner.DepsOf | src/core/scanner.ts:177 | The resolver gets one name-and-dependencies record per registered function. |
| Scanner.SortFunctionsByKind | src/core/scanner.ts:172-207 | The resolver's errors are passed on with their guarantees: with nothing missing, a failure is a cycle error, carrying the cycle the search meets first. It succeeds exactly when nothing is missing and there is no cycle, and then returns the resolver's order split by kind. |
| Scanner.Partition | src/core/scanner.ts:181-202 | The loop over the order builds the three kind lists of the specification `KindsOf`. |
| Scanner.KindsKeepOrder | src/core/scanner.ts:181-202 | Each kind list is the resolver's order restricted to that kind. |
| Scanner.KindKeepsOrder | src/core/scanner.ts:181-202 | The list of any injectable kind is the order restricted to that kind. |
| Scanner.ClassifyListOf | src/core/scanner.ts:186-201 | One name extends the list of its own kind and leaves the other lists alone. |
| Scanner.KindsCover | src/core/scanner.ts:181-202 | When every name is registered with an injectable tag, every name lands in exactly one list. |
| Introspection.Message | src/core/scanner.ts:317 | A type that is not found is reported as `Type X not found at P`. A type argument of another kind gets the message `the type should be Reference or Literal` (src/core/scanner.ts:384). These two are the only errors the scanner words itself. |
| Introspection.FirstDeclaringSpec | src/core/scanner.ts:262-291 | Nothing is found exactly when no type alias, class, interface or enum has the name. Otherwise one of them is found. |
| Introspection.ImportedFromIn | src/core/scanner.ts:305-313 | An import leads to a file of the project. |
| Introspection.ImportedFromNone | src/core/scanner.ts:305-315 | Nothing is found through the imports exactly when none of them names the type and resolves. |
| Introspection.TypeDeclarationFound | src/core/scanner.ts:299-318 | The file found declares the name, and is the starting file or one of the project's. |
| Introspection.TypeDeclarationHere | src/core/scanner.ts:300-303 | A file that declares the name is itself the answer. |
| Introspection.TypeNotFoundAt | src/core/scanner.ts:317 | The error names the type, and a file that neither declares it nor imports it from a module that resolves. |
| Introspection.ReferencePayload | src/core/scanner.ts:389-437 | The payload of a type reference fails exactly when the declaring file is not found, with that error. Otherwise it is named by the reference and has the declaring file's path. |
| Introspection.FieldsAt | src/core/scanner.ts:402-412 | Field `i` is property signature `i`, with its name, type text and decorators. |
| Introspection.HandleEach | src/core/scanner.ts:357-359 | The loop over the type arguments is the specification `HandleTypeArguments`. |
| Introspection.FailureSticks | src/core/scanner.ts:357-359 | Once a type argument throws, the walk's result stays that error. |
| Introspection.RequestResponse | src/core/scanner.ts:382 | With two arguments, the first fills `request`, the second fills `response`, and nothing else changes. |
| Introspection.HandledKinds | src/core/scanner.ts:363-386 | The walk succeeds only when every argument is a type reference or a type literal. |
| Introspection.HandledRest | src/core/scanner.ts:363-437 | The walk changes only `request` and `response`. |
| Introspection.ImportedPayloadHasNoFields | src/core/scanner.ts:393-435 | A payload whose alias is not in the contract's file gets an empty field list. |
| Introspection.ExtractUseCaseMetadata | src/core/scanner.ts:331-360 | The steps compute the specification `UseCaseMetadata`. |
| Introspection.NoTypeArguments | src/core/scanner.ts:339-354 | A contract without type arguments only sets `returnTypeDecorator`, to the alias's decorators. |
| Instances.Put | src/core/scanner.ts:229 | A `set` of an existing key keeps the size, and a new key adds one entry. |
| Instances.FuncResultMap.constructor | src/core/scanner.ts:453 | The result map starts empty. |
| Instances.FuncResultMap.Set | src/core/scanner.ts:229 | `set` replaces the entries by `Put` of the old entries. |
| Instances.PutGet | src/core/scanner.ts:229 | After a `set`, the key reads as the new entry and every other key as before. |
| Instances.PutKeys | src/core/scanner.ts:229 | A `set` appends a new key and leaves an existing one in its place. |
| Instances.GetParameterHandler | src/core/scanner.ts:17-29 | The handlers are the stored instances of the parameter types, in parameter order, skipping unknown types. |
| Instances.ParamHandlersAll | src/core/scanner.ts:20-26 | When every parameter type is stored, argument `i` is the instance stored under parameter `i`'s type. |
| Instances.ParamHandlersNone | src/core/scanner.ts:23 | Parameter types that are not stored contribute no argument. |
| Instances.Call | src/core/scanner.ts:217-227 | The call computes the specification `Instantiate`: a missing entry or an unnamed declaration throws, and otherwise the result is the call with the stored handlers. |
| Instances.ResolveConfigAndWrapperFunctions | src/core/scanner.ts:215-232 | The loop is the specification `ConfigPhase`. On success the result map holds the phase's entries. |
| Instances.ConfigPhaseNext | src/core/scanner.ts:216-230 | One more config is that config's step after the phase so far. |
| Instances.FailureSticks | src/core/scanner.ts:216-230 | Once a config throws, the phase's result stays that error. |
| Instances.ConfigPhaseKeys | src/core/scanner.ts:229 | With distinct names, a successful phase appends its functions' names to the keys, in order. |
| Instances.ChainSucceeds | src/core/scanner.ts:323-326 | The chain succeeds exactly when every wrapper has an instance. |
| Instances.ChainLayers | src/core/scanner.ts:323-326 | Layer `k` from the outside is the wrapper `k` places from the end, given the action's metadata. |
| Instances.ChainCore | src/core/scanner.ts:323-326 | Under all the layers lies the action's own instance. |
| Instances.SortBy | src/core/scanner.ts:322 | The in-place sort leaves the array as the stable sort of its old contents by the key. |
| Instances.InsertInto | src/core/scanner.ts:322 | One insertion puts `a[i]` into the sorted prefix and leaves the rest of the array alone. |
| Instances.SortTwice | src/core/scanner.ts:322 | The ordinal sort is ascending, a permutation, and stable for equal ordinals. Sorting again changes nothing. |
| Instances.ApplyWrappers | src/core/scanner.ts:321-328 | The shared array ends up sorted by ordinal, and the result is the chain over the sorted wrappers. |
| Instances.ChainFails | src/core/scanner.ts:323-326 | Once a wrapper has no instance, the chain's result stays that error. |
| Instances.ResolveAction | src/core/scanner.ts:241-258 | One action is the step `ActionStep` over the sorted wrappers. The array is either unchanged or sorted. |
| Instances.ResolveActionFunctions | src/core/scanner.ts:235-260 | The loop is the specification `ActionPhase` over the sorted wrappers. On success the result map holds its entries. |
| Instances.ActionPhaseNext | src/core/scanner.ts:241-258 | One more action is that action's step after the phase so far. |
| Instances.ActionFailureSticks | src/core/scanner.ts:241-258 | Once an action throws, the phase's result stays that error. |
| Instances.ActionEntry | src/core/scanner.ts:249-257 | The stored action is its own call under exactly as many layers as there are wrappers. Its metadata is the registered one unless the tag asks for the type arguments to be read. |
| Instances.ActionLayers | src/core/scanner.ts:255 | With the ordinal sort, the layer `k` places from the outside is a wrapper whose ordinal is at least the ordinal of every wrapper inside it. |
| Instances.ActionStepLayer | src/core/scanner.ts:255-257 | Layer `k` of the stored action is the wrapper `k` places from the end, given the stored metadata. |
| Instances.SortedBefore | src/core/scanner.ts:322 | In the ordinal sort, nothing before a wrapper has a larger ordinal. |
| Instances.ScanFunctions | src/core/scanner.ts:444-465 | A failure of the resolver comes back with its guarantees, exactly when a dependency is missing or there is a cycle. With nothing missing, it is a cycle error, carrying the cycle the search meets first. Otherwise the result is the three phases over the resolver's kind lists. |
| Instances.InstantiateAll | src/core/scanner.ts:453-462 | One result map goes through the config, wrapper and action phases. |
| Instances.Scanned | src/core/scanner.ts:444-465 | The scan fails exactly when a call fails, and then with that call's error. |
| Instances.ActionPhaseKeys | src/core/scanner.ts:257 | With distinct names, a successful action phase appends the actions' names to the keys. |
| Instances.ScanKeys | src/core/scanner.ts:453-464 | Without shared names, the result map holds the configs, then the wrappers, then the actions, each in the resolver's order. |
| PrintController.RoutesOfAt | src/core/printcontroller.ts:12 | Route `i` is use case `i`'s `Controller` data. |
| PrintController.MaxLenBound | src/core/printcontroller.ts:14-25 | No entry is longer than its column's width. |
| PrintController.MaxLenAttained | src/core/printcontroller.ts:14-25 | A nonempty column's width is the length of one of its entries. |
| PrintController.TitlesAt | src/core/printcontroller.ts:18 | The use-case column holds each name in words. |
| PrintController.Print | src/core/printcontroller.ts:4-51 | It fails exactly when some use case lacks usable `Controller` data. Otherwise there is one row per use case, as the table specification says. |
| PrintController.MeasureColumns | src/core/printcontroller.ts:9-26 | The first pass fails exactly when a use case lacks a route. Otherwise it yields the widest tag, title and path. |
| PrintController.FormatRows | src/core/printcontroller.ts:28-50 | The second pass builds the table's rows in order. |
| PrintController.WidthsStep | src/core/printcontroller.ts:14-25 | One more use case widens each column to its own entry's length when that entry is wider. |
| PrintController.TableNext | src/core/printcontroller.ts:30-50 | The rows for `n + 1` use cases are those for `n`, followed by row `n`. |
| PrintController.CellWidths | src/core/printcontroller.ts:43-49 | The tag, use-case and path cells are exactly as wide as their columns. The method cell is 6 characters wide, or as wide as the method when that is longer. |
| PrintController.WidthsAttained | src/core/printcontroller.ts:5-25 | Each column's width is the length of one of its entries. |
| PrintController.CellContents | src/core/printcontroller.ts:43-49 | The cells are the upper-cased label, the title and the path, each padded with spaces. The method cell is the upper-cased method, right-aligned. |
| PrintController.UpperPadStart | src/core/printcontroller.ts:47 | Upper-casing after left padding is the same as left padding after upper-casing. |
| PrintController.ShownTagIsTag | src/core/printcontroller.ts:35-41 | When no tag is empty, the nearest label printed at or above a row is that row's tag. |
| PrintController.ThreeLetterMethod | src/core/printcontroller.ts:47 | A three-letter method is printed upper-cased after three spaces. |
| PrintController.TestGroupLabels | src/test/print_controller.test.ts:36-61 | The test's labels are `User`, empty, empty, `Product`, and its tag and path columns are 7 and 13 characters wide. |
| PrintController.TestMethodCells | src/test/print_controller.test.ts:36-61 | The test's method cells are `   GET`, `   PUT` and `DELETE`. |
| PrintController.TestPrintController | src/test/print_controller.test.ts:33-62 | The test's four use cases give exactly four rows, and each of their cells is the text the test expects. |
| PrintController.TestEmptyArray | src/test/print_controller.test.ts:64-67 | No use cases give an empty table. |
| OpenApi.UpdateReferencesShape | src/example/src/app/open_api.ts:166-180 | The walk changes nothing but the values of `$ref` entries. |
| OpenApi.UpdateReferencesRefs | src/example/src/app/open_api.ts:166-180 | The references after the walk are those before it, each rewritten, in document order. |
| OpenApi.RewriteRefPrefix | src/example/src/app/open_api.ts:174 | A reference into `#/definitions/` points at the same name under `#/components/schemas/`. |
| OpenApi.LookupUpdated | src/example/src/app/open_api.ts:171-177 | Each key of the walked object reads as the walked value, rewritten when the key is `$ref`. |
| OpenApi.DeleteKeysMem | src/example/src/app/open_api.ts:186-190 | An entry survives the deletions exactly when its key is not listed. |
| OpenApi.LookupDeleteKeys | src/example/src/app/open_api.ts:186-190 | A listed key reads as `undefined`, and every other key as before. |
| OpenApi.KeepRequiredMem | src/example/src/app/open_api.ts:193 | A required name survives exactly when it is not a removed field. |
| OpenApi.RemoveFields | src/example/src/app/open_api.ts:182-196 | The loops compute the specification `RemoveFieldsFromSchema`. |
| OpenApi.RemoveFieldsSpec | src/example/src/app/open_api.ts:182-196 | `properties` keeps exactly the properties not listed, and `required` exactly the names not listed. A missing `required` stays missing, and every other key is unchanged. |
| OpenApi.RemoveFieldsProperties | src/example/src/app/open_api.ts:186-190 | `properties` becomes the old properties without the listed keys. |
| OpenApi.DeleteKeysEmpty | src/example/src/app/open_api.ts:105 | No property is left exactly when every property was deleted. |
| OpenApi.ConvertDefinitions | src/example/src/app/open_api.ts:198-221 | The loop computes the specification `ConvertDefinitionsToSchemas`. |
| OpenApi.CopyDefinitionsSpec | src/example/src/app/open_api.ts:205-217 | Every definition that is not a boolean is kept under its key, and no other key appears. |
| OpenApi.BindDecorators | src/example/src/app/open_api.ts:51-86 | The loop over a field's decorators is the specification `BindField`. |
| OpenApi.BindRequest | src/example/src/app/open_api.ts:48-87 | The loop over the request's fields is the specification `Bind`. |
| OpenApi.BindFailureSticks | src/example/src/app/open_api.ts:48-51 | A field that stops the loop stops it for good. |
| OpenApi.BindFieldsSucceeds | src/example/src/app/open_api.ts:48-51 | The request is bound exactly when every field stores its decorators under `decorators`. |
| OpenApi.BindPartAdds | src/example/src/app/open_api.ts:54-85 | A decorator adds a body field only for `body`, and a parameter only for `param` or `query`. |
| OpenApi.BindFieldBody | src/example/src/app/open_api.ts:82-84 | A field adds its name to the body fields exactly when it has a `@RequestPart body`. |
| OpenApi.BindFieldParameters | src/example/src/app/open_api.ts:56-80 | A field adds a path parameter exactly for `param`, and a query parameter exactly for `query`. |
| OpenApi.BindFieldPath | src/example/src/app/open_api.ts:59 | A field without `@RequestPart param` leaves the path alone. |
| OpenApi.BindFieldsBody | src/example/src/app/open_api.ts:48-87 | The body fields are the names of the fields with a `@RequestPart body`. |
| OpenApi.BindFieldsParameters | src/example/src/app/open_api.ts:48-87 | The parameters are the path and query parameters that the fields declare. |
| OpenApi.BindFieldsPath | src/example/src/app/open_api.ts:48-87 | Without `param` fields, the route keeps its path. |
| OpenApi.BindFieldsErrors | src/example/src/app/open_api.ts:51 | The loop only stops at a field without `decorators`. |
| OpenApi.RequestBodyPresent | src/example/src/app/open_api.ts:89-108 | A request schema with properties has a body schema exactly when some property is a body field. |
| OpenApi.BuildOperation | src/example/src/app/open_api.ts:33-120 | The callback computes the specification `OperationOf`. |
| OpenApi.NoControllerSpec | src/example/src/app/open_api.ts:40-42 | A use case fails for want of a controller exactly when it has no `Controller` decorator. |
| OpenApi.OperationRoute | src/example/src/app/open_api.ts:40-42 | An operation sits under its controller's method, and under its controller's path when no field is a path parameter. |
| OpenApi.OperationItemSpec | src/example/src/app/open_api.ts:125-153 | The id is the use case's name and the summary its name in words. `security` is copied, and parameters appear only when there are some. A request body appears only for a body schema and a method that carries one, required exactly when there are body fields. A response always appears. |
| OpenApi.OperationsSpec | src/example/src/app/open_api.ts:33 | Generation succeeds exactly when every use case gives an operation, and then yields one operation per use case, in order. |
| OpenApi.MergeAllPathOp | src/example/src/app/open_api.ts:121-155 | Under every path and method sits the operation of the last use case with that route, and the other methods of the path are kept. |
| OpenApi.MergeAllPaths | src/example/src/app/open_api.ts:121-124 | A path appears exactly when some use case's route has it. |
| OpenApi.SpreadDistinct | src/example/src/app/open_api.ts:118 | Spreading keeps an object's keys distinct. |
| OpenApi.SchemasAfterSpec | src/example/src/app/open_api.ts:157-160 | `components.schemas` holds the non-boolean definitions of the last use case, and only those. |
| OpenApi.GenerateOpenAPIObject | src/example/src/app/open_api.ts:13-164 | The loop computes the specification `OpenApiDocument`. |

## Left out

- Scanner.RegisterOne: a parameter is always given by its type text, so a parameter without a type annotation cannot be written. On such a parameter of a qualifying function, the source's `getFunctionParameters` calls `getText()` on `undefined` (src/core/scanner.ts:10, 14, 147). That throws a TypeError, and `extractFunctions` fails. The model does not capture that failure, so Scanner.ExtractFunctions, which uses Scanner.RegisterOne, does not capture it either.
- JsStrings.PadEnd: lengths count Unicode scalar values, where JavaScript's `length`, `padEnd` and `padStart` count UTF-16 code units. A name holding a character outside the Basic Multilingual Plane therefore gets other column widths. This applies to JsStrings.PadStart and PrintController.MaxLen as well.
- JsStrings.ReplaceFirst: the replacement text is inserted literally. JavaScript's `replace` expands `$$`, `$&` and the other `$` patterns in it. So the path rewrite at src/example/src/app/open_api.ts:59 differs for a field whose name holds `$`.
- OpenApi.RemoveFieldsFromSchema: a `required` member that is present but not an array is dropped. The source's `required?.filter` throws on it instead (src/example/src/app/open_api.ts:193).
- OpenApi.RequestSchema: a request schema whose `properties` is present but is not an object (a string, an array, a number, a boolean or `null`) is reported as `NoSchema`. In the source, `Object.keys` throws only on `null` or `undefined`; on the other values it returns their index keys or none, and generation goes on (src/example/src/app/open_api.ts:93). The schema generator writes `properties` as an object for every object type.
- Introspection.Message: the texts of the two errors the scanner does not word itself are not modelled. One is the stack overflow of an import cycle; the other is the error ts-morph's `asKindOrThrow` throws (src/core/scanner.ts:350).

- Logging is not modelled: `printToLog`, `console.warn` and the coloured badges have no effect on the results.
- Module loading is symbolic. `await import(...)` and the call `module[funcName](...)` produce the term `Called(path, name, arguments)`, and calling a wrapper produces `Wrapped(...)`. Promises and `async` ordering are not modelled, and neither is what the functions do when called.
- The TypeScript compiler API is replaced by records. These stand for the syntax tree, `getText()`, `getType().getText()`, `getInnerText()` of JSDoc blocks, and module resolution. Compiler type checking is not modelled.
- `JSON.parse` is the parameter `parse`. The schema generator `TJS.generateSchema` and `TJS.getProgramFromFiles` are the parameter `generate`.
- Numbers are integers. A JSON number with a fraction, and the floating-point subtraction in the sort comparators, are not modelled.
- Annotations.TextData: a `data` that is `undefined` cannot arise, because the parser always sets a string (src/core/scanner.ts:68).
- Resolver.DependencyResolver.SortFunctions: it requires a fresh resolver, because the scanner creates a new one for every call (src/core/scanner.ts:178). A second call on the same object, with the sets left from the first call, is not modelled.
- Instances.OrdinalKey: an `ordinal` that is not a number counts as 0. The source would subtract it after coercion, or compare against `NaN`.
- `toUpperCase` is modelled on ASCII letters only. Other characters are kept, so the case mapping of non-ASCII letters is not modelled.
- The regular expressions' `\w` and `[a-zA-Z]` classes are ASCII, as in JavaScript without the `u` flag. `\s` and `trim` use the ECMAScript white-space set.
- PrintController.RouteOf: `Controller` data whose `path`, `method` or `tag` is not a string counts as missing, and the model fails. The source would call `toString()` for `path`, or fail later.
- OpenApi.OperationOf: a `Controller` without a string `path` or `method` is the error `ControllerWithoutRoute`. A use case without a request or response schema is the error `NoSchema`. The source fails in these cases too, or writes `undefined` keys.
- OpenApi.RewriteRef: a `$ref` whose value is not a string is left as it is. The source's `replace` on it would throw.
- `updateReferences` and `removeFieldsFromSchema` change objects in place: `removeFieldsFromSchema` spreads only the top level, so the `properties` object it deletes from is shared with the generated schema. The model computes new values, so this aliasing is not modelled.
- A key whose value is `undefined` is left out of its object, as JSON serialization leaves it out. Object keys that are array indices, which JavaScript orders first, are kept in insertion order.
- The metadata object that `extractUseCaseMetadata` updates is shared by the function map and the action list. The model stores the updated metadata in the result map only.
- printController is `src/core/printcontroller.ts`, which imports `camelToPascalWithSpace` from `helper.js`. `helper.js` is not part of this model, and the helper is taken to be the one in `src/example/demo_001/src/infrastructure/shared.ts`. The identical copy in `src/example/src/app/open_api.ts:7-11` is the same function.
- The route-table test imports the module from another path; the model follows `src/core/printcontroller.ts`.
- The rest of the benchmark generator is not modelled: the random parameters, the file writing and the timing. Its graph of `Set`s is a list of successors in insertion order.
