/** Contract introspection: how the scanner reads the request and response types of an
    action from its type alias (`export type X = ActionHandler<Request, Response>`). The
    compiler's syntax tree is replaced by plain records: a source file lists its top-level
    declarations and its import declarations, and an import names the file its module
    specifier resolves to, if any. Type texts are opaque strings. */
module Introspection {
  import opened Common
  import opened JsStrings
  import opened Json
  import opened Types
  import opened Annotations

  datatype DeclKind = TypeAliasDeclaration | ClassDeclaration | InterfaceDeclaration | EnumDeclaration | OtherDeclaration

  /** A property signature of a type literal: its name, the compiler's text of its type, and
      the inner texts of its JSDoc blocks. */
  datatype Property = Property(name: string, typeText: string, jsDocs: seq<string>)

  /** A member of a type literal; only property signatures are read. */
  datatype Member = PropertySignature(prop: Property) | OtherMember

  datatype TypeNode =
    | TypeReference(text: string, typeArguments: seq<TypeNode>)
    | TypeLiteral(members: seq<Member>)
    | OtherTypeNode(text: string)

  /** A top-level statement: a declaration of some kind, its name, its JSDoc blocks and, for
      a type alias, the type it stands for. */
  datatype Declaration = Declaration(kind: DeclKind, name: string, jsDocs: seq<string>, typeNode: Option<TypeNode>)

  /** `import { a, b } from "m"`: the named imports and the file `m` resolves to. */
  datatype ImportDeclaration = ImportDeclaration(namedImports: seq<string>, moduleFile: Option<string>)

  datatype SourceFile = SourceFile(path: string, statements: seq<Declaration>, imports: seq<ImportDeclaration>)

  datatype IntrospectionError =
    | TypeNotFound(typeName: string, path: string)
    | ImportCycle(typeName: string, path: string)
    | NotTypeReference       // `asKindOrThrow(TypeReference)` on another kind of type node
    | NotReferenceOrLiteral

  /** The text of the thrown `Error`, for the errors the scanner words itself. An import
      cycle overflows the stack, and `asKindOrThrow` throws the message of the ts-morph
      library: those two texts come from outside the scanner and are `None`. */
  function Message(e: IntrospectionError): (m: Option<string>)
    ensures m.Some? <==> e.TypeNotFound? || e.NotReferenceOrLiteral?
    ensures e.TypeNotFound? ==> m == Some("Type " + e.typeName + " not found at " + e.path)
    ensures e.NotReferenceOrLiteral? ==> m == Some("the type should be Reference or Literal")
  {
    match e
    case TypeNotFound(n, p) => Some("Type " + n + " not found at " + p)
    case NotReferenceOrLiteral => Some("the type should be Reference or Literal")
    case _ => None
  }

  // ---------------------------------------------------------------------------------------
  // Looking declarations up

  predicate Declares(d: Declaration, name: string) {
    d.name == name && d.kind != OtherDeclaration
  }

  /** `getDeclarationKind`: the first type alias, class, interface or enum with the name. */
  function DeclarationKind(file: SourceFile, name: string): Option<Declaration> {
    FirstDeclaring(file.statements, name)
  }

  function FirstDeclaring(ds: seq<Declaration>, name: string): Option<Declaration> {
    if ds == [] then None
    else if Declares(ds[0], name) then Some(ds[0])
    else FirstDeclaring(ds[1..], name)
  }

  /** `getTypeAlias(name)`: the first type alias with the name. */
  function TypeAlias(file: SourceFile, name: string): Option<Declaration> {
    FirstAlias(file.statements, name)
  }

  function FirstAlias(ds: seq<Declaration>, name: string): Option<Declaration> {
    if ds == [] then None
    else if ds[0].kind == TypeAliasDeclaration && ds[0].name == name then Some(ds[0])
    else FirstAlias(ds[1..], name)
  }

  lemma {:induction false} FirstDeclaringSpec(ds: seq<Declaration>, name: string)
    ensures FirstDeclaring(ds, name).None? <==> forall i :: 0 <= i < |ds| ==> !Declares(ds[i], name)
    ensures FirstDeclaring(ds, name).Some? ==>
      exists i :: 0 <= i < |ds| && ds[i] == FirstDeclaring(ds, name).value && Declares(ds[i], name)
        && forall j :: 0 <= j < i ==> !Declares(ds[j], name)
  {
    if ds != [] && !Declares(ds[0], name) {
      FirstDeclaringSpec(ds[1..], name);
      assert forall i :: 1 <= i < |ds| ==> ds[i] == ds[1..][i - 1];
      if FirstDeclaring(ds[1..], name).Some? {
        var i :| 0 <= i < |ds[1..]| && ds[1..][i] == FirstDeclaring(ds, name).value && Declares(ds[1..][i], name)
          && forall j :: 0 <= j < i ==> !Declares(ds[1..][j], name);
        assert ds[i + 1] == ds[1..][i];
      }
    } else if ds != [] {
      assert ds[0] == FirstDeclaring(ds, name).value;
    }
  }

  /** The first file among `files` with the path. */
  function FileAt(files: seq<SourceFile>, path: string): Option<SourceFile> {
    if files == [] then None
    else if files[0].path == path then Some(files[0])
    else FileAt(files[1..], path)
  }

  function Paths(files: seq<SourceFile>): set<string> {
    set f | f in files :: f.path
  }

  lemma {:induction false} FileAtIn(files: seq<SourceFile>, path: string)
    requires FileAt(files, path).Some?
    ensures FileAt(files, path).value in files && FileAt(files, path).value.path == path
  {
    if files[0].path != path {
      FileAtIn(files[1..], path);
    }
  }

  /** The file the first import naming `typeName` leads to, skipping imports whose module
      does not resolve. */
  function ImportedFrom(files: seq<SourceFile>, imports: seq<ImportDeclaration>, typeName: string): Option<SourceFile> {
    if imports == [] then None
    else
      var imp := imports[0];
      if typeName in imp.namedImports && imp.moduleFile.Some? && FileAt(files, imp.moduleFile.value).Some? then
        FileAt(files, imp.moduleFile.value)
      else ImportedFrom(files, imports[1..], typeName)
  }

  lemma {:induction false} ImportedFromIn(files: seq<SourceFile>, imports: seq<ImportDeclaration>, typeName: string)
    requires ImportedFrom(files, imports, typeName).Some?
    ensures ImportedFrom(files, imports, typeName).value in files
  {
    var imp := imports[0];
    if typeName in imp.namedImports && imp.moduleFile.Some? && FileAt(files, imp.moduleFile.value).Some? {
      FileAtIn(files, imp.moduleFile.value);
    } else {
      ImportedFromIn(files, imports[1..], typeName);
    }
  }

  /** The import does not name `typeName`, or its module does not resolve. */
  predicate ResolvesNot(files: seq<SourceFile>, imp: ImportDeclaration, typeName: string) {
    typeName in imp.namedImports && imp.moduleFile.Some? ==> FileAt(files, imp.moduleFile.value).None?
  }

  lemma {:induction false} ImportedFromNone(files: seq<SourceFile>, imports: seq<ImportDeclaration>, typeName: string)
    requires ImportedFrom(files, imports, typeName).None?
    ensures forall i :: 0 <= i < |imports| ==> ResolvesNot(files, imports[i], typeName)
  {
    if imports != [] {
      ImportedFromNone(files, imports[1..], typeName);
      assert forall i :: 1 <= i < |imports| ==> imports[i] == imports[1..][i - 1];
    }
  }

  /** `getTypeDeclarationSourceFile`: the file itself when it declares the name, otherwise
      the file the name is imported from, searched the same way. `visited` holds the files
      already searched: the search is deterministic, so reaching one again means the source
      would recurse forever. */
  function TypeDeclarationSourceFile(files: seq<SourceFile>, file: SourceFile, typeName: string, visited: set<string>)
    : Result<SourceFile, IntrospectionError>
    decreases Paths(files) + {file.path} - visited
  {
    if DeclarationKind(file, typeName).Some? then Success(file)
    else if file.path in visited then Failure(ImportCycle(typeName, file.path))
    else match ImportedFrom(files, file.imports, typeName)
      case None => Failure(TypeNotFound(typeName, file.path))
      case Some(next) =>
        ImportedFromIn(files, file.imports, typeName);
        TypeDeclarationSourceFile(files, next, typeName, visited + {file.path})
  }

  /** The file found declares the name, and is the starting file or one of the project's. */
  lemma {:induction false} TypeDeclarationFound(files: seq<SourceFile>, file: SourceFile, typeName: string, visited: set<string>)
    requires TypeDeclarationSourceFile(files, file, typeName, visited).Success?
    ensures var f := TypeDeclarationSourceFile(files, file, typeName, visited).value;
      DeclarationKind(f, typeName).Some? && (f == file || f in files)
    decreases Paths(files) + {file.path} - visited
  {
    if DeclarationKind(file, typeName).None? {
      var next := ImportedFrom(files, file.imports, typeName).value;
      ImportedFromIn(files, file.imports, typeName);
      TypeDeclarationFound(files, next, typeName, visited + {file.path});
    }
  }

  /** A file that declares the name is the answer, whatever it imports. */
  lemma TypeDeclarationHere(files: seq<SourceFile>, file: SourceFile, typeName: string, visited: set<string>)
    requires DeclarationKind(file, typeName).Some?
    ensures TypeDeclarationSourceFile(files, file, typeName, visited) == Success(file)
  {
  }

  /** `Type X not found at <path>` names a file that neither declares the name nor imports
      it from a module that resolves. */
  lemma {:induction false} TypeNotFoundAt(files: seq<SourceFile>, file: SourceFile, typeName: string, visited: set<string>)
    requires TypeDeclarationSourceFile(files, file, typeName, visited).Failure?
    requires TypeDeclarationSourceFile(files, file, typeName, visited).error.TypeNotFound?
    ensures var e := TypeDeclarationSourceFile(files, file, typeName, visited).error;
      && e.typeName == typeName
      && exists f :: (f == file || f in files) && f.path == e.path && DeclarationKind(f, typeName).None?
           && ImportedFrom(files, f.imports, typeName).None?
    decreases Paths(files) + {file.path} - visited
  {
    if DeclarationKind(file, typeName).None? && file.path !in visited {
      match ImportedFrom(files, file.imports, typeName)
      case None =>
      case Some(next) =>
        ImportedFromIn(files, file.imports, typeName);
        TypeNotFoundAt(files, next, typeName, visited + {file.path});
    }
  }

  // ---------------------------------------------------------------------------------------
  // Payloads

  function Properties(members: seq<Member>): (ps: seq<Property>)
    ensures |ps| <= |members|
  {
    if members == [] then []
    else match Last(members)
      case PropertySignature(p) => Properties(DropLast(members)) + [p]
      case OtherMember => Properties(DropLast(members))
  }

  /** The fields of a type literal's property signatures, their decorators stored under
      `key`. */
  function Fields(members: seq<Member>, key: FieldKey, parse: string -> Option<Json>): (fs: seq<TypeField>)
    ensures |fs| == |Properties(members)|
  {
    if members == [] then []
    else match Last(members)
      case PropertySignature(p) =>
        Fields(DropLast(members), key, parse) + [TypeField(p.name, p.typeText, DecoratorsOf(p.jsDocs, parse), key)]
      case OtherMember => Fields(DropLast(members), key, parse)
  }

  /** Field `i` describes property signature `i`, in order. */
  lemma {:induction false} FieldsAt(members: seq<Member>, key: FieldKey, parse: string -> Option<Json>, i: nat)
    requires i < |Properties(members)|
    ensures var p, f := Properties(members)[i], Fields(members, key, parse)[i];
      f == TypeField(p.name, p.typeText, DecoratorsOf(p.jsDocs, parse), key)
  {
    if Last(members).OtherMember? || i < |Properties(members)| - 1 {
      FieldsAt(DropLast(members), key, parse, i);
    }
  }

  /** `handleTypeReferenceArgument`: the payload named by a type reference. Its fields are
      read from the alias of that name in the contract's own file, while its path and
      decorators come from the file that declares it. */
  function ReferencePayload(files: seq<SourceFile>, text: string, aliasFile: SourceFile, parse: string -> Option<Json>)
    : (r: Result<Payload, IntrospectionError>)
    ensures r.Failure? <==> TypeDeclarationSourceFile(files, aliasFile, text, {}).Failure?
    ensures r.Failure? ==> r.error == TypeDeclarationSourceFile(files, aliasFile, text, {}).error
    ensures r.Success? ==>
              r.value.name == text
              && r.value.path == Some(TypeDeclarationSourceFile(files, aliasFile, text, {}).value.path)
  {
    var fields :=
      match TypeAlias(aliasFile, text)
      case Some(Declaration(_, _, _, Some(TypeLiteral(ms)))) => Fields(ms, DecoratorsKey, parse)
      case _ => [];
    var payloadFile :- TypeDeclarationSourceFile(files, aliasFile, text, {});
    // The file found declares the name, so the source's `if (dk)` always holds.
    TypeDeclarationFound(files, aliasFile, text, {});
    var decl := DeclarationKind(payloadFile, text).value;
    Success(Payload(text, Some(payloadFile.path), Some(fields), Some(DecoratorsOf(decl.jsDocs, parse))))
  }

  /** The payload a type argument describes: a reference as above; a type literal gives a
      payload with an empty name, the contract's file as path, and its fields with their
      decorators under `decorator`; any other type is an error. */
  function ArgumentPayload(files: seq<SourceFile>, arg: TypeNode, aliasFile: SourceFile, parse: string -> Option<Json>)
    : Result<Payload, IntrospectionError>
  {
    match arg
    case TypeReference(text, _) => ReferencePayload(files, text, aliasFile, parse)
    case TypeLiteral(ms) => Success(Payload("", Some(aliasFile.path), Some(Fields(ms, DecoratorKey, parse)), None))
    case OtherTypeNode(_) => Failure(NotReferenceOrLiteral)
  }

  /** `metadata[index === 0 ? "request" : "response"] = payload`. */
  function Store(meta: FuncMetadata, index: nat, p: Payload): FuncMetadata {
    if index == 0 then meta.(request := Some(p)) else meta.(response := Some(p))
  }

  /** `handleTypeArgument`. */
  function HandleTypeArgument(files: seq<SourceFile>, arg: TypeNode, index: nat, aliasFile: SourceFile, meta: FuncMetadata, parse: string -> Option<Json>)
    : Result<FuncMetadata, IntrospectionError>
  {
    var p :- ArgumentPayload(files, arg, aliasFile, parse);
    Success(Store(meta, index, p))
  }

  /** The type arguments handled in order, the first error ending the walk. */
  function HandleTypeArguments(files: seq<SourceFile>, args: seq<TypeNode>, aliasFile: SourceFile, meta: FuncMetadata, parse: string -> Option<Json>)
    : Result<FuncMetadata, IntrospectionError>
  {
    if args == [] then Success(meta)
    else
      var m :- HandleTypeArguments(files, DropLast(args), aliasFile, meta, parse);
      HandleTypeArgument(files, Last(args), |args| - 1, aliasFile, m, parse)
  }

  /** `typeArguments.forEach((typeArgument, index) => handleTypeArgument(...))`. */
  method HandleEach(files: seq<SourceFile>, args: seq<TypeNode>, aliasFile: SourceFile, meta: FuncMetadata, parse: string -> Option<Json>)
    returns (r: Result<FuncMetadata, IntrospectionError>)
    ensures r == HandleTypeArguments(files, args, aliasFile, meta, parse)
  {
    var metadata := meta;
    var index := 0;
    while index < |args|
      invariant 0 <= index <= |args|
      invariant HandleTypeArguments(files, args[..index], aliasFile, meta, parse) == Success(metadata)
    {
      assert DropLast(args[..index + 1]) == args[..index];
      var next := HandleTypeArgument(files, args[index], index, aliasFile, metadata, parse);
      if next.Failure? {
        FailureSticks(files, args, index + 1, aliasFile, meta, parse);
        return next;
      }
      metadata := next.value;
      index := index + 1;
    }
    assert args[..index] == args;
    return Success(metadata);
  }

  /** Once a type argument fails, handling more of them fails the same way. */
  lemma {:induction false} FailureSticks(files: seq<SourceFile>, args: seq<TypeNode>, n: nat, aliasFile: SourceFile, meta: FuncMetadata, parse: string -> Option<Json>)
    requires n <= |args|
    requires HandleTypeArguments(files, args[..n], aliasFile, meta, parse).Failure?
    ensures HandleTypeArguments(files, args, aliasFile, meta, parse) == HandleTypeArguments(files, args[..n], aliasFile, meta, parse)
    decreases |args| - n
  {
    if n < |args| {
      PrefixStep(args, n);
      FailureSticks(files, args, n + 1, aliasFile, meta, parse);
    } else {
      assert args[..n] == args;
    }
  }

  /** The first type argument fills `request`, every later one `response`: with two
      arguments the request is the first's payload and the response the second's, and
      nothing else in the metadata changes. */
  lemma RequestResponse(files: seq<SourceFile>, req: TypeNode, resp: TypeNode, aliasFile: SourceFile, meta: FuncMetadata, parse: string -> Option<Json>)
    requires ArgumentPayload(files, req, aliasFile, parse).Success?
    requires ArgumentPayload(files, resp, aliasFile, parse).Success?
    ensures var r := HandleTypeArguments(files, [req, resp], aliasFile, meta, parse);
      r == Success(meta.(request := Some(ArgumentPayload(files, req, aliasFile, parse).value),
                         response := Some(ArgumentPayload(files, resp, aliasFile, parse).value)))
  {
    assert DropLast([req, resp]) == [req];
    assert DropLast([req]) == [];
    var p, q := ArgumentPayload(files, req, aliasFile, parse).value, ArgumentPayload(files, resp, aliasFile, parse).value;
    assert HandleTypeArguments(files, [req], aliasFile, meta, parse) == Success(meta.(request := Some(p)));
  }

  /** The walk succeeds only when every argument is a reference or a literal. */
  lemma {:induction false} HandledKinds(files: seq<SourceFile>, args: seq<TypeNode>, aliasFile: SourceFile, meta: FuncMetadata, parse: string -> Option<Json>)
    requires HandleTypeArguments(files, args, aliasFile, meta, parse).Success?
    ensures forall i :: 0 <= i < |args| ==> args[i].TypeReference? || args[i].TypeLiteral?
  {
    if args != [] {
      var m := HandleTypeArguments(files, DropLast(args), aliasFile, meta, parse);
      assert m.Success?;
      assert ArgumentPayload(files, Last(args), aliasFile, parse).Success?;
      HandledKinds(files, DropLast(args), aliasFile, meta, parse);
      assert forall i :: 0 <= i < |args| - 1 ==> args[i] == DropLast(args)[i];
    }
  }

  /** The walk changes only `request` and `response`. */
  lemma {:induction false} HandledRest(files: seq<SourceFile>, args: seq<TypeNode>, aliasFile: SourceFile, meta: FuncMetadata, parse: string -> Option<Json>)
    requires HandleTypeArguments(files, args, aliasFile, meta, parse).Success?
    ensures var m := HandleTypeArguments(files, args, aliasFile, meta, parse).value;
      m.(request := meta.request, response := meta.response) == meta
  {
    if args != [] {
      HandledRest(files, DropLast(args), aliasFile, meta, parse);
    }
  }

  /** The payload type alias is looked up in the contract's file: a payload declared in
      another file and imported gets no fields, though its path and decorators are those of
      its own declaration. */
  lemma ImportedPayloadHasNoFields(files: seq<SourceFile>, text: string, aliasFile: SourceFile, parse: string -> Option<Json>)
    requires TypeAlias(aliasFile, text).None?
    requires ReferencePayload(files, text, aliasFile, parse).Success?
    ensures ReferencePayload(files, text, aliasFile, parse).value.structure == Some([])
  {
  }

  /** `extractUseCaseMetadata`: the action's contract alias is found through the function's
      file; with no alias, or an alias without a type, the metadata is unchanged; otherwise
      the alias's decorators become `returnTypeDecorator` and the type arguments of its type
      reference are handled in order. */
  function UseCaseMetadata(files: seq<SourceFile>, file: SourceFile, meta: FuncMetadata, parse: string -> Option<Json>)
    : Result<FuncMetadata, IntrospectionError>
  {
    var aliasFile :- TypeDeclarationSourceFile(files, file, meta.name, {});
    match TypeAlias(aliasFile, meta.name)
    case None => Success(meta)
    case Some(alias) =>
      match alias.typeNode
      case None => Success(meta)
      case Some(tn) =>
        var m := meta.(returnTypeDecorator := Some(DecoratorsOf(alias.jsDocs, parse)));
        match tn
        case TypeReference(_, args) => HandleTypeArguments(files, args, aliasFile, m, parse)
        case _ => Failure(NotTypeReference)
  }

  /** `extractUseCaseMetadata`, assigning the metadata's fields step by step. */
  method ExtractUseCaseMetadata(files: seq<SourceFile>, file: SourceFile, metadata: FuncMetadata, parse: string -> Option<Json>)
    returns (r: Result<FuncMetadata, IntrospectionError>)
    ensures r == UseCaseMetadata(files, file, metadata, parse)
  {
    var found := TypeDeclarationSourceFile(files, file, metadata.name, {});
    if found.Failure? {
      return Failure(found.error);
    }
    var aliasSourceFile := found.value;
    var aliasDecl := TypeAlias(aliasSourceFile, metadata.name);
    if aliasDecl.None? {
      return Success(metadata);
    }
    var returnTypeDecorators := GetDecoratorMetadata(aliasDecl.value.jsDocs, parse);
    var typeNode := aliasDecl.value.typeNode;
    if typeNode.None? {
      return Success(metadata);
    }
    var m := metadata.(returnTypeDecorator := Some(returnTypeDecorators));
    match typeNode.value
    case TypeReference(_, args) =>
      r := HandleEach(files, args, aliasSourceFile, m, parse);
    case _ =>
      r := Failure(NotTypeReference);
  }

  /** Decorators found on the contract: when the contract declares no request or response,
      only `returnTypeDecorator` is set. */
  lemma NoTypeArguments(files: seq<SourceFile>, file: SourceFile, meta: FuncMetadata, parse: string -> Option<Json>)
    requires TypeDeclarationSourceFile(files, file, meta.name, {}).Success?
    requires var f := TypeDeclarationSourceFile(files, file, meta.name, {}).value;
      TypeAlias(f, meta.name).Some? && TypeAlias(f, meta.name).value.typeNode.Some?
      && TypeAlias(f, meta.name).value.typeNode.value.TypeReference?
      && TypeAlias(f, meta.name).value.typeNode.value.typeArguments == []
    ensures var f := TypeDeclarationSourceFile(files, file, meta.name, {}).value;
      UseCaseMetadata(files, file, meta, parse)
        == Success(meta.(returnTypeDecorator := Some(DecoratorsOf(TypeAlias(f, meta.name).value.jsDocs, parse))))
  {
  }
}
