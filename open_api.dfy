/** The OpenAPI 3.0 document the example application builds from the metadata of its use
    cases (`generateOpenAPIObject`), and its helpers over JSON schemas.

    The JSON schemas of the request and response types come from a schema generator, which
    is the parameter `generate` here: it maps a type name to the generated schema object,
    `None` standing for `null`. A key whose value is `undefined` is left out of its object,
    as JSON serialization leaves it out. */
module OpenApi {
  import opened Common
  import opened JsStrings
  import opened Json
  import opened Types
  import opened Naming

  type Entries = seq<(string, Json)>

  // ---------------------------------------------------------------------------------------
  // updateReferences

  const DefinitionsPrefix: string := "#/definitions/"
  const SchemasPrefix: string := "#/components/schemas/"

  /** The new value of a `$ref` entry: the first `#/definitions/` becomes
      `#/components/schemas/`. */
  function RewriteRef(v: Json): Json {
    if v.JString? then JString(ReplaceFirst(v.s, DefinitionsPrefix, SchemasPrefix)) else v
  }

  /** `updateReferences`: every `$ref` entry of every object in the tree is rewritten, every
      other entry and every array element is walked into, and a value that is not an object
      is left as it is. */
  function UpdateReferences(j: Json): Json
    decreases j
  {
    match j
    case JObject(es) =>
      JObject(seq(|es|, i requires 0 <= i < |es| =>
        (es[i].0, if es[i].0 == "$ref" then RewriteRef(es[i].1) else UpdateReferences(es[i].1))))
    case JArray(items) => JArray(seq(|items|, i requires 0 <= i < |items| => UpdateReferences(items[i])))
    case _ => j
  }

  /** The tree with the value of every `$ref` entry blanked out. */
  function Shape(j: Json): Json
    decreases j
  {
    match j
    case JObject(es) =>
      JObject(seq(|es|, i requires 0 <= i < |es| => (es[i].0, if es[i].0 == "$ref" then JNull else Shape(es[i].1))))
    case JArray(items) => JArray(seq(|items|, i requires 0 <= i < |items| => Shape(items[i])))
    case _ => j
  }

  /** The walk changes nothing but `$ref` values: every key, every array and every other
      value stays where it was. */
  lemma {:induction false} UpdateReferencesShape(j: Json)
    ensures Shape(UpdateReferences(j)) == Shape(j)
    decreases j
  {
    match j
    case JObject(es) =>
      forall i | 0 <= i < |es| && es[i].0 != "$ref" ensures Shape(UpdateReferences(es[i].1)) == Shape(es[i].1) {
        UpdateReferencesShape(es[i].1);
      }
    case JArray(items) =>
      forall i | 0 <= i < |items| ensures Shape(UpdateReferences(items[i])) == Shape(items[i]) {
        UpdateReferencesShape(items[i]);
      }
    case _ =>
  }

  /** The string values of the `$ref` entries, in document order. */
  function Refs(j: Json): seq<string>
    decreases j
  {
    match j
    case JObject(es) =>
      Flatten(seq(|es|, i requires 0 <= i < |es| =>
        if es[i].0 == "$ref" then (if es[i].1.JString? then [es[i].1.s] else []) else Refs(es[i].1)))
    case JArray(items) => Flatten(seq(|items|, i requires 0 <= i < |items| => Refs(items[i])))
    case _ => []
  }

  function Flatten(xs: seq<seq<string>>): seq<string> {
    if xs == [] then [] else Flatten(DropLast(xs)) + Last(xs)
  }

  /** Each reference rewritten. */
  function Rewritten(rs: seq<string>): (r: seq<string>)
    ensures |r| == |rs|
  {
    seq(|rs|, i requires 0 <= i < |rs| => ReplaceFirst(rs[i], DefinitionsPrefix, SchemasPrefix))
  }

  lemma RewrittenAppend(a: seq<string>, b: seq<string>)
    ensures Rewritten(a + b) == Rewritten(a) + Rewritten(b)
  {
  }

  /** Rewriting a concatenation rewrites each piece. */
  lemma {:induction false} FlattenRewritten(xs: seq<seq<string>>, ys: seq<seq<string>>)
    requires |ys| == |xs| && forall i :: 0 <= i < |xs| ==> ys[i] == Rewritten(xs[i])
    ensures Rewritten(Flatten(xs)) == Flatten(ys)
  {
    if xs != [] {
      FlattenRewritten(DropLast(xs), DropLast(ys));
      RewrittenAppend(Flatten(DropLast(xs)), Last(xs));
    }
  }

  /** The references after the walk are the references before it, each rewritten, in the
      same order: no reference is lost, added or moved. */
  lemma {:induction false} UpdateReferencesRefs(j: Json)
    ensures Refs(UpdateReferences(j)) == Rewritten(Refs(j))
    decreases j
  {
    match j
    case JObject(es) =>
      var xs := seq(|es|, i requires 0 <= i < |es| =>
        if es[i].0 == "$ref" then (if es[i].1.JString? then [es[i].1.s] else []) else Refs(es[i].1));
      var u := UpdateReferences(j).entries;
      var ys := seq(|u|, i requires 0 <= i < |u| =>
        if u[i].0 == "$ref" then (if u[i].1.JString? then [u[i].1.s] else []) else Refs(u[i].1));
      forall i | 0 <= i < |es| ensures ys[i] == Rewritten(xs[i]) {
        if es[i].0 != "$ref" {
          UpdateReferencesRefs(es[i].1);
        }
      }
      FlattenRewritten(xs, ys);
    case JArray(items) =>
      var xs := seq(|items|, i requires 0 <= i < |items| => Refs(items[i]));
      var u := UpdateReferences(j).items;
      var ys := seq(|u|, i requires 0 <= i < |u| => Refs(u[i]));
      forall i | 0 <= i < |items| ensures ys[i] == Rewritten(xs[i]) {
        UpdateReferencesRefs(items[i]);
      }
      FlattenRewritten(xs, ys);
    case _ =>
  }

  /** A reference into `#/definitions/` now points at the same name in
      `#/components/schemas/`. */
  lemma RewriteRefPrefix(name: string)
    ensures RewriteRef(JString(DefinitionsPrefix + name)) == JString(SchemasPrefix + name)
  {
    var r := DefinitionsPrefix + name;
    assert StartsWith(r, DefinitionsPrefix);
  }

  /** A lookup in the walked object finds the walked value of the same key. */
  lemma {:induction false} LookupUpdated(es: Entries, k: string)
    ensures Lookup(UpdateReferences(JObject(es)).entries, k) ==
      match Lookup(es, k)
      case None => None
      case Some(v) => Some(if k == "$ref" then RewriteRef(v) else UpdateReferences(v))
  {
    if es != [] {
      var u := UpdateReferences(JObject(es)).entries;
      assert u[1..] == UpdateReferences(JObject(es[1..])).entries;
      if es[0].0 != k {
        LookupUpdated(es[1..], k);
      }
    }
  }

  // ---------------------------------------------------------------------------------------
  // removeFieldsFromSchema

  /** `keys.forEach(k => delete obj[k])`. */
  function DeleteKeys(entries: Entries, keys: seq<string>): (r: Entries)
    ensures |r| <= |entries|
  {
    if keys == [] then entries else DeleteKey(DeleteKeys(entries, DropLast(keys)), Last(keys))
  }

  lemma {:induction false} DeleteKeysMem(entries: Entries, keys: seq<string>, e: (string, Json))
    ensures e in DeleteKeys(entries, keys) <==> e in entries && e.0 !in keys
  {
    if keys != [] {
      var p := DropLast(keys);
      DeleteKeysMem(entries, p, e);
      DeleteKeyMem(DeleteKeys(entries, p), Last(keys), e);
      InDropLast(keys, e.0);
    }
  }

  lemma {:induction false} LookupDeleteKeys(entries: Entries, keys: seq<string>, k: string)
    ensures Lookup(DeleteKeys(entries, keys), k) == if k in keys then None else Lookup(entries, k)
  {
    if keys != [] {
      var p := DropLast(keys);
      LookupDeleteKeys(entries, p, k);
      LookupDeleteKey(DeleteKeys(entries, p), Last(keys), k);
      assert k in keys <==> k in p || k == Last(keys) by {
        assert keys == p + [Last(keys)];
      }
    }
  }

  /** `required.filter(field => !fieldsToRemove.includes(field))`. */
  function KeepRequired(items: seq<Json>, fields: seq<string>): (r: seq<Json>)
    ensures |r| <= |items|
  {
    if items == [] then []
    else if Last(items).JString? && Last(items).s in fields then KeepRequired(DropLast(items), fields)
    else KeepRequired(DropLast(items), fields) + [Last(items)]
  }

  /** `removeFieldsFromSchema`: the listed fields leave `properties` and `required`. */
  function RemoveFieldsFromSchema(schema: Entries, fieldsToRemove: seq<string>): Entries {
    var withProperties :=
      match Lookup(schema, "properties")
      case Some(JObject(properties)) => SetKey(schema, "properties", JObject(DeleteKeys(properties, fieldsToRemove)))
      case _ => schema;
    match Lookup(withProperties, "required")
    case Some(JArray(required)) => SetKey(withProperties, "required", JArray(KeepRequired(required, fieldsToRemove)))
    case _ => DeleteKey(withProperties, "required")
  }

  method RemoveFields(schema: Entries, fieldsToRemove: seq<string>) returns (updatedSchema: Entries)
    ensures updatedSchema == RemoveFieldsFromSchema(schema, fieldsToRemove)
  {
    updatedSchema := schema;
    var found := Lookup(updatedSchema, "properties");
    if found.Some? && found.value.JObject? {
      var properties := found.value.entries;
      var i := 0;
      while i < |fieldsToRemove|
        invariant 0 <= i <= |fieldsToRemove|
        invariant properties == DeleteKeys(found.value.entries, fieldsToRemove[..i])
      {
        PrefixStep(fieldsToRemove, i);
        properties := DeleteKey(properties, fieldsToRemove[i]);
        i := i + 1;
      }
      assert fieldsToRemove[..i] == fieldsToRemove;
      updatedSchema := SetKey(updatedSchema, "properties", JObject(properties));
    }
    var required := Lookup(updatedSchema, "required");
    if required.Some? && required.value.JArray? {
      var kept: seq<Json> := [];
      var items := required.value.items;
      var i := 0;
      while i < |items|
        invariant 0 <= i <= |items|
        invariant kept == KeepRequired(items[..i], fieldsToRemove)
      {
        PrefixStep(items, i);
        if !(items[i].JString? && items[i].s in fieldsToRemove) {
          kept := kept + [items[i]];
        }
        i := i + 1;
      }
      assert items[..i] == items;
      updatedSchema := SetKey(updatedSchema, "required", JArray(kept));
    } else {
      updatedSchema := DeleteKey(updatedSchema, "required");
    }
  }

  /** A required name survives exactly when it is not a removed field. */
  lemma {:induction false} KeepRequiredMem(items: seq<Json>, fields: seq<string>, x: Json)
    ensures x in KeepRequired(items, fields) <==> x in items && !(x.JString? && x.s in fields)
  {
    if items != [] {
      KeepRequiredMem(DropLast(items), fields, x);
      assert items == DropLast(items) + [Last(items)];
    }
  }

  /** After the removal, `properties` holds exactly the properties whose names were not
      listed, `required` exactly the names that were not listed, and every other entry is
      as it was. */
  lemma RemoveFieldsSpec(schema: Entries, fields: seq<string>, k: string, e: (string, Json), x: Json)
    ensures var r := RemoveFieldsFromSchema(schema, fields);
      (k != "properties" && k != "required" ==> Lookup(r, k) == Lookup(schema, k)) &&
      (Lookup(schema, "properties").Some? && Lookup(schema, "properties").value.JObject? ==>
        Lookup(r, "properties").Some? && Lookup(r, "properties").value.JObject? &&
        (e in Lookup(r, "properties").value.entries <==> e in Lookup(schema, "properties").value.entries && e.0 !in fields)) &&
      (Lookup(schema, "required").Some? && Lookup(schema, "required").value.JArray? ==>
        Lookup(r, "required").Some? && Lookup(r, "required").value.JArray? &&
        (x in Lookup(r, "required").value.items <==> x in Lookup(schema, "required").value.items && !(x.JString? && x.s in fields))) &&
      (Lookup(schema, "required").None? ==> Lookup(r, "required").None?)
  {
    var withProperties :=
      match Lookup(schema, "properties")
      case Some(JObject(properties)) => SetKey(schema, "properties", JObject(DeleteKeys(properties, fields)))
      case _ => schema;
    match Lookup(schema, "properties") {
      case Some(JObject(properties)) =>
        LookupSetKey(schema, "properties", JObject(DeleteKeys(properties, fields)), k);
        LookupSetKey(schema, "properties", JObject(DeleteKeys(properties, fields)), "required");
        LookupSetKey(schema, "properties", JObject(DeleteKeys(properties, fields)), "properties");
        DeleteKeysMem(properties, fields, e);
      case _ =>
    }
    assert Lookup(withProperties, "required") == Lookup(schema, "required");
    match Lookup(withProperties, "required") {
      case Some(JArray(required)) =>
        var kept := JArray(KeepRequired(required, fields));
        LookupSetKey(withProperties, "required", kept, k);
        LookupSetKey(withProperties, "required", kept, "properties");
        LookupSetKey(withProperties, "required", kept, "required");
        KeepRequiredMem(required, fields, x);
      case _ =>
        LookupDeleteKey(withProperties, "required", k);
        LookupDeleteKey(withProperties, "required", "properties");
        LookupDeleteKey(withProperties, "required", "required");
    }
  }

  // ---------------------------------------------------------------------------------------
  // convertDefinitionsToSchemas

  /** The `for ... in` loop: every definition that is not a boolean is copied under its key. */
  function CopyDefinitions(definitions: Entries): Entries {
    if definitions == [] then []
    else if Last(definitions).1.JBool? then CopyDefinitions(DropLast(definitions))
    else SetKey(CopyDefinitions(DropLast(definitions)), Last(definitions).0, Last(definitions).1)
  }

  /** `convertDefinitionsToSchemas`: `undefined` (and any other falsy value) gives `undefined`;
      an object gives a new object of its non-boolean definitions. */
  function ConvertDefinitionsToSchemas(definitions: Option<Json>): Option<Json> {
    match definitions
    case None => None
    case Some(d) =>
      if !Truthy(d) then None
      else if d.JObject? then Some(JObject(CopyDefinitions(d.entries)))
      else Some(JObject([]))
  }

  method ConvertDefinitions(definitions: Option<Json>) returns (r: Option<Json>)
    ensures r == ConvertDefinitionsToSchemas(definitions)
  {
    if definitions.None? || !Truthy(definitions.value) {
      return None;
    }
    var schemas: Entries := [];
    if definitions.value.JObject? {
      var es := definitions.value.entries;
      var i := 0;
      while i < |es|
        invariant 0 <= i <= |es|
        invariant schemas == CopyDefinitions(es[..i])
      {
        PrefixStep(es, i);
        var (key, definition) := es[i];
        if !definition.JBool? {
          schemas := SetKey(schemas, key, definition);
        }
        i := i + 1;
      }
      assert es[..i] == es;
    }
    return Some(JObject(schemas));
  }

  /** Every definition that is not a boolean is kept under its own key with its own value,
      and no other key appears, when the keys are distinct as an object's keys are. */
  lemma {:induction false} CopyDefinitionsSpec(definitions: Entries, k: string)
    requires Distinct(Keys(definitions))
    ensures Lookup(CopyDefinitions(definitions), k) ==
      if Lookup(definitions, k).Some? && !Lookup(definitions, k).value.JBool? then Lookup(definitions, k) else None
  {
    if definitions != [] {
      var p, l := DropLast(definitions), Last(definitions);
      assert Keys(p) == DropLast(Keys(definitions));
      assert Distinct(Keys(p)) by {
        forall i, j | 0 <= i < j < |p| ensures Keys(p)[i] != Keys(p)[j] {
          assert Keys(p)[i] == Keys(definitions)[i] && Keys(p)[j] == Keys(definitions)[j];
        }
      }
      CopyDefinitionsSpec(p, k);
      assert definitions == p + [l];
      LookupAppend(p, [l], k);
      if l.0 == k {
        LookupAbsent(p, k);
      }
      if !l.1.JBool? {
        LookupSetKey(CopyDefinitions(p), l.0, l.1, k);
      }
    }
  }

  // ---------------------------------------------------------------------------------------
  // Request parts: path parameters, query parameters and body fields

  /** Why the document cannot be built: the statement of `generateOpenAPIObject` that
      throws, with the use case it was working on. */
  datatype OpenApiError =
    | NoController(useCase: string)              // `data.path` on an undefined `Controller` data
    | ControllerWithoutRoute(useCase: string)    // the route has no string path or method
    | NoStructure(useCase: string)               // `request.structure.forEach` on `undefined`
    | FieldWithoutDecorators(useCase: string, field: string) // `x.decorators.forEach` on `undefined`
    | NoSchema(useCase: string)                  // no generated schema, or one without properties

  /** An OpenAPI parameter object; only a path parameter carries `required: true`. */
  datatype Parameter = Parameter(location: string, name: string, schema: Json, required: bool)

  /** What the loop over the request's fields builds: the path with its parameters put in
      braces, the parameter list and the names of the body fields. */
  datatype Binding = Binding(path: string, parameters: seq<Parameter>, bodyFields: seq<string>)

  function ParameterJson(p: Parameter): Json {
    JObject([("in", JString(p.location)), ("name", JString(p.name)), ("schema", p.schema)]
      + (if p.required then [("required", JBool(true))] else []))
  }

  /** `requestField?.properties?.[x.name] ?? { type: x.type }`. */
  function FieldSchema(requestField: Option<Entries>, field: TypeField): Json {
    var declared :=
      match requestField
      case None => None
      case Some(schema) =>
        match Lookup(schema, "properties")
        case None => None
        case Some(properties) => Member(properties, field.name);
    if declared.Some? && !declared.value.JNull? then declared.value
    else JObject([("type", JString(field.fieldType))])
  }

  /** The parameter a field declares at a location. */
  function ParameterFor(requestField: Option<Entries>, field: TypeField, location: string): Parameter {
    Parameter(location, field.name, FieldSchema(requestField, field), location == "path")
  }

  /** The request decorator of one field: `@RequestPart param`, `query` or `body`; any other
      decorator, and any other part, leaves the binding alone. */
  function BindPart(b: Binding, requestField: Option<Entries>, field: TypeField, d: Decorator): Binding {
    if d.name != "RequestPart" then b
    else if d.data == JString("param") then
      Binding(ReplaceFirst(b.path, ":" + field.name, "{" + field.name + "}"),
        b.parameters + [ParameterFor(requestField, field, "path")], b.bodyFields)
    else if d.data == JString("query") then
      b.(parameters := b.parameters + [ParameterFor(requestField, field, "query")])
    else if d.data == JString("body") then
      b.(bodyFields := b.bodyFields + [field.name])
    else b
  }

  /** `x.decorators.forEach(...)`. */
  function BindField(b: Binding, requestField: Option<Entries>, field: TypeField, ds: seq<Decorator>): Binding {
    if ds == [] then b else BindPart(BindField(b, requestField, field, DropLast(ds)), requestField, field, Last(ds))
  }

  /** `request.structure.forEach(...)`: a field whose decorators are stored under the other
      key stops the loop. */
  function BindFields(b: Binding, requestField: Option<Entries>, fields: seq<TypeField>, useCase: string): Result<Binding, OpenApiError> {
    if fields == [] then Success(b)
    else
      var before :- BindFields(b, requestField, DropLast(fields), useCase);
      if Last(fields).key == DecoratorKey then Failure(FieldWithoutDecorators(useCase, Last(fields).name))
      else Success(BindField(before, requestField, Last(fields), Last(fields).decorators))
  }

  /** The binding of a use case whose route is `path`; without a request there is nothing
      to bind, and a request without a structure stops here. */
  function Bind(useCase: FuncMetadata, path: string, requestField: Option<Entries>): Result<Binding, OpenApiError> {
    match useCase.request
    case None => Success(Binding(path, [], []))
    case Some(request) =>
      match request.structure
      case None => Failure(NoStructure(useCase.name))
      case Some(fields) => BindFields(Binding(path, [], []), requestField, fields, useCase.name)
  }

  method BindDecorators(b: Binding, requestField: Option<Entries>, field: TypeField) returns (r: Binding)
    ensures r == BindField(b, requestField, field, field.decorators)
  {
    r := b;
    var ds := field.decorators;
    for i := 0 to |ds|
      invariant r == BindField(b, requestField, field, ds[..i])
    {
      PrefixStep(ds, i);
      var y := ds[i];
      if y.name != "RequestPart" {
        continue;
      }
      if y.data == JString("param") {
        var path := ReplaceFirst(r.path, ":" + field.name, "{" + field.name + "}");
        var schema := FieldSchema(requestField, field);
        r := Binding(path, r.parameters + [Parameter("path", field.name, schema, true)], r.bodyFields);
      } else if y.data == JString("query") {
        var schema := FieldSchema(requestField, field);
        r := r.(parameters := r.parameters + [Parameter("query", field.name, schema, false)]);
      } else if y.data == JString("body") {
        r := r.(bodyFields := r.bodyFields + [field.name]);
      }
    }
    assert ds[..|ds|] == ds;
  }

  method BindRequest(useCase: FuncMetadata, path: string, requestField: Option<Entries>) returns (r: Result<Binding, OpenApiError>)
    ensures r == Bind(useCase, path, requestField)
  {
    var b := Binding(path, [], []);
    if useCase.request.None? {
      return Success(b);
    }
    if useCase.request.value.structure.None? {
      return Failure(NoStructure(useCase.name));
    }
    var fields := useCase.request.value.structure.value;
    for i := 0 to |fields|
      invariant BindFields(Binding(path, [], []), requestField, fields[..i], useCase.name) == Success(b)
    {
      PrefixStep(fields, i);
      if fields[i].key == DecoratorKey {
        assert Last(fields[..i + 1]) == fields[i];
        assert BindFields(Binding(path, [], []), requestField, fields[..i + 1], useCase.name)
          == Failure(FieldWithoutDecorators(useCase.name, fields[i].name));
        BindFailureSticks(Binding(path, [], []), requestField, fields, useCase.name, i + 1);
        assert fields[..|fields|] == fields;
        return Failure(FieldWithoutDecorators(useCase.name, fields[i].name));
      }
      b := BindDecorators(b, requestField, fields[i]);
    }
    assert fields[..|fields|] == fields;
    return Success(b);
  }

  /** The first field that stops the loop stops it for good. */
  lemma {:induction false} BindFailureSticks(b: Binding, requestField: Option<Entries>, fields: seq<TypeField>, useCase: string, n: nat)
    requires 0 < n <= |fields|
    requires BindFields(b, requestField, fields[..n], useCase).Failure?
    ensures BindFields(b, requestField, fields, useCase) == BindFields(b, requestField, fields[..n], useCase)
    decreases |fields| - n
  {
    if n < |fields| {
      PrefixStep(fields, n);
      BindFailureSticks(b, requestField, fields, useCase, n + 1);
    } else {
      assert fields[..n] == fields;
    }
  }

  /** The decorator `@RequestPart part`. */
  predicate IsPart(d: Decorator, part: string) {
    d.name == "RequestPart" && d.data == JString(part)
  }

  predicate HasPart(field: TypeField, part: string) {
    exists d :: d in field.decorators && IsPart(d, part)
  }

  /** The request is bound exactly when every field stores its decorators under
      `decorators`. */
  lemma {:induction false} BindFieldsSucceeds(b: Binding, requestField: Option<Entries>, fields: seq<TypeField>, useCase: string)
    ensures BindFields(b, requestField, fields, useCase).Success? <==> forall i :: 0 <= i < |fields| ==> fields[i].key == DecoratorsKey
  {
    if fields != [] {
      BindFieldsSucceeds(b, requestField, DropLast(fields), useCase);
    }
  }

  /** What one decorator adds to the parameters and the body fields. */
  lemma BindPartAdds(b: Binding, requestField: Option<Entries>, field: TypeField, d: Decorator)
    ensures BindPart(b, requestField, field, d).bodyFields == b.bodyFields + (if IsPart(d, "body") then [field.name] else [])
    ensures BindPart(b, requestField, field, d).parameters == b.parameters +
      (if IsPart(d, "param") then [ParameterFor(requestField, field, "path")]
       else if IsPart(d, "query") then [ParameterFor(requestField, field, "query")] else [])
  {
  }

  /** Some decorator of `ds + [l]` is the part exactly when one of `ds` is or `l` is. */
  lemma SomePartAppend(ds: seq<Decorator>, l: Decorator, part: string)
    ensures (exists d :: d in ds + [l] && IsPart(d, part)) <==> (exists d :: d in ds && IsPart(d, part)) || IsPart(l, part)
  {
    if IsPart(l, part) {
      assert l in ds + [l];
    }
    if exists d :: d in ds && IsPart(d, part) {
      var d :| d in ds && IsPart(d, part);
      assert d in ds + [l];
    }
  }

  /** One field adds its name to the body fields when it has a `@RequestPart body`
      decorator, and nothing else does. */
  lemma {:induction false} BindFieldBody(b: Binding, requestField: Option<Entries>, field: TypeField, ds: seq<Decorator>, x: string)
    ensures x in BindField(b, requestField, field, ds).bodyFields <==>
      x in b.bodyFields || (x == field.name && exists d :: d in ds && IsPart(d, "body"))
  {
    if ds != [] {
      var q, l := DropLast(ds), Last(ds);
      BindFieldBody(b, requestField, field, q, x);
      BindPartAdds(BindField(b, requestField, field, q), requestField, field, l);
      assert ds == q + [l];
      SomePartAppend(q, l, "body");
    }
  }

  /** One field adds a path parameter when it has a `@RequestPart param` decorator and a
      query parameter when it has a `@RequestPart query` decorator, and nothing else. */
  lemma {:induction false} BindFieldParameters(b: Binding, requestField: Option<Entries>, field: TypeField, ds: seq<Decorator>, p: Parameter)
    ensures p in BindField(b, requestField, field, ds).parameters <==>
      p in b.parameters ||
      (p == ParameterFor(requestField, field, "path") && exists d :: d in ds && IsPart(d, "param")) ||
      (p == ParameterFor(requestField, field, "query") && exists d :: d in ds && IsPart(d, "query"))
  {
    if ds != [] {
      var q, l := DropLast(ds), Last(ds);
      BindFieldParameters(b, requestField, field, q, p);
      BindPartAdds(BindField(b, requestField, field, q), requestField, field, l);
      assert ds == q + [l];
      SomePartAppend(q, l, "param");
      SomePartAppend(q, l, "query");
    }
  }

  /** A field with no `@RequestPart param` decorator leaves the path alone. */
  lemma {:induction false} BindFieldPath(b: Binding, requestField: Option<Entries>, field: TypeField, ds: seq<Decorator>)
    requires forall d :: d in ds ==> !IsPart(d, "param")
    ensures BindField(b, requestField, field, ds).path == b.path
  {
    if ds != [] {
      assert Last(ds) in ds;
      BindFieldPath(b, requestField, field, DropLast(ds));
    }
  }

  /** The body fields are the names of the fields with a `@RequestPart body` decorator. */
  lemma {:induction false} BindFieldsBody(b: Binding, requestField: Option<Entries>, fields: seq<TypeField>, useCase: string, x: string)
    requires BindFields(b, requestField, fields, useCase).Success?
    ensures x in BindFields(b, requestField, fields, useCase).value.bodyFields <==>
      x in b.bodyFields || exists f :: f in fields && f.name == x && HasPart(f, "body")
  {
    if fields != [] {
      var p, l := DropLast(fields), Last(fields);
      BindFieldsBody(b, requestField, p, useCase, x);
      BindFieldBody(BindFields(b, requestField, p, useCase).value, requestField, l, l.decorators, x);
      assert fields == p + [l];
    }
  }

  /** The parameters are the path parameters of the fields with a `@RequestPart param`
      decorator and the query parameters of those with a `@RequestPart query` decorator. */
  lemma {:induction false} BindFieldsParameters(b: Binding, requestField: Option<Entries>, fields: seq<TypeField>, useCase: string, p: Parameter)
    requires BindFields(b, requestField, fields, useCase).Success?
    ensures p in BindFields(b, requestField, fields, useCase).value.parameters <==>
      p in b.parameters ||
      (exists f :: f in fields &&
        ((p == ParameterFor(requestField, f, "path") && HasPart(f, "param")) ||
         (p == ParameterFor(requestField, f, "query") && HasPart(f, "query"))))
  {
    if fields != [] {
      var q, l := DropLast(fields), Last(fields);
      BindFieldsParameters(b, requestField, q, useCase, p);
      BindFieldParameters(BindFields(b, requestField, q, useCase).value, requestField, l, l.decorators, p);
      assert fields == q + [l];
    }
  }

  /** Without `@RequestPart param` fields the route keeps its path. */
  lemma {:induction false} BindFieldsPath(b: Binding, requestField: Option<Entries>, fields: seq<TypeField>, useCase: string)
    requires BindFields(b, requestField, fields, useCase).Success?
    requires forall f :: f in fields ==> !HasPart(f, "param")
    ensures BindFields(b, requestField, fields, useCase).value.path == b.path
  {
    if fields != [] {
      var q, l := DropLast(fields), Last(fields);
      assert l in fields;
      assert forall f :: f in q ==> f in fields;
      BindFieldsPath(b, requestField, q, useCase);
      BindFieldPath(BindFields(b, requestField, q, useCase).value, requestField, l, l.decorators);
    }
  }

  // ---------------------------------------------------------------------------------------
  // One operation of the document

  /** `obj ?? {}` spread into an object: anything but an object contributes no entries. */
  function ObjectEntries(j: Option<Json>): Entries {
    if j.Some? && j.value.JObject? then j.value.entries else []
  }

  /** `const { definitions, $schema, ...rest } = schema`: the rest. */
  function WithoutDefinitions(schema: Entries): Entries {
    DeleteKey(DeleteKey(schema, "definitions"), "$schema")
  }

  /** `Object.keys(schema.properties).length === 0` on the walked request schema. */
  predicate NoProperties(schema: Json) {
    match Member(schema, "properties")
    case Some(JObject(properties)) => properties == []
    case _ => false
  }

  /** The request body schema (`None` for `null`) and the request's definitions: the
      properties that are not body fields leave the schema, the definitions and `$schema`
      are split off, the references are rewritten, and a schema left without properties is
      `null`. A missing schema, or one without `properties`, makes `Object.keys` throw; a
      `properties` that is present but not an object is treated as that error too. */
  function RequestSchema(useCase: string, requestField: Option<Entries>, bodyFields: seq<string>): Result<(Option<Json>, Option<Json>), OpenApiError> {
    match requestField
    case None => Failure(NoSchema(useCase))
    case Some(schema) =>
      match Lookup(schema, "properties")
      case Some(JObject(properties)) =>
        var removedField := Filter(Keys(properties), (x: string) => x !in bodyFields);
        var updatedSchema := RemoveFieldsFromSchema(schema, removedField);
        var body := UpdateReferences(JObject(WithoutDefinitions(updatedSchema)));
        Success((if NoProperties(body) then None else Some(body), Lookup(updatedSchema, "definitions")))
      case _ => Failure(NoSchema(useCase))
  }

  /** The response schema with its definitions split off and its references rewritten,
      and the response's definitions; destructuring a missing schema throws. */
  function ResponseSchema(useCase: string, responseField: Option<Entries>): Result<(Json, Option<Json>), OpenApiError> {
    match responseField
    case None => Failure(NoSchema(useCase))
    case Some(schema) => Success((UpdateReferences(JObject(WithoutDefinitions(schema))), Lookup(schema, "definitions")))
  }

  /** The methods whose operations never get a request body. */
  const NoBodyMethods: seq<string> := ["get", "delete", "options", "head"]

  function Content(schema: Json): Json {
    JObject([("application/json", JObject([("schema", schema)]))])
  }

  /** The operation object, its keys in the order they are written; `undefined` members
      (no security, no parameters, no request body) are left out. */
  function OperationItem(name: string, data: Json, verb: string, b: Binding, body: Option<Json>, response: Json): Json {
    JObject(TagsEntry(data) + SecurityEntry(data) + IdEntries(name) + ParametersEntry(b)
      + RequestBodyEntry(verb, b, body) + ResponsesEntry(response))
  }

  function TagsEntry(data: Json): Entries {
    [("tags", JArray([if Member(data, "tag").Some? then Member(data, "tag").value else JNull]))]
  }

  function SecurityEntry(data: Json): Entries {
    if Member(data, "security").Some? then [("security", Member(data, "security").value)] else []
  }

  function IdEntries(name: string): Entries {
    [("operationId", JString(name)), ("summary", JString(CamelToPascalWithSpace(name)))]
  }

  function ParametersEntry(b: Binding): Entries {
    if |b.parameters| > 0
    then [("parameters", JArray(seq(|b.parameters|, i requires 0 <= i < |b.parameters| => ParameterJson(b.parameters[i]))))]
    else []
  }

  function RequestBodyEntry(verb: string, b: Binding, body: Option<Json>): Entries {
    if body.None? || verb in NoBodyMethods then []
    else [("requestBody", JObject([("required", JBool(|b.bodyFields| > 0)), ("description", JString("")), ("content", Content(body.value))]))]
  }

  function ResponsesEntry(response: Json): Entries {
    [("responses", JObject([("default", JObject([("description", JString("")), ("content", Content(response))]))]))]
  }

  /** What one use case contributes: the operation object under its path and method, and
      the definitions of its request and response schemas. */
  datatype Operation = Operation(path: string, verb: string, item: Json, definitions: Entries)

  /** The schema generated for a payload; an absent payload has no type name to generate. */
  function SchemaOf(payload: Option<Payload>, generate: string -> Option<Entries>): Option<Entries> {
    if payload.Some? then generate(payload.value.name) else None
  }

  /** The body of the `useCases.forEach` callback, up to the merge into the document. */
  function OperationOf(useCase: FuncMetadata, generate: string -> Option<Entries>): Result<Operation, OpenApiError> {
    var requestField := SchemaOf(useCase.request, generate);
    var responseField := SchemaOf(useCase.response, generate);
    var controller := FindDecorator(useCase.additionalDecorators, "Controller");
    if controller.None? then Failure(NoController(useCase.name))
    else
      var data := controller.value.data;
      if StringMember(data, "path").None? || StringMember(data, "method").None? then Failure(ControllerWithoutRoute(useCase.name))
      else
        var verb := StringMember(data, "method").value;
        var b :- Bind(useCase, StringMember(data, "path").value, requestField);
        var request :- RequestSchema(useCase.name, requestField, b.bodyFields);
        var response :- ResponseSchema(useCase.name, responseField);
        Success(Operation(b.path, verb, OperationItem(useCase.name, data, verb, b, request.0, response.0),
          Spread(ObjectEntries(request.1), ObjectEntries(response.1))))
  }

  method BuildOperation(useCase: FuncMetadata, generate: string -> Option<Entries>) returns (r: Result<Operation, OpenApiError>)
    ensures r == OperationOf(useCase, generate)
  {
    var requestField := SchemaOf(useCase.request, generate);
    var responseField := SchemaOf(useCase.response, generate);
    var controller := FindDecorator(useCase.additionalDecorators, "Controller");
    if controller.None? {
      return Failure(NoController(useCase.name));
    }
    var data := controller.value.data;
    var path, verb := StringMember(data, "path"), StringMember(data, "method");
    if path.None? || verb.None? {
      return Failure(ControllerWithoutRoute(useCase.name));
    }
    var bound := BindRequest(useCase, path.value, requestField);
    if bound.Failure? {
      return Failure(bound.error);
    }
    var b := bound.value;
    if requestField.None? {
      return Failure(NoSchema(useCase.name));
    }
    var properties := Lookup(requestField.value, "properties");
    if properties.None? || !properties.value.JObject? {
      return Failure(NoSchema(useCase.name));
    }
    var removedField := Filter(Keys(properties.value.entries), (x: string) => x !in b.bodyFields);
    var updatedSchema := RemoveFields(requestField.value, removedField);
    var requestBodySchema: Option<Json> := Some(UpdateReferences(JObject(WithoutDefinitions(updatedSchema))));
    var definitionSchema := Lookup(updatedSchema, "definitions");
    if NoProperties(requestBodySchema.value) {
      requestBodySchema := None;
    }
    if responseField.None? {
      return Failure(NoSchema(useCase.name));
    }
    var responseSchema := UpdateReferences(JObject(WithoutDefinitions(responseField.value)));
    var definitions := Spread(ObjectEntries(definitionSchema), ObjectEntries(Lookup(responseField.value, "definitions")));
    var item := OperationItem(useCase.name, data, verb.value, b, requestBodySchema, responseSchema);
    return Success(Operation(b.path, verb.value, item, definitions));
  }

  // ---------------------------------------------------------------------------------------
  // The document

  /** `paths = { ...paths, [path]: { ...paths[path], [method]: item } }`. */
  function MergePath(paths: Entries, op: Operation): Entries {
    SetKey(paths, op.path, JObject(SetKey(ObjectEntries(Lookup(paths, op.path)), op.verb, op.item)))
  }

  /** The `paths` object after the given operations, merged in order. */
  function MergeAll(ops: seq<Operation>): Entries {
    if ops == [] then [] else MergePath(MergeAll(DropLast(ops)), Last(ops))
  }

  /** `components.schemas` after the given operations: every operation replaces it with its
      own converted definitions. */
  function SchemasAfter(ops: seq<Operation>): Option<Json> {
    if ops == [] then Some(JObject([])) else ConvertDefinitionsToSchemas(Some(JObject(Last(ops).definitions)))
  }

  /** The operations of the use cases, in order; the first use case that throws ends the
      generation. */
  function Operations(useCases: seq<FuncMetadata>, generate: string -> Option<Entries>): Result<seq<Operation>, OpenApiError> {
    MapResult(useCases, (u: FuncMetadata) => OperationOf(u, generate))
  }

  /** An entry whose value may be `undefined`. */
  function Optional(key: string, value: Option<Json>): Entries {
    if value.Some? then [(key, value.value)] else []
  }

  function Document(paths: Entries, securitySchemes: Option<Json>, schemas: Option<Json>): Json {
    JObject([
      ("openapi", JString("3.0.0")),
      ("info", JObject([("title", JString("App")), ("version", JString("1.0.0"))])),
      ("paths", JObject(paths)),
      ("components", JObject(Optional("securitySchemes", securitySchemes) + Optional("schemas", schemas)))])
  }

  /** `generateOpenAPIObject(useCases, securitySchemes)`. */
  function OpenApiDocument(useCases: seq<FuncMetadata>, securitySchemes: Option<Json>, generate: string -> Option<Entries>): Result<Json, OpenApiError> {
    var ops :- Operations(useCases, generate);
    Success(Document(MergeAll(ops), securitySchemes, SchemasAfter(ops)))
  }

  method GenerateOpenAPIObject(useCases: seq<FuncMetadata>, securitySchemes: Option<Json>, generate: string -> Option<Entries>)
    returns (r: Result<Json, OpenApiError>)
    ensures r == OpenApiDocument(useCases, securitySchemes, generate)
  {
    var paths: Entries := [];
    var schemas: Option<Json> := Some(JObject([]));
    ghost var ops: seq<Operation> := [];
    for i := 0 to |useCases|
      invariant Operations(useCases[..i], generate) == Success(ops)
      invariant paths == MergeAll(ops) && schemas == SchemasAfter(ops)
    {
      PrefixStep(useCases, i);
      var op := BuildOperation(useCases[i], generate);
      if op.Failure? {
        MapResultFailureSticks(useCases, (u: FuncMetadata) => OperationOf(u, generate), i + 1);
        assert useCases[..|useCases|] == useCases;
        return Failure(op.error);
      }
      var existing := ObjectEntries(Lookup(paths, op.value.path));
      paths := SetKey(paths, op.value.path, JObject(SetKey(existing, op.value.verb, op.value.item)));
      schemas := ConvertDefinitions(Some(JObject(op.value.definitions)));
      assert DropLast(ops + [op.value]) == ops;
      ops := ops + [op.value];
    }
    assert useCases[..|useCases|] == useCases;
    return Success(Document(paths, securitySchemes, schemas));
  }

  // ---------------------------------------------------------------------------------------
  // Properties of the document

  /** The generation succeeds exactly when every use case gives an operation, and then the
      operations are those of the use cases, one each, in order. */
  lemma {:induction false} OperationsSpec(useCases: seq<FuncMetadata>, generate: string -> Option<Entries>)
    ensures Operations(useCases, generate).Success? <==> forall i :: 0 <= i < |useCases| ==> OperationOf(useCases[i], generate).Success?
    ensures Operations(useCases, generate).Success? ==>
      |Operations(useCases, generate).value| == |useCases| &&
      forall i :: 0 <= i < |useCases| ==> Operations(useCases, generate).value[i] == OperationOf(useCases[i], generate).value
  {
    MapResultSpec(useCases, (u: FuncMetadata) => OperationOf(u, generate));
  }

  /** The operation object under a path and a method of a `paths` object. */
  function PathOp(paths: Entries, path: string, verb: string): Option<Json> {
    match Lookup(paths, path)
    case Some(JObject(entries)) => Lookup(entries, verb)
    case _ => None
  }

  /** The item of the last operation with that path and method. */
  function LastOp(ops: seq<Operation>, path: string, verb: string): Option<Json> {
    if ops == [] then None
    else if Last(ops).path == path && Last(ops).verb == verb then Some(Last(ops).item)
    else LastOp(DropLast(ops), path, verb)
  }

  /** Under every path and method the document holds the operation object of the last use
      case with that route: a later use case replaces an earlier one with the same route and
      keeps the other methods of its path. */
  lemma {:induction false} MergeAllPathOp(ops: seq<Operation>, path: string, verb: string)
    ensures PathOp(MergeAll(ops), path, verb) == LastOp(ops, path, verb)
  {
    if ops != [] {
      var before, op := MergeAll(DropLast(ops)), Last(ops);
      MergeAllPathOp(DropLast(ops), path, verb);
      var existing := ObjectEntries(Lookup(before, op.path));
      LookupSetKey(before, op.path, JObject(SetKey(existing, op.verb, op.item)), path);
      if path == op.path {
        LookupSetKey(existing, op.verb, op.item, verb);
      }
    }
  }

  /** A path appears in the document exactly when some use case has that route's path. */
  lemma {:induction false} MergeAllPaths(ops: seq<Operation>, path: string)
    ensures Lookup(MergeAll(ops), path).Some? <==> exists i :: 0 <= i < |ops| && ops[i].path == path
  {
    if ops != [] {
      var q, op := DropLast(ops), Last(ops);
      MergeAllPaths(q, path);
      LookupSetKey(MergeAll(q), op.path, JObject(SetKey(ObjectEntries(Lookup(MergeAll(q), op.path)), op.verb, op.item)), path);
      assert forall i :: 0 <= i < |q| ==> q[i] == ops[i];
      assert ops[|q|] == op;
    }
  }

  /** The members of an operation object: its id is the use case's name and its summary
      that name in words; security is copied from the controller; parameters appear only
      when there are some; a request body appears only for a schema with properties and a
      method that carries a body, and it is required exactly when some field is a body
      field; a response always appears. */
  lemma OperationItemSpec(name: string, data: Json, verb: string, b: Binding, body: Option<Json>, response: Json)
    ensures var entries := OperationItem(name, data, verb, b, body, response).entries;
      Lookup(entries, "operationId") == Some(JString(name)) &&
      Lookup(entries, "summary") == Some(JString(CamelToPascalWithSpace(name))) &&
      Lookup(entries, "security") == Member(data, "security") &&
      (Lookup(entries, "parameters").Some? <==> |b.parameters| > 0) &&
      (Lookup(entries, "requestBody").Some? <==> body.Some? && verb !in NoBodyMethods) &&
      (Lookup(entries, "requestBody").Some? ==>
        Member(Lookup(entries, "requestBody").value, "required") == Some(JBool(|b.bodyFields| > 0))) &&
      Lookup(entries, "responses").Some?
  {
    var t, sec, ids := TagsEntry(data), SecurityEntry(data), IdEntries(name);
    var ps, rb, rs := ParametersEntry(b), RequestBodyEntry(verb, b, body), ResponsesEntry(response);
    LookupSix(t, sec, ids, ps, rb, rs, "operationId");
    LookupSix(t, sec, ids, ps, rb, rs, "summary");
    LookupSix(t, sec, ids, ps, rb, rs, "security");
    LookupSix(t, sec, ids, ps, rb, rs, "parameters");
    LookupSix(t, sec, ids, ps, rb, rs, "requestBody");
    LookupSix(t, sec, ids, ps, rb, rs, "responses");
  }

  function OrElse(x: Option<Json>, y: Option<Json>): Option<Json> {
    if x.Some? then x else y
  }

  /** A lookup in six lists of entries put together. */
  lemma {:induction false} LookupSix(a: Entries, b: Entries, c: Entries, d: Entries, e: Entries, f: Entries, k: string)
    ensures Lookup(a + b + c + d + e + f, k) ==
      OrElse(Lookup(a, k), OrElse(Lookup(b, k), OrElse(Lookup(c, k), OrElse(Lookup(d, k), OrElse(Lookup(e, k), Lookup(f, k))))))
  {
    LookupAppend(a + b + c + d + e, f, k);
    LookupAppend(a + b + c + d, e, k);
    LookupAppend(a + b + c, d, k);
    LookupAppend(a + b, c, k);
    LookupAppend(a, b, k);
  }

  /** The removal leaves in `properties` exactly the properties whose names are not listed. */
  lemma RemoveFieldsProperties(schema: Entries, fields: seq<string>, properties: Entries)
    requires Lookup(schema, "properties") == Some(JObject(properties))
    ensures Lookup(RemoveFieldsFromSchema(schema, fields), "properties") == Some(JObject(DeleteKeys(properties, fields)))
  {
    var withProperties := SetKey(schema, "properties", JObject(DeleteKeys(properties, fields)));
    LookupSetKey(schema, "properties", JObject(DeleteKeys(properties, fields)), "properties");
    match Lookup(withProperties, "required") {
      case Some(JArray(required)) =>
        LookupSetKey(withProperties, "required", JArray(KeepRequired(required, fields)), "properties");
      case _ =>
        LookupDeleteKey(withProperties, "required", "properties");
    }
  }

  /** No properties are left exactly when every property was deleted. */
  lemma DeleteKeysEmpty(properties: Entries, keys: seq<string>)
    ensures DeleteKeys(properties, keys) == [] <==> forall e :: e in properties ==> e.0 in keys
  {
    var d := DeleteKeys(properties, keys);
    if d != [] {
      DeleteKeysMem(properties, keys, d[0]);
    } else {
      forall e | e in properties ensures e.0 in keys {
        DeleteKeysMem(properties, keys, e);
      }
    }
  }

  /** For a generated request schema with properties, the operation has a request body
      schema exactly when one of the properties is a body field. */
  lemma {:induction false} RequestBodyPresent(useCase: string, schema: Entries, bodyFields: seq<string>, properties: Entries)
    requires Lookup(schema, "properties") == Some(JObject(properties))
    ensures RequestSchema(useCase, Some(schema), bodyFields).Success?
    ensures RequestSchema(useCase, Some(schema), bodyFields).value.0.Some? <==> exists e :: e in properties && e.0 in bodyFields
  {
    var keep := (x: string) => x !in bodyFields;
    var removedField := Filter(Keys(properties), keep);
    var updatedSchema := RemoveFieldsFromSchema(schema, removedField);
    var rest := WithoutDefinitions(updatedSchema);
    var remaining := DeleteKeys(properties, removedField);
    RemoveFieldsProperties(schema, removedField, properties);
    LookupDeleteKey(updatedSchema, "definitions", "properties");
    LookupDeleteKey(DeleteKey(updatedSchema, "definitions"), "$schema", "properties");
    assert Lookup(rest, "properties") == Some(JObject(remaining));
    LookupUpdated(rest, "properties");
    var body := UpdateReferences(JObject(rest));
    assert Member(body, "properties") == Some(UpdateReferences(JObject(remaining)));
    assert NoProperties(body) <==> remaining == [];
    DeleteKeysEmpty(properties, removedField);
    forall e | e in properties ensures e.0 in removedField <==> e.0 !in bodyFields {
      var i :| 0 <= i < |properties| && properties[i] == e;
      assert Keys(properties)[i] == e.0;
      FilterMem(Keys(properties), keep, e.0);
    }
  }

  /** A use case fails for want of a controller exactly when it has no `@Controller`
      decorator. */
  lemma NoControllerSpec(useCase: FuncMetadata, generate: string -> Option<Entries>)
    ensures OperationOf(useCase, generate) == Failure(NoController(useCase.name)) <==>
      FindDecorator(useCase.additionalDecorators, "Controller").None?
  {
    var requestField := SchemaOf(useCase.request, generate);
    var controller := FindDecorator(useCase.additionalDecorators, "Controller");
    if controller.Some? && StringMember(controller.value.data, "path").Some? {
      var path := StringMember(controller.value.data, "path").value;
      if useCase.request.Some? && useCase.request.value.structure.Some? {
        BindFieldsErrors(Binding(path, [], []), requestField, useCase.request.value.structure.value, useCase.name);
      }
    }
  }

  /** The loop over the fields only ever stops at a field without `decorators`. */
  lemma {:induction false} BindFieldsErrors(b: Binding, requestField: Option<Entries>, fields: seq<TypeField>, useCase: string)
    ensures BindFields(b, requestField, fields, useCase).Failure? ==> BindFields(b, requestField, fields, useCase).error.FieldWithoutDecorators?
  {
    if fields != [] {
      BindFieldsErrors(b, requestField, DropLast(fields), useCase);
    }
  }

  /** The fields of a use case's request. */
  function RequestFields(useCase: FuncMetadata): seq<TypeField> {
    if useCase.request.Some? && useCase.request.value.structure.Some? then useCase.request.value.structure.value else []
  }

  /** An operation sits under the method its controller names, and under the controller's
      path as written when no request field is a path parameter. */
  lemma OperationRoute(useCase: FuncMetadata, generate: string -> Option<Entries>)
    requires OperationOf(useCase, generate).Success?
    ensures FindDecorator(useCase.additionalDecorators, "Controller").Some?
    ensures var data := FindDecorator(useCase.additionalDecorators, "Controller").value.data;
      StringMember(data, "method") == Some(OperationOf(useCase, generate).value.verb) &&
      ((forall f :: f in RequestFields(useCase) ==> !HasPart(f, "param")) ==>
        StringMember(data, "path") == Some(OperationOf(useCase, generate).value.path))
  {
    var data := FindDecorator(useCase.additionalDecorators, "Controller").value.data;
    var path := StringMember(data, "path").value;
    if useCase.request.Some? && useCase.request.value.structure.Some? &&
      forall f :: f in RequestFields(useCase) ==> !HasPart(f, "param")
    {
      BindFieldsPath(Binding(path, [], []), SchemaOf(useCase.request, generate), RequestFields(useCase), useCase.name);
    }
  }

  /** Spreading onto entries with distinct keys keeps the keys distinct. */
  lemma {:induction false} SpreadDistinct(a: Entries, b: Entries)
    requires Distinct(Keys(a))
    ensures Distinct(Keys(Spread(a, b)))
    decreases |b|
  {
    if b != [] {
      var s := SetKey(a, b[0].0, b[0].1);
      KeysSetKey(a, b[0].0, b[0].1);
      if b[0].0 !in Keys(a) {
        forall i, j | 0 <= i < j < |Keys(s)| ensures Keys(s)[i] != Keys(s)[j] {
          if j == |Keys(a)| {
            assert Keys(a)[i] in Keys(a);
          } else {
            assert Keys(s)[i] == Keys(a)[i] && Keys(s)[j] == Keys(a)[j];
          }
        }
      }
      SpreadDistinct(s, b[1..]);
    }
  }

  /** `components.schemas` holds the non-boolean definitions of the last use case's
      schemas, and those only. */
  lemma SchemasAfterSpec(ops: seq<Operation>, k: string)
    requires ops != [] && Distinct(Keys(Last(ops).definitions))
    ensures SchemasAfter(ops).Some? && SchemasAfter(ops).value.JObject?
    ensures var definitions := Last(ops).definitions;
      Lookup(SchemasAfter(ops).value.entries, k) ==
        if Lookup(definitions, k).Some? && !Lookup(definitions, k).value.JBool? then Lookup(definitions, k) else None
  {
    CopyDefinitionsSpec(Last(ops).definitions, k);
  }
}
