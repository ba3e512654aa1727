/** The records the scanner produces and the rest of the core reads. */
module Types {
  import opened Common
  import opened Json

  /** A JSDoc tag: `@Name data`, the data parsed as JSON when it is an object. */
  datatype Decorator = Decorator(name: string, data: Json)

  /** Under which key a field's decorators are stored. Properties of a named payload type
      store them under `decorators`, as the `TypeField` type declares; properties of a type
      literal written inline store them under `decorator`, so a reader of `decorators`
      finds nothing there. */
  datatype FieldKey = DecoratorsKey | DecoratorKey

  /** A property of a request or response payload: its name, the compiler's text of its
      type, and the decorators of its JSDoc. */
  datatype TypeField = TypeField(name: string, fieldType: string, decorators: seq<Decorator>, key: FieldKey)

  /** Request or response metadata of an action. */
  datatype Payload = Payload(name: string, path: Option<string>, structure: Option<seq<TypeField>>, decorators: Option<seq<Decorator>>)

  /** Everything the scanner records about an injectable function. */
  datatype FuncMetadata = FuncMetadata(
    name: string,
    dependencies: seq<string>,
    mainDecorator: Decorator,
    additionalDecorators: seq<Decorator>,
    returnTypeDecorator: Option<seq<Decorator>>,
    request: Option<Payload>,
    response: Option<Payload>)

  /** The three main decorators, in the order of `InjectableDecorator`. */
  const InjectableDecorator: seq<string> := ["Config", "Wrapper", "Action"]

  predicate IsInjectable(name: string) {
    name in InjectableDecorator
  }

  /** `decorators.find(x => x.name === name)`. */
  function FindDecorator(ds: seq<Decorator>, name: string): Option<Decorator> {
    if ds == [] then None
    else if ds[0].name == name then Some(ds[0])
    else FindDecorator(ds[1..], name)
  }

  /** `find` fails exactly when no decorator has the name, and what it finds has it. */
  lemma {:induction false} FindDecoratorSpec(ds: seq<Decorator>, name: string)
    ensures FindDecorator(ds, name).None? <==> forall i :: 0 <= i < |ds| ==> ds[i].name != name
    ensures FindDecorator(ds, name).Some? ==> FindDecorator(ds, name).value in ds && FindDecorator(ds, name).value.name == name
  {
    if ds != [] && ds[0].name != name {
      FindDecoratorSpec(ds[1..], name);
      assert forall i :: 1 <= i < |ds| ==> ds[i] == ds[1..][i - 1];
    }
  }

  /** `find` returns the first decorator with the name. */
  lemma {:induction false} FindDecoratorFirst(ds: seq<Decorator>, name: string, i: nat)
    requires i < |ds| && ds[i].name == name
    requires forall j :: 0 <= j < i ==> ds[j].name != name
    ensures FindDecorator(ds, name) == Some(ds[i])
  {
    if i > 0 {
      FindDecoratorFirst(ds[1..], name, i - 1);
    }
  }
}
