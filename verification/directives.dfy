/** The client's function table (`this.functions`, built by the constructor)
    and the function-declaration list `run` derives from it. */
module Directives {
  import opened Wrappers
  import opened JsValue

  /** The key of the table that holds descriptions rather than a handler. */
  const Reserved: string := "params_"

  /** The prefix that marks a built-in type-coercion directive. */
  const CustomPrefix: string := "customType_"

  predicate IsCustomType(name: string) {
    CustomPrefix <= name
  }

  /** A property of a parameter schema: `{ type, description }`. */
  datatype Property = Property(kind: string, description: string)

  /** A parameter schema `{ type, properties: { items }, required }`. */
  datatype Schema = Schema(kind: string, items: Property, required: seq<string>)

  /** An entry of `params_`: a directive's description and parameter schema. */
  datatype Params = Params(description: string, parameters: Schema)

  /** A function-valued entry of the table. `ReadItems` is the built-in
      `(e) => e.items`; `Custom` is any other handler a caller installs. */
  datatype Handler =
    | ReadItems
    | Custom(apply: Value -> Result<Value, Cause>)

  /** The table as an object literal: the `params_` key first, then the
      handler keys in insertion order. */
  datatype Functions = Functions(params: map<string, Params>, handlers: seq<(string, Handler)>)

  /** One entry of `function_declarations`. */
  datatype Declaration = Declaration(name: string, description: string, parameters: Schema)

  function HandlerNames(handlers: seq<(string, Handler)>): (names: seq<string>)
    ensures |names| == |handlers|
    ensures forall i :: 0 <= i < |handlers| ==> names[i] == handlers[i].0
  {
    seq(|handlers|, i requires 0 <= i < |handlers| => handlers[i].0)
  }

  /** `Object.keys(this.functions)`. */
  function Keys(f: Functions): seq<string> {
    [Reserved] + HandlerNames(f.handlers)
  }

  /** The `flatMap` that builds the declarations: `params_` is skipped, every
      other key contributes its name and the description and schema stored
      under it in `params_`; a key with no `params_` entry throws when its
      description is read. */
  function Declare(keys: seq<string>, params: map<string, Params>): Result<seq<Declaration>, Cause> {
    if |keys| == 0 then Ok([])
    else if keys[0] == Reserved then Declare(keys[1..], params)
    else if keys[0] !in params then Err(ReadOfNullish("description"))
    else
      match Declare(keys[1..], params)
      case Err(e) => Err(e)
      case Ok(rest) => Ok([Declaration(keys[0], params[keys[0]].description, params[keys[0]].parameters)] + rest)
  }

  function Declarations(f: Functions): Result<seq<Declaration>, Cause> {
    Declare(Keys(f), f.params)
  }

  /** The declarations succeed exactly when every key but `params_` has a
      `params_` entry; then, for keys that do not repeat `params_`, there is one
      declaration per key, in key order, carrying that key's entry. */
  lemma {:induction false} DeclareSpec(keys: seq<string>, params: map<string, Params>)
    ensures Declare(keys, params).Ok? <==>
      forall i :: 0 <= i < |keys| && keys[i] != Reserved ==> keys[i] in params
    ensures Declare(keys, params).Ok? && Reserved !in keys ==>
      var d := Declare(keys, params).value;
      && |d| == |keys|
      && forall i :: 0 <= i < |keys| ==>
           d[i] == Declaration(keys[i], params[keys[i]].description, params[keys[i]].parameters)
  {
    if |keys| > 0 {
      DeclareSpec(keys[1..], params);
      assert forall i :: 1 <= i < |keys| ==> keys[i] == keys[1..][i - 1];
    }
  }

  /** For a table, `params_` is skipped and every handler key, none of which
      is `params_`, gives one declaration, in key order, carrying its `params_`
      entry; the list fails exactly when some handler key has no entry. */
  lemma DeclarationsSpec(f: Functions)
    requires Reserved !in HandlerNames(f.handlers)
    ensures Declarations(f).Ok? <==> forall i :: 0 <= i < |f.handlers| ==> f.handlers[i].0 in f.params
    ensures Declarations(f).Ok? ==>
      var d := Declarations(f).value;
      && |d| == |f.handlers|
      && forall i :: 0 <= i < |f.handlers| ==>
           d[i] == Declaration(f.handlers[i].0, f.params[f.handlers[i].0].description, f.params[f.handlers[i].0].parameters)
  {
    assert Keys(f)[1..] == HandlerNames(f.handlers);
    DeclareSpec(HandlerNames(f.handlers), f.params);
  }

  /** The position of the first handler named `name`, or `|handlers|`. */
  function FindHandler(handlers: seq<(string, Handler)>, name: string): (i: nat)
    ensures i <= |handlers|
    ensures i < |handlers| ==> handlers[i].0 == name
    ensures forall j :: 0 <= j < i ==> handlers[j].0 != name
  {
    if |handlers| == 0 || handlers[0].0 == name then 0
    else 1 + FindHandler(handlers[1..], name)
  }

  /** Handler lookup, `this.functions[name]`: the first handler with that
      name; the reserved key holds an object, not a function. */
  function Lookup(f: Functions, name: string): Option<Handler> {
    var i := FindHandler(f.handlers, name);
    if name == Reserved || i == |f.handlers| then None else Some(f.handlers[i].1)
  }

  /** `this.functions[name](arg)`: an absent key, or `params_`, is not a function. */
  function Invoke(f: Functions, name: string, arg: Value): Result<Value, Cause> {
    match Lookup(f, name)
    case None => Err(NotAFunction(name))
    case Some(ReadItems) => ItemsOf(arg)
    case Some(Custom(apply)) => apply(arg)
  }

  // The table the constructor builds.

  const StringText := "Output type is string type. When the output type is string type, this is used. No descriptions and explanations."
  const NumberText := "Output type is number type. When the output type is number type, this is used. No descriptions and explanations."
  const BooleanText := "Output type is boolean type. When the output type is boolean type, this is used. No descriptions and explanations."
  const ArrayText := "Output type is array type. When the output type is array type, this is used. No descriptions and explanations."
  const ObjectText := "Output type is JSON object type. When the output type is object type, this is used. No descriptions and explanations."

  /** A `params_` entry whose single required parameter `items` has type `kind`. */
  function Directive(kind: string, text: string): Params {
    Params(text, Schema("OBJECT", Property(kind, text), ["items"]))
  }

  const BuiltinNames: seq<string> :=
    ["customType_string", "customType_number", "customType_boolean", "customType_array", "customType_object"]

  const DefaultFunctions: Functions := Functions(
    map[
      "customType_string" := Directive("STRING", StringText),
      "customType_number" := Directive("NUMBER", NumberText),
      "customType_boolean" := Directive("BOOLEAN", BooleanText),
      "customType_array" := Directive("ARRAY", ArrayText),
      "customType_object" := Directive("OBJECT", ObjectText)
    ],
    [
      ("customType_string", ReadItems),
      ("customType_number", ReadItems),
      ("customType_boolean", ReadItems),
      ("customType_array", ReadItems),
      ("customType_object", ReadItems)
    ])

  /** The constructor's table declares the five built-in directives, in order,
      each with its own description and an `items` parameter of the matching type. */
  lemma DefaultDeclarations()
    ensures Declarations(DefaultFunctions) == Ok([
      Declaration("customType_string", StringText, Schema("OBJECT", Property("STRING", StringText), ["items"])),
      Declaration("customType_number", NumberText, Schema("OBJECT", Property("NUMBER", NumberText), ["items"])),
      Declaration("customType_boolean", BooleanText, Schema("OBJECT", Property("BOOLEAN", BooleanText), ["items"])),
      Declaration("customType_array", ArrayText, Schema("OBJECT", Property("ARRAY", ArrayText), ["items"])),
      Declaration("customType_object", ObjectText, Schema("OBJECT", Property("OBJECT", ObjectText), ["items"]))
    ])
  {
    var keys := Keys(DefaultFunctions);
    assert keys[1..] == BuiltinNames;
    assert Declarations(DefaultFunctions) == Declare(BuiltinNames, DefaultFunctions.params);
    DeclareSpec(BuiltinNames, DefaultFunctions.params);
    assert Reserved !in BuiltinNames;
    var d := Declare(BuiltinNames, DefaultFunctions.params).value;
    assert |d| == 5;
    assert d[0] == Declaration("customType_string", StringText, Schema("OBJECT", Property("STRING", StringText), ["items"]));
    assert d[1] == Declaration("customType_number", NumberText, Schema("OBJECT", Property("NUMBER", NumberText), ["items"]));
    assert d[2] == Declaration("customType_boolean", BooleanText, Schema("OBJECT", Property("BOOLEAN", BooleanText), ["items"]));
    assert d[3] == Declaration("customType_array", ArrayText, Schema("OBJECT", Property("ARRAY", ArrayText), ["items"]));
    assert d[4] == Declaration("customType_object", ObjectText, Schema("OBJECT", Property("OBJECT", ObjectText), ["items"]));
    assert Declarations(DefaultFunctions) == Ok(d);
    assert d == [d[0], d[1], d[2], d[3], d[4]];
  }

  /** Every handler of the constructor's table is the `items` reader, and
      every built-in name is a custom type. */
  lemma DefaultHandlers(name: string)
    ensures Lookup(DefaultFunctions, name).Some? <==> name in BuiltinNames
    ensures Lookup(DefaultFunctions, name).Some? ==> Lookup(DefaultFunctions, name).value.ReadItems?
    ensures name in BuiltinNames ==> IsCustomType(name)
  {
  }
}
