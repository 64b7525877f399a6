/**
 * Function tools (`Tools\Tool`): a name, a description, a callback and a JSON
 * schema of the callback's parameters, inferred from the callback's
 * signature when none is given.
 */
module Tools {
  import opened Values

  /**
   * A callback parameter as reflection reports it: its name, the type name
   * when the declared type is a single named type (`None` for no type or a
   * union type), and whether it is optional.
   */
  datatype Parameter = Parameter(name: string, namedType: Option<string>, optional: bool)

  /** A closure, by identity, with its declared parameter list. */
  datatype Callback = Callback(id: nat, parameters: seq<Parameter>)

  datatype Tool = Tool(name: string, description: string, callback: Callback, parameters: Value)

  /** Calling a closure with (context value, arguments); the behaviour is supplied from outside. */
  type Invoker = (Callback, Value, Value) -> Value

  /** The JSON schema type for a PHP parameter type (`getParameterSchema`'s switch). */
  function JsonType(t: Option<string>): (j: string)
    ensures j == "integer" <==> t == Some("int")
    ensures j == "number" <==> t == Some("float")
    ensures j == "boolean" <==> t == Some("bool")
    ensures j == "array" <==> t == Some("array")
    ensures j == "string" <==> !(t == Some("int") || t == Some("float") || t == Some("bool") || t == Some("array"))
  {
    match t
    case Some("int") => "integer"
    case Some("float") => "number"
    case Some("bool") => "boolean"
    case Some("array") => "array"
    case _ => "string"
  }

  /** `getParameterSchema($parameter)`: `['type' => ...]`. */
  function ParameterSchema(p: Parameter): Value {
    VMap(map["type" := VStr(JsonType(p.namedType))])
  }

  /** The `properties` map built from the parameters, in order; a later parameter of the same name replaces an earlier one. */
  function PropertiesOf(ps: seq<Parameter>): map<string, Value>
    decreases |ps|
  {
    if |ps| == 0 then map[]
    else PropertiesOf(ps[..|ps| - 1])[ps[|ps| - 1].name := ParameterSchema(ps[|ps| - 1])]
  }

  /** The names of the non-optional parameters, in declaration order. */
  function RequiredOf(ps: seq<Parameter>): seq<string>
    decreases |ps|
  {
    if |ps| == 0 then []
    else RequiredOf(ps[..|ps| - 1]) + (if ps[|ps| - 1].optional then [] else [ps[|ps| - 1].name])
  }

  /** The callback's parameters after the first one, which receives the run context. */
  function ArgumentParameters(ps: seq<Parameter>): seq<Parameter> {
    if |ps| == 0 then [] else ps[1..]
  }

  /** The schema `inferParameters` produces for a parameter list. */
  function InferredSchema(ps: seq<Parameter>): Value {
    var args := ArgumentParameters(ps);
    if |args| == 0 then
      VMap(map["type" := VStr("object"), "properties" := VList([])])
    else
      VMap(map["type" := VStr("object"),
               "properties" := VMap(PropertiesOf(args)),
               "required" := Strings(RequiredOf(args))])
  }

  /**
   * `inferParameters($callback)`: drops the context parameter, then fills
   * `properties` and `required` in one pass over the rest.
   */
  method InferParameters(callback: Callback) returns (schema: Value)
    ensures schema == InferredSchema(callback.parameters)
  {
    var parameters := ArgumentParameters(callback.parameters);
    if |parameters| == 0 {
      return VMap(map["type" := VStr("object"), "properties" := VList([])]);
    }
    var properties: map<string, Value> := map[];
    var required: seq<string> := [];
    var i := 0;
    while i < |parameters|
      invariant 0 <= i <= |parameters|
      invariant properties == PropertiesOf(parameters[..i])
      invariant required == RequiredOf(parameters[..i])
    {
      assert parameters[..i + 1][..i] == parameters[..i];
      var parameter := parameters[i];
      properties := properties[parameter.name := ParameterSchema(parameter)];
      if !parameter.optional {
        required := required + [parameter.name];
      }
      i := i + 1;
    }
    assert parameters[..|parameters|] == parameters;
    schema := VMap(map["type" := VStr("object"), "properties" := VMap(properties), "required" := Strings(required)]);
  }

  /** `new Tool($name, $description, $callback, $parameters)`: given parameters are kept verbatim, null ones are inferred. */
  method NewTool(name: string, description: string, callback: Callback, parameters: Option<Value>) returns (t: Tool)
    requires parameters.Some? ==> IsArray(parameters.value)
    ensures t.name == name && t.description == description && t.callback == callback
    ensures parameters.Some? ==> t.parameters == parameters.value
    ensures parameters.None? ==> t.parameters == InferredSchema(callback.parameters)
  {
    var schema: Value;
    if parameters.Some? {
      schema := parameters.value;
    } else {
      schema := InferParameters(callback);
    }
    t := Tool(name, description, callback, schema);
  }

  /** Every parameter has a `properties` entry, and a parameter whose name is not repeated later has its own schema there. */
  lemma PropertiesOfEntries(ps: seq<Parameter>)
    ensures PropertiesOf(ps).Keys == set p | p in ps :: p.name
    ensures forall i :: 0 <= i < |ps| && (forall j :: i < j < |ps| ==> ps[j].name != ps[i].name) ==>
              PropertiesOf(ps)[ps[i].name] == ParameterSchema(ps[i])
  {
    PropertiesOfKeys(ps);
    forall i | 0 <= i < |ps| && (forall j :: i < j < |ps| ==> ps[j].name != ps[i].name)
      ensures PropertiesOf(ps)[ps[i].name] == ParameterSchema(ps[i])
    {
      PropertiesOfEntry(ps, i);
    }
  }

  /** The keys of `properties` are the parameters' names. */
  lemma {:induction false} PropertiesOfKeys(ps: seq<Parameter>)
    ensures PropertiesOf(ps).Keys == set p | p in ps :: p.name
    decreases |ps|
  {
    if |ps| > 0 {
      var init := ps[..|ps| - 1];
      PropertiesOfKeys(init);
      assert forall p :: p in ps <==> p in init || p == ps[|ps| - 1];
    }
  }

  /** The schema of parameter `i`, when no later parameter has its name. */
  lemma {:induction false} PropertiesOfEntry(ps: seq<Parameter>, i: nat)
    requires i < |ps| && forall j :: i < j < |ps| ==> ps[j].name != ps[i].name
    ensures ps[i].name in PropertiesOf(ps) && PropertiesOf(ps)[ps[i].name] == ParameterSchema(ps[i])
    decreases |ps|
  {
    if i < |ps| - 1 {
      var init := ps[..|ps| - 1];
      assert init[i] == ps[i];
      assert forall j :: i < j < |init| ==> init[j] == ps[j];
      PropertiesOfEntry(init, i);
    }
  }

  /** `required` holds exactly the names of the non-optional parameters; with no optional parameter it is every name, in order. */
  lemma {:induction false} RequiredOfExactly(ps: seq<Parameter>)
    ensures forall n :: n in RequiredOf(ps) <==> exists i :: 0 <= i < |ps| && ps[i].name == n && !ps[i].optional
    ensures (forall i :: 0 <= i < |ps| ==> !ps[i].optional) ==> RequiredOf(ps) == seq(|ps|, i requires 0 <= i < |ps| => ps[i].name)
    decreases |ps|
  {
    if |ps| > 0 {
      var init := ps[..|ps| - 1];
      RequiredOfExactly(init);
      forall n
        ensures n in RequiredOf(ps) <==> exists i :: 0 <= i < |ps| && ps[i].name == n && !ps[i].optional
      {
        if n in RequiredOf(ps) && n !in RequiredOf(init) {
          assert ps[|ps| - 1].name == n && !ps[|ps| - 1].optional;
        }
        if exists i :: 0 <= i < |ps| && ps[i].name == n && !ps[i].optional {
          var i :| 0 <= i < |ps| && ps[i].name == n && !ps[i].optional;
          if i < |ps| - 1 {
            assert init[i] == ps[i];
          }
        }
      }
    }
  }

  /** A callback with only the context parameter, or none, gets an empty object schema without `required`. */
  lemma NoArgumentsSchema(ps: seq<Parameter>)
    requires |ps| <= 1
    ensures InferredSchema(ps) == VMap(map["type" := VStr("object"), "properties" := VList([])])
    ensures !IsSet(InferredSchema(ps), "required")
  {
  }

  /** The context parameter never reaches the schema: callbacks differing only in it get the same schema. */
  lemma ContextParameterIgnored(p: Parameter, q: Parameter, rest: seq<Parameter>)
    ensures InferredSchema([p] + rest) == InferredSchema([q] + rest)
  {
    assert ([p] + rest)[1..] == rest;
    assert ([q] + rest)[1..] == rest;
  }
}
