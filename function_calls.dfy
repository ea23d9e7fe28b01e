/** The schema adapter of `openai_function_call/function_calls.py`: deriving
    the function-calling schema of a typed function (`openai_function`) or of
    a typed model class (`OpenAISchema`), the strict check made on a
    completion before its arguments are used, and the `MultiTask` wrapper
    class. The schema the validation library generates is an input here. */
module FunctionCalls {

  import opened Wrappers
  import opened Json
  import opened KeyRemoval
  import opened TextOrder

  /** The exceptions the adapter lets escape. */
  datatype Error =
    | KeyError(key: string)            // a dict lookup of a missing key
    | AttributeError(name: string)     // a method called on a value that lacks it
    | TypeError(reason: string)        // a value that is not a dict where one is iterated
    | AssertionError(message: string)  // the strict checks of `from_response`
    | IndexError                       // `completion.choices[0]` of no choices
    | JsonDecodeError                  // the arguments string is not JSON

  /** Bookkeeping fields of the argument-validating model, never parameters. */
  const BookkeepingNames: set<string> := {"v__duplicate_kwargs", "args", "kwargs"}

  const NoCallMessage := "No function call detected"
  const NameMismatchMessage := "Function name does not match"

  /** A typed callable as the adapter sees it: `__name__`, `__doc__` and the
      schema generated for its argument model. */
  datatype FunctionDef = FunctionDef(name: string, doc: Option<string>, model: map<string, Json>)

  /** A list of JSON strings. */
  function StringArray(xs: seq<string>): (r: Json)
    ensures r.JArray? && |r.items| == |xs|
    ensures forall i | 0 <= i < |xs| :: r.items[i] == JString(xs[i])
  {
    JArray(seq(|xs|, i requires 0 <= i < |xs| => JString(xs[i])))
  }

  /** `required` holds exactly the names of `names`, as strings, strictly ascending. */
  ghost predicate IsSortedNameList(required: Json, names: set<string>)
  {
    && required.JArray?
    && (forall i | 0 <= i < |required.items| :: required.items[i].JString?)
    && (forall i, j | 0 <= i < j < |required.items| ::
          Below(required.items[i].str, required.items[j].str))
    && (forall x :: JString(x) in required.items <==> x in names)
  }

  lemma SortedKeysListed(names: set<string>)
    ensures IsSortedNameList(StringArray(SortedKeys(names)), names)
  {
    var ks := SortedKeys(names);
    var r := StringArray(ks);
    forall x ensures JString(x) in r.items <==> x in names {
      if JString(x) in r.items {
        var i :| 0 <= i < |r.items| && r.items[i] == JString(x);
        assert ks[i] == x;
      }
      if x in names {
        var i :| 0 <= i < |ks| && ks[i] == x;
        assert r.items[i] == JString(x);
      }
    }
  }

  /** The outer shape both paths return. */
  function Envelope(name: Json, description: Json, parameters: Json): Json
  {
    JObject(map["name" := name, "description" := description, "parameters" := parameters])
  }

  function DocValue(doc: Option<string>): Json
  {
    match doc
    case Some(text) => JString(text)
    case None => JNull
  }

  // ---------------------------------------------------------------------
  // openai_function.__init__

  predicate HasProperties(model: map<string, Json>)
  {
    "properties" in model && model["properties"].JObject?
  }

  /** The properties left once bookkeeping fields are filtered out. */
  function KeptProperties(model: map<string, Json>): map<string, Json>
    requires HasProperties(model)
  {
    model["properties"].fields - BookkeepingNames
  }

  /** The parameters after `properties` and `required` are overwritten. */
  function FilledParameters(model: map<string, Json>): map<string, Json>
    requires HasProperties(model)
  {
    var kept := KeptProperties(model);
    model["properties" := JObject(kept)]["required" := StringArray(SortedKeys(kept.Keys))]
  }

  /** The schema `openai_function(f).openai_schema` holds, or the exception
      that ends `__init__`: it fails exactly when `properties` is missing
      (`KeyError`) or has no `.items` because it is not a dict (`AttributeError`). */
  function FunctionSchema(f: FunctionDef): (r: Result<Json, Error>)
    ensures r.Ok? <==> HasProperties(f.model)
    ensures "properties" !in f.model ==> r == Err(KeyError("properties"))
    ensures "properties" in f.model && !f.model["properties"].JObject? ==> r == Err(AttributeError("items"))
  {
    if "properties" !in f.model then Err(KeyError("properties"))
    else if !f.model["properties"].JObject? then Err(AttributeError("items"))
    else
      Ok(Envelope(JString(f.name), DocValue(f.doc),
                  Scrubbed(Scrubbed(JObject(FilledParameters(f.model)), "title"), "additionalProperties")))
  }

  /** `openai_function.__init__` step by step: overwrite `properties`, then
      `required`, then scrub the tree twice in place. */
  method DeriveFunctionSchema(f: FunctionDef) returns (r: Result<Json, Error>)
    ensures r == FunctionSchema(f)
  {
    var parameters := f.model;
    if "properties" !in parameters {
      return Err(KeyError("properties"));
    }
    var properties := parameters["properties"];
    if !properties.JObject? {
      return Err(AttributeError("items"));
    }
    var kept := properties.fields - BookkeepingNames;
    parameters := parameters["properties" := JObject(kept)];
    parameters := parameters["required" := StringArray(SortedKeys(kept.Keys))];
    var tree := RemoveAKey(JObject(parameters), "title");
    tree := RemoveAKey(tree, "additionalProperties");
    r := Ok(Envelope(JString(f.name), DocValue(f.doc), tree));
  }

  /** The parameters of a derived function schema. */
  function ParametersOf(s: Json): Json
  {
    if s.JObject? && "parameters" in s.fields then s.fields["parameters"] else JNull
  }

  /** The parameters of a derived schema: the filled-in parameters,
      scrubbed of `title`, then of `additionalProperties`. */
  lemma FunctionSchemaParameters(f: FunctionDef)
    requires HasProperties(f.model)
    ensures ParametersOf(FunctionSchema(f).value) ==
            Scrubbed(Scrubbed(JObject(FilledParameters(f.model)), "title"), "additionalProperties")
  {
  }

  /** The schema holds the function's name, its docstring and the parameters. */
  lemma FunctionSchemaEnvelope(f: FunctionDef)
    requires HasProperties(f.model)
    ensures var s := FunctionSchema(f).value;
      && s.JObject? && s.fields.Keys == {"name", "description", "parameters"}
      && s.fields["name"] == JString(f.name)
      && s.fields["description"] == DocValue(f.doc)
  {
  }

  lemma FilledParameterKeys(model: map<string, Json>)
    requires HasProperties(model)
    ensures FilledParameters(model).Keys == model.Keys + {"required"}
  {
  }

  /** The parameters keep every top-level entry of the generated schema, gain
      `required`, and lose the two scrubbed names. */
  lemma FunctionSchemaParameterKeys(f: FunctionDef)
    requires HasProperties(f.model)
    ensures var p := ParametersOf(FunctionSchema(f).value);
      p.JObject? && p.fields.Keys == (f.model.Keys + {"required"}) - {"title", "additionalProperties"}
  {
    var filled := FilledParameters(f.model);
    var once := Scrubbed(JObject(filled), "title");
    FunctionSchemaParameters(f);
    FilledParameterKeys(f.model);
    ScrubbedShape(JObject(filled), "title");
    ScrubbedShape(once, "additionalProperties");
  }

  /** No `title` or `additionalProperties` is left in any reachable dict. */
  lemma FunctionSchemaScrubbed(f: FunctionDef)
    requires HasProperties(f.model)
    ensures var p := ParametersOf(FunctionSchema(f).value);
      p.JObject? && NoKey(p, "title") && NoKey(p, "additionalProperties")
  {
    var once := Scrubbed(JObject(FilledParameters(f.model)), "title");
    FunctionSchemaParameters(f);
    ScrubbedRemovesKey(JObject(FilledParameters(f.model)), "title");
    ScrubbedRemovesKey(once, "additionalProperties");
    ScrubbedKeepsNoKey(once, "title", "additionalProperties");
  }

  /** The properties left are the input's minus the bookkeeping fields and
      minus the two scrubbed names, each value scrubbed. */
  lemma FunctionSchemaProperties(f: FunctionDef)
    requires HasProperties(f.model)
    ensures var p := ParametersOf(FunctionSchema(f).value);
      var props := f.model["properties"].fields;
      && p.JObject? && "properties" in p.fields && p.fields["properties"].JObject?
      && p.fields["properties"].fields.Keys == props.Keys - BookkeepingNames - {"title", "additionalProperties"}
      && (forall k | k in p.fields["properties"].fields ::
            p.fields["properties"].fields[k] == Scrubbed(Scrubbed(props[k], "title"), "additionalProperties"))
  {
    var filled := FilledParameters(f.model);
    var once := Scrubbed(JObject(filled), "title");
    FunctionSchemaParameters(f);
    ScrubbedEntry(filled, "title", "properties");
    ScrubbedEntry(once.fields, "additionalProperties", "properties");
    var kept := KeptProperties(f.model);
    assert filled["properties"] == JObject(kept);
    var inner := Scrubbed(Scrubbed(JObject(kept), "title"), "additionalProperties");
    assert ParametersOf(FunctionSchema(f).value).fields["properties"] == inner;
    ScrubbedShape(JObject(kept), "title");
    ScrubbedShape(Scrubbed(JObject(kept), "title"), "additionalProperties");
    forall k | k in inner.fields
      ensures inner.fields[k] == Scrubbed(Scrubbed(kept[k], "title"), "additionalProperties")
    {
      ScrubbedEntry(kept, "title", k);
      ScrubbedEntry(Scrubbed(JObject(kept), "title").fields, "additionalProperties", k);
    }
  }

  /** `required` is computed before the scrub: every kept name is listed,
      in strictly ascending order, even one the scrub deletes. */
  lemma FunctionSchemaRequired(f: FunctionDef)
    requires HasProperties(f.model)
    ensures var p := ParametersOf(FunctionSchema(f).value);
      && p.JObject? && "required" in p.fields
      && IsSortedNameList(p.fields["required"], f.model["properties"].fields.Keys - BookkeepingNames)
  {
    var filled := FilledParameters(f.model);
    var once := Scrubbed(JObject(filled), "title");
    FunctionSchemaParameters(f);
    ScrubbedEntry(filled, "title", "required");
    ScrubbedEntry(once.fields, "additionalProperties", "required");
    var kept := KeptProperties(f.model);
    assert kept.Keys == f.model["properties"].fields.Keys - BookkeepingNames;
    SortedKeysListed(kept.Keys);
  }

  /** Every other entry of the generated schema survives, scrubbed. */
  lemma FunctionSchemaOtherEntries(f: FunctionDef, k: string)
    requires HasProperties(f.model)
    requires k in f.model && k !in {"properties", "required", "title", "additionalProperties"}
    ensures var p := ParametersOf(FunctionSchema(f).value);
      && p.JObject? && k in p.fields
      && p.fields[k] == Scrubbed(Scrubbed(f.model[k], "title"), "additionalProperties")
  {
    var filled := FilledParameters(f.model);
    var once := Scrubbed(JObject(filled), "title");
    FunctionSchemaParameters(f);
    ScrubbedEntry(filled, "title", k);
    ScrubbedEntry(once.fields, "additionalProperties", k);
  }

  /** A parameter literally named `title` or `additionalProperties` is
      scrubbed out of `properties`, while `required` still lists it. */
  lemma ScrubbedParameterStaysRequired(f: FunctionDef, name: string)
    requires HasProperties(f.model)
    requires name in f.model["properties"].fields && name in {"title", "additionalProperties"}
    ensures var p := ParametersOf(FunctionSchema(f).value);
      && p.JObject? && "properties" in p.fields && "required" in p.fields
      && p.fields["properties"].JObject? && name !in p.fields["properties"].fields
      && p.fields["required"].JArray? && JString(name) in p.fields["required"].items
  {
    FunctionSchemaProperties(f);
    FunctionSchemaRequired(f);
  }

  // ---------------------------------------------------------------------
  // OpenAISchema.openai_schema

  /** The generated schema without its top-level `title` and `description`,
      with `required` set to the sorted property names. */
  function ModelParameters(schema: map<string, Json>): map<string, Json>
    requires HasProperties(schema)
  {
    var parameters := schema - {"title", "description"};
    parameters["required" := StringArray(SortedKeys(schema["properties"].fields.Keys))]
  }

  /** `OpenAISchema.openai_schema` of a class whose generated schema is
      `schema`. In the order the source evaluates them: `properties` must be
      there and be a dict, then `title`, then `description`. */
  function ModelSchema(schema: map<string, Json>): (r: Result<Json, Error>)
    ensures r.Ok? <==> HasProperties(schema) && "title" in schema && "description" in schema
    ensures "properties" !in schema ==> r == Err(KeyError("properties"))
    ensures HasProperties(schema) && "title" !in schema ==> r == Err(KeyError("title"))
    ensures HasProperties(schema) && "title" in schema && "description" !in schema ==> r == Err(KeyError("description"))
  {
    if "properties" !in schema then Err(KeyError("properties"))
    else if !schema["properties"].JObject? then Err(TypeError("properties is not a dict"))
    else if "title" !in schema then Err(KeyError("title"))
    else if "description" !in schema then Err(KeyError("description"))
    else Ok(Envelope(schema["title"], schema["description"], Scrubbed(JObject(ModelParameters(schema)), "title")))
  }

  /** The name is the schema's `title`, the description its `description`. */
  lemma ModelSchemaEnvelope(schema: map<string, Json>)
    requires ModelSchema(schema).Ok?
    ensures var s := ModelSchema(schema).value;
      && s.JObject? && s.fields.Keys == {"name", "description", "parameters"}
      && s.fields["name"] == schema["title"]
      && s.fields["description"] == schema["description"]
  {
  }

  /** The parameters are the schema's entries without `title` and
      `description`, with `required` added. */
  lemma ModelSchemaParameterKeys(schema: map<string, Json>)
    requires ModelSchema(schema).Ok?
    ensures var p := ParametersOf(ModelSchema(schema).value);
      p.JObject? && p.fields.Keys == (schema.Keys + {"required"}) - {"title", "description"}
  {
    ScrubbedShape(JObject(ModelParameters(schema)), "title");
    assert ModelParameters(schema).Keys == (schema.Keys - {"title", "description"}) + {"required"};
  }

  /** The parameters keep no `description` at the top and no `title` anywhere. */
  lemma ModelSchemaScrubbed(schema: map<string, Json>)
    requires ModelSchema(schema).Ok?
    ensures var p := ParametersOf(ModelSchema(schema).value);
      p.JObject? && "description" !in p.fields && NoKey(p, "title")
  {
    ScrubbedRemovesKey(JObject(ModelParameters(schema)), "title");
  }

  /** Every property stays, title-scrubbed, except one named `title`. */
  lemma ModelSchemaProperties(schema: map<string, Json>)
    requires ModelSchema(schema).Ok?
    ensures var p := ParametersOf(ModelSchema(schema).value);
      var props := schema["properties"].fields;
      && p.JObject? && "properties" in p.fields && p.fields["properties"].JObject?
      && p.fields["properties"].fields.Keys == props.Keys - {"title"}
      && (forall k | k in p.fields["properties"].fields ::
            p.fields["properties"].fields[k] == Scrubbed(props[k], "title"))
  {
    ScrubbedEntry(ModelParameters(schema), "title", "properties");
  }

  /** `required` lists every property name of the generated schema, ascending. */
  lemma ModelSchemaRequired(schema: map<string, Json>)
    requires ModelSchema(schema).Ok?
    ensures var p := ParametersOf(ModelSchema(schema).value);
      && p.JObject? && "required" in p.fields
      && IsSortedNameList(p.fields["required"], schema["properties"].fields.Keys)
  {
    ScrubbedEntry(ModelParameters(schema), "title", "required");
    SortedKeysListed(schema["properties"].fields.Keys);
  }

  /** Nothing else is dropped: `additionalProperties` in particular stays. */
  lemma ModelSchemaOtherEntries(schema: map<string, Json>, k: string)
    requires ModelSchema(schema).Ok?
    requires k in schema && k !in {"properties", "required", "title", "description"}
    ensures var p := ParametersOf(ModelSchema(schema).value);
      && p.JObject? && k in p.fields && p.fields[k] == Scrubbed(schema[k], "title")
  {
    ScrubbedEntry(ModelParameters(schema), "title", k);
  }

  // ---------------------------------------------------------------------
  // from_response

  datatype FunctionCall = FunctionCall(name: string, arguments: string)

  /** A choice's message; `functionCall` is `None` when the message has no
      `function_call` entry. */
  datatype Message = Message(functionCall: Option<FunctionCall>)

  datatype Completion = Completion(choices: seq<Message>)

  /** The shared body of both `from_response` methods: the keyword arguments
      handed to the validating callable or class. `expectedName` is the
      outcome of looking up the schema's name, used only by the strict check;
      `parse` stands for `json.loads`. */
  function CallArguments(completion: Completion, expectedName: Result<Json, Error>,
                         strict: bool, parse: string -> Option<Json>): (r: Result<map<string, Json>, Error>)
    ensures |completion.choices| == 0 ==> r == Err(IndexError)
    ensures r.Err? && r.error.AssertionError? ==> strict
    ensures r.Ok? ==> && |completion.choices| > 0 && completion.choices[0].functionCall.Some?
                      && parse(completion.choices[0].functionCall.value.arguments) == Some(JObject(r.value))
  {
    if |completion.choices| == 0 then Err(IndexError)
    else
      var message := completion.choices[0];
      if strict && message.functionCall.None? then Err(AssertionError(NoCallMessage))
      else if strict && expectedName.Err? then Err(expectedName.error)
      else if strict && JString(message.functionCall.value.name) != expectedName.value then
        Err(AssertionError(NameMismatchMessage))
      else if message.functionCall.None? then Err(KeyError("function_call"))
      else match parse(message.functionCall.value.arguments)
        case None => Err(JsonDecodeError)
        case Some(JObject(arguments)) => Ok(arguments)
        case Some(_) => Err(TypeError("arguments are not a mapping"))
  }

  /** `openai_function.from_response`: the name checked is the one in the
      function's schema. Strict checking is on unless turned off. */
  function FunctionCallArguments(f: FunctionDef, completion: Completion,
                                 parse: string -> Option<Json>, strict: bool := true): (r: Result<map<string, Json>, Error>)
    ensures FunctionSchema(f).Ok? ==>
      r == CallArguments(completion, Ok(FunctionSchema(f).value.fields["name"]), strict, parse)
  {
    CallArguments(completion, Ok(JString(f.name)), strict, parse)
  }

  /** The name `openai_schema["name"]` yields, or the exception computing it raises. */
  function SchemaName(schema: map<string, Json>): (r: Result<Json, Error>)
    ensures r.Ok? <==> ModelSchema(schema).Ok?
    ensures r.Ok? ==> r.value == schema["title"]
    ensures r.Err? ==> r == Err(ModelSchema(schema).error)
  {
    match ModelSchema(schema)
    case Ok(s) => Ok(s.fields["name"])
    case Err(e) => Err(e)
  }

  /** `OpenAISchema.from_response`: the name checked is the class schema's,
      whose computation can itself fail. Strict checking is on unless turned off. */
  function ClassCallArguments(schema: map<string, Json>, completion: Completion,
                              parse: string -> Option<Json>, strict: bool := true): (r: Result<map<string, Json>, Error>)
    ensures ModelSchema(schema).Ok? ==> r == CallArguments(completion, Ok(schema["title"]), strict, parse)
    ensures strict && |completion.choices| > 0 && completion.choices[0].functionCall.Some? && ModelSchema(schema).Err? ==>
      r == Err(ModelSchema(schema).error)
  {
    CallArguments(completion, SchemaName(schema), strict, parse)
  }

  /** The name `openai_function.from_response` checks is the one in its schema. */
  lemma FunctionNameIsSchemaName(f: FunctionDef)
    requires FunctionSchema(f).Ok?
    ensures FunctionSchema(f).value.fields["name"] == JString(f.name)
  {
    FunctionSchemaEnvelope(f);
  }

  lemma StrictRejectsMissingCall(completion: Completion, expectedName: Result<Json, Error>,
                                 parse: string -> Option<Json>)
    requires |completion.choices| > 0 && completion.choices[0].functionCall.None?
    ensures CallArguments(completion, expectedName, true, parse) == Err(AssertionError(NoCallMessage))
    ensures CallArguments(completion, expectedName, false, parse) == Err(KeyError("function_call"))
  {
  }

  lemma StrictRejectsOtherName(completion: Completion, expected: Json, parse: string -> Option<Json>)
    requires |completion.choices| > 0 && completion.choices[0].functionCall.Some?
    requires JString(completion.choices[0].functionCall.value.name) != expected
    ensures CallArguments(completion, Ok(expected), true, parse) == Err(AssertionError(NameMismatchMessage))
  {
  }

  /** Without strict checking the name is never looked at and no assertion fails. */
  lemma LaxIgnoresName(completion: Completion, e1: Result<Json, Error>, e2: Result<Json, Error>,
                       parse: string -> Option<Json>)
    ensures CallArguments(completion, e1, false, parse) == CallArguments(completion, e2, false, parse)
    ensures !CallArguments(completion, e1, false, parse).Err?
            || !CallArguments(completion, e1, false, parse).error.AssertionError?
  {
  }

  /** Strict checking of a model class computes its whole schema first: a
      class whose generated schema lacks `title` or `description` fails with
      that `KeyError` even when the call's name is right. */
  lemma ClassStrictNeedsSchema(schema: map<string, Json>, completion: Completion,
                               parse: string -> Option<Json>)
    requires |completion.choices| > 0 && completion.choices[0].functionCall.Some?
    requires HasProperties(schema) && "title" in schema && "description" !in schema
    ensures ClassCallArguments(schema, completion, parse) == Err(KeyError("description"))
  {
  }

  /** When a call is present under the expected name, strict and lax agree. */
  lemma StrictAgreesOnMatch(completion: Completion, parse: string -> Option<Json>)
    requires |completion.choices| > 0 && completion.choices[0].functionCall.Some?
    ensures var name := JString(completion.choices[0].functionCall.value.name);
            CallArguments(completion, Ok(name), true, parse) == CallArguments(completion, Ok(name), false, parse)
  {
  }

  /** Success exactly when the first choice carries a call (under the right
      name, if strict) whose arguments parse to an object; the result is that
      object's entries, unchanged. */
  lemma CallArgumentsSucceed(completion: Completion, expectedName: Result<Json, Error>,
                             strict: bool, parse: string -> Option<Json>)
    ensures var r := CallArguments(completion, expectedName, strict, parse);
      r.Ok? <==>
        && |completion.choices| > 0
        && completion.choices[0].functionCall.Some?
        && (strict ==> expectedName == Ok(JString(completion.choices[0].functionCall.value.name)))
        && parse(completion.choices[0].functionCall.value.arguments).Some?
        && parse(completion.choices[0].functionCall.value.arguments).value.JObject?
    ensures var r := CallArguments(completion, expectedName, strict, parse);
      r.Ok? ==> JObject(r.value) == parse(completion.choices[0].functionCall.value.arguments).value
  {
  }

  // ---------------------------------------------------------------------
  // MultiTask

  /** A field of a generated model class: its name, the class its list holds,
      its default, whether it shows in `repr`, and its description. */
  datatype FieldDef = FieldDef(name: string, itemClass: string, defaultValue: Json,
                               inRepr: bool, description: string)

  /** A schema class created at run time: its name, `__doc__` and fields. */
  datatype SchemaClass = SchemaClass(name: string, doc: Option<string>, fields: seq<FieldDef>)

  function TaskName(subtaskClass: string, name: Option<string>): string
  {
    match name
    case Some(n) => n
    case None => subtaskClass
  }

  /** `MultiTask(subtask_class, name, description)`; `subtaskClass` is the
      class's `__name__`. */
  function MultiTask(subtaskClass: string, name: Option<string> := None,
                     description: Option<string> := None): (r: SchemaClass)
    ensures |r.name| >= 5 && r.name[..5] == "Multi" && r.name[5..] == TaskName(subtaskClass, name)
    ensures |r.fields| == 1 && r.fields[0].itemClass == subtaskClass
  {
    var task := TaskName(subtaskClass, name);
    SchemaClass(
      "Multi" + task,
      Some(match description
           case Some(d) => d
           case None => "Correct segmentation of `" + task + "` tasks"),
      [FieldDef("tasks", subtaskClass, JArray([]), false, "Correctly segmented list of `" + task + "` tasks")])
  }

  /** The class's name is `Multi` followed by the task name, and nothing
      else; its one field `tasks` holds the subtask class and defaults to
      an empty list. */
  lemma MultiTaskShape(subtaskClass: string, name: Option<string>, description: Option<string>)
    ensures var c := MultiTask(subtaskClass, name, description);
      && |c.name| >= 5 && c.name[..5] == "Multi"
      && c.name[5..] == (if name.Some? then name.value else subtaskClass)
      && (description.Some? ==> c.doc == description)
      && (description.None? ==> c.doc == Some("Correct segmentation of `" + c.name[5..] + "` tasks"))
      && |c.fields| == 1
      && c.fields[0].name == "tasks"
      && c.fields[0].itemClass == subtaskClass
      && c.fields[0].defaultValue == JArray([])
      && !c.fields[0].inRepr
      && c.fields[0].description == "Correctly segmented list of `" + c.name[5..] + "` tasks"
  {
  }

  /** Two calls name their classes alike only when their task names agree. */
  lemma MultiTaskNameInjective(a: string, n: Option<string>, b: string, m: Option<string>,
                               d1: Option<string>, d2: Option<string>)
    ensures MultiTask(a, n, d1).name == MultiTask(b, m, d2).name <==> TaskName(a, n) == TaskName(b, m)
  {
    var x := MultiTask(a, n, d1).name;
    var y := MultiTask(b, m, d2).name;
    if x == y {
      assert x[5..] == TaskName(a, n) && y[5..] == TaskName(b, m);
    }
  }

  /** A completion calling the wrapper by its own name passes the strict
      check, given the generated schema carries that name as its title. */
  lemma MultiTaskCallAccepted(subtaskClass: string, name: Option<string>, description: Option<string>,
                              schema: map<string, Json>, completion: Completion,
                              parse: string -> Option<Json>)
    requires "properties" in schema && schema["properties"].JObject? && "description" in schema
    requires "title" in schema && schema["title"] == JString(MultiTask(subtaskClass, name, description).name)
    requires |completion.choices| > 0 && completion.choices[0].functionCall.Some?
    requires completion.choices[0].functionCall.value.name == MultiTask(subtaskClass, name, description).name
    ensures ClassCallArguments(schema, completion, parse) == ClassCallArguments(schema, completion, parse, false)
  {
    ModelSchemaEnvelope(schema);
  }
}
