/** spec.py and openapi3.py: the table of operations read from a Swagger 2.0 document, and the one
    read from its conversion. */
module OperationTables {
  import opened Vda5050
  import opened Json
  import opened OpenApi

  type Fields = seq<Field>

  /** What the emulator keeps of an operation. */
  datatype Operation = Operation(params: seq<Fields>, bodySchema: Option<Json>, bodyRequired: bool,
                                 responses: map<nat, Option<Json>>)

  type Table = map<(string, string), Operation>

  // ---------------------------------------------------------- dictionaries

  function Init<T>(s: seq<T>): seq<T>
    requires s != []
  {
    s[..|s| - 1]
  }

  function Last<T>(s: seq<T>): T
    requires s != []
  {
    s[|s| - 1]
  }

  function FieldsOf(j: Json): Fields { if j.Obj? then j.fields else [] }

  function Entries(j: Option<Json>): Fields { match j case Some(value) => FieldsOf(value) case None => [] }

  function Elements(j: Option<Json>): seq<Json> { match j case Some(Arr(items)) => items case _ => [] }

  function GetOr(fields: Fields, key: string, default: Json): Json {
    match Get(fields, key) case Some(value) => value case None => default
  }

  /** `d[key] = value`. */
  function Put(fields: Fields, key: string, value: Json): Fields {
    if fields == [] then [Field(key, value)]
    else if fields[0].key == key then [Field(key, value)] + fields[1..]
    else [fields[0]] + Put(fields[1..], key, value)
  }

  function Without(fields: Fields, keys: seq<string>): Fields {
    if fields == [] then []
    else if fields[0].key in keys then Without(fields[1..], keys)
    else [fields[0]] + Without(fields[1..], keys)
  }

  /** `{k: d[k] for k in keys if k in d}`. */
  function Pick(fields: Fields, keys: seq<string>): Fields {
    if keys == [] then []
    else match Get(fields, keys[0])
      case Some(value) => [Field(keys[0], value)] + Pick(fields, keys[1..])
      case None => Pick(fields, keys[1..])
  }

  lemma {:induction false} GetPut(fields: Fields, key: string, value: Json, k: string)
    ensures Get(Put(fields, key, value), k) == if k == key then Some(value) else Get(fields, k)
  {
    if fields != [] && fields[0].key != key { GetPut(fields[1..], key, value, k); }
  }

  lemma {:induction false} GetWithout(fields: Fields, keys: seq<string>, k: string)
    ensures Get(Without(fields, keys), k) == if k in keys then None else Get(fields, k)
  {
    if fields != [] { GetWithout(fields[1..], keys, k); }
  }

  lemma {:induction false} GetPick(fields: Fields, keys: seq<string>, k: string)
    ensures Get(Pick(fields, keys), k) == if k in keys then Get(fields, k) else None
  {
    if keys != [] {
      GetPick(fields, keys[1..], k);
      assert k in keys <==> k == keys[0] || k in keys[1..];
    }
  }

  lemma {:induction false} GetJoined(a: Fields, b: Fields, k: string)
    ensures Get(a + b, k) == if Get(a, k).Some? then Get(a, k) else Get(b, k)
  {
    if a == [] {
      assert a + b == b;
    } else {
      GetJoined(a[1..], b, k);
      assert (a + b)[1..] == a[1..] + b;
    }
  }

  lemma {:induction false} GetAt(fields: Fields, i: nat)
    requires i < |fields| && forall j | 0 <= j < i :: fields[j].key != fields[i].key
    ensures Get(fields, fields[i].key) == Some(fields[i].value)
  {
    if i > 0 {
      assert fields[0].key != fields[i].key;
      GetAt(fields[1..], i - 1);
    }
  }

  /** `success_status`: the lowest status code of the 2xx range. */
  function SuccessStatus(op: Operation): nat { Lowest(op.responses.Keys, 200) }

  function Lowest(codes: set<nat>, from: nat): nat
    decreases 300 - from
  {
    if from >= 300 then 200 else if from in codes then from else Lowest(codes, from + 1)
  }

  /** `path_param_types`. */
  function PathParamTypes(params: seq<Fields>): map<Json, Json> {
    if params == [] then map[]
    else
      var earlier, last := PathParamTypes(Init(params)), Last(params);
      if At(last, "path") then earlier[GetOr(last, "name", Null) := GetOr(last, "type", Str("string"))] else earlier
  }

  // ---------------------------------------------------- Swagger 2.0 loader

  predicate At(p: Fields, place: string) { Get(p, "in") == Some(Str(place)) }

  predicate Kept(p: Fields) { At(p, "path") || At(p, "query") }

  function KeptParams(items: seq<Json>): seq<Fields> {
    if items == [] then []
    else if Kept(FieldsOf(Last(items))) then KeptParams(Init(items)) + [FieldsOf(Last(items))]
    else KeptParams(Init(items))
  }

  function FirstBody(items: seq<Json>): Option<Fields> {
    if items == [] then None
    else if FirstBody(Init(items)).Some? then FirstBody(Init(items))
    else if At(FieldsOf(Last(items)), "body") then Some(FieldsOf(Last(items)))
    else None
  }

  /** `isdigit`. */
  predicate Digits(code: string) { code != "" && forall c | c in code :: '0' <= c <= '9' }

  function Decimal(code: string): nat {
    if code == "" then 0
    else 10 * Decimal(Init(code)) + if '0' <= Last(code) <= '9' then Last(code) as nat - '0' as nat else 0
  }

  function SwaggerResponses(responses: Fields): map<nat, Option<Json>> {
    if responses == [] then map[]
    else
      var earlier, last := SwaggerResponses(Init(responses)), Last(responses);
      if Digits(last.key) then earlier[Decimal(last.key) := Get(FieldsOf(last.value), "schema")] else earlier
  }

  function SwaggerOperation(shared: seq<Json>, op: Fields): Operation {
    var params := shared + Elements(Get(op, "parameters"));
    var body := FirstBody(params);
    Operation(KeptParams(params),
              if body.Some? then Get(body.value, "schema") else None,
              body.Some? && !Falsy(GetOr(body.value, "required", Bool(false))),
              SwaggerResponses(Entries(Get(op, "responses"))))
  }

  function Upper(s: string): string {
    seq(|s|, i requires 0 <= i < |s| => if 'a' <= s[i] <= 'z' then s[i] - 'a' + 'A' else s[i])
  }

  predicate SwaggerEntry(f: Field) { f.key != "parameters" && f.value.Obj? }

  function SwaggerItem(path: string, shared: seq<Json>, item: Fields): Table {
    if item == [] then map[]
    else
      var earlier, last := SwaggerItem(path, shared, Init(item)), Last(item);
      if SwaggerEntry(last) then earlier[(Upper(last.key), path) := SwaggerOperation(shared, last.value.fields)]
      else earlier
  }

  /** `_swagger2_operations`. */
  function SwaggerTable(paths: Fields): Table {
    if paths == [] then map[]
    else
      var item := FieldsOf(Last(paths).value);
      SwaggerTable(Init(paths)) + SwaggerItem(Last(paths).key, Elements(Get(item, "parameters")), item)
  }

  // ------------------------------------------------------ OpenAPI 3 loader

  /** A parameter in the older form. */
  function Flattened(p: Fields): Fields {
    Put(Without(p, ["schema"]), "type", GetOr(Entries(Get(p, "schema")), "type", Str("string")))
  }

  function FlattenedParams(items: seq<Json>): seq<Fields> {
    if items == [] then []
    else if Kept(FieldsOf(Last(items))) then FlattenedParams(Init(items)) + [Flattened(FieldsOf(Last(items)))]
    else FlattenedParams(Init(items))
  }

  /** The first media type that is JSON. */
  function FirstJson(content: Fields): Option<Json> {
    if content == [] then None
    else if Occurs("json", content[0].key) then Some(content[0].value)
    else FirstJson(content[1..])
  }

  /** The schema of the last one. */
  function LastJsonSchema(content: Fields): Option<Json> {
    if content == [] then None
    else if Occurs("json", Last(content).key) then Get(FieldsOf(Last(content).value), "schema")
    else LastJsonSchema(Init(content))
  }

  function OpenApiResponses(responses: Fields): map<nat, Option<Json>> {
    if responses == [] then map[]
    else
      var earlier, last := OpenApiResponses(Init(responses)), Last(responses);
      if Digits(last.key)
      then earlier[Decimal(last.key) := LastJsonSchema(Entries(Get(FieldsOf(last.value), "content")))]
      else earlier
  }

  function OpenApiOperation(shared: seq<Json>, op: Fields): Operation {
    var request := Entries(Get(op, "requestBody"));
    var media := FirstJson(Entries(Get(request, "content")));
    Operation(FlattenedParams(shared + Elements(Get(op, "parameters"))),
              if media.Some? then Get(FieldsOf(media.value), "schema") else None,
              media.Some? && !Falsy(GetOr(request, "required", Bool(false))),
              OpenApiResponses(Entries(Get(op, "responses"))))
  }

  predicate OpenApiEntry(f: Field) { f.key != "parameters" && f.key != "servers" && f.value.Obj? }

  function OpenApiItem(path: string, shared: seq<Json>, item: Fields): Table {
    if item == [] then map[]
    else
      var earlier, last := OpenApiItem(path, shared, Init(item)), Last(item);
      if OpenApiEntry(last) then earlier[(Upper(last.key), path) := OpenApiOperation(shared, last.value.fields)]
      else earlier
  }

  /** `_openapi3_operations`. */
  function OpenApiTable(paths: Fields): Table {
    if paths == [] then map[]
    else
      var item := FieldsOf(Last(paths).value);
      OpenApiTable(Init(paths)) + OpenApiItem(Last(paths).key, Elements(Get(item, "parameters")), item)
  }

  // ------------------------------------------------------------ conversion

  const SCHEMA_KEYS := ["type", "format", "enum", "items", "minimum", "maximum", "default"]

  /** `_convert_parameter`. */
  function ConvertedParameter(p: Fields): Fields {
    var schema := Pick(p, SCHEMA_KEYS);
    Without(p, SCHEMA_KEYS + ["schema"])
    + [Field("schema", Obj(if schema == [] then [Field("type", Str("string"))] else schema))]
  }

  function ConvertedParameters(items: seq<Json>): seq<Json> {
    if items == [] then []
    else if At(FieldsOf(Last(items)), "body") then ConvertedParameters(Init(items))
    else ConvertedParameters(Init(items)) + [Obj(ConvertedParameter(FieldsOf(Last(items))))]
  }

  /** The schema a converted body carries. */
  function RequestSchema(p: Fields): Json {
    var schema := GetOr(p, "schema", Null);
    if Falsy(schema) then Obj([Field("type", Str("object"))]) else schema
  }

  function RequestBody(p: Fields): Fields {
    var request := [
      Field("required", Bool(!Falsy(GetOr(p, "required", Bool(false))))),
      Field("content", Obj([Field("application/json", Obj([
        Field("schema", RequestSchema(p))]))]))];
    if Falsy(GetOr(p, "description", Null)) then request
    else request + [Field("description", GetOr(p, "description", Null))]
  }

  function LastBody(items: seq<Json>): Option<Fields> {
    if items == [] then None
    else if At(FieldsOf(Last(items)), "body") then Some(FieldsOf(Last(items)))
    else LastBody(Init(items))
  }

  function ConvertedResponse(response: Fields, mediaType: string): Fields {
    var schema := GetOr(response, "schema", Null);
    var description := Field("description", GetOr(response, "description", Str("")));
    if Falsy(schema) then [description]
    else [description, Field("content", Obj([Field(mediaType, Obj([Field("schema", schema)]))]))]
  }

  function ConvertedResponses(responses: Fields, mediaType: string): Fields {
    if responses == [] then []
    else ConvertedResponses(Init(responses), mediaType)
         + [Field(Last(responses).key, Obj(ConvertedResponse(FieldsOf(Last(responses).value), mediaType)))]
  }

  const JSON_TYPE := [Str("application/json")]

  /** `d.get("produces") or default`. */
  function Produces(fields: Fields, default: seq<Json>): seq<Json> {
    var own := Elements(Get(fields, "produces"));
    if own == [] then default else own
  }

  function MediaType(produces: seq<Json>): string {
    if produces != [] && produces[0].Str? then produces[0].text else "application/json"
  }

  const DROPPED := ["parameters", "responses", "produces", "consumes"]

  function WithParameters(op: Fields): Fields {
    var params := ConvertedParameters(Elements(Get(op, "parameters")));
    if params == [] then Without(op, DROPPED) else Put(Without(op, DROPPED), "parameters", Arr(params))
  }

  function WithBody(op: Fields): Fields {
    match LastBody(Elements(Get(op, "parameters")))
    case Some(p) => Put(WithParameters(op), "requestBody", Obj(RequestBody(p)))
    case None => WithParameters(op)
  }

  /** `_convert_operation`. */
  function ConvertedOperation(op: Fields, produces: seq<Json>): Fields {
    Put(WithBody(op), "responses",
        Obj(ConvertedResponses(Entries(Get(op, "responses")), MediaType(Produces(op, produces)))))
  }

  function ConvertedEntry(entry: Field, produces: seq<Json>): Field {
    if entry.key == "parameters" || entry.key == "$ref" then entry
    else Field(entry.key, Obj(ConvertedOperation(FieldsOf(entry.value), produces)))
  }

  function ConvertedItem(item: Fields, produces: seq<Json>): Fields {
    if item == [] then [] else ConvertedItem(Init(item), produces) + [ConvertedEntry(Last(item), produces)]
  }

  function ConvertedPaths(paths: Fields, produces: seq<Json>): Fields {
    if paths == [] then []
    else ConvertedPaths(Init(paths), produces)
         + [Field(Last(paths).key, Obj(ConvertedItem(FieldsOf(Last(paths).value), produces)))]
  }

  const WARNINGS := "x-mir-converter-warnings"

  /** The converted document around its paths. */
  function OpenApiDocument(swagger: Fields, paths: Fields): Fields {
    var server := Obj([Field("url", GetOr(swagger, "basePath", Str("/api/v2.0.0")))]);
    var out := [Field("openapi", Str("3.0.3")),
                Field("info", GetOr(swagger, "info", Empty)),
                Field("servers", Arr([server])),
                Field("paths", Rewrite(Obj(paths))),
                Field("components", Components(Obj(swagger)))];
    match Get(swagger, WARNINGS) case Some(w) => out + [Field(WARNINGS, w)] case None => out
  }

  /** `to_openapi3`; `None` where it raises. */
  function ToOpenApi3(swagger: Fields): Option<Fields> {
    if Get(swagger, "swagger") != Some(Str("2.0")) then None
    else Some(OpenApiDocument(swagger, ConvertedPaths(Entries(Get(swagger, "paths")), Produces(swagger, JSON_TYPE))))
  }

  // ------------------------------------------------------------- agreement

  /** What the emulator asks of a parameter: its name, its place and its type. */
  predicate SameParam(a: Fields, b: Fields) {
    && Get(a, "name") == Get(b, "name") && Get(a, "in") == Get(b, "in")
    && GetOr(a, "type", Str("string")) == GetOr(b, "type", Str("string"))
  }

  predicate SameParams(a: seq<Fields>, b: seq<Fields>) {
    |a| == |b| && forall i | 0 <= i < |a| :: SameParam(a[i], b[i])
  }

  /** Dereferenced, one schema is the rewriting of the other. */
  ghost predicate SameSchema(swagger: Json, converted: Json, a: Option<Json>, b: Option<Json>) {
    forall depth: nat :: Deref(converted, OrNull(b), depth) == Rewritten(Deref(swagger, OrNull(a), depth))
  }

  function OrNull(j: Option<Json>): Json { match j case Some(value) => value case None => Null }

  ghost predicate SameResponses(swagger: Json, converted: Json,
                                a: map<nat, Option<Json>>, b: map<nat, Option<Json>>) {
    a.Keys == b.Keys && forall code | code in a :: SameSchema(swagger, converted, a[code], b[code])
  }

  ghost predicate SameOperation(swagger: Json, converted: Json, a: Operation, b: Operation) {
    && SameParams(a.params, b.params)
    && a.bodyRequired == b.bodyRequired && a.bodySchema.Some? == b.bodySchema.Some?
    && SameSchema(swagger, converted, a.bodySchema, b.bodySchema)
    && SameResponses(swagger, converted, a.responses, b.responses)
  }

  ghost predicate SameTable(swagger: Json, converted: Json, a: Table, b: Table) {
    a.Keys == b.Keys && forall key | key in a :: SameOperation(swagger, converted, a[key], b[key])
  }

  // The documents the conversion is for.

  predicate ShapedParam(j: Json) {
    && j.Obj?
    && (Get(j.fields, "name").Some? ==> Get(j.fields, "name").value.Str?)
    && (Get(j.fields, "in").Some? ==> Get(j.fields, "in").value.Str?)
    && (Get(j.fields, "type").Some? ==> Get(j.fields, "type").value.Str?)
    && (At(j.fields, "body") ==> !Falsy(GetOr(j.fields, "schema", Null)))
  }

  predicate OneBody(items: seq<Json>) {
    forall i, j | 0 <= i < j < |items| :: !(At(FieldsOf(items[i]), "body") && At(FieldsOf(items[j]), "body"))
  }

  predicate ShapedOperation(op: Fields, produces: seq<Json>) {
    var items := Elements(Get(op, "parameters"));
    && Get(op, "requestBody") == None
    && (forall i | 0 <= i < |items| :: ShapedParam(items[i]))
    && OneBody(items)
    && Occurs("json", MediaType(Produces(op, produces)))
  }

  predicate ShapedEntry(f: Field, produces: seq<Json>) {
    && f.key != "parameters" && f.key != "servers"
    && (if f.key == "$ref" then f.value.Str? else f.value.Obj? && ShapedOperation(f.value.fields, produces))
  }

  /** Operations that answer JSON first, without parameters on the path. */
  predicate ShapedPaths(paths: Fields, produces: seq<Json>) {
    forall i | 0 <= i < |paths| ::
      paths[i].value.Obj? && forall j | 0 <= j < |paths[i].value.fields| ::
        ShapedEntry(paths[i].value.fields[j], produces)
  }

  predicate Local(fields: Fields) { forall i | 0 <= i < |fields| :: LocalRef(fields[i]) }

  // ----------------------------------------------------------- parameters

  lemma {:induction false} RewriteJoined(a: Fields, b: Fields)
    ensures RewriteFields(a + b) == RewriteFields(a) + RewriteFields(b)
  {
    if a == [] {
      assert a + b == b;
    } else {
      RewriteJoined(a[1..], b);
      assert (a + b)[0] == a[0] && (a + b)[1..] == a[1..] + b;
      assert RewriteFields(a + b) == [RewriteField(a[0])] + (RewriteFields(a[1..]) + RewriteFields(b));
      assert RewriteFields(a) == [RewriteField(a[0])] + RewriteFields(a[1..]);
    }
  }

  lemma {:induction false} RewriteItemsJoined(a: seq<Json>, b: seq<Json>)
    ensures RewriteItems(a + b) == RewriteItems(a) + RewriteItems(b)
  {
    if a == [] {
      assert a + b == b;
    } else {
      RewriteItemsJoined(a[1..], b);
      assert (a + b)[0] == a[0] && (a + b)[1..] == a[1..] + b;
      assert RewriteItems(a + b) == [Rewrite(a[0])] + (RewriteItems(a[1..]) + RewriteItems(b));
      assert RewriteItems(a) == [Rewrite(a[0])] + RewriteItems(a[1..]);
    }
  }

  lemma ConvertedParameterKeys(p: Fields, k: string)
    requires k != "$ref"
    ensures Get(RewriteFields(ConvertedParameter(p)), k)
         == if k == "schema" then
              var schema := Pick(p, SCHEMA_KEYS);
              Some(Obj(RewriteFields(if schema == [] then [Field("type", Str("string"))] else schema)))
            else if k in SCHEMA_KEYS then None
            else Rewritten(Get(p, k))
  {
    var keys := SCHEMA_KEYS + ["schema"];
    var schema := ConvertedParameter(p)[|Without(p, keys)|..];
    GetRewritten(ConvertedParameter(p), k);
    GetJoined(Without(p, keys), schema, k);
    GetWithout(p, keys, k);
    assert k in keys <==> k in SCHEMA_KEYS || k == "schema";
  }

  lemma FlattenedKeys(p: Fields, k: string)
    ensures Get(Flattened(p), k)
         == if k == "type" then Some(GetOr(Entries(Get(p, "schema")), "type", Str("string")))
            else if k == "schema" then None
            else Get(p, k)
  {
    GetPut(Without(p, ["schema"]), "type", GetOr(Entries(Get(p, "schema")), "type", Str("string")), k);
    GetWithout(p, ["schema"], k);
  }

  lemma ParameterPlace(p: Fields, place: string)
    requires ShapedParam(Obj(p))
    ensures At(RewriteFields(ConvertedParameter(p)), place) == At(p, place)
  {
    ConvertedParameterKeys(p, "in");
  }

  lemma ParameterAgrees(p: Fields)
    requires ShapedParam(Obj(p))
    ensures SameParam(p, Flattened(RewriteFields(ConvertedParameter(p))))
  {
    var converted := RewriteFields(ConvertedParameter(p));
    ConvertedParameterKeys(p, "name");
    ConvertedParameterKeys(p, "in");
    ConvertedParameterKeys(p, "schema");
    FlattenedKeys(converted, "name");
    FlattenedKeys(converted, "in");
    FlattenedKeys(converted, "type");
    var picked := Pick(p, SCHEMA_KEYS);
    GetPick(p, SCHEMA_KEYS, "type");
    GetRewritten(if picked == [] then [Field("type", Str("string"))] else picked, "type");
  }

  /** What one more converted parameter adds for the other loader. */
  lemma NextParameter(earlier: seq<Json>, p: Fields)
    requires ShapedParam(Obj(p))
    ensures FlattenedParams(RewriteItems(earlier + [Obj(ConvertedParameter(p))]))
         == if Kept(p) then FlattenedParams(RewriteItems(earlier)) + [Flattened(RewriteFields(ConvertedParameter(p)))]
            else FlattenedParams(RewriteItems(earlier))
  {
    var converted := Obj(ConvertedParameter(p));
    RewriteItemsJoined(earlier, [converted]);
    assert RewriteItems([converted]) == [Rewrite(converted)];
    assert Init(RewriteItems(earlier) + [Rewrite(converted)]) == RewriteItems(earlier);
    ParameterPlace(p, "path");
    ParameterPlace(p, "query");
  }

  lemma SameParamsExtended(a: seq<Fields>, b: seq<Fields>, p: Fields, q: Fields)
    requires SameParams(a, b) && SameParam(p, q)
    ensures SameParams(a + [p], b + [q])
  {
  }

  lemma {:induction false} ParametersAgree(items: seq<Json>)
    requires forall i | 0 <= i < |items| :: ShapedParam(items[i])
    ensures SameParams(KeptParams(items), FlattenedParams(RewriteItems(ConvertedParameters(items))))
    decreases |items|
  {
    if items != [] {
      var last := FieldsOf(Last(items));
      assert Last(items) == items[|items| - 1] && ShapedParam(items[|items| - 1]);
      ParametersAgree(Init(items));
      if !At(last, "body") {
        NextParameter(ConvertedParameters(Init(items)), last);
        if Kept(last) {
          ParameterAgrees(last);
          SameParamsExtended(KeptParams(Init(items)), FlattenedParams(RewriteItems(ConvertedParameters(Init(items)))),
                             last, Flattened(RewriteFields(ConvertedParameter(last))));
        }
      }
    }
  }

  /** A parameter of the path is not converted: the other loader takes its type for `string`, so it
      agrees exactly if that is its type. */
  lemma SharedParameterAgreesExactly(p: Fields)
    requires ShapedParam(Obj(p)) && Get(p, "schema") == None
    ensures SameParam(p, Flattened(RewriteFields(p))) <==> GetOr(p, "type", Str("string")) == Str("string")
  {
    FlattenedKeys(RewriteFields(p), "name");
    FlattenedKeys(RewriteFields(p), "in");
    FlattenedKeys(RewriteFields(p), "type");
    GetRewritten(p, "name");
    GetRewritten(p, "in");
    GetRewritten(p, "schema");
  }

  // ------------------------------------------------------------------ body

  lemma {:induction false} OneBodyFound(items: seq<Json>)
    requires OneBody(items)
    ensures FirstBody(items) == LastBody(items)
    ensures FirstBody(items).Some? ==>
              && At(FirstBody(items).value, "body")
              && exists i :: 0 <= i < |items| && FieldsOf(items[i]) == FirstBody(items).value
    decreases |items|
  {
    if items != [] {
      var init := Init(items);
      assert forall i | 0 <= i < |init| :: init[i] == items[i];
      OneBodyFound(init);
      assert Last(items) == items[|items| - 1];
    }
  }

  lemma {:induction false} OccursWithin(before: string, from: string)
    requires from != ""
    ensures Occurs(from, before + from)
    decreases |before|
  {
    var s := before + from;
    if before == "" {
      assert s == from && s[..|from|] == from;
    } else {
      assert s[1..] == before[1..] + from;
      OccursWithin(before[1..], from);
    }
  }

  lemma RequestKeys(p: Fields)
    ensures Get(RequestBody(p), "required") == Some(Bool(!Falsy(GetOr(p, "required", Bool(false)))))
    ensures Get(RequestBody(p), "content")
         == Some(Obj([Field("application/json", Obj([Field("schema", RequestSchema(p))]))]))
  {
  }

  /** What the other loader reads from a converted body. */
  lemma BodyAgrees(p: Fields)
    ensures var request := RewriteFields(RequestBody(p));
            var media := FirstJson(Entries(Get(request, "content")));
            && media.Some?
            && Get(FieldsOf(media.value), "schema") == Some(Rewrite(RequestSchema(p)))
            && Falsy(GetOr(request, "required", Bool(false))) == Falsy(GetOr(p, "required", Bool(false)))
  {
    RequestKeys(p);
    GetRewritten(RequestBody(p), "required");
    GetRewritten(RequestBody(p), "content");
    var schema := [Field("schema", RequestSchema(p))];
    GetRewritten(schema, "schema");
    var media := Field("application/json", Obj(schema));
    assert RewriteFields([media]) == [RewriteField(media)];
    assert Entries(Get(RewriteFields(RequestBody(p)), "content")) == [RewriteField(media)];
    assert RewriteField(media) == Field("application/json", Obj(RewriteFields(schema)));
    assert "application/json" == "application/" + "json";
    OccursWithin("application/", "json");
  }

  // ------------------------------------------------------------- responses

  lemma LocalFields(j: Json)
    requires LocalRefs(j)
    ensures Local(FieldsOf(j))
  {
  }

  lemma LocalEntries(fields: Fields, key: string)
    requires Local(fields)
    ensures Local(Entries(Get(fields, key)))
    ensures LocalRefs(GetOr(fields, key, Null))
    ensures forall i | 0 <= i < |Elements(Get(fields, key))| :: LocalRefs(Elements(Get(fields, key))[i])
  {
    GetLocal(fields, key);
    var value := GetOr(fields, key, Null);
    assert LocalRefs(value);
  }

  lemma ResponseKeys(response: Fields, mediaType: string)
    ensures Get(ConvertedResponse(response, mediaType), "content")
         == if Falsy(GetOr(response, "schema", Null)) then None
            else Some(Obj([Field(mediaType, Obj([Field("schema", GetOr(response, "schema", Null))]))]))
  {
  }

  /** The schema the other loader reads from a converted response. */
  lemma ResponseAgrees(response: Fields, mediaType: string)
    ensures LastJsonSchema(Entries(Get(RewriteFields(ConvertedResponse(response, mediaType)), "content")))
         == if Falsy(GetOr(response, "schema", Null)) || !Occurs("json", mediaType) then None
            else Some(Rewrite(GetOr(response, "schema", Null)))
  {
    var schema := GetOr(response, "schema", Null);
    ResponseKeys(response, mediaType);
    GetRewritten(ConvertedResponse(response, mediaType), "content");
    if !Falsy(schema) {
      var media := Field(mediaType, Obj([Field("schema", schema)]));
      GetRewritten([Field("schema", schema)], "schema");
      assert RewriteFields([media]) == [RewriteField(media)];
      assert Last([RewriteField(media)]) == RewriteField(media);
    }
  }

  lemma SchemaAgrees(swagger: Json, converted: Json, a: Option<Json>, b: Option<Json>)
    requires Converts(swagger, converted) && LocalRefs(Definitions(swagger)) && LocalRefs(OrNull(a))
    requires b == if Falsy(OrNull(a)) then None else Some(Rewrite(OrNull(a)))
    ensures SameSchema(swagger, converted, a, b)
  {
    forall depth: nat
      ensures Deref(converted, OrNull(b), depth) == Rewritten(Deref(swagger, OrNull(a), depth))
    {
      if !Falsy(OrNull(a)) { DerefCommutes(swagger, converted, OrNull(a), depth); }
    }
  }

  lemma NextEntry(earlier: Fields, entry: Field)
    ensures var all := RewriteFields(earlier + [entry]);
            all != [] && Init(all) == RewriteFields(earlier) && Last(all) == RewriteField(entry)
  {
    RewriteJoined(earlier, [entry]);
    assert RewriteFields([entry]) == [RewriteField(entry)];
  }

  /** What one more converted response adds for the other loader. */
  lemma NextResponse(earlier: Fields, code: string, response: Fields, mediaType: string)
    requires Occurs("json", mediaType)
    ensures OpenApiResponses(RewriteFields(earlier + [Field(code, Obj(ConvertedResponse(response, mediaType)))]))
         == if Digits(code)
            then OpenApiResponses(RewriteFields(earlier))[Decimal(code) := ReadBack(Get(response, "schema"))]
            else OpenApiResponses(RewriteFields(earlier))
  {
    NextEntry(earlier, Field(code, Obj(ConvertedResponse(response, mediaType))));
    ResponseAgrees(response, mediaType);
  }

  /** A schema as the other loader finds it. */
  function ReadBack(schema: Option<Json>): Option<Json> {
    if Falsy(OrNull(schema)) then None else Some(Rewrite(OrNull(schema)))
  }

  lemma SameResponsesExtended(swagger: Json, converted: Json,
                              a: map<nat, Option<Json>>, b: map<nat, Option<Json>>, code: nat, schema: Option<Json>)
    requires Converts(swagger, converted) && LocalRefs(Definitions(swagger)) && LocalRefs(OrNull(schema))
    requires SameResponses(swagger, converted, a, b)
    ensures SameResponses(swagger, converted, a[code := schema], b[code := ReadBack(schema)])
  {
    SchemaAgrees(swagger, converted, schema, ReadBack(schema));
  }

  lemma {:induction false} ResponsesAgree(swagger: Json, converted: Json, responses: Fields, mediaType: string)
    requires Converts(swagger, converted) && LocalRefs(Definitions(swagger))
    requires Local(responses) && Occurs("json", mediaType)
    ensures SameResponses(swagger, converted, SwaggerResponses(responses),
                          OpenApiResponses(RewriteFields(ConvertedResponses(responses, mediaType))))
    decreases |responses|
  {
    if responses != [] {
      var last := Last(responses);
      assert last == responses[|responses| - 1] && LocalRef(last);
      ResponsesAgree(swagger, converted, Init(responses), mediaType);
      var earlier := ConvertedResponses(Init(responses), mediaType);
      NextResponse(earlier, last.key, FieldsOf(last.value), mediaType);
      LocalFields(last.value);
      LocalEntries(FieldsOf(last.value), "schema");
      SameResponsesExtended(swagger, converted,
                            SwaggerResponses(Init(responses)), OpenApiResponses(RewriteFields(earlier)),
                            Decimal(last.key), Get(FieldsOf(last.value), "schema"));
    }
  }

  // ------------------------------------------------------------ operations

  lemma ParametersKey(op: Fields, k: string)
    ensures Elements(Get(WithParameters(op), "parameters")) == ConvertedParameters(Elements(Get(op, "parameters")))
    ensures k !in DROPPED ==> Get(WithParameters(op), k) == Get(op, k)
  {
    var params := Arr(ConvertedParameters(Elements(Get(op, "parameters"))));
    GetWithout(op, DROPPED, k);
    GetWithout(op, DROPPED, "parameters");
    GetPut(Without(op, DROPPED), "parameters", params, "parameters");
    GetPut(Without(op, DROPPED), "parameters", params, k);
    assert "parameters" in DROPPED;
  }

  lemma BodyKey(op: Fields)
    requires Get(op, "requestBody") == None
    ensures Elements(Get(WithBody(op), "parameters")) == ConvertedParameters(Elements(Get(op, "parameters")))
    ensures Get(WithBody(op), "requestBody")
         == match LastBody(Elements(Get(op, "parameters"))) case Some(p) => Some(Obj(RequestBody(p))) case None => None
  {
    ParametersKey(op, "requestBody");
    match LastBody(Elements(Get(op, "parameters")))
    case Some(p) =>
      GetPut(WithParameters(op), "requestBody", Obj(RequestBody(p)), "parameters");
      GetPut(WithParameters(op), "requestBody", Obj(RequestBody(p)), "requestBody");
    case None =>
  }

  lemma ConvertedKeys(op: Fields, produces: seq<Json>)
    requires Get(op, "requestBody") == None
    ensures var c := ConvertedOperation(op, produces);
            var items := Elements(Get(op, "parameters"));
            && Elements(Get(c, "parameters")) == ConvertedParameters(items)
            && Get(c, "requestBody")
               == (match LastBody(items) case Some(p) => Some(Obj(RequestBody(p))) case None => None)
            && Get(c, "responses")
               == Some(Obj(ConvertedResponses(Entries(Get(op, "responses")), MediaType(Produces(op, produces)))))
  {
    var responses := Obj(ConvertedResponses(Entries(Get(op, "responses")), MediaType(Produces(op, produces))));
    BodyKey(op);
    GetPut(WithBody(op), "responses", responses, "parameters");
    GetPut(WithBody(op), "responses", responses, "requestBody");
    GetPut(WithBody(op), "responses", responses, "responses");
  }

  lemma RewrittenParts(fields: Fields, key: string)
    requires key != "$ref"
    ensures Elements(Get(RewriteFields(fields), key)) == RewriteItems(Elements(Get(fields, key)))
    ensures Entries(Get(RewriteFields(fields), key)) == RewriteFields(Entries(Get(fields, key)))
  {
    GetRewritten(fields, key);
  }

  lemma BodySchemaIsLocal(items: seq<Json>)
    requires OneBody(items) && forall i | 0 <= i < |items| :: LocalRefs(items[i])
    ensures FirstBody(items).Some? ==> LocalRefs(GetOr(FirstBody(items).value, "schema", Null))
  {
    OneBodyFound(items);
    if FirstBody(items).Some? {
      var i :| 0 <= i < |items| && FieldsOf(items[i]) == FirstBody(items).value;
      LocalFields(items[i]);
      LocalEntries(FieldsOf(items[i]), "schema");
    }
  }

  lemma {:induction false} BodyIsShaped(items: seq<Json>)
    requires forall i | 0 <= i < |items| :: ShapedParam(items[i])
    ensures FirstBody(items).Some? ==> !Falsy(GetOr(FirstBody(items).value, "schema", Null))
    decreases |items|
  {
    if items != [] {
      BodyIsShaped(Init(items));
      assert Last(items) == items[|items| - 1];
    }
  }

  /** What the two loaders read of a body: the schema, and its rewriting. */
  lemma BodiesAreRead(op: Fields, produces: seq<Json>, items: seq<Json>)
    requires ShapedOperation(op, produces) && items == Elements(Get(op, "parameters"))
    ensures var a := SwaggerOperation([], op);
            var b := OpenApiOperation([], RewriteFields(ConvertedOperation(op, produces)));
            && a.bodyRequired == b.bodyRequired
            && match FirstBody(items)
               case None => a.bodySchema == None && b.bodySchema == None
               case Some(p) => a.bodySchema == Get(p, "schema") && b.bodySchema == Some(Rewrite(RequestSchema(p)))
  {
    assert [] + items == items;
    ConvertedKeys(op, produces);
    RewrittenParts(ConvertedOperation(op, produces), "requestBody");
    OneBodyFound(items);
    if FirstBody(items).Some? { BodyAgrees(FirstBody(items).value); }
  }

  /** The body of an operation in the two tables. */
  lemma OperationBodyAgrees(swagger: Json, converted: Json, op: Fields, produces: seq<Json>)
    requires Converts(swagger, converted) && LocalRefs(Definitions(swagger))
    requires Local(op) && ShapedOperation(op, produces)
    ensures var a := SwaggerOperation([], op);
            var b := OpenApiOperation([], RewriteFields(ConvertedOperation(op, produces)));
            && a.bodyRequired == b.bodyRequired && a.bodySchema.Some? == b.bodySchema.Some?
            && SameSchema(swagger, converted, a.bodySchema, b.bodySchema)
  {
    var items := Elements(Get(op, "parameters"));
    BodiesAreRead(op, produces, items);
    LocalEntries(op, "parameters");
    BodySchemaIsLocal(items);
    BodyIsShaped(items);
    if FirstBody(items).Some? {
      var p := FirstBody(items).value;
      SchemaAgrees(swagger, converted, Get(p, "schema"), Some(Rewrite(RequestSchema(p))));
    } else {
      SchemaAgrees(swagger, converted, None, None);
    }
  }

  lemma OperationAgrees(swagger: Json, converted: Json, op: Fields, produces: seq<Json>)
    requires Converts(swagger, converted) && LocalRefs(Definitions(swagger))
    requires Local(op) && ShapedOperation(op, produces)
    ensures SameOperation(swagger, converted, SwaggerOperation([], op),
                          OpenApiOperation([], RewriteFields(ConvertedOperation(op, produces))))
  {
    var items, c := Elements(Get(op, "parameters")), ConvertedOperation(op, produces);
    OperationBodyAgrees(swagger, converted, op, produces);
    ConvertedKeys(op, produces);
    RewrittenParts(c, "parameters");
    RewrittenParts(c, "responses");
    assert [] + items == items;
    assert [] + RewriteItems(ConvertedParameters(items)) == RewriteItems(ConvertedParameters(items));
    ParametersAgree(items);
    LocalEntries(op, "responses");
    ResponsesAgree(swagger, converted, Entries(Get(op, "responses")), MediaType(Produces(op, produces)));
  }

  // ----------------------------------------------------------------- tables

  lemma SameTableExtended(swagger: Json, converted: Json, a: Table, b: Table, key: (string, string), x: Operation,
                          y: Operation)
    requires SameTable(swagger, converted, a, b) && SameOperation(swagger, converted, x, y)
    ensures SameTable(swagger, converted, a[key := x], b[key := y])
  {
  }

  lemma OpenApiItemNext(path: string, all: Fields, earlier: Fields, f: Field)
    requires all != [] && Init(all) == earlier && Last(all) == f
    ensures OpenApiItem(path, [], all)
         == if OpenApiEntry(f)
            then OpenApiItem(path, [], earlier)[(Upper(f.key), path) := OpenApiOperation([], f.value.fields)]
            else OpenApiItem(path, [], earlier)
  {
  }

  lemma EntryConverted(entry: Field, produces: seq<Json>)
    requires ShapedEntry(entry, produces)
    ensures var f := RewriteField(ConvertedEntry(entry, produces));
            if entry.key == "$ref" then !OpenApiEntry(f)
            else OpenApiEntry(f) && f.key == entry.key
                 && f.value.fields == RewriteFields(ConvertedOperation(entry.value.fields, produces))
  {
  }

  /** What one more converted entry of a path adds for the other loader. */
  lemma NextOperation(path: string, earlier: Fields, entry: Field, produces: seq<Json>)
    requires ShapedEntry(entry, produces)
    ensures OpenApiItem(path, [], RewriteFields(earlier + [ConvertedEntry(entry, produces)]))
         == if entry.key == "$ref" then OpenApiItem(path, [], RewriteFields(earlier))
            else OpenApiItem(path, [], RewriteFields(earlier))[(Upper(entry.key), path) :=
                   OpenApiOperation([], RewriteFields(ConvertedOperation(entry.value.fields, produces)))]
  {
    var converted := ConvertedEntry(entry, produces);
    NextEntry(earlier, converted);
    EntryConverted(entry, produces);
    OpenApiItemNext(path, RewriteFields(earlier + [converted]), RewriteFields(earlier), RewriteField(converted));
  }

  lemma {:induction false} ItemAgrees(swagger: Json, converted: Json, path: string, item: Fields, produces: seq<Json>)
    requires Converts(swagger, converted) && LocalRefs(Definitions(swagger))
    requires Local(item) && forall i | 0 <= i < |item| :: ShapedEntry(item[i], produces)
    ensures SameTable(swagger, converted, SwaggerItem(path, [], item),
                      OpenApiItem(path, [], RewriteFields(ConvertedItem(item, produces))))
    decreases |item|
  {
    if item != [] {
      var init, last := Init(item), Last(item);
      assert last == item[|item| - 1] && LocalRef(last) && ShapedEntry(last, produces);
      ItemAgrees(swagger, converted, path, init, produces);
      NextOperation(path, ConvertedItem(init, produces), last, produces);
      if last.key != "$ref" {
        LocalFields(last.value);
        OperationAgrees(swagger, converted, last.value.fields, produces);
        SameTableExtended(swagger, converted, SwaggerItem(path, [], init),
                          OpenApiItem(path, [], RewriteFields(ConvertedItem(init, produces))), (Upper(last.key), path),
                          SwaggerOperation([], last.value.fields),
                          OpenApiOperation([], RewriteFields(ConvertedOperation(last.value.fields, produces))));
      }
    }
  }

  lemma {:induction false} NoSharedParameters(item: Fields, produces: seq<Json>)
    requires forall i | 0 <= i < |item| :: ShapedEntry(item[i], produces)
    ensures Get(item, "parameters") == None && Get(ConvertedItem(item, produces), "parameters") == None
    decreases |item|
  {
    if item != [] {
      var init, last := Init(item), Last(item);
      assert item == init + [last] && last == item[|item| - 1];
      NoSharedParameters(init, produces);
      GetJoined(init, [last], "parameters");
      GetJoined(ConvertedItem(init, produces), [Last(ConvertedItem(item, produces))], "parameters");
    }
  }

  lemma SameTableJoined(swagger: Json, converted: Json, a: Table, b: Table, c: Table, d: Table)
    requires SameTable(swagger, converted, a, b) && SameTable(swagger, converted, c, d)
    ensures SameTable(swagger, converted, a + c, b + d)
  {
  }

  /** What one more path adds for the other loader. */
  lemma NextPath(earlier: Fields, path: string, item: Fields, produces: seq<Json>)
    requires forall i | 0 <= i < |item| :: ShapedEntry(item[i], produces)
    ensures OpenApiTable(RewriteFields(earlier + [Field(path, Obj(ConvertedItem(item, produces)))]))
         == OpenApiTable(RewriteFields(earlier)) + OpenApiItem(path, [], RewriteFields(ConvertedItem(item, produces)))
  {
    NextEntry(earlier, Field(path, Obj(ConvertedItem(item, produces))));
    NoSharedParameters(item, produces);
    GetRewritten(ConvertedItem(item, produces), "parameters");
  }

  lemma {:induction false} PathsAgree(swagger: Json, converted: Json, paths: Fields, produces: seq<Json>)
    requires Converts(swagger, converted) && LocalRefs(Definitions(swagger))
    requires Local(paths) && ShapedPaths(paths, produces)
    ensures SameTable(swagger, converted, SwaggerTable(paths),
              OpenApiTable(RewriteFields(ConvertedPaths(paths, produces))))
    decreases |paths|
  {
    if paths != [] {
      var init, last := Init(paths), Last(paths);
      var item := FieldsOf(last.value);
      assert last == paths[|paths| - 1] && LocalRef(last);
      LocalFields(last.value);
      PathsAgree(swagger, converted, init, produces);
      NextPath(ConvertedPaths(init, produces), last.key, item, produces);
      NoSharedParameters(item, produces);
      ItemAgrees(swagger, converted, last.key, item, produces);
      SameTableJoined(swagger, converted,
                      SwaggerTable(init), OpenApiTable(RewriteFields(ConvertedPaths(init, produces))),
                      SwaggerItem(last.key, [], item),
                      OpenApiItem(last.key, [], RewriteFields(ConvertedItem(item, produces))));
    }
  }

  /** A document to which the agreement applies. */
  predicate Convertible(swagger: Fields) {
    && Get(swagger, "swagger") == Some(Str("2.0"))
    && ShapedPaths(Entries(Get(swagger, "paths")), Produces(swagger, JSON_TYPE))
    && Local(Entries(Get(swagger, "paths")))
    && LocalRefs(Definitions(Obj(swagger)))
  }

  /** The table loaded from the converted document is the one loaded from the original: the same
      operations, parameters, status codes and body flags, and schemas that dereference alike. */
  lemma LoadersAgree(swagger: Fields)
    requires Convertible(swagger)
    ensures var converted := ToOpenApi3(swagger);
            && converted.Some?
            && SameTable(Obj(swagger), Obj(converted.value),
                         SwaggerTable(Entries(Get(swagger, "paths"))),
                         OpenApiTable(Entries(Get(converted.value, "paths"))))
  {
    var converted, produces := ToOpenApi3(swagger).value, Produces(swagger, JSON_TYPE);
    var paths := Entries(Get(swagger, "paths"));
    GetAt(converted, 3);
    GetAt(converted, 4);
    PathsAgree(Obj(swagger), Obj(converted), paths, produces);
  }

  lemma {:induction false} SameParamTypes(a: seq<Fields>, b: seq<Fields>)
    requires SameParams(a, b)
    ensures PathParamTypes(a) == PathParamTypes(b)
    decreases |a|
  {
    if a != [] {
      assert SameParam(a[|a| - 1], b[|b| - 1]);
      SameParamTypes(Init(a), Init(b));
    }
  }

  /** What the emulator derives from two such operations is the same. */
  lemma SameDerived(swagger: Json, converted: Json, a: Operation, b: Operation)
    requires SameOperation(swagger, converted, a, b)
    ensures PathParamTypes(a.params) == PathParamTypes(b.params)
    ensures SuccessStatus(a) == SuccessStatus(b)
  {
    SameParamTypes(a.params, b.params);
  }

  // ------------------------------------------------------------- the loops

  method ConvertOperation(op: Fields, produces: seq<Json>) returns (out: Fields)
    ensures out == ConvertedOperation(op, produces)
  {
    out := Without(op, DROPPED);
    var items := Elements(Get(op, "parameters"));
    var parameters: seq<Json> := [];
    var request: Option<Fields> := None;
    for i := 0 to |items|
      invariant parameters == ConvertedParameters(items[..i])
      invariant request == match LastBody(items[..i]) case Some(p) => Some(RequestBody(p)) case None => None
    {
      assert Init(items[..i + 1]) == items[..i] && Last(items[..i + 1]) == items[i];
      if At(FieldsOf(items[i]), "body") {
        request := Some(RequestBody(FieldsOf(items[i])));
      } else {
        parameters := parameters + [Obj(ConvertedParameter(FieldsOf(items[i])))];
      }
    }
    assert items[..|items|] == items;
    if parameters != [] { out := Put(out, "parameters", Arr(parameters)); }
    if request.Some? { out := Put(out, "requestBody", Obj(request.value)); }
    var given := Entries(Get(op, "responses"));
    var responses: Fields := [];
    var mediaType := MediaType(Produces(op, produces));
    for i := 0 to |given|
      invariant responses == ConvertedResponses(given[..i], mediaType)
    {
      assert Init(given[..i + 1]) == given[..i] && Last(given[..i + 1]) == given[i];
      responses := responses + [Field(given[i].key, Obj(ConvertedResponse(FieldsOf(given[i].value), mediaType)))];
    }
    assert given[..|given|] == given;
    out := Put(out, "responses", Obj(responses));
  }

  method Convert(swagger: Fields) returns (out: Option<Fields>)
    ensures out == ToOpenApi3(swagger)
  {
    if Get(swagger, "swagger") != Some(Str("2.0")) { return None; }
    var produces := Produces(swagger, JSON_TYPE);
    var given := Entries(Get(swagger, "paths"));
    var paths: Fields := [];
    for i := 0 to |given|
      invariant paths == ConvertedPaths(given[..i], produces)
    {
      assert Init(given[..i + 1]) == given[..i] && Last(given[..i + 1]) == given[i];
      var item := ConvertItem(FieldsOf(given[i].value), produces);
      paths := paths + [Field(given[i].key, Obj(item))];
    }
    assert given[..|given|] == given;
    out := Some(OpenApiDocument(swagger, paths));
  }

  method ConvertItem(item: Fields, produces: seq<Json>) returns (converted: Fields)
    ensures converted == ConvertedItem(item, produces)
  {
    converted := [];
    for i := 0 to |item|
      invariant converted == ConvertedItem(item[..i], produces)
    {
      assert Init(item[..i + 1]) == item[..i] && Last(item[..i + 1]) == item[i];
      if item[i].key == "parameters" || item[i].key == "$ref" {
        converted := converted + [item[i]];
      } else {
        var op := ConvertOperation(FieldsOf(item[i].value), produces);
        converted := converted + [Field(item[i].key, Obj(op))];
      }
    }
    assert item[..|item|] == item;
  }

  method LoadSwagger(paths: Fields) returns (ops: Table)
    ensures ops == SwaggerTable(paths)
  {
    ops := map[];
    for i := 0 to |paths|
      invariant ops == SwaggerTable(paths[..i])
    {
      assert Init(paths[..i + 1]) == paths[..i] && Last(paths[..i + 1]) == paths[i];
      ops := LoadSwaggerItem(ops, paths[i].key, FieldsOf(paths[i].value));
    }
    assert paths[..|paths|] == paths;
  }

  method LoadSwaggerItem(before: Table, path: string, item: Fields) returns (ops: Table)
    ensures ops == before + SwaggerItem(path, Elements(Get(item, "parameters")), item)
  {
    ops := before;
    var shared := Elements(Get(item, "parameters"));
    for j := 0 to |item|
      invariant ops == before + SwaggerItem(path, shared, item[..j])
    {
      assert Init(item[..j + 1]) == item[..j] && Last(item[..j + 1]) == item[j];
      if SwaggerEntry(item[j]) {
        var op := SwaggerOperation(shared, item[j].value.fields);
        ops := ops[(Upper(item[j].key), path) := op];
      }
    }
    assert item[..|item|] == item;
  }

  method LoadOpenApi(paths: Fields) returns (ops: Table)
    ensures ops == OpenApiTable(paths)
  {
    ops := map[];
    for i := 0 to |paths|
      invariant ops == OpenApiTable(paths[..i])
    {
      assert Init(paths[..i + 1]) == paths[..i] && Last(paths[..i + 1]) == paths[i];
      ops := LoadOpenApiItem(ops, paths[i].key, FieldsOf(paths[i].value));
    }
    assert paths[..|paths|] == paths;
  }

  method LoadOpenApiItem(before: Table, path: string, item: Fields) returns (ops: Table)
    ensures ops == before + OpenApiItem(path, Elements(Get(item, "parameters")), item)
  {
    ops := before;
    var shared := Elements(Get(item, "parameters"));
    for j := 0 to |item|
      invariant ops == before + OpenApiItem(path, shared, item[..j])
    {
      assert Init(item[..j + 1]) == item[..j] && Last(item[..j + 1]) == item[j];
      if OpenApiEntry(item[j]) {
        var op := OpenApiOperation(shared, item[j].value.fields);
        ops := ops[(Upper(item[j].key), path) := op];
      }
    }
    assert item[..|item|] == item;
  }
}
