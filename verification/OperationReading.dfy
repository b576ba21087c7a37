/** What the loaded tables say of a document, entry by entry, and what the conversion to OpenAPI 3
    keeps of it. */
module OperationReading {
  import opened Vda5050
  import opened Json
  import opened OpenApi
  import opened OperationTables

  // ---------------------------------------------------------- status codes

  const DIGITS := "0123456789"

  predicate IsNumber(code: string) { code != "" && forall i | 0 <= i < |code| :: code[i] in DIGITS }

  function Power10(n: nat): nat { if n == 0 then 1 else 10 * Power10(n - 1) }

  /** The value of a numeral: the first digit counts most. */
  function Value(code: string): nat
    requires forall i | 0 <= i < |code| :: code[i] in DIGITS
  {
    if code == "" then 0 else (code[0] as nat - '0' as nat) * Power10(|code| - 1) + Value(code[1..])
  }

  lemma DigitsIsNumber(code: string)
    ensures Digits(code) <==> IsNumber(code)
  {
    if IsNumber(code) {
      forall c | c in code ensures '0' <= c <= '9' {
        var i :| 0 <= i < |code| && code[i] == c;
        DigitChars(c);
      }
    }
    if Digits(code) {
      forall i | 0 <= i < |code| ensures code[i] in DIGITS {
        assert code[i] in code;
        DigitChars(code[i]);
      }
    }
  }

  lemma DigitChars(c: char)
    ensures c in DIGITS <==> '0' <= c <= '9'
  {
    if '0' <= c <= '9' { assert DIGITS[c as int - '0' as int] == c; }
  }

  lemma {:induction false} ValueEnds(code: string)
    requires code != "" && forall i | 0 <= i < |code| :: code[i] in DIGITS
    ensures Value(code) == 10 * Value(code[..|code| - 1]) + (code[|code| - 1] as nat - '0' as nat)
    decreases |code|
  {
    if |code| == 1 {
      assert code[1..] == "" && code[..0] == "";
    } else {
      var rest, init := code[1..], code[..|code| - 1];
      ValueEnds(rest);
      assert rest[..|rest| - 1] == init[1..] && rest[|rest| - 1] == code[|code| - 1];
      assert Value(init) == (code[0] as nat - '0' as nat) * Power10(|rest| - 1) + Value(init[1..]) by {
        assert init[0] == code[0];
      }
      Carried(code[0] as nat - '0' as nat, |rest|, Value(rest), Value(init[1..]), code[|code| - 1] as nat - '0' as nat);
    }
  }

  /** A digit in front of a number that ends in another. */
  lemma Carried(first: nat, n: nat, rest: nat, middle: nat, last: nat)
    requires n >= 1 && rest == 10 * middle + last
    ensures first * Power10(n) + rest == 10 * (first * Power10(n - 1) + middle) + last
  {
  }

  lemma {:induction false} DecimalIsValue(code: string)
    requires forall i | 0 <= i < |code| :: code[i] in DIGITS
    ensures Decimal(code) == Value(code)
    decreases |code|
  {
    if code != "" {
      DecimalIsValue(Init(code));
      ValueEnds(code);
      DigitChars(Last(code));
    }
  }

  /** The success status is the lowest status of the 2xx range, 200 if there is none. */
  lemma SuccessIsLowest(op: Operation)
    ensures var s := SuccessStatus(op);
            || (s in op.responses && 200 <= s < 300 && forall c | c in op.responses && 200 <= c < 300 :: s <= c)
            || (s == 200 && forall c | c in op.responses :: !(200 <= c < 300))
  {
    LowestIsFirst(op.responses.Keys, 200);
  }

  lemma {:induction false} LowestIsFirst(codes: set<nat>, from: nat)
    requires 200 <= from <= 300
    ensures var s := Lowest(codes, from);
            || (s in codes && from <= s < 300 && forall c | c in codes && from <= c < 300 :: s <= c)
            || (s == 200 && forall c | c in codes :: !(from <= c < 300))
    decreases 300 - from
  {
    if from < 300 && from !in codes { LowestIsFirst(codes, from + 1); }
  }

  const LOWER := "abcdefghijklmnopqrstuvwxyz"
  const UPPER := "ABCDEFGHIJKLMNOPQRSTUVWXYZ"

  /** Method names are read in upper case, letter by letter. */
  lemma UpperIsExact(s: string, i: nat)
    requires i < |s|
    ensures |Upper(s)| == |s|
    ensures s[i] !in LOWER ==> Upper(s)[i] == s[i]
    ensures forall k | 0 <= k < 26 :: s[i] == LOWER[k] ==> Upper(s)[i] == UPPER[k]
  {
    UpperLetter(s[i]);
  }

  function UpperChar(c: char): char { if 'a' <= c <= 'z' then c - 'a' + 'A' else c }

  lemma UpperLetter(c: char)
    ensures c !in LOWER ==> UpperChar(c) == c
    ensures forall k | 0 <= k < 26 :: c == LOWER[k] ==> UpperChar(c) == UPPER[k]
  {
    if 'a' <= c <= 'z' { assert LOWER[c as int - 'a' as int] == c; }
    forall k | 0 <= k < 26 ensures LOWER[k] as int == 'a' as int + k && UPPER[k] as int == 'A' as int + k {}
  }

  // ------------------------------------------------------------- parameters

  /** What Python takes for true. */
  predicate Truthy(j: Option<Json>) {
    match j
    case None => false
    case Some(Null) => false
    case Some(Bool(flag)) => flag
    case Some(Number(value)) => value != 0.0
    case Some(Str(text)) => |text| > 0
    case Some(Arr(items)) => |items| > 0
    case Some(Obj(fields)) => |fields| > 0
  }

  function Place(item: Json): Option<Json> { Get(FieldsOf(item), "in") }

  /** The parameters that stand in the path or the query, in order. */
  function Chosen(items: seq<Json>): seq<Fields> {
    if items == [] then []
    else (if Place(items[0]) in {Some(Str("path")), Some(Str("query"))} then [FieldsOf(items[0])] else [])
         + Chosen(items[1..])
  }

  lemma {:induction false} ChosenEnds(items: seq<Json>)
    requires items != []
    ensures Chosen(items) == Chosen(Init(items)) + Chosen([Last(items)])
    decreases |items|
  {
    if |items| == 1 {
      assert Init(items) == [] && [Last(items)] == items;
    } else {
      ChosenEnds(items[1..]);
      assert Init(items)[1..] == Init(items[1..]) && Last(items[1..]) == Last(items);
    }
  }

  lemma {:induction false} KeptIsChosen(items: seq<Json>)
    ensures KeptParams(items) == Chosen(items)
    decreases |items|
  {
    if items != [] {
      KeptIsChosen(Init(items));
      ChosenEnds(items);
      assert [Last(items)][1..] == [];
    }
  }

  /** The first body parameter. */
  function BodyOf(items: seq<Json>): Option<Fields> {
    if items == [] then None
    else if Place(items[0]) == Some(Str("body")) then Some(FieldsOf(items[0]))
    else BodyOf(items[1..])
  }

  lemma {:induction false} FirstOrNext(items: seq<Json>)
    requires items != []
    ensures BodyOf(items) == if BodyOf(Init(items)).Some? then BodyOf(Init(items)) else BodyOf([Last(items)])
    decreases |items|
  {
    if |items| == 1 {
      assert Init(items) == [] && [Last(items)] == items;
    } else {
      FirstOrNext(items[1..]);
      assert Init(items)[1..] == Init(items[1..]) && Init(items)[0] == items[0];
    }
  }

  lemma {:induction false} FirstBodyIs(items: seq<Json>)
    ensures FirstBody(items) == BodyOf(items)
    decreases |items|
  {
    if items != [] {
      FirstBodyIs(Init(items));
      FirstOrNext(items);
      assert [Last(items)][1..] == [];
    }
  }

  // -------------------------------------------------------------- responses

  /** The last response under a numeric status code. */
  function ResponseTo(responses: Fields, code: nat): Option<Json> {
    if responses == [] then None
    else
      var last := responses[|responses| - 1];
      if Answers(last, code) then Some(last.value) else ResponseTo(responses[..|responses| - 1], code)
  }

  predicate Answers(response: Field, code: nat) { IsNumber(response.key) && Value(response.key) == code }

  lemma AnswersExactly(response: Field, code: nat)
    ensures Answers(response, code) <==> Digits(response.key) && Decimal(response.key) == code
  {
    DigitsIsNumber(response.key);
    if Digits(response.key) { DecimalIsValue(response.key); }
  }

  function SchemaUnder(responses: map<nat, Option<Json>>, code: nat): Option<Option<Json>> {
    if code in responses then Some(responses[code]) else None
  }

  /** Per numeric status code the schema of the last response under it; nothing under any other key. */
  lemma {:induction false} SwaggerResponsesAreRead(responses: Fields, code: nat)
    ensures SchemaUnder(SwaggerResponses(responses), code)
         == match ResponseTo(responses, code)
            case Some(response) => Some(Get(FieldsOf(response), "schema"))
            case None => None
    decreases |responses|
  {
    if responses != [] {
      SwaggerResponsesAreRead(Init(responses), code);
      AnswersExactly(Last(responses), code);
    }
  }

  /** One operation of a Swagger 2.0 document: the parameters of the path and its own that stand in path
      or query, and the first body with its schema and flag. */
  lemma SwaggerOperationIsRead(shared: seq<Json>, op: Fields, items: seq<Json>)
    requires items == shared + Elements(Get(op, "parameters"))
    ensures var read := SwaggerOperation(shared, op);
            && read.params == Chosen(items)
            && (BodyOf(items).None? ==> read.bodySchema == None && !read.bodyRequired)
            && (BodyOf(items).Some? ==>
                  && read.bodySchema == Get(BodyOf(items).value, "schema")
                  && (read.bodyRequired <==> Truthy(Get(BodyOf(items).value, "required"))))
            && read.responses == SwaggerResponses(Entries(Get(op, "responses")))
  {
    KeptIsChosen(items);
    FirstBodyIs(items);
    if BodyOf(items).Some? { FlagIsTruth(BodyOf(items).value); }
  }

  lemma FlagIsTruth(body: Fields)
    ensures !Falsy(GetOr(body, "required", Bool(false))) <==> Truthy(Get(body, "required"))
  {
  }

  // -------------------------------------------------------------- the tables

  /** The last entry of a path that is an operation under method `m`. */
  function Entry(item: Fields, m: string, others: set<string>): Option<Fields> {
    if item == [] then None
    else
      var last := item[|item| - 1];
      if Named(last, m, others) then Some(last.value.fields) else Entry(item[..|item| - 1], m, others)
  }

  predicate Named(f: Field, m: string, others: set<string>) {
    f.key !in others && f.value.Obj? && Upper(f.key) == m
  }

  lemma {:induction false} EntryIsLast(item: Fields, m: string, others: set<string>, j: nat)
    requires j < |item| && Named(item[j], m, others) && forall k | j < k < |item| :: !Named(item[k], m, others)
    ensures Entry(item, m, others) == Some(item[j].value.fields)
    decreases |item|
  {
    if j < |item| - 1 { EntryIsLast(item[..|item| - 1], m, others, j); }
  }

  lemma {:induction false} EntryIsMissing(item: Fields, m: string, others: set<string>)
    requires forall k | 0 <= k < |item| :: !Named(item[k], m, others)
    ensures Entry(item, m, others) == None
    decreases |item|
  {
    if item != [] { EntryIsMissing(item[..|item| - 1], m, others); }
  }

  function Lookup(table: Table, key: (string, string)): Option<Operation> {
    if key in table then Some(table[key]) else None
  }

  /** The operation a document has under a method and a path: the last entry under that path, together
      with the parameters its path shares. */
  function Sought(paths: Fields, m: string, path: string, others: set<string>): Option<(seq<Json>, Fields)> {
    if paths == [] then None
    else
      var last := paths[|paths| - 1];
      var item := FieldsOf(last.value);
      if last.key == path && Entry(item, m, others).Some?
      then Some((Elements(Get(item, "parameters")), Entry(item, m, others).value))
      else Sought(paths[..|paths| - 1], m, path, others)
  }

  lemma LookupUpdated(table: Table, method_: string, path: string, op: Operation, m: string, at: string)
    ensures Lookup(table[(method_, path) := op], (m, at))
         == if m == method_ && at == path then Some(op) else Lookup(table, (m, at))
  {
  }

  lemma {:induction false} SwaggerItemIsRead(path: string, shared: seq<Json>, item: Fields, m: string, at: string)
    ensures Lookup(SwaggerItem(path, shared, item), (m, at))
         == if at != path then None
            else match Entry(item, m, {"parameters"})
              case Some(op) => Some(SwaggerOperation(shared, op))
              case None => None
    decreases |item|
  {
    if item != [] {
      var earlier, last := SwaggerItem(path, shared, Init(item)), Last(item);
      SwaggerItemIsRead(path, shared, Init(item), m, at);
      if SwaggerEntry(last) {
        LookupUpdated(earlier, Upper(last.key), path, SwaggerOperation(shared, last.value.fields), m, at);
      }
    }
  }

  lemma {:induction false} OpenApiItemIsRead(path: string, shared: seq<Json>, item: Fields, m: string, at: string)
    ensures Lookup(OpenApiItem(path, shared, item), (m, at))
         == if at != path then None
            else match Entry(item, m, {"parameters", "servers"})
              case Some(op) => Some(OpenApiOperation(shared, op))
              case None => None
    decreases |item|
  {
    if item != [] {
      var earlier, last := OpenApiItem(path, shared, Init(item)), Last(item);
      OpenApiItemIsRead(path, shared, Init(item), m, at);
      if OpenApiEntry(last) {
        LookupUpdated(earlier, Upper(last.key), path, OpenApiOperation(shared, last.value.fields), m, at);
        assert Named(last, m, {"parameters", "servers"}) <==> Upper(last.key) == m;
      } else {
        assert !Named(last, m, {"parameters", "servers"});
      }
    }
  }

  lemma LookupJoined(a: Table, b: Table, key: (string, string))
    ensures Lookup(a + b, key) == if Lookup(b, key).Some? then Lookup(b, key) else Lookup(a, key)
  {
  }

  /** The Swagger 2.0 table has exactly the operations of the document, each under its method and path and
      read with the parameters the path shares. */
  lemma {:induction false} SwaggerTableIsRead(paths: Fields, m: string, path: string)
    ensures Lookup(SwaggerTable(paths), (m, path))
         == match Sought(paths, m, path, {"parameters"})
            case Some((shared, op)) => Some(SwaggerOperation(shared, op))
            case None => None
    decreases |paths|
  {
    if paths != [] {
      var last := Last(paths);
      var item := FieldsOf(last.value);
      var shared := Elements(Get(item, "parameters"));
      SwaggerTableIsRead(Init(paths), m, path);
      SwaggerItemIsRead(last.key, shared, item, m, path);
      LookupJoined(SwaggerTable(Init(paths)), SwaggerItem(last.key, shared, item), (m, path));
    }
  }

  /** So has the OpenAPI 3 table, whose paths may name servers as well. */
  lemma {:induction false} OpenApiTableIsRead(paths: Fields, m: string, path: string)
    ensures Lookup(OpenApiTable(paths), (m, path))
         == match Sought(paths, m, path, {"parameters", "servers"})
            case Some((shared, op)) => Some(OpenApiOperation(shared, op))
            case None => None
    decreases |paths|
  {
    if paths != [] {
      var last := Last(paths);
      var item := FieldsOf(last.value);
      var shared := Elements(Get(item, "parameters"));
      OpenApiTableIsRead(Init(paths), m, path);
      OpenApiItemIsRead(last.key, shared, item, m, path);
      LookupJoined(OpenApiTable(Init(paths)), OpenApiItem(last.key, shared, item), (m, path));
    }
  }

  /** The type of the last path parameter of that name, `string` unless it has one. */
  function TypeOf(params: seq<Fields>, name: Json): Option<Json> {
    if params == [] then None
    else
      var last := params[|params| - 1];
      if Get(last, "in") == Some(Str("path")) && GetOr(last, "name", Null) == name
      then Some(GetOr(last, "type", Str("string")))
      else TypeOf(params[..|params| - 1], name)
  }

  lemma {:induction false} TypesAreRead(params: seq<Fields>, name: Json)
    ensures TypeOf(params, name) == if name in PathParamTypes(params) then Some(PathParamTypes(params)[name]) else None
    decreases |params|
  {
    if params != [] { TypesAreRead(Init(params), name); }
  }

  // ----------------------------------------------------- OpenAPI operations

  predicate IsJson(media: Field) { Occurs("json", media.key) }

  lemma {:induction false} FirstJsonIsFirst(content: Fields, i: nat)
    requires i < |content| && IsJson(content[i]) && forall j | 0 <= j < i :: !IsJson(content[j])
    ensures FirstJson(content) == Some(content[i].value)
    decreases |content|
  {
    if i > 0 {
      assert !IsJson(content[0]);
      FirstJsonIsFirst(content[1..], i - 1);
    }
  }

  lemma {:induction false} NoJson(content: Fields)
    requires forall j | 0 <= j < |content| :: !IsJson(content[j])
    ensures FirstJson(content) == None && LastJsonSchema(content) == None
    decreases |content|
  {
    if content != [] {
      assert !IsJson(content[0]) && !IsJson(Last(content));
      NoJson(content[1..]);
      NoJson(Init(content));
    }
  }

  lemma {:induction false} LastJsonIsLast(content: Fields, i: nat)
    requires i < |content| && IsJson(content[i]) && forall j | i < j < |content| :: !IsJson(content[j])
    ensures LastJsonSchema(content) == Get(FieldsOf(content[i].value), "schema")
    decreases |content|
  {
    if i < |content| - 1 {
      assert !IsJson(content[|content| - 1]);
      LastJsonIsLast(Init(content), i);
    }
  }

  /** Here the schema of the last JSON media type it answers with. */
  lemma {:induction false} OpenApiResponsesAreRead(responses: Fields, code: nat)
    ensures SchemaUnder(OpenApiResponses(responses), code)
         == match ResponseTo(responses, code)
            case Some(response) => Some(LastJsonSchema(Entries(Get(FieldsOf(response), "content"))))
            case None => None
    decreases |responses|
  {
    if responses != [] {
      OpenApiResponsesAreRead(Init(responses), code);
      AnswersExactly(Last(responses), code);
    }
  }

  /** A parameter read from OpenAPI 3 carries the type of its schema, `string` without one, in place of the
      schema, and all else as it is. */
  ghost predicate ReadFrom(q: Fields, p: Fields) {
    forall k :: Get(q, k) == if k == "schema" then None
                             else if k == "type" then Some(GetOr(Entries(Get(p, "schema")), "type", Str("string")))
                             else Get(p, k)
  }

  lemma FlattenedIsRead(p: Fields)
    ensures ReadFrom(Flattened(p), p)
  {
    forall k ensures Get(Flattened(p), k) == if k == "schema" then None
                             else if k == "type" then Some(GetOr(Entries(Get(p, "schema")), "type", Str("string")))
                             else Get(p, k) {
      FlattenedKeys(p, k);
    }
  }

  lemma {:induction false} FlattenedAreChosen(items: seq<Json>)
    ensures |FlattenedParams(items)| == |Chosen(items)|
    ensures forall i | 0 <= i < |Chosen(items)| :: ReadFrom(FlattenedParams(items)[i], Chosen(items)[i])
    decreases |items|
  {
    if items != [] {
      FlattenedAreChosen(Init(items));
      ChosenEnds(items);
      assert [Last(items)][1..] == [];
      FlattenedIsRead(FieldsOf(Last(items)));
    }
  }

  /** The body of an OpenAPI 3 operation: the schema of the first JSON media type and the flag of the
      request. */
  lemma OpenApiBodyIsRead(shared: seq<Json>, op: Fields, request: Fields, content: Fields, i: nat)
    requires request == Entries(Get(op, "requestBody")) && content == Entries(Get(request, "content"))
    requires i < |content| && IsJson(content[i]) && forall j | 0 <= j < i :: !IsJson(content[j])
    ensures OpenApiOperation(shared, op).bodySchema == Get(FieldsOf(content[i].value), "schema")
    ensures OpenApiOperation(shared, op).bodyRequired <==> Truthy(Get(request, "required"))
  {
    FirstJsonIsFirst(content, i);
  }

  /** Without a JSON media type there is none. */
  lemma OpenApiBodyIsMissing(shared: seq<Json>, op: Fields, content: Fields)
    requires content == Entries(Get(Entries(Get(op, "requestBody")), "content"))
    requires forall j | 0 <= j < |content| :: !IsJson(content[j])
    ensures OpenApiOperation(shared, op).bodySchema == None && !OpenApiOperation(shared, op).bodyRequired
  {
    NoJson(content);
  }

  /** Its parameters, and its responses. */
  lemma OpenApiOperationIsRead(shared: seq<Json>, op: Fields)
    ensures var read, items := OpenApiOperation(shared, op), shared + Elements(Get(op, "parameters"));
            && |read.params| == |Chosen(items)|
            && (forall i | 0 <= i < |Chosen(items)| :: ReadFrom(read.params[i], Chosen(items)[i]))
            && read.responses == OpenApiResponses(Entries(Get(op, "responses")))
  {
    FlattenedAreChosen(shared + Elements(Get(op, "parameters")));
  }

  // ------------------------------------------------------------- conversion

  const SCHEMA_WORDS := {"type", "format", "enum", "items", "minimum", "maximum", "default"}

  lemma SchemaWords(k: string)
    ensures k in SCHEMA_KEYS <==> k in SCHEMA_WORDS
  {
  }

  /** A parameter keeps everything: what describes its values moves into a schema, and a parameter without
      any of that becomes a string. */
  lemma ParameterIsConverted(p: Fields, k: string)
    ensures var c := ConvertedParameter(p);
            var schema := Entries(Get(c, "schema"));
            && Get(c, "schema") == Some(Obj(schema))
            && (k in SCHEMA_WORDS ==> Get(c, k) == None)
            && (k !in SCHEMA_WORDS && k != "schema" ==> Get(c, k) == Get(p, k))
            && (k in SCHEMA_WORDS && Get(p, k).Some? ==> Get(schema, k) == Get(p, k))
            && ((forall w | w in SCHEMA_WORDS :: Get(p, w) == None) ==> schema == [Field("type", Str("string"))])
            && (k !in SCHEMA_WORDS ==> Get(schema, k) == None)
  {
    var picked := Pick(p, SCHEMA_KEYS);
    var schema := if picked == [] then [Field("type", Str("string"))] else picked;
    var keys := SCHEMA_KEYS + ["schema"];
    GetJoined(Without(p, keys), [Field("schema", Obj(schema))], k);
    GetJoined(Without(p, keys), [Field("schema", Obj(schema))], "schema");
    GetWithout(p, keys, k);
    GetWithout(p, keys, "schema");
    GetPick(p, SCHEMA_KEYS, k);
    SchemaWords(k);
    assert k in keys <==> k in SCHEMA_WORDS || k == "schema";
    if forall w | w in SCHEMA_WORDS :: Get(p, w) == None { NothingPicked(p, SCHEMA_KEYS); }
  }

  lemma {:induction false} NothingPicked(p: Fields, keys: seq<string>)
    requires forall i | 0 <= i < |keys| :: Get(p, keys[i]) == None
    ensures Pick(p, keys) == []
    decreases |keys|
  {
    if keys != [] { NothingPicked(p, keys[1..]); }
  }

  lemma DescriptionIsConverted(p: Fields)
    ensures Get(RequestBody(p), "description")
         == if Truthy(Get(p, "description")) then Get(p, "description") else None
  {
    var c := RequestBody(p);
    assert c[2..] == [] || c[2..] == [Field("description", GetOr(p, "description", Null))];
    GetJoined(c[..2], c[2..], "description");
    assert c == c[..2] + c[2..];
    assert c[..2][1..][1..] == [] && Get(c[..2][1..], "description") == None;
  }

  /** A body becomes a JSON request with the same schema, flag and description. */
  lemma BodyIsConverted(p: Fields)
    ensures var c := RequestBody(p);
            var content := Entries(Get(c, "content"));
            && Get(c, "required") == Some(Bool(Truthy(Get(p, "required"))))
            && Get(c, "description") == (if Truthy(Get(p, "description")) then Get(p, "description") else None)
            && |content| == 1 && content[0].key == "application/json"
            && Get(FieldsOf(content[0].value), "schema")
               == if Truthy(Get(p, "schema")) then Get(p, "schema") else Some(Obj([Field("type", Str("object"))]))
  {
    DescriptionIsConverted(p);
    assert Get(RequestBody(p), "required") == Some(Bool(Truthy(Get(p, "required")))) by {
      RequestKeys(p);
      FlagIsTruth(p);
    }
    ContentIsConverted(p);
  }

  lemma ContentIsConverted(p: Fields)
    ensures var content := Entries(Get(RequestBody(p), "content"));
            && |content| == 1 && content[0].key == "application/json"
            && Get(FieldsOf(content[0].value), "schema")
               == if Truthy(Get(p, "schema")) then Get(p, "schema") else Some(Obj([Field("type", Str("object"))]))
  {
    RequestKeys(p);
    var media := Field("application/json", Obj([Field("schema", RequestSchema(p))]));
    assert Entries(Get(RequestBody(p), "content")) == [media];
  }

  /** A response keeps its description, and its schema under the media type. */
  lemma ResponseIsConverted(response: Fields, mediaType: string)
    ensures var c := ConvertedResponse(response, mediaType);
            var content := Entries(Get(c, "content"));
            && Get(c, "description") == Some(GetOr(response, "description", Str("")))
            && (if Truthy(Get(response, "schema"))
                then |content| == 1 && content[0].key == mediaType
                     && Get(FieldsOf(content[0].value), "schema") == Get(response, "schema")
                else Get(c, "content") == None)
  {
    ResponseKeys(response, mediaType);
  }

  lemma {:induction false} ResponsesAreConverted(responses: Fields, mediaType: string)
    ensures |ConvertedResponses(responses, mediaType)| == |responses|
    ensures forall i | 0 <= i < |responses| ::
              ConvertedResponses(responses, mediaType)[i]
              == Field(responses[i].key, Obj(ConvertedResponse(FieldsOf(responses[i].value), mediaType)))
    decreases |responses|
  {
    if responses != [] {
      ResponsesAreConverted(Init(responses), mediaType);
      assert forall i | 0 <= i < |responses| - 1 :: Init(responses)[i] == responses[i];
    }
  }

  const MOVED := {"parameters", "responses", "produces", "consumes", "requestBody"}

  /** An operation keeps every other entry; its responses go by the same status codes, in the first media
      type it produces itself, or the document does, or JSON. */
  lemma OperationIsConverted(op: Fields, produces: seq<Json>, k: string)
    ensures var c := ConvertedOperation(op, produces);
            var own := Elements(Get(op, "produces"));
            var first := if own != [] then own[0] else if produces != [] then produces[0] else Null;
            && (k !in MOVED ==> Get(c, k) == Get(op, k))
            && Get(c, "produces") == None && Get(c, "consumes") == None
            && Get(c, "responses")
               == Some(Obj(ConvertedResponses(Entries(Get(op, "responses")),
                                              if first.Str? then first.text else "application/json")))
  {
    if k !in MOVED { OperationKey(op, produces, k); }
    OperationKey(op, produces, "produces");
    OperationKey(op, produces, "consumes");
    OperationKey(op, produces, "responses");
  }

  lemma OperationKey(op: Fields, produces: seq<Json>, k: string)
    requires k != "parameters" && k != "requestBody"
    ensures Get(ConvertedOperation(op, produces), k)
         == if k == "responses" then
              Some(Obj(ConvertedResponses(Entries(Get(op, "responses")), MediaType(Produces(op, produces)))))
            else if k in DROPPED then None
            else Get(op, k)
  {
    var responses := Obj(ConvertedResponses(Entries(Get(op, "responses")), MediaType(Produces(op, produces))));
    var body := LastBody(Elements(Get(op, "parameters")));
    GetPut(WithBody(op), "responses", responses, k);
    if body.Some? { GetPut(WithParameters(op), "requestBody", Obj(RequestBody(body.value)), k); }
    GetPut(Without(op, DROPPED), "parameters", Arr(ConvertedParameters(Elements(Get(op, "parameters")))), k);
    GetWithout(op, DROPPED, k);
  }

  /** Around its paths the converted document has its version, the original's info, server and warnings, and
      its definitions under components. */
  lemma DocumentIsConverted(swagger: Fields)
    ensures ToOpenApi3(swagger).None? <==> Get(swagger, "swagger") != Some(Str("2.0"))
    ensures var out := ToOpenApi3(swagger);
            out.Some? ==>
              && Get(out.value, "openapi") == Some(Str("3.0.3"))
              && Get(out.value, "info") == Some(GetOr(swagger, "info", Empty))
              && Get(out.value, "servers")
                 == Some(Arr([Obj([Field("url", GetOr(swagger, "basePath", Str("/api/v2.0.0")))])]))
              && Get(out.value, "x-mir-converter-warnings") == Get(swagger, "x-mir-converter-warnings")
              && Get(Entries(Get(out.value, "components")), "schemas")
                 == Some(Rewrite(GetOr(swagger, "definitions", Empty)))
  {
    if Get(swagger, "swagger") == Some(Str("2.0")) {
      var out := ToOpenApi3(swagger).value;
      GetAt(out, 0);
      GetAt(out, 1);
      GetAt(out, 2);
      GetAt(out, 4);
      GetJoined(out[..5], out[5..], WARNINGS);
      NotAmongFive(out[..5], WARNINGS);
      assert out == out[..5] + out[5..];
      GetAt(Entries(Get(out, "components")), 0);
    }
  }

  lemma NotAmongFive(fields: Fields, k: string)
    requires |fields| == 5 && forall i | 0 <= i < 5 :: fields[i].key != k
    ensures Get(fields, k) == None
  {
    assert Get(fields[4..], k) == None;
    assert Get(fields[3..], k) == Get(fields[4..], k);
    assert Get(fields[2..], k) == Get(fields[3..], k);
    assert Get(fields[1..], k) == Get(fields[2..], k);
  }
}
