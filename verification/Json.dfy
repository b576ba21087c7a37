/** JSON documents, the string operations applied to them, and references into them. */
module Json {
  import opened Vda5050

  /** A dictionary keeps its keys in insertion order; a lookup takes the first. */
  datatype Json =
    | Null
    | Bool(flag: bool)
    | Number(value: real)
    | Str(text: string)
    | Arr(items: seq<Json>)
    | Obj(fields: seq<Field>)

  datatype Field = Field(key: string, value: Json)

  const Empty := Obj([])

  /** What a reference to a definition of a Swagger 2.0 document starts with. */
  const DEFINITIONS := "#/definitions/"

  function Get(fields: seq<Field>, key: string): Option<Json> {
    if fields == [] then None
    else if fields[0].key == key then Some(fields[0].value)
    else Get(fields[1..], key)
  }

  /** What Python takes for false. */
  predicate Falsy(j: Json) {
    match j
    case Null => true
    case Bool(flag) => !flag
    case Number(value) => value == 0.0
    case Str(text) => text == ""
    case Arr(items) => items == []
    case Obj(fields) => fields == []
  }

  /** `str.replace`: every occurrence from left to right. */
  function Replace(s: string, from: string, to: string): string
    requires from != ""
    decreases |s|
  {
    if |s| < |from| then s
    else if s[..|from|] == from then to + Replace(s[|from|..], from, to)
    else [s[0]] + Replace(s[1..], from, to)
  }

  predicate Occurs(from: string, s: string)
    requires from != ""
    decreases |s|
  {
    |s| >= |from| && (s[..|from|] == from || Occurs(from, s[1..]))
  }

  /** `str.split` at one character. */
  function Split(s: string, at: char): (parts: seq<string>)
    ensures parts != []
  {
    if s == "" then [""]
    else
      var rest := Split(s[1..], at);
      if s[0] == at then [""] + rest else [[s[0]] + rest[0]] + rest[1..]
  }

  lemma {:induction false} ReplaceNothing(s: string, from: string, to: string)
    requires from != "" && !Occurs(from, s)
    ensures Replace(s, from, to) == s
    decreases |s|
  {
    if |s| >= |from| { ReplaceNothing(s[1..], from, to); }
  }

  lemma {:induction false} ReplaceNonEmpty(s: string, from: string, to: string)
    requires from != "" && to != ""
    ensures Replace(s, from, to) == "" <==> s == ""
    decreases |s|
  {
  }

  lemma {:induction false} SplitFirst(first: string, at: char, rest: string)
    requires at !in first
    ensures Split(first + [at] + rest, at) == [first] + Split(rest, at)
    decreases |first|
  {
    var s := first + [at] + rest;
    if first == "" {
      assert s[1..] == rest;
    } else {
      assert s[1..] == first[1..] + [at] + rest && s[0] == first[0];
      SplitFirst(first[1..], at, rest);
      assert [first[0]] + first[1..] == first;
    }
  }

  // ------------------------------------------------------------ references

  /** JSON pointer escapes. */
  function Unescape(part: string): string { Replace(Replace(part, "~1", "/"), "~0", "~") }

  function Walk(node: Json, parts: seq<string>): Option<Json>
    decreases |parts|
  {
    if parts == [] then Some(node)
    else
      match node
      case Obj(fields) =>
        (match Get(fields, Unescape(parts[0]))
         case Some(next) => Walk(next, parts[1..])
         case None => None)
      case _ => None
  }

  /** `resolve_ref`; `None` where the original raises. */
  function ResolveRef(document: Json, ref: string): Option<Json> {
    if |ref| < 2 || ref[..2] != "#/" then None else Walk(document, Split(ref[2..], '/'))
  }

  /** `deref`: a copy with the references inlined, the empty schema beyond `depth`. `None` where the
      original raises. */
  function Deref(document: Json, schema: Json, depth: nat): Option<Json>
    decreases depth, 3, 0
  {
    if Falsy(schema) || depth == 0 then Some(Empty)
    else
      match schema
      case Obj(fields) =>
        (match Get(fields, "$ref")
         case Some(Str(ref)) =>
           (match ResolveRef(document, ref)
            case Some(target) => Deref(document, target, depth - 1)
            case None => None)
         case Some(_) => None
         case None => DerefFields(document, fields, depth))
      case _ => None
  }

  function DerefFields(document: Json, fields: seq<Field>, depth: nat): Option<Json>
    requires depth > 0
    decreases depth, 2, |fields|
  {
    if fields == [] then Some(Empty)
    else
      match DerefValue(document, fields[0], depth)
      case None => None
      case Some(value) =>
        (match DerefFields(document, fields[1..], depth)
         case Some(Obj(rest)) => Some(Obj([Field(fields[0].key, value)] + rest))
         case _ => None)
  }

  /** One keyword of a schema: those that hold schemas are dereferenced, others copied. */
  function DerefValue(document: Json, field: Field, depth: nat): Option<Json>
    requires depth > 0
    decreases depth, 1, 0
  {
    var key, value := field.key, field.value;
    if key in ["properties", "patternProperties"] && value.Obj? then DerefMembers(document, value.fields, depth - 1)
    else if key in ["items", "additionalProperties", "not"] && value.Obj? then Deref(document, value, depth - 1)
    else if key in ["allOf", "anyOf", "oneOf"] && value.Arr? then DerefItems(document, value.items, depth - 1)
    else Some(value)
  }

  function DerefMembers(document: Json, fields: seq<Field>, depth: nat): Option<Json>
    decreases depth, 4, |fields|
  {
    if fields == [] then Some(Empty)
    else
      match Deref(document, fields[0].value, depth)
      case None => None
      case Some(value) =>
        (match DerefMembers(document, fields[1..], depth)
         case Some(Obj(rest)) => Some(Obj([Field(fields[0].key, value)] + rest))
         case _ => None)
  }

  function DerefItems(document: Json, items: seq<Json>, depth: nat): Option<Json>
    decreases depth, 4, |items|
  {
    if items == [] then Some(Arr([]))
    else
      match Deref(document, items[0], depth)
      case None => None
      case Some(item) =>
        (match DerefItems(document, items[1..], depth)
         case Some(Arr(rest)) => Some(Arr([item] + rest))
         case _ => None)
  }
}
