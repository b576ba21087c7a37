/** openapi3.py and spec.py: converting Swagger 2.0 documents and resolving references in both. */
module OpenApi {
  import opened Vda5050
  import opened Json

  const SCHEMAS := "#/components/schemas/"

  /** `_rewrite_refs`. */
  function Rewrite(j: Json): Json
    decreases j
  {
    match j
    case Obj(fields) => Obj(RewriteFields(fields))
    case Arr(items) => Arr(RewriteItems(items))
    case _ => j
  }

  function RewriteFields(fields: seq<Field>): (r: seq<Field>)
    ensures |r| == |fields|
    decreases fields
  {
    if fields == [] then [] else [RewriteField(fields[0])] + RewriteFields(fields[1..])
  }

  function RewriteField(f: Field): Field
    decreases f
  {
    if f.key == "$ref" && f.value.Str? then Field(f.key, Str(Replace(f.value.text, DEFINITIONS, SCHEMAS)))
    else Field(f.key, Rewrite(f.value))
  }

  function RewriteItems(items: seq<Json>): (r: seq<Json>)
    ensures |r| == |items|
    decreases items
  {
    if items == [] then [] else [Rewrite(items[0])] + RewriteItems(items[1..])
  }

  function Rewritten(j: Option<Json>): Option<Json> {
    match j case None => None case Some(value) => Some(Rewrite(value))
  }

  function Definitions(swagger: Json): Json
    requires swagger.Obj?
  {
    match Get(swagger.fields, "definitions") case Some(d) => d case None => Empty
  }

  /** The part of the converted document that references lead into. */
  function Components(swagger: Json): Json
    requires swagger.Obj?
  {
    Obj([Field("schemas", Rewrite(Definitions(swagger))),
         Field("securitySchemes", Obj([Field("Basic",
           Obj([Field("type", Str("http")), Field("scheme", Str("basic"))]))]))])
  }

  /** A reference to a definition, as the documents of the supported subset write them. */
  predicate DefinitionRef(ref: string) {
    |ref| >= |DEFINITIONS| && ref[..|DEFINITIONS|] == DEFINITIONS && !Occurs(DEFINITIONS, ref[|DEFINITIONS|..])
  }

  /** Every reference in `j` is one to a definition. */
  predicate LocalRefs(j: Json)
    decreases j
  {
    match j
    case Obj(fields) => forall i | 0 <= i < |fields| :: LocalRef(fields[i])
    case Arr(items) => forall i | 0 <= i < |items| :: LocalRefs(items[i])
    case _ => true
  }

  predicate LocalRef(f: Field)
    decreases f
  {
    (f.key == "$ref" && f.value.Str? ==> DefinitionRef(f.value.text)) && LocalRefs(f.value)
  }

  /** `converted` carries the rewritten definitions of `swagger` where references look for them. */
  ghost predicate Converts(swagger: Json, converted: Json) {
    swagger.Obj? && converted.Obj? && Get(converted.fields, "components") == Some(Components(swagger))
  }

  // ------------------------------------------------------------ references

  lemma {:induction false} GetRewritten(fields: seq<Field>, key: string)
    ensures Get(RewriteFields(fields), key) ==
            match Get(fields, key) case None => None case Some(v) => Some(RewriteField(Field(key, v)).value)
    decreases |fields|
  {
    if fields != [] { GetRewritten(fields[1..], key); }
  }

  lemma {:induction false} GetLocal(fields: seq<Field>, key: string)
    requires forall i | 0 <= i < |fields| :: LocalRef(fields[i])
    ensures match Get(fields, key) case None => true case Some(v) => LocalRef(Field(key, v))
    decreases |fields|
  {
    if fields != [] && fields[0].key != key { GetLocal(fields[1..], key); }
  }

  /** What the two documents hold at corresponding places: the rewritten value, or two strings. */
  ghost predicate Corresponds(a: Option<Json>, b: Option<Json>) {
    match a
    case None => b == None
    case Some(x) =>
      b == Some(Rewrite(x))
      || (x.Str? && b.Some? && b.value.Str? && (x.text == "" <==> b.value.text == ""))
  }

  lemma {:induction false} WalkRewritten(node: Json, parts: seq<string>)
    requires LocalRefs(node)
    ensures Corresponds(Walk(node, parts), Walk(Rewrite(node), parts))
    ensures Walk(node, parts).Some? ==> LocalRefs(Walk(node, parts).value)
    decreases |parts|
  {
    if parts != [] && node.Obj? {
      var key := Unescape(parts[0]);
      GetRewritten(node.fields, key);
      GetLocal(node.fields, key);
      if v :| Get(node.fields, key) == Some(v) {
        if key == "$ref" && v.Str? {
          var text := Replace(v.text, DEFINITIONS, SCHEMAS);
          ReplaceNonEmpty(v.text, DEFINITIONS, SCHEMAS);
          assert Get(Rewrite(node).fields, key) == Some(Str(text));
          assert Walk(v, parts[1..]) == if parts[1..] == [] then Some(v) else None;
          assert Walk(Str(text), parts[1..]) == if parts[1..] == [] then Some(Str(text)) else None;
        } else {
          WalkRewritten(v, parts[1..]);
        }
      }
    }
  }

  lemma SplitSchemaRef(name: string)
    ensures Split((SCHEMAS + name)[2..], '/') == ["components", "schemas"] + Split(name, '/')
  {
    assert (SCHEMAS + name)[2..] == "components" + ['/'] + ("schemas" + ['/'] + name);
    SplitFirst("components", '/', "schemas" + ['/'] + name);
    SplitFirst("schemas", '/', name);
  }

  lemma RewrittenRef(ref: string)
    requires DefinitionRef(ref)
    ensures var name := ref[|DEFINITIONS|..];
            && Replace(ref, DEFINITIONS, SCHEMAS) == SCHEMAS + name
            && Split(ref[2..], '/') == ["definitions"] + Split(name, '/')
            && Split((SCHEMAS + name)[2..], '/') == ["components", "schemas"] + Split(name, '/')
  {
    var name := ref[|DEFINITIONS|..];
    ReplaceNothing(name, DEFINITIONS, SCHEMAS);
    assert ref == DEFINITIONS + name;
    assert Split(ref[2..], '/') == ["definitions"] + Split(name, '/') by {
      assert ref[2..] == "definitions" + ['/'] + name;
      SplitFirst("definitions", '/', name);
    }
    SplitSchemaRef(name);
  }

  lemma WalkInto(document: Json, key: string, parts: seq<string>)
    requires document.Obj? && Unescape(key) == key
    ensures Walk(document, [key] + parts)
         == match Get(document.fields, key) case Some(next) => Walk(next, parts) case None => None
  {
    assert ([key] + parts)[0] == key && ([key] + parts)[1..] == parts;
  }

  lemma PlainKeys()
    ensures Unescape("definitions") == "definitions"
    ensures Unescape("components") == "components"
    ensures Unescape("schemas") == "schemas"
  {
    Plain("definitions");
    Plain("components");
    Plain("schemas");
  }

  lemma Plain(key: string)
    requires '~' !in key
    ensures Unescape(key) == key
  {
    NoTilde(key, "~1");
    NoTilde(key, "~0");
    ReplaceNothing(key, "~1", "/");
    ReplaceNothing(key, "~0", "~");
  }

  lemma {:induction false} NoTilde(key: string, escape: string)
    requires '~' !in key && |escape| == 2 && escape[0] == '~'
    ensures !Occurs(escape, key)
    decreases |key|
  {
    if |key| >= 2 {
      assert key[..2][0] == key[0];
      NoTilde(key[1..], escape);
    }
  }

  lemma SwaggerResolves(swagger: Json, ref: string)
    requires swagger.Obj? && DefinitionRef(ref)
    ensures ResolveRef(swagger, ref)
         == match Get(swagger.fields, "definitions")
            case Some(d) => Walk(d, Split(ref[|DEFINITIONS|..], '/'))
            case None => None
  {
    RewrittenRef(ref);
    PlainKeys();
    assert ref[..2] == DEFINITIONS[..2] == "#/";
    WalkInto(swagger, "definitions", Split(ref[|DEFINITIONS|..], '/'));
  }

  lemma WalkIntoBoth(document: Json, inner: Json, first: string, second: string, parts: seq<string>)
    requires document.Obj? && Get(document.fields, first) == Some(inner) && inner.Obj?
    requires Unescape(first) == first && Unescape(second) == second
    ensures Walk(document, [first, second] + parts)
         == match Get(inner.fields, second) case Some(next) => Walk(next, parts) case None => None
  {
    assert [first, second] + parts == [first] + ([second] + parts);
    WalkInto(document, first, [second] + parts);
    WalkInto(inner, second, parts);
  }

  lemma ConvertedResolves(swagger: Json, converted: Json, ref: string)
    requires Converts(swagger, converted) && DefinitionRef(ref)
    ensures ResolveRef(converted, Replace(ref, DEFINITIONS, SCHEMAS))
         == Walk(Rewrite(Definitions(swagger)), Split(ref[|DEFINITIONS|..], '/'))
  {
    RewrittenRef(ref);
    assert Replace(ref, DEFINITIONS, SCHEMAS)[..2] == SCHEMAS[..2] == "#/";
    PlainKeys();
    WalkIntoBoth(converted, Components(swagger), "components", "schemas", Split(ref[|DEFINITIONS|..], '/'));
  }

  /** A rewritten reference leads to the rewritten target. */
  lemma RefResolves(swagger: Json, converted: Json, ref: string)
    requires Converts(swagger, converted) && LocalRefs(Definitions(swagger)) && DefinitionRef(ref)
    ensures Corresponds(ResolveRef(swagger, ref), ResolveRef(converted, Replace(ref, DEFINITIONS, SCHEMAS)))
    ensures ResolveRef(swagger, ref).Some? ==> LocalRefs(ResolveRef(swagger, ref).value)
  {
    var parts := Split(ref[|DEFINITIONS|..], '/');
    SwaggerResolves(swagger, ref);
    ConvertedResolves(swagger, converted, ref);
    WalkRewritten(Definitions(swagger), parts);
    MissingDefinitions(swagger, parts);
  }

  /** Without definitions neither document resolves anything. */
  lemma MissingDefinitions(swagger: Json, parts: seq<string>)
    requires swagger.Obj? && parts != []
    ensures Get(swagger.fields, "definitions") == None ==> Walk(Rewrite(Definitions(swagger)), parts) == None
  {
  }

  // ---------------------------------------------------------- commuting

  lemma {:induction false} FalsyRewritten(j: Json)
    ensures Falsy(Rewrite(j)) == Falsy(j)
  {
  }

  /** Dereferencing in the converted document is rewriting what dereferencing in the original
      gives, at every depth, with references that go round in circles among them; and where the
      original raises, so does the converted one. */
  lemma {:induction false} DerefCommutes(swagger: Json, converted: Json, schema: Json, depth: nat)
    requires Converts(swagger, converted) && LocalRefs(Definitions(swagger)) && LocalRefs(schema)
    ensures Deref(converted, Rewrite(schema), depth) == Rewritten(Deref(swagger, schema, depth))
    decreases depth, 3, 0
  {
    FalsyRewritten(schema);
    if !Falsy(schema) && depth > 0 && schema.Obj? {
      GetRewritten(schema.fields, "$ref");
      GetLocal(schema.fields, "$ref");
      match Get(schema.fields, "$ref")
      case Some(Str(ref)) =>
        RefResolves(swagger, converted, ref);
        if target :| ResolveRef(swagger, ref) == Some(target) { DerefTarget(swagger, converted, ref, target, depth); }
      case Some(other) => RewrittenKind(other);
      case None =>
        NoRefKey(schema.fields);
        FieldsCommute(swagger, converted, schema.fields, depth);
    }
  }

  lemma RewrittenKind(j: Json)
    ensures Rewrite(j).Str? == j.Str? && Rewrite(j).Obj? == j.Obj? && Rewrite(j).Arr? == j.Arr?
  {
  }

  lemma {:induction false} NoRefKey(fields: seq<Field>)
    requires Get(fields, "$ref") == None
    ensures forall i | 0 <= i < |fields| :: fields[i].key != "$ref"
    decreases |fields|
  {
    if fields != [] {
      NoRefKey(fields[1..]);
      forall i | 0 < i < |fields| ensures fields[i].key != "$ref" { assert fields[i] == fields[1..][i - 1]; }
    }
  }

  lemma {:induction false} DerefTarget(swagger: Json, converted: Json, ref: string, target: Json, depth: nat)
    requires Converts(swagger, converted) && LocalRefs(Definitions(swagger)) && DefinitionRef(ref) && depth > 0
    requires ResolveRef(swagger, ref) == Some(target) && LocalRefs(target)
    ensures var found := ResolveRef(converted, Replace(ref, DEFINITIONS, SCHEMAS));
            found.Some? && Deref(converted, found.value, depth - 1) == Rewritten(Deref(swagger, target, depth - 1))
    decreases depth, 0, 0
  {
    RefResolves(swagger, converted, ref);
    var found := ResolveRef(converted, Replace(ref, DEFINITIONS, SCHEMAS)).value;
    if found == Rewrite(target) { DerefCommutes(swagger, converted, target, depth - 1); }
  }

  lemma {:induction false} FieldsCommute(swagger: Json, converted: Json, fields: seq<Field>, depth: nat)
    requires Converts(swagger, converted) && LocalRefs(Definitions(swagger)) && depth > 0
    requires forall i | 0 <= i < |fields| :: LocalRef(fields[i])
    requires forall i | 0 <= i < |fields| :: fields[i].key != "$ref"
    ensures DerefFields(converted, RewriteFields(fields), depth) == Rewritten(DerefFields(swagger, fields, depth))
    decreases depth, 2, |fields|
  {
    if fields != [] {
      assert LocalRef(fields[0]) && fields[0].key != "$ref";
      FieldsCommute(swagger, converted, fields[1..], depth);
      ValueCommutes(swagger, converted, fields[0], depth);
      FieldsKind(swagger, fields[1..], depth);
      PutBack(fields[0].key, DerefValue(swagger, fields[0], depth), DerefFields(swagger, fields[1..], depth));
    }
  }

  lemma {:induction false} FieldsKind(document: Json, fields: seq<Field>, depth: nat)
    requires depth > 0
    ensures DerefFields(document, fields, depth).Some? ==> DerefFields(document, fields, depth).value.Obj?
    decreases |fields|
  {
    if fields != [] { FieldsKind(document, fields[1..], depth); }
  }

  /** Rewriting what was put in front of a rewritten rest. */
  lemma PutBack(key: string, value: Option<Json>, rest: Option<Json>)
    ensures key != "$ref" || (value.Some? && !value.value.Str?) ==>
              value.Some? && rest.Some? && rest.value.Obj? ==>
                Rewrite(Obj([Field(key, value.value)] + rest.value.fields))
                == Obj([Field(key, Rewrite(value.value))] + Rewrite(rest.value).fields)
  {
    if value.Some? && rest.Some? && rest.value.Obj? {
      var all := [Field(key, value.value)] + rest.value.fields;
      assert all[0] == Field(key, value.value) && all[1..] == rest.value.fields;
      assert RewriteFields(all) == [RewriteField(all[0])] + RewriteFields(all[1..]);
    }
  }

  lemma {:induction false} ValueCommutes(swagger: Json, converted: Json, field: Field, depth: nat)
    requires Converts(swagger, converted) && LocalRefs(Definitions(swagger)) && depth > 0
    requires LocalRef(field) && field.key != "$ref"
    ensures DerefValue(converted, RewriteField(field), depth) == Rewritten(DerefValue(swagger, field, depth))
    decreases depth, 1, 0
  {
    var key, value := field.key, field.value;
    RewrittenKind(value);
    if key in ["properties", "patternProperties"] && value.Obj? {
      MembersCommute(swagger, converted, value.fields, depth - 1);
    } else if key in ["items", "additionalProperties", "not"] && value.Obj? {
      DerefCommutes(swagger, converted, value, depth - 1);
    } else if key in ["allOf", "anyOf", "oneOf"] && value.Arr? {
      ItemsCommute(swagger, converted, value.items, depth - 1);
    }
  }

  /** A dereferenced schema is an object. */
  lemma {:induction false} DerefIsObject(document: Json, schema: Json, depth: nat)
    ensures Deref(document, schema, depth).Some? ==> Deref(document, schema, depth).value.Obj?
    decreases depth
  {
    if !Falsy(schema) && depth > 0 && schema.Obj? {
      match Get(schema.fields, "$ref")
      case Some(Str(ref)) =>
        if target :| ResolveRef(document, ref) == Some(target) { DerefIsObject(document, target, depth - 1); }
      case Some(_) =>
      case None => FieldsKind(document, schema.fields, depth);
    }
  }

  lemma {:induction false} MemberCommutes(swagger: Json, converted: Json, f: Field, depth: nat)
    requires Converts(swagger, converted) && LocalRefs(Definitions(swagger)) && LocalRef(f)
    ensures Deref(converted, RewriteField(f).value, depth) == Rewritten(Deref(swagger, f.value, depth))
    decreases depth, 5, 0
  {
    if f.key == "$ref" && f.value.Str? {
      ReplaceNonEmpty(f.value.text, DEFINITIONS, SCHEMAS);
    } else {
      DerefCommutes(swagger, converted, f.value, depth);
    }
  }

  lemma {:induction false} MembersCommute(swagger: Json, converted: Json, fields: seq<Field>, depth: nat)
    requires Converts(swagger, converted) && LocalRefs(Definitions(swagger))
    requires forall i | 0 <= i < |fields| :: LocalRef(fields[i])
    ensures DerefMembers(converted, RewriteFields(fields), depth) == Rewritten(DerefMembers(swagger, fields, depth))
    ensures DerefMembers(swagger, fields, depth).Some? ==> DerefMembers(swagger, fields, depth).value.Obj?
    decreases depth, 6, |fields|
  {
    if fields != [] {
      assert LocalRef(fields[0]);
      MembersCommute(swagger, converted, fields[1..], depth);
      MemberCommutes(swagger, converted, fields[0], depth);
      DerefIsObject(swagger, fields[0].value, depth);
      PutBack(fields[0].key, Deref(swagger, fields[0].value, depth), DerefMembers(swagger, fields[1..], depth));
    }
  }

  lemma {:induction false} ItemsCommute(swagger: Json, converted: Json, items: seq<Json>, depth: nat)
    requires Converts(swagger, converted) && LocalRefs(Definitions(swagger))
    requires forall i | 0 <= i < |items| :: LocalRefs(items[i])
    ensures DerefItems(converted, RewriteItems(items), depth) == Rewritten(DerefItems(swagger, items, depth))
    ensures DerefItems(swagger, items, depth).Some? ==> DerefItems(swagger, items, depth).value.Arr?
    decreases depth, 6, |items|
  {
    if items != [] {
      ItemsCommute(swagger, converted, items[1..], depth);
      DerefCommutes(swagger, converted, items[0], depth);
      var first, rest := Deref(swagger, items[0], depth), DerefItems(swagger, items[1..], depth);
      if first.Some? && rest.Some? {
        var all := [first.value] + rest.value.items;
        assert all[0] == first.value && all[1..] == rest.value.items;
        assert RewriteItems(all) == [Rewrite(all[0])] + RewriteItems(all[1..]);
      }
    }
  }
}
