/** spec.py: what dereferencing leaves, and the escapes in references. */
module References {
  import opened Vda5050
  import opened Json

  // ------------------------------------------------------------ dereferencing

  /** No schema within `j` is a reference: neither it, nor a schema of its members, items or alternatives. */
  predicate SelfContained(j: Json)
    decreases j
  {
    j.Obj? ==> forall i | 0 <= i < |j.fields| :: FieldContained(j.fields[i])
  }

  predicate FieldContained(f: Field)
    decreases f
  {
    && f.key != "$ref"
    && (f.key in {"properties", "patternProperties"} && f.value.Obj? ==>
          forall i | 0 <= i < |f.value.fields| :: SelfContained(f.value.fields[i].value))
    && (f.key in {"items", "additionalProperties", "not"} && f.value.Obj? ==> SelfContained(f.value))
    && (f.key in {"allOf", "anyOf", "oneOf"} && f.value.Arr? ==>
          forall i | 0 <= i < |f.value.items| :: SelfContained(f.value.items[i]))
  }

  /** Dereferencing returns a self-contained schema, whatever the document, cycles included. */
  lemma {:induction false} DerefIsSelfContained(document: Json, schema: Json, depth: nat)
    ensures var out := Deref(document, schema, depth); out.Some? ==> out.value.Obj? && SelfContained(out.value)
    decreases depth, 3, 0
  {
    if !Falsy(schema) && depth > 0 && schema.Obj? {
      match Get(schema.fields, "$ref")
      case Some(Str(ref)) =>
        if ResolveRef(document, ref).Some? {
          DerefIsSelfContained(document, ResolveRef(document, ref).value, depth - 1);
        }
      case Some(_) =>
      case None => FieldsAreContained(document, schema.fields, depth);
    }
  }

  lemma {:induction false} FieldsAreContained(document: Json, fields: seq<Field>, depth: nat)
    requires depth > 0 && Get(fields, "$ref") == None
    ensures var out := DerefFields(document, fields, depth); out.Some? ==> out.value.Obj? && SelfContained(out.value)
    decreases depth, 2, |fields|
  {
    if fields != [] {
      FieldIsContained(document, fields[0], depth);
      FieldsAreContained(document, fields[1..], depth);
    }
  }

  lemma {:induction false} FieldIsContained(document: Json, field: Field, depth: nat)
    requires depth > 0 && field.key != "$ref"
    ensures var out := DerefValue(document, field, depth); out.Some? ==> FieldContained(Field(field.key, out.value))
    decreases depth, 1, 0
  {
    var key, value := field.key, field.value;
    if key in ["properties", "patternProperties"] && value.Obj? {
      MembersAreContained(document, value.fields, depth - 1);
    } else if key in ["items", "additionalProperties", "not"] && value.Obj? {
      DerefIsSelfContained(document, value, depth - 1);
    } else if key in ["allOf", "anyOf", "oneOf"] && value.Arr? {
      ItemsAreContained(document, value.items, depth - 1);
    }
  }

  lemma {:induction false} MembersAreContained(document: Json, fields: seq<Field>, depth: nat)
    ensures var out := DerefMembers(document, fields, depth);
            out.Some? ==> out.value.Obj? && |out.value.fields| == |fields|
                          && forall i | 0 <= i < |fields| ::
                               out.value.fields[i].key == fields[i].key && SelfContained(out.value.fields[i].value)
    decreases depth, 4, |fields|
  {
    if fields != [] {
      DerefIsSelfContained(document, fields[0].value, depth);
      MembersAreContained(document, fields[1..], depth);
    }
  }

  lemma {:induction false} ItemsAreContained(document: Json, items: seq<Json>, depth: nat)
    ensures var out := DerefItems(document, items, depth);
            out.Some? ==> out.value.Arr? && |out.value.items| == |items|
                          && forall i | 0 <= i < |items| :: SelfContained(out.value.items[i])
    decreases depth, 4, |items|
  {
    if items != [] {
      DerefIsSelfContained(document, items[0], depth);
      ItemsAreContained(document, items[1..], depth);
    }
  }

  // ------------------------------------------------------------------ escapes

  /** A key as it is written into a reference (section 3 of RFC 6901). */
  function Escaped(key: string): string {
    if key == "" then ""
    else (if key[0] == '~' then "~0" else if key[0] == '/' then "~1" else [key[0]]) + Escaped(key[1..])
  }

  /** The same with the slashes back in place. */
  function HalfEscaped(key: string): string {
    if key == "" then "" else (if key[0] == '~' then "~0" else [key[0]]) + HalfEscaped(key[1..])
  }

  lemma {:induction false} SlashesReturn(key: string)
    ensures Replace(Escaped(key), "~1", "/") == HalfEscaped(key)
    decreases |key|
  {
    if key != "" {
      SlashesReturn(key[1..]);
      var rest := Escaped(key[1..]);
      if key[0] == '~' {
        TildeStays(rest, "~1", "/");
      } else if key[0] == '/' {
        assert Escaped(key)[..2] == "~1" && Escaped(key)[2..] == rest;
      } else {
        CharStays(key[0], rest, "~1", "/");
      }
    }
  }

  lemma CharStays(c: char, rest: string, from: string, to: string)
    requires |from| == 2 && from[0] == '~' && c != '~'
    ensures Replace([c] + rest, from, to) == [c] + Replace(rest, from, to)
  {
    assert ([c] + rest)[1..] == rest;
    if |rest| >= 1 { assert ([c] + rest)[..2][0] == c; }
    if rest == "" { assert Replace(rest, from, to) == ""; }
  }

  lemma TildeStays(rest: string, from: string, to: string)
    requires from == "~1"
    ensures Replace("~0" + rest, from, to) == "~0" + Replace(rest, from, to)
  {
    var s := "~0" + rest;
    assert s[..2] == "~0" && s[1..] == "0" + rest;
    CharStays('0', rest, from, to);
    assert "~" + ("0" + Replace(rest, from, to)) == "~0" + Replace(rest, from, to);
  }

  lemma {:induction false} TildesReturn(key: string)
    ensures Replace(HalfEscaped(key), "~0", "~") == key
    decreases |key|
  {
    if key != "" {
      TildesReturn(key[1..]);
      var rest := HalfEscaped(key[1..]);
      if key[0] == '~' {
        assert HalfEscaped(key)[..2] == "~0" && HalfEscaped(key)[2..] == rest;
      } else {
        CharStays(key[0], rest, "~0", "~");
      }
    }
  }

  /** Whatever a key is, the part of a reference that is written for it leads back to it. */
  lemma PointerRoundTrip(key: string)
    ensures Unescape(Escaped(key)) == key
  {
    SlashesReturn(key);
    TildesReturn(key);
  }
}
