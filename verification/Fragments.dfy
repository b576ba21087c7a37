/** pdf_convert.py: folding sub-object tables back into the definitions that mention them. */
module Fragments {
  import opened Vda5050
  import opened Json

  /** The converter's document tree. Only which keys a dictionary has matters here, not their order. */
  datatype Node = Leaf(value: Json) | List(items: seq<Node>) | Dict(entries: map<string, Node>)

  type Entries = map<string, Node>

  type Definitions = map<string, Entries>

  datatype Document = Document(paths: Node, definitions: Definitions)

  /** `rsplit("/", 1)[-1]`. */
  function LastPart(s: string): string {
    if '/' !in s then s else LastPart(s[1..])
  }

  /** The definition an object refers to. */
  function Target(e: Entries): Option<string> {
    if "$ref" in e && e["$ref"].Leaf? && e["$ref"].value.Str? && DEFINITIONS <= e["$ref"].value.text
    then Some(LastPart(e["$ref"].value.text))
    else None
  }

  /** A definition whose name starts in lower case is a fragment of another one. */
  predicate IsFragment(name: string) { name != "" && 'a' <= name[0] <= 'z' }

  function FragmentsOf(definitions: Definitions): Definitions {
    map f | f in definitions && IsFragment(f) :: definitions[f]
  }

  lemma {:induction false} LastPartIsLast(s: string, before: string, name: string)
    requires s == before + name && '/' !in name
    requires before != "" ==> before[|before| - 1] == '/'
    ensures LastPart(s) == name
    decreases |s|
  {
    if before != "" {
      assert s[|before| - 1] == '/';
      assert s[1..] == before[1..] + name;
      LastPartIsLast(s[1..], before[1..], name);
    }
  }

  /** An object refers to the definition `name` where its `$ref` is a text that starts as a reference to
      definitions does and goes on to `name`, which has no slash; any other object refers to none. */
  lemma TargetIsExact(e: Entries, name: string)
    ensures (exists before: string ::
               "$ref" in e && e["$ref"] == Leaf(Str(before + name)) && '/' !in name
               && "#/definitions/" <= before && before[|before| - 1] == '/') ==> Target(e) == Some(name)
    ensures !("$ref" in e && e["$ref"].Leaf? && e["$ref"].value.Str?) ==> Target(e) == None
    ensures "$ref" in e && e["$ref"].Leaf? && e["$ref"].value.Str? && !("#/definitions/" <= e["$ref"].value.text) ==>
              Target(e) == None
  {
    if before: string :| "$ref" in e && e["$ref"] == Leaf(Str(before + name)) && '/' !in name
                         && "#/definitions/" <= before && before[|before| - 1] == '/' {
      LastPartIsLast(before + name, before, name);
    }
  }

  /** Fragments are the definitions whose names start with one of the letters a to z. */
  lemma FragmentNames(definitions: Definitions, f: string)
    ensures f in FragmentsOf(definitions) <==>
              f in definitions && f != "" && f[0] in "abcdefghijklmnopqrstuvwxyz"
  {
    var letters := "abcdefghijklmnopqrstuvwxyz";
    if f != "" && 'a' <= f[0] <= 'z' { assert letters[f[0] as int - 'a' as int] == f[0]; }
  }

  // ------------------------------------------------------------- inlining

  /** A reference to a fragment that is not being folded in already. */
  predicate Inlines(subs: Definitions, e: Entries, stack: set<string>) {
    Target(e).Some? && Target(e).value in subs && Target(e).value !in stack
  }

  /** `resolve`. */
  function Resolve(subs: Definitions, n: Node, stack: set<string>): Node
    decreases subs.Keys - stack, n, 2
  {
    match n
    case Leaf(_) => n
    case List(items) => List(seq(|items|, i requires 0 <= i < |items| => Resolve(subs, items[i], stack)))
    case Dict(e) => Dict(ResolveObject(subs, e, stack))
  }

  function ResolveObject(subs: Definitions, e: Entries, stack: set<string>): Entries
    decreases subs.Keys - stack, Dict(e), 1
  {
    if Inlines(subs, e, stack) then
      ResolveObject(subs, subs[Target(e).value], stack + {Target(e).value}) + (e - {"$ref"})
    else ResolveEach(subs, e, stack)
  }

  function ResolveEach(subs: Definitions, e: Entries, stack: set<string>): Entries
    decreases subs.Keys - stack, Dict(e), 0
  {
    map k | k in e :: Resolve(subs, e[k], stack)
  }

  /** `_inline_sub_schemas`. */
  function Inlined(doc: Document): Document {
    var subs := FragmentsOf(doc.definitions);
    Document(Resolve(subs, doc.paths, {}),
             map name | name in doc.definitions && name !in subs :: ResolveObject(subs, doc.definitions[name], {}))
  }

  // ----------------------------------------------------------- references

  /** Every definition referred to, at any place. */
  function RefsIn(n: Node): set<string>
    decreases n
  {
    match n
    case Leaf(_) => {}
    case List(items) => set i, r | 0 <= i < |items| && r in RefsIn(items[i]) :: r
    case Dict(e) => OwnRef(e) + set k, r | k in e && r in RefsIn(e[k]) :: r
  }

  function OwnRef(e: Entries): set<string> {
    match Target(e) case Some(name) => {name} case None => {}
  }

  function DocumentRefs(doc: Document): set<string> {
    RefsIn(doc.paths) + set f, r | f in doc.definitions && r in RefsIn(Dict(doc.definitions[f])) :: r
  }

  // -------------------------------------------------------------- meaning

  datatype Tree = Cut | Value(value: Json) | Row(items: seq<Tree>) | Object(entries: map<string, Tree>)

  /** A schema written out, following at most `fuel` references on the way to any place. What lies
      beyond, or behind a reference to nothing, is cut off. */
  function Unfold(defs: Definitions, n: Node, fuel: nat): Tree
    decreases fuel, n, 2
  {
    match n
    case Leaf(value) => Value(value)
    case List(items) => Row(seq(|items|, i requires 0 <= i < |items| => Unfold(defs, items[i], fuel)))
    case Dict(e) => UnfoldObject(defs, e, fuel)
  }

  function UnfoldObject(defs: Definitions, e: Entries, fuel: nat): Tree
    decreases fuel, Dict(e), 1
  {
    match Target(e)
    case None => Object(UnfoldEach(defs, e, fuel))
    case Some(name) =>
      if fuel == 0 || name !in defs then Cut
      else Overlay(UnfoldObject(defs, defs[name], fuel - 1), UnfoldEach(defs, e, fuel) - {"$ref"})
  }

  function UnfoldEach(defs: Definitions, e: Entries, fuel: nat): map<string, Tree>
    decreases fuel, Dict(e), 0
  {
    map k | k in e :: Unfold(defs, e[k], fuel)
  }

  /** What stands beside a reference takes precedence. */
  function Overlay(t: Tree, beside: map<string, Tree>): Tree {
    if t.Object? then Object(t.entries + beside) else Cut
  }

  /** `b` is `a`, written out at least as far. */
  ghost predicate Below(a: Tree, b: Tree)
    decreases a
  {
    match a
    case Cut => true
    case Value(_) => a == b
    case Row(items) => b.Row? && |b.items| == |items| && forall i | 0 <= i < |items| :: Below(items[i], b.items[i])
    case Object(e) => b.Object? && b.entries.Keys == e.Keys && forall k | k in e :: Below(e[k], b.entries[k])
  }

  ghost predicate BelowEach(a: map<string, Tree>, b: map<string, Tree>) {
    a.Keys == b.Keys && forall k | k in a :: Below(a[k], b[k])
  }

  lemma OverlayBelow(t: Tree, u: Tree, a: map<string, Tree>, b: map<string, Tree>)
    requires Below(t, u) && BelowEach(a, b)
    ensures Below(Overlay(t, a), Overlay(u, b))
  {
  }

  /** Unfolding an object that was folded into its reference. */
  lemma OverlayTwice(t: Tree, own: map<string, Tree>, beside: map<string, Tree>)
    requires "$ref" !in beside
    ensures Overlay(t, (own + beside) - {"$ref"}) == Overlay(Overlay(t, own - {"$ref"}), beside)
  {
    assert (own + beside) - {"$ref"} == (own - {"$ref"}) + beside;
    if t.Object? { assert t.entries + ((own - {"$ref"}) + beside) == (t.entries + (own - {"$ref"})) + beside; }
  }

  lemma UnfoldFolded(defs: Definitions, r: Entries, e: Entries, fuel: nat)
    ensures UnfoldObject(defs, r + (e - {"$ref"}), fuel)
         == Overlay(UnfoldObject(defs, r, fuel), UnfoldEach(defs, e, fuel) - {"$ref"})
  {
    var all := r + (e - {"$ref"});
    assert Target(all) == Target(r);
    var own, beside := UnfoldEach(defs, r, fuel), UnfoldEach(defs, e, fuel) - {"$ref"};
    assert UnfoldEach(defs, all, fuel) == own + beside;
    if Target(r).Some? && fuel > 0 && Target(r).value in defs {
      OverlayTwice(UnfoldObject(defs, defs[Target(r).value], fuel - 1), own, beside);
    }
  }

  // -------------------------------------------- nothing is made up

  /** How many references of the original stand behind `n` of the converted document. */
  function Cost(n: nat, fragments: nat): nat {
    if n == 0 then 0 else Cost(n - 1, fragments) + fragments + 1
  }

  function Reserve(subs: Definitions, stack: set<string>): nat { |subs.Keys - stack| }

  lemma ReserveDrops(subs: Definitions, stack: set<string>, name: string)
    requires name in subs && name !in stack
    ensures Reserve(subs, stack) == Reserve(subs, stack + {name}) + 1
  {
    assert subs.Keys - (stack + {name}) == (subs.Keys - stack) - {name};
  }

  lemma ReserveFull(subs: Definitions)
    ensures Reserve(subs, {}) == |subs|
  {
    assert subs.Keys - {} == subs.Keys;
  }

  /** One more reference may be followed in `a` to `name`, and in `b` as well. */
  ghost predicate BelowBehind(a: Definitions, b: Definitions, name: string, n: nat, m: nat) {
    n > 0 && name in a ==>
      m > 0 && name in b && Below(UnfoldObject(a, a[name], n - 1), UnfoldObject(b, b[name], m - 1))
  }

  /** Two objects compare as their entries and the definitions they refer to do. */
  lemma ObjectBelow(a: Definitions, b: Definitions, e: Entries, f: Entries, n: nat, m: nat)
    requires Target(e) == Target(f)
    requires BelowEach(UnfoldEach(a, e, n), UnfoldEach(b, f, m))
    requires Target(e).Some? ==> BelowBehind(a, b, Target(e).value, n, m)
    ensures Below(UnfoldObject(a, e, n), UnfoldObject(b, f, m))
  {
    if Target(e).Some? && n > 0 && Target(e).value in a {
      OverlayBelow(UnfoldObject(a, a[Target(e).value], n - 1), UnfoldObject(b, b[Target(e).value], m - 1),
                   UnfoldEach(a, e, n) - {"$ref"}, UnfoldEach(b, f, m) - {"$ref"});
    }
  }

  /** What was copied without resolving, from beside a reference. */
  lemma {:induction false} CopiedIsBelow(doc: Document, n: Node, fuel: nat, more: nat)
    requires more >= Cost(fuel, |FragmentsOf(doc.definitions)|)
    ensures Below(Unfold(Inlined(doc).definitions, n, fuel), Unfold(doc.definitions, n, more))
    decreases fuel, 1, FragmentsOf(doc.definitions).Keys, n
  {
    var defs := Inlined(doc).definitions;
    match n
    case Leaf(_) =>
    case List(items) =>
      forall i | 0 <= i < |items| ensures Below(Unfold(defs, items[i], fuel), Unfold(doc.definitions, items[i], more)) {
        CopiedIsBelow(doc, items[i], fuel, more);
      }
    case Dict(e) =>
      forall k | k in e ensures Below(Unfold(defs, e[k], fuel), Unfold(doc.definitions, e[k], more)) {
        CopiedIsBelow(doc, e[k], fuel, more);
      }
      if Target(e).Some? { ReferenceIsBelow(doc, Target(e).value, fuel, more); }
      ObjectBelow(defs, doc.definitions, e, e, fuel, more);
  }

  lemma {:induction false} ReferenceIsBelow(doc: Document, name: string, fuel: nat, more: nat)
    requires more >= Cost(fuel, |FragmentsOf(doc.definitions)|)
    ensures BelowBehind(Inlined(doc).definitions, doc.definitions, name, fuel, more)
    decreases fuel, 0
  {
    if fuel > 0 && name in Inlined(doc).definitions { DefinitionIsBelow(doc, name, fuel - 1, more - 1); }
  }

  lemma {:induction false} DefinitionIsBelow(doc: Document, name: string, fuel: nat, more: nat)
    requires name in Inlined(doc).definitions
    requires more >= Cost(fuel, |FragmentsOf(doc.definitions)|) + |FragmentsOf(doc.definitions)|
    ensures Below(UnfoldObject(Inlined(doc).definitions, Inlined(doc).definitions[name], fuel),
                  UnfoldObject(doc.definitions, doc.definitions[name], more))
    decreases fuel, 4
  {
    ReserveFull(FragmentsOf(doc.definitions));
    ResolvedObjectIsBelow(doc, doc.definitions[name], {}, fuel, more);
  }

  lemma {:induction false} ResolvedIsBelow(doc: Document, n: Node, stack: set<string>, fuel: nat, more: nat)
    requires more >= Cost(fuel, |FragmentsOf(doc.definitions)|) + Reserve(FragmentsOf(doc.definitions), stack)
    ensures Below(Unfold(Inlined(doc).definitions, Resolve(FragmentsOf(doc.definitions), n, stack), fuel),
                  Unfold(doc.definitions, n, more))
    decreases fuel, 3, FragmentsOf(doc.definitions).Keys - stack, n, 1
  {
    match n
    case Leaf(_) =>
    case List(items) =>
      forall i | 0 <= i < |items|
        ensures Below(Unfold(Inlined(doc).definitions, Resolve(FragmentsOf(doc.definitions), items[i], stack), fuel),
                      Unfold(doc.definitions, items[i], more))
      { ResolvedIsBelow(doc, items[i], stack, fuel, more); }
    case Dict(e) => ResolvedObjectIsBelow(doc, e, stack, fuel, more);
  }

  lemma {:induction false} ResolvedObjectIsBelow(doc: Document, e: Entries, stack: set<string>, fuel: nat, more: nat)
    requires more >= Cost(fuel, |FragmentsOf(doc.definitions)|) + Reserve(FragmentsOf(doc.definitions), stack)
    ensures Below(UnfoldObject(Inlined(doc).definitions, ResolveObject(FragmentsOf(doc.definitions), e, stack), fuel),
                  UnfoldObject(doc.definitions, e, more))
    decreases fuel, 3, FragmentsOf(doc.definitions).Keys - stack, Dict(e), 0
  {
    var subs, defs := FragmentsOf(doc.definitions), Inlined(doc).definitions;
    if Inlines(subs, e, stack) {
      var name := Target(e).value;
      ReserveDrops(subs, stack, name);
      ResolvedObjectIsBelow(doc, subs[name], stack + {name}, fuel, more - 1);
      FoldedIsBelow(doc, e, ResolveObject(subs, subs[name], stack + {name}), fuel, more);
    } else {
      var r := ResolveEach(subs, e, stack);
      SameTarget(subs, e, stack);
      forall k | k in e ensures Below(Unfold(defs, r[k], fuel), Unfold(doc.definitions, e[k], more)) {
        ResolvedIsBelow(doc, e[k], stack, fuel, more);
      }
      if Target(e).Some? { ReferenceIsBelow(doc, Target(e).value, fuel, more); }
      ObjectBelow(defs, doc.definitions, r, e, fuel, more);
    }
  }

  lemma FoldedIsBelow(doc: Document, e: Entries, r: Entries, fuel: nat, more: nat)
    requires more >= Cost(fuel, |FragmentsOf(doc.definitions)|) && more > 0
    requires Target(e).Some? && Target(e).value in doc.definitions
    requires Below(UnfoldObject(Inlined(doc).definitions, r, fuel),
                   UnfoldObject(doc.definitions, doc.definitions[Target(e).value], more - 1))
    ensures Below(UnfoldObject(Inlined(doc).definitions, r + (e - {"$ref"}), fuel),
                  UnfoldObject(doc.definitions, e, more))
    decreases fuel, 2
  {
    var defs := Inlined(doc).definitions;
    UnfoldFolded(defs, r, e, fuel);
    forall k | k in e ensures Below(Unfold(defs, e[k], fuel), Unfold(doc.definitions, e[k], more)) {
      CopiedIsBelow(doc, e[k], fuel, more);
    }
    OverlayBelow(UnfoldObject(defs, r, fuel), UnfoldObject(doc.definitions, doc.definitions[Target(e).value], more - 1),
                 UnfoldEach(defs, e, fuel) - {"$ref"}, UnfoldEach(doc.definitions, e, more) - {"$ref"});
  }

  lemma SameTarget(subs: Definitions, e: Entries, stack: set<string>)
    ensures Target(ResolveEach(subs, e, stack)) == Target(e)
  {
    if "$ref" in e { assert ResolveEach(subs, e, stack)["$ref"] == Resolve(subs, e["$ref"], stack); }
  }

  // ------------------------------------------------ what the builder makes

  /** Beside a reference to a fragment stands at most a description. */
  predicate Described(subs: Definitions, n: Node)
    decreases n
  {
    match n
    case Leaf(_) => true
    case List(items) => forall i | 0 <= i < |items| :: Described(subs, items[i])
    case Dict(e) =>
      && (Target(e).Some? && Target(e).value in subs ==> DescriptionOnly(e - {"$ref"}))
      && forall k | k in e :: Described(subs, e[k])
  }

  predicate DescriptionOnly(e: Entries) { forall k | k in e :: k == "description" && e[k].Leaf? }

  predicate PlainDescription(e: Entries) { "description" in e ==> e["description"].Leaf? }

  predicate DescribedFragments(subs: Definitions) {
    forall f | f in subs :: Described(subs, Dict(subs[f])) && PlainDescription(subs[f])
  }

  /** What the document builder makes of a PDF. */
  predicate Built(doc: Document) {
    var subs := FragmentsOf(doc.definitions);
    && DescribedFragments(subs)
    && Described(subs, doc.paths)
    && forall f | f in doc.definitions :: Described(subs, Dict(doc.definitions[f]))
  }

  // ------------------------------------------------- references left over

  /** A way from `n` along references to fragments. */
  predicate Leads(subs: Definitions, n: Node, trail: seq<string>) {
    && trail != []
    && trail[0] in RefsIn(n)
    && (forall i | 0 <= i < |trail| :: trail[i] in subs)
    && forall i | 0 < i < |trail| :: trail[i] in RefsIn(Dict(subs[trail[i - 1]]))
  }

  /** `trail` ends where it came by before, or at one of `stack`. */
  predicate Returns(trail: seq<string>, stack: set<string>) {
    trail != [] && (trail[|trail| - 1] in stack || trail[|trail| - 1] in trail[..|trail| - 1])
  }

  ghost predicate ReachesCycle(subs: Definitions, n: Node) {
    exists trail :: Leads(subs, n, trail) && Returns(trail, {})
  }

  lemma {:induction false} ResolvedDescription(subs: Definitions, e: Entries, stack: set<string>)
    requires DescribedFragments(subs) && Described(subs, Dict(e)) && PlainDescription(e)
    ensures PlainDescription(ResolveObject(subs, e, stack))
    decreases subs.Keys - stack
  {
    if Inlines(subs, e, stack) {
      ResolvedDescription(subs, subs[Target(e).value], stack + {Target(e).value});
    } else if "description" in e {
      assert Resolve(subs, e["description"], stack) == e["description"];
    }
  }

  /** Folding an object into its reference adds and hides no reference. */
  lemma FoldedRefs(r: Entries, e: Entries)
    requires PlainDescription(r) && DescriptionOnly(e - {"$ref"})
    ensures RefsIn(Dict(r + (e - {"$ref"}))) == RefsIn(Dict(r))
  {
    var all := r + (e - {"$ref"});
    assert Target(all) == Target(r);
    forall k, g | k in r && g in RefsIn(r[k]) ensures k in all && g in RefsIn(all[k]) {
    }
    forall k, g | k in all && g in RefsIn(all[k]) ensures k in r && g in RefsIn(r[k]) {
    }
  }

  lemma EntryRef(e: Entries, k: string, g: string)
    requires k in e && g in RefsIn(e[k])
    ensures g in RefsIn(Dict(e))
  {
  }

  lemma {:induction false} LeftoverTrail(subs: Definitions, n: Node, stack: set<string>, g: string)
    returns (trail: seq<string>)
    requires DescribedFragments(subs) && Described(subs, n) && stack <= subs.Keys
    requires g in RefsIn(Resolve(subs, n, stack)) && g in subs
    ensures Leads(subs, n, trail) && Returns(trail, stack)
    decreases subs.Keys - stack, n
  {
    match n
    case List(items) =>
      var i :| 0 <= i < |items| && g in RefsIn(Resolve(subs, items[i], stack));
      trail := LeftoverTrail(subs, items[i], stack, g);
    case Dict(e) =>
      if Inlines(subs, e, stack) {
        var name := Target(e).value;
        ResolvedDescription(subs, subs[name], stack + {name});
        FoldedRefs(ResolveObject(subs, subs[name], stack + {name}), e);
        var rest := LeftoverTrail(subs, Dict(subs[name]), stack + {name}, g);
        trail := [name] + rest;
        Extended(subs, e, name, rest, stack);
      } else {
        SameTarget(subs, e, stack);
        if Target(e) == Some(g) {
          trail := [g];
        } else {
          var k :| k in e && g in RefsIn(Resolve(subs, e[k], stack));
          trail := LeftoverTrail(subs, e[k], stack, g);
          EntryRef(e, k, trail[0]);
        }
      }
  }

  lemma Extended(subs: Definitions, e: Entries, name: string, rest: seq<string>, stack: set<string>)
    requires Target(e) == Some(name) && name in subs
    requires Leads(subs, Dict(subs[name]), rest) && Returns(rest, stack + {name})
    ensures Leads(subs, Dict(e), [name] + rest) && Returns([name] + rest, stack)
  {
    var trail := [name] + rest;
    forall i | 0 < i < |trail| ensures trail[i] in RefsIn(Dict(subs[trail[i - 1]])) {
      if i > 1 { assert trail[i] == rest[i - 1] && trail[i - 1] == rest[i - 2]; }
    }
    assert trail[..|trail| - 1] == [name] + rest[..|rest| - 1];
  }

  /** `trail` comes by nothing twice, and by nothing of `stack`, before its end. */
  predicate Fresh(trail: seq<string>, stack: set<string>) {
    forall i | 0 <= i < |trail| - 1 :: trail[i] !in stack && trail[i] !in trail[..i]
  }

  lemma {:induction false} FirstReturn(subs: Definitions, n: Node, trail: seq<string>) returns (first: seq<string>)
    requires Leads(subs, n, trail) && Returns(trail, {})
    ensures Leads(subs, n, first) && Returns(first, {}) && Fresh(first, {})
    decreases |trail|
  {
    if i :| 0 <= i < |trail| - 1 && trail[i] in trail[..i] {
      assert trail[..i + 1][..i] == trail[..i];
      first := FirstReturn(subs, n, trail[..i + 1]);
    } else {
      first := trail;
    }
  }

  lemma ShortenedTrail(subs: Definitions, e: Entries, trail: seq<string>, stack: set<string>)
    requires Leads(subs, Dict(e), trail) && Returns(trail, stack) && Fresh(trail, stack) && |trail| > 1
    ensures Leads(subs, Dict(subs[trail[0]]), trail[1..])
    ensures Returns(trail[1..], stack + {trail[0]}) && Fresh(trail[1..], stack + {trail[0]})
  {
    var rest := trail[1..];
    assert trail[..|trail| - 1] == [trail[0]] + rest[..|rest| - 1];
    forall i | 0 <= i < |rest| - 1 ensures rest[i] !in stack + {trail[0]} && rest[i] !in rest[..i] {
      assert rest[i] == trail[i + 1] && trail[..i + 1] == [trail[0]] + rest[..i];
    }
  }

  lemma {:induction false} ReturnIsLeftOver(subs: Definitions, n: Node, trail: seq<string>, stack: set<string>)
    requires DescribedFragments(subs) && Described(subs, n)
    requires Leads(subs, n, trail) && Returns(trail, stack) && Fresh(trail, stack)
    ensures trail[|trail| - 1] in RefsIn(Resolve(subs, n, stack))
    decreases |trail|, n
  {
    match n
    case List(items) =>
      var i :| 0 <= i < |items| && trail[0] in RefsIn(items[i]);
      ReturnIsLeftOver(subs, items[i], trail, stack);
      assert Resolve(subs, n, stack).items[i] == Resolve(subs, items[i], stack);
    case Dict(e) =>
      SameTarget(subs, e, stack);
      if Target(e).Some? && Target(e).value in subs {
        OnlyRef(subs, e, trail[0]);
        if |trail| > 1 {
          var name := trail[0];
          ShortenedTrail(subs, e, trail, stack);
          ReturnIsLeftOver(subs, Dict(subs[name]), trail[1..], stack + {name});
          ResolvedDescription(subs, subs[name], stack + {name});
          FoldedRefs(ResolveObject(subs, subs[name], stack + {name}), e);
        }
      } else {
        var k :| k in e && trail[0] in RefsIn(e[k]);
        ReturnIsLeftOver(subs, e[k], trail, stack);
        EntryRef(ResolveEach(subs, e, stack), k, trail[|trail| - 1]);
      }
  }

  lemma OnlyRef(subs: Definitions, e: Entries, g: string)
    requires Described(subs, Dict(e)) && Target(e).Some? && Target(e).value in subs && g in RefsIn(Dict(e))
    ensures g == Target(e).value
  {
    forall k | k in e ensures RefsIn(e[k]) == {} {
      if k != "$ref" { assert k in e - {"$ref"} && (e - {"$ref"})[k] == e[k]; }
    }
  }

  /** What one tree keeps of the fragments. */
  lemma LeftoverExactlyOnCycle(subs: Definitions, n: Node)
    requires DescribedFragments(subs) && Described(subs, n)
    ensures RefsIn(Resolve(subs, n, {})) !! subs.Keys <==> !ReachesCycle(subs, n)
  {
    if g :| g in RefsIn(Resolve(subs, n, {})) && g in subs {
      var trail := LeftoverTrail(subs, n, {}, g);
    }
    if trail :| Leads(subs, n, trail) && Returns(trail, {}) {
      var first := FirstReturn(subs, n, trail);
      ReturnIsLeftOver(subs, n, first, {});
    }
  }

  // -------------------------------------------------- nothing is lost

  /** No reference to a fragment is left. */
  predicate NoneLeft(doc: Document) {
    DocumentRefs(Inlined(doc)) !! FragmentsOf(doc.definitions).Keys
  }

  lemma DefinitionRefs(doc: Document, name: string)
    requires NoneLeft(doc) && name in Inlined(doc).definitions
    ensures RefsIn(Dict(Inlined(doc).definitions[name])) !! FragmentsOf(doc.definitions).Keys
  {
    var converted := Inlined(doc);
    forall g | g in RefsIn(Dict(converted.definitions[name])) ensures g in DocumentRefs(converted) {
    }
  }

  lemma {:induction false} KeptIsAbove(doc: Document, n: Node, stack: set<string>, fuel: nat, more: nat)
    requires Built(doc) && NoneLeft(doc) && fuel <= more && Described(FragmentsOf(doc.definitions), n)
    requires RefsIn(Resolve(FragmentsOf(doc.definitions), n, stack)) !! FragmentsOf(doc.definitions).Keys
    ensures Below(Unfold(doc.definitions, n, fuel),
                  Unfold(Inlined(doc).definitions, Resolve(FragmentsOf(doc.definitions), n, stack), more))
    decreases fuel, 1, n, 1
  {
    var subs, defs := FragmentsOf(doc.definitions), Inlined(doc).definitions;
    match n
    case Leaf(_) =>
    case List(items) =>
      forall i | 0 <= i < |items|
        ensures Below(Unfold(doc.definitions, items[i], fuel), Unfold(defs, Resolve(subs, items[i], stack), more))
      {
        assert Resolve(subs, n, stack).items[i] == Resolve(subs, items[i], stack);
        KeptIsAbove(doc, items[i], stack, fuel, more);
      }
    case Dict(e) => KeptObjectIsAbove(doc, e, stack, fuel, more);
  }

  lemma {:induction false} KeptObjectIsAbove(doc: Document, e: Entries, stack: set<string>, fuel: nat, more: nat)
    requires Built(doc) && NoneLeft(doc) && fuel <= more && Described(FragmentsOf(doc.definitions), Dict(e))
    requires RefsIn(Dict(ResolveObject(FragmentsOf(doc.definitions), e, stack))) !! FragmentsOf(doc.definitions).Keys
    ensures Below(UnfoldObject(doc.definitions, e, fuel),
                  UnfoldObject(Inlined(doc).definitions, ResolveObject(FragmentsOf(doc.definitions), e, stack), more))
    decreases fuel, 1, Dict(e), 0
  {
    var subs, defs := FragmentsOf(doc.definitions), Inlined(doc).definitions;
    if Inlines(subs, e, stack) {
      if fuel > 0 { FoldedIsAbove(doc, e, stack, fuel, more); }
    } else {
      var r := ResolveEach(subs, e, stack);
      SameTarget(subs, e, stack);
      forall k | k in e ensures Below(Unfold(doc.definitions, e[k], fuel), Unfold(defs, r[k], more)) {
        forall g | g in RefsIn(r[k]) ensures g in RefsIn(Dict(r)) { EntryRef(r, k, g); }
        KeptIsAbove(doc, e[k], stack, fuel, more);
      }
      if Target(e).Some? {
        TargetIsNamed(r);
        ReferenceIsAbove(doc, Target(e).value, fuel, more);
      }
      ObjectBelow(doc.definitions, defs, e, r, fuel, more);
    }
  }

  lemma KeptDefinition(doc: Document, name: string) returns (d: Entries)
    requires Built(doc) && NoneLeft(doc) && name in doc.definitions && name !in FragmentsOf(doc.definitions)
    ensures d == doc.definitions[name] && Described(FragmentsOf(doc.definitions), Dict(d))
    ensures name in Inlined(doc).definitions
    ensures Inlined(doc).definitions[name] == ResolveObject(FragmentsOf(doc.definitions), d, {})
    ensures RefsIn(Dict(ResolveObject(FragmentsOf(doc.definitions), d, {}))) !! FragmentsOf(doc.definitions).Keys
  {
    d := doc.definitions[name];
    DefinitionRefs(doc, name);
  }

  lemma TargetIsNamed(r: Entries)
    requires Target(r).Some?
    ensures Target(r).value in RefsIn(Dict(r))
  {
  }

  lemma {:induction false} ReferenceIsAbove(doc: Document, name: string, fuel: nat, more: nat)
    requires Built(doc) && NoneLeft(doc) && fuel <= more && name !in FragmentsOf(doc.definitions)
    ensures BelowBehind(doc.definitions, Inlined(doc).definitions, name, fuel, more)
    decreases fuel, 0
  {
    if fuel > 0 && name in doc.definitions { DefinitionIsAbove(doc, name, fuel - 1, more - 1); }
  }

  lemma {:induction false} DefinitionIsAbove(doc: Document, name: string, fuel: nat, more: nat)
    requires Built(doc) && NoneLeft(doc) && fuel <= more
    requires name in doc.definitions && name !in FragmentsOf(doc.definitions)
    ensures name in Inlined(doc).definitions
    ensures Below(UnfoldObject(doc.definitions, doc.definitions[name], fuel),
                  UnfoldObject(Inlined(doc).definitions, Inlined(doc).definitions[name], more))
    decreases fuel, 2
  {
    var d := KeptDefinition(doc, name);
    KeptObjectIsAbove(doc, d, {}, fuel, more);
  }

  /** A description reads the same in both documents. */
  lemma DescriptionBelow(a: Definitions, b: Definitions, e: Entries, fuel: nat, more: nat)
    requires DescriptionOnly(e - {"$ref"})
    ensures BelowEach(UnfoldEach(a, e, fuel) - {"$ref"}, UnfoldEach(b, e, more) - {"$ref"})
  {
    forall k | k in e && k != "$ref"
      ensures e[k].Leaf? && Unfold(a, e[k], fuel) == Unfold(b, e[k], more) == Value(e[k].value)
    {
      assert k in e - {"$ref"} && (e - {"$ref"})[k] == e[k];
    }
  }

  /** What a fragment says, below its folded form, and the description beside the reference to it. */
  lemma FoldedBelow(a: Definitions, b: Definitions, e: Entries, name: string, r: Entries, fuel: nat, more: nat)
    requires fuel > 0 && Target(e) == Some(name) && name in a && DescriptionOnly(e - {"$ref"})
    requires Below(UnfoldObject(a, a[name], fuel - 1), UnfoldObject(b, r, more))
    ensures Below(UnfoldObject(a, e, fuel), UnfoldObject(b, r + (e - {"$ref"}), more))
  {
    UnfoldFolded(b, r, e, more);
    DescriptionBelow(a, b, e, fuel, more);
    OverlayBelow(UnfoldObject(a, a[name], fuel - 1), UnfoldObject(b, r, more),
                 UnfoldEach(a, e, fuel) - {"$ref"}, UnfoldEach(b, e, more) - {"$ref"});
  }

  /** A reference folds into the resolved fragment and the description beside it. */
  lemma FoldedParts(subs: Definitions, e: Entries, stack: set<string>, name: string) returns (r: Entries)
    requires DescribedFragments(subs) && Described(subs, Dict(e)) && Inlines(subs, e, stack) && Target(e) == Some(name)
    requires RefsIn(Dict(ResolveObject(subs, e, stack))) !! subs.Keys
    ensures DescriptionOnly(e - {"$ref"}) && Described(subs, Dict(subs[name]))
    ensures r == ResolveObject(subs, subs[name], stack + {name}) && ResolveObject(subs, e, stack) == r + (e - {"$ref"})
    ensures RefsIn(Dict(r)) !! subs.Keys
  {
    r := ResolveObject(subs, subs[name], stack + {name});
    ResolvedDescription(subs, subs[name], stack + {name});
    FoldedRefs(r, e);
  }

  lemma {:induction false} FoldedIsAbove(doc: Document, e: Entries, stack: set<string>, fuel: nat, more: nat)
    requires Built(doc) && NoneLeft(doc) && 0 < fuel <= more && Described(FragmentsOf(doc.definitions), Dict(e))
    requires Inlines(FragmentsOf(doc.definitions), e, stack)
    requires RefsIn(Dict(ResolveObject(FragmentsOf(doc.definitions), e, stack))) !! FragmentsOf(doc.definitions).Keys
    ensures Below(UnfoldObject(doc.definitions, e, fuel),
                  UnfoldObject(Inlined(doc).definitions, ResolveObject(FragmentsOf(doc.definitions), e, stack), more))
    decreases fuel, 0
  {
    var name := Target(e).value;
    var fragment := FragmentsOf(doc.definitions)[name];
    var r := FoldedParts(FragmentsOf(doc.definitions), e, stack, name);
    assert name in doc.definitions && doc.definitions[name] == fragment;
    KeptObjectIsAbove(doc, fragment, stack + {name}, fuel - 1, more);
    FoldedBelow(doc.definitions, Inlined(doc).definitions, e, name, r, fuel, more);
  }

  // ---------------------------------------------------------- the document

  /** Some fragment leads back to itself from what is kept. */
  ghost predicate CycleReached(doc: Document) {
    var subs := FragmentsOf(doc.definitions);
    || ReachesCycle(subs, doc.paths)
    || exists f :: f in doc.definitions && f !in subs && ReachesCycle(subs, Dict(doc.definitions[f]))
  }

  /** A reference to a dropped definition remains exactly if a cycle of fragments is reached. */
  lemma NoneLeftExactlyWithoutCycle(doc: Document)
    requires Built(doc)
    ensures NoneLeft(doc) <==> !CycleReached(doc)
  {
    var subs, converted := FragmentsOf(doc.definitions), Inlined(doc);
    LeftoverExactlyOnCycle(subs, doc.paths);
    forall f | f in converted.definitions
      ensures Resolve(subs, Dict(doc.definitions[f]), {}) == Dict(converted.definitions[f])
      ensures RefsIn(Dict(converted.definitions[f])) !! subs.Keys <==> !ReachesCycle(subs, Dict(doc.definitions[f]))
    {
      LeftoverExactlyOnCycle(subs, Dict(doc.definitions[f]));
    }
    forall f, g | f in converted.definitions && g in RefsIn(Dict(converted.definitions[f]))
      ensures g in DocumentRefs(converted)
    {
    }
  }

  function RefTo(name: string): Entries { map["$ref" := Leaf(Str(DEFINITIONS + name))] }

  /** A definition that is one fragment, which is itself. */
  function SelfFragment(name: string, fragment: string): Document {
    Document(Dict(map[]), map[name := RefTo(fragment), fragment := RefTo(fragment)])
  }

  lemma {:induction false} LastPartAfter(before: string, name: string)
    requires '/' !in name
    ensures LastPart(before + ['/'] + name) == name
    decreases |before|
  {
    var s := before + ['/'] + name;
    assert s[|before|] == '/';
    if before == "" {
      assert s[1..] == name;
    } else {
      assert s[1..] == before[1..] + ['/'] + name;
      LastPartAfter(before[1..], name);
    }
  }

  lemma RefToTarget(name: string)
    requires '/' !in name
    ensures Target(RefTo(name)) == Some(name) && RefsIn(Dict(RefTo(name))) == {name}
  {
    assert DEFINITIONS + name == "#/definitions" + ['/'] + name;
    LastPartAfter("#/definitions", name);
    var e := RefTo(name);
    forall k | k in e ensures RefsIn(e[k]) == {} {
    }
  }

  /** Such a document is one the builder can make, reaches a cycle, and so keeps a reference to what
      was dropped. */
  lemma CyclesOccur(name: string, fragment: string)
    requires !IsFragment(name) && IsFragment(fragment) && '/' !in fragment
    ensures var doc := SelfFragment(name, fragment);
            Built(doc) && CycleReached(doc) && !NoneLeft(doc)
  {
    var doc := SelfFragment(name, fragment);
    var subs := FragmentsOf(doc.definitions);
    RefToTarget(fragment);
    assert subs == map[fragment := RefTo(fragment)];
    assert RefTo(fragment) - {"$ref"} == map[];
    assert Described(subs, Dict(RefTo(fragment)));
    assert Built(doc);
    var trail := [fragment, fragment];
    assert Leads(subs, Dict(RefTo(fragment)), trail) && Returns(trail, {});
    assert ReachesCycle(subs, Dict(doc.definitions[name]));
    NoneLeftExactlyWithoutCycle(doc);
  }

  /** Without one, nothing a schema says is lost. */
  lemma InliningLosesNothing(doc: Document, fuel: nat)
    requires Built(doc) && !CycleReached(doc)
    ensures Below(Unfold(doc.definitions, doc.paths, fuel), Unfold(Inlined(doc).definitions, Inlined(doc).paths, fuel))
    ensures forall f | f in Inlined(doc).definitions ::
              Below(UnfoldObject(doc.definitions, doc.definitions[f], fuel),
                    UnfoldObject(Inlined(doc).definitions, Inlined(doc).definitions[f], fuel))
  {
    NoneLeftExactlyWithoutCycle(doc);
    KeptIsAbove(doc, doc.paths, {}, fuel, fuel);
    forall f | f in Inlined(doc).definitions
      ensures Below(UnfoldObject(doc.definitions, doc.definitions[f], fuel),
                    UnfoldObject(Inlined(doc).definitions, Inlined(doc).definitions[f], fuel))
    {
      DefinitionRefs(doc, f);
      KeptObjectIsAbove(doc, doc.definitions[f], {}, fuel, fuel);
    }
  }

  /** Whatever the document, nothing is said that was not said before. */
  lemma InliningMakesNothingUp(doc: Document, fuel: nat)
    ensures var more := Cost(fuel, |FragmentsOf(doc.definitions)|) + |FragmentsOf(doc.definitions)|;
            && Below(Unfold(Inlined(doc).definitions, Inlined(doc).paths, fuel),
                     Unfold(doc.definitions, doc.paths, more))
            && forall f | f in Inlined(doc).definitions ::
                 Below(UnfoldObject(Inlined(doc).definitions, Inlined(doc).definitions[f], fuel),
                       UnfoldObject(doc.definitions, doc.definitions[f], more))
  {
    var more := Cost(fuel, |FragmentsOf(doc.definitions)|) + |FragmentsOf(doc.definitions)|;
    ReserveFull(FragmentsOf(doc.definitions));
    ResolvedIsBelow(doc, doc.paths, {}, fuel, more);
    forall f | f in Inlined(doc).definitions
      ensures Below(UnfoldObject(Inlined(doc).definitions, Inlined(doc).definitions[f], fuel),
                    UnfoldObject(doc.definitions, doc.definitions[f], more))
    {
      DefinitionIsBelow(doc, f, fuel, more);
    }
  }
}
