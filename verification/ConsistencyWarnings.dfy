/** pdf_convert.py: the pass that reports notations not understood and references to nothing. */
module ConsistencyWarnings {
  import Vda5050
  import opened Fragments

  const UNPARSED := "x-mir-unparsed"

  /** The document without the marks of notations that were not understood. */
  function Stripped(n: Node): Node
    decreases n
  {
    match n
    case Leaf(_) => n
    case List(items) => List(seq(|items|, i requires 0 <= i < |items| => Stripped(items[i])))
    case Dict(e) => Dict(map k | k in e && k != UNPARSED :: Stripped(e[k]))
  }

  /** Those marks. */
  function Marks(n: Node): set<Node>
    decreases n
  {
    match n
    case Leaf(_) => {}
    case List(items) => set i, m | 0 <= i < |items| && m in Marks(items[i]) :: m
    case Dict(e) =>
      (if UNPARSED in e then {e[UNPARSED]} else {})
      + set k, m | k in e && k != UNPARSED && m in Marks(e[k]) :: m
  }

  /** One step down: into an item of a list, or under a key of an object. */
  datatype Way = At(index: nat) | Under(key: string)

  function Below(n: Node, way: Way): Vda5050.Option<Node> {
    match way
    case At(i) => if n.List? && i < |n.items| then Vda5050.Some(n.items[i]) else Vda5050.None
    case Under(k) => if n.Dict? && k in n.entries then Vda5050.Some(n.entries[k]) else Vda5050.None
  }

  /** What stands at the end of a way down. */
  function Found(n: Node, path: seq<Way>): Vda5050.Option<Node>
    decreases |path|
  {
    if path == [] then Vda5050.Some(n)
    else match Below(n, path[0])
      case Some(next) => Found(next, path[1..])
      case None => Vda5050.None
  }

  /** A way to a mark, past no other mark. */
  ghost predicate LeadsToMark(n: Node, path: seq<Way>, m: Node) {
    && path != [] && path[|path| - 1] == Under("x-mir-unparsed") && Found(n, path) == Vda5050.Some(m)
    && forall i | 0 <= i < |path| - 1 :: path[i] != Under("x-mir-unparsed")
  }

  lemma LeadsFurther(n: Node, way: Way, next: Node, path: seq<Way>, m: Node)
    requires Below(n, way) == Vda5050.Some(next) && way != Under("x-mir-unparsed")
    ensures LeadsToMark(n, [way] + path, m) <==> LeadsToMark(next, path, m)
  {
    var whole := [way] + path;
    assert whole[1..] == path;
    if LeadsToMark(next, path, m) {
      forall i | 0 <= i < |whole| - 1 ensures whole[i] != Under("x-mir-unparsed") {
        if i > 0 { assert whole[i] == path[i - 1]; }
      }
    }
    if LeadsToMark(n, whole, m) {
      if path == [] { assert false; }
      forall i | 0 <= i < |path| - 1 ensures path[i] != Under("x-mir-unparsed") { assert path[i] == whole[i + 1]; }
      assert path[|path| - 1] == whole[|whole| - 1];
    }
  }

  /** The marks are what stands under the key of a notation not understood, at any depth, but for what is
      inside another mark. */
  lemma {:induction false} MarksAreFound(n: Node, m: Node)
    ensures m in Marks(n) <==> exists path :: LeadsToMark(n, path, m)
    decreases n
  {
    match n
    case Leaf(_) =>
      if path: seq<Way> :| LeadsToMark(n, path, m) { assert Below(n, path[0]) == Vda5050.None; }
    case List(items) => ItemMarksAreFound(n, m);
    case Dict(e) => EntryMarksAreFound(n, m);
  }

  lemma ItemMarksAreFound(n: Node, m: Node)
    requires n.List?
    ensures m in Marks(n) <==> exists path :: LeadsToMark(n, path, m)
    decreases n, 0
  {
    if m in Marks(n) {
      var i :| 0 <= i < |n.items| && m in Marks(n.items[i]);
      MarksAreFound(n.items[i], m);
      var path :| LeadsToMark(n.items[i], path, m);
      LeadsFurther(n, At(i), n.items[i], path, m);
    }
    if path: seq<Way> :| LeadsToMark(n, path, m) {
      assert Below(n, path[0]).Some?;
      var i := path[0].index;
      assert path == [path[0]] + path[1..];
      LeadsFurther(n, At(i), n.items[i], path[1..], m);
      MarksAreFound(n.items[i], m);
    }
  }

  lemma EntryMarksAreFound(n: Node, m: Node)
    requires n.Dict?
    ensures m in Marks(n) <==> exists path :: LeadsToMark(n, path, m)
    decreases n, 0
  {
    var e := n.entries;
    if m in Marks(n) {
      if "x-mir-unparsed" in e && m == e["x-mir-unparsed"] {
        assert [Under("x-mir-unparsed")][1..] == [];
        assert Found(n, [Under("x-mir-unparsed")]) == Vda5050.Some(m);
        assert LeadsToMark(n, [Under("x-mir-unparsed")], m);
      } else {
        var k :| k in e && k != UNPARSED && m in Marks(e[k]);
        MarksAreFound(e[k], m);
        var path :| LeadsToMark(e[k], path, m);
        LeadsFurther(n, Under(k), e[k], path, m);
      }
    }
    if path: seq<Way> :| LeadsToMark(n, path, m) {
      assert Below(n, path[0]).Some?;
      var k := path[0].key;
      assert path == [path[0]] + path[1..];
      if k == "x-mir-unparsed" {
        if |path| > 1 { assert false; }
        assert path[1..] == [];
        assert Found(n, path) == Vda5050.Some(e[k]);
        assert m in Marks(n);
      } else {
        LeadsFurther(n, Under(k), e[k], path[1..], m);
        MarksAreFound(e[k], m);
      }
    }
  }

  /** The stripped document has none, and keeps everything else where it was. */
  lemma {:induction false} StrippedKeepsRest(n: Node, path: seq<Way>)
    ensures Found(Stripped(n), path) ==
              if Under("x-mir-unparsed") in path then Vda5050.None
              else match Found(n, path) case Some(m) => Vda5050.Some(Stripped(m)) case None => Vda5050.None
    decreases |path|
  {
    if path != [] {
      var way := path[0];
      assert path == [way] + path[1..];
      if way != Under("x-mir-unparsed") && Below(n, way).Some? {
        assert Below(Stripped(n), way) == Vda5050.Some(Stripped(Below(n, way).value));
        StrippedKeepsRest(Below(n, way).value, path[1..]);
      } else {
        assert Below(Stripped(n), way) == Vda5050.None;
      }
    }
  }

  /** What the first items of a list contribute. */
  function ItemMarks(items: seq<Node>): set<Node> {
    if items == [] then {} else ItemMarks(items[..|items| - 1]) + Marks(items[|items| - 1])
  }

  function ItemRefs(items: seq<Node>): set<string> {
    if items == [] then {} else ItemRefs(items[..|items| - 1]) + RefsIn(Stripped(items[|items| - 1]))
  }

  lemma {:induction false} AllItems(items: seq<Node>)
    ensures ItemMarks(items) == Marks(List(items))
    ensures ItemRefs(items) == RefsIn(Stripped(List(items)))
    decreases |items|
  {
    if items != [] {
      var init, last := items[..|items| - 1], items[|items| - 1];
      AllItems(init);
      assert items == init + [last];
      OneMoreItem(init, last);
    }
  }

  lemma OneMoreItem(items: seq<Node>, last: Node)
    requires ItemMarks(items) == Marks(List(items)) && ItemRefs(items) == RefsIn(Stripped(List(items)))
    ensures ItemMarks(items + [last]) == Marks(List(items + [last]))
    ensures ItemRefs(items + [last]) == RefsIn(Stripped(List(items + [last])))
  {
    assert (items + [last])[..|items|] == items;
    StrippedAppended(items, last);
    Appended(items, last);
    Appended(Stripped(List(items)).items, Stripped(last));
  }

  lemma StrippedAppended(items: seq<Node>, last: Node)
    ensures Stripped(List(items + [last])) == List(Stripped(List(items)).items + [Stripped(last)])
  {
    var all := items + [last];
    assert all[|items|] == last && forall i | 0 <= i < |items| :: all[i] == items[i];
  }

  lemma Appended(items: seq<Node>, last: Node)
    ensures Marks(List(items + [last])) == Marks(List(items)) + Marks(last)
    ensures RefsIn(List(items + [last])) == RefsIn(List(items)) + RefsIn(last)
  {
    var all := items + [last];
    assert all[|items|] == last && forall i | 0 <= i < |items| :: all[i] == items[i];
  }

  /** What entries of a dictionary contribute. */
  function EntryMarks(e: Entries, keys: seq<string>): set<Node>
    requires forall k | k in keys :: k in e
  {
    if keys == [] then {} else EntryMarks(e, keys[..|keys| - 1]) + Marks(e[keys[|keys| - 1]])
  }

  function EntryRefs(e: Entries, keys: seq<string>): set<string>
    requires forall k | k in keys :: k in e
  {
    if keys == [] then {} else EntryRefs(e, keys[..|keys| - 1]) + RefsIn(Stripped(e[keys[|keys| - 1]]))
  }

  lemma {:induction false} EntryMark(e: Entries, keys: seq<string>, m: Node)
    requires forall k | k in keys :: k in e
    ensures m in EntryMarks(e, keys) <==> exists k :: k in keys && m in Marks(e[k])
    decreases |keys|
  {
    if keys != [] {
      var init, last := keys[..|keys| - 1], keys[|keys| - 1];
      EntryMark(e, init, m);
      assert keys == init + [last];
    }
  }

  lemma {:induction false} EntryReference(e: Entries, keys: seq<string>, r: string)
    requires forall k | k in keys :: k in e
    ensures r in EntryRefs(e, keys) <==> exists k :: k in keys && r in RefsIn(Stripped(e[k]))
    decreases |keys|
  {
    if keys != [] {
      var init, last := keys[..|keys| - 1], keys[|keys| - 1];
      EntryReference(e, init, r);
      assert keys == init + [last];
    }
  }

  lemma AllEntryMarks(e: Entries, keys: seq<string>)
    requires forall k :: k in keys <==> k in e && k != UNPARSED
    ensures Marks(Dict(e)) == (if UNPARSED in e then {e[UNPARSED]} else {}) + EntryMarks(e, keys)
  {
    forall m ensures m in EntryMarks(e, keys) <==> exists k :: k in e && k != UNPARSED && m in Marks(e[k]) {
      EntryMark(e, keys, m);
    }
  }

  lemma AllEntryRefs(e: Entries, keys: seq<string>)
    requires forall k :: k in keys <==> k in e && k != UNPARSED
    ensures RefsIn(Stripped(Dict(e))) == OwnRef(e) + EntryRefs(e, keys)
  {
    var clean := Stripped(Dict(e)).entries;
    StrippedTarget(e);
    forall r ensures r in EntryRefs(e, keys) <==> exists k :: k in clean && r in RefsIn(clean[k]) {
      EntryReference(e, keys, r);
      assert forall k | k in clean :: clean[k] == Stripped(e[k]);
    }
  }

  lemma StrippedTarget(e: Entries)
    ensures Target(Stripped(Dict(e)).entries) == Target(e)
  {
    if "$ref" in e { assert Stripped(Dict(e)).entries["$ref"] == Stripped(e["$ref"]); }
  }

  /** `_consistency_warnings`; its texts are the two sets. */
  class ConsistencyPass {
    const known: set<string>
    var unparsed: set<Node>
    var dangling: set<string>

    constructor (known: set<string>)
      ensures this.known == known && unparsed == {} && dangling == {}
    {
      this.known := known;
      unparsed, dangling := {}, {};
    }

    /** `walk`: takes the marks out and notes every reference to something unknown. */
    method Walk(n: Node) returns (clean: Node)
      modifies this
      ensures clean == Stripped(n)
      ensures unparsed == old(unparsed) + Marks(n)
      ensures dangling == old(dangling) + (RefsIn(clean) - known)
      decreases n, 1
    {
      match n
      case Leaf(_) => clean := n;
      case List(items) =>
        clean := WalkItems(items);
        AllItems(items);
      case Dict(e) =>
        if UNPARSED in e { unparsed := unparsed + {e[UNPARSED]}; }
        match Target(e) {
          case Some(name) => if name !in known { dangling := dangling + {name}; }
          case None =>
        }
        var keys := KeysOf(e);
        clean := WalkEntries(e, keys);
        AllEntryMarks(e, keys);
        AllEntryRefs(e, keys);
    }

    method WalkItems(items: seq<Node>) returns (clean: Node)
      modifies this
      ensures clean == Stripped(List(items))
      ensures unparsed == old(unparsed) + ItemMarks(items)
      ensures dangling == old(dangling) + (ItemRefs(items) - known)
      decreases List(items), 0
    {
      var done: seq<Node> := [];
      for i := 0 to |items|
        invariant |done| == i && forall j | 0 <= j < i :: done[j] == Stripped(items[j])
        invariant unparsed == old(unparsed) + ItemMarks(items[..i])
        invariant dangling == old(dangling) + (ItemRefs(items[..i]) - known)
      {
        assert items[..i + 1][..i] == items[..i];
        var item := Walk(items[i]);
        done := done + [item];
      }
      assert items[..|items|] == items;
      clean := List(done);
    }

    method WalkEntries(e: Entries, keys: seq<string>) returns (clean: Node)
      requires forall k :: k in keys <==> k in e && k != UNPARSED
      modifies this
      ensures clean == Stripped(Dict(e))
      ensures unparsed == old(unparsed) + EntryMarks(e, keys)
      ensures dangling == old(dangling) + (EntryRefs(e, keys) - known)
      decreases Dict(e), 0
    {
      var done: Entries := map[];
      for i := 0 to |keys|
        invariant forall k :: k in done <==> k in keys[..i]
        invariant forall k | k in done :: k in e && done[k] == Stripped(e[k])
        invariant unparsed == old(unparsed) + EntryMarks(e, keys[..i])
        invariant dangling == old(dangling) + (EntryRefs(e, keys[..i]) - known)
      {
        assert keys[..i + 1] == keys[..i] + [keys[i]] && keys[..i + 1][..i] == keys[..i];
        var value := Walk(e[keys[i]]);
        done := done[keys[i] := value];
      }
      assert keys[..|keys|] == keys;
      clean := Dict(done);
    }
  }

  /** The keys of a dictionary but the mark, in some order. */
  method KeysOf(e: Entries) returns (keys: seq<string>)
    ensures forall k :: k in keys <==> k in e && k != UNPARSED
  {
    var left := e.Keys - {UNPARSED};
    keys := [];
    while left != {}
      invariant left <= e.Keys - {UNPARSED} && forall k :: k in keys <==> k in e.Keys - {UNPARSED} - left
      decreases |left|
    {
      var k :| k in left;
      keys := keys + [k];
      left := left - {k};
    }
  }

  lemma {:induction false} StrippedRefs(n: Node)
    ensures RefsIn(Stripped(n)) <= RefsIn(n)
    decreases n
  {
    match n
    case Leaf(_) =>
    case List(items) =>
      var clean := Stripped(n).items;
      forall i | 0 <= i < |items| ensures clean[i] == Stripped(items[i]) && RefsIn(clean[i]) <= RefsIn(items[i]) {
        StrippedRefs(items[i]);
      }
    case Dict(e) =>
      StrippedTarget(e);
      forall k | k in e ensures RefsIn(Stripped(e[k])) <= RefsIn(e[k]) { StrippedRefs(e[k]); }
  }

  lemma MarkIsFound(e: Entries)
    ensures UNPARSED in e ==> e[UNPARSED] in Marks(Dict(e))
  {
    if UNPARSED in e { assert e[UNPARSED] in Marks(Dict(e)); }
  }

  ghost predicate Plain(marks: set<Node>) { forall m | m in marks :: m.Leaf? }

  /** A mark that is a leaf takes no reference with it. */
  lemma {:induction false} PlainMarksHideNothing(n: Node)
    requires Plain(Marks(n))
    ensures RefsIn(Stripped(n)) == RefsIn(n)
    decreases n
  {
    match n
    case Leaf(_) =>
    case List(items) =>
      var clean := Stripped(n).items;
      forall i | 0 <= i < |items| ensures clean[i] == Stripped(items[i]) && RefsIn(clean[i]) == RefsIn(items[i]) {
        assert Marks(items[i]) <= Marks(n);
        PlainMarksHideNothing(items[i]);
      }
    case Dict(e) => PlainEntriesHideNothing(e);
  }

  lemma {:induction false} PlainEntriesHideNothing(e: Entries)
    requires Plain(Marks(Dict(e)))
    ensures RefsIn(Stripped(Dict(e))) == RefsIn(Dict(e))
    decreases Dict(e), 0
  {
    var clean := Stripped(Dict(e)).entries;
    StrippedTarget(e);
    MarkIsFound(e);
    forall k | k in e && k != UNPARSED ensures clean[k] == Stripped(e[k]) && RefsIn(clean[k]) == RefsIn(e[k]) {
      assert Marks(e[k]) <= Marks(Dict(e));
      PlainMarksHideNothing(e[k]);
    }
  }

  /** The table of definitions as the tree it is. */
  function Table(definitions: Definitions): Node { Dict(map f | f in definitions :: Dict(definitions[f])) }

  lemma TableRefs(doc: Document)
    ensures DocumentRefs(doc) == RefsIn(doc.paths) + RefsIn(Table(doc.definitions))
  {
    var t := Table(doc.definitions).entries;
    assert Target(t).None?;
    assert forall f | f in t :: t[f] == Dict(doc.definitions[f]);
  }

  function FromTable(table: Node): Definitions {
    if table.Dict? then map f | f in table.entries && table.entries[f].Dict? :: table.entries[f].entries else map[]
  }

  lemma StrippedTable(definitions: Definitions)
    requires UNPARSED !in definitions
    ensures FromTable(Stripped(Table(definitions))).Keys == definitions.Keys
    ensures Table(FromTable(Stripped(Table(definitions)))) == Stripped(Table(definitions))
  {
  }

  /** The end of `convert_pdf`. What is reported is exactly what dangles in the finished document:
      no fragment, unless a cycle of them is reached; then one of the fragments is, where the marks
      are leaves. */
  method FinishDocument(doc: Document) returns (finished: Document, unparsed: set<Node>, dangling: set<string>)
    ensures finished.paths == Stripped(Inlined(doc).paths)
    ensures Table(finished.definitions) == Stripped(Table(Inlined(doc).definitions))
    ensures unparsed == Marks(Inlined(doc).paths) + Marks(Table(Inlined(doc).definitions))
    ensures dangling == DocumentRefs(finished) - finished.definitions.Keys
    ensures Built(doc) && !CycleReached(doc) ==> dangling !! FragmentsOf(doc.definitions).Keys
    ensures Built(doc) && CycleReached(doc) && Plain(unparsed) ==>
              exists f :: f in FragmentsOf(doc.definitions) && f in dangling
  {
    var inlined := Inlined(doc);
    assert IsFragment(UNPARSED);
    var check := new ConsistencyPass(inlined.definitions.Keys);
    var paths := check.Walk(inlined.paths);
    var table := check.Walk(Table(inlined.definitions));
    StrippedTable(inlined.definitions);
    finished, unparsed, dangling := Document(paths, FromTable(table)), check.unparsed, check.dangling;
    TableRefs(finished);
    FinishedRefs(doc, finished);
  }

  lemma FinishedRefs(doc: Document, finished: Document)
    requires finished.paths == Stripped(Inlined(doc).paths)
    requires finished.definitions.Keys == Inlined(doc).definitions.Keys
    requires Table(finished.definitions) == Stripped(Table(Inlined(doc).definitions))
    ensures Built(doc) && !CycleReached(doc) ==> DocumentRefs(finished) !! FragmentsOf(doc.definitions).Keys
    ensures Built(doc) && CycleReached(doc)
            && Plain(Marks(Inlined(doc).paths) + Marks(Table(Inlined(doc).definitions))) ==>
              exists f :: f in FragmentsOf(doc.definitions) && f in DocumentRefs(finished) - finished.definitions.Keys
  {
    var inlined := Inlined(doc);
    TableRefs(finished);
    TableRefs(inlined);
    StrippedRefs(inlined.paths);
    StrippedRefs(Table(inlined.definitions));
    if Built(doc) { NoneLeftExactlyWithoutCycle(doc); }
    if Plain(Marks(inlined.paths) + Marks(Table(inlined.definitions))) {
      PlainMarksHideNothing(inlined.paths);
      PlainMarksHideNothing(Table(inlined.definitions));
    }
  }
}
