/** sync_vda5050_schemas.py: the one normalization applied to upstream JSON. */
module TrailingCommas {
  import opened Vda5050

  predicate IsSpace(ch: char) { ch == ' ' || ch == '\t' || ch == '\r' || ch == '\n' }

  predicate IsCloser(ch: char) { ch == '}' || ch == ']' }

  /** Where a scanner stands: outside strings, inside one, or right after a backslash inside one. */
  datatype Scan = Outside | Inside | Escaped

  function After(scan: Scan, ch: char): Scan {
    match scan
    case Outside => if ch == '\"' then Inside else Outside
    case Inside => if ch == '\\' then Escaped else if ch == '\"' then Outside else Inside
    case Escaped => Inside
  }

  /** The next character that is no white space closes an object or an array. */
  predicate CloserNext(text: string) {
    text != [] && (if IsSpace(text[0]) then CloserNext(text[1..]) else IsCloser(text[0]))
  }

  predicate IsTrailing(text: string, scan: Scan)
    requires text != []
  {
    scan == Outside && text[0] == ',' && CloserNext(text[1..])
  }

  /** The text without its trailing commas, decided by looking ahead. */
  function Stripped(text: string, scan: Scan): string {
    if text == [] then []
    else
      var rest := Stripped(text[1..], After(scan, text[0]));
      if IsTrailing(text, scan) then rest else [text[0]] + rest
  }

  // ------------------------------------------------------------- one pass

  /** What has been put out, should the pending comma turn out to be trailing or not. */
  function Settled(out: string, pending: Option<nat>, rest: string): string
    requires pending.Some? ==> pending.value < |out|
  {
    if pending.Some? && CloserNext(rest) then out[..pending.value] + out[pending.value + 1..] else out
  }

  /** The pass of the script: commas are put out and taken back when a closer follows. */
  method StripTrailingCommas(text: string) returns (result: string, removed: nat)
    ensures result == Stripped(text, Outside)
    ensures removed == |text| - |result|
  {
    var out: string := [];
    removed := 0;
    var inString, escaped := false, false;
    var pending: Option<nat> := None;
    ghost var scan := Outside;
    for i := 0 to |text|
      invariant |out| + removed == i
      invariant scan == if escaped then Escaped else if inString then Inside else Outside
      invariant escaped ==> inString
      invariant pending.Some? ==> pending.value < |out| && scan == Outside
      invariant Settled(out, pending, text[i..]) + Stripped(text[i..], scan) == Stripped(text, Outside)
    {
      ghost var before, rest := Settled(out, pending, text[i..]), text[i..];
      var ch := text[i];
      assert rest[0] == ch && rest[1..] == text[i + 1..];
      Advance(before, rest, scan);
      assert Settled(out + [ch], None, text[i + 1..]) == out + [ch];
      scan := After(scan, ch);
      if inString {
        out := out + [ch];
        if escaped { escaped := false; }
        else if ch == '\\' { escaped := true; }
        else if ch == '\"' { inString := false; }
        continue;
      }
      if ch == '\"' {
        inString := true;
        pending := None;
        out := out + [ch];
        continue;
      }
      if ch == ',' {
        pending := Some(|out|);
        assert (out + [ch])[..|out|] + (out + [ch])[|out| + 1..] == out;
        out := out + [ch];
        continue;
      }
      PendingDecided(out, pending, rest);
      if IsCloser(ch) && pending.Some? {
        out := out[..pending.value] + out[pending.value + 1..];
        removed := removed + 1;
        pending := None;
      } else if !IsSpace(ch) {
        pending := None;
      }
      KeepsPending(out, pending, ch);
      out := out + [ch];
      assert Settled(out, pending, text[i + 1..]) == before + [ch];
    }
    assert text[|text|..] == [];
    result := out;
  }

  lemma Advance(before: string, rest: string, scan: Scan)
    requires rest != []
    ensures before + Stripped(rest, scan)
         == (if IsTrailing(rest, scan) then before else before + [rest[0]]) + Stripped(rest[1..], After(scan, rest[0]))
  {
  }

  /** What comes next settles the comma, unless it is white space. */
  lemma PendingDecided(out: string, pending: Option<nat>, rest: string)
    requires rest != "" && (pending.Some? ==> pending.value < |out|)
    ensures IsCloser(rest[0]) && pending.Some? ==>
              Settled(out, pending, rest) == out[..pending.value] + out[pending.value + 1..]
    ensures !IsCloser(rest[0]) && !IsSpace(rest[0]) ==> Settled(out, pending, rest) == out
    ensures IsSpace(rest[0]) && pending.Some? ==> CloserNext(rest) == CloserNext(rest[1..])
    ensures pending.None? ==> Settled(out, pending, rest) == out
  {
  }

  lemma KeepsPending(out: string, pending: Option<nat>, ch: char)
    requires pending.Some? ==> pending.value < |out|
    ensures pending.Some? ==>
              (out + [ch])[..pending.value] + (out + [ch])[pending.value + 1..]
              == out[..pending.value] + out[pending.value + 1..] + [ch]
  {
  }

  // -------------------------------------------------------------- theorems

  /** The characters of all string literals, quotes included, in order. */
  function Literals(text: string, scan: Scan): string {
    if text == [] then []
    else (if scan != Outside || text[0] == '\"' then [text[0]] else []) + Literals(text[1..], After(scan, text[0]))
  }

  /** Everything but the commas outside strings, in order. */
  function Skeleton(text: string, scan: Scan): string {
    if text == [] then []
    else (if scan == Outside && text[0] == ',' then [] else [text[0]]) + Skeleton(text[1..], After(scan, text[0]))
  }

  /** String literals come through untouched, and nothing is lost but commas outside them. */
  lemma {:induction false} KeepsLiterals(text: string, scan: Scan)
    ensures Literals(Stripped(text, scan), scan) == Literals(text, scan)
    ensures Skeleton(Stripped(text, scan), scan) == Skeleton(text, scan)
  {
    if text != [] {
      KeepsLiterals(text[1..], After(scan, text[0]));
      if !IsTrailing(text, scan) {
        var rest := Stripped(text[1..], After(scan, text[0]));
        assert ([text[0]] + rest)[0] == text[0] && ([text[0]] + rest)[1..] == rest;
      }
    }
  }

  /** Skipping white space, the next comes a comma that is itself trailing. */
  predicate TrailingNext(text: string) {
    text != [] && (if IsSpace(text[0]) then TrailingNext(text[1..]) else text[0] == ',' && CloserNext(text[1..]))
  }

  /** Two commas with only white space between them before a closer. */
  predicate Doubled(text: string, scan: Scan) {
    text != []
    && ((scan == Outside && text[0] == ',' && TrailingNext(text[1..])) || Doubled(text[1..], After(scan, text[0])))
  }

  predicate HasTrailing(text: string, scan: Scan) {
    text != [] && (IsTrailing(text, scan) || HasTrailing(text[1..], After(scan, text[0])))
  }

  /** Outside strings, a closer comes next in the stripped text if it did so before, or if all
      that stood in front of it was a trailing comma. */
  lemma {:induction false} CloserNextStripped(text: string)
    ensures CloserNext(Stripped(text, Outside)) <==> CloserNext(text) || TrailingNext(text)
  {
    if text != [] {
      var rest := Stripped(text[1..], Outside);
      CloserNextStripped(text[1..]);
      if IsTrailing(text, Outside) {
        CloserIsNoTrailing(text[1..]);
      } else if After(Outside, text[0]) == Outside {
        assert Stripped(text, Outside) == [text[0]] + rest && ([text[0]] + rest)[1..] == rest;
      }
    }
  }

  lemma {:induction false} CloserIsNoTrailing(text: string)
    requires CloserNext(text)
    ensures CloserNext(Stripped(text, Outside))
  {
    if IsSpace(text[0]) {
      CloserIsNoTrailing(text[1..]);
      var rest := Stripped(text[1..], Outside);
      assert Stripped(text, Outside) == [text[0]] + rest && ([text[0]] + rest)[1..] == rest;
    }
  }

  /** A trailing comma is left over exactly when two commas were doubled before a closer. */
  lemma {:induction false} LeftOverExactlyWhenDoubled(text: string, scan: Scan)
    ensures HasTrailing(Stripped(text, scan), scan) <==> Doubled(text, scan)
  {
    if text != [] {
      var rest := Stripped(text[1..], After(scan, text[0]));
      LeftOverExactlyWhenDoubled(text[1..], After(scan, text[0]));
      if IsTrailing(text, scan) {
        CloserNotTrailingNext(text[1..]);
      } else {
        assert ([text[0]] + rest)[0] == text[0] && ([text[0]] + rest)[1..] == rest;
        if scan == Outside && text[0] == ',' { CloserNextStripped(text[1..]); }
      }
    }
  }

  lemma {:induction false} CloserNotTrailingNext(text: string)
    requires CloserNext(text)
    ensures !TrailingNext(text)
  {
    if IsSpace(text[0]) { CloserNotTrailingNext(text[1..]); }
  }

  lemma {:induction false} StrippedUnchanged(text: string, scan: Scan)
    ensures Stripped(text, scan) == text <==> !HasTrailing(text, scan)
    ensures |Stripped(text, scan)| <= |text|
  {
    if text != [] {
      StrippedUnchanged(text[1..], After(scan, text[0]));
      var rest := Stripped(text[1..], After(scan, text[0]));
      if !IsTrailing(text, scan) { assert ([text[0]] + rest)[1..] == rest; }
    }
  }

  /** A second pass changes nothing exactly when no doubled comma stood before a closer. */
  lemma IdempotentExactlyWhenNotDoubled(text: string)
    ensures Stripped(Stripped(text, Outside), Outside) == Stripped(text, Outside) <==> !Doubled(text, Outside)
  {
    LeftOverExactlyWhenDoubled(text, Outside);
    StrippedUnchanged(Stripped(text, Outside), Outside);
  }

  /** `,,]` becomes `,]`, which a second pass would still change. */
  lemma DoubledCommaSurvives()
    ensures Stripped(",,]", Outside) == ",]" && Stripped(",]", Outside) == "]"
  {
    assert ",,]"[1..] == ",]" && ",]"[1..] == "]" && "]"[1..] == "";
    assert CloserNext("]");
    assert Stripped("]", Outside) == "]";
    assert !CloserNext(",]");
  }

  // ------------------------------------------------------- what goes and stays

  /** What may stand between a trailing comma and its closer. */
  predicate Blank(text: string) { forall k | 0 <= k < |text| :: text[k] in {' ', '\t', '\r', '\n'} }

  lemma {:induction false} CloserAfterBlanks(text: string)
    ensures CloserNext(text) <==> exists j :: 0 <= j < |text| && Blank(text[..j]) && text[j] in {'}', ']'}
    decreases |text|
  {
    if text != "" {
      var rest := text[1..];
      CloserAfterBlanks(rest);
      if IsSpace(text[0]) {
        if j :| 0 <= j < |rest| && Blank(rest[..j]) && rest[j] in {'}', ']'} {
          assert text[..j + 1] == [text[0]] + rest[..j];
          assert Blank(text[..j + 1]) && text[j + 1] == rest[j];
        }
        if j :| 0 <= j < |text| && Blank(text[..j]) && text[j] in {'}', ']'} {
          assert j > 0;
          assert rest[..j - 1] == text[..j][1..] && rest[j - 1] == text[j];
        }
      } else {
        forall j | 0 < j <= |text| ensures !Blank(text[..j]) { assert text[..j][0] == text[0]; }
        if text[0] in {'}', ']'} { assert text[..0] == ""; }
      }
    }
  }

  /** A comma goes exactly if it stands outside strings and only blanks are between it and a closing brace
      or bracket. */
  lemma TrailingExactly(text: string, scan: Scan)
    requires text != ""
    ensures IsTrailing(text, scan) <==>
              && scan == Outside && text[0] == ','
              && exists j :: 0 <= j < |text[1..]| && Blank(text[1..][..j]) && text[1..][j] in {'}', ']'}
  {
    CloserAfterBlanks(text[1..]);
  }

  /** The inside of a string literal: quotes and backslashes are written after a backslash. */
  function Quoted(s: string): string {
    if s == "" then ""
    else (if s[0] == '\"' || s[0] == '\\' then ['\\', s[0]] else [s[0]]) + Quoted(s[1..])
  }

  lemma PassedInside(c: char, tail: string)
    requires c != '\"' && c != '\\'
    ensures Stripped([c] + tail, Inside) == [c] + Stripped(tail, Inside)
  {
    assert ([c] + tail)[1..] == tail;
  }

  lemma PassedEscaped(c: char, tail: string)
    ensures Stripped(['\\', c] + tail, Inside) == ['\\', c] + Stripped(tail, Inside)
  {
    var text := ['\\', c] + tail;
    assert text[1..] == [c] + tail && text[1..][1..] == tail;
    assert Stripped(text[1..], Escaped) == [c] + Stripped(tail, Inside);
  }

  lemma Regrouped(a: string, b: string, c: string, d: string)
    ensures a + b + c + d == a + (b + c + d)
  {
  }

  lemma {:induction false} InsideLiteral(s: string, rest: string)
    ensures Stripped(Quoted(s) + ['\"'] + rest, Inside) == Quoted(s) + ['\"'] + Stripped(rest, Outside)
    decreases |s|
  {
    if s == "" {
      assert Quoted(s) + ['\"'] + rest == ['\"'] + rest && (['\"'] + rest)[1..] == rest;
    } else {
      var escape := s[0] == '\"' || s[0] == '\\';
      var first := if escape then ['\\', s[0]] else [s[0]];
      var tail := Quoted(s[1..]) + ['\"'] + rest;
      InsideLiteral(s[1..], rest);
      if escape { PassedEscaped(s[0], tail); } else { PassedInside(s[0], tail); }
      Regrouped(first, Quoted(s[1..]), ['\"'], rest);
      Regrouped(first, Quoted(s[1..]), ['\"'], Stripped(rest, Outside));
    }
  }

  /** Whatever a string literal contains, commas, brackets and escaped quotes included, it is passed over as
      one piece, and what follows is treated as if it stood alone. */
  lemma LiteralsArePassedOver(s: string, rest: string)
    ensures var literal := ['\"'] + Quoted(s) + ['\"'];
            Stripped(literal + rest, Outside) == literal + Stripped(rest, Outside)
  {
    var tail := Quoted(s) + ['\"'] + rest;
    assert ['\"'] + Quoted(s) + ['\"'] + rest == ['\"'] + tail && (['\"'] + tail)[1..] == tail;
    InsideLiteral(s, rest);
  }
}
