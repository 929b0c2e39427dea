/** The balanced-brace scanner `extract_json` of core/llm.py, against a JSON printer
    (sections 4 and 7 of RFC 8259). */
module Scanner {
  import opened Common

  datatype ScanError = EmptyResponse | NoObject | Unbalanced

  /** The scanner's registers. */
  datatype Scan = Scan(depth: int, inStr: bool, esc: bool)

  const START := Scan(0, false, false)

  /** One character read. */
  function Read(s: Scan, ch: char): Scan {
    if s.esc then s.(esc := false)
    else if ch == '\\' then s.(esc := true)
    else if ch == '"' then s.(inStr := !s.inStr)
    else if s.inStr then s
    else if ch == '{' then s.(depth := s.depth + 1)
    else if ch == '}' then s.(depth := s.depth - 1)
    else s
  }

  function ReadAll(s: Scan, text: string): Scan
    decreases |text|
  {
    if text == "" then s else Read(ReadAll(s, text[..|text| - 1]), text[|text| - 1])
  }

  /** The scanner stops on this character: a brace outside any string closed the last object. */
  predicate Closes(s: Scan, ch: char) {
    !s.esc && !s.inStr && ch == '}' && s.depth == 1
  }

  /** The scanner closes after exactly the first n characters of text. */
  predicate ClosesAt(text: string, n: nat) {
    0 < n <= |text| && Closes(ReadAll(START, text[..n - 1]), text[n - 1])
  }

  /** Index of the first opening brace, or the length of the text. */
  function FirstBrace(text: string): (i: nat)
    ensures i <= |text|
    ensures i < |text| ==> text[i] == '{'
    ensures forall k :: 0 <= k < i ==> text[k] != '{'
  {
    if text == "" || text[0] == '{' then 0 else 1 + FirstBrace(text[1..])
  }

  /** The least closing position from n on. */
  function FirstClose(text: string, n: nat): (r: Option<nat>)
    ensures r.Some? ==> n <= r.value && ClosesAt(text, r.value)
    ensures r.Some? ==> forall m :: n <= m < r.value ==> !ClosesAt(text, m)
    ensures r.None? ==> forall m :: n <= m ==> !ClosesAt(text, m)
    decreases |text| + 1 - n
  {
    if |text| < n then None
    else if ClosesAt(text, n) then Some(n)
    else FirstClose(text, n + 1)
  }

  /** What `extract_json` returns: the shortest slice from the first brace at which the depth
      returns to zero. */
  function Extracted(text: string): Result<string, ScanError> {
    var tail := text[FirstBrace(text)..];
    if text == "" then Err(EmptyResponse)
    else if tail == "" then Err(NoObject)
    else match FirstClose(tail, 1)
      case Some(n) => Ok(tail[..n])
      case None => Err(Unbalanced)
  }

  /** `extract_json`, character by character. It fails exactly when no slice from the first brace
      closes, and otherwise returns the shortest that does. */
  method ExtractJson(text: string) returns (r: Result<string, ScanError>)
    ensures r == Extracted(text)
    ensures var tail := text[FirstBrace(text)..];
            && (r.Ok? <==> exists n :: ClosesAt(tail, n))
            && (r.Ok? ==>
                  && r.value <= tail && ClosesAt(tail, |r.value|)
                  && forall m :: ClosesAt(tail, m) ==> |r.value| <= m)
    ensures r == Err(NoObject) <==> text != "" && '{' !in text
  {
    var start := FirstBrace(text);
    if text == "" {
      return Err(EmptyResponse);
    }
    if start == |text| {
      return Err(NoObject);
    }
    assert text[start] in text;
    ghost var tail := text[start..];
    var depth, inStr, esc := 0, false, false;
    var i := start;
    while i < |text|
      invariant start <= i <= |text|
      invariant Scan(depth, inStr, esc) == ReadAll(START, tail[..i - start])
      invariant forall m :: ClosesAt(tail, m) ==> i - start < m
    {
      var ch := text[i];
      assert tail[..i - start + 1][..i - start] == tail[..i - start] && tail[i - start] == ch;
      if esc {
        esc := false;
      } else if ch == '\\' {
        esc := true;
      } else if ch == '"' {
        inStr := !inStr;
      } else if inStr {
      } else if ch == '{' {
        depth := depth + 1;
      } else if ch == '}' {
        depth := depth - 1;
        if depth == 0 {
          assert ClosesAt(tail, i - start + 1);
          assert text[start..i + 1] == tail[..i - start + 1];
          return Ok(text[start..i + 1]);
        }
      }
      i := i + 1;
    }
    return Err(Unbalanced);
  }

  // --------------------------------------------------------------------- the printer

  /** A JSON value. A number is its text. */
  datatype Json =
    | Null
    | Bool(b: bool)
    | Number(text: string)
    | Str(chars: string)
    | Array(items: seq<Json>)
    | Object(members: seq<(string, Json)>)

  /** Text without braces, quotes or backslashes, which the scanner reads without moving. */
  predicate Plain(s: string) {
    forall c :: c in s ==> c != '{' && c != '}' && c != '"' && c != '\\'
  }

  /** Separators: a comma and a colon with whatever blanks the printer puts around them. */
  datatype Style = Style(comma: string, colon: string) {
    predicate Valid() { Plain(comma) && Plain(colon) }
  }

  predicate WellFormed(v: Json) {
    match v
    case Number(text) => Plain(text)
    case Array(items) => forall x :: x in items ==> WellFormed(x)
    case Object(members) => forall m :: m in members ==> WellFormed(m.1)
    case _ => true
  }

  function HexDigit(n: nat): char
    requires n < 16
  {
    "0123456789abcdef"[n]
  }

  /** A character inside a string: quotes, backslashes and control characters are escaped. */
  function PrintChar(c: char): string {
    if c == '"' then "\\\""
    else if c == '\\' then "\\\\"
    else if c < ' ' then "\\u00" + [HexDigit(c as int / 16), HexDigit(c as int % 16)]
    else [c]
  }

  function PrintChars(s: string): string {
    if s == "" then "" else PrintChars(s[..|s| - 1]) + PrintChar(s[|s| - 1])
  }

  function PrintString(s: string): string { "\"" + PrintChars(s) + "\"" }

  function Print(v: Json, style: Style): string
    decreases v
  {
    match v
    case Null => "null"
    case Bool(b) => if b then "true" else "false"
    case Number(text) => text
    case Str(chars) => PrintString(chars)
    case Array(items) => "[" + PrintItems(v, items, style) + "]"
    case Object(members) => "{" + PrintMembers(v, members, style) + "}"
  }

  function PrintItems(v: Json, items: seq<Json>, style: Style): string
    requires v.Array? && items <= v.items
    decreases v, |items|
  {
    if items == [] then ""
    else
      var front, last := items[..|items| - 1], items[|items| - 1];
      PrintItems(v, front, style) + (if front == [] then "" else style.comma) + Print(last, style)
  }

  function PrintMembers(v: Json, members: seq<(string, Json)>, style: Style): string
    requires v.Object? && members <= v.members
    decreases v, |members|
  {
    if members == [] then ""
    else
      var front, last := members[..|members| - 1], members[|members| - 1];
      PrintMembers(v, front, style) + (if front == [] then "" else style.comma)
      + PrintString(last.0) + style.colon + Print(last.1, style)
  }

  // ---------------------------------------------------------------------- round trip

  /** Reading this text from s leaves s as it was and closes nothing on the way. */
  ghost predicate Quiet(s: Scan, text: string) {
    ReadAll(s, text) == s && forall n :: 0 <= n < |text| ==> !Closes(ReadAll(s, text[..n]), text[n])
  }

  lemma {:induction false} ReadAllConcat(s: Scan, a: string, b: string)
    ensures ReadAll(s, a + b) == ReadAll(ReadAll(s, a), b)
    decreases |b|
  {
    if b == "" {
      assert a + b == a;
    } else {
      ReadAllConcat(s, a, b[..|b| - 1]);
      assert (a + b)[..|a + b| - 1] == a + b[..|b| - 1];
    }
  }

  /** A backslash and the character behind it are read as if they were not there, inside a string or outside: no
      brace, quote or backslash so escaped does anything. */
  lemma EscapedPairIsSkipped(s: Scan, a: string, c: char, b: string)
    requires !ReadAll(s, a).esc
    ensures ReadAll(s, a + ['\\', c] + b) == ReadAll(s, a + b)
    ensures !Closes(ReadAll(s, a + ['\\']), c) && !Closes(ReadAll(s, a), '\\')
  {
    var pair := ['\\', c];
    assert pair[..1] == ['\\'] && ['\\'][..0] == [];
    ReadAllConcat(s, a, ['\\']);
    ReadAllConcat(s, a, pair);
    ReadAllConcat(s, a + pair, b);
    ReadAllConcat(s, a, b);
  }

  lemma QuietConcat(s: Scan, a: string, b: string)
    requires Quiet(s, a) && Quiet(s, b)
    ensures Quiet(s, a + b)
  {
    ReadAllConcat(s, a, b);
    forall n | 0 <= n < |a + b| ensures !Closes(ReadAll(s, (a + b)[..n]), (a + b)[n]) {
      if n < |a| {
        assert (a + b)[..n] == a[..n];
      } else {
        assert (a + b)[..n] == a + b[..n - |a|];
        ReadAllConcat(s, a, b[..n - |a|]);
      }
    }
  }

  lemma QuietConcat3(s: Scan, a: string, b: string, c: string)
    requires Quiet(s, a) && Quiet(s, b) && Quiet(s, c)
    ensures Quiet(s, a + b + c)
  {
    QuietConcat(s, a, b);
    QuietConcat(s, a + b, c);
  }

  lemma {:induction false} PlainIsQuiet(s: Scan, text: string)
    requires !s.esc && Plain(text)
    ensures Quiet(s, text)
  {
    if text != "" {
      var front, last := text[..|text| - 1], text[|text| - 1];
      assert text == front + [last];
      assert last in text && forall c :: c in front ==> c in text;
      PlainIsQuiet(s, front);
      forall n | 0 <= n < |text| ensures !Closes(ReadAll(s, text[..n]), text[n]) {
        assert text[n] in text;
      }
    }
  }

  lemma EscapeIsQuiet(s: Scan, e: char)
    requires s.inStr && !s.esc
    ensures Quiet(s, ['\\', e])
  {
    var text := ['\\', e];
    assert text[..0] == "" && text[..1] == ['\\'] && ['\\'][..0] == "";
    assert ReadAll(s, text[..1]) == s.(esc := true);
  }

  lemma PrintCharIsQuiet(s: Scan, c: char)
    requires s.inStr && !s.esc
    ensures Quiet(s, PrintChar(c))
  {
    if c == '"' {
      EscapeIsQuiet(s, '"');
      assert PrintChar(c) == ['\\', '"'];
    } else if c == '\\' {
      EscapeIsQuiet(s, '\\');
      assert PrintChar(c) == ['\\', '\\'];
    } else if c < ' ' {
      var rest := "00" + [HexDigit(c as int / 16), HexDigit(c as int % 16)];
      EscapeIsQuiet(s, 'u');
      PlainIsQuiet(s, rest);
      QuietConcat(s, ['\\', 'u'], rest);
      assert "\\u00" == ['\\', 'u', '0', '0'] && "00" == ['0', '0'];
      assert PrintChar(c) == ['\\', 'u'] + rest;
    } else {
      assert [c][..0] == "";
    }
  }

  lemma {:induction false} PrintCharsIsQuiet(s: Scan, chars: string)
    requires s.inStr && !s.esc
    ensures Quiet(s, PrintChars(chars))
  {
    if chars != "" {
      PrintCharsIsQuiet(s, chars[..|chars| - 1]);
      PrintCharIsQuiet(s, chars[|chars| - 1]);
      QuietConcat(s, PrintChars(chars[..|chars| - 1]), PrintChar(chars[|chars| - 1]));
    }
  }

  /** Text between an opening and a closing character which the scanner reads quietly in the
      state the opening one leads to, and whose closing one leads back without closing. */
  lemma Enclosed(s: Scan, opening: char, inner: string, closing: char)
    requires !Closes(s, opening) && Quiet(Read(s, opening), inner)
    requires Read(Read(s, opening), closing) == s && !Closes(Read(s, opening), closing)
    ensures Quiet(s, [opening] + inner + [closing])
  {
    var t, text := Read(s, opening), [opening] + inner + [closing];
    assert [opening][..0] == "" && ReadAll(s, [opening]) == t;
    forall n | 0 < n <= |inner| + 1 ensures ReadAll(s, text[..n]) == ReadAll(t, inner[..n - 1]) {
      assert text[..n] == [opening] + inner[..n - 1];
      ReadAllConcat(s, [opening], inner[..n - 1]);
    }
    assert inner[..|inner|] == inner && text[..|text| - 1] == text[..|inner| + 1];
    assert text[..0] == "";
  }

  lemma StringIsQuiet(s: Scan, chars: string)
    requires !s.inStr && !s.esc
    ensures Quiet(s, PrintString(chars))
  {
    PrintCharsIsQuiet(Read(s, '"'), chars);
    Enclosed(s, '"', PrintChars(chars), '"');
    assert PrintString(chars) == ['"'] + PrintChars(chars) + ['"'];
  }

  /** Inside an object, every printed value is read quietly. */
  lemma {:induction false} ValueIsQuiet(s: Scan, v: Json, style: Style)
    requires s.depth >= 1 && !s.inStr && !s.esc && WellFormed(v) && style.Valid()
    ensures Quiet(s, Print(v, style))
    decreases v
  {
    match v
    case Null => PlainIsQuiet(s, "null");
    case Bool(b) => PlainIsQuiet(s, if b then "true" else "false");
    case Number(text) => PlainIsQuiet(s, text);
    case Str(chars) => StringIsQuiet(s, chars);
    case Array(items) =>
      ItemsAreQuiet(s, v, items, style);
      Enclosed(s, '[', PrintItems(v, items, style), ']');
      assert Print(v, style) == ['['] + PrintItems(v, items, style) + [']'];
    case Object(members) =>
      MembersAreQuiet(s.(depth := s.depth + 1), v, members, style);
      Enclosed(s, '{', PrintMembers(v, members, style), '}');
      assert Print(v, style) == ['{'] + PrintMembers(v, members, style) + ['}'];
  }

  lemma {:induction false} ItemsAreQuiet(s: Scan, v: Json, items: seq<Json>, style: Style)
    requires s.depth >= 1 && !s.inStr && !s.esc && style.Valid()
    requires v.Array? && items <= v.items && forall x :: x in items ==> WellFormed(x)
    ensures Quiet(s, PrintItems(v, items, style))
    decreases v, |items|
  {
    if items != [] {
      var front, last := items[..|items| - 1], items[|items| - 1];
      assert last in items;
      ItemsAreQuiet(s, v, front, style);
      ValueIsQuiet(s, last, style);
      var comma := if front == [] then "" else style.comma;
      PlainIsQuiet(s, comma);
      QuietConcat3(s, PrintItems(v, front, style), comma, Print(last, style));
    }
  }

  lemma {:induction false} MembersAreQuiet(s: Scan, v: Json, members: seq<(string, Json)>, style: Style)
    requires s.depth >= 1 && !s.inStr && !s.esc && style.Valid()
    requires v.Object? && members <= v.members && forall m :: m in members ==> WellFormed(m.1)
    ensures Quiet(s, PrintMembers(v, members, style))
    decreases v, |members|
  {
    if members != [] {
      var front, last := members[..|members| - 1], members[|members| - 1];
      assert last in members;
      MembersAreQuiet(s, v, front, style);
      StringIsQuiet(s, last.0);
      ValueIsQuiet(s, last.1, style);
      var comma := if front == [] then "" else style.comma;
      PlainIsQuiet(s, comma);
      PlainIsQuiet(s, style.colon);
      var head := PrintMembers(v, front, style);
      QuietConcat3(s, head, comma, PrintString(last.0));
      QuietConcat3(s, head + comma + PrintString(last.0), style.colon, Print(last.1, style));
    }
  }

  /** Between an opening brace and its closing one, quiet text keeps the scanner at depth one. */
  lemma DepthOneInside(inner: string, n: nat)
    requires n <= |inner|
    ensures ReadAll(START, "{" + inner[..n]) == ReadAll(Scan(1, false, false), inner[..n])
  {
    assert "{"[..0] == "" && ReadAll(START, "{") == Scan(1, false, false);
    ReadAllConcat(START, "{", inner[..n]);
  }

  /** Quiet text in braces closes at the closing brace and nowhere before. */
  lemma BracedClosesAtEnd(inner: string, suffix: string, n: nat)
    requires Quiet(Scan(1, false, false), inner) && n <= |inner| + 2
    ensures ClosesAt("{" + inner + "}" + suffix, n) <==> n == |inner| + 2
  {
    var text := "{" + inner + "}" + suffix;
    if n == 1 {
      assert text[..0] == "";
    } else if n > 1 {
      assert text[..n - 1] == "{" + inner[..n - 2];
      DepthOneInside(inner, n - 2);
      if n == |inner| + 2 {
        assert inner[..n - 2] == inner;
      }
    }
  }

  /** A printed object closes at its last character and not before. */
  lemma ObjectClosesAtEnd(v: Json, style: Style, suffix: string, n: nat)
    requires v.Object? && WellFormed(v) && style.Valid() && n <= |Print(v, style)|
    ensures ClosesAt(Print(v, style) + suffix, n) <==> n == |Print(v, style)|
  {
    var inner := PrintMembers(v, v.members, style);
    MembersAreQuiet(Scan(1, false, false), v, v.members, style);
    BracedClosesAtEnd(inner, suffix, n);
    assert Print(v, style) == "{" + inner + "}";
  }

  /** The scanner inverts the printer: for every object, whatever text without a brace comes before
      it and whatever text comes after, the object's own text is what comes back. */
  lemma ScannerInvertsPrinter(prefix: string, v: Json, style: Style, suffix: string)
    requires '{' !in prefix && v.Object? && WellFormed(v) && style.Valid()
    ensures Extracted(prefix + Print(v, style) + suffix) == Ok(Print(v, style))
  {
    var p := Print(v, style);
    var text := prefix + p + suffix;
    assert p[0] == '{' && text[|prefix|] == '{';
    assert FirstBrace(text) == |prefix| by {
      forall k | 0 <= k < |prefix| ensures text[k] != '{' {
        assert prefix[k] in prefix;
      }
    }
    var tail := text[|prefix|..];
    assert tail == p + suffix;
    forall n: nat | n <= |p| ensures ClosesAt(tail, n) <==> n == |p| {
      ObjectClosesAtEnd(v, style, suffix, n);
    }
    assert ClosesAt(tail, |p|);
    assert FirstClose(tail, 1) == Some(|p|);
    assert tail[..|p|] == p;
  }
}
