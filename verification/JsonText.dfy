/** JSON text as Go prints it and as the C helper's `strstr`-based readers see it. */
module JsonText {
  import opened Wrappers

  const QUOTE := "\""

  /** `strstr`, returning what follows the first occurrence of `needle`. */
  function Find(text: string, needle: string): Option<string> {
    if needle <= text then Some(text[|needle|..])
    else if text == [] then None
    else Find(text[1..], needle)
  }

  /** How the C code looks for a field: its quoted name and a colon. */
  function Needle(key: string): string {
    QUOTE + key + QUOTE + ":"
  }

  predicate QuoteFree(s: string) {
    forall i :: 0 <= i < |s| ==> s[i] != '"'
  }

  lemma {:induction false} FindSkips(text: string, rest: string, key: string)
    requires QuoteFree(text)
    ensures Find(text + rest, Needle(key)) == Find(rest, Needle(key))
  {
    if text == [] {
      assert text + rest == rest;
    } else {
      assert (text + rest)[0] == text[0] != Needle(key)[0];
      assert (text + rest)[1..] == text[1..] + rest;
      FindSkips(text[1..], rest, key);
    }
  }

  function Digit(n: nat): char
    requires n < 10
  {
    ('0' as int + n) as char
  }

  predicate IsDigit(c: char) {
    '0' <= c <= '9'
  }

  /** `strconv.Itoa` of a natural number. */
  function Itoa(n: nat): (r: string)
    ensures |r| > 0 && QuoteFree(r)
  {
    if n < 10 then [Digit(n)] else Itoa(n / 10) + [Digit(n % 10)]
  }

  /** `strtoul` over the digits at the start of `text`. */
  function Digits(text: string, value: nat): nat {
    if text == [] || !IsDigit(text[0]) then value
    else Digits(text[1..], value * 10 + (text[0] as int - '0' as int))
  }

  lemma {:induction false} DigitsThrough(n: nat, rest: string)
    ensures Digits(Itoa(n) + rest, 0) == Digits(rest, n)
  {
    if n < 10 {
      assert (Itoa(n) + rest)[1..] == rest;
    } else {
      var last := [Digit(n % 10)];
      assert Itoa(n) + rest == Itoa(n / 10) + (last + rest);
      DigitsThrough(n / 10, last + rest);
      assert (last + rest)[1..] == rest;
    }
  }

  /** Reading back a printed number. */
  lemma ItoaRoundTrip(n: nat, rest: string)
    requires rest == [] || !IsDigit(rest[0])
    ensures Digits(Itoa(n) + rest, 0) == n && IsDigit((Itoa(n) + rest)[0])
  {
    DigitsThrough(n, rest);
    FirstDigit(n);
  }

  lemma {:induction false} FirstDigit(n: nat)
    ensures IsDigit(Itoa(n)[0])
  {
    if n >= 10 { FirstDigit(n / 10); }
  }

  lemma {:induction false} ItoaShort(n: nat)
    requires n < 1000
    ensures |Itoa(n)| <= 3
  {
    assert n >= 10 ==> |Itoa(n)| == |Itoa(n / 10)| + 1;
    assert n >= 100 ==> |Itoa(n / 10)| == |Itoa(n / 100)| + 1 by { assert n / 10 / 10 == n / 100; }
  }

  function Hex(n: nat): char
    requires n < 16
  {
    if n < 10 then Digit(n) else ('a' as int + n - 10) as char
  }

  /** U+2028 or U+2029 in UTF-8 at the start of `s`. */
  predicate LineSeparator(s: string) {
    |s| >= 3 && s[0] as int == 0xE2 && s[1] as int == 0x80 && s[2] as int in {0xA8, 0xA9}
  }

  function EncodeByte(c: char): string {
    if c == '\\' || c == '"' then ['\\', c]
    else if c == '\n' then "\\n"
    else if c == '\r' then "\\r"
    else if c == '\t' then "\\t"
    else if c as int == 8 then "\\b"
    else if c as int == 12 then "\\f"
    else if (c as int) < 32 || c in "<>&" then "\\u00" + [Hex(c as int / 16 % 16), Hex(c as int % 16)]
    else [c]
  }

  /** Go's JSON escaping, on valid UTF-8. */
  function Encode(s: string): string {
    if s == [] then ""
    else if LineSeparator(s) then "\\u202" + [Hex(s[2] as int - 0xA0)] + Encode(s[3..])
    else EncodeByte(s[0]) + Encode(s[1..])
  }

  /** Only backslashes need an escape. */
  predicate Plain(s: string) {
    s == [] || (!LineSeparator(s) && s[0] as int >= 32 && s[0] !in "\"<>&" && Plain(s[1..]))
  }

  /** The copying loop of `read_string`; `room` is what the output buffer still holds. */
  function Unquote(text: string, room: nat): Option<string> {
    if text == [] then None
    else if text[0] == '"' then Some("")
    else if room == 0 then None
    else if text[0] == '\\' then
      if |text| > 1 && text[1] in "\\/\"" then Prepend(text[1], Unquote(text[2..], room - 1)) else None
    else Prepend(text[0], Unquote(text[1..], room - 1))
  }

  function Prepend(c: char, rest: Option<string>): Option<string> {
    if rest.Some? then Some([c] + rest.value) else None
  }

  /** How one encoded byte reads back; an escape other than a backslash does not. */
  lemma UnquoteByte(c: char, rest: string, room: nat)
    requires c != '"' && room > 0
    ensures Unquote(EncodeByte(c) + rest, room) ==
            if PlainByte(c) then Prepend(c, Unquote(rest, room - 1)) else None
  {
    var text := EncodeByte(c) + rest;
    if c == '\\' {
      assert text[2..] == rest;
    } else if c as int >= 32 && c !in "<>&" {
      assert text[1..] == rest;
    } else {
      assert text[0] == '\\' && text[1] !in "\\/\"";
    }
  }

  lemma EncodedSeparator(s: string)
    requires LineSeparator(s)
    ensures |Encode(s)| >= 2 && Encode(s)[0] == '\\' && Encode(s)[1] == 'u'
  {
    assert Encode(s) == "\\u202" + ([Hex(s[2] as int - 0xA0)] + Encode(s[3..]));
  }

  lemma UnquoteEscape(text: string, room: nat)
    requires |text| >= 2 && text[0] == '\\' && text[1] == 'u'
    ensures Unquote(text, room) == None
  {
  }

  lemma RoundTripSeparator(s: string, rest: string, room: nat)
    requires LineSeparator(s)
    ensures Unquote(Encode(s) + rest, room) == None && !Plain(s)
  {
    EncodedSeparator(s);
    UnquoteEscape(Encode(s) + rest, room);
  }

  /** A printed string reads back exactly when it is plain. */
  lemma {:induction false} EncodeRoundTrip(s: string, rest: string, room: nat)
    requires QuoteFree(s) && |s| <= room
    ensures Unquote(Encode(s) + (QUOTE + rest), room) == if Plain(s) then Some(s) else None
  {
    if s == [] {
      assert Encode(s) + (QUOTE + rest) == QUOTE + rest;
    } else if LineSeparator(s) {
      RoundTripSeparator(s, QUOTE + rest, room);
    } else {
      EncodeRoundTrip(s[1..], rest, room - 1);
      var next := Encode(s[1..]) + (QUOTE + rest);
      RoundTripByte(s, next, room);
      EncodeStep(s, QUOTE + rest);
    }
  }

  lemma EncodeStep(s: string, rest: string)
    requires s != [] && !LineSeparator(s)
    ensures Encode(s) + rest == EncodeByte(s[0]) + (Encode(s[1..]) + rest)
  {
  }

  lemma RoundTripByte(s: string, next: string, room: nat)
    requires s != [] && s[0] != '"' && !LineSeparator(s) && room > 0
    requires Unquote(next, room - 1) == if Plain(s[1..]) then Some(s[1..]) else None
    ensures Unquote(EncodeByte(s[0]) + next, room) == if Plain(s) then Some(s) else None
  {
    UnquoteByte(s[0], next, room);
    PlainStep(s);
    assert s == [s[0]] + s[1..];
  }

  /** The bytes that C reads back as they were, or after one backslash. */
  predicate PlainByte(c: char) {
    c as int >= 32 && c != '<' && c != '>' && c != '&'
  }

  lemma PlainStep(s: string)
    requires s != [] && s[0] != '"' && !LineSeparator(s)
    ensures Plain(s) <==> PlainByte(s[0]) && Plain(s[1..])
  {
  }

  lemma {:induction false} EncodeQuoteFree(s: string)
    requires QuoteFree(s)
    ensures QuoteFree(Encode(s))
  {
    if s != [] {
      if LineSeparator(s) {
        EncodeQuoteFree(s[3..]);
      } else {
        EncodeQuoteFree(s[1..]);
      }
    }
  }

  /** `find_object_end`: the position of the first closing brace outside strings. */
  function ObjectEnd(text: string, inString: bool, escaped: bool): Option<nat> {
    if text == [] then None
    else if !inString && text[0] == '}' then Some(0)
    else
      var in' := if inString then escaped || text[0] != '"' else text[0] == '"';
      var escaped' := inString && !escaped && text[0] == '\\';
      var end := ObjectEnd(text[1..], in', escaped');
      if end.Some? then Some(end.value + 1) else None
  }

  lemma EndInside(text: string, inString: bool, escaped: bool)
    ensures var end := ObjectEnd(text, inString, escaped); end.Some? ==> end.value < |text| && text[end.value] == '}'
  {
  }

  /** Text that keeps the scanner outside strings, or inside one, is skipped. */
  lemma {:induction false} ObjectEndOutside(text: string, rest: string)
    requires QuoteFree(text) && '}' !in text
    ensures ObjectEnd(text + rest, false, false) == Shift(|text|, ObjectEnd(rest, false, false))
  {
    if text == [] {
      assert text + rest == rest;
    } else {
      assert (text + rest)[1..] == text[1..] + rest;
      ObjectEndOutside(text[1..], rest);
    }
  }

  function Shift(n: nat, end: Option<nat>): Option<nat> {
    if end.Some? then Some(n + end.value) else None
  }

  lemma {:induction false} ObjectEndString(s: string, rest: string)
    requires QuoteFree(s)
    ensures ObjectEnd(Encode(s) + rest, true, false) == Shift(|Encode(s)|, ObjectEnd(rest, true, false))
  {
    if s == [] {
      assert Encode(s) + rest == rest;
    } else {
      var head := if LineSeparator(s) then "\\u202" + [Hex(s[2] as int - 0xA0)] else EncodeByte(s[0]);
      var tail := if LineSeparator(s) then s[3..] else s[1..];
      assert Encode(s) == head + Encode(tail);
      assert Encode(s) + rest == head + (Encode(tail) + rest);
      ObjectEndEscape(head, Encode(tail) + rest);
      ObjectEndString(tail, rest);
    }
  }

  /** One plain character, or one escape, keeps the scanner inside its string. */
  lemma ObjectEndEscape(head: string, rest: string)
    requires |head| in {1, 2, 6} && (|head| == 1 ==> head[0] !in "\\\"") && (|head| > 1 ==> head[0] == '\\')
    requires forall i :: 2 <= i < |head| ==> head[i] !in "\\\""
    ensures ObjectEnd(head + rest, true, false) == Shift(|head|, ObjectEnd(rest, true, false))
  {
    assert (head + rest)[1..] == head[1..] + rest;
    if |head| == 1 {
      assert head[1..] + rest == rest;
    } else {
      assert (head[1..] + rest)[1..] == head[2..] + rest;
      ObjectEndLiteral(head[2..], rest);
    }
  }

  lemma {:induction false} ObjectEndLiteral(text: string, rest: string)
    requires forall i :: 0 <= i < |text| ==> text[i] !in "\\\""
    ensures ObjectEnd(text + rest, true, false) == Shift(|text|, ObjectEnd(rest, true, false))
  {
    if text == [] {
      assert text + rest == rest;
    } else {
      assert (text + rest)[1..] == text[1..] + rest;
      ObjectEndLiteral(text[1..], rest);
    }
  }


  predicate KeyOk(key: string) {
    key != [] && QuoteFree(key) && key[0] != ':' && key[0] != ',' && key[0] != '}'
  }

  /** A field of printed JSON with the text up to the next one: a string value, or any quote-free text. */
  datatype Field = Str(key: string, value: string, after: string) | Raw(key: string, text: string) {
    /** The field, and what follows it. */
    function Then(more: string): string {
      QUOTE + (key + (QUOTE + (":" + ValueThen(more))))
    }

    /** Everything after the field's colon. */
    function ValueThen(more: string): string {
      if Str? then QUOTE + (Encode(value) + (QUOTE + (after + more))) else text + more
    }

    function Size(): nat {
      |key| + 3 + if Str? then |Encode(value)| + 2 + |after| else |text|
    }

    ghost predicate Ok() {
      && KeyOk(key)
      && (Str? ==> QuoteFree(value) && QuoteFree(after) && after != [] && (after[0] == ',' || after[0] == '}'))
      && (Raw? ==> QuoteFree(text))
    }
  }

  lemma Assoc(a: string, b: string, c: string)
    ensures (a + b) + c == a + (b + c)
  {
  }

  /** The field's name and colon are at this quote only if the quoted text is the name, and a colon follows. */
  lemma NotHere(inner: string, more: string, key: string)
    requires QuoteFree(inner) && QuoteFree(key) && Needle(key) <= QUOTE + (inner + (QUOTE + more))
    ensures inner == key && more != [] && more[0] == ':'
  {
    var text, needle := QUOTE + (inner + (QUOTE + more)), Needle(key);
    assert needle[|key| + 1] == '"' == text[|key| + 1] && text[|inner| + 1] == '"';
    assert forall j :: 1 <= j <= |key| ==> text[j] == needle[j] == key[j - 1] != '"';
    assert forall j :: 1 <= j <= |inner| ==> text[j] == inner[j - 1] != '"';
    assert |key| == |inner|;
    forall i | 0 <= i < |key| ensures key[i] == inner[i] {
      assert text[i + 1] == key[i] == inner[i];
    }
    assert needle[|key| + 2] == ':' == text[|inner| + 2];
  }

  /** A quoted string that is not the wanted name is passed. */
  lemma FindPastString(inner: string, more: string, key: string)
    requires QuoteFree(inner) && QuoteFree(key) && key != [] && more != [] && more[0] != key[0] && more[0] != '"'
    requires inner != key || more[0] != ':'
    ensures Find(QUOTE + (inner + (QUOTE + more)), Needle(key)) == Find(more, Needle(key))
  {
    if Needle(key) <= QUOTE + (inner + (QUOTE + more)) { NotHere(inner, more, key); }
    assert (QUOTE + (inner + (QUOTE + more)))[1..] == inner + (QUOTE + more);
    FindSkips(inner, QUOTE + more, key);
    assert Needle(key)[1] == key[0] && (QUOTE + more)[1] == more[0];
    assert (QUOTE + more)[1..] == more;
  }

  /** A field of another name is passed. */
  lemma FindPastField(f: Field, more: string, key: string)
    requires f.Ok() && KeyOk(key) && key != f.key
    ensures Find(f.Then(more), Needle(key)) == Find(more, Needle(key))
  {
    FindPastString(f.key, ":" + f.ValueThen(more), key);
    FindSkips(":", f.ValueThen(more), key);
    if f.Raw? {
      FindSkips(f.text, more, key);
    } else {
      EncodeQuoteFree(f.value);
      FindPastString(Encode(f.value), f.after + more, key);
      FindSkips(f.after, more, key);
    }
  }

  lemma FindPrefix(needle: string, rest: string)
    ensures Find(needle + rest, needle) == Some(rest)
  {
    assert (needle + rest)[|needle|..] == rest;
  }

  lemma NeedleFirst(key: string, value: string)
    ensures QUOTE + (key + (QUOTE + (":" + value))) == Needle(key) + value
  {
  }

  lemma FindHere(f: Field, more: string)
    ensures Find(f.Then(more), Needle(f.key)) == Some(f.ValueThen(more))
  {
    NeedleFirst(f.key, f.ValueThen(more));
    FindPrefix(Needle(f.key), f.ValueThen(more));
  }

  /** A field is found after quote-free text and fields of other names. */
  lemma FindAfter(lead: string, before: seq<Field>, f: Field, more: string)
    requires QuoteFree(lead) && f.Ok()
    requires forall i :: 0 <= i < |before| ==> before[i].Ok() && before[i].key != f.key
    ensures Find(lead + Chain(before, f.Then(more)), Needle(f.key)) == Some(f.ValueThen(more))
  {
    FindSkips(lead, Chain(before, f.Then(more)), f.key);
    FindThrough(before, f.Then(more), f.key);
    FindHere(f, more);
  }

  /** Fields one after the other, then `more`. */
  function Chain(fields: seq<Field>, more: string): string {
    if fields == [] then more else fields[0].Then(Chain(fields[1..], more))
  }

  lemma {:induction false} FindThrough(before: seq<Field>, more: string, key: string)
    requires KeyOk(key) && forall i :: 0 <= i < |before| ==> before[i].Ok() && before[i].key != key
    ensures Find(Chain(before, more), Needle(key)) == Find(more, Needle(key))
  {
    if before != [] {
      FindPastField(before[0], Chain(before[1..], more), key);
      FindThrough(before[1..], more, key);
    }
  }

  lemma {:induction false} ChainSplit(fields: seq<Field>, more: string, k: nat)
    requires k < |fields|
    ensures Chain(fields, more) == Chain(fields[..k], fields[k].Then(Chain(fields[k + 1..], more)))
  {
    if k > 0 {
      ChainSplit(fields[1..], more, k - 1);
      assert fields[1..][..k - 1] == fields[..k][1..] && fields[1..][k..] == fields[k + 1..];
    }
  }

  ghost predicate GoodFields(fields: seq<Field>) {
    && (forall i :: 0 <= i < |fields| ==> fields[i].Ok())
    && forall i, j :: 0 <= i < j < |fields| ==> fields[i].key != fields[j].key
  }

  /** Each of several fields with different names is found by its name. */
  lemma FindIn(lead: string, fields: seq<Field>, more: string, k: nat)
    requires QuoteFree(lead) && GoodFields(fields) && k < |fields|
    ensures Find(lead + Chain(fields, more), Needle(fields[k].key)) ==
            Some(fields[k].ValueThen(Chain(fields[k + 1..], more)))
  {
    ChainSplit(fields, more, k);
    FindAfter(lead, fields[..k], fields[k], Chain(fields[k + 1..], more));
  }

  /** A piece that starts and ends inside a string. */
  ghost predicate Inside(piece: string) {
    forall rest: string :: ObjectEnd(piece + rest, true, false) == Shift(|piece|, ObjectEnd(rest, true, false))
  }

  lemma EncodedInside(s: string)
    requires QuoteFree(s)
    ensures Inside(Encode(s))
  {
    forall rest: string ensures ObjectEnd(Encode(s) + rest, true, false) ==
      Shift(|Encode(s)|, ObjectEnd(rest, true, false)) {
      ObjectEndString(s, rest);
    }
  }

  lemma LiteralInside(s: string)
    requires forall i :: 0 <= i < |s| ==> s[i] !in "\\\""
    ensures Inside(s)
  {
    forall rest: string ensures ObjectEnd(s + rest, true, false) == Shift(|s|, ObjectEnd(rest, true, false)) {
      ObjectEndLiteral(s, rest);
    }
  }

  function Count(s: string, c: char): nat {
    if s == [] then 0 else (if s[0] == c then 1 else 0) + Count(s[1..], c)
  }

  lemma {:induction false} EncodeLength(s: string)
    requires Plain(s)
    ensures |Encode(s)| == |s| + Count(s, '\\')
  {
    if s != [] { EncodeLength(s[1..]); }
  }

  lemma AtQuote(rest: string, inString: bool)
    ensures ObjectEnd(QUOTE + rest, inString, false) == Shift(1, ObjectEnd(rest, !inString, false))
  {
    assert (QUOTE + rest)[1..] == rest;
  }

  /** The scanner passes a string. */
  lemma EndPastString(inner: string, more: string)
    requires Inside(inner)
    ensures ObjectEnd(QUOTE + (inner + (QUOTE + more)), false, false) ==
            Shift(|inner| + 2, ObjectEnd(more, false, false))
  {
    AtQuote(inner + (QUOTE + more), false);
    AtQuote(more, true);
  }

  /** The scanner passes a field that holds no brace outside strings. */
  lemma EndPastField(f: Field, more: string)
    requires f.Ok() && Inside(f.key) && (if f.Str? then '}' !in f.after else '}' !in f.text)
    ensures ObjectEnd(f.Then(more), false, false) == Shift(f.Size(), ObjectEnd(more, false, false))
  {
    EndPastString(f.key, ":" + f.ValueThen(more));
    ObjectEndOutside(":", f.ValueThen(more));
    EndPastValue(f, more);
  }

  lemma EndPastValue(f: Field, more: string)
    requires f.Ok() && (if f.Str? then '}' !in f.after else '}' !in f.text)
    ensures ObjectEnd(f.ValueThen(more), false, false) == Shift(f.Size() - |f.key| - 3, ObjectEnd(more, false, false))
  {
    if f.Raw? {
      ObjectEndOutside(f.text, more);
    } else {
      EncodedInside(f.value);
      EndPastString(Encode(f.value), f.after + more);
      ObjectEndOutside(f.after, more);
    }
  }

  function ChainSize(fields: seq<Field>): nat {
    if fields == [] then 0 else fields[0].Size() + ChainSize(fields[1..])
  }

  /** No brace outside the strings of the fields. */
  ghost predicate Braceless(fields: seq<Field>) {
    forall i :: 0 <= i < |fields| ==>
      fields[i].Ok() && Inside(fields[i].key) && (if fields[i].Str? then '}' !in fields[i].after
        else '}' !in fields[i].text)
  }

  lemma {:induction false} EndPastChain(fields: seq<Field>, more: string)
    requires Braceless(fields)
    ensures ObjectEnd(Chain(fields, more), false, false) == Shift(ChainSize(fields), ObjectEnd(more, false, false))
  {
    if fields != [] {
      EndPastChain(fields[1..], more);
      EndPastField(fields[0], Chain(fields[1..], more));
    }
  }

  lemma ThenAppend(f: Field, more: string, rest: string)
    ensures f.Then(more) + rest == f.Then(more + rest) && |f.Then(more)| == f.Size() + |more|
  {
    assert f.ValueThen(more) + rest == f.ValueThen(more + rest);
  }

  lemma {:induction false} ChainAppend(fields: seq<Field>, more: string, rest: string)
    ensures Chain(fields, more) + rest == Chain(fields, more + rest) &&
            |Chain(fields, more)| == ChainSize(fields) + |more|
  {
    if fields != [] {
      ChainAppend(fields[1..], more, rest);
      ThenAppend(fields[0], Chain(fields[1..], more), rest);
    }
  }
}
