/** The cursor loops of the C helper's parser, against the functions that specify them. */
module RouterParser {
  import opened Wrappers
  import opened Rules
  import opened JsonText
  import opened RouterJson

  function After(prefix: string, rest: Option<string>): Option<string> {
    if rest.Some? then Some(prefix + rest.value) else None
  }

  lemma AfterNothing(rest: Option<string>)
    ensures After("", rest) == rest
  {
    if rest.Some? { assert "" + rest.value == rest.value; }
  }

  lemma AfterOne(prefix: string, c: char, rest: Option<string>)
    ensures After(prefix, Prepend(c, rest)) == After(prefix + [c], rest)
  {
    if rest.Some? { assert prefix + ([c] + rest.value) == (prefix + [c]) + rest.value; }
  }

  /** `read_string`. */
  method ReadStringLoop(text: string, key: string, size: nat) returns (output: Option<string>)
    requires size > 0
    ensures output == ReadString(text, key, size)
  {
    var found := Find(text, Needle(key));
    if found == None || found.value == [] || found.value[0] != '"' { return None; }
    var value, copied := found.value[1..], "";
    ghost var result := Unquote(value, size - 1);
    AfterNothing(result);
    while value != [] && value[0] != '"' && |copied| + 1 < size
      invariant |copied| < size
      invariant result == After(copied, Unquote(value, size - 1 - |copied|))
      decreases |value|
    {
      ghost var before, room := value, size - 1 - |copied|;
      if value[0] == '\\' {
        value := value[1..];
        if value == [] || value[0] !in "\\/\"" { return None; }
      }
      assert Unquote(before, room) == Prepend(value[0], Unquote(value[1..], room - 1));
      AfterOne(copied, value[0], Unquote(value[1..], room - 1));
      copied, value := copied + [value[0]], value[1..];
    }
    assert copied + "" == copied;
    if value == [] || value[0] != '"' { return None; }
    return Some(copied);
  }

  /** `find_object_end`. */
  method FindObjectEnd(text: string) returns (end: Option<nat>)
    ensures end == ObjectEnd(text, false, false)
  {
    var inString, escaped := false, false;
    var i := 0;
    while i < |text|
      invariant 0 <= i <= |text|
      invariant ObjectEnd(text, false, false) == Shift(i, ObjectEnd(text[i..], inString, escaped))
      invariant escaped ==> inString
    {
      assert text[i..][1..] == text[i + 1..];
      if inString {
        if escaped {
          escaped := false;
        } else if text[i] == '\\' {
          escaped := true;
        } else if text[i] == '"' {
          inString := false;
        }
      } else if text[i] == '"' {
        inString := true;
      } else if text[i] == '}' {
        return Some(i);
      }
      i := i + 1;
    }
    return None;
  }

  /** `parse_rules`, from the text after the opening bracket. */
  method ParseRules(text: string) returns (result: Option<ParsedList>)
    ensures result == ParseList(text, EMPTY)
  {
    var cursor, sofar := text, EMPTY;
    while cursor != [] && cursor[0] != ']'
      invariant ParseList(text, EMPTY) == ParseList(cursor, sofar)
      decreases |cursor|
    {
      var start := SkipSeparators(cursor);
      SkipShortens(cursor);
      if start == [] || start[0] != '{' || |sofar.rules| >= MAX_RULES { return None; }
      var end := FindObjectEnd(start);
      EndInside(start, false, false);
      if end == None || end.value + 1 >= MAX_OBJECT { return None; }
      var rule := ParseObject(start[..end.value + 1], |sofar.rules|);
      if rule == None { return None; }
      var list := Some(sofar.enabledProcesses);
      if rule.value.enabled {
        list := AppendPattern(sofar.enabledProcesses, rule.value.processPattern);
        if list == None { return None; }
      }
      cursor, sofar := start[end.value + 1..], ParsedList(sofar.rules + [rule.value], list.value);
    }
    if cursor == [] { return None; }
    return Some(sofar);
  }
}
