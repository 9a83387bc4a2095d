/** The line buffer of the C helper: the whole command of an accepted request fits it. */
module WindowsLine {
  import DiagnosticQueue
  import opened Rules
  import opened JsonText
  import opened RouterJson
  import opened WindowsCommand

  /** `fgets`: up to the first newline, and at most one character less than the buffer holds. */
  function ReadLine(text: string, size: nat): string {
    if text == "" || size <= 1 then ""
    else if text[0] == '\n' then "\n"
    else [text[0]] + ReadLine(text[1..], size - 1)
  }

  /** The line is a prefix of the text, and empty only at the end. */
  lemma {:induction false} LineInText(text: string, size: nat)
    requires size > 1
    ensures var line := ReadLine(text, size); line <= text && (text != "" ==> line != "")
  {
    if text != "" && text[0] != '\n' && size > 2 {
      LineInText(text[1..], size - 1);
      var line := ReadLine(text[1..], size - 1);
      assert text == [text[0]] + text[1..];
    }
  }

  /** No line break, and no NUL. */
  predicate NoBreak(s: string) {
    forall i :: 0 <= i < |s| ==> s[i] != '\n' && s[i] != '\0'
  }

  lemma {:induction false} TerminatedWhole(line: string)
    requires forall i :: 0 <= i < |line| ==> line[i] != '\0'
    ensures DiagnosticQueue.UpToZero(line) == line
  {
    if line != "" {
      TerminatedWhole(line[1..]);
      assert line == [line[0]] + line[1..];
    }
  }

  /** What the helper gets to see of the next line. */
  function NextLine(text: string): string {
    DiagnosticQueue.UpToZero(ReadLine(text, MAX_COMMAND_SIZE))
  }

  lemma {:induction false} ReadWhole(body: string, more: string, size: nat)
    requires NoBreak(body) && |body| + 1 < size
    ensures ReadLine(body + "\n" + more, size) == body + "\n"
  {
    var text := body + "\n" + more;
    if body == "" {
      assert text[0] == '\n';
    } else {
      assert text[0] == body[0] && text[1..] == body[1..] + "\n" + more;
      ReadWhole(body[1..], more, size - 1);
    }
  }

  lemma EncodeByteBound(c: char)
    ensures |EncodeByte(c)| <= 6 && NoBreak(EncodeByte(c))
  {
  }

  /** No character takes more than six. */
  lemma {:induction false} EncodeBound(s: string)
    ensures |Encode(s)| <= 6 * |s| && NoBreak(Encode(s))
  {
    if s != [] {
      if LineSeparator(s) {
        EncodeBound(s[3..]);
      } else {
        EncodeByteBound(s[0]);
        EncodeBound(s[1..]);
      }
    }
  }

  predicate Unbroken(f: Field) {
    NoBreak(f.key) && if f.Str? then NoBreak(f.after) else NoBreak(f.text)
  }

  lemma ThenUnbroken(f: Field, more: string)
    requires Unbroken(f) && NoBreak(more)
    ensures NoBreak(f.Then(more))
  {
    if f.Str? { EncodeBound(f.value); }
    assert NoBreak(f.ValueThen(more));
  }

  lemma {:induction false} ChainUnbroken(fields: seq<Field>, more: string)
    requires (forall i :: 0 <= i < |fields| ==> Unbroken(fields[i])) && NoBreak(more)
    ensures NoBreak(Chain(fields, more))
  {
    if fields != [] {
      ChainUnbroken(fields[1..], more);
      ThenUnbroken(fields[0], Chain(fields[1..], more));
    }
  }

  lemma {:induction false} ChainSizeBound(fields: seq<Field>)
    requires forall i :: 0 <= i < |fields| ==> fields[i].Size() <= 120
    ensures ChainSize(fields) <= 120 * |fields|
  {
    if fields != [] { ChainSizeBound(fields[1..]); }
  }

  lemma {:induction false} ItoaUnbroken(n: nat)
    ensures NoBreak(Itoa(n))
  {
    if n >= 10 { ItoaUnbroken(n / 10); }
  }

  lemma RuleUnbroken(r: RouterRule, i: nat)
    requires r.priority >= 0 && i < 5
    ensures Unbroken(RuleFields(r)[i])
  {
    hide Encode;
    ItoaUnbroken(r.priority);
    RuleKeys(r);
  }

  lemma RuleKeys(r: RouterRule)
    ensures NoBreak("processPattern") && NoBreak("protocol") && NoBreak("action")
    ensures NoBreak("enabled") && NoBreak("priority") && NoBreak(PrintBool(r.enabled) + ",")
  {
  }

  /** The object of one rule. */
  lemma ObjectFacts(r: RouterRule, more: string)
    requires Printable(r)
    ensures PrintRule(r, more) == PrintRule(r, "") + more
    ensures NoBreak(PrintRule(r, "")) && |PrintRule(r, "")| <= 6 * |r.processPattern| + 122
  {
    ObjectAppend(RuleFields(r), more);
    RuleSize(r);
    EncodeBound(r.processPattern);
    forall i | 0 <= i < 5 ensures Unbroken(RuleFields(r)[i]) {
      RuleUnbroken(r, i);
    }
    ChainUnbroken(RuleFields(r), "}" + "");
  }

  function RestBody(rules: seq<RouterRule>): string
    requires forall i :: 0 <= i < |rules| ==> rules[i].priority >= 0
  {
    if rules == [] then "]}" else "," + (PrintRule(rules[0], "") + RestBody(rules[1..]))
  }

  function ListBody(rules: seq<RouterRule>): string
    requires forall i :: 0 <= i < |rules| ==> rules[i].priority >= 0
  {
    if rules == [] then "]}" else PrintRule(rules[0], "") + RestBody(rules[1..])
  }

  lemma {:induction false} RestFacts(rules: seq<RouterRule>)
    requires (forall i :: 0 <= i < |rules| ==> rules[i].priority >= 0) &&
             (forall i :: 0 <= i < |rules| ==> Printable(rules[i]))
    ensures PrintRest(rules) == RestBody(rules) + "\n" && NoBreak(RestBody(rules))
    ensures |RestBody(rules)| <= 6 * PatternBytes(rules) + 123 * |rules| + 2
  {
    hide PrintRule, Printable;
    if rules == [] {
      assert "]}" + "\n" == "]}\n";
    } else {
      RestFacts(rules[1..]);
      ObjectFacts(rules[0], PrintRest(rules[1..]));
      var first, rest := PrintRule(rules[0], ""), RestBody(rules[1..]);
      assert "," + (first + (rest + "\n")) == "," + (first + rest) + "\n";
    }
  }

  lemma ListFacts(rules: seq<RouterRule>)
    requires (forall i :: 0 <= i < |rules| ==> rules[i].priority >= 0) &&
             (forall i :: 0 <= i < |rules| ==> Printable(rules[i]))
    ensures PrintList(rules) == ListBody(rules) + "\n" && NoBreak(ListBody(rules))
    ensures |ListBody(rules)| <= 6 * PatternBytes(rules) + 123 * |rules| + 2
  {
    if rules == [] {
      assert "]}" + "\n" == "]}\n";
    } else {
      RestFacts(rules[1..]);
      ObjectFacts(rules[0], PrintRest(rules[1..]));
      var first, rest := PrintRule(rules[0], ""), RestBody(rules[1..]);
      assert first + (rest + "\n") == first + rest + "\n";
    }
  }

  /** A short field without line breaks. */
  predicate Small(f: Field) {
    Unbroken(f) && f.Size() <= 120
  }

  lemma RawSmall(key: string, text: string)
    requires NoBreak(key) && NoBreak(text) && |key| <= 20 && |text| <= 20
    ensures Small(Raw(key, text))
  {
  }

  lemma StrSmall(key: string, value: string, after: string)
    requires NoBreak(key) && NoBreak(after) && |key| <= 10 && |value| <= 15 && |after| <= 1
    ensures Small(Str(key, value, after))
  {
    EncodeBound(value);
  }

  lemma BoolSmall(key: string, b: bool)
    requires NoBreak(key) && |key| <= 20
    ensures Small(Raw(key, PrintBool(b) + ","))
  {
    RawSmall(key, PrintBool(b) + ",");
  }

  lemma HeaderTexts(c: RouterCommand)
    requires WindowsHeader(c)
    ensures Small(HeaderFields(c)[0]) && Small(HeaderFields(c)[1]) && Small(HeaderFields(c)[2])
    ensures Small(HeaderFields(c)[3]) && Small(HeaderFields(c)[4])
  {
    ItoaUnbroken(c.version);
    ItoaUnbroken(c.port);
    ItoaShort(c.version);
    PortDigits();
    RawSmall("version", Itoa(c.version) + ",");
    StrSmall("command", c.command, ",");
    RawSmall("proxy", "{");
    StrSmall("host", c.host, ",");
    RawSmall("port", Itoa(c.port) + "},");
  }

  lemma HeaderFlags(c: RouterCommand)
    requires WindowsHeader(c)
    ensures Small(HeaderFields(c)[5]) && Small(HeaderFields(c)[6]) && Small(HeaderFields(c)[7]) &&
            Small(HeaderFields(c)[8])
  {
    BoolSmall("failClosed", c.failClosed);
    BoolSmall("proxyUdpDns", c.proxyUdpDns);
    BoolSmall("diagnosticLogging", c.diagnosticLogging);
    RawSmall("rules", "[");
  }

  /** The text is one line that fits the buffer, whatever follows it. */
  ghost predicate OneLine(text: string) {
    && |text| < MAX_COMMAND_SIZE
    && forall more: string :: ReadLine(text + more, MAX_COMMAND_SIZE) == text && NextLine(text + more) == text
  }

  lemma BodyOnOneLine(body: string)
    requires NoBreak(body) && |body| + 1 < MAX_COMMAND_SIZE
    ensures OneLine(body + "\n")
  {
    TerminatedWhole(body + "\n");
    forall more: string ensures ReadLine(body + "\n" + more, MAX_COMMAND_SIZE) == body + "\n" {
      ReadWhole(body, more, MAX_COMMAND_SIZE);
    }
  }

  lemma FieldsOnOneLine(fields: seq<Field>, list: string)
    requires |fields| == 9 && (forall i :: 0 <= i < 9 ==> Small(fields[i])) && NoBreak(list) && |list| <= 240000
    ensures OneLine("{" + Chain(fields, list + "\n"))
  {
    ChainSizeBound(fields);
    ChainUnbroken(fields, list);
    ChainAppend(fields, list, "\n");
    var body := "{" + Chain(fields, list);
    assert "{" + (Chain(fields, list) + "\n") == body + "\n";
    BodyOnOneLine(body);
  }

  lemma HeaderSmall(c: RouterCommand)
    requires WindowsHeader(c)
    ensures forall i :: 0 <= i < 9 ==> Small(HeaderFields(c)[i])
  {
    HeaderTexts(c);
    HeaderFlags(c);
  }

  /** The whole command on one line, within the buffer. */
  lemma CommandOnOneLine(c: RouterCommand)
    requires WindowsHeader(c) && (forall i :: 0 <= i < |c.rules| ==> Printable(c.rules[i]))
    requires |c.rules| <= MAX_RULES && PatternBytes(c.rules) <= MAX_TOTAL_BYTES
    ensures Printing(c) && OneLine(CommandText(c))
  {
    ListFacts(c.rules);
    HeaderSmall(c);
    FieldsOnOneLine(HeaderFields(c), ListBody(c.rules));
  }

  /** For every accepted Windows request the helper's buffer takes the whole command. */
  lemma CommandFits(request: RulesRequest, goos: string, available: bool)
    requires Acceptable(request, goos) && Platform(request, goos) == "windows"
    ensures var c := BuildRouterCommand(Normalized(request, goos), available); Printing(c) && OneLine(CommandText(c))
  {
    hide OneLine, Chain, Ready, CommandText;
    var sent := Normalized(request, goos);
    NormalizedReady(request, goos);
    ReadyFits(BuildRouterCommand(sent, available), sent.rules, available);
  }

  lemma ReadyFits(c: RouterCommand, rules: seq<Rule>, available: bool)
    requires Ready(rules) && WindowsHeader(c) && c.rules == Built(rules, available)
    ensures Printing(c) && OneLine(CommandText(c))
  {
    forall i | 0 <= i < |c.rules| ensures Printable(c.rules[i]) {
      WindowsRule(rules[i], available);
    }
    WindowsBytes(rules, available);
    CommandOnOneLine(c);
  }
}
