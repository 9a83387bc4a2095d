/**
 The whole Windows command: what `buildRouterCommand` prints for an accepted request, and
 what the C helper makes of it.
 */
module WindowsCommand {
  import opened Wrappers
  import opened Glob
  import opened Permutations
  import opened Rules
  import opened JsonText
  import opened RouterJson
  import opened Normalize

  /** Everything before the rules. */
  function HeaderFields(c: RouterCommand): (fields: seq<Field>)
    requires c.version >= 0 && c.port >= 0
    ensures |fields| == 9
  {
    [Raw("version", Itoa(c.version) + ","), Str("command", c.command, ","), Raw("proxy", "{"), Str("host", c.host, ","),
     Raw("port", Itoa(c.port) + "},"), Raw("failClosed", PrintBool(c.failClosed) + ","),
     Raw("proxyUdpDns", PrintBool(c.proxyUdpDns) + ","), Raw("diagnosticLogging", PrintBool(c.diagnosticLogging) + ","),
     Raw("rules", "[")]
  }

  predicate Printing(c: RouterCommand) {
    c.version >= 0 && c.port >= 0 && forall i :: 0 <= i < |c.rules| ==> c.rules[i].priority >= 0
  }

  /** `json.Marshal` of the command, and the newline `sendRules` adds. */
  function CommandText(c: RouterCommand): string
    requires Printing(c)
  {
    "{" + Chain(HeaderFields(c), PrintList(c.rules))
  }

  datatype Received = Received(list: ParsedList, proxyUdpDns: bool, diagnosticLogging: bool)

  /** What `main` and `replace_rules` read before anything changes; None is a rejected command. */
  function ReadCommand(text: string): Option<Received> {
    var dns := ReadBool(text, "proxyUdpDns");
    var logging := ReadBool(text, "diagnosticLogging");
    var rules := Find(text, Needle("rules") + "[");
    if ReadUint(text, "version") != Some(1) || ReadString(text, "command", 32) != Some("replace_rules") then None
    else if Find(text, Needle("host") + "\"127.0.0.1\"") == None || Find(text, Needle("port") + "7891") == None then
      None
    else if ReadBool(text, "failClosed") != Some(true) || dns == None || logging == None || rules == None then None
    else
      var list := ParseList(rules.value, EMPTY);
      if list == None then None else Some(Received(list.value, dns.value, logging.value))
  }

  lemma {:induction false} FindLonger(text: string, needle: string, tail: string, value: string)
    requires Find(text, needle) == Some(tail + value)
    ensures Find(text, needle + tail) == Some(value)
  {
    if needle <= text {
      assert text == needle + (tail + value);
      assert text == (needle + tail) + value;
    } else {
      FindLonger(text[1..], needle, tail, value);
      assert !(needle + tail <= text);
    }
  }

  lemma {:induction false} EncodePlain(s: string)
    requires Plain(s) && '\\' !in s
    ensures Encode(s) == s
  {
    if s != [] { EncodePlain(s[1..]); }
  }

  lemma HeaderKeys1()
    ensures KeyOk("version") && KeyOk("command") && KeyOk("proxy") && KeyOk("host") && KeyOk("port")
    ensures "version" != "command" && "host" != "port"
  {
    assert "version"[0] != "command"[0] && "host"[0] != "port"[0];
  }

  lemma HeaderKeys2()
    ensures KeyOk("failClosed") && KeyOk("proxyUdpDns") && KeyOk("diagnosticLogging") && KeyOk("rules")
    ensures "proxy" != "rules"
  {
    assert "proxy"[0] != "rules"[0];
  }

  ghost predicate WindowsHeader(c: RouterCommand) {
    && c.version == 1 && c.command == "replace_rules" && c.host == "127.0.0.1" &&
       c.port == WINDOWS_PROXY_PORT && c.failClosed
  }

  lemma HeaderText(c: RouterCommand)
    requires WindowsHeader(c)
    ensures QuoteFree(c.command) && Plain(c.command) && QuoteFree(c.host) && Plain(c.host) && Encode(c.host) == c.host
  {
    PlainCommand(c.command);
    PlainHost(c.host);
  }

  lemma PlainCommand(s: string)
    requires s == "replace_rules"
    ensures QuoteFree(s) && Plain(s)
  {
    PlainLetters(s);
  }

  lemma PlainHost(s: string)
    requires s == "127.0.0.1"
    ensures QuoteFree(s) && Plain(s) && Encode(s) == s
  {
    PlainLetters(s);
    EncodePlain(s);
  }

  lemma {:induction false} PlainLetters(s: string)
    requires forall i :: 0 <= i < |s| ==> s[i] == '_' || 'a' <= s[i] <= 'z' || IsDigit(s[i]) || s[i] == '.'
    ensures Plain(s) && '\\' !in s
  {
    if s != [] { PlainLetters(s[1..]); }
  }

  lemma HeaderFieldsOk(c: RouterCommand)
    requires WindowsHeader(c)
    ensures forall i :: 0 <= i < 9 ==> HeaderFields(c)[i].Ok()
  {
    HeaderKeys1();
    HeaderKeys2();
    HeaderText(c);
    BoolQuoteFree(c.failClosed);
    BoolQuoteFree(c.proxyUdpDns);
    BoolQuoteFree(c.diagnosticLogging);
  }

  lemma HeaderKeysDiffer(c: RouterCommand)
    requires WindowsHeader(c)
    ensures forall i, j :: 0 <= i < j < 9 ==> HeaderFields(c)[i].key != HeaderFields(c)[j].key
  {
    HeaderKeys1();
    HeaderKeys2();
  }

  lemma HeaderGood(c: RouterCommand)
    requires WindowsHeader(c)
    ensures GoodFields(HeaderFields(c))
  {
    HeaderFieldsOk(c);
    HeaderKeysDiffer(c);
  }

  /** The flags, the version and the command name of a printed Windows command. */
  lemma ReadHeaderFlags(c: RouterCommand, more: string)
    requires WindowsHeader(c)
    ensures var text := "{" + Chain(HeaderFields(c), more);
            && ReadUint(text, "version") == Some(1) && ReadString(text, "command", 32) == Some(c.command)
            && ReadBool(text, "failClosed") == Some(true) && ReadBool(text, "proxyUdpDns") == Some(c.proxyUdpDns)
            && ReadBool(text, "diagnosticLogging") == Some(c.diagnosticLogging)
  {
    var fields := HeaderFields(c);
    HeaderGood(c);
    HeaderText(c);
    ReadUintIn("{", fields, more, 0, 1, ",");
    ReadStringIn("{", fields, more, 1, 32);
    ReadBoolIn("{", fields, more, 5, true, ",");
    ReadBoolIn("{", fields, more, 6, c.proxyUdpDns, ",");
    ReadBoolIn("{", fields, more, 7, c.diagnosticLogging, ",");
  }

  lemma FindTail(lead: string, fields: seq<Field>, more: string, k: nat, tail: string, value: string)
    requires QuoteFree(lead) && GoodFields(fields) && k < |fields|
    requires fields[k].ValueThen(Chain(fields[k + 1..], more)) == tail + value
    ensures Find(lead + Chain(fields, more), Needle(fields[k].key) + tail) == Some(value)
  {
    FindIn(lead, fields, more, k);
    FindLonger(lead + Chain(fields, more), Needle(fields[k].key), tail, value);
  }

  lemma Around(quote: string, text: string, after: string)
    ensures quote + (text + (quote + after)) == (quote + text + quote) + after
  {
  }

  lemma FindHost(c: RouterCommand, more: string)
    requires WindowsHeader(c)
    ensures Find("{" + Chain(HeaderFields(c), more), Needle("host") + (QUOTE + c.host + QUOTE)).Some?
  {
    var fields := HeaderFields(c);
    HeaderGood(c);
    HeaderText(c);
    var after := "," + Chain(fields[4..], more);
    Around(QUOTE, c.host, after);
    FindTail("{", fields, more, 3, QUOTE + c.host + QUOTE, after);
  }

  lemma FindPort(c: RouterCommand, more: string)
    requires WindowsHeader(c)
    ensures Find("{" + Chain(HeaderFields(c), more), Needle("port") + Itoa(c.port)).Some?
  {
    var fields := HeaderFields(c);
    HeaderGood(c);
    Assoc(Itoa(c.port), "},", Chain(fields[5..], more));
    FindTail("{", fields, more, 4, Itoa(c.port), "}," + Chain(fields[5..], more));
  }

  lemma FindRules(c: RouterCommand, more: string)
    requires WindowsHeader(c)
    ensures Find("{" + Chain(HeaderFields(c), more), Needle("rules") + "[") == Some(more)
  {
    var fields := HeaderFields(c);
    HeaderGood(c);
    assert fields[9..] == [];
    FindTail("{", fields, more, 8, "[", more);
  }

  lemma PortDigits()
    ensures Itoa(7891) == "7891"
  {
    assert Itoa(7) == "7" && Itoa(78) == Itoa(7) + "8" && Itoa(789) == Itoa(78) + "9";
  }

  /** The printed command is received exactly when every pattern is readable, and then in full. */
  lemma CommandRoundTrip(c: RouterCommand)
    requires WindowsHeader(c) && Follows(c.rules, 0, 0)
    ensures ReadCommand(CommandText(c)) ==
            if AllReadable(c.rules) then Some(Received(Extend(EMPTY, c.rules), c.proxyUdpDns, c.diagnosticLogging))
              else None
  {
    ReadHeaderFlags(c, PrintList(c.rules));
    FindHost(c, PrintList(c.rules));
    FindPort(c, PrintList(c.rules));
    FindRules(c, PrintList(c.rules));
    PortDigits();
    QuotedHost(c);
    PrintedListRoundTrip(c.rules);
  }

  lemma QuotedHost(c: RouterCommand)
    requires WindowsHeader(c)
    ensures QUOTE + c.host + QUOTE == "\"127.0.0.1\""
  {
  }

  // Which accepted patterns survive the trip.

  /** U+2028 or U+2029 somewhere in the pattern. */
  predicate HasSeparator(s: string) {
    s != [] && (LineSeparator(s) || HasSeparator(s[1..]))
  }

  /** What a user can look for in a pattern: an ampersand, a line separator, or nothing before ".exe". */
  predicate Survives(pattern: string) {
    |pattern| > 4 && '&' !in pattern && !HasSeparator(pattern)
  }

  lemma {:induction false} PlainExact(s: string)
    requires QuoteFree(s) && '<' !in s && '>' !in s && forall c :: c in s ==> c as int >= 32
    ensures Plain(s) <==> '&' !in s && !HasSeparator(s)
  {
    if s != [] {
      assert forall c :: c in s <==> c == s[0] || c in s[1..];
      PlainExact(s[1..]);
      assert s[0] != '"' && s[0] in s;
      if !LineSeparator(s) { PlainStep(s); }
    }
  }

  /** A character in none of the parts of a text is not in the text, unless it separates them. */
  lemma {:induction false} PartsWithout(s: string, separator: char, c: char)
    requires c != separator && forall i :: 0 <= i < |Split(s, separator)| ==> c !in Split(s, separator)[i]
    ensures c !in s
  {
    if s != [] {
      var parts, rest := Split(s, separator), Split(s[1..], separator);
      forall i | 0 <= i < |rest| ensures c !in rest[i] {
        if s[0] == separator {
          assert parts[i + 1] == rest[i];
        } else if i == 0 {
          assert parts[0] == [s[0]] + rest[0];
        } else {
          assert parts[i] == rest[i];
        }
      }
      PartsWithout(s[1..], separator, c);
      assert s[0] != c by { if s[0] != separator { assert parts[0][0] == s[0]; } }
    }
  }

  function Path(value: string): string
    requires |value| > 3
  {
    if "\\\\" <= value then value[2..] else value[3..]
  }

  lemma NotContained(s: string, chars: string, c: char)
    requires !ContainsAny(s, chars) && c in chars
    ensures c !in s
  {
  }

  lemma PathWithout(value: string, c: char)
    requires ValidWindowsExecutablePattern(value) && '\\' in value && (c == '<' || c == '>')
    ensures |value| > 3 && c !in Path(value)
  {
    var parts := Split(Path(value), '\\');
    forall i | 0 <= i < |parts| ensures c !in parts[i] {
      assert parts[i] in parts;
      NotContained(parts[i], "<>:\"|", c);
    }
    PartsWithout(Path(value), '\\', c);
  }

  /** A drive or a share at the start. */
  predicate Rooted(value: string) {
    |value| > 3 && ("\\\\" <= value || (IsASCIIAlpha(value[0]) && value[1] == ':' && value[2] == '\\'))
  }

  lemma PatternRooted(value: string)
    requires ValidWindowsExecutablePattern(value) && '\\' in value
    ensures Rooted(value)
  {
  }

  lemma RootSafe(value: string, c: char)
    requires Rooted(value) && (c == '<' || c == '>')
    ensures c !in value[..|value| - |Path(value)|]
  {
    if "\\\\" <= value { assert value[0] == '\\' && value[1] == '\\'; }
  }

  lemma InNeither(value: string, n: nat, c: char)
    requires n <= |value| && c !in value[..n] && c !in value[n..]
    ensures c !in value
  {
    assert value == value[..n] + value[n..];
  }

  lemma NoAngles(value: string, c: char)
    requires ValidWindowsExecutablePattern(value) && (c == '<' || c == '>')
    ensures c !in value
  {
    if '\\' in value {
      PathWithout(value, c);
      PatternRooted(value);
      RootSafe(value, c);
      InNeither(value, |value| - |Path(value)|, c);
    } else {
      NotContained(value, "<>:|", c);
    }
  }

  /** An accepted pattern is read back exactly when it survives. */
  lemma ReadableExact(pattern: string)
    requires ValidWindowsExecutablePattern(pattern)
    ensures QuoteFree(pattern) && (Readable(pattern) <==> Survives(pattern))
  {
    NotContained(pattern, "?;,\"", '"');
    NoAngles(pattern, '<');
    NoAngles(pattern, '>');
    assert forall i :: 0 <= i < |pattern| ==> pattern[i] in pattern;
    PlainExact(pattern);
  }

  // Sizes.

  function PartsLength(parts: seq<string>): nat {
    if parts == [] then 0 else |parts[0]| + PartsLength(parts[1..])
  }

  lemma {:induction false} SplitLength(s: string, separator: char)
    ensures |s| == PartsLength(Split(s, separator)) + |Split(s, separator)| - 1
    ensures Count(s, separator) == |Split(s, separator)| - 1
  {
    if s != [] {
      SplitLength(s[1..], separator);
      var parts, rest := Split(s, separator), Split(s[1..], separator);
      if s[0] == separator {
        assert parts[1..] == rest;
      } else {
        assert parts[1..] == rest[1..];
      }
    }
  }

  lemma {:induction false} PartsNonEmpty(parts: seq<string>)
    requires forall i :: 0 <= i < |parts| ==> parts[i] != ""
    ensures PartsLength(parts) >= |parts|
  {
    if parts != [] { PartsNonEmpty(parts[1..]); }
  }

  lemma {:induction false} CountAppend(a: string, b: string, c: char)
    ensures Count(a + b, c) == Count(a, c) + Count(b, c)
  {
    if a == [] {
      assert a + b == b;
    } else {
      assert (a + b)[1..] == a[1..] + b;
      CountAppend(a[1..], b, c);
    }
  }

  lemma {:induction false} CountBound(s: string, c: char)
    ensures Count(s, c) <= |s| && (c !in s ==> Count(s, c) == 0)
  {
    if s != [] { CountBound(s[1..], c); }
  }

  lemma PathBackslashes(value: string)
    requires ValidWindowsExecutablePattern(value) && '\\' in value
    ensures |value| > 3 && 2 * Count(Path(value), '\\') < |Path(value)|
  {
    var parts := Split(Path(value), '\\');
    forall i | 0 <= i < |parts| ensures parts[i] != "" { assert parts[i] in parts; }
    SplitLength(Path(value), '\\');
    PartsNonEmpty(parts);
  }

  lemma CountInPath(value: string)
    requires |value| > 3
    ensures Count(value, '\\') <= 3 + Count(Path(value), '\\') && |Path(value)| < |value|
  {
    var n := |value| - |Path(value)|;
    assert value == value[..n] + Path(value);
    CountAppend(value[..n], Path(value), '\\');
    CountBound(value[..n], '\\');
  }

  /** Accepted patterns hold few backslashes, since no path segment is empty. */
  lemma FewBackslashes(value: string)
    requires ValidWindowsExecutablePattern(value)
    ensures 2 * Count(value, '\\') <= |value| + 6
  {
    if '\\' in value {
      PathBackslashes(value);
      CountInPath(value);
    } else {
      CountBound(value, '\\');
    }
  }

  /** So every accepted pattern that reads back leaves its object well within the C buffer. */
  lemma ObjectFits(pattern: string)
    requires ValidWindowsExecutablePattern(pattern) && Plain(pattern)
    ensures |Encode(pattern)| + 122 < MAX_OBJECT
  {
    EncodeLength(pattern);
    FewBackslashes(pattern);
  }

  lemma UpperProtocol(protocol: string)
    requires protocol in ["tcp", "udp", "both"]
    ensures Capitals(Upper(protocol)) && |Upper(protocol)| < 16
    ensures ProtocolNamed(Upper(protocol)) == Some(if protocol == "tcp" then TCP
            else if protocol == "udp" then UDP else BOTH)
  {
    assert Upper("tcp") == "TCP" && Upper("udp") == "UDP" && Upper("both") == "BOTH";
    assert Lower("UDP")[0] == 'u' && Lower("TCP")[0] == 't' && Lower("BOTH")[0] == 'b';
  }

  lemma UpperAction(action: string)
    requires action in ["proxy", "direct", "block"]
    ensures Capitals(Upper(action)) && |Upper(action)| < 16
    ensures ActionNamed(Upper(action)) == Some(if action == "proxy" then PROXY else if action == "direct" then DIRECT
            else BLOCK)
    ensures Upper("block") == "BLOCK" && Capitals("BLOCK") && ActionNamed("BLOCK") == Some(BLOCK)
  {
    assert Upper("proxy") == "PROXY" && Upper("direct") == "DIRECT" && Upper("block") == "BLOCK";
    assert Lower("PROXY")[0] == 'p' && Lower("DIRECT")[0] == 'd' && Lower("BLOCK")[0] == 'b';
  }

  /** What the C helper should end up with for one accepted rule. */
  function Intended(rule: Rule, available: bool): ParsedRule {
    ParsedRule(rule.executablePath,
               if rule.protocol == "tcp" then TCP else if rule.protocol == "udp" then UDP else BOTH,
               if rule.action == "direct" then DIRECT else if rule.action == "proxy" && available then PROXY else BLOCK,
               rule.enabled, rule.priority)
  }

  function IntendedBy(available: bool): Rule -> ParsedRule {
    (rule: Rule) => Intended(rule, available)
  }

  lemma WindowsRule(rule: Rule, available: bool)
    requires ValidRule(rule, "windows")
    ensures var r := BuildRouterRule(rule, available);
            && r.processPattern == rule.executablePath && Sendable(r) && Parsed(r) == Intended(rule, available)
  {
    UpperProtocol(rule.protocol);
    UpperAction(rule.action);
    ReadableExact(rule.executablePath);
  }

  lemma {:induction false} ExtendRules(sofar: ParsedList, rules: seq<RouterRule>)
    requires forall i :: 0 <= i < |rules| ==>
             ProtocolNamed(rules[i].protocol).Some? && ActionNamed(rules[i].action).Some?
    ensures Extend(sofar, rules).rules == sofar.rules + seq(|rules|, i requires 0 <= i < |rules| => Parsed(rules[i]))
    ensures |Extend(sofar, rules).enabledProcesses| <= |sofar.enabledProcesses| + PatternBytes(rules)
    decreases |rules|
  {
    if rules != [] {
      ExtendRules(Add(sofar, Parsed(rules[0])), rules[1..]);
    }
  }

  lemma {:induction false} WindowsBytes(rules: seq<Rule>, available: bool)
    requires forall i :: 0 <= i < |rules| ==> ValidRule(rules[i], "windows")
    ensures PatternBytes(Map(rules, (rule: Rule) => BuildRouterRule(rule, available))) == Sum(rules, RuleBytes)
  {
    if rules != [] {
      var build := (rule: Rule) => BuildRouterRule(rule, available);
      WindowsRule(rules[0], available);
      WindowsBytes(rules[1..], available);
      assert Map(rules, build)[1..] == Map(rules[1..], build);
    }
  }

  /** The rules of an accepted, normalised Windows request. */
  lemma NormalizedWindows(request: RulesRequest, goos: string, i: nat)
    requires Acceptable(request, goos) && Platform(request, goos) == "windows" && i < |Normalized(request, goos).rules|
    ensures ValidRule(Normalized(request, goos).rules[i], "windows") &&
            Normalized(request, goos).rules[i].priority == i + 1
  {
    hide ValidFields, SortBy, PathKey, Sum;
    Idempotent(request, goos, goos);
    var rules := Normalized(request, goos).rules;
    assert FilledValid("windows")(rules[i]);
  }

  /** Normalised Windows rules. */
  ghost predicate Ready(rules: seq<Rule>) {
    && |rules| <= MAX_RULES && Sum(rules, RuleBytes) <= MAX_TOTAL_BYTES
    && forall i :: 0 <= i < |rules| ==> ValidRule(rules[i], "windows") && rules[i].priority == i + 1
  }

  lemma NormalizedReady(request: RulesRequest, goos: string)
    requires Acceptable(request, goos) && Platform(request, goos) == "windows"
    ensures Ready(Normalized(request, goos).rules)
  {
    hide ValidRule, SortBy, PathKey, Sum;
    var rules := Normalized(request, goos).rules;
    forall i | 0 <= i < |rules| ensures ValidRule(rules[i], "windows") && rules[i].priority == i + 1 {
      NormalizedWindows(request, goos, i);
    }
    Idempotent(request, goos, goos);
  }

  function Built(rules: seq<Rule>, available: bool): (built: seq<RouterRule>)
    ensures |built| == |rules| && forall i :: 0 <= i < |rules| ==> built[i] == BuildRouterRule(rules[i], available)
  {
    Map(rules, (rule: Rule) => BuildRouterRule(rule, available))
  }

  lemma FitsFollows(built: seq<RouterRule>)
    requires |built| <= MAX_RULES && PatternBytes(built) <= MAX_TOTAL_BYTES && forall i :: 0 <= i < |built| ==>
             Fits(built[i], i + 1)
    ensures Follows(built, 0, 0)
  {
  }

  lemma WindowsFollows(rules: seq<Rule>, available: bool)
    requires Ready(rules)
    ensures Follows(Built(rules, available), 0, 0)
  {
    var built := Built(rules, available);
    WindowsBytes(rules, available);
    forall i | 0 <= i < |built| ensures Fits(built[i], i + 1) { WindowsFits(rules[i], available); }
    FitsFollows(built);
  }

  lemma WindowsFits(rule: Rule, available: bool)
    requires ValidRule(rule, "windows")
    ensures Fits(BuildRouterRule(rule, available), rule.priority)
  {
    WindowsRule(rule, available);
    if Readable(rule.executablePath) { ObjectFits(rule.executablePath); }
  }

  ghost predicate AllSurvive(rules: seq<Rule>) {
    forall i :: 0 <= i < |rules| ==> Survives(rules[i].executablePath)
  }

  lemma ReadableIsSurvival(rules: seq<Rule>, available: bool)
    requires Ready(rules)
    ensures AllReadable(Built(rules, available)) <==> AllSurvive(rules)
  {
    var built := Built(rules, available);
    forall i | 0 <= i < |rules| ensures Readable(built[i].processPattern) <==> Survives(rules[i].executablePath) {
      WindowsRule(rules[i], available);
      ReadableExact(rules[i].executablePath);
    }
  }

  lemma IntendedList(rules: seq<Rule>, available: bool)
    requires Ready(rules)
    ensures var built := Built(rules, available);
            && (forall i :: 0 <= i < |built| ==> Sendable(built[i]))
            && Extend(EMPTY, built).rules == Map(rules, IntendedBy(available))
            && |Extend(EMPTY, built).enabledProcesses| <= MAX_TOTAL_BYTES
  {
    var built := Built(rules, available);
    forall i | 0 <= i < |built| ensures Sendable(built[i]) && Parsed(built[i]) == Intended(rules[i], available) {
      WindowsRule(rules[i], available);
    }
    ExtendRules(EMPTY, built);
    WindowsBytes(rules, available);
  }

  /** What the helper makes of the printed command of normalised rules. */
  ghost predicate Delivered(c: RouterCommand, rules: seq<Rule>, available: bool) {
    && Printing(c)
    && var got := ReadCommand(CommandText(c));
       && (got.Some? <==> AllSurvive(rules))
       && (got.Some? ==>
             && got.value.list.rules == Map(rules, IntendedBy(available))
             && |got.value.list.enabledProcesses| <= MAX_TOTAL_BYTES
             && got.value.proxyUdpDns == c.proxyUdpDns && got.value.diagnosticLogging == c.diagnosticLogging)
  }

  lemma ReadyDelivered(c: RouterCommand, rules: seq<Rule>, available: bool)
    requires Ready(rules) && WindowsHeader(c) && c.rules == Built(rules, available)
    ensures Delivered(c, rules, available)
  {
    WindowsFollows(rules, available);
    ReadableIsSurvival(rules, available);
    IntendedList(rules, available);
    DeliveredExactly(c, rules, available);
  }

  lemma DeliveredExactly(c: RouterCommand, rules: seq<Rule>, available: bool)
    requires WindowsHeader(c) && Follows(c.rules, 0, 0) && (AllReadable(c.rules) <==> AllSurvive(rules))
    requires Extend(EMPTY, c.rules).rules == Map(rules, IntendedBy(available)) &&
             |Extend(EMPTY, c.rules).enabledProcesses| <= MAX_TOTAL_BYTES
    ensures Delivered(c, rules, available)
  {
    CommandRoundTrip(c);
    DeliveredFrom(c, rules, available, Extend(EMPTY, c.rules), AllReadable(c.rules));
  }

  lemma DeliveredFrom(c: RouterCommand, rules: seq<Rule>, available: bool, list: ParsedList, readable: bool)
    requires Printing(c)
    requires ReadCommand(CommandText(c)) == if readable then Some(Received(list, c.proxyUdpDns, c.diagnosticLogging))
             else None
    requires readable <==> AllSurvive(rules)
    requires list.rules == Map(rules, IntendedBy(available)) && |list.enabledProcesses| <= MAX_TOTAL_BYTES
    ensures Delivered(c, rules, available)
  {
  }

  /**
   Round trip. For every accepted Windows request, the C helper receives exactly the intended
   rules, with the enabled patterns joined in at most 30000 bytes, if every pattern survives;
   if one does not, it rejects the whole command.
   */
  lemma WindowsRoundTrip(request: RulesRequest, goos: string, available: bool)
    requires Acceptable(request, goos) && Platform(request, goos) == "windows"
    ensures var sent := Normalized(request, goos);
            Delivered(BuildRouterCommand(sent, available), sent.rules, available)
  {
    hide Delivered, ValidRule, SortBy, PathKey;
    var sent := Normalized(request, goos);
    NormalizedReady(request, goos);
    var c := BuildRouterCommand(sent, available);
    assert c.rules == Built(sent.rules, available);
    ReadyDelivered(c, sent.rules, available);
  }
}
