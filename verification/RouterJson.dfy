/**
 The Go-to-C command: `json.Marshal` of the router command (processrouter/types.go) read back
 by the hand-written parser of processrouter/native/kokorobox_process_router.c.
 */
module RouterJson {
  import opened Wrappers
  import opened Glob
  import opened Rules
  import opened JsonText

  const MAX_COMMAND_SIZE := 262144
  const MAX_OBJECT := 2048
  const MAX_PROCESS_PATTERN := 1024
  const MAX_PROCESS_LIST := 65536
  const UINT32_MAX := 0xFFFF_FFFF

  datatype RuleProtocol = TCP | UDP | BOTH
  datatype RuleAction = PROXY | DIRECT | BLOCK
  datatype ParsedRule = ParsedRule(processPattern: string, protocol: RuleProtocol, action: RuleAction, enabled: bool,
      priority: int)

  function PrintBool(b: bool): string {
    if b then "true" else "false"
  }

  /** The fields of one rule object; the Windows router's rules have no match kind. */
  function RuleFields(r: RouterRule): (fields: seq<Field>)
    requires r.priority >= 0
    ensures |fields| == 5
  {
    [Str("processPattern", r.processPattern, ","), Str("protocol", r.protocol, ","), Str("action", r.action, ","),
     Raw("enabled", PrintBool(r.enabled) + ","), Raw("priority", Itoa(r.priority))]
  }

  /** One rule object, then `more`. */
  function PrintRule(r: RouterRule, more: string): string
    requires r.priority >= 0
  {
    "{" + Chain(RuleFields(r), "}" + more)
  }

  // What the C helper reads.

  /** `read_string`. */
  function ReadString(text: string, key: string, size: nat): Option<string>
    requires size > 0
  {
    var value := Find(text, Needle(key));
    if value == None || value.value == [] || value.value[0] != '"' then None else Unquote(value.value[1..], size - 1)
  }

  /** `read_uint`. */
  function ReadUint(text: string, key: string): Option<nat> {
    var value := Find(text, Needle(key));
    if value == None || value.value == [] || !IsDigit(value.value[0]) then None
    else
      var parsed := Digits(value.value, 0);
      if parsed > UINT32_MAX then None else Some(parsed)
  }

  /** `read_bool`. */
  function ReadBool(text: string, key: string): Option<bool> {
    var value := Find(text, Needle(key));
    if value == None then None
    else if "true" <= value.value then Some(true)
    else if "false" <= value.value then Some(false)
    else None
  }

  /** `valid_process_pattern`. */
  predicate ValidProcessPattern(pattern: string) {
    && 4 < |pattern| < MAX_PROCESS_PATTERN && HasSuffix(Lower(pattern), ".exe") && !ContainsAny(pattern, "?;,\"")
    && forall c :: c in pattern ==> c as int >= 32
  }

  function ProtocolNamed(name: string): Option<RuleProtocol> {
    if EqualFold(name, "TCP") then Some(TCP)
    else if EqualFold(name, "UDP") then Some(UDP)
    else if EqualFold(name, "BOTH") then Some(BOTH)
    else None
  }

  function ActionNamed(name: string): Option<RuleAction> {
    if EqualFold(name, "PROXY") then Some(PROXY)
    else if EqualFold(name, "DIRECT") then Some(DIRECT)
    else if EqualFold(name, "BLOCK") then Some(BLOCK)
    else None
  }

  /** The body of the `parse_rules` loop on one object, the `count`-th. */
  function ParseObject(text: string, count: nat): Option<ParsedRule> {
    var pattern := ReadString(text, "processPattern", MAX_PROCESS_PATTERN);
    var protocol := ReadString(text, "protocol", 16);
    var action := ReadString(text, "action", 16);
    var enabled := ReadBool(text, "enabled");
    var priority := ReadUint(text, "priority");
    if pattern == None || protocol == None || action == None || enabled == None || priority == None then None
    else if !ValidProcessPattern(pattern.value) || priority.value != count + 1 then None
    else if ProtocolNamed(protocol.value) == None || ActionNamed(action.value) == None then None
    else Some(ParsedRule(pattern.value, ProtocolNamed(protocol.value).value, ActionNamed(action.value).value,
      enabled.value, priority.value))
  }

  /** What a rule must look like for its object to be read back. */
  ghost predicate Printable(r: RouterRule) {
    && QuoteFree(r.processPattern) && |r.processPattern| < MAX_PROCESS_PATTERN
    && Capitals(r.protocol) && |r.protocol| < 16 && Capitals(r.action) && |r.action| < 16
    && 1 <= r.priority <= MAX_RULES
  }

  predicate Capitals(s: string) {
    forall i :: 0 <= i < |s| ==> 'A' <= s[i] <= 'Z'
  }

  lemma {:induction false} CapitalsPlain(s: string)
    requires Capitals(s)
    ensures Encode(s) == s && Plain(s) && QuoteFree(s)
  {
    if s != [] {
      CapitalsPlain(s[1..]);
    }
  }

  /** The field names are free of quotes and differ. */
  lemma KeysGood()
    ensures KeyOk("processPattern") && KeyOk("protocol") && KeyOk("action") && KeyOk("enabled") && KeyOk("priority")
    ensures "protocol" != "priority"
  {
    assert "protocol"[2] != "priority"[2];
  }

  lemma BoolQuoteFree(b: bool)
    ensures QuoteFree(PrintBool(b) + ",")
  {
  }

  lemma RuleFieldsGood(r: RouterRule)
    requires Printable(r)
    ensures GoodFields(RuleFields(r))
  {
    KeysGood();
    CapitalsPlain(r.protocol);
    CapitalsPlain(r.action);
    BoolQuoteFree(r.enabled);
  }

  /** The quoted value of a string field reads back through its escapes. */
  lemma UnquoteField(f: Field, more: string, size: nat)
    requires f.Str? && f.Ok() && |f.value| < size
    ensures var value := f.ValueThen(more);
            value != [] &&
              value[0] == '"' && Unquote(value[1..], size - 1) == if Plain(f.value) then Some(f.value) else None
  {
    EncodeRoundTrip(f.value, f.after + more, size - 1);
  }

  lemma ReadStringIn(lead: string, fields: seq<Field>, more: string, k: nat, size: nat)
    requires QuoteFree(lead) && GoodFields(fields) && k < |fields| && fields[k].Str? && |fields[k].value| < size
    ensures ReadString(lead + Chain(fields, more), fields[k].key, size) ==
            if Plain(fields[k].value) then Some(fields[k].value) else None
  {
    FindIn(lead, fields, more, k);
    UnquoteField(fields[k], Chain(fields[k + 1..], more), size);
  }

  lemma ReadBoolIn(lead: string, fields: seq<Field>, more: string, k: nat, b: bool, after: string)
    requires QuoteFree(lead) && GoodFields(fields) && k < |fields| &&
             fields[k] == Raw(fields[k].key, PrintBool(b) + after)
    ensures ReadBool(lead + Chain(fields, more), fields[k].key) == Some(b)
  {
    FindIn(lead, fields, more, k);
    BoolPrefix(b, after, Chain(fields[k + 1..], more));
  }

  lemma BoolPrefix(b: bool, after: string, more: string)
    ensures "true" <= (PrintBool(b) + after) + more <==> b
    ensures "false" <= (PrintBool(b) + after) + more <==> !b
  {
    var text := (PrintBool(b) + after) + more;
    assert text[0] == PrintBool(b)[0];
    assert text[..|PrintBool(b)|] == PrintBool(b);
  }

  lemma ReadUintIn(lead: string, fields: seq<Field>, more: string, k: nat, n: nat, after: string)
    requires QuoteFree(lead) && GoodFields(fields) && k < |fields| && fields[k] == Raw(fields[k].key, Itoa(n) + after)
    requires n <= UINT32_MAX && var rest := after + Chain(fields[k + 1..], more); rest != [] && !IsDigit(rest[0])
    ensures ReadUint(lead + Chain(fields, more), fields[k].key) == Some(n)
  {
    FindIn(lead, fields, more, k);
    var rest := Chain(fields[k + 1..], more);
    Assoc(Itoa(n), after, rest);
    ItoaRoundTrip(n, after + rest);
  }

  /** Every field of a printed rule reads back, the pattern exactly when it is plain. */
  lemma ReadFields(r: RouterRule, more: string)
    requires Printable(r)
    ensures var text := PrintRule(r, more);
            && ReadString(text, "processPattern", MAX_PROCESS_PATTERN) == (if Plain(r.processPattern) then
               Some(r.processPattern) else None)
            && ReadString(text, "protocol", 16) == Some(r.protocol) && ReadString(text, "action", 16) == Some(r.action)
            && ReadBool(text, "enabled") == Some(r.enabled) && ReadUint(text, "priority") == Some(r.priority)
  {
    var fields := RuleFields(r);
    RuleFieldsGood(r);
    CapitalsPlain(r.protocol);
    CapitalsPlain(r.action);
    ReadStringIn("{", fields, "}" + more, 0, MAX_PROCESS_PATTERN);
    ReadStringIn("{", fields, "}" + more, 1, 16);
    ReadStringIn("{", fields, "}" + more, 2, 16);
    ReadBoolIn("{", fields, "}" + more, 3, r.enabled, ",");
    assert fields[5..] == [] && Itoa(r.priority) + "" == Itoa(r.priority);
    ReadUintIn("{", fields, "}" + more, 4, r.priority, "");
  }

  lemma KeysInside()
    ensures Inside("processPattern") && Inside("protocol") && Inside("action") &&
            Inside("enabled") && Inside("priority")
  {
    LiteralInside("processPattern");
    LiteralInside("protocol");
    LiteralInside("action");
    LiteralInside("enabled");
    LiteralInside("priority");
  }

  lemma {:induction false} ItoaBraceless(n: nat)
    ensures '}' !in Itoa(n)
  {
    if n >= 10 { ItoaBraceless(n / 10); }
  }

  lemma RuleBraceless(r: RouterRule)
    requires Printable(r)
    ensures Braceless(RuleFields(r))
  {
    RuleFieldsGood(r);
    KeysInside();
    ItoaBraceless(r.priority);
  }

  lemma ObjectAppend(fields: seq<Field>, more: string)
    ensures "{" + Chain(fields, "}" + more) == ("{" + Chain(fields, "}" + "")) + more
    ensures |"{" + Chain(fields, "}" + "")| == ChainSize(fields) + 2
  {
    ChainAppend(fields, "}" + "", more);
    assert ("}" + "") + more == "}" + more;
    Assoc("{", Chain(fields, "}" + ""), more);
  }

  lemma ObjectEndsAt(fields: seq<Field>, more: string)
    requires Braceless(fields)
    ensures ObjectEnd("{" + Chain(fields, "}" + more), false, false) == Some(ChainSize(fields) + 1)
  {
    ObjectEndOutside("{", Chain(fields, "}" + more));
    EndPastChain(fields, "}" + more);
  }

  /** `find_object_end` stops at the end of a printed rule, whatever its pattern holds. */
  lemma RuleEnd(r: RouterRule, more: string)
    requires Printable(r)
    ensures PrintRule(r, more) == PrintRule(r, "") + more
    ensures ObjectEnd(PrintRule(r, more), false, false) == Some(|PrintRule(r, "")| - 1)
    ensures |PrintRule(r, "")| == ChainSize(RuleFields(r)) + 2
  {
    var fields := RuleFields(r);
    RuleBraceless(r);
    ObjectAppend(fields, more);
    ObjectEndsAt(fields, more);
    assert PrintRule(r, more) == "{" + Chain(fields, "}" + more);
    assert PrintRule(r, "") == "{" + Chain(fields, "}" + "");
  }

  lemma RuleSize(r: RouterRule)
    requires Printable(r)
    ensures ChainSize(RuleFields(r)) <= |Encode(r.processPattern)| + 120
  {
    var f := RuleFields(r);
    CapitalsPlain(r.protocol);
    CapitalsPlain(r.action);
    ItoaShort(r.priority);
    assert f[1..][1..] == f[2..] && f[2..][1..] == f[3..] && f[3..][1..] == f[4..] && f[4..][1..] == [];
    assert ChainSize(f[4..]) == f[4].Size() && ChainSize(f[3..]) == f[3].Size() + ChainSize(f[4..]);
    assert ChainSize(f[2..]) == f[2].Size() + ChainSize(f[3..]) && ChainSize(f[1..]) == f[1].Size() + ChainSize(f[2..]);
    assert ChainSize(f) == f[0].Size() + ChainSize(f[1..]);
  }

  /** Which patterns the C helper reads back and accepts. */
  predicate Readable(pattern: string) {
    Plain(pattern) && ValidProcessPattern(pattern)
  }

  function Parsed(r: RouterRule): ParsedRule
    requires ProtocolNamed(r.protocol).Some? && ActionNamed(r.action).Some?
  {
    ParsedRule(r.processPattern, ProtocolNamed(r.protocol).value, ActionNamed(r.action).value, r.enabled, r.priority)
  }

  ghost predicate Sendable(r: RouterRule) {
    Printable(r) && ProtocolNamed(r.protocol).Some? && ActionNamed(r.action).Some?
  }

  /** One printed rule is read back exactly when its pattern is readable. */
  lemma ObjectRoundTrip(r: RouterRule)
    requires Sendable(r)
    ensures ParseObject(PrintRule(r, ""), r.priority - 1) == if Readable(r.processPattern) then
            Some(Parsed(r)) else None
  {
    ReadFields(r, "");
  }

  // The list of rules.

  /** `append_process_pattern`: None when the list would outgrow its buffer. */
  function AppendPattern(list: string, pattern: string): Option<string> {
    var separator := if list == [] then "" else ";";
    if |list| + |separator| + |pattern| + 1 > MAX_PROCESS_LIST then None else Some(list + separator + pattern)
  }

  function SkipSeparators(text: string): string {
    if text != [] && (text[0] == ',' || text[0] == ' ') then SkipSeparators(text[1..]) else text
  }

  lemma SkipShortens(text: string)
    ensures |SkipSeparators(text)| <= |text|
  {
  }

  datatype ParsedList = ParsedList(rules: seq<ParsedRule>, enabledProcesses: string)

  /** The loop of `parse_rules` from `text` on, with the rules and the enabled patterns read so far. */
  function ParseList(text: string, sofar: ParsedList): Option<ParsedList>
    decreases |text|
  {
    if text == [] then None
    else if text[0] == ']' then Some(sofar)
    else
      var cursor := SkipSeparators(text);
      SkipShortens(text);
      if cursor == [] || cursor[0] != '{' || |sofar.rules| >= MAX_RULES then None
      else
        var end := ObjectEnd(cursor, false, false);
        EndInside(cursor, false, false);
        if end == None || end.value + 1 >= MAX_OBJECT then None
        else
          var rule := ParseObject(cursor[..end.value + 1], |sofar.rules|);
          if rule == None then None
          else
            var list := if rule.value.enabled then AppendPattern(sofar.enabledProcesses, rule.value.processPattern)
                        else Some(sofar.enabledProcesses);
            if list == None then None
            else ParseList(cursor[end.value + 1..], ParsedList(sofar.rules + [rule.value], list.value))
  }

  /** The rules after the first, each with the comma before it, and the end of the command. */
  function PrintRest(rules: seq<RouterRule>): string
    requires forall i :: 0 <= i < |rules| ==> rules[i].priority >= 0
  {
    if rules == [] then "]}\n" else "," + PrintRule(rules[0], PrintRest(rules[1..]))
  }

  function PrintList(rules: seq<RouterRule>): string
    requires forall i :: 0 <= i < |rules| ==> rules[i].priority >= 0
  {
    if rules == [] then "]}\n" else PrintRule(rules[0], PrintRest(rules[1..]))
  }

  /** The list after one more rule. */
  function Add(sofar: ParsedList, rule: ParsedRule): ParsedList {
    ParsedList(sofar.rules + [rule],
               if !rule.enabled then sofar.enabledProcesses
               else if sofar.enabledProcesses == [] then rule.processPattern
               else sofar.enabledProcesses + ";" + rule.processPattern)
  }

  /** The enabled patterns, joined as `parse_rules` joins them. */
  function Joined(rules: seq<ParsedRule>): string {
    if rules == [] then ""
    else
      var last := |rules| - 1;
      Add(ParsedList(rules[..last], Joined(rules[..last])), rules[last]).enabledProcesses
  }

  lemma JoinedNext(rules: seq<ParsedRule>, rule: ParsedRule)
    ensures Joined(rules + [rule]) == Add(ParsedList(rules, Joined(rules)), rule).enabledProcesses
  {
    assert (rules + [rule])[..|rules|] == rules;
  }

  /** Whatever the text, a list that is read joins exactly its enabled patterns and fits the buffer. */
  lemma {:induction false} ParsedJoined(text: string, sofar: ParsedList)
    requires sofar.enabledProcesses == Joined(sofar.rules) && |sofar.rules| <= MAX_RULES && ParseList(text, sofar).Some?
    ensures var list := ParseList(text, sofar).value;
            list.enabledProcesses == Joined(list.rules) && |list.rules| <= MAX_RULES
    decreases |text|
  {
    hide ParseObject, ObjectEnd, SkipSeparators, Joined, AppendPattern;
    if text[0] != ']' {
      var cursor := SkipSeparators(text);
      SkipShortens(text);
      var end := ObjectEnd(cursor, false, false);
      EndInside(cursor, false, false);
      var rule := ParseObject(cursor[..end.value + 1], |sofar.rules|).value;
      JoinedNext(sofar.rules, rule);
      if rule.enabled { AppendJoins(sofar.enabledProcesses, rule.processPattern); }
      ParsedJoined(cursor[end.value + 1..], Add(sofar, rule));
    }
  }

  lemma AppendJoins(list: string, pattern: string)
    requires AppendPattern(list, pattern).Some?
    ensures AppendPattern(list, pattern).value == if list == [] then pattern else list + ";" + pattern
  {
    if list == [] { assert list + "" + pattern == pattern; }
  }

  /** The list C builds: what was read so far, and the rules to come. */
  function Extend(sofar: ParsedList, rules: seq<RouterRule>): ParsedList
    requires forall i :: 0 <= i < |rules| ==>
             ProtocolNamed(rules[i].protocol).Some? && ActionNamed(rules[i].action).Some?
    decreases |rules|
  {
    if rules == [] then sofar else Extend(Add(sofar, Parsed(rules[0])), rules[1..])
  }

  function PatternBytes(rules: seq<RouterRule>): nat {
    if rules == [] then 0 else |rules[0].processPattern| + 1 + PatternBytes(rules[1..])
  }

  /** The `n`-th rule of a command, fitting its buffer if it is readable at all. */
  ghost predicate Fits(r: RouterRule, n: nat) {
    && Sendable(r) && r.priority == n
    && (Readable(r.processPattern) ==> |Encode(r.processPattern)| + 122 < MAX_OBJECT)
  }

  /** Rules that follow `n` others in a command. */
  ghost predicate Follows(rules: seq<RouterRule>, n: nat, bytes: nat) {
    && n + |rules| <= MAX_RULES && bytes + PatternBytes(rules) < MAX_PROCESS_LIST
    && forall i :: 0 <= i < |rules| ==> Fits(rules[i], n + i + 1)
  }

  ghost predicate AllReadable(rules: seq<RouterRule>) {
    forall i :: 0 <= i < |rules| ==> Readable(rules[i].processPattern)
  }

  /** One step of the loop, on any object. */
  lemma ParseStep(text: string, obj: string, more: string, sofar: ParsedList)
    requires text != [] && text[0] != ']' && SkipSeparators(text) == obj + more
    requires obj != [] && obj[0] == '{' && ObjectEnd(obj + more, false, false) == Some(|obj| - 1) &&
             |sofar.rules| < MAX_RULES
    ensures |obj| >= MAX_OBJECT || ParseObject(obj, |sofar.rules|) == None ==> ParseList(text, sofar) == None
    ensures var rule := ParseObject(obj, |sofar.rules|);
            |obj| < MAX_OBJECT && rule.Some? && |sofar.enabledProcesses| + |rule.value.processPattern| +
              2 <= MAX_PROCESS_LIST ==>
              ParseList(text, sofar) == ParseList(more, Add(sofar, rule.value))
  {
    Halves(obj, more);
    var rule := ParseObject(obj, |sofar.rules|);
    if rule.Some? && |sofar.enabledProcesses| + |rule.value.processPattern| + 2 <= MAX_PROCESS_LIST {
      AppendFits(sofar.enabledProcesses, rule.value.processPattern);
    }
  }

  lemma AppendFits(list: string, pattern: string)
    requires |list| + |pattern| + 2 <= MAX_PROCESS_LIST
    ensures AppendPattern(list, pattern) == Some(if list == [] then pattern else list + ";" + pattern)
  {
    if list == [] { assert list + "" + pattern == pattern; }
  }

  lemma Halves(a: string, b: string)
    ensures (a + b)[..|a|] == a && (a + b)[|a|..] == b
  {
  }

  /** One step of the loop on a printed rule. */
  lemma ParseOne(lead: string, r: RouterRule, more: string, sofar: ParsedList)
    requires Sendable(r) && lead in ["", ","] && r.priority == |sofar.rules| + 1
    requires Readable(r.processPattern) ==> |Encode(r.processPattern)| + 122 < MAX_OBJECT
    requires |sofar.enabledProcesses| + |r.processPattern| + 2 <= MAX_PROCESS_LIST
    ensures ParseList(lead + PrintRule(r, more), sofar) ==
            if Readable(r.processPattern) then ParseList(more, Add(sofar, Parsed(r))) else None
  {
    SkipLead(lead, PrintRule(r, more));
    RuleEnd(r, more);
    RuleSize(r);
    ObjectRoundTrip(r);
    ParseStep(lead + PrintRule(r, more), PrintRule(r, ""), more, sofar);
  }

  lemma SkipLead(lead: string, cursor: string)
    requires lead in ["", ","] && cursor != [] && cursor[0] == '{'
    ensures SkipSeparators(lead + cursor) == cursor && lead + cursor != [] && (lead + cursor)[0] != ']'
  {
    if lead == "," {
      assert (lead + cursor)[1..] == cursor;
    } else {
      assert lead + cursor == cursor;
    }
  }

  lemma FollowsRest(rules: seq<RouterRule>, sofar: ParsedList)
    requires rules != [] && Follows(rules, |sofar.rules|, |sofar.enabledProcesses|)
    ensures Follows(rules[1..], |Add(sofar, Parsed(rules[0])).rules|, |Add(sofar, Parsed(rules[0])).enabledProcesses|)
  {
    assert PatternBytes(rules) == |rules[0].processPattern| + 1 + PatternBytes(rules[1..]);
    forall i | 0 <= i < |rules| - 1 ensures Fits(rules[1..][i], |sofar.rules| + 1 + i + 1) {
      assert Fits(rules[i + 1], |sofar.rules| + (i + 1) + 1);
    }
  }

  /** The printed list reads back exactly when every pattern is readable. */
  lemma {:induction false} ListRoundTrip(rules: seq<RouterRule>, sofar: ParsedList)
    requires Follows(rules, |sofar.rules|, |sofar.enabledProcesses|)
    ensures ParseList(PrintRest(rules), sofar) == if AllReadable(rules) then Some(Extend(sofar, rules)) else None
    decreases |rules|
  {
    if rules != [] {
      var r, more := rules[0], PrintRest(rules[1..]);
      assert PatternBytes(rules) == |r.processPattern| + 1 + PatternBytes(rules[1..]);
      ParseOne(",", r, more, sofar);
      FollowsRest(rules, sofar);
      ListRoundTrip(rules[1..], Add(sofar, Parsed(r)));
      ReadableSplit(rules);
    }
  }

  lemma ReadableSplit(rules: seq<RouterRule>)
    requires rules != []
    ensures AllReadable(rules) <==> Readable(rules[0].processPattern) && AllReadable(rules[1..])
  {
    if Readable(rules[0].processPattern) && AllReadable(rules[1..]) {
      forall i | 0 <= i < |rules| ensures Readable(rules[i].processPattern) {
        if i > 0 { assert rules[i] == rules[1..][i - 1]; }
      }
    }
  }

  const EMPTY := ParsedList([], "")

  lemma PrintedListRoundTrip(rules: seq<RouterRule>)
    requires Follows(rules, 0, 0)
    ensures ParseList(PrintList(rules), EMPTY) == if AllReadable(rules) then Some(Extend(EMPTY, rules)) else None
  {
    if rules != [] {
      var r, more := rules[0], PrintRest(rules[1..]);
      assert PatternBytes(rules) == |r.processPattern| + 1 + PatternBytes(rules[1..]);
      ParseOne("", r, more, EMPTY);
      assert "" + PrintRule(r, more) == PrintRule(r, more);
      FollowsRest(rules, EMPTY);
      ListRoundTrip(rules[1..], Add(EMPTY, Parsed(r)));
      ReadableSplit(rules);
    }
  }
}
