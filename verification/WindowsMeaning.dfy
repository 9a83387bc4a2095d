/**
 What a committed replacement does on Windows: the engine's first enabled match is the rule with the
 highest priority among those that name the process and cover the protocol.
 */
module WindowsMeaning {
  import opened Wrappers
  import opened Rules
  import opened Permutations
  import opened RouterJson
  import opened WindowsCommand
  import opened EngineRules
  import opened GuardedReplacement

  /** A rule is for this packet. */
  predicate RuleMatches(m: Matcher, rule: Rule, p: Packet) {
    rule.enabled && m.process(rule.executablePath, p.process) &&
      (rule.protocol == "both" || (rule.protocol == "udp") == p.udp)
  }

  function MatchesPacket(m: Matcher, p: Packet): Rule -> bool {
    (rule: Rule) => RuleMatches(m, rule, p)
  }

  /** One pattern, not a list of them. */
  predicate Single(pattern: string) {
    pattern != "" && ';' !in pattern
  }

  lemma {:induction false} SplitSingle(s: string)
    requires ';' !in s
    ensures Split(s, ';') == [s]
  {
    if s != [] {
      SplitSingle(s[1..]);
      assert s == [s[0]] + s[1..];
    }
  }

  lemma SingleCovers(m: Matcher, pattern: string, process: string)
    requires Single(pattern)
    ensures Covers(m, pattern, process) == m.process(pattern, process)
  {
    SplitSingle(pattern);
    if m.process(pattern, process) { assert m.process(Patterns(pattern)[0], process); }
  }

  predicate Plainly(rule: Rule) {
    Single(rule.executablePath) && rule.protocol in ["tcp", "udp", "both"]
  }

  lemma SpecApplies(m: Matcher, rule: Rule, available: bool, proxyId: nat, p: Packet)
    requires m.Ok() && Plainly(rule)
    ensures Applies(m, UserSpec(Intended(rule, available), proxyId), p) == RuleMatches(m, rule, p)
  {
    SingleCovers(m, rule.executablePath, p.process);
  }

  lemma DecidesRest(m: Matcher, rules: seq<Rule>, p: Packet, rule: Option<Rule>)
    requires rules != [] && Ascending(rules) && Decides(rules, MatchesPacket(m, p), rule)
    ensures if RuleMatches(m, rules[0], p) then rule == Some(rules[0])
            else Decides(rules[1..], MatchesPacket(m, p), rule) && Ascending(rules[1..])
  {
    assert rules == [rules[0]] + rules[1..];
    assert rules[0] in rules;
  }

  /** The first match among the user's rules. */
  lemma {:induction false} UserVerdict(m: Matcher, rules: seq<Rule>, available: bool, proxyId: nat,
      engine: seq<EngineRule>, p: Packet, rule: Option<Rule>)
    requires m.Ok() && Ascending(rules) && Decides(rules, MatchesPacket(m, p), rule) && |engine| == |rules|
    requires forall i :: 0 <= i < |rules| ==>
             Plainly(rules[i]) && engine[i].spec == UserSpec(Intended(rules[i], available), proxyId)
    ensures Verdict(m, engine, p) == if rule.Some? then Some(Intended(rule.value, available).action) else None
  {
    if rules != [] {
      SpecApplies(m, rules[0], available, proxyId, p);
      DecidesRest(m, rules, p, rule);
      if !RuleMatches(m, rules[0], p) {
        UserVerdict(m, rules[1..], available, proxyId, engine[1..], p, rule);
      }
    }
  }

  /** A local network target, or one of the product's own processes. */
  ghost predicate Excluded(m: Matcher, p: Packet) {
    Applies(m, Exclusion(0), p) || Applies(m, Exclusion(1), p)
  }

  /** What a packet should get when `rule` decides for it. */
  ghost function Treatment(m: Matcher, p: Packet, rule: Option<Rule>, available: bool): Option<RuleAction> {
    if Excluded(m, p) then Some(DIRECT)
    else if rule.Some? then Some(Intended(rule.value, available).action)
    else None
  }

  lemma TargetVerdict(m: Matcher, rules: seq<ParsedRule>, proxyId: nat, engine: seq<EngineRule>, p: Packet)
    requires Specs(engine) == Target(rules, proxyId)
    ensures |engine| == |rules| + 2
    ensures Verdict(m, engine, p) == if Excluded(m, p) then Some(DIRECT) else Verdict(m, engine[2..], p)
    ensures forall i :: 0 <= i < |rules| ==> engine[2..][i].spec == UserSpec(rules[i], proxyId)
  {
    var target := Target(rules, proxyId);
    assert |Specs(engine)| == |target|;
    assert engine[0].spec == Specs(engine)[0] == target[0] && engine[1].spec == Specs(engine)[1] == target[1];
    assert engine[1..][1..] == engine[2..];
    forall i | 0 <= i < |rules| ensures engine[2..][i].spec == UserSpec(rules[i], proxyId) {
      assert Specs(engine)[i + 2] == target[i + 2];
    }
  }

  lemma PlainRules(request: RulesRequest, goos: string, i: nat)
    requires Acceptable(request, goos) && Platform(request, goos) == "windows" && i < |Normalized(request, goos).rules|
    ensures Plainly(Normalized(request, goos).rules[i])
  {
    NormalizedWindows(request, goos, i);
  }

  /**
   For every accepted Windows request and packet: once the replacement is committed, the engine sends direct
   what is excluded, and otherwise does what the deciding rule intends, a proxy rule blocking while the
   proxy is down.
   */
  lemma CommittedMeaning(request: RulesRequest, goos: string, available: bool, m: Matcher, engine: seq<EngineRule>,
      proxyId: nat, p: Packet, rule: Option<Rule>)
    requires Acceptable(request, goos) && Platform(request, goos) == "windows" && m.Ok()
    requires Specs(engine) == Target(Map(Normalized(request, goos).rules, IntendedBy(available)), proxyId)
    requires Decides(Normalized(request, goos).rules, MatchesPacket(m, p), rule)
    ensures Verdict(m, engine, p) == Treatment(m, p, rule, available)
  {
    var rules := Normalized(request, goos).rules;
    forall i | 0 <= i < |rules| ensures Plainly(rules[i]) {
      PlainRules(request, goos, i);
    }
    CommittedVerdict(m, rules, available, engine, proxyId, p, rule);
  }

  lemma CommittedVerdict(m: Matcher, rules: seq<Rule>, available: bool, engine: seq<EngineRule>, proxyId: nat,
      p: Packet, rule: Option<Rule>)
    requires m.Ok() && Ascending(rules) && Decides(rules, MatchesPacket(m, p), rule)
    requires forall i :: 0 <= i < |rules| ==> Plainly(rules[i])
    requires Specs(engine) == Target(Map(rules, IntendedBy(available)), proxyId)
    ensures Verdict(m, engine, p) == Treatment(m, p, rule, available)
  {
    TargetVerdict(m, Map(rules, IntendedBy(available)), proxyId, engine, p);
    UserVerdict(m, rules, available, proxyId, engine[2..], p, rule);
  }
}
