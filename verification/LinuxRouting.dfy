/**
 From rules to packets on Linux: the command the manager builds, the groups `Send` and
 `targetGroup` assign, and the chains together carry out the rule that wins for a process.
 */
module LinuxRouting {
  import opened Wrappers
  import opened LinuxTables
  import opened LinuxPlan
  import opened LinuxMeaning
  import opened Rules
  import opened Permutations
  import opened Glob
  import opened Normalize

  // One chain and one packet.

  predicate Inert(rules: seq<IpRule>, p: Packet) {
    forall i :: 0 <= i < |rules| ==> rules[i].mark == None && !Fits(rules[i], p)
  }

  lemma {:induction false} WalkInert(rules: seq<IpRule>, p: Packet)
    requires Inert(rules, p)
    ensures Walk(rules, p) == Continue(p.mark)
  {
    if rules != [] { WalkInert(rules[1..], p); }
  }

  /** Rules that never match may be dropped from the end. */
  lemma {:induction false} WalkBefore(a: seq<IpRule>, b: seq<IpRule>, p: Packet)
    requires Inert(b, p)
    ensures Walk(a + b, p) == Walk(a, p)
    decreases |a|
  {
    if a == [] {
      assert a + b == b;
      WalkInert(b, p);
    } else {
      assert (a + b)[0] == a[0] && (a + b)[1..] == a[1..] + b;
      WalkBefore(a[1..], b, p);
      if Fits(a[0], p) && a[0].target.SetMark? {
        WalkBefore(a[1..], b, p.(mark := a[0].target.mark));
      }
    }
  }

  lemma WalkAfter(a: seq<IpRule>, b: seq<IpRule>, p: Packet)
    requires Inert(a, p)
    ensures Walk(a + b, p) == Walk(b, p)
  {
    WalkPast(a, b, p);
  }

  /** Every rule names the selector and the transport it is for. */
  predicate Selective(rules: seq<IpRule>, s: Selector, tr: Transport) {
    forall i :: 0 <= i < |rules| ==>
      rules[i].cgroup == Some(s) && rules[i].transport == Some(tr) && rules[i].mark == None
  }

  ghost predicate AllSelective(r: Selector -> Transport -> seq<IpRule>) {
    forall s, tr :: Selective(r(s)(tr), s, tr)
  }

  lemma SelectiveInert(rules: seq<IpRule>, s: Selector, tr: Transport, p: Packet)
    requires Selective(rules, s, tr) && (p.cgroup != Some(s) || p.transport != tr)
    ensures Inert(rules, p)
  {
  }

  lemma InertAppend(a: seq<IpRule>, b: seq<IpRule>, p: Packet)
    requires Inert(a, p) && Inert(b, p)
    ensures Inert(a + b, p)
  {
  }

  /** Different groups have different selectors in both modes. */
  lemma SelectorsDiffer(mode: Mode, a: Group, b: Group)
    requires SelectorOf(mode, a) == SelectorOf(mode, b)
    ensures a == b
  {
  }

  predicate Covers(protocol: Protocol, tr: Transport) {
    protocol == Both || (protocol == OnlyTcp && tr == Tcp) || (protocol == OnlyUdp && tr == Udp)
  }

  /** The packets of a process in group g, or in none of the router's groups. */
  predicate From(mode: Mode, g: Option<Group>, p: Packet) {
    match g
    case Some(group) => p.cgroup == Some(SelectorOf(mode, group))
    case None => forall action, protocol :: p.cgroup != Some(SelectorOf(mode, Group(action, protocol)))
  }

  lemma BlockInert(mode: Mode, g: Option<Group>, r: Selector -> Transport -> seq<IpRule>, at: Group, tr: Transport,
      p: Packet)
    requires AllSelective(r) && From(mode, g, p) && (g != Some(at) || p.transport != tr)
    ensures Inert(r(SelectorOf(mode, at))(tr), p)
  {
    assert at == Group(at.action, at.protocol);
    if g.Some? && SelectorOf(mode, g.value) == SelectorOf(mode, at) { SelectorsDiffer(mode, g.value, at); }
    SelectiveInert(r(SelectorOf(mode, at))(tr), SelectorOf(mode, at), tr, p);
  }

  /** Of four blocks only the one for the packet's group and transport counts. */
  lemma WalkOneOf(a: seq<IpRule>, b: seq<IpRule>, c: seq<IpRule>, d: seq<IpRule>, k: int, p: Packet)
    requires (k == 0 || Inert(a, p)) && (k == 1 || Inert(b, p)) && (k == 2 || Inert(c, p)) && (k == 3 || Inert(d, p))
    ensures Walk(a + b + (c + d), p) == if k == 0 then Walk(a, p) else if k == 1 then Walk(b, p) else if k == 2 then
            Walk(c, p) else if k == 3 then Walk(d, p) else Continue(p.mark)
  {
    if k == 2 || k == 3 {
      InertAppend(a, b, p);
      WalkAfter(a + b, c + d, p);
      if k == 2 { WalkBefore(c, d, p); } else { WalkAfter(c, d, p); }
    } else {
      InertAppend(c, d, p);
      WalkBefore(a + b, c + d, p);
      if k == 0 {
        WalkBefore(a, b, p);
      } else {
        WalkAfter(a, b, p);
        if k != 1 { WalkInert(b, p); }
      }
    }
  }

  lemma WalkFour(mode: Mode, action: Action, r: Selector -> Transport -> seq<IpRule>, g: Option<Group>, p: Packet)
    requires AllSelective(r) && From(mode, g, p)
    ensures Walk(Four(mode, action, r), p) ==
            if g.Some? && g.value.action == action && Covers(g.value.protocol, p.transport) then
              Walk(r(SelectorOf(mode, g.value))(p.transport), p)
            else Continue(p.mark)
  {
    var tcp, udp, both := Group(action, OnlyTcp), Group(action, OnlyUdp), Group(action, Both);
    var k := if g == Some(tcp) && p.transport == Tcp then 0
             else if g == Some(udp) && p.transport == Udp then 1
             else if g == Some(both) && p.transport == Tcp then 2
             else if g == Some(both) && p.transport == Udp then 3 else 4;
    if k != 0 { BlockInert(mode, g, r, tcp, Tcp, p); }
    if k != 1 { BlockInert(mode, g, r, udp, Udp, p); }
    if k != 2 { BlockInert(mode, g, r, both, Tcp, p); }
    if k != 3 { BlockInert(mode, g, r, both, Udp, p); }
    WalkOneOf(r(SelectorOf(mode, tcp))(Tcp), r(SelectorOf(mode, udp))(Udp), r(SelectorOf(mode, both))(Tcp),
      r(SelectorOf(mode, both))(Udp), k, p);
  }

  lemma {:induction false} PerBlockSelective(name: ChainName, dns: bool, proxy: bool)
    ensures AllSelective(PerBlock(name, dns, proxy))
  {
  }

  lemma EmptyFour(mode: Mode, action: Action, name: ChainName, dns: bool, proxy: bool)
    requires forall s, tr :: BlockRules(name, dns, proxy, s, tr) == []
    ensures Four(mode, action, PerBlock(name, dns, proxy)) == []
  {
  }

  lemma CompiledChain(name: ChainName, mode: Mode, port: int, dns: bool)
    ensures name == KokoroOut || name == KokoroDns ==>
            Compiled(name, mode, port, dns) == Four(mode, Proxy, PerBlock(name, dns, true))
    ensures name == KokoroBlock ==> Compiled(name, mode, port, dns) == Four(mode, Block, PerBlock(name, dns, false))
    ensures name == KokoroPre ==> Compiled(name, mode, port, dns) == InterceptRules(name, port)
    ensures name == KokoroGuard ==> Compiled(name, mode, port, dns) == GuardRules(name, port)
  {
    if name != KokoroOut && name != KokoroDns { EmptyFour(mode, Proxy, name, dns, true); }
    if name != KokoroBlock { EmptyFour(mode, Block, name, dns, false); }
    Trim(GuardRules(name, port), Four(mode, Proxy, PerBlock(name, dns, true)),
      Four(mode, Block, PerBlock(name, dns, false)), InterceptRules(name, port));
  }

  lemma Trim<T>(a: seq<T>, b: seq<T>, c: seq<T>, d: seq<T>)
    ensures a == [] && c == [] && d == [] ==> a + (b + c + d) == b
    ensures a == [] && b == [] && d == [] ==> a + (b + c + d) == c
    ensures a == [] && b == [] && c == [] ==> a + (b + c + d) == d
    ensures b == [] && c == [] && d == [] ==> a + (b + c + d) == a
  {
  }

  /** A rule that ends the walk when it fits. */
  function End(rule: IpRule, p: Packet): Outcome {
    match rule.target
    case Tproxy(port, _) => Intercepted(port)
    case Redirect(port) => Intercepted(port)
    case Drop => Dropped
    case _ => Continue(p.mark)
  }

  lemma WalkOne(a: IpRule, p: Packet)
    requires a.target.Drop? || a.target.Tproxy? || a.target.Redirect?
    ensures Walk([a], p) == if Fits(a, p) then End(a, p) else Continue(p.mark)
  {
    assert Walk([a][1..], p) == Continue(p.mark);
  }

  lemma WalkTwo(a: IpRule, b: IpRule, p: Packet)
    requires a.target.Drop? || a.target.Tproxy? || a.target.Redirect?
    requires b.target.Drop? || b.target.Tproxy? || b.target.Redirect?
    ensures Walk([a, b], p) == if Fits(a, p) then End(a, p) else if Fits(b, p) then End(b, p) else Continue(p.mark)
  {
    WalkOne(b, p);
    assert [a, b][1..] == [b];
  }

  predicate Does(g: Option<Group>, action: Action, p: Packet) {
    g.Some? && g.value.action == action && Covers(g.value.protocol, p.transport)
  }

  lemma WalkMarks(s: Selector, dns: bool, p: Packet)
    requires p.cgroup == Some(s)
    ensures Walk(BlockRules(KokoroOut, dns, true, s, p.transport), p) == Continue(if p.nets == {} then MARK else p.mark)
  {
    var rules := BlockRules(KokoroOut, dns, true, s, p.transport);
    var marked := p.(mark := MARK);
    assert Walk(rules[3..], p) == Continue(MARK) by {
      assert rules[3..][1..] == [];
      assert Walk([], marked) == Continue(MARK);
    }
    assert rules[1..][1..] == rules[2..] && rules[2..][1..] == rules[3..];
    assert Walk(rules[2..], p) == Continue(if Multicast in p.nets then p.mark else MARK);
    assert Walk(rules[1..], p) == Continue(if LinkLocal in p.nets || Multicast in p.nets then p.mark else MARK);
    if p.nets != {} {
      var n :| n in p.nets;
      assert n == Loopback || n == LinkLocal || n == Multicast;
    }
  }

  /** KOKOROBOX_OUT marks what a proxy group sends, except to protected networks. */
  lemma OutFate(mode: Mode, port: int, dns: bool, g: Option<Group>, p: Packet)
    requires From(mode, g, p)
    ensures Walk(Compiled(KokoroOut, mode, port, dns), p) == Continue(if Does(g, Proxy, p) &&
            p.nets == {} then MARK else p.mark)
  {
    CompiledChain(KokoroOut, mode, port, dns);
    PerBlockSelective(KokoroOut, dns, true);
    WalkFour(mode, Proxy, PerBlock(KokoroOut, dns, true), g, p);
    if Does(g, Proxy, p) { WalkMarks(SelectorOf(mode, g.value), dns, p); }
  }

  /** KOKOROBOX_DNS sends what a proxy group asks of port 53 to the resolver of the proxy. */
  lemma DnsFate(mode: Mode, port: int, dns: bool, g: Option<Group>, p: Packet)
    requires From(mode, g, p)
    ensures Walk(Compiled(KokoroDns, mode, port, dns), p) == if dns && Does(g, Proxy, p) && p.dport == 53 then
            Intercepted(DNS_PORT) else Continue(p.mark)
  {
    CompiledChain(KokoroDns, mode, port, dns);
    PerBlockSelective(KokoroDns, dns, true);
    WalkFour(mode, Proxy, PerBlock(KokoroDns, dns, true), g, p);
    if dns && Does(g, Proxy, p) {
      WalkOne(DnsRule(SelectorOf(mode, g.value), p.transport), p);
    }
  }

  /** KOKOROBOX_BLOCK drops what a block group sends. */
  lemma BlockFate(mode: Mode, port: int, dns: bool, g: Option<Group>, p: Packet)
    requires From(mode, g, p)
    ensures Walk(Compiled(KokoroBlock, mode, port, dns), p) == if Does(g, Block, p) then Dropped else Continue(p.mark)
  {
    CompiledChain(KokoroBlock, mode, port, dns);
    PerBlockSelective(KokoroBlock, dns, false);
    WalkFour(mode, Block, PerBlock(KokoroBlock, dns, false), g, p);
    if Does(g, Block, p) { WalkOne(DropRule(SelectorOf(mode, g.value), p.transport), p); }
  }

  /** KOKOROBOX_PRE hands marked packets, and no others, to the proxy. */
  lemma PreFate(mode: Mode, port: int, dns: bool, p: Packet)
    ensures Walk(Compiled(KokoroPre, mode, port, dns), p) == if p.mark == MARK then Intercepted(port)
            else Continue(p.mark)
  {
    CompiledChain(KokoroPre, mode, port, dns);
    WalkTwo(TproxyRule(Tcp, port), TproxyRule(Udp, port), p);
    assert p.transport == Tcp || p.transport == Udp;
  }

  /** KOKOROBOX_GUARD keeps other machines off the proxy port, and touches nothing else. */
  lemma GuardFate(mode: Mode, port: int, dns: bool, p: Packet)
    ensures Walk(Compiled(KokoroGuard, mode, port, dns), p) == if p.remote && p.dport == port then Dropped
            else Continue(p.mark)
  {
    CompiledChain(KokoroGuard, mode, port, dns);
    WalkTwo(GuardRule(Tcp, port), GuardRule(Udp, port), p);
    assert p.transport == Tcp || p.transport == Udp;
  }

  // From rules to groups.

  datatype Process = Process(path: string, name: string)
  datatype ProcessTarget = ProcessTarget(matchKind: string, pattern: string, group: Group)

  function TargetAction(s: string): Option<Action> {
    if s == "proxy" then Some(Proxy) else if s == "direct" then Some(Direct) else if s == "block" then
      Some(Block) else None
  }

  function TargetProtocol(s: string): Option<Protocol> {
    if s == "tcp" then Some(OnlyTcp) else if s == "udp" then Some(OnlyUdp) else if s == "both" then Some(Both) else None
  }

  /** The group of a rule of the command, if it is one of the nine. */
  function GroupNamed(action: string, protocol: string): Option<Group> {
    var a, p := TargetAction(Lower(action)), TargetProtocol(Lower(protocol));
    if a.Some? && p.Some? then Some(Group(a.value, p.value)) else None
  }

  function TargetOf(rule: RouterRule): ProcessTarget
    requires GroupNamed(rule.action, rule.protocol).Some?
  {
    ProcessTarget(rule.matchKind, rule.processPattern, GroupNamed(rule.action, rule.protocol).value)
  }

  /** The enabled rules as targets, in order; None when one names no group. */
  function Targets(rules: seq<RouterRule>): Option<seq<ProcessTarget>> {
    if rules == [] then Some([])
    else
      var last := |rules| - 1;
      var before := Targets(rules[..last]);
      if before == None || !rules[last].enabled then before
      else if GroupNamed(rules[last].action, rules[last].protocol) == None then None
      else Some(before.value + [TargetOf(rules[last])])
  }

  /** The loop of `Send`. */
  method BuildTargets(rules: seq<RouterRule>) returns (targets: Option<seq<ProcessTarget>>)
    ensures targets == Targets(rules)
  {
    var built: seq<ProcessTarget> := [];
    for i := 0 to |rules|
      invariant Targets(rules[..i]) == Some(built)
    {
      assert rules[..i + 1][..i] == rules[..i];
      if rules[i].enabled {
        var group := GroupNamed(rules[i].action, rules[i].protocol);
        if group == None {
          TargetsFail(rules, i + 1);
          return None;
        }
        built := built + [ProcessTarget(rules[i].matchKind, rules[i].processPattern, group.value)];
      }
    }
    assert rules[..|rules|] == rules;
    return Some(built);
  }

  lemma {:induction false} TargetsFail(rules: seq<RouterRule>, k: nat)
    requires k <= |rules| && Targets(rules[..k]) == None
    ensures Targets(rules) == None
    decreases |rules|
  {
    if k == |rules| {
      assert rules[..k] == rules;
    } else {
      var last := |rules| - 1;
      assert rules[..last][..k] == rules[..k];
      TargetsFail(rules[..last], k);
    }
  }

  predicate TargetFits(target: ProcessTarget, process: Process) {
    target.pattern == if target.matchKind == "process_name" then process.name else process.path
  }

  /** The loop of `targetGroup`: the first target that fits. */
  method TargetGroup(targets: seq<ProcessTarget>, process: Process) returns (group: Option<Group>)
    ensures group == FirstGroup(targets, process)
  {
    for i := 0 to |targets|
      invariant FirstGroup(targets[i..], process) == FirstGroup(targets, process)
    {
      if targets[i].matchKind == "process_name" {
        if targets[i].pattern == process.name {
          return Some(targets[i].group);
        }
      } else if targets[i].pattern == process.path {
        return Some(targets[i].group);
      }
      assert targets[i..][1..] == targets[i + 1..];
    }
    return None;
  }

  function FirstGroup(targets: seq<ProcessTarget>, process: Process): Option<Group> {
    if targets == [] then None
    else if TargetFits(targets[0], process) then Some(targets[0].group)
    else FirstGroup(targets[1..], process)
  }

  // The rule that decides.

  predicate RuleFits(rule: Rule, process: Process) {
    rule.enabled && if rule.matchKind == "process_name" then rule.executableName == process.name
      else rule.executablePath == process.path
  }

  function FitsProcess(process: Process): Rule -> bool {
    (rule: Rule) => RuleFits(rule, process)
  }

  /** The last rule, when no earlier one fits, or what decides among the earlier ones. */
  lemma DecidesLast(rules: seq<Rule>, fits: Rule -> bool, rule: Option<Rule>, before: Option<Rule>)
    requires rules != [] && Ascending(rules) && Decides(rules, fits, rule)
    requires var last := |rules| - 1;
             before == if rule.Some? && rule.value == rules[last] then None else rule
    ensures var last := |rules| - 1;
            Decides(rules[..last], fits, before) &&
              (before == None ==> rule == if fits(rules[last]) then Some(rules[last]) else None)
  {
    var last := |rules| - 1;
    assert rules == rules[..last] + [rules[last]];
    if rule.Some? && rule.value == rules[last] {
      forall other | other in rules[..last] ensures !fits(other) {
      }
    }
  }

  function Meaning(rule: Rule, available: bool): Option<Group> {
    GroupNamed(BuildRouterRule(rule, available).action, BuildRouterRule(rule, available).protocol)
  }

  function Commands(available: bool): Rule -> RouterRule {
    (rule: Rule) => BuildRouterRule(rule, available)
  }

  lemma {:induction false} FirstGroupAppend(targets: seq<ProcessTarget>, target: ProcessTarget, process: Process)
    ensures FirstGroup(targets + [target], process) ==
            if FirstGroup(targets, process).Some? then FirstGroup(targets, process)
              else if TargetFits(target, process) then Some(target.group) else None
  {
    if targets == [] {
      assert targets + [target] == [target];
      assert [target][1..] == [];
    } else {
      assert (targets + [target])[1..] == targets[1..] + [target];
      FirstGroupAppend(targets[1..], target, process);
    }
  }

  lemma MapLast(rules: seq<Rule>, f: Rule -> RouterRule)
    requires rules != []
    ensures var last := |rules| - 1; Map(rules, f) == Map(rules[..last], f) + [f(rules[last])]
  {
  }

  lemma TargetFitsRule(rule: Rule, available: bool, process: Process)
    requires rule.enabled && Meaning(rule, available).Some?
    ensures TargetFits(TargetOf(BuildRouterRule(rule, available)), process) == RuleFits(rule, process)
  {
  }

  /** One more target. */
  lemma TargetsStep(before: seq<RouterRule>, rule: RouterRule, process: Process)
    requires Targets(before).Some? && GroupNamed(rule.action, rule.protocol).Some?
    ensures Targets(before + [rule]).Some?
    ensures FirstGroup(Targets(before + [rule]).value, process) ==
            if FirstGroup(Targets(before).value, process).Some? then FirstGroup(Targets(before).value, process)
            else if rule.enabled && TargetFits(TargetOf(rule), process) then Some(TargetOf(rule).group) else None
  {
    var all := before + [rule];
    var last := |all| - 1;
    assert all[..last] == before;
    if rule.enabled { FirstGroupAppend(Targets(before).value, TargetOf(rule), process); }
  }

  lemma RuleStep(before: seq<RouterRule>, rule: Rule, available: bool, process: Process, g: Group)
    requires Targets(before).Some? && Meaning(rule, available) == Some(g)
    ensures var all := before + [BuildRouterRule(rule, available)];
            && Targets(all).Some?
            && FirstGroup(Targets(all).value, process) ==
               if FirstGroup(Targets(before).value, process).Some? then FirstGroup(Targets(before).value, process)
               else if RuleFits(rule, process) then Some(g) else None
  {
    TargetsStep(before, BuildRouterRule(rule, available), process);
    if rule.enabled { TargetFitsRule(rule, available, process); }
  }

  /** What every rule of a list means. */
  ghost predicate Mean(rules: seq<Rule>, available: bool, group: Rule -> Group) {
    forall r :: r in rules ==> Meaning(r, available) == Some(group(r))
  }

  lemma MeanPrefix(rules: seq<Rule>, k: nat, available: bool, group: Rule -> Group)
    requires Mean(rules, available, group) && k < |rules|
    ensures Mean(rules[..k], available, group) && Meaning(rules[k], available) == Some(group(rules[k]))
  {
  }

  /** A process goes to the group of the rule that decides for it. */
  lemma {:induction false} GroupOfDecider(rules: seq<Rule>, available: bool, process: Process, rule: Option<Rule>,
      group: Rule -> Group)
    requires Ascending(rules) && Decides(rules, FitsProcess(process), rule)
    requires Mean(rules, available, group)
    ensures Targets(Map(rules, Commands(available))).Some?
    ensures FirstGroup(Targets(Map(rules, Commands(available))).value, process) == if rule.Some? then
            Some(group(rule.value)) else None
  {
    if rules != [] {
      var last := |rules| - 1;
      var before := if rule.Some? && rule.value == rules[last] then None else rule;
      DecidesLast(rules, FitsProcess(process), rule, before);
      MeanPrefix(rules, last, available, group);
      GroupOfDecider(rules[..last], available, process, before, group);
      MapLast(rules, Commands(available));
      RuleStep(Map(rules[..last], Commands(available)), rules[last], available, process, group(rules[last]));
    }
  }

  predicate Lowercase(s: string) {
    forall i :: 0 <= i < |s| ==> 'a' <= s[i] <= 'z'
  }

  lemma LowerUpper(s: string)
    requires Lowercase(s)
    ensures Lower(Upper(s)) == s
  {
  }

  function ActionOf(rule: Rule, available: bool): Action {
    if rule.action == "proxy" && available then Proxy else if rule.action == "direct" then Direct else Block
  }

  function ProtocolOf(rule: Rule): Protocol {
    if rule.protocol == "tcp" then OnlyTcp else if rule.protocol == "udp" then OnlyUdp else Both
  }

  function GroupOfRule(available: bool): Rule -> Group {
    (rule: Rule) => Group(ActionOf(rule, available), ProtocolOf(rule))
  }

  lemma ProtocolMeans(rule: Rule)
    requires rule.protocol in ["tcp", "udp", "both"]
    ensures TargetProtocol(Lower(Upper(rule.protocol))) == Some(ProtocolOf(rule))
  {
    LowerUpper(rule.protocol);
  }

  lemma BlockLower()
    ensures Lower("BLOCK") == "block"
  {
  }

  lemma ActionMeans(rule: Rule, available: bool)
    requires rule.action in ["proxy", "direct", "block"]
    ensures TargetAction(Lower(BuildRouterRule(rule, available).action)) == Some(ActionOf(rule, available))
  {
    LowerUpper(rule.action);
    BlockLower();
  }

  lemma RuleMeans(rule: Rule, available: bool)
    requires rule.protocol in ["tcp", "udp", "both"] && rule.action in ["proxy", "direct", "block"]
    ensures Meaning(rule, available) == Some(GroupOfRule(available)(rule))
  {
    ProtocolMeans(rule);
    ActionMeans(rule, available);
  }

  /** The rules of an accepted request are in order and each names a group. */
  lemma NormalizedRules(raw: RulesRequest, goos: string, available: bool)
    requires Acceptable(raw, goos)
    ensures Ascending(Normalized(raw, goos).rules)
    ensures Mean(Normalized(raw, goos).rules, available, GroupOfRule(available))
  {
    hide SortBy, PathKey, Sum, ValidFields;
    var request := Normalized(raw, goos);
    Idempotent(raw, goos, goos);
    forall r | r in request.rules ensures Meaning(r, available) == Some(GroupOfRule(available)(r)) {
      AcceptedNames(request, goos, r);
      RuleMeans(r, available);
    }
  }

  lemma AcceptedNames(request: RulesRequest, goos: string, rule: Rule)
    requires Acceptable(request, goos) && rule in request.rules
    ensures rule.protocol in ["tcp", "udp", "both"] && rule.action in ["proxy", "direct", "block"]
  {
    var i :| 0 <= i < |request.rules| && request.rules[i] == rule;
    assert FilledValid(Platform(request, goos))(request.rules[i]);
  }

  // What a rule asks for.

  datatype Treatment = LeaveAlone | SendToProxy | Refuse

  /** What the deciding rule asks for a packet of this transport. A proxy rule drops while the proxy is down. */
  function Asked(rule: Option<Rule>, available: bool, transport: Transport): Treatment {
    if rule == None || !Covers(ProtocolOf(rule.value), transport) || rule.value.action == "direct" then LeaveAlone
    else if rule.value.action == "proxy" && available then SendToProxy
    else Refuse
  }

  /** What the rules of a group do to a packet of this transport. */
  function GroupTreatment(g: Option<Group>, transport: Transport): Treatment {
    if g == None || !Covers(g.value.protocol, transport) then LeaveAlone
    else match g.value.action case Proxy => SendToProxy case Direct => LeaveAlone case Block => Refuse
  }

  lemma AskedByGroup(rule: Option<Rule>, available: bool, transport: Transport)
    ensures Asked(rule, available, transport) ==
            GroupTreatment(if rule.Some? then Some(GroupOfRule(available)(rule.value)) else None, transport)
  {
  }

  lemma FromMarked(mode: Mode, g: Option<Group>, p: Packet, mark: nat)
    requires From(mode, g, p)
    ensures From(mode, g, p.(mark := mark))
  {
  }

  /** A process lands in the group of the rule that decides for it. */
  lemma GroupDecided(raw: RulesRequest, goos: string, available: bool, process: Process, rule: Option<Rule>)
    requires Acceptable(raw, goos) && Decides(Normalized(raw, goos).rules, FitsProcess(process), rule)
    ensures var targets := Targets(BuildRouterCommand(Normalized(raw, goos), available).rules);
            targets.Some? && FirstGroup(targets.value, process) == if rule.Some? then
              Some(GroupOfRule(available)(rule.value)) else None
  {
    NormalizedRules(raw, goos, available);
    CommandRules(Normalized(raw, goos), available);
    GroupOfDecider(Normalized(raw, goos).rules, available, process, rule, GroupOfRule(available));
  }

  lemma CommandRules(request: RulesRequest, available: bool)
    ensures BuildRouterCommand(request, available).rules == Map(request.rules, Commands(available))
  {
  }
}
