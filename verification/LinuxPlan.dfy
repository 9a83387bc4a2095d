/** The firewall plans of the Linux router (processrouter/linux_plan.go). */
module LinuxPlan {
  import opened Wrappers
  import opened LinuxTables

  const MARK: nat := 0x4b42
  const ROUTING_TABLE: nat := 20269
  const PRIORITY: nat := 10900
  const DNS_PORT := 7892

  datatype Mode = V2 | V1

  /** The five chains of one family, in the order of the cleanup. */
  function OwnChains(f: Family): seq<Chain> {
    [Chain(f, Mangle, KokoroOut), Chain(f, Mangle, KokoroPre), Chain(f, Nat, KokoroDns), Chain(f, Filter, KokoroBlock),
      Chain(f, Filter, KokoroGuard)]
  }

  predicate Own(c: Chain) {
    match c.name
    case KokoroOut => c.table == Mangle
    case KokoroPre => c.table == Mangle
    case KokoroDns => c.table == Nat
    case KokoroBlock => c.table == Filter
    case KokoroGuard => c.table == Filter
    case _ => false
  }

  /** The built-in chain from which one of the router's chains is entered. */
  function ParentOf(c: Chain): Chain {
    c.(name := if c.name == KokoroPre then Prerouting else if c.name == KokoroGuard then Input else Output)
  }

  function SelectorOf(mode: Mode, g: Group): Selector {
    if mode == V2 then Path(g) else ClassId(ClassIdOf(g))
  }

  function ClassIdOf(g: Group): nat {
    var action := match g.action case Proxy => 0x100000 case Direct => 0x100010 case Block => 0x100020;
    var protocol := match g.protocol case OnlyTcp => 1 case OnlyUdp => 2 case Both => 3;
    action + protocol
  }

  function Protocols(g: Group): seq<Transport> {
    match g.protocol
    case Both => [Tcp, Udp]
    case OnlyTcp => [Tcp]
    case OnlyUdp => [Udp]
  }

  const FAMILIES := [V4, V6]
  const TRANSPORTS := [Tcp, Udp]
  const NETS := [Loopback, LinkLocal, Multicast]
  const PROXY_GROUPS := [Group(Proxy, OnlyTcp), Group(Proxy, OnlyUdp), Group(Proxy, Both)]
  const BLOCK_GROUPS := [Group(Block, OnlyTcp), Group(Block, OnlyUdp), Group(Block, Both)]

  /** The concatenation of f over a list. */
  function Flat<T>(xs: seq<T>, f: T -> seq<Command>): seq<Command> {
    if xs == [] then [] else var last := |xs| - 1; Flat(xs[..last], f) + f(xs[last])
  }

  lemma FlatStep<T>(xs: seq<T>, i: nat, f: T -> seq<Command>, start: seq<Command>)
    requires i < |xs|
    ensures start + Flat(xs[..i + 1], f) == start + Flat(xs[..i], f) + f(xs[i])
  {
    assert xs[..i + 1][..i] == xs[..i];
  }

  lemma FlatAll<T>(xs: seq<T>, i: nat, f: T -> seq<Command>)
    requires i == |xs|
    ensures Flat(xs[..i], f) == Flat(xs, f)
  {
    assert xs[..i] == xs;
  }

  // The cleanup plan.

  function CleanChain(c: Chain): seq<Command> {
    [DeleteJump(ParentOf(c), c.name), FlushChain(c), DestroyChain(c)]
  }

  function CleanFamily(f: Family): seq<Command> {
    Flat(OwnChains(f), CleanChain)
  }

  function Policy(f: Family): PolicyRule {
    PolicyRule(f, PRIORITY, MARK, ROUTING_TABLE)
  }

  function Route(f: Family): LocalRoute {
    LocalRoute(f, ROUTING_TABLE)
  }

  function CleanRouting(): seq<Command> {
    [DeletePolicy(Policy(V4)), DeletePolicy(Policy(V6)), DeleteRoute(Route(V4)), DeleteRoute(Route(V6))]
  }

  function Cleanup(): seq<Command> {
    Flat(FAMILIES, CleanFamily) + CleanRouting()
  }

  method BuildCleanup() returns (plan: seq<Command>)
    ensures plan == Cleanup()
  {
    plan := [];
    for i := 0 to |FAMILIES|
      invariant plan == [] + Flat(FAMILIES[..i], CleanFamily)
    {
      FlatStep(FAMILIES, i, CleanFamily, []);
      plan := AppendCleanFamily(plan, FAMILIES[i]);
    }
    FlatAll(FAMILIES, |FAMILIES|, CleanFamily);
    plan := plan + [DeletePolicy(Policy(V4)), DeletePolicy(Policy(V6))];
    plan := plan + [DeleteRoute(Route(V4)), DeleteRoute(Route(V6))];
  }

  method AppendCleanFamily(start: seq<Command>, f: Family) returns (plan: seq<Command>)
    ensures plan == start + CleanFamily(f)
  {
    var items := OwnChains(f);
    plan := start;
    for i := 0 to |items|
      invariant plan == start + Flat(items[..i], CleanChain)
    {
      FlatStep(items, i, CleanChain, start);
      var c := items[i];
      plan := plan + [DeleteJump(ParentOf(c), c.name), FlushChain(c), DestroyChain(c)];
    }
    FlatAll(items, |items|, CleanChain);
  }

  // The setup plan.

  function NewChains(f: Family): seq<Command> {
    [NewChain(Chain(f, Mangle, KokoroOut)), NewChain(Chain(f, Mangle, KokoroPre)),
      NewChain(Chain(f, Filter, KokoroBlock)), NewChain(Chain(f, Filter, KokoroGuard))]
  }

  function Enter(c: Chain): Command {
    Append(ParentOf(c), JumpRule(c.name))
  }

  function EnterChains(f: Family): seq<Command> {
    [Enter(Chain(f, Mangle, KokoroOut)), Enter(Chain(f, Mangle, KokoroPre)), Enter(Chain(f, Filter, KokoroBlock)),
      Enter(Chain(f, Filter, KokoroGuard))]
  }

  /** Drops what reaches the proxy port from another machine. */
  function GuardRule(transport: Transport, port: int): IpRule {
    IpRule(None, None, true, Some(transport), None, Some(port), Drop)
  }

  function Guard(f: Family, port: int): Transport -> seq<Command> {
    (transport: Transport) => [Append(Chain(f, Filter, KokoroGuard), GuardRule(transport, port))]
  }

  function EnterDns(f: Family): seq<Command> {
    [NewChain(Chain(f, Nat, KokoroDns)), Enter(Chain(f, Nat, KokoroDns))]
  }

  function DnsRule(selector: Selector, transport: Transport): IpRule {
    IpRule(Some(selector), None, false, Some(transport), None, Some(53), Redirect(DNS_PORT))
  }

  function ReturnRule(selector: Selector, transport: Transport, net: Net): IpRule {
    IpRule(Some(selector), None, false, Some(transport), Some(net), None, Return)
  }

  function MarkRule(selector: Selector, transport: Transport): IpRule {
    IpRule(Some(selector), None, false, Some(transport), None, None, SetMark(MARK))
  }

  function Spare(f: Family, selector: Selector, transport: Transport): Net -> seq<Command> {
    (net: Net) => [Append(Chain(f, Mangle, KokoroOut), ReturnRule(selector, transport, net))]
  }

  /** The rules of one proxy group and one transport. */
  function ProxyPart(f: Family, selector: Selector, dns: bool): Transport -> seq<Command> {
    (transport: Transport) =>
      (if dns then [Append(Chain(f, Nat, KokoroDns), DnsRule(selector, transport))] else []) +
      Flat(NETS, Spare(f, selector, transport)) +
      [Append(Chain(f, Mangle, KokoroOut), MarkRule(selector, transport))]
  }

  function ProxyGroup(f: Family, mode: Mode, dns: bool): Group -> seq<Command> {
    (g: Group) => Flat(Protocols(g), ProxyPart(f, SelectorOf(mode, g), dns))
  }

  function DropRule(selector: Selector, transport: Transport): IpRule {
    IpRule(Some(selector), None, false, Some(transport), None, None, Drop)
  }

  function BlockPart(f: Family, selector: Selector): Transport -> seq<Command> {
    (transport: Transport) => [Append(Chain(f, Filter, KokoroBlock), DropRule(selector, transport))]
  }

  function BlockGroup(f: Family, mode: Mode): Group -> seq<Command> {
    (g: Group) => Flat(Protocols(g), BlockPart(f, SelectorOf(mode, g)))
  }

  function TproxyRule(transport: Transport, port: int): IpRule {
    IpRule(None, Some(MARK), false, Some(transport), None, None, Tproxy(port, MARK))
  }

  function Intercept(f: Family, port: int): Transport -> seq<Command> {
    (transport: Transport) => [Append(Chain(f, Mangle, KokoroPre), TproxyRule(transport, port))]
  }

  /** Everything a family gets after its chains exist. */
  function FamilyRules(f: Family, mode: Mode, port: int, dns: bool): seq<Command> {
    Flat(PROXY_GROUPS, ProxyGroup(f, mode, dns)) + Flat(BLOCK_GROUPS, BlockGroup(f, mode)) +
      Flat(TRANSPORTS, Intercept(f, port))
  }

  function FamilyStart(f: Family, port: int, dns: bool): seq<Command> {
    NewChains(f) + EnterChains(f) + Flat(TRANSPORTS, Guard(f, port)) + (if dns then EnterDns(f) else [])
  }

  function FamilyPlan(mode: Mode, port: int, dns: bool): Family -> seq<Command> {
    (f: Family) => FamilyStart(f, port, dns) + FamilyRules(f, mode, port, dns)
  }

  function Routing(): seq<Command> {
    [ReplaceRoute(Route(V4)), ReplaceRoute(Route(V6)), AddPolicy(Policy(V4)), AddPolicy(Policy(V6))]
  }

  /** The setup plan without the cleanup it begins with. */
  function Installation(mode: Mode, port: int, dns: bool): seq<Command> {
    Flat(FAMILIES, FamilyPlan(mode, port, dns)) + Routing()
  }

  /** The setup begins with the cleanup, so cutting its length off leaves the installation. */
  method BuildSetup(mode: Mode, port: int, dns: bool) returns (plan: seq<Command>)
    ensures |Cleanup()| <= |plan| && plan[..|Cleanup()|] == Cleanup()
    ensures plan[|Cleanup()|..] == Installation(mode, port, dns)
  {
    var cleanup := BuildCleanup();
    plan := AppendFamilies(cleanup, mode, port, dns);
    plan := plan + Routing();
    CutBefore(cleanup, Flat(FAMILIES, FamilyPlan(mode, port, dns)), Routing());
  }

  lemma CutBefore<T>(a: seq<T>, b: seq<T>, c: seq<T>)
    ensures (a + b + c)[..|a|] == a && (a + b + c)[|a|..] == b + c
  {
  }

  method AppendFamilies(start: seq<Command>, mode: Mode, port: int, dns: bool) returns (plan: seq<Command>)
    ensures plan == start + Flat(FAMILIES, FamilyPlan(mode, port, dns))
  {
    plan := start;
    for i := 0 to |FAMILIES|
      invariant plan == start + Flat(FAMILIES[..i], FamilyPlan(mode, port, dns))
    {
      FlatStep(FAMILIES, i, FamilyPlan(mode, port, dns), start);
      plan := AppendFamily(plan, FAMILIES[i], mode, port, dns);
    }
    FlatAll(FAMILIES, |FAMILIES|, FamilyPlan(mode, port, dns));
  }

  method AppendFamily(start: seq<Command>, f: Family, mode: Mode, port: int, dns: bool) returns (plan: seq<Command>)
    ensures plan == start + FamilyPlan(mode, port, dns)(f)
  {
    plan := AppendStart(start, f, port, dns);
    plan := AppendGroups(plan, f, PROXY_GROUPS, mode, dns, true);
    plan := AppendGroups(plan, f, BLOCK_GROUPS, mode, dns, false);
    plan := AppendIntercepts(plan, f, port);
    Regroup(start, FamilyStart(f, port, dns), Flat(PROXY_GROUPS, ProxyGroup(f, mode, dns)),
      Flat(BLOCK_GROUPS, BlockGroup(f, mode)), Flat(TRANSPORTS, Intercept(f, port)));
  }

  lemma Regroup<T>(start: seq<T>, a: seq<T>, b: seq<T>, c: seq<T>, d: seq<T>)
    ensures start + a + b + c + d == start + (a + (b + c + d))
  {
  }

  method AppendIntercepts(start: seq<Command>, f: Family, port: int) returns (plan: seq<Command>)
    ensures plan == start + Flat(TRANSPORTS, Intercept(f, port))
  {
    plan := start;
    for i := 0 to |TRANSPORTS|
      invariant plan == start + Flat(TRANSPORTS[..i], Intercept(f, port))
    {
      FlatStep(TRANSPORTS, i, Intercept(f, port), start);
      plan := plan + [Append(Chain(f, Mangle, KokoroPre), TproxyRule(TRANSPORTS[i], port))];
    }
    FlatAll(TRANSPORTS, |TRANSPORTS|, Intercept(f, port));
  }

  method AppendStart(start: seq<Command>, f: Family, port: int, dns: bool) returns (plan: seq<Command>)
    ensures plan == start + FamilyStart(f, port, dns)
  {
    plan := start + NewChains(f);
    plan := plan + EnterChains(f);
    ghost var before := plan;
    for i := 0 to |TRANSPORTS|
      invariant plan == before + Flat(TRANSPORTS[..i], Guard(f, port))
    {
      FlatStep(TRANSPORTS, i, Guard(f, port), before);
      plan := plan + [Append(Chain(f, Filter, KokoroGuard), GuardRule(TRANSPORTS[i], port))];
    }
    FlatAll(TRANSPORTS, |TRANSPORTS|, Guard(f, port));
    if dns {
      plan := plan + [NewChain(Chain(f, Nat, KokoroDns)), Enter(Chain(f, Nat, KokoroDns))];
    }
    assert plan == start + FamilyStart(f, port, dns);
  }

  function GroupPart(f: Family, mode: Mode, dns: bool, proxy: bool): Group -> seq<Command> {
    if proxy then ProxyGroup(f, mode, dns) else BlockGroup(f, mode)
  }

  function TransportPart(f: Family, selector: Selector, dns: bool, proxy: bool): Transport -> seq<Command> {
    if proxy then ProxyPart(f, selector, dns) else BlockPart(f, selector)
  }

  /** The loops over the proxy groups and over the block groups. */
  method AppendGroups(start: seq<Command>, f: Family, groups: seq<Group>, mode: Mode, dns: bool, proxy: bool)
      returns (plan: seq<Command>)
    ensures plan == start + Flat(groups, GroupPart(f, mode, dns, proxy))
  {
    var part := GroupPart(f, mode, dns, proxy);
    plan := start;
    for i := 0 to |groups|
      invariant plan == start + Flat(groups[..i], part)
    {
      FlatStep(groups, i, part, start);
      plan := AppendGroup(plan, f, SelectorOf(mode, groups[i]), Protocols(groups[i]), dns, proxy);
    }
    FlatAll(groups, |groups|, part);
  }

  method AppendGroup(start: seq<Command>, f: Family, selector: Selector, protocols: seq<Transport>, dns: bool,
      proxy: bool) returns (plan: seq<Command>)
    ensures plan == start + Flat(protocols, TransportPart(f, selector, dns, proxy))
  {
    var part := TransportPart(f, selector, dns, proxy);
    plan := start;
    for i := 0 to |protocols|
      invariant plan == start + Flat(protocols[..i], part)
    {
      FlatStep(protocols, i, part, start);
      if proxy {
        plan := AppendProxyRules(plan, f, selector, protocols[i], dns);
      } else {
        plan := plan + [Append(Chain(f, Filter, KokoroBlock), DropRule(selector, protocols[i]))];
      }
    }
    FlatAll(protocols, |protocols|, part);
  }

  method AppendProxyRules(start: seq<Command>, f: Family, selector: Selector, transport: Transport, dns: bool)
      returns (plan: seq<Command>)
    ensures plan == start + ProxyPart(f, selector, dns)(transport)
  {
    plan := start;
    if dns {
      plan := plan + [Append(Chain(f, Nat, KokoroDns), DnsRule(selector, transport))];
    }
    ghost var before := plan;
    for i := 0 to |NETS|
      invariant plan == before + Flat(NETS[..i], Spare(f, selector, transport))
    {
      FlatStep(NETS, i, Spare(f, selector, transport), before);
      plan := plan + [Append(Chain(f, Mangle, KokoroOut), ReturnRule(selector, transport, NETS[i]))];
    }
    FlatAll(NETS, |NETS|, Spare(f, selector, transport));
    plan := plan + [Append(Chain(f, Mangle, KokoroOut), MarkRule(selector, transport))];
  }

  // Where the rules go.

  /** The chains an installation makes for one family. */
  function FamilyChains(f: Family, dns: bool): set<Chain> {
    {Chain(f, Mangle, KokoroOut), Chain(f, Mangle, KokoroPre), Chain(f, Filter, KokoroBlock),
      Chain(f, Filter, KokoroGuard)} +
    if dns then {Chain(f, Nat, KokoroDns)} else {}
  }

  lemma {:induction false} FlatInto<T>(xs: seq<T>, part: T -> seq<Command>, chains: set<Chain>)
    requires forall x :: x in xs ==> RulesInto(part(x), chains)
    ensures RulesInto(Flat(xs, part), chains)
  {
    if xs != [] {
      var last := |xs| - 1;
      FlatInto(xs[..last], part, chains);
    }
  }

  lemma ProxyPartInto(f: Family, selector: Selector, dns: bool, transport: Transport)
    ensures RulesInto(ProxyPart(f, selector, dns)(transport), FamilyChains(f, dns))
  {
    FlatInto(NETS, Spare(f, selector, transport), FamilyChains(f, dns));
  }

  lemma ProxyGroupInto(f: Family, mode: Mode, dns: bool, g: Group)
    ensures RulesInto(ProxyGroup(f, mode, dns)(g), FamilyChains(f, dns))
  {
    forall transport ensures RulesInto(ProxyPart(f, SelectorOf(mode, g), dns)(transport), FamilyChains(f, dns)) {
      ProxyPartInto(f, SelectorOf(mode, g), dns, transport);
    }
    FlatInto(Protocols(g), ProxyPart(f, SelectorOf(mode, g), dns), FamilyChains(f, dns));
  }

  lemma BlockGroupInto(f: Family, mode: Mode, dns: bool, g: Group)
    ensures RulesInto(BlockGroup(f, mode)(g), FamilyChains(f, dns))
  {
    FlatInto(Protocols(g), BlockPart(f, SelectorOf(mode, g)), FamilyChains(f, dns));
  }

  lemma ProxyInto(f: Family, mode: Mode, dns: bool, groups: seq<Group>)
    ensures RulesInto(Flat(groups, ProxyGroup(f, mode, dns)), FamilyChains(f, dns))
  {
    forall g ensures RulesInto(ProxyGroup(f, mode, dns)(g), FamilyChains(f, dns)) {
      ProxyGroupInto(f, mode, dns, g);
    }
    FlatInto(groups, ProxyGroup(f, mode, dns), FamilyChains(f, dns));
  }

  lemma BlockInto(f: Family, mode: Mode, dns: bool, groups: seq<Group>)
    ensures RulesInto(Flat(groups, BlockGroup(f, mode)), FamilyChains(f, dns))
  {
    forall g ensures RulesInto(BlockGroup(f, mode)(g), FamilyChains(f, dns)) {
      BlockGroupInto(f, mode, dns, g);
    }
    FlatInto(groups, BlockGroup(f, mode), FamilyChains(f, dns));
  }

  lemma PortInto(f: Family, port: int, dns: bool, transports: seq<Transport>)
    ensures RulesInto(Flat(transports, Intercept(f, port)), FamilyChains(f, dns))
    ensures RulesInto(Flat(transports, Guard(f, port)), FamilyChains(f, dns))
  {
    FlatInto(transports, Intercept(f, port), FamilyChains(f, dns));
    FlatInto(transports, Guard(f, port), FamilyChains(f, dns));
  }

  lemma IntoAppend(a: seq<Command>, b: seq<Command>, chains: set<Chain>)
    requires RulesInto(a, chains) && RulesInto(b, chains)
    ensures RulesInto(a + b, chains)
  {
  }

  /** The rules of a family go to the chains it has. */
  lemma FamilyRulesInto(f: Family, mode: Mode, port: int, dns: bool)
    ensures RulesInto(FamilyRules(f, mode, port, dns), FamilyChains(f, dns))
  {
    ProxyInto(f, mode, dns, PROXY_GROUPS);
    BlockInto(f, mode, dns, BLOCK_GROUPS);
    PortInto(f, port, dns, TRANSPORTS);
    var a, b := Flat(PROXY_GROUPS, ProxyGroup(f, mode, dns)), Flat(BLOCK_GROUPS, BlockGroup(f, mode));
    IntoAppend(a, b, FamilyChains(f, dns));
    IntoAppend(a + b, Flat(TRANSPORTS, Intercept(f, port)), FamilyChains(f, dns));
  }

  lemma FlatTwo<T>(x: T, y: T, part: T -> seq<Command>)
    ensures Flat([x, y], part) == part(x) + part(y)
  {
    assert [x, y][..1] == [x] && [x][..0] == [];
    assert Flat([x], part) == [] + part(x);
  }

  lemma InstallationSplits(mode: Mode, port: int, dns: bool)
    ensures Installation(mode, port, dns) == FamilyPlan(mode, port, dns)(V4) +
            FamilyPlan(mode, port, dns)(V6) + Routing()
  {
    FlatTwo(V4, V6, FamilyPlan(mode, port, dns));
  }
}
