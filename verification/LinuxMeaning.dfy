/** What an installed Linux firewall does to packets (processrouter/linux_plan.go, processrouter/process_linux.go). */
module LinuxMeaning {
  import opened Wrappers
  import opened LinuxTables
  import opened LinuxPlan
  import opened LinuxRollback

  // The rules of each chain.

  function FlatRules<T>(xs: seq<T>, r: T -> seq<IpRule>): seq<IpRule> {
    if xs == [] then [] else var last := |xs| - 1; FlatRules(xs[..last], r) + r(xs[last])
  }

  lemma {:induction false} RulesForFlat<T>(xs: seq<T>, part: T -> seq<Command>, c: Chain, r: T -> seq<IpRule>)
    requires forall x :: x in xs ==> RulesFor(part(x), c) == r(x)
    ensures RulesFor(Flat(xs, part), c) == FlatRules(xs, r)
  {
    if xs != [] {
      var last := |xs| - 1;
      RulesForFlat(xs[..last], part, c, r);
      RulesForAppend(Flat(xs[..last], part), part(xs[last]), c);
    }
  }

  lemma {:induction false} NoRulesFor(plan: seq<Command>, chains: set<Chain>, c: Chain)
    requires RulesInto(plan, chains) && c !in chains
    ensures RulesFor(plan, c) == []
  {
    if plan != [] {
      NoRulesFor(plan[1..], chains, c);
    }
  }

  lemma FlatRulesTwo<T>(x: T, y: T, r: T -> seq<IpRule>)
    ensures FlatRules([x], r) == r(x)
    ensures FlatRules([x, y], r) == r(x) + r(y)
  {
    assert [x][..0] == [] && [x, y][..1] == [x];
    assert FlatRules([x], r) == [] + r(x);
  }

  lemma FlatRulesThree<T>(x: T, y: T, z: T, r: T -> seq<IpRule>)
    ensures FlatRules([x, y, z], r) == r(x) + r(y) + r(z)
  {
    FlatRulesTwo(x, y, r);
    assert [x, y, z][..2] == [x, y];
  }

  /** The rules for the three groups of one action, one block for each group and transport. */
  function Four(mode: Mode, action: Action, r: Selector -> Transport -> seq<IpRule>): seq<IpRule> {
    r(SelectorOf(mode, Group(action, OnlyTcp)))(Tcp) + r(SelectorOf(mode, Group(action, OnlyUdp)))(Udp) +
    (r(SelectorOf(mode, Group(action, Both)))(Tcp) + r(SelectorOf(mode, Group(action, Both)))(Udp))
  }

  function ByGroup(mode: Mode, r: Selector -> Transport -> seq<IpRule>): Group -> seq<IpRule> {
    (g: Group) => FlatRules(Protocols(g), r(SelectorOf(mode, g)))
  }

  lemma GroupRules(f: Family, mode: Mode, dns: bool, proxy: bool, g: Group, c: Chain,
      r: Selector -> Transport -> seq<IpRule>)
    requires forall s, tr :: RulesFor(TransportPart(f, s, dns, proxy)(tr), c) == r(s)(tr)
    ensures RulesFor(GroupPart(f, mode, dns, proxy)(g), c) == ByGroup(mode, r)(g)
  {
    RulesForFlat(Protocols(g), TransportPart(f, SelectorOf(mode, g), dns, proxy), c, r(SelectorOf(mode, g)));
  }

  lemma FourGroups(mode: Mode, action: Action, r: Selector -> Transport -> seq<IpRule>)
    ensures FlatRules([Group(action, OnlyTcp), Group(action, OnlyUdp), Group(action, Both)], ByGroup(mode, r)) ==
            Four(mode, action, r)
  {
    FlatRulesThree(Group(action, OnlyTcp), Group(action, OnlyUdp), Group(action, Both), ByGroup(mode, r));
    FlatRulesTwo(Tcp, Udp, r(SelectorOf(mode, Group(action, OnlyTcp))));
    FlatRulesTwo(Udp, Tcp, r(SelectorOf(mode, Group(action, OnlyUdp))));
    FlatRulesTwo(Tcp, Udp, r(SelectorOf(mode, Group(action, Both))));
  }

  function GroupsOf(proxy: bool): seq<Group> {
    if proxy then PROXY_GROUPS else BLOCK_GROUPS
  }

  lemma FourRules(f: Family, mode: Mode, dns: bool, proxy: bool, c: Chain, r: Selector -> Transport -> seq<IpRule>)
    requires forall s, tr :: RulesFor(TransportPart(f, s, dns, proxy)(tr), c) == r(s)(tr)
    ensures RulesFor(Flat(GroupsOf(proxy), GroupPart(f, mode, dns, proxy)), c) == Four(mode, if proxy then
            Proxy else Block, r)
  {
    forall g ensures RulesFor(GroupPart(f, mode, dns, proxy)(g), c) == ByGroup(mode, r)(g) {
      GroupRules(f, mode, dns, proxy, g, c, r);
    }
    RulesForFlat(GroupsOf(proxy), GroupPart(f, mode, dns, proxy), c, ByGroup(mode, r));
    FourGroups(mode, if proxy then Proxy else Block, r);
  }

  /** The rules a chain gets for one selector and one transport. */
  function PerBlock(name: ChainName, dns: bool, proxy: bool): Selector -> Transport -> seq<IpRule> {
    (s: Selector) => (tr: Transport) => BlockRules(name, dns, proxy, s, tr)
  }

  function BlockRules(name: ChainName, dns: bool, proxy: bool, s: Selector, tr: Transport): seq<IpRule> {
    if proxy && name == KokoroOut then
      [ReturnRule(s, tr, Loopback), ReturnRule(s, tr, LinkLocal), ReturnRule(s, tr, Multicast), MarkRule(s, tr)]
    else if proxy && name == KokoroDns && dns then [DnsRule(s, tr)]
    else if !proxy && name == KokoroBlock then [DropRule(s, tr)]
    else []
  }

  lemma SparedNets(f: Family, s: Selector, tr: Transport)
    ensures var out := Chain(f, Mangle, KokoroOut);
            Flat(NETS, Spare(f, s, tr)) == [Append(out, ReturnRule(s, tr, Loopback)),
              Append(out, ReturnRule(s, tr, LinkLocal)), Append(out, ReturnRule(s, tr, Multicast))]
  {
    var part := Spare(f, s, tr);
    FlatTwo(Loopback, LinkLocal, part);
    assert NETS[..2] == [Loopback, LinkLocal];
    assert Flat(NETS, part) == part(Loopback) + part(LinkLocal) + part(Multicast);
  }

  lemma RulesForOne(c: Chain, rule: IpRule, at: Chain)
    ensures RulesFor([Append(c, rule)], at) == if c == at then [rule] else []
  {
    assert RulesFor([Append(c, rule)][1..], at) == [];
  }

  lemma {:induction false} AllRulesFor(plan: seq<Command>, c: Chain, rules: seq<IpRule>)
    requires |plan| == |rules| && forall i :: 0 <= i < |plan| ==> plan[i] == Append(c, rules[i])
    ensures RulesFor(plan, c) == rules
  {
    if plan != [] {
      AllRulesFor(plan[1..], c, rules[1..]);
    }
  }

  lemma ProxyPartRules(f: Family, s: Selector, dns: bool, tr: Transport, c: Chain)
    requires Own(c) && c.family == f
    ensures RulesFor(ProxyPart(f, s, dns)(tr), c) == BlockRules(c.name, dns, true, s, tr)
  {
    var out := Chain(f, Mangle, KokoroOut);
    var first := if dns then [Append(Chain(f, Nat, KokoroDns), DnsRule(s, tr))] else [];
    var rest := Flat(NETS, Spare(f, s, tr)) + [Append(out, MarkRule(s, tr))];
    assert ProxyPart(f, s, dns)(tr) == first + rest;
    RulesForAppend(first, rest, c);
    RulesForOne(Chain(f, Nat, KokoroDns), DnsRule(s, tr), c);
    SparedNets(f, s, tr);
    if c == out {
      AllRulesFor(rest, c, [ReturnRule(s, tr, Loopback), ReturnRule(s, tr, LinkLocal),
        ReturnRule(s, tr, Multicast), MarkRule(s, tr)]);
    } else {
      NoRulesFor(rest, {out}, c);
    }
  }

  lemma PartRules(f: Family, dns: bool, proxy: bool, c: Chain)
    requires Own(c) && c.family == f
    ensures forall s, tr :: RulesFor(TransportPart(f, s, dns, proxy)(tr), c) == PerBlock(c.name, dns, proxy)(s)(tr)
  {
    forall s, tr ensures RulesFor(TransportPart(f, s, dns, proxy)(tr), c) == PerBlock(c.name, dns, proxy)(s)(tr) {
      if proxy {
        ProxyPartRules(f, s, dns, tr, c);
      } else {
        RulesForOne(Chain(f, Filter, KokoroBlock), DropRule(s, tr), c);
      }
    }
  }

  /** The rules of a chain that do not name a group. */
  function GuardRules(name: ChainName, port: int): seq<IpRule> {
    if name == KokoroGuard then [GuardRule(Tcp, port), GuardRule(Udp, port)] else []
  }

  function InterceptRules(name: ChainName, port: int): seq<IpRule> {
    if name == KokoroPre then [TproxyRule(Tcp, port), TproxyRule(Udp, port)] else []
  }

  lemma PortRules(f: Family, port: int, c: Chain)
    requires Own(c) && c.family == f
    ensures RulesFor(Flat(TRANSPORTS, Guard(f, port)), c) == GuardRules(c.name, port)
    ensures RulesFor(Flat(TRANSPORTS, Intercept(f, port)), c) == InterceptRules(c.name, port)
  {
    FlatTwo(Tcp, Udp, Guard(f, port));
    FlatTwo(Tcp, Udp, Intercept(f, port));
    RulesForAppend(Guard(f, port)(Tcp), Guard(f, port)(Udp), c);
    RulesForAppend(Intercept(f, port)(Tcp), Intercept(f, port)(Udp), c);
    forall tr ensures RulesFor(Guard(f, port)(tr), c) == if c.name == KokoroGuard then [GuardRule(tr, port)] else [] {
      RulesForOne(Chain(f, Filter, KokoroGuard), GuardRule(tr, port), c);
    }
    forall tr ensures RulesFor(Intercept(f, port)(tr), c) == if c.name == KokoroPre then
      [TproxyRule(tr, port)] else [] {
      RulesForOne(Chain(f, Mangle, KokoroPre), TproxyRule(tr, port), c);
    }
  }

  /** What an installation puts into one of the router's chains. */
  function Compiled(name: ChainName, mode: Mode, port: int, dns: bool): seq<IpRule> {
    GuardRules(name, port) +
      (Four(mode, Proxy, PerBlock(name, dns, true)) + Four(mode, Block, PerBlock(name, dns, false)) +
      InterceptRules(name, port))
  }

  lemma FamilyRulesFor(f: Family, mode: Mode, port: int, dns: bool, c: Chain)
    requires Own(c) && c.family == f
    ensures RulesFor(FamilyRules(f, mode, port, dns), c) ==
            Four(mode, Proxy, PerBlock(c.name, dns, true)) + Four(mode, Block, PerBlock(c.name, dns, false)) +
              InterceptRules(c.name, port)
  {
    var proxies := Flat(PROXY_GROUPS, ProxyGroup(f, mode, dns));
    var blocks := Flat(BLOCK_GROUPS, BlockGroup(f, mode));
    RulesForAppend(proxies + blocks, Flat(TRANSPORTS, Intercept(f, port)), c);
    RulesForAppend(proxies, blocks, c);
    PartRules(f, dns, true, c);
    PartRules(f, dns, false, c);
    FourRules(f, mode, dns, true, c, PerBlock(c.name, dns, true));
    FourRules(f, mode, dns, false, c, PerBlock(c.name, dns, false));
    PortRules(f, port, c);
  }

  /** Creating and entering chains appends nothing to the router's own. */
  lemma {:induction false} EntryRules(plan: seq<Command>, c: Chain)
    requires Own(c) && forall i :: 0 <= i < |plan| ==> plan[i].NewChain? || (plan[i].Append? && !Own(plan[i].chain))
    ensures RulesFor(plan, c) == []
  {
    if plan != [] {
      EntryRules(plan[1..], c);
    }
  }

  lemma StartRulesFor(f: Family, port: int, dns: bool, c: Chain)
    requires Own(c) && c.family == f
    ensures RulesFor(FamilyStart(f, port, dns), c) == GuardRules(c.name, port)
  {
    var entry := NewChains(f) + EnterChains(f);
    var guards := Flat(TRANSPORTS, Guard(f, port));
    var tail := if dns then EnterDns(f) else [];
    RulesForAppend(entry + guards, tail, c);
    RulesForAppend(entry, guards, c);
    EntryRules(entry, c);
    EntryRules(tail, c);
    PortRules(f, port, c);
  }

  lemma FamilyCompiled(f: Family, mode: Mode, port: int, dns: bool, c: Chain)
    requires Own(c) && c.family == f
    ensures RulesFor(FamilyPlan(mode, port, dns)(f), c) == Compiled(c.name, mode, port, dns)
  {
    RulesForAppend(FamilyStart(f, port, dns), FamilyRules(f, mode, port, dns), c);
    StartRulesFor(f, port, dns, c);
    FamilyRulesFor(f, mode, port, dns, c);
  }

  lemma OtherFamily(f: Family, mode: Mode, port: int, dns: bool, c: Chain)
    requires Own(c) && c.family != f
    ensures RulesFor(FamilyPlan(mode, port, dns)(f), c) == []
  {
    var chains := FamilyChains(f, dns);
    assert c !in chains;
    FamilyRulesInto(f, mode, port, dns);
    NoRulesFor(FamilyRules(f, mode, port, dns), chains, c);
    PortInto(f, port, dns, TRANSPORTS);
    NoRulesFor(Flat(TRANSPORTS, Guard(f, port)), chains, c);
    OtherStart(f, port, dns, c);
    RulesForAppend(FamilyStart(f, port, dns), FamilyRules(f, mode, port, dns), c);
  }

  lemma OtherStart(f: Family, port: int, dns: bool, c: Chain)
    requires Own(c) && RulesFor(Flat(TRANSPORTS, Guard(f, port)), c) == []
    ensures RulesFor(FamilyStart(f, port, dns), c) == []
  {
    var entry := NewChains(f) + EnterChains(f);
    var guards := Flat(TRANSPORTS, Guard(f, port));
    var tail := if dns then EnterDns(f) else [];
    RulesForAppend(entry + guards, tail, c);
    RulesForAppend(entry, guards, c);
    EntryRules(entry, c);
    EntryRules(tail, c);
  }

  // The installation runs through.

  /** The built-in chains an installation needs are there. */
  ghost predicate Hosts(keys: set<Chain>, dns: bool) {
    forall c :: Own(c) && (dns || c.name != KokoroDns) ==> ParentOf(c) in keys
  }

  lemma {:induction false} NewBuildable(chains: seq<Chain>, plan: seq<Command>, keys: set<Chain>)
    requires |plan| == |chains| && forall i :: 0 <= i < |plan| ==> plan[i] == NewChain(chains[i]) && chains[i] !in keys
    requires forall i, j :: 0 <= i < j < |chains| ==> chains[i] != chains[j]
    ensures Buildable(plan, keys) && AllCreated(plan) == ToSet(chains)
  {
    if plan != [] {
      NewBuildable(chains[1..], plan[1..], keys + {chains[0]});
      assert chains == [chains[0]] + chains[1..];
    }
  }

  lemma {:induction false} EnterBuildable(chains: seq<Chain>, plan: seq<Command>, keys: set<Chain>)
    requires |plan| == |chains| && forall i :: 0 <= i < |plan| ==>
             plan[i] == Enter(chains[i]) && chains[i] in keys && ParentOf(chains[i]) in keys
    ensures Buildable(plan, keys) && AllCreated(plan) == {}
  {
    if plan != [] {
      assert keys + Created(plan[0]) == keys;
      EnterBuildable(chains[1..], plan[1..], keys);
    }
  }

  lemma CreateAndEnter(chains: seq<Chain>, a: seq<Command>, b: seq<Command>, keys: set<Chain>)
    requires |a| == |b| == |chains|
    requires forall i :: 0 <= i < |chains| ==> a[i] == NewChain(chains[i]) && b[i] == Enter(chains[i])
    requires forall i :: 0 <= i < |chains| ==> chains[i] !in keys && ParentOf(chains[i]) in keys
    requires forall i, j :: 0 <= i < j < |chains| ==> chains[i] != chains[j]
    ensures Buildable(a + b, keys) && AllCreated(a + b) == ToSet(chains)
  {
    NewBuildable(chains, a, keys);
    EnterBuildable(chains, b, keys + ToSet(chains));
    BuildableAppend(a, b, keys);
  }

  lemma ChainsBuildable(f: Family, dns: bool, keys: set<Chain>)
    requires Hosts(keys, dns) && FamilyChains(f, dns) !! keys
    ensures Buildable(NewChains(f) + EnterChains(f), keys) &&
            AllCreated(NewChains(f) + EnterChains(f)) == ToSet(Always(f))
  {
    var chains := Always(f);
    assert forall i :: 0 <= i < |chains| ==> chains[i] in FamilyChains(f, dns) && Own(chains[i]);
    CreateAndEnter(chains, NewChains(f), EnterChains(f), keys);
  }

  lemma BuildableWithRules(plan: seq<Command>, rules: seq<Command>, chains: set<Chain>, keys: set<Chain>)
    requires Buildable(plan, keys) && RulesInto(rules, chains) && chains <= keys + AllCreated(plan)
    ensures Buildable(plan + rules, keys) && AllCreated(plan + rules) == AllCreated(plan)
  {
    RulesBuildable(rules, chains, keys + AllCreated(plan));
    BuildableAppend(plan, rules, keys);
  }

  lemma OpeningBuildable(f: Family, port: int, dns: bool, keys: set<Chain>)
    requires Hosts(keys, dns) && FamilyChains(f, dns) !! keys
    ensures Buildable(Opening(f, port), keys) && AllCreated(Opening(f, port)) == ToSet(Always(f))
  {
    ChainsBuildable(f, dns, keys);
    PortInto(f, port, false, TRANSPORTS);
    AlwaysChains(f);
    BuildableWithRules(NewChains(f) + EnterChains(f), Flat(TRANSPORTS, Guard(f, port)), FamilyChains(f, false), keys);
  }

  lemma DnsBuildable(plan: seq<Command>, f: Family, keys: set<Chain>)
    requires Buildable(plan, keys)
    requires Chain(f, Nat, KokoroDns) !in keys + AllCreated(plan) && Chain(f, Nat, Output) in keys
    ensures Buildable(plan + EnterDns(f), keys) && AllCreated(plan + EnterDns(f)) == AllCreated(plan) +
            {Chain(f, Nat, KokoroDns)}
  {
    var c := Chain(f, Nat, KokoroDns);
    NewBuildable([c], [NewChain(c)], keys + AllCreated(plan));
    EnterBuildable([c], [Enter(c)], keys + AllCreated(plan) + AllCreated([NewChain(c)]));
    BuildableAppend([NewChain(c)], [Enter(c)], keys + AllCreated(plan));
    assert EnterDns(f) == [NewChain(c)] + [Enter(c)];
    BuildableAppend(plan, EnterDns(f), keys);
  }

  lemma StartBuildable(f: Family, port: int, dns: bool, keys: set<Chain>)
    requires Hosts(keys, dns) && FamilyChains(f, dns) !! keys
    ensures Buildable(FamilyStart(f, port, dns), keys) && AllCreated(FamilyStart(f, port, dns)) == FamilyChains(f, dns)
  {
    OpeningBuildable(f, port, dns, keys);
    AlwaysChains(f);
    if dns {
      assert ParentOf(Chain(f, Nat, KokoroDns)) in keys;
      DnsBuildable(Opening(f, port), f, keys);
    } else {
      assert Opening(f, port) + [] == Opening(f, port);
    }
  }

  lemma FamilyBuildable(f: Family, mode: Mode, port: int, dns: bool, keys: set<Chain>)
    requires Hosts(keys, dns) && FamilyChains(f, dns) !! keys
    ensures Buildable(FamilyPlan(mode, port, dns)(f), keys) &&
            AllCreated(FamilyPlan(mode, port, dns)(f)) == FamilyChains(f, dns)
  {
    StartBuildable(f, port, dns, keys);
    FamilyRulesInto(f, mode, port, dns);
    BuildableWithRules(FamilyStart(f, port, dns), FamilyRules(f, mode, port, dns), FamilyChains(f, dns), keys);
  }

  lemma FamiliesBuildable(mode: Mode, port: int, dns: bool, keys: set<Chain>)
    requires Hosts(keys, dns) && forall c :: Own(c) ==> c !in keys
    ensures Buildable(FamilyPlan(mode, port, dns)(V4) + FamilyPlan(mode, port, dns)(V6), keys)
    ensures AllCreated(FamilyPlan(mode, port, dns)(V4) + FamilyPlan(mode, port, dns)(V6)) == FamilyChains(V4, dns) +
            FamilyChains(V6, dns)
  {
    ChainsOwn(V4, dns);
    ChainsOwn(V6, dns);
    FamilyBuildable(V4, mode, port, dns, keys);
    FamiliesApart(dns);
    FamilyBuildable(V6, mode, port, dns, keys + FamilyChains(V4, dns));
    BuildableAppend(FamilyPlan(mode, port, dns)(V4), FamilyPlan(mode, port, dns)(V6), keys);
  }

  lemma RoutingRuns(t: Tables)
    requires forall f :: Policy(f) !in t.policies
    ensures RunStrict(Routing(), t) ==
            Some(t.(policies := t.policies + {Policy(V4), Policy(V6)}, routes := t.routes + {Route(V4), Route(V6)}))
  {
    var plan := Routing();
    var t1 := t.(routes := t.routes + {Route(V4)});
    var t2 := t1.(routes := t1.routes + {Route(V6)});
    var t3 := t2.(policies := t2.policies + {Policy(V4)});
    var t4 := t3.(policies := t3.policies + {Policy(V6)});
    assert RunStrict(plan[3..], t3) == Some(t4) by { assert plan[3..][1..] == []; }
    assert plan[2..][1..] == plan[3..] && plan[1..][1..] == plan[2..];
    assert t4 == t.(policies := t.policies + {Policy(V4), Policy(V6)}, routes := t.routes + {Route(V4), Route(V6)});
  }

  // The jumps into the router's chains.

  /** What an installation appends to a chain that is not the router's: the jump to the chain entered there. */
  function Entries(c: Chain, dns: bool): seq<IpRule> {
    match c.name
    case Output =>
      if c.table == Mangle then [JumpRule(KokoroOut)]
      else if c.table == Filter then [JumpRule(KokoroBlock)]
      else if dns then [JumpRule(KokoroDns)] else []
    case Prerouting => if c.table == Mangle then [JumpRule(KokoroPre)] else []
    case Input => if c.table == Filter then [JumpRule(KokoroGuard)] else []
    case _ => []
  }

  lemma {:induction false} EnterRules(chains: seq<Chain>, plan: seq<Command>, c: Chain, rules: seq<IpRule>)
    requires |plan| == |chains| && forall i :: 0 <= i < |plan| ==> plan[i] == Enter(chains[i])
    requires forall i, j :: 0 <= i < j < |chains| ==> ParentOf(chains[i]) != ParentOf(chains[j])
    requires forall i :: 0 <= i < |chains| && ParentOf(chains[i]) == c ==> rules == [JumpRule(chains[i].name)]
    requires (forall i :: 0 <= i < |chains| ==> ParentOf(chains[i]) != c) ==> rules == []
    ensures RulesFor(plan, c) == rules
  {
    if plan != [] {
      if ParentOf(chains[0]) == c {
        EnterRules(chains[1..], plan[1..], c, []);
      } else {
        EnterRules(chains[1..], plan[1..], c, rules);
      }
    }
  }

  lemma {:induction false} NewRules(plan: seq<Command>, c: Chain)
    requires forall i :: 0 <= i < |plan| ==> plan[i].NewChain?
    ensures RulesFor(plan, c) == []
  {
    if plan != [] {
      NewRules(plan[1..], c);
    }
  }

  /** The jump an installation makes from a chain, leaving DNS aside. */
  function PlainEntries(c: Chain): seq<IpRule> {
    if c.table == Nat then [] else Entries(c, true)
  }

  /** The jumps made for one family before the DNS chain. */
  lemma AlwaysEntries(f: Family, c: Chain)
    requires !Own(c)
    ensures RulesFor(EnterChains(f), c) == if c.family == f then PlainEntries(c) else []
  {
    var chains := Always(f);
    var rules := if c.family == f then PlainEntries(c) else [];
    assert forall i, j :: 0 <= i < j < |chains| ==> ParentOf(chains[i]) != ParentOf(chains[j]);
    ParentEntries(f, c);
    EnterRules(chains, EnterChains(f), c, rules);
  }

  lemma ParentEntries(f: Family, c: Chain)
    requires !Own(c)
    ensures var chains, rules := Always(f), if c.family == f then PlainEntries(c) else [];
            && (forall i :: 0 <= i < |chains| && ParentOf(chains[i]) == c ==> rules == [JumpRule(chains[i].name)])
            && ((forall i :: 0 <= i < |chains| ==> ParentOf(chains[i]) != c) ==> rules == [])
  {
    var chains := Always(f);
    assert chains[0] == Chain(f, Mangle, KokoroOut) && chains[1] == Chain(f, Mangle, KokoroPre);
    assert chains[2] == Chain(f, Filter, KokoroBlock) && chains[3] == Chain(f, Filter, KokoroGuard);
    assert ParentOf(chains[0]) == Chain(f, Mangle, Output) && ParentOf(chains[1]) == Chain(f, Mangle, Prerouting);
    assert ParentOf(chains[2]) == Chain(f, Filter, Output) && ParentOf(chains[3]) == Chain(f, Filter, Input);
    assert c == Chain(c.family, c.table, c.name);
  }

  lemma DnsEntries(f: Family, c: Chain)
    ensures RulesFor(EnterDns(f), c) == if c == Chain(f, Nat, Output) then [JumpRule(KokoroDns)] else []
  {
    var own := Chain(f, Nat, KokoroDns);
    assert EnterDns(f) == [NewChain(own)] + [Enter(own)];
    RulesForAppend([NewChain(own)], [Enter(own)], c);
    NewRules([NewChain(own)], c);
    RulesForOne(ParentOf(own), JumpRule(own.name), c);
  }

  lemma OpeningEntries(f: Family, port: int, c: Chain)
    requires !Own(c)
    ensures RulesFor(Opening(f, port), c) == if c.family == f then PlainEntries(c) else []
  {
    var guards := Flat(TRANSPORTS, Guard(f, port));
    RulesForAppend(NewChains(f) + EnterChains(f), guards, c);
    RulesForAppend(NewChains(f), EnterChains(f), c);
    NewRules(NewChains(f), c);
    AlwaysEntries(f, c);
    PortInto(f, port, false, TRANSPORTS);
    ChainsOwn(f, false);
    NoRulesFor(guards, FamilyChains(f, false), c);
  }

  lemma StartEntries(f: Family, port: int, dns: bool, c: Chain)
    requires !Own(c)
    ensures RulesFor(FamilyStart(f, port, dns), c) == if c.family == f then Entries(c, dns) else []
  {
    OpeningEntries(f, port, c);
    DnsEntries(f, c);
    var tail := if dns then EnterDns(f) else [];
    RulesForAppend(Opening(f, port), tail, c);
    assert c == Chain(c.family, c.table, c.name);
  }

  lemma FamilyEntries(f: Family, mode: Mode, port: int, dns: bool, c: Chain)
    requires !Own(c)
    ensures RulesFor(FamilyPlan(mode, port, dns)(f), c) == if c.family == f then Entries(c, dns) else []
  {
    RulesForAppend(FamilyStart(f, port, dns), FamilyRules(f, mode, port, dns), c);
    StartEntries(f, port, dns, c);
    FamilyRulesInto(f, mode, port, dns);
    ChainsOwn(f, dns);
    NoRulesFor(FamilyRules(f, mode, port, dns), FamilyChains(f, dns), c);
  }

  lemma BothEntries(mode: Mode, port: int, dns: bool, c: Chain)
    requires !Own(c)
    ensures RulesFor(FamilyPlan(mode, port, dns)(V4) + FamilyPlan(mode, port, dns)(V6), c) == Entries(c, dns)
  {
    RulesForAppend(FamilyPlan(mode, port, dns)(V4), FamilyPlan(mode, port, dns)(V6), c);
    FamilyEntries(V4, mode, port, dns, c);
    FamilyEntries(V6, mode, port, dns, c);
  }

  /** The rules an installation adds to any chain. */
  function Added(c: Chain, mode: Mode, port: int, dns: bool): seq<IpRule> {
    if Own(c) then Compiled(c.name, mode, port, dns) else Entries(c, dns)
  }

  /** t is t0 with the router's chains, entered at the end of the built-in ones, its policies and its routes. */
  ghost predicate Installs(t: Tables, t0: Tables, mode: Mode, port: int, dns: bool) {
    && (forall c :: RulesIn(t, c) == RulesIn(t0, c) + Added(c, mode, port, dns))
    && (forall c :: c in t0.chains ==> c in t.chains) && (forall c :: c in t.chains ==> c in t0.chains || Own(c))
    && (forall c :: Own(c) && (dns || c.name != KokoroDns) ==> c in t.chains)
    && t.policies == t0.policies + {Policy(V4), Policy(V6)} && t.routes == t0.routes + {Route(V4), Route(V6)}
  }

  lemma BothCompiled(mode: Mode, port: int, dns: bool, c: Chain)
    requires Own(c)
    ensures RulesFor(FamilyPlan(mode, port, dns)(V4) + FamilyPlan(mode, port, dns)(V6), c) ==
            Compiled(c.name, mode, port, dns)
  {
    var other := if c.family == V4 then V6 else V4;
    RulesForAppend(FamilyPlan(mode, port, dns)(V4), FamilyPlan(mode, port, dns)(V6), c);
    FamilyCompiled(c.family, mode, port, dns, c);
    OtherFamily(other, mode, port, dns, c);
  }

  lemma BothAdded(mode: Mode, port: int, dns: bool, c: Chain)
    ensures RulesFor(FamilyPlan(mode, port, dns)(V4) + FamilyPlan(mode, port, dns)(V6), c) == Added(c, mode, port, dns)
  {
    if Own(c) { BothCompiled(mode, port, dns, c); } else { BothEntries(mode, port, dns, c); }
  }

  lemma CreatedOwn(c: Chain, dns: bool)
    requires Own(c) && (dns || c.name != KokoroDns)
    ensures c in FamilyChains(V4, dns) + FamilyChains(V6, dns)
  {
    assert c.family == V4 || c.family == V6;
    assert c == Chain(c.family, c.table, c.name);
  }

  /**
   On tables with the built-in chains the installation runs through: each of the router's chains holds its
   compiled rules and is entered from the end of its built-in chain, and nothing else has changed.
   */
  lemma InstallationRuns(mode: Mode, port: int, dns: bool, t0: Tables)
    requires Clean(t0) && Hosts(t0.chains.Keys, dns)
    ensures RunStrict(Installation(mode, port, dns), t0).Some?
    ensures Installs(RunStrict(Installation(mode, port, dns), t0).value, t0, mode, port, dns)
  {
    var plan := FamilyPlan(mode, port, dns)(V4) + FamilyPlan(mode, port, dns)(V6);
    FamiliesBuildable(mode, port, dns, t0.chains.Keys);
    InstallationSplits(mode, port, dns);
    forall c ensures RulesFor(plan, c) == Added(c, mode, port, dns) {
      BothAdded(mode, port, dns, c);
    }
    forall c | Own(c) && (dns || c.name != KokoroDns) ensures c in AllCreated(plan) {
      CreatedOwn(c, dns);
    }
    ChainsOwn(V4, dns);
    ChainsOwn(V6, dns);
    PlanRuns(plan, mode, port, dns, t0);
  }

  lemma PlanRuns(plan: seq<Command>, mode: Mode, port: int, dns: bool, t0: Tables)
    requires Clean(t0) && Buildable(plan, t0.chains.Keys)
    requires forall c :: RulesFor(plan, c) == Added(c, mode, port, dns)
    requires (forall c :: Own(c) && (dns || c.name != KokoroDns) ==> c in AllCreated(plan)) &&
             (forall c :: c in AllCreated(plan) ==> Own(c))
    ensures RunStrict(plan + Routing(), t0).Some?
    ensures Installs(RunStrict(plan + Routing(), t0).value, t0, mode, port, dns)
  {
    RunBuilds(plan, t0);
    var t := RunStrict(plan, t0).value;
    RoutingRuns(t);
    RunStrictAppend(plan, Routing(), t0);
    var after := RunStrict(plan + Routing(), t0).value;
    forall c ensures RulesIn(after, c) == RulesIn(t0, c) + Added(c, mode, port, dns) {
      assert RulesIn(after, c) == RulesIn(t, c);
    }
  }
}
