/**
 The way of a packet through the tables on Linux: out through the built-in chains, and back in over the
 loopback device. Each built-in chain first does what it did without the router; a packet it lets through
 to its end then enters the router's chain.
 */
module LinuxJourney {
  import opened Wrappers
  import opened LinuxTables
  import opened LinuxPlan
  import opened LinuxRollback
  import opened LinuxMeaning
  import opened LinuxRouting
  import opened Rules

  // Built-in chains, before and after.

  predicate BuiltIn(name: ChainName) {
    name == Output || name == Prerouting || name == Input
  }

  /** No rule jumps to a built-in chain; the kernel has no such rules. */
  ghost predicate WellFormed(t: Tables) {
    forall c :: c in t.chains ==> NoBuiltInJump(t.chains[c])
  }

  predicate NoBuiltInJump(rules: seq<IpRule>) {
    forall i :: 0 <= i < |rules| && rules[i].target.Jump? ==> !BuiltIn(rules[i].target.to)
  }

  /** Rules of the tables without the router: they lead to none of its chains. */
  ghost predicate Foreign(rules: seq<IpRule>, f: Family, table: Table) {
    NoBuiltInJump(rules) && forall i :: 0 <= i < |rules| && rules[i].target.Jump? ==>
      !Own(Chain(f, table, rules[i].target.to))
  }

  lemma BaseForeign(t0: Tables, c: Chain)
    requires Clean(t0) && WellFormed(t0)
    ensures Foreign(RulesIn(t0, c), c.family, c.table)
  {
    var rules := RulesIn(t0, c);
    forall i | 0 <= i < |rules| && rules[i].target.Jump? ensures !Own(Chain(c.family, c.table, rules[i].target.to)) {
      var own := Chain(c.family, c.table, rules[i].target.to);
      assert Own(own) ==> NoJump(t0.chains[c], own.name);
    }
  }

  /** The names a foreign rule can lead to are enterable in both or in neither. */
  ghost predicate SameNames(f: Family, table: Table, a: set<ChainName>, b: set<ChainName>) {
    forall name :: !BuiltIn(name) && !Own(Chain(f, table, name)) ==> (name in a <==> name in b)
  }

  /** Foreign rules do the same before and after. */
  lemma {:induction false} FollowForeign(t: Tables, t0: Tables, mode: Mode, port: int, dns: bool, f: Family,
      table: Table, rules: seq<IpRule>, p: Packet, a: set<ChainName>, b: set<ChainName>)
    requires Installs(t, t0, mode, port, dns) && Clean(t0) && WellFormed(t0)
    requires Foreign(rules, f, table) && SameNames(f, table, a, b)
    ensures Follow(t, f, table, rules, p, a) == Follow(t0, f, table, rules, p, b)
    decreases b, |rules|
  {
    if rules != [] {
      assert Foreign(rules[1..], f, table);
      if !Fits(rules[0], p) {
        FollowForeign(t, t0, mode, port, dns, f, table, rules[1..], p, a, b);
      } else if rules[0].target.SetMark? {
        FollowForeign(t, t0, mode, port, dns, f, table, rules[1..], p.(mark := rules[0].target.mark), a, b);
      } else if rules[0].target.Jump? {
        FollowForeignJump(t, t0, mode, port, dns, f, table, rules, p, a, b);
      }
    }
  }

  lemma {:induction false} FollowForeignJump(t: Tables, t0: Tables, mode: Mode, port: int, dns: bool, f: Family,
      table: Table, rules: seq<IpRule>, p: Packet, a: set<ChainName>, b: set<ChainName>)
    requires Installs(t, t0, mode, port, dns) && Clean(t0) && WellFormed(t0)
    requires rules != [] && Foreign(rules, f, table) && SameNames(f, table, a, b) && Fits(rules[0], p) &&
             rules[0].target.Jump?
    ensures Follow(t, f, table, rules, p, a) == Follow(t0, f, table, rules, p, b)
    decreases b, |rules|, 0
  {
    var to := rules[0].target.to;
    assert Foreign(rules[1..], f, table);
    if to in b {
      var c := Chain(f, table, to);
      assert RulesIn(t, c) == RulesIn(t0, c) + [] == RulesIn(t0, c);
      BaseForeign(t0, c);
      FollowForeign(t, t0, mode, port, dns, f, table, RulesIn(t0, c), p, a - {to}, b - {to});
      var inner := Resume(Follow(t0, f, table, RulesIn(t0, c), p, b - {to}));
      if inner.Continue? { FollowForeign(t, t0, mode, port, dns, f, table, rules[1..], p.(mark := inner.mark), a, b); }
    } else {
      FollowForeign(t, t0, mode, port, dns, f, table, rules[1..], p, a, b);
    }
  }

  lemma NamesKept(t: Tables, t0: Tables, mode: Mode, port: int, dns: bool, c: Chain)
    requires Installs(t, t0, mode, port, dns)
    ensures SameNames(c.family, c.table, NamesIn(t, c.family, c.table) - {c.name},
            NamesIn(t0, c.family, c.table) - {c.name})
  {
    forall name | !BuiltIn(name) && !Own(Chain(c.family, c.table, name))
      ensures name in NamesIn(t, c.family, c.table) <==> name in NamesIn(t0, c.family, c.table)
    {
      var d := Chain(c.family, c.table, name);
      assert d in t.chains <==> d in t0.chains;
    }
  }

  /** A chain of the router that this installation has made. */
  predicate Made(c: Chain, dns: bool) {
    Own(c) && (dns || c.name != KokoroDns)
  }

  /** A packet that a built-in chain lets through to its end enters the router's chain; others never get there. */
  function Entered(base: Outcome, rules: seq<IpRule>, p: Packet): Outcome {
    if base.Continue? then Walk(rules, p.(mark := base.mark)) else base
  }

  lemma PassInstalled(t: Tables, t0: Tables, mode: Mode, port: int, dns: bool, own: Chain, p: Packet)
    requires Installs(t, t0, mode, port, dns) && Clean(t0) && WellFormed(t0) && Made(own, dns)
    ensures Pass(t, ParentOf(own), p) == Entered(Pass(t0, ParentOf(own), p), Compiled(own.name, mode, port, dns), p)
  {
    var c := ParentOf(own);
    var before := RulesIn(t0, c);
    var a, b := NamesIn(t, c.family, c.table) - {c.name}, NamesIn(t0, c.family, c.table) - {c.name};
    assert RulesIn(t, c) == before + [JumpRule(own.name)];
    BaseForeign(t0, c);
    NamesKept(t, t0, mode, port, dns, c);
    FollowForeign(t, t0, mode, port, dns, c.family, c.table, before, p, a, b);
    FollowAppend(t, c.family, c.table, before, [JumpRule(own.name)], p, a);
    var base := Pass(t0, c, p);
    if base.Continue? { OwnFollowed(t, t0, mode, port, dns, own, p.(mark := base.mark), a); }
  }

  lemma OwnFollowed(t: Tables, t0: Tables, mode: Mode, port: int, dns: bool, own: Chain, p: Packet,
      enterable: set<ChainName>)
    requires Installs(t, t0, mode, port, dns) && Clean(t0) && Made(own, dns) && own.name in enterable
    ensures Follow(t, own.family, own.table, [JumpRule(own.name)], p, enterable) ==
            Walk(Compiled(own.name, mode, port, dns), p)
  {
    assert own == Chain(own.family, own.table, own.name);
    OwnRules(t, t0, mode, port, dns, own);
    FollowJump(t, own.family, own.table, own.name, p, enterable);
  }

  lemma OwnRules(t: Tables, t0: Tables, mode: Mode, port: int, dns: bool, own: Chain)
    requires Installs(t, t0, mode, port, dns) && Clean(t0) && Own(own)
    ensures RulesIn(t, own) == Compiled(own.name, mode, port, dns) && NoJumps(RulesIn(t, own))
  {
    assert RulesIn(t, own) == RulesIn(t0, own) + Compiled(own.name, mode, port, dns);
    CompiledFlat(own.name, mode, port, dns);
  }

  lemma FourFlat(mode: Mode, action: Action, name: ChainName, dns: bool, proxy: bool)
    ensures NoJumps(Four(mode, action, PerBlock(name, dns, proxy)))
  {
    var r := PerBlock(name, dns, proxy);
    forall s, tr ensures NoJumps(r(s)(tr)) {
    }
  }

  lemma CompiledFlat(name: ChainName, mode: Mode, port: int, dns: bool)
    ensures NoJumps(Compiled(name, mode, port, dns))
  {
    FourFlat(mode, Proxy, name, dns, true);
    FourFlat(mode, Block, name, dns, false);
  }

  /** Without a DNS chain the nat table does what it did. */
  lemma PassUnchanged(t: Tables, t0: Tables, mode: Mode, port: int, c: Chain, p: Packet)
    requires Installs(t, t0, mode, port, false) && Clean(t0) && WellFormed(t0) && c.table == Nat && c.name == Output
    ensures Pass(t, c, p) == Pass(t0, c, p)
  {
    assert RulesIn(t, c) == RulesIn(t0, c) + [] == RulesIn(t0, c);
    BaseForeign(t0, c);
    NamesKept(t, t0, mode, port, false, c);
    FollowForeign(t, t0, mode, port, false, c.family, c.table, RulesIn(t0, c), p,
                  NamesIn(t, c.family, c.table) - {c.name}, NamesIn(t0, c.family, c.table) - {c.name});
  }

  // The way out.

  /** What becomes of an outgoing packet: its mark, where it is redirected, and whether it is dropped. */
  datatype Fate = Fate(mark: nat, redirect: Option<int>, dropped: bool)

  function MarkOf(outcome: Outcome, p: Packet): nat {
    if outcome.Continue? || outcome.Returned? || outcome.Accepted? then outcome.mark else p.mark
  }

  predicate Lost(outcome: Outcome) {
    outcome.Dropped? || outcome.Intercepted?
  }

  /** A redirected packet goes to this machine. */
  function Redirected(p: Packet, redirect: Option<int>): Packet {
    if redirect.Some? then p.(dport := redirect.value, nets := {Loopback}) else p
  }

  /** The mangle, nat and filter tables in turn, whatever each of them does. */
  function Journey(mangle: Packet -> Outcome, natTable: Packet -> Outcome, filter: Packet -> Outcome, p: Packet): Fate {
    var m := mangle(p);
    if Lost(m) then Fate(p.mark, None, true)
    else
      var q := p.(mark := MarkOf(m, p));
      var n := natTable(q);
      if n.Dropped? then Fate(q.mark, None, true)
      else
        var r := q.(mark := MarkOf(n, q));
        var redirect := if n.Intercepted? then Some(n.port) else None;
        Fate(r.mark, redirect, Lost(filter(Redirected(r, redirect))))
  }

  function Passing(t: Tables, c: Chain): Packet -> Outcome {
    (p: Packet) => Pass(t, c, p)
  }

  function Outgoing(t: Tables, f: Family, p: Packet): Fate {
    Journey(Passing(t, Chain(f, Mangle, Output)), Passing(t, Chain(f, Nat, Output)),
      Passing(t, Chain(f, Filter, Output)), p)
  }

  /** The same chains without the router, each followed by what the treatment adds for a packet it lets through. */
  function Treated(t0: Tables, f: Family, treatment: Treatment, dns: bool, p: Packet): Fate {
    Journey(Marking(t0, f, treatment), Redirecting(t0, f, treatment, dns), Refusing(t0, f, treatment), p)
  }

  function Marking(t0: Tables, f: Family, treatment: Treatment): Packet -> Outcome {
    (p: Packet) =>
      var base := Pass(t0, Chain(f, Mangle, Output), p);
      if base.Continue? && treatment == SendToProxy && p.nets == {} then Continue(MARK) else base
  }

  function Redirecting(t0: Tables, f: Family, treatment: Treatment, dns: bool): Packet -> Outcome {
    (p: Packet) =>
      var base := Pass(t0, Chain(f, Nat, Output), p);
      if base.Continue? && treatment == SendToProxy && dns && p.dport == 53 then Intercepted(DNS_PORT) else base
  }

  function Refusing(t0: Tables, f: Family, treatment: Treatment): Packet -> Outcome {
    (p: Packet) =>
      var base := Pass(t0, Chain(f, Filter, Output), p);
      if base.Continue? && treatment == Refuse then Dropped else base
  }

  lemma MangleTreated(t: Tables, t0: Tables, mode: Mode, port: int, dns: bool, f: Family, g: Option<Group>, p: Packet)
    requires Installs(t, t0, mode, port, dns) && Clean(t0) && WellFormed(t0) && From(mode, g, p)
    ensures Pass(t, Chain(f, Mangle, Output), p) == Marking(t0, f, GroupTreatment(g, p.transport))(p)
  {
    PassInstalled(t, t0, mode, port, dns, Chain(f, Mangle, KokoroOut), p);
    var base := Pass(t0, Chain(f, Mangle, Output), p);
    if base.Continue? {
      FromMarked(mode, g, p, base.mark);
      OutFate(mode, port, dns, g, p.(mark := base.mark));
    }
  }

  lemma NatTreated(t: Tables, t0: Tables, mode: Mode, port: int, dns: bool, f: Family, g: Option<Group>, p: Packet)
    requires Installs(t, t0, mode, port, dns) && Clean(t0) && WellFormed(t0) && From(mode, g, p)
    ensures Pass(t, Chain(f, Nat, Output), p) == Redirecting(t0, f, GroupTreatment(g, p.transport), dns)(p)
  {
    if dns {
      PassInstalled(t, t0, mode, port, dns, Chain(f, Nat, KokoroDns), p);
      var base := Pass(t0, Chain(f, Nat, Output), p);
      if base.Continue? {
        FromMarked(mode, g, p, base.mark);
        DnsFate(mode, port, dns, g, p.(mark := base.mark));
      }
    } else {
      PassUnchanged(t, t0, mode, port, Chain(f, Nat, Output), p);
    }
  }

  lemma FilterTreated(t: Tables, t0: Tables, mode: Mode, port: int, dns: bool, f: Family, g: Option<Group>, p: Packet)
    requires Installs(t, t0, mode, port, dns) && Clean(t0) && WellFormed(t0) && From(mode, g, p)
    ensures Pass(t, Chain(f, Filter, Output), p) == Refusing(t0, f, GroupTreatment(g, p.transport))(p)
  {
    PassInstalled(t, t0, mode, port, dns, Chain(f, Filter, KokoroBlock), p);
    var base := Pass(t0, Chain(f, Filter, Output), p);
    if base.Continue? {
      FromMarked(mode, g, p, base.mark);
      BlockFate(mode, port, dns, g, p.(mark := base.mark));
    }
  }

  /** A journey depends on the three tables only through what they do to packets of this group and transport. */
  lemma SameJourney(m: Packet -> Outcome, n: Packet -> Outcome, e: Packet -> Outcome, m': Packet -> Outcome,
      n': Packet -> Outcome, e': Packet -> Outcome, p: Packet)
    requires forall q: Packet :: q.cgroup == p.cgroup && q.transport == p.transport ==>
             m(q) == m'(q) && n(q) == n'(q) && e(q) == e'(q)
    ensures Journey(m, n, e, p) == Journey(m', n', e', p)
  {
  }

  /** The installed tables treat the packets of a group as its treatment says, after what they did before. */
  lemma OutgoingTreated(t: Tables, t0: Tables, mode: Mode, port: int, dns: bool, f: Family, g: Option<Group>, p: Packet)
    requires Installs(t, t0, mode, port, dns) && Clean(t0) && WellFormed(t0) && From(mode, g, p)
    ensures Outgoing(t, f, p) == Treated(t0, f, GroupTreatment(g, p.transport), dns, p)
  {
    var treatment := GroupTreatment(g, p.transport);
    forall q: Packet | q.cgroup == p.cgroup && q.transport == p.transport
      ensures Passing(t, Chain(f, Mangle, Output))(q) == Marking(t0, f, treatment)(q)
      ensures Passing(t, Chain(f, Nat, Output))(q) == Redirecting(t0, f, treatment, dns)(q)
      ensures Passing(t, Chain(f, Filter, Output))(q) == Refusing(t0, f, treatment)(q)
    {
      SameSender(mode, g, p, q);
      MangleTreated(t, t0, mode, port, dns, f, g, q);
      NatTreated(t, t0, mode, port, dns, f, g, q);
      FilterTreated(t, t0, mode, port, dns, f, g, q);
    }
    SameJourney(Passing(t, Chain(f, Mangle, Output)), Passing(t, Chain(f, Nat, Output)),
      Passing(t, Chain(f, Filter, Output)),
                Marking(t0, f, treatment), Redirecting(t0, f, treatment, dns), Refusing(t0, f, treatment), p);
  }

  lemma SameSender(mode: Mode, g: Option<Group>, p: Packet, q: Packet)
    requires From(mode, g, p) && q.cgroup == p.cgroup
    ensures From(mode, g, q)
  {
  }

  lemma InstalledTables(mode: Mode, port: int, dns: bool, t0: Tables, t: Tables)
    requires Clean(t0) && Hosts(t0.chains.Keys, dns) && RunStrict(Installation(mode, port, dns), t0) == Some(t)
    ensures Installs(t, t0, mode, port, dns)
  {
    InstallationRuns(mode, port, dns, t0);
  }

  /**
   For every accepted request, process and packet: the installed tables do with a packet of the group the
   router assigns what they did without the router, and, where they let it through, what the deciding rule
   asks.
   */
  lemma PacketMeaning(raw: RulesRequest, goos: string, available: bool, mode: Mode, t0: Tables, t: Tables,
      process: Process, rule: Option<Rule>, g: Option<Group>, f: Family, p: Packet)
    requires Acceptable(raw, goos) && Decides(Normalized(raw, goos).rules, FitsProcess(process), rule)
    requires Clean(t0) && WellFormed(t0) && Hosts(t0.chains.Keys, raw.proxyUdpDns)
    requires RunStrict(Installation(mode, raw.proxyPort, raw.proxyUdpDns), t0) == Some(t)
    requires Targets(BuildRouterCommand(Normalized(raw, goos), available).rules).Some? ==>
               g == FirstGroup(Targets(BuildRouterCommand(Normalized(raw, goos), available).rules).value, process)
    requires From(mode, g, p)
    ensures Outgoing(t, f, p) == Treated(t0, f, Asked(rule, available, p.transport), raw.proxyUdpDns, p)
  {
    GroupDecided(raw, goos, available, process, rule);
    InstalledTables(mode, raw.proxyPort, raw.proxyUdpDns, t0, t);
    OutgoingTreated(t, t0, mode, raw.proxyPort, raw.proxyUdpDns, f, g, p);
    AskedByGroup(rule, available, p.transport);
  }

  // The way back in.

  /** A policy sends packets of this mark to the local route. */
  ghost predicate RoutedBack(t: Tables, f: Family, mark: nat) {
    exists policy :: policy in t.policies && policy.family == f && policy.mark == mark && LocalRoute(f,
      policy.lookup) in t.routes
  }

  /** Where an outgoing packet ends: nowhere, at a port of this machine, or on the network. */
  datatype Destination = Nowhere | Port(port: int) | Network

  /** A packet that comes in over the loopback device; its sender's cgroup is not known there. */
  function Returning(p: Packet, fate: Fate): Packet {
    Redirected(p.(mark := fate.mark, cgroup := None, remote := false), fate.redirect)
  }

  /** Mangle PREROUTING and filter INPUT. */
  function Received(t: Tables, f: Family, p: Packet): Destination {
    var pre := Pass(t, Chain(f, Mangle, Prerouting), p);
    if pre.Dropped? then Nowhere
    else if Lost(Pass(t, Chain(f, Filter, Input), p.(mark := MarkOf(pre, p)))) then Nowhere
    else Port(if pre.Intercepted? then pre.port else p.dport)
  }

  ghost function Arrival(t: Tables, f: Family, p: Packet): Destination {
    var fate := Outgoing(t, f, p);
    var q := Returning(p, fate);
    if fate.dropped then Nowhere
    else if Loopback in q.nets || RoutedBack(t, f, fate.mark) then Received(t, f, q)
    else Network
  }

  /** The tables without the router leave every packet alone and have no use for the router's mark. */
  ghost predicate Open(t0: Tables) {
    && (forall c, p :: Pass(t0, c, p) == Continue(p.mark))
    && (forall policy :: policy in t0.policies ==> policy.mark != MARK && policy.lookup != ROUTING_TABLE)
  }

  lemma InstalledLeads(t: Tables, t0: Tables, mode: Mode, port: int, dns: bool, f: Family)
    requires Installs(t, t0, mode, port, dns)
    ensures RoutedBack(t, f, MARK)
  {
    assert f == V4 || f == V6;
    assert Policy(f) in t.policies && LocalRoute(f, Policy(f).lookup) in t.routes;
  }

  lemma NotRoutedBack(t: Tables, t0: Tables, mode: Mode, port: int, dns: bool, f: Family, mark: nat)
    requires Installs(t, t0, mode, port, dns) && Open(t0) && mark != MARK
    ensures RoutedBack(t, f, mark) ==> RoutedBack(t0, f, mark)
  {
    if RoutedBack(t, f, mark) {
      var policy :| policy in t.policies && policy.family == f && policy.mark == mark &&
        LocalRoute(f, policy.lookup) in t.routes;
      assert policy in t0.policies && LocalRoute(f, policy.lookup) in t0.routes;
    }
  }

  /** PREROUTING hands marked packets the tables let through to the proxy port, and no others. */
  lemma PreroutingInstalled(t: Tables, t0: Tables, mode: Mode, port: int, dns: bool, f: Family, p: Packet)
    requires Installs(t, t0, mode, port, dns) && Clean(t0) && WellFormed(t0)
    ensures var base := Pass(t0, Chain(f, Mangle, Prerouting), p);
            Pass(t, Chain(f, Mangle, Prerouting), p) == if base == Continue(MARK) then Intercepted(port) else base
  {
    PassInstalled(t, t0, mode, port, dns, Chain(f, Mangle, KokoroPre), p);
    var base := Pass(t0, Chain(f, Mangle, Prerouting), p);
    if base.Continue? { PreFate(mode, port, dns, p.(mark := base.mark)); }
  }

  /** INPUT keeps other machines off the proxy port, and is otherwise as it was. */
  lemma InputInstalled(t: Tables, t0: Tables, mode: Mode, port: int, dns: bool, f: Family, p: Packet)
    requires Installs(t, t0, mode, port, dns) && Clean(t0) && WellFormed(t0)
    ensures var base := Pass(t0, Chain(f, Filter, Input), p);
            Pass(t, Chain(f, Filter, Input), p) == if base.Continue? && p.remote &&
              p.dport == port then Dropped else base
  {
    PassInstalled(t, t0, mode, port, dns, Chain(f, Filter, KokoroGuard), p);
    var base := Pass(t0, Chain(f, Filter, Input), p);
    if base.Continue? { GuardFate(mode, port, dns, p.(mark := base.mark)); }
  }

  /** On open tables, where the packets of a process end. */
  function Expected(treatment: Treatment, dns: bool, port: int, p: Packet): Destination {
    match treatment
    case Refuse => Nowhere
    case LeaveAlone => if Loopback in p.nets then Port(p.dport) else Network
    case SendToProxy =>
      if p.nets == {} then Port(port)
      else if dns && p.dport == 53 then Port(DNS_PORT)
      else if Loopback in p.nets then Port(p.dport) else Network
  }

  lemma TreatedOpen(t0: Tables, f: Family, treatment: Treatment, dns: bool, p: Packet)
    requires Open(t0)
    ensures Treated(t0, f, treatment, dns, p) ==
            Fate(if treatment == SendToProxy && p.nets == {} then MARK else p.mark,
                 if treatment == SendToProxy && dns && p.dport == 53 then Some(DNS_PORT) else None,
                 treatment == Refuse)
  {
  }

  lemma ReceivedOpen(t: Tables, t0: Tables, mode: Mode, port: int, dns: bool, f: Family, p: Packet)
    requires Installs(t, t0, mode, port, dns) && Clean(t0) && WellFormed(t0) && Open(t0)
    ensures Received(t, f, p) ==
            if p.remote && p.dport == port then Nowhere else Port(if p.mark == MARK then port else p.dport)
  {
    PreroutingInstalled(t, t0, mode, port, dns, f, p);
    var q := p.(mark := MarkOf(Pass(t, Chain(f, Mangle, Prerouting), p), p));
    InputInstalled(t, t0, mode, port, dns, f, q);
  }

  /**
   The way out, the local route and PREROUTING together. A packet for the proxy ends at the proxy port, even
   one to port 53 that was redirected on the way out, since it carries the mark; only a packet to a protected
   network, which is not marked, ends at the DNS port.
   */
  lemma ArrivalExact(t: Tables, t0: Tables, mode: Mode, port: int, dns: bool, f: Family, g: Option<Group>, p: Packet)
    requires Installs(t, t0, mode, port, dns) && Clean(t0) && WellFormed(t0) && Open(t0)
    requires From(mode, g, p) && !p.remote && p.mark != MARK && !RoutedBack(t0, f, p.mark)
    ensures Arrival(t, f, p) == Expected(GroupTreatment(g, p.transport), dns, port, p)
  {
    var treatment := GroupTreatment(g, p.transport);
    OutgoingTreated(t, t0, mode, port, dns, f, g, p);
    TreatedOpen(t0, f, treatment, dns, p);
    var fate := Outgoing(t, f, p);
    InstalledLeads(t, t0, mode, port, dns, f);
    NotRoutedBack(t, t0, mode, port, dns, f, p.mark);
    ReceivedOpen(t, t0, mode, port, dns, f, Returning(p, fate));
  }
}
