/**
 The Linux router process (processrouter/process_linux.go): `Send` puts the firewall, the targets and
 the cgroups together, `Stop` takes all of them back.
 */
module LinuxProcess {
  import opened Wrappers
  import opened Rules
  import opened LinuxTables
  import opened LinuxPlan
  import opened LinuxRollback
  import opened LinuxMeaning
  import opened LinuxRouting
  import opened LinuxJourney
  import opened CgroupRouter

  class Native {
    const mode: Mode
    const firewall: Firewall
    const router: Router
    var alive: bool

    ghost predicate Valid()
      reads this, firewall, router
    {
      firewall.Valid() && router.Valid() && Installed()
    }

    /** A firewall that is ready is the installation for its port and DNS setting. */
    ghost predicate Installed()
      reads firewall
    {
      firewall.ready ==>
        Some(firewall.tables) == RunStrict(Installation(mode, firewall.port, firewall.dns), firewall.base)
    }

    constructor (mode: Mode, firewall: Firewall, router: Router)
      requires firewall.Valid() && router.Valid() && !firewall.ready
      ensures Valid() && alive && this.mode == mode && this.firewall == firewall && this.router == router
    {
      this.mode, this.firewall, this.router, alive := mode, firewall, router, true;
    }

    predicate Proper(command: RouterCommand) {
      && command.version == PROTOCOL_VERSION && command.command == "replace_rules" && command.failClosed
      && command.host == "127.0.0.1" && command.port == LINUX_PROXY_PORT
    }

    /**
     `Send`: success means that the firewall is installed as the command asks, the targets are its enabled
     rules, and every live process of the snapshot is routed by them. The snapshot is None when the process
     list could not be read, which is not an error.
     */
    method Send(command: RouterCommand, limit: nat, snapshot: Option<seq<Entry>>) returns (ok: bool)
      requires Valid() && (snapshot.Some? ==> Snapshot(snapshot.value, router.world.used))
      modifies firewall, router
      ensures Valid() && firewall.base == old(firewall.base)
      ensures ok ==>
              alive && Proper(command) && firewall.ready && firewall.port == command.port &&
              firewall.dns == command.proxyUdpDns
      ensures ok ==> Targets(command.rules) == Some(router.targets)
      ensures ok && snapshot.Some? ==>
                AllPlaced(old(router.world), old(router.routed), router.world, router.routed,
                  router.targets, snapshot.value)
      ensures !alive || !Proper(command) ==> !ok && firewall.tables == old(firewall.tables) && Kept()
    {
      if !Proper(command) || !alive { return false; }
      ok := Prepare(command, limit);
      if !ok { return; }
      ok := Route(command.rules, snapshot);
    }

    /** The enabled rules become the targets and the processes of the snapshot are moved. */
    method Route(rules: seq<RouterRule>, snapshot: Option<seq<Entry>>) returns (ok: bool)
      requires router.Valid() && (snapshot.Some? ==> Snapshot(snapshot.value, router.world.used))
      modifies router
      ensures router.Valid() && ok == Targets(rules).Some?
      ensures ok ==> Targets(rules) == Some(router.targets)
      ensures ok && snapshot.Some? ==>
                AllPlaced(old(router.world), old(router.routed), router.world, router.routed,
                  router.targets, snapshot.value)
      ensures !ok ==> Kept()
    {
      var targets := BuildTargets(rules);
      if targets == None { return false; }
      router.targets := targets.value;
      if snapshot.Some? { router.Scan(snapshot.value); }
      return true;
    }

    /** No process is moved and nothing about processes is changed. */
    twostate predicate Kept()
      reads router
    {
      && router.targets == old(router.targets) && router.routed == old(router.routed)
      && router.origins == old(router.origins) && router.world == old(router.world)
    }

    /** The firewall is rebuilt unless it already is what the command asks for. */
    method Prepare(command: RouterCommand, limit: nat) returns (ok: bool)
      requires firewall.Valid() && Installed()
      modifies firewall
      ensures firewall.Valid() && Installed() && firewall.base == old(firewall.base) && ok == firewall.ready
      ensures ok ==> firewall.port == command.port && firewall.dns == command.proxyUdpDns
      ensures !ok ==> firewall.tables == firewall.base
    {
      if firewall.ready && firewall.dns == command.proxyUdpDns && firewall.port == command.port { return true; }
      ok := firewall.Rebuild(mode, command.port, command.proxyUdpDns, limit);
    }

    /** `Stop`: the processes and the tables are as they would be without the router. */
    method Stop()
      requires Valid()
      modifies this, firewall, router
      ensures Valid() && !alive
      ensures old(alive) ==>
              firewall.tables == firewall.base == old(firewall.base) && !firewall.ready && router.routed == map[]
      ensures old(alive) ==> forall pid :: pid in router.world.place ==> router.world.place[pid].Outside?
      ensures old(alive) ==> Back(old(router.routed).Keys, old(router.origins), router.world)
    {
      if !alive { return; }
      alive := false;
      router.Stop();
      firewall.Remove();
    }
  }

  /** The packets of a process in that place. */
  predicate SentFrom(mode: Mode, place: Place, p: Packet) {
    match place
    case Managed(g) => From(mode, Some(g), p)
    case Outside(_) => From(mode, None, p)
  }

  /** Where a placed process is. */
  lemma PlacedWhere(world0: World, routed0: map<int, Group>, w: World, routed: map<int, Group>,
      origins: map<int, Place>, targets: seq<ProcessTarget>, entry: Entry)
    requires Inv(w, routed, origins, None) && Placed(world0, routed0, w, routed, targets, entry) && entry.pid in w.place
    ensures var g := FirstGroup(targets, entry.process);
            && (g.Some? ==> w.place[entry.pid] == Managed(g.value))
            && (g == None ==> (w.place[entry.pid].Outside? <==> Free(world0, routed0, entry.pid)))
  {
  }

  /** The outcome of a `Send` of the command for an accepted request, over the world and the tables it found. */
  ghost predicate Sent(raw: RulesRequest, goos: string, available: bool, mode: Mode, t0: Tables, t: Tables,
      targets: seq<ProcessTarget>, world0: World, routed0: map<int, Group>, w: World, routed: map<int, Group>,
      origins: map<int, Place>, entry: Entry)
  {
    && Acceptable(raw, goos) && Clean(t0) && WellFormed(t0) && Hosts(t0.chains.Keys, raw.proxyUdpDns)
    && RunStrict(Installation(mode, raw.proxyPort, raw.proxyUdpDns), t0) == Some(t)
    && Targets(BuildRouterCommand(Normalized(raw, goos), available).rules) == Some(targets)
    && Inv(w, routed, origins, None) && Placed(world0, routed0, w, routed, targets, entry) && entry.pid in w.place
  }

  /**
   After a successful `Send` a live process of the snapshot that a rule decides, or that was routed or outside
   the groups before, has its packets treated as the deciding rule asks, and left alone when there is none.
   */
  lemma RoutedPackets(raw: RulesRequest, goos: string, available: bool, mode: Mode, t0: Tables, t: Tables,
      targets: seq<ProcessTarget>, world0: World, routed0: map<int, Group>, w: World, routed: map<int, Group>,
      origins: map<int, Place>, entry: Entry, rule: Option<Rule>, f: Family, p: Packet)
    requires Sent(raw, goos, available, mode, t0, t, targets, world0, routed0, w, routed, origins, entry)
    requires Decides(Normalized(raw, goos).rules, FitsProcess(entry.process), rule)
    requires SentFrom(mode, w.place[entry.pid], p) && (rule.Some? || Free(world0, routed0, entry.pid))
    ensures Outgoing(t, f, p) == Treated(t0, f, Asked(rule, available, p.transport), raw.proxyUdpDns, p)
  {
    GroupDecided(raw, goos, available, entry.process, rule);
    PlacedWhere(world0, routed0, w, routed, origins, targets, entry);
    PacketMeaning(raw, goos, available, mode, t0, t, entry.process, rule, FirstGroup(targets, entry.process), f, p);
  }

  /** A packet that the rules of a proxy or block group do not leave alone. */
  function Telling(mode: Mode, g: Group): Packet {
    Packet(Some(SelectorOf(mode, g)), if g.protocol == OnlyUdp then Udp else Tcp, {}, 80, 0, false)
  }

  lemma GroupTells(t: Tables, t0: Tables, mode: Mode, port: int, dns: bool, f: Family, g: Group)
    requires Installs(t, t0, mode, port, dns) && Clean(t0) && WellFormed(t0) && Open(t0)
    ensures From(mode, Some(g), Telling(mode, g))
    ensures Outgoing(t, f, Telling(mode, g)) == Treated(t0, f, LeaveAlone, dns, Telling(mode, g)) <==>
            g.action == Direct
  {
    var p := Telling(mode, g);
    OutgoingTreated(t, t0, mode, port, dns, f, Some(g), p);
    TreatedOpen(t0, f, GroupTreatment(Some(g), p.transport), dns, p);
    TreatedOpen(t0, f, LeaveAlone, dns, p);
  }

  lemma DirectLeavesAlone(t: Tables, t0: Tables, mode: Mode, port: int, dns: bool, f: Family, g: Group, p: Packet)
    requires Installs(t, t0, mode, port, dns) && Clean(t0) && WellFormed(t0) &&
             From(mode, Some(g), p) && g.action == Direct
    ensures Outgoing(t, f, p) == Treated(t0, f, LeaveAlone, dns, p)
  {
    OutgoingTreated(t, t0, mode, port, dns, f, Some(g), p);
  }

  /** All packets of the process go out as asked. */
  ghost predicate AllAsAsked(mode: Mode, t0: Tables, t: Tables, place: Place, rule: Option<Rule>, available: bool,
      dns: bool, f: Family) {
    forall p :: SentFrom(mode, place, p) ==>
      Outgoing(t, f, p) == Treated(t0, f, Asked(rule, available, p.transport), dns, p)
  }

  /**
   Exactly: on tables that let everything through, all packets of a live process of the snapshot go out as its
   deciding rule asks if and only if there is such a rule, or the process was routed or outside the groups
   before, or it was forked into a group for direct traffic.
   */
  lemma RoutedExactly(raw: RulesRequest, goos: string, available: bool, mode: Mode, t0: Tables, t: Tables,
      targets: seq<ProcessTarget>, world0: World, routed0: map<int, Group>, w: World, routed: map<int, Group>,
      origins: map<int, Place>, entry: Entry, rule: Option<Rule>, f: Family)
    requires Sent(raw, goos, available, mode, t0, t, targets, world0, routed0, w, routed, origins, entry) && Open(t0)
    requires Decides(Normalized(raw, goos).rules, FitsProcess(entry.process), rule)
    ensures AllAsAsked(mode, t0, t, w.place[entry.pid], rule, available, raw.proxyUdpDns, f) <==>
            rule.Some? || Free(world0, routed0, entry.pid) || w.place[entry.pid].group.action == Direct
  {
    PlacedWhere(world0, routed0, w, routed, origins, targets, entry);
    GroupDecided(raw, goos, available, entry.process, rule);
    InstalledTables(mode, raw.proxyPort, raw.proxyUdpDns, t0, t);
    PlaceExactly(t, t0, mode, raw.proxyPort, raw.proxyUdpDns, f, w.place[entry.pid], FirstGroup(targets, entry.process),
                 Free(world0, routed0, entry.pid), rule, available);
  }

  lemma PlaceExactly(t: Tables, t0: Tables, mode: Mode, port: int, dns: bool, f: Family, place: Place,
      g: Option<Group>, free: bool, rule: Option<Rule>, available: bool)
    requires Installs(t, t0, mode, port, dns) && Clean(t0) && WellFormed(t0) && Open(t0)
    requires g == if rule.Some? then Some(GroupOfRule(available)(rule.value)) else None
    requires (g.Some? ==> place == Managed(g.value)) && (g == None ==> (place.Outside? <==> free))
    ensures AllAsAsked(mode, t0, t, place, rule, available, dns, f) <==>
            rule.Some? || free || place.group.action == Direct
  {
    if rule.Some? || free {
      forall p | SentFrom(mode, place, p) ensures Outgoing(t, f, p) ==
        Treated(t0, f, Asked(rule, available, p.transport), dns, p) {
        AskedByGroup(rule, available, p.transport);
        OutgoingTreated(t, t0, mode, port, dns, f, g, p);
      }
    } else {
      StrayExactly(t, t0, mode, port, dns, f, place.group, available);
    }
  }

  lemma StrayExactly(t: Tables, t0: Tables, mode: Mode, port: int, dns: bool, f: Family, g: Group, available: bool)
    requires Installs(t, t0, mode, port, dns) && Clean(t0) && WellFormed(t0) && Open(t0)
    ensures AllAsAsked(mode, t0, t, Managed(g), None, available, dns, f) <==> g.action == Direct
  {
    GroupTells(t, t0, mode, port, dns, f, g);
    assert SentFrom(mode, Managed(g), Telling(mode, g));
    assert Asked(None, available, Telling(mode, g).transport) == LeaveAlone;
    if g.action == Direct {
      forall p | SentFrom(mode, Managed(g), p) ensures Outgoing(t, f, p) ==
        Treated(t0, f, Asked(None, available, p.transport), dns, p) {
        DirectLeavesAlone(t, t0, mode, port, dns, f, g, p);
      }
    }
  }

  const HOME := Outside("user.slice")

  /** One process, outside the groups. */
  const ALONE := World(map[2 := HOME], map[], map[2 := HOME], {}, {2})

  /** The first scan routes it. */
  method RouteAlone(g: Group, parent: Process) returns (router: Router)
    ensures fresh(router) && router.Valid() && router.script == [] &&
            router.targets == [ProcessTarget("process_name", parent.name, g)]
    ensures router.world == ALONE.(place := map[2 := Managed(g)]) && 3 !in router.routed
  {
    router := new Router(ALONE, []);
    router.targets := [ProcessTarget("process_name", parent.name, g)];
    var first := [Entry(2, parent)];
    router.Scan(first);
    assert Placed(ALONE, map[], router.world, router.routed, router.targets, first[0]);
    assert Recorded(router.world, router.routed, router.origins, None);
    assert router.world.place == map[2 := Managed(g)];
  }

  /**
   A run: a process is routed, it forks another that no target names, and
   the next scan leaves that one in the group.
  */
  method ChildStaysRouted(g: Group, parent: Process, child: Process) returns (router: Router)
    requires parent.name != child.name
    ensures router.Valid() && FirstGroup(router.targets, child) == None
    ensures 3 in router.world.place && router.world.place[3].Managed?
    ensures 3 in router.world.ideal && router.world.ideal[3] == HOME
  {
    router := RouteAlone(g, parent);
    assert router.targets[1..] == [];
    router.Occur(Fork(3, 2), None);
    ghost var world0, routed0 := router.world, router.routed;
    var second := [Entry(2, parent), Entry(3, child)];
    router.Scan(second);
    assert Placed(world0, routed0, router.world, router.routed, router.targets, second[1]);
  }
}
