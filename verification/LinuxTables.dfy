/** A small interpreter for the iptables and ip commands of the Linux router, and packet evaluation. */
module LinuxTables {
  import opened Wrappers

  datatype Family = V4 | V6
  datatype Table = Mangle | Nat | Filter
  /** Built-in chains, the router's own five, and any other chain. */
  datatype ChainName =
    | Output | Prerouting | Input
    | KokoroOut | KokoroPre | KokoroDns | KokoroBlock | KokoroGuard
    | Other(string)
  datatype Chain = Chain(family: Family, table: Table, name: ChainName)

  datatype Transport = Tcp | Udp
  datatype Action = Proxy | Direct | Block
  datatype Protocol = OnlyTcp | OnlyUdp | Both
  /** One of the nine cgroups: action and protocol. */
  datatype Group = Group(action: Action, protocol: Protocol)
  /** How a rule names a cgroup: by path under version 2, by class identifier under version 1. */
  datatype Selector = Path(group: Group) | ClassId(id: nat)
  datatype Net = Loopback | LinkLocal | Multicast

  datatype Target = Return | Accept | SetMark(mark: nat) | Drop | Tproxy(port: int,
      mark: nat) | Redirect(port: int) | Jump(to: ChainName)
  datatype IpRule = IpRule(cgroup: Option<Selector>, mark: Option<nat>, remote: bool, transport: Option<Transport>,
      net: Option<Net>, dport: Option<int>, target: Target)

  datatype PolicyRule = PolicyRule(family: Family, priority: nat, mark: nat, lookup: nat)
  /** The local default route over the loopback device, per family and routing table. */
  datatype LocalRoute = LocalRoute(family: Family, routingTable: nat)

  datatype Tables = Tables(chains: map<Chain, seq<IpRule>>, policies: set<PolicyRule>, routes: set<LocalRoute>)

  datatype Command =
    | NewChain(chain: Chain)
    | Append(chain: Chain, rule: IpRule)
    | DeleteJump(chain: Chain, to: ChainName)
    | FlushChain(chain: Chain)
    | DestroyChain(chain: Chain)
    | AddPolicy(policy: PolicyRule)
    | DeletePolicy(policy: PolicyRule)
    | ReplaceRoute(route: LocalRoute)
    | DeleteRoute(route: LocalRoute)

  function JumpRule(to: ChainName): IpRule {
    IpRule(None, None, false, None, None, None, Jump(to))
  }

  /** The first occurrence is removed. */
  function Without(rules: seq<IpRule>, rule: IpRule): seq<IpRule> {
    if rules == [] then []
    else if rules[0] == rule then rules[1..]
    else [rules[0]] + Without(rules[1..], rule)
  }

  predicate Referenced(t: Tables, c: Chain) {
    exists d, i :: d in t.chains && d.family == c.family && d.table == c.table && 0 <= i < |t.chains[d]| &&
      t.chains[d][i].target == Jump(c.name)
  }

  /** One command; None when it fails, and then nothing changes. */
  function Run(command: Command, t: Tables): Option<Tables> {
    match command
    case NewChain(c) => if c in t.chains then None else Some(t.(chains := t.chains[c := []]))
    case Append(c, rule) =>
      if c !in t.chains || (rule.target.Jump? && Chain(c.family, c.table, rule.target.to) !in t.chains) then None
      else Some(t.(chains := t.chains[c := t.chains[c] + [rule]]))
    case DeleteJump(c, to) =>
      if c !in t.chains || JumpRule(to) !in t.chains[c] then None
      else Some(t.(chains := t.chains[c := Without(t.chains[c], JumpRule(to))]))
    case FlushChain(c) => if c !in t.chains then None else Some(t.(chains := t.chains[c := []]))
    case DestroyChain(c) =>
      if c !in t.chains || t.chains[c] != [] || Referenced(t, c) then None else Some(t.(chains := t.chains - {c}))
    case AddPolicy(p) => if p in t.policies then None else Some(t.(policies := t.policies + {p}))
    case DeletePolicy(p) => if p !in t.policies then None else Some(t.(policies := t.policies - {p}))
    case ReplaceRoute(r) => Some(t.(routes := t.routes + {r}))
    case DeleteRoute(r) => if r !in t.routes then None else Some(t.(routes := t.routes - {r}))
  }

  /** `runLinuxPlan` with errors ignored. */
  function RunIgnoring(plan: seq<Command>, t: Tables): Tables
    decreases |plan|
  {
    if plan == [] then t
    else
      var next := Run(plan[0], t);
      RunIgnoring(plan[1..], if next.Some? then next.value else t)
  }

  /** `runLinuxPlan` up to the first error; None when there is one. */
  function RunStrict(plan: seq<Command>, t: Tables): Option<Tables>
    decreases |plan|
  {
    if plan == [] then Some(t)
    else
      var next := Run(plan[0], t);
      if next == None then None else RunStrict(plan[1..], next.value)
  }

  // Packets.

  datatype Packet = Packet(cgroup: Option<Selector>, transport: Transport, nets: set<Net>, dport: int, mark: nat,
      remote: bool)

  predicate Fits(rule: IpRule, p: Packet) {
    && (rule.cgroup == None || rule.cgroup == p.cgroup)
    && (rule.mark == None || rule.mark == Some(p.mark))
    && (rule.remote ==> p.remote)
    && (rule.transport == None || rule.transport == Some(p.transport))
    && (rule.net == None || rule.net.value in p.nets)
    && (rule.dport == None || rule.dport == Some(p.dport))
  }

  /** The end of the rules is reached, the chain is left, or the packet's way is decided. */
  datatype Outcome = Continue(mark: nat) | Returned(mark: nat) | Accepted(mark: nat) | Dropped | Intercepted(port: int)

  /** Walks rules without jumps; a return counts as their end. */
  function Walk(rules: seq<IpRule>, p: Packet): Outcome {
    if rules == [] then Continue(p.mark)
    else if !Fits(rules[0], p) then Walk(rules[1..], p)
    else
      match rules[0].target
      case Return => Continue(p.mark)
      case Accept => Accepted(p.mark)
      case SetMark(mark) => Walk(rules[1..], p.(mark := mark))
      case Drop => Dropped
      case Tproxy(port, _) => Intercepted(port)
      case Redirect(port) => Intercepted(port)
      case Jump(_) => Walk(rules[1..], p)
  }

  /** A chain that is left goes on behind the jump. */
  function Resume(outcome: Outcome): Outcome {
    if outcome.Returned? then Continue(outcome.mark) else outcome
  }

  /**
   Walks rules and the chains they jump to. A chain on the way is not entered again: the kernel
   refuses tables with such a loop.
   */
  function Follow(t: Tables, f: Family, table: Table, rules: seq<IpRule>, p: Packet, enterable: set<ChainName>): Outcome
    decreases enterable, |rules|
  {
    if rules == [] then Continue(p.mark)
    else if !Fits(rules[0], p) then Follow(t, f, table, rules[1..], p, enterable)
    else
      match rules[0].target
      case Return => Returned(p.mark)
      case Accept => Accepted(p.mark)
      case SetMark(mark) => Follow(t, f, table, rules[1..], p.(mark := mark), enterable)
      case Drop => Dropped
      case Tproxy(port, _) => Intercepted(port)
      case Redirect(port) => Intercepted(port)
      case Jump(to) =>
        if to !in enterable then Follow(t, f, table, rules[1..], p, enterable)
        else
          var inner := Resume(Follow(t, f, table, RulesIn(t, Chain(f, table, to)), p, enterable - {to}));
          if inner.Continue? then Follow(t, f, table, rules[1..], p.(mark := inner.mark), enterable) else inner
  }

  function RulesIn(t: Tables, c: Chain): seq<IpRule> {
    if c in t.chains then t.chains[c] else []
  }

  function NamesIn(t: Tables, f: Family, table: Table): set<ChainName> {
    set c | c in t.chains && c.family == f && c.table == table :: c.name
  }

  /** What a built-in chain does with a packet. */
  function Pass(t: Tables, c: Chain, p: Packet): Outcome {
    Follow(t, c.family, c.table, RulesIn(t, c), p, NamesIn(t, c.family, c.table) - {c.name})
  }

  lemma {:induction false} FollowAppend(t: Tables, f: Family, table: Table, a: seq<IpRule>, b: seq<IpRule>, p: Packet,
      enterable: set<ChainName>)
    ensures var first := Follow(t, f, table, a, p, enterable);
            Follow(t, f, table, a + b, p, enterable) ==
            if first.Continue? then Follow(t, f, table, b, p.(mark := first.mark), enterable) else first
    decreases |a|
  {
    if a == [] {
      assert a + b == b && p.(mark := p.mark) == p;
    } else {
      assert (a + b)[0] == a[0] && (a + b)[1..] == a[1..] + b;
      if !Fits(a[0], p) {
        FollowAppend(t, f, table, a[1..], b, p, enterable);
      } else if a[0].target.SetMark? {
        FollowAppend(t, f, table, a[1..], b, p.(mark := a[0].target.mark), enterable);
      } else if a[0].target.Jump? {
        var to := a[0].target.to;
        if to !in enterable {
          FollowAppend(t, f, table, a[1..], b, p, enterable);
        } else {
          var inner := Resume(Follow(t, f, table, RulesIn(t, Chain(f, table, to)), p, enterable - {to}));
          if inner.Continue? { FollowAppend(t, f, table, a[1..], b, p.(mark := inner.mark), enterable); }
        }
      }
    }
  }

  predicate NoJumps(rules: seq<IpRule>) {
    forall i :: 0 <= i < |rules| ==> !rules[i].target.Jump?
  }

  /** Without jumps nothing is followed. */
  lemma {:induction false} FollowFlat(t: Tables, f: Family, table: Table, rules: seq<IpRule>, p: Packet,
      enterable: set<ChainName>)
    requires NoJumps(rules)
    ensures Resume(Follow(t, f, table, rules, p, enterable)) == Walk(rules, p)
    decreases |rules|
  {
    if rules != [] {
      FollowFlat(t, f, table, rules[1..], p, enterable);
      if rules[0].target.SetMark? { FollowFlat(t, f, table, rules[1..], p.(mark := rules[0].target.mark), enterable); }
    }
  }

  /** One jump to a chain without jumps. */
  lemma FollowJump(t: Tables, f: Family, table: Table, to: ChainName, p: Packet, enterable: set<ChainName>)
    requires to in enterable && NoJumps(RulesIn(t, Chain(f, table, to)))
    ensures Follow(t, f, table, [JumpRule(to)], p, enterable) == Walk(RulesIn(t, Chain(f, table, to)), p)
  {
    FollowFlat(t, f, table, RulesIn(t, Chain(f, table, to)), p, enterable - {to});
    assert [JumpRule(to)][1..] == [];
  }

  /** Rules that do not match are passed over. */
  lemma {:induction false} WalkPast(a: seq<IpRule>, b: seq<IpRule>, p: Packet)
    requires forall i :: 0 <= i < |a| ==> !Fits(a[i], p)
    ensures Walk(a + b, p) == Walk(b, p)
  {
    if a == [] {
      assert a + b == b;
    } else {
      assert (a + b)[0] == a[0] && (a + b)[1..] == a[1..] + b;
      WalkPast(a[1..], b, p);
    }
  }

  // Plans of appends.

  /** The rules a plan appends to one chain. */
  function RulesFor(plan: seq<Command>, c: Chain): seq<IpRule> {
    if plan == [] then []
    else (if plan[0].Append? && plan[0].chain == c then [plan[0].rule] else []) + RulesFor(plan[1..], c)
  }

  lemma {:induction false} RulesForAppend(a: seq<Command>, b: seq<Command>, c: Chain)
    ensures RulesFor(a + b, c) == RulesFor(a, c) + RulesFor(b, c)
  {
    if a == [] {
      assert a + b == b;
    } else {
      assert (a + b)[1..] == a[1..] + b;
      RulesForAppend(a[1..], b, c);
    }
  }

  /** Only appends to some chains, none of them a jump. */
  predicate RulesInto(plan: seq<Command>, chains: set<Chain>) {
    forall i :: 0 <= i < |plan| ==> plan[i].Append? && plan[i].chain in chains && !plan[i].rule.target.Jump?
  }

  function Created(command: Command): set<Chain> {
    if command.NewChain? then {command.chain} else {}
  }

  function AllCreated(plan: seq<Command>): set<Chain> {
    if plan == [] then {} else Created(plan[0]) + AllCreated(plan[1..])
  }

  predicate BuildableCommand(command: Command, keys: set<Chain>) {
    match command
    case NewChain(c) => c !in keys
    case Append(c, rule) => c in keys && (rule.target.Jump? ==> Chain(c.family, c.table, rule.target.to) in keys)
    case _ => false
  }

  /** Every chain is created once and before it is used. */
  predicate Buildable(plan: seq<Command>, keys: set<Chain>) {
    plan == [] || (BuildableCommand(plan[0], keys) && Buildable(plan[1..], keys + Created(plan[0])))
  }

  lemma {:induction false} BuildableAppend(a: seq<Command>, b: seq<Command>, keys: set<Chain>)
    requires Buildable(a, keys) && Buildable(b, keys + AllCreated(a))
    ensures Buildable(a + b, keys) && AllCreated(a + b) == AllCreated(a) + AllCreated(b)
    decreases |a|
  {
    if a == [] {
      assert a + b == b && keys + AllCreated(a) == keys;
    } else {
      assert (a + b)[0] == a[0] && (a + b)[1..] == a[1..] + b;
      assert keys + AllCreated(a) == keys + Created(a[0]) + AllCreated(a[1..]);
      BuildableAppend(a[1..], b, keys + Created(a[0]));
    }
  }

  lemma {:induction false} RulesBuildable(plan: seq<Command>, chains: set<Chain>, keys: set<Chain>)
    requires RulesInto(plan, chains) && chains <= keys
    ensures Buildable(plan, keys) && AllCreated(plan) == {}
  {
    if plan != [] {
      assert keys + Created(plan[0]) == keys;
      RulesBuildable(plan[1..], chains, keys);
    }
  }

  lemma BuildStep(command: Command, t: Tables)
    requires BuildableCommand(command, t.chains.Keys)
    ensures Run(command, t).Some?
    ensures var next := Run(command, t).value;
            && next.policies == t.policies && next.routes == t.routes &&
               next.chains.Keys == t.chains.Keys + Created(command)
            && forall c :: RulesIn(next, c) == RulesIn(t, c) + if command.Append? && command.chain == c then
               [command.rule] else []
  {
    var next := Run(command, t).value;
    assert next.chains.Keys == t.chains.Keys + Created(command);
  }

  lemma RulesForStep(plan: seq<Command>, c: Chain, before: seq<IpRule>)
    requires plan != []
    ensures before + (if plan[0].Append? && plan[0].chain == c then [plan[0].rule] else []) + RulesFor(plan[1..], c) ==
            before + RulesFor(plan, c)
  {
  }

  /** A buildable plan runs through, and extends each chain by its own rules. */
  lemma {:induction false} RunBuilds(plan: seq<Command>, t: Tables)
    requires Buildable(plan, t.chains.Keys)
    ensures RunStrict(plan, t).Some?
    ensures var after := RunStrict(plan, t).value;
            && after.policies == t.policies && after.routes == t.routes &&
               after.chains.Keys == t.chains.Keys + AllCreated(plan)
            && forall c :: RulesIn(after, c) == RulesIn(t, c) + RulesFor(plan, c)
    decreases |plan|
  {
    if plan != [] {
      BuildStep(plan[0], t);
      var next := Run(plan[0], t).value;
      RunBuilds(plan[1..], next);
      forall c ensures RulesIn(RunStrict(plan, t).value, c) == RulesIn(t, c) + RulesFor(plan, c) {
        RulesForStep(plan, c, RulesIn(t, c));
      }
    }
  }

  lemma {:induction false} RunStrictAppend(a: seq<Command>, b: seq<Command>, t: Tables)
    ensures RunStrict(a + b, t) == if RunStrict(a, t) == None then None else RunStrict(b, RunStrict(a, t).value)
    decreases |a|
  {
    if a == [] {
      assert a + b == b;
    } else {
      assert (a + b)[1..] == a[1..] + b;
      if Run(a[0], t).Some? { RunStrictAppend(a[1..], b, Run(a[0], t).value); }
    }
  }

  lemma {:induction false} RunIgnoringAppend(a: seq<Command>, b: seq<Command>, t: Tables)
    ensures RunIgnoring(a + b, t) == RunIgnoring(b, RunIgnoring(a, t))
    decreases |a|
  {
    if a == [] {
      assert a + b == b;
    } else {
      assert (a + b)[1..] == a[1..] + b;
      RunIgnoringAppend(a[1..], b, if Run(a[0], t).Some? then Run(a[0], t).value else t);
    }
  }
}
