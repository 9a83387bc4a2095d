/**
 Undoing the Linux firewall (processrouter/process_linux.go, `rebuildFirewallLocked`, `runLinuxPlan`).
 Whatever part of an installation reached the tables, the cleanup plan takes it out again and
 leaves every other rule, chain, policy and route as it was.
 */
module LinuxRollback {
  import opened Wrappers
  import opened LinuxTables
  import opened LinuxPlan

  /** The tables hold nothing under the router's names. */
  ghost predicate Clean(t: Tables) {
    && (forall c :: Own(c) ==>
       c !in t.chains && forall d :: d in t.chains && d.family == c.family && d.table == c.table ==>
       NoJump(t.chains[d], c.name))
    && (forall f :: Policy(f) !in t.policies && Route(f) !in t.routes)
  }

  predicate NoJump(rules: seq<IpRule>, to: ChainName) {
    forall i :: 0 <= i < |rules| ==> rules[i].target != Jump(to)
  }

  /** The rules of a foreign chain: as before, or with the jump to one of the chains entered from it. */
  ghost predicate Kept(rules: seq<IpRule>, before: seq<IpRule>, c: Chain, entered: set<Chain>) {
    rules == before || exists own :: own in entered && ParentOf(own) == c && rules == before + [JumpRule(own.name)]
  }

  /** t is t0 plus some of the router's own things: no chain that is gone, jumps only to chains entered. */
  ghost predicate Residue(t: Tables, t0: Tables, gone: set<Chain>, entered: set<Chain>) {
    && (forall c :: c in entered ==> Own(c))
    && (forall c :: !Own(c) ==> (c in t.chains <==> c in t0.chains))
    && (forall c :: !Own(c) && c in t.chains ==> Kept(t.chains[c], t0.chains[c], c, entered))
    && (forall c :: Own(c) && c in t.chains ==> c !in gone && NoJumps(t.chains[c]))
    && RoutingResidue(t, t0)
  }

  ghost predicate RoutingResidue(t: Tables, t0: Tables) {
    && t0.policies <= t.policies <= t0.policies + {Policy(V4), Policy(V6)}
    && t0.routes <= t.routes <= t0.routes + {Route(V4), Route(V6)}
  }

  /** The state after running a plan up to its first error. */
  function Partial(plan: seq<Command>, t: Tables): Tables
    decreases |plan|
  {
    if plan == [] then t
    else
      var next := Run(plan[0], t);
      if next == None then t else Partial(plan[1..], next.value)
  }

  // Every installation step leaves a residue.

  /** The router's chain a command enters. */
  function Entered(command: Command): set<Chain> {
    if command.Append? && command.rule.target.Jump? then
      {Chain(command.chain.family, command.chain.table, command.rule.target.to)} else {}
  }

  function AllEntered(plan: seq<Command>): set<Chain> {
    if plan == [] then {} else Entered(plan[0]) + AllEntered(plan[1..])
  }

  predicate TameCommand(command: Command) {
    match command
    case NewChain(c) => Own(c)
    case Append(c, rule) =>
      if rule.target.Jump? then
        var own := Chain(c.family, c.table, rule.target.to);
        Own(own) && c == ParentOf(own) && rule == JumpRule(own.name)
      else Own(c)
    case AddPolicy(p) => p == Policy(p.family)
    case ReplaceRoute(r) => r == Route(r.family)
    case _ => false
  }

  /** Touches only what belongs to the router, and enters each of its chains at most once. */
  predicate Tame(plan: seq<Command>) {
    plan == [] || (TameCommand(plan[0]) && Entered(plan[0]) !! AllEntered(plan[1..]) && Tame(plan[1..]))
  }

  lemma {:induction false} TameAppend(a: seq<Command>, b: seq<Command>)
    requires Tame(a) && Tame(b) && AllEntered(a) !! AllEntered(b)
    ensures Tame(a + b) && AllEntered(a + b) == AllEntered(a) + AllEntered(b)
  {
    if a == [] {
      assert a + b == b;
    } else {
      assert (a + b)[0] == a[0] && (a + b)[1..] == a[1..] + b;
      TameAppend(a[1..], b);
    }
  }

  lemma {:induction false} TamePrefix(plan: seq<Command>, k: nat)
    requires Tame(plan) && k <= |plan|
    ensures Tame(plan[..k]) && AllEntered(plan[..k]) <= AllEntered(plan)
  {
    if k > 0 {
      var last := k - 1;
      TamePrefix(plan[1..], last);
      assert plan[..k][1..] == plan[1..][..last] && plan[..k][0] == plan[0];
    }
  }

  lemma {:induction false} RulesTame(plan: seq<Command>, chains: set<Chain>)
    requires RulesInto(plan, chains) && forall c :: c in chains ==> Own(c)
    ensures Tame(plan) && AllEntered(plan) == {}
  {
    if plan != [] {
      RulesTame(plan[1..], chains);
    }
  }

  lemma TameStep(command: Command, t: Tables, t0: Tables, entered: set<Chain>)
    requires TameCommand(command) && Residue(t, t0, {}, entered) && Run(command, t).Some? && Entered(command) !! entered
    ensures Residue(Run(command, t).value, t0, {}, entered + Entered(command))
  {
    var after := Run(command, t).value;
    match command
    case NewChain(own) =>
      assert entered + Entered(command) == entered;
    case Append(d, rule) =>
      if rule.target.Jump? {
        EnterStep(Chain(d.family, d.table, rule.target.to), t, t0, entered);
      } else {
        assert entered + Entered(command) == entered;
      }
    case AddPolicy(p) =>
      assert p == Policy(V4) || p == Policy(V6) by { assert p.family == V4 || p.family == V6; }
      assert entered + Entered(command) == entered;
    case ReplaceRoute(r) =>
      assert r == Route(V4) || r == Route(V6) by { assert r.family == V4 || r.family == V6; }
      assert entered + Entered(command) == entered;
  }

  /** A chain that has not been entered is entered from the end of its parent. */
  lemma EnterStep(own: Chain, t: Tables, t0: Tables, entered: set<Chain>)
    requires Own(own) && own !in entered && Residue(t, t0, {}, entered) && Run(Enter(own), t).Some?
    ensures Residue(Run(Enter(own), t).value, t0, {}, entered + {own})
  {
    var after := Run(Enter(own), t).value;
    var parent := ParentOf(own);
    forall other | other in entered && ParentOf(other) == parent ensures false {
      OneEntry(own, other);
    }
    forall c | !Own(c) && c in after.chains ensures Kept(after.chains[c], t0.chains[c], c, entered + {own}) {
      if c != parent { KeptMore(t.chains[c], t0.chains[c], c, entered, own); }
    }
  }

  lemma KeptMore(rules: seq<IpRule>, before: seq<IpRule>, c: Chain, entered: set<Chain>, own: Chain)
    requires Kept(rules, before, c, entered)
    ensures Kept(rules, before, c, entered + {own})
  {
  }

  /** Each built-in chain of a table enters at most one of the router's chains. */
  lemma OneEntry(a: Chain, b: Chain)
    requires Own(a) && Own(b) && ParentOf(a) == ParentOf(b)
    ensures a == b
  {
  }

  lemma {:induction false} PartialLeavesResidue(plan: seq<Command>, t: Tables, t0: Tables, entered: set<Chain>)
    requires Tame(plan) && Residue(t, t0, {}, entered) && AllEntered(plan) !! entered
    ensures exists e :: Residue(Partial(plan, t), t0, {}, e)
    decreases |plan|
  {
    if plan == [] || Run(plan[0], t).None? {
      assert Residue(Partial(plan, t), t0, {}, entered);
    } else {
      TameStep(plan[0], t, t0, entered);
      var next := Run(plan[0], t).value;
      PartialLeavesResidue(plan[1..], next, t0, entered + Entered(plan[0]));
      var e :| Residue(Partial(plan[1..], next), t0, {}, e);
      assert Residue(Partial(plan, t), t0, {}, e);
    }
  }

  // The cleanup takes a residue out.

  lemma WithoutLast(rules: seq<IpRule>, rule: IpRule)
    requires rule !in rules
    ensures Without(rules + [rule], rule) == rules
    decreases |rules|
  {
    if rules != [] {
      assert (rules + [rule])[1..] == rules[1..] + [rule];
      WithoutLast(rules[1..], rule);
    }
  }

  function Try(command: Command, t: Tables): Tables {
    if Run(command, t).Some? then Run(command, t).value else t
  }

  /** The jump goes. */
  lemma UnlinkStep(own: Chain, t: Tables, t0: Tables, gone: set<Chain>, entered: set<Chain>)
    requires Own(own) && Clean(t0) && Residue(t, t0, gone, entered)
    ensures Residue(Try(DeleteJump(ParentOf(own), own.name), t), t0, gone, entered - {own})
  {
    var after := Try(DeleteJump(ParentOf(own), own.name), t);
    var parent := ParentOf(own);
    forall c | !Own(c) && c in after.chains ensures Kept(after.chains[c], t0.chains[c], c, entered - {own}) {
      if c == parent {
        assert JumpRule(own.name) !in t0.chains[c] by { assert JumpRule(own.name).target == Jump(own.name); }
        WithoutLast(t0.chains[c], JumpRule(own.name));
      } else {
        assert after.chains[c] == t.chains[c];
      }
    }
  }

  /** A chain no jump leads to. */
  lemma Unreferenced(own: Chain, t: Tables, t0: Tables, gone: set<Chain>, entered: set<Chain>)
    requires Own(own) && Clean(t0) && Residue(t, t0, gone, entered) && own !in entered
    ensures !Referenced(t, own)
  {
    forall d, i | d in t.chains && d.family == own.family && d.table == own.table && 0 <= i < |t.chains[d]|
      ensures t.chains[d][i].target != Jump(own.name)
    {
      if !Own(d) {
        assert Kept(t.chains[d], t0.chains[d], d, entered);
        assert NoJump(t0.chains[d], own.name);
      }
    }
  }

  lemma RemoveStep(own: Chain, t: Tables, t0: Tables, gone: set<Chain>, entered: set<Chain>)
    requires Own(own) && Clean(t0) && Residue(t, t0, gone, entered) && own !in entered
    ensures Residue(Try(DestroyChain(own), Try(FlushChain(own), t)), t0, gone + {own}, entered)
  {
    var flushed := Try(FlushChain(own), t);
    Unreferenced(own, flushed, t0, gone, entered);
  }

  lemma CleanChainStep(own: Chain, t: Tables, t0: Tables, gone: set<Chain>, entered: set<Chain>)
    requires Own(own) && Clean(t0) && Residue(t, t0, gone, entered)
    ensures Residue(RunIgnoring(CleanChain(own), t), t0, gone + {own}, entered - {own})
  {
    UnlinkStep(own, t, t0, gone, entered);
    var unlinked := Try(DeleteJump(ParentOf(own), own.name), t);
    RemoveStep(own, unlinked, t0, gone, entered - {own});
    Three(CleanChain(own), t);
  }

  lemma Three(plan: seq<Command>, t: Tables)
    requires |plan| == 3
    ensures RunIgnoring(plan, t) == Try(plan[2], Try(plan[1], Try(plan[0], t)))
  {
    var t1 := Try(plan[0], t);
    var t2 := Try(plan[1], t1);
    assert RunIgnoring(plan, t) == RunIgnoring(plan[1..], t1);
    assert RunIgnoring(plan[1..], t1) == RunIgnoring(plan[1..][1..], t2);
    assert RunIgnoring(plan[1..][1..], t2) == RunIgnoring(plan[1..][1..][1..], Try(plan[2], t2));
  }

  function ToSet(chains: seq<Chain>): set<Chain> {
    set c | c in chains
  }

  lemma {:induction false} CleanChainsStep(chains: seq<Chain>, t: Tables, t0: Tables, gone: set<Chain>,
      entered: set<Chain>)
    requires (forall c :: c in chains ==> Own(c)) && Clean(t0) && Residue(t, t0, gone, entered)
    ensures Residue(RunIgnoring(Flat(chains, CleanChain), t), t0, gone + ToSet(chains), entered - ToSet(chains))
  {
    if chains == [] {
      assert gone + ToSet(chains) == gone && entered - ToSet(chains) == entered;
    } else {
      var last := |chains| - 1;
      var first := chains[..last];
      CleanChainsStep(first, t, t0, gone, entered);
      var between := RunIgnoring(Flat(first, CleanChain), t);
      CleanChainStep(chains[last], between, t0, gone + ToSet(first), entered - ToSet(first));
      RunIgnoringAppend(Flat(first, CleanChain), CleanChain(chains[last]), t);
      SetSnoc(chains, gone, entered);
    }
  }

  lemma SetSnoc(chains: seq<Chain>, gone: set<Chain>, entered: set<Chain>)
    requires chains != []
    ensures var last := |chains| - 1;
            && gone + ToSet(chains[..last]) + {chains[last]} == gone + ToSet(chains)
            && entered - ToSet(chains[..last]) - {chains[last]} == entered - ToSet(chains)
  {
    var last := |chains| - 1;
    assert chains == chains[..last] + [chains[last]];
  }

  lemma AllOwn(c: Chain)
    requires Own(c)
    ensures c in ToSet(OwnChains(V4)) + ToSet(OwnChains(V6))
  {
    assert c.family == V4 || c.family == V6;
    var chains := OwnChains(c.family);
    assert c == chains[0] || c == chains[1] || c == chains[2] || c == chains[3] || c == chains[4];
  }

  lemma CleanupSplits(t: Tables)
    ensures RunIgnoring(Cleanup(), t) ==
            RunIgnoring(CleanRouting(),
              RunIgnoring(Flat(OwnChains(V6), CleanChain), RunIgnoring(Flat(OwnChains(V4), CleanChain), t)))
  {
    var a, b := CleanFamily(V4), CleanFamily(V6);
    assert Flat(FAMILIES, CleanFamily) == a + b by {
      assert FAMILIES[..1] == [V4] && [V4][..0] == [];
      assert Flat([V4], CleanFamily) == [] + a;
    }
    RunIgnoringAppend(a + b, CleanRouting(), t);
    RunIgnoringAppend(a, b, t);
  }

  /** With no chain and no jump left, only the routing remains. */
  lemma NothingLeft(t: Tables, t0: Tables, gone: set<Chain>, entered: set<Chain>)
    requires Clean(t0) && Residue(t, t0, gone, entered) && entered == {} && forall c :: Own(c) ==> c in gone
    ensures t.chains == t0.chains
  {
    forall c | c in t.chains ensures c in t0.chains && t.chains[c] == t0.chains[c] {
    }
    assert t.chains.Keys == t0.chains.Keys by {
      forall c ensures c in t.chains <==> c in t0.chains {
      }
    }
  }

  lemma RoutingRemoved(t: Tables, t0: Tables)
    requires Clean(t0) && RoutingResidue(t, t0)
    ensures RunIgnoring(CleanRouting(), t) == t.(policies := t0.policies, routes := t0.routes)
  {
    var plan := CleanRouting();
    var t1 := Try(plan[0], t);
    var t2 := Try(plan[1], t1);
    var t3 := Try(plan[2], t2);
    assert RunIgnoring(plan, t) == RunIgnoring(plan[1..], t1);
    Three(plan[1..], t1);
    PoliciesRemoved(t, t0);
    RoutesRemoved(t2, t0);
  }

  lemma PoliciesRemoved(t: Tables, t0: Tables)
    requires Clean(t0) && RoutingResidue(t, t0)
    ensures Try(DeletePolicy(Policy(V6)), Try(DeletePolicy(Policy(V4)), t)) == t.(policies := t0.policies)
  {
    assert t.policies - {Policy(V4)} - {Policy(V6)} == t0.policies;
    assert Policy(V4) !in t.policies ==> t.policies - {Policy(V4)} == t.policies;
    assert Policy(V6) !in t.policies ==> t.policies - {Policy(V4)} - {Policy(V6)} == t.policies - {Policy(V4)};
  }

  lemma RoutesRemoved(t: Tables, t0: Tables)
    requires Clean(t0) && t0.routes <= t.routes <= t0.routes + {Route(V4), Route(V6)}
    ensures Try(DeleteRoute(Route(V6)), Try(DeleteRoute(Route(V4)), t)) == t.(routes := t0.routes)
  {
    assert t.routes - {Route(V4)} - {Route(V6)} == t0.routes;
    assert Route(V4) !in t.routes ==> t.routes - {Route(V4)} == t.routes;
    assert Route(V6) !in t.routes ==> t.routes - {Route(V4)} - {Route(V6)} == t.routes - {Route(V4)};
  }

  /** The cleanup takes every residue out. */
  lemma CleanupRestores(t: Tables, t0: Tables, entered: set<Chain>)
    requires Clean(t0) && Residue(t, t0, {}, entered)
    ensures RunIgnoring(Cleanup(), t) == t0
  {
    var v4, v6 := OwnChains(V4), OwnChains(V6);
    var t1 := RunIgnoring(Flat(v4, CleanChain), t);
    CleanChainsStep(v4, t, t0, {}, entered);
    SecondSweep(v4, v6, t1, t0, entered);
    CleanupSplits(t);
  }

  /** What the chains of one family have left is swept with those of the other, then the routing goes. */
  lemma SecondSweep(v4: seq<Chain>, v6: seq<Chain>, t: Tables, t0: Tables, entered: set<Chain>)
    requires v4 == OwnChains(V4) && v6 == OwnChains(V6) && Clean(t0)
    requires Residue(t, t0, {} + ToSet(v4), entered - ToSet(v4))
    ensures RunIgnoring(CleanRouting(), RunIgnoring(Flat(v6, CleanChain), t)) == t0
  {
    CleanChainsStep(v6, t, t0, {} + ToSet(v4), entered - ToSet(v4));
    var after := RunIgnoring(Flat(v6, CleanChain), t);
    AllSwept(after, t0, entered);
    RoutingRemoved(after, t0);
  }

  lemma AllSwept(t: Tables, t0: Tables, entered: set<Chain>)
    requires Clean(t0)
    requires Residue(t, t0, {} + ToSet(OwnChains(V4)) + ToSet(OwnChains(V6)),
             entered - ToSet(OwnChains(V4)) - ToSet(OwnChains(V6)))
    ensures t.chains == t0.chains
  {
    var gone, left := {} + ToSet(OwnChains(V4)) + ToSet(OwnChains(V6)),
      entered - ToSet(OwnChains(V4)) - ToSet(OwnChains(V6));
    forall c | Own(c) ensures c in gone {
      AllOwn(c);
    }
    assert left == {};
    NothingLeft(t, t0, gone, left);
  }

  // The installation.

  lemma TameOne(command: Command)
    requires TameCommand(command)
    ensures Tame([command]) && AllEntered([command]) == Entered(command)
  {
    assert [command][1..] == [];
  }

  lemma TameMore(plan: seq<Command>, command: Command)
    requires Tame(plan) && TameCommand(command) && Entered(command) !! AllEntered(plan)
    ensures Tame(plan + [command]) && AllEntered(plan + [command]) == AllEntered(plan) + Entered(command)
  {
    TameOne(command);
    TameAppend(plan, [command]);
  }

  lemma {:induction false} NewTame(chains: seq<Chain>, plan: seq<Command>)
    requires |plan| == |chains| && forall i :: 0 <= i < |plan| ==> plan[i] == NewChain(chains[i]) && Own(chains[i])
    ensures Tame(plan) && AllEntered(plan) == {}
  {
    if plan != [] {
      NewTame(chains[1..], plan[1..]);
    }
  }

  lemma {:induction false} EnterTame(chains: seq<Chain>, plan: seq<Command>)
    requires |plan| == |chains| && forall i :: 0 <= i < |plan| ==> plan[i] == Enter(chains[i]) && Own(chains[i])
    requires forall i, j :: 0 <= i < j < |chains| ==> chains[i] != chains[j]
    ensures Tame(plan) && AllEntered(plan) == ToSet(chains)
  {
    if plan != [] {
      EnterTame(chains[1..], plan[1..]);
      assert Entered(plan[0]) == {chains[0]};
      assert chains == [chains[0]] + chains[1..];
    }
  }

  function Always(f: Family): seq<Chain> {
    [Chain(f, Mangle, KokoroOut), Chain(f, Mangle, KokoroPre), Chain(f, Filter, KokoroBlock),
      Chain(f, Filter, KokoroGuard)]
  }

  /** Everything before the chain for DNS. */
  function Opening(f: Family, port: int): seq<Command> {
    NewChains(f) + EnterChains(f) + Flat(TRANSPORTS, Guard(f, port))
  }

  lemma TameWithRules(plan: seq<Command>, rules: seq<Command>, chains: set<Chain>)
    requires Tame(plan) && RulesInto(rules, chains) && forall c :: c in chains ==> Own(c)
    ensures Tame(plan + rules) && AllEntered(plan + rules) == AllEntered(plan)
  {
    RulesTame(rules, chains);
    TameAppend(plan, rules);
  }

  lemma CreateAndEnterTame(chains: seq<Chain>, a: seq<Command>, b: seq<Command>)
    requires |a| == |b| == |chains|
    requires forall i :: 0 <= i < |chains| ==> a[i] == NewChain(chains[i]) && b[i] == Enter(chains[i]) && Own(chains[i])
    requires forall i, j :: 0 <= i < j < |chains| ==> chains[i] != chains[j]
    ensures Tame(a + b) && AllEntered(a + b) == ToSet(chains)
  {
    NewTame(chains, a);
    EnterTame(chains, b);
    TameAppend(a, b);
  }

  lemma ChainsTame(f: Family)
    ensures Tame(NewChains(f) + EnterChains(f)) && AllEntered(NewChains(f) + EnterChains(f)) == ToSet(Always(f))
  {
    CreateAndEnterTame(Always(f), NewChains(f), EnterChains(f));
  }

  lemma ChainsOwn(f: Family, dns: bool)
    ensures forall c :: c in FamilyChains(f, dns) ==> Own(c)
  {
  }

  lemma OpeningTame(f: Family, port: int)
    ensures Tame(Opening(f, port)) && AllEntered(Opening(f, port)) == ToSet(Always(f))
  {
    ChainsTame(f);
    PortInto(f, port, false, TRANSPORTS);
    ChainsOwn(f, false);
    TameWithRules(NewChains(f) + EnterChains(f), Flat(TRANSPORTS, Guard(f, port)), FamilyChains(f, false));
  }

  lemma DnsTame(plan: seq<Command>, f: Family)
    requires Tame(plan) && Chain(f, Nat, KokoroDns) !in AllEntered(plan)
    ensures Tame(plan + EnterDns(f)) && AllEntered(plan + EnterDns(f)) == AllEntered(plan) + {Chain(f, Nat, KokoroDns)}
  {
    var c := Chain(f, Nat, KokoroDns);
    TameMore(plan, NewChain(c));
    TameMore(plan + [NewChain(c)], Enter(c));
    assert plan + EnterDns(f) == plan + [NewChain(c)] + [Enter(c)];
  }

  lemma AlwaysChains(f: Family)
    ensures ToSet(Always(f)) == FamilyChains(f, false)
    ensures ToSet(Always(f)) + {Chain(f, Nat, KokoroDns)} == FamilyChains(f, true)
  {
  }

  lemma StartTame(f: Family, port: int, dns: bool)
    ensures Tame(FamilyStart(f, port, dns)) && AllEntered(FamilyStart(f, port, dns)) == FamilyChains(f, dns)
  {
    OpeningTame(f, port);
    AlwaysChains(f);
    if dns {
      DnsTame(Opening(f, port), f);
    } else {
      assert Opening(f, port) + [] == Opening(f, port);
    }
  }

  lemma FamilyTame(f: Family, mode: Mode, port: int, dns: bool)
    ensures Tame(FamilyPlan(mode, port, dns)(f)) && AllEntered(FamilyPlan(mode, port, dns)(f)) == FamilyChains(f, dns)
  {
    StartTame(f, port, dns);
    FamilyRulesInto(f, mode, port, dns);
    ChainsOwn(f, dns);
    TameWithRules(FamilyStart(f, port, dns), FamilyRules(f, mode, port, dns), FamilyChains(f, dns));
  }

  lemma RoutingTame()
    ensures Tame(Routing()) && AllEntered(Routing()) == {}
  {
    var plan := Routing();
    assert plan[1..] == [plan[1], plan[2], plan[3]];
  }

  lemma FamiliesApart(dns: bool)
    ensures FamilyChains(V4, dns) !! FamilyChains(V6, dns)
  {
    assert forall c :: c in FamilyChains(V4, dns) ==> c.family == V4;
    assert forall c :: c in FamilyChains(V6, dns) ==> c.family == V6;
  }

  lemma InstallationTame(mode: Mode, port: int, dns: bool)
    ensures Tame(Installation(mode, port, dns))
  {
    var part := FamilyPlan(mode, port, dns);
    FamilyTame(V4, mode, port, dns);
    FamilyTame(V6, mode, port, dns);
    FamiliesApart(dns);
    TameAppend(part(V4), part(V6));
    RoutingTame();
    TameAppend(part(V4) + part(V6), Routing());
    InstallationSplits(mode, port, dns);
  }

  ghost predicate Leftover(t: Tables, t0: Tables) {
    exists entered :: Residue(t, t0, {}, entered)
  }

  lemma NothingIsLeftover(t0: Tables)
    requires Clean(t0)
    ensures Leftover(t0, t0)
  {
    assert Residue(t0, t0, {}, {});
  }

  lemma TameRollback(plan: seq<Command>, k: nat, t0: Tables)
    requires Tame(plan) && Clean(t0) && k <= |plan|
    ensures Leftover(Partial(plan[..k], t0), t0)
    ensures RunIgnoring(Cleanup(), Partial(plan[..k], t0)) == t0
  {
    TamePrefix(plan, k);
    assert Residue(t0, t0, {}, {});
    PartialLeavesResidue(plan[..k], t0, t0, {});
    LeftoverRestored(Partial(plan[..k], t0), t0);
  }

  /** Any part of an installation, then the cleanup: the tables are back. */
  lemma Rollback(mode: Mode, port: int, dns: bool, k: nat, t0: Tables)
    requires Clean(t0) && k <= |Installation(mode, port, dns)|
    ensures RunIgnoring(Cleanup(), Partial(Installation(mode, port, dns)[..k], t0)) == t0
  {
    InstallationTame(mode, port, dns);
    TameRollback(Installation(mode, port, dns), k, t0);
  }

  lemma LeftoverRestored(t: Tables, t0: Tables)
    requires Clean(t0) && Leftover(t, t0)
    ensures RunIgnoring(Cleanup(), t) == t0
  {
    var entered :| Residue(t, t0, {}, entered);
    CleanupRestores(t, t0, entered);
  }

  lemma {:induction false} StrictIsPartial(plan: seq<Command>, t: Tables)
    requires RunStrict(plan, t).Some?
    ensures Partial(plan, t) == RunStrict(plan, t).value
    decreases |plan|
  {
    if plan != [] {
      StrictIsPartial(plan[1..], Run(plan[0], t).value);
    }
  }

  /** The firewall half of the Linux router: the operating system's tables and what is installed in them. */
  class Firewall {
    var tables: Tables
    var ready: bool
    var port: int
    var dns: bool
    /** What the tables are without the router. */
    ghost var base: Tables

    ghost predicate Valid()
      reads this`tables, this`base
    {
      Clean(base) && Leftover(tables, base)
    }

    /** Starts on tables where an earlier run may have left any part of an installation. */
    constructor (tables: Tables, ghost base: Tables)
      requires Clean(base) && Leftover(tables, base)
      ensures Valid() && this.tables == tables && this.base == base && !ready
    {
      this.tables := tables;
      this.base := base;
      ready := false;
      port := 0;
      dns := false;
    }

    /** `runLinuxPlan`; the command at position limit fails whatever the tables are. */
    method RunPlan(plan: seq<Command>, ignoreErrors: bool, limit: nat) returns (ok: bool)
      requires ignoreErrors ==> limit >= |plan|
      modifies this`tables
      ensures ignoreErrors ==> ok && tables == RunIgnoring(plan, old(tables))
      ensures !ignoreErrors ==> tables == Partial(Cut(plan, limit), old(tables))
      ensures !ignoreErrors ==> ok == (limit >= |plan| && RunStrict(plan, old(tables)).Some?)
    {
      var i := 0;
      ok := true;
      while i < |plan| && ok
        invariant i <= |plan| && i <= limit
        invariant ignoreErrors ==> ok && RunIgnoring(plan[i..], tables) == RunIgnoring(plan, old(tables))
        invariant !ignoreErrors && ok ==>
                  Partial(Cut(plan[i..], limit - i), tables) == Partial(Cut(plan, limit), old(tables)) &&
                  RunStrict(plan[i..], tables) == RunStrict(plan, old(tables))
        invariant !ok ==> !ignoreErrors && tables == Partial(Cut(plan, limit), old(tables))
        invariant !ok ==> limit < |plan| || RunStrict(plan, old(tables)) == None
        decreases |plan| - i, ok
      {
        NextCommand(plan, i, limit, tables);
        var next := if i == limit then None else Run(plan[i], tables);
        if next.Some? {
          tables := next.value;
          i := i + 1;
        } else if ignoreErrors {
          i := i + 1;
        } else {
          ok := false;
        }
      }
    }

    /** `rebuildFirewallLocked`: a failed installation leaves the tables as they are without the router. */
    method Rebuild(mode: Mode, newPort: int, newDns: bool, limit: nat) returns (ok: bool)
      requires Valid()
      modifies this`tables, this`ready, this`port, this`dns
      ensures Valid()
      ensures ok == (limit >= |Installation(mode, newPort, newDns)| &&
              RunStrict(Installation(mode, newPort, newDns), base).Some?)
      ensures ready == ok
      ensures ok ==>
              Some(tables) == RunStrict(Installation(mode, newPort, newDns), base) && port == newPort && dns == newDns
      ensures !ok ==> tables == base && port == old(port) && dns == old(dns)
    {
      var plan := PlanFor(mode, newPort, newDns);
      ok := Replace(plan, newPort, newDns, limit);
    }

    /** Takes out what is there and runs a plan; when it fails, takes that out too. */
    method Replace(plan: seq<Command>, newPort: int, newDns: bool, limit: nat) returns (ok: bool)
      requires Valid() && Tame(plan)
      modifies this`tables, this`ready, this`port, this`dns
      ensures Valid()
      ensures ready == ok == (limit >= |plan| && RunStrict(plan, base).Some?)
      ensures ok ==> Some(tables) == RunStrict(plan, base) && port == newPort && dns == newDns
      ensures !ok ==> tables == base && port == old(port) && dns == old(dns)
    {
      Undo();
      CutRolledBack(plan, limit, base);
      ok := RunPlan(plan, false, limit);
      if ok {
        StrictIsPartial(plan, base);
        port := newPort;
        dns := newDns;
      } else {
        Undo();
      }
      ready := ok;
    }

    /** The cleanup plan, errors ignored. */
    method Undo()
      requires Valid()
      modifies this`tables
      ensures Valid() && tables == base
    {
      LeftoverRestored(tables, base);
      NothingIsLeftover(base);
      var cleanup := BuildCleanup();
      var ignored := RunPlan(cleanup, true, |cleanup|);
    }

    /** The firewall part of `Stop`. */
    method Remove()
      requires Valid()
      modifies this`tables, this`ready
      ensures Valid() && tables == base && !ready
    {
      Undo();
      ready := false;
    }
  }

  method PlanFor(mode: Mode, port: int, dns: bool) returns (plan: seq<Command>)
    ensures plan == Installation(mode, port, dns) && Tame(plan)
  {
    var cleanup := BuildCleanup();
    var setup := BuildSetup(mode, port, dns);
    plan := setup[|cleanup|..];
    InstallationTame(mode, port, dns);
  }

  /** The commands that run before the one that fails. */
  function Cut(plan: seq<Command>, limit: nat): seq<Command> {
    if limit < |plan| then plan[..limit] else plan
  }

  lemma NextCommand(plan: seq<Command>, i: nat, limit: nat, t: Tables)
    requires i < |plan| && i <= limit
    ensures i == limit ==> Partial(Cut(plan[i..], limit - i), t) == t
    ensures i < limit && Run(plan[i], t).None? ==>
            Partial(Cut(plan[i..], limit - i), t) == t && RunStrict(plan[i..], t) == None
    ensures i < limit && Run(plan[i], t).Some? ==>
              var next := Run(plan[i], t).value;
              Partial(Cut(plan[i..], limit - i), t) == Partial(Cut(plan[i + 1..], limit - i - 1), next) &&
                RunStrict(plan[i..], t) == RunStrict(plan[i + 1..], next)
    ensures RunIgnoring(plan[i..], t) == RunIgnoring(plan[i + 1..], Try(plan[i], t))
  {
    var rest := plan[i..];
    assert rest[0] == plan[i] && rest[1..] == plan[i + 1..];
    if i < limit {
      var cut := Cut(rest, limit - i);
      assert cut[0] == plan[i];
      assert cut[1..] == Cut(plan[i + 1..], limit - i - 1);
    }
  }

  lemma CutRolledBack(plan: seq<Command>, limit: nat, t0: Tables)
    requires Tame(plan) && Clean(t0)
    ensures Leftover(Partial(Cut(plan, limit), t0), t0)
  {
    var k := if limit < |plan| then limit else |plan|;
    assert Cut(plan, limit) == plan[..k];
    TameRollback(plan, k, t0);
  }
}
