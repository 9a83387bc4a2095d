/**
 The atomic rule replacement of processrouter/native/kokorobox_process_router.c. Every engine
 call may fail; a snapshot of the engine is logged after every change, with the policy last
 committed (`base`) and the patterns the guard must cover (`list`).
 */
module GuardedReplacement {
  import opened Wrappers
  import opened Rules
  import opened RouterJson
  import opened EngineRules

  const MAX_MANAGED_RULES := 258
  const NETWORK_TARGETS := "127.*.*.*;169.254.*.*;224.0.0.0-239.255.255.255;*.*.*.255;::1;fe80::/10;ff00::/8"
  const PROCESS_NAMES :=
    "KokoroBox.exe;mihomo.exe;mihomo-alpha.exe;kokorobox-service.exe;sparkle-service.exe;" +
    "kokorobox-process-router.exe;crashpad_handler.exe;elevate.exe;kokorobox-desktop-windows-*-setup.exe"

  function Exclusion(k: nat): Spec
    requires k < 2
  {
    if k == 0 then Spec("*", NETWORK_TARGETS, "*", BOTH, DIRECT, 0, true)
      else Spec(PROCESS_NAMES, "*", "*", BOTH, DIRECT, 0, true)
  }

  function UserSpec(rule: ParsedRule, proxyId: nat): Spec {
    Spec(rule.processPattern, "*", "*", rule.protocol, rule.action, if rule.action == PROXY then proxyId
      else 0, rule.enabled)
  }

  /** The committed policy: the two exclusions, then the user's rules in order. */
  function Target(rules: seq<ParsedRule>, proxyId: nat): seq<Spec> {
    [Exclusion(0), Exclusion(1)] + seq(|rules|, i requires 0 <= i < |rules| => UserSpec(rules[i], proxyId))
  }

  /** The engine at one moment, the policy last committed, the guarded patterns and the rules being installed. */
  datatype Snapshot = Snapshot(engine: Engine, base: seq<EngineRule>, list: string, coming: seq<ParsedRule>)

  ghost predicate GuardOnTop(e: Engine, list: string) {
    e.rules != [] && e.rules[0].spec == GuardSpec(list)
  }

  /** An exclusion, a disabled rule, or an enabled one whose patterns the guard covers. */
  ghost predicate Ordinary(spec: Spec, list: string) {
    spec == Exclusion(0) || spec == Exclusion(1) || !spec.enabled || PatternsIn(spec.processes, list)
  }

  ghost predicate Tidy(rules: seq<EngineRule>, list: string) {
    forall i :: 0 <= i < |rules| ==> Ordinary(rules[i].spec, list)
  }

  /** A rule that is to be disabled, before it is. */
  ghost predicate Pending(spec: Spec, coming: seq<ParsedRule>) {
    exists r :: r in coming && !r.enabled && spec.processes == r.processPattern && spec.action == r.action &&
      spec.protocol == r.protocol
  }

  /** Nothing but ordinary rules, the guard, and at the end perhaps one that is still to be disabled. */
  ghost predicate Contents(s: Snapshot) {
    forall i :: 0 <= i < |s.engine.rules| ==>
      var spec := s.engine.rules[i].spec;
      spec == GuardSpec(s.list) || Ordinary(spec, s.list) || (i == |s.engine.rules| - 1 && Pending(spec, s.coming))
  }

  /**
   What a running engine may hold at any moment: the committed policy, that policy with the
   guard still last, or anything under the guard at position 1.
   */
  ghost predicate Interim(s: Snapshot) {
    !s.engine.running || (Contents(s) && Placed(s))
  }

  ghost predicate Placed(s: Snapshot) {
    || s.engine.rules == s.base
    || (|s.engine.rules| == |s.base| + 1 && s.engine.rules[..|s.base|] == s.base &&
       s.engine.rules[|s.base|].spec == GuardSpec(s.list))
    || GuardOnTop(s.engine, s.list)
  }

  /** A process covered by the guard's list is never treated otherwise than by the committed policy or the block. */
  lemma InterimVerdict(m: Matcher, s: Snapshot, p: Packet)
    requires m.Ok() && Interim(s) && s.engine.running && Covers(m, s.list, p.process)
    ensures Verdict(m, s.engine.rules, p) in {Verdict(m, s.base, p), Some(BLOCK)}
  {
    var rules := s.engine.rules;
    if GuardOnTop(s.engine, s.list) {
      GuardBlocks(m, rules, s.list, p);
    } else if rules != s.base {
      var g := rules[|s.base|];
      assert rules == s.base + [g];
      VerdictThen(m, s.base, g, p);
      GuardBlocks(m, [g], s.list, p);
    }
  }

  /**
   A process outside the guard's list is at every moment left alone, excluded, or treated by a rule that is
   just being installed disabled and names it.
   */
  lemma UnguardedVerdict(m: Matcher, s: Snapshot, p: Packet)
    requires Interim(s) && s.engine.running && !Covers(m, s.list, p.process)
    ensures var v := Verdict(m, s.engine.rules, p);
            || v == None
            || (v == Some(DIRECT) && (Applies(m, Exclusion(0), p) || Applies(m, Exclusion(1), p)))
            || exists r :: r in s.coming && !r.enabled && v == Some(r.action) && Covers(m, r.processPattern, p.process)
  {
    if Verdict(m, s.engine.rules, p).Some? {
      var i := VerdictFrom(m, s.engine.rules, p);
      var spec := s.engine.rules[i].spec;
      if PatternsIn(spec.processes, s.list) { PatternsInCovers(m, spec.processes, s.list, p.process); }
    }
  }

  ghost predicate DistinctIds(rules: seq<EngineRule>) {
    forall i, j :: 0 <= i < j < |rules| ==> rules[i].id != rules[j].id
  }

  class Helper {
    const works: nat -> bool
    var calls: nat
    var engine: Engine
    var nextId: nat
    var ruleIds: seq<nat>
    var proxyId: nat
    var guardId: nat
    var active: string
    ghost var base: seq<EngineRule>
    ghost var list: string
    /** The rules of the replacement under way. */
    ghost var coming: seq<ParsedRule>
    ghost var trace: seq<Snapshot>
    ghost var mark: nat

    ghost predicate Inv()
      reads this
    {
      && nextId > 0 && DistinctIds(engine.rules)
      && (forall i :: 0 <= i < |engine.rules| ==> 0 < engine.rules[i].id < nextId)
      && (forall k :: 0 <= k < |trace| ==> Interim(trace[k]))
      && mark <= |trace| && (forall k :: mark <= k < |trace| ==> trace[k].list == list)
    }

    /** No engine call fails. */
    ghost predicate Working() {
      forall k: nat :: works(k)
    }

    /** Between two commands: no guard, and exactly the committed rules, in order. */
    ghost predicate Settled()
      reads this
    {
      Inv() && guardId == 0 && base == engine.rules && ruleIds == Ids(engine.rules) && |ruleIds| <= MAX_MANAGED_RULES
      && Tidy(engine.rules, active) && PatternsIn(active, list)
    }

    constructor (works: nat -> bool)
      ensures Settled() && !engine.running && active == "" && trace == []
    {
      this.works := works;
      calls, engine, nextId, ruleIds := 0, Engine([], false), 1, [];
      proxyId, guardId, active := 0, 0, "";
      base, list, coming, trace, mark := [], "", [], [], 0;
    }

    /** One engine call; when it works the engine becomes `next`. */
    method Call(next: Engine) returns (ok: bool)
      requires Inv() && DistinctIds(next.rules) && Interim(Snapshot(next, base, list, coming))
      requires forall i :: 0 <= i < |next.rules| ==> 0 < next.rules[i].id < nextId
      modifies this`calls, this`engine, this`trace
      ensures Inv() && ok == works(old(calls)) && calls == old(calls) + 1 &&
              engine == (if ok then next else old(engine))
      ensures trace == old(trace) + if ok then [Snapshot(next, base, list, coming)] else []
    {
      ok := works(calls);
      calls := calls + 1;
      if ok {
        engine := next;
        trace := trace + [Snapshot(next, base, list, coming)];
      }
    }

    /** `ProxyBridge_AddRule`: a new enabled rule at the end; zero when it fails. */
    method AddRule(spec: Spec) returns (id: nat)
      requires Inv() &&
               Interim(Snapshot(Engine(engine.rules + [EngineRule(nextId, spec)], engine.running), base, list, coming))
      modifies this`calls, this`engine, this`trace, this`nextId
      ensures Inv()
      ensures id == 0 ==> engine == old(engine)
      ensures id > 0 ==>
              engine == Engine(old(engine).rules + [EngineRule(id, spec)], old(engine).running) &&
              !Has(old(engine).rules, id)
      ensures Working() ==> id > 0
    {
      id := nextId;
      nextId := nextId + 1;
      var ok := Call(Engine(engine.rules + [EngineRule(id, spec)], engine.running));
      if !ok { id := 0; }
    }

    method DeleteRule(id: nat) returns (ok: bool)
      requires Inv() && Interim(Snapshot(Engine(Delete(engine.rules, id), engine.running), base, list, coming))
      modifies this`calls, this`engine, this`trace
      ensures Inv() &&
              engine == (if ok then Engine(Delete(old(engine).rules, id), old(engine).running) else old(engine))
      ensures Grown(old(trace), trace, engine.running)
      ensures Working() ==> ok
    {
      DeleteKeepsIds(engine.rules, id, nextId);
      ok := Call(Engine(Delete(engine.rules, id), engine.running));
    }

    method MoveRuleToFront(id: nat) returns (ok: bool)
      requires Inv() && Has(engine.rules, id) &&
               Interim(Snapshot(Engine(MoveToFront(engine.rules, id), engine.running), base, list, coming))
      modifies this`calls, this`engine, this`trace
      ensures Inv() &&
              engine == (if ok then Engine(MoveToFront(old(engine).rules, id), old(engine).running) else old(engine))
      ensures Working() ==> ok
    {
      MoveKeepsIds(engine.rules, id, nextId);
      ok := Call(Engine(MoveToFront(engine.rules, id), engine.running));
    }

    method ChangeRule(id: nat, spec: Spec) returns (ok: bool)
      requires Inv() && Interim(Snapshot(Engine(Change(engine.rules, id, spec), engine.running), base, list, coming))
      modifies this`calls, this`engine, this`trace
      ensures Inv() &&
              engine == (if ok then Engine(Change(old(engine).rules, id, spec), old(engine).running) else old(engine))
      ensures Working() ==> ok
    {
      ChangeKeepsIds(engine.rules, id, spec);
      ok := Call(Engine(Change(engine.rules, id, spec), engine.running));
    }

    /** The guard is installed, at position 1, over `list`. */
    ghost predicate UnderGuard()
      reads this
    {
      Inv() && guardId > 0 && GuardOnTop(engine, list) && engine.rules[0].id == guardId
    }

    /** Under the guard, with ordinary rules only. */
    ghost predicate Calm()
      reads this
    {
      UnderGuard() && Tidy(engine.rules[1..], list)
    }

    method InstallGuard(processes: string) returns (ok: bool)
      requires guardId == 0 ==> Inv() && base == engine.rules && Tidy(base, processes)
      requires guardId > 0 ==> UnderGuard() && Tidy(engine.rules[1..], processes)
      modifies this`calls, this`engine, this`trace, this`nextId, this`guardId, this`list, this`mark
      ensures Inv() && list == processes && mark == |old(trace)| && engine.running == old(engine.running)
      ensures ok ==> Calm() && engine.rules[1..] == (if old(guardId) > 0 then old(engine).rules[1..]
              else old(engine).rules)
      ensures !ok ==> guardId == old(guardId) && (old(guardId) == 0 ==> Interim(Snapshot(engine, base, list, coming)))
      ensures Working() ==> ok
    {
      list, mark := processes, |trace|;
      if guardId > 0 {
        ok := UpdateGuard(processes);
        return;
      }
      ok := NewGuard(processes);
    }

    /** A guard that is already there is changed in place. */
    method UpdateGuard(processes: string) returns (ok: bool)
      requires Inv() && guardId > 0 && engine.rules != [] && engine.rules[0].id == guardId &&
               list == processes && mark == |trace|
      requires Tidy(engine.rules[1..], processes)
      modifies this`calls, this`engine, this`trace
      ensures Inv() && list == processes && mark == |old(trace)| && engine.running == old(engine.running)
      ensures ok ==> Calm() && engine.rules[1..] == old(engine).rules[1..]
      ensures Working() ==> ok
    {
      ghost var after := Change(engine.rules, guardId, GuardSpec(processes));
      assert after[1..] == engine.rules[1..];
      TidyUnderGuard(Engine(after, engine.running), base, list, coming);
      ok := ChangeRule(guardId, GuardSpec(processes));
      if !ok { return; }
      assert engine.rules[0].id == guardId && MoveToFront(engine.rules, guardId) == engine.rules;
      ok := MoveRuleToFront(guardId);
    }

    method NewGuard(processes: string) returns (ok: bool)
      requires Inv() && guardId == 0 && base == engine.rules && list == processes && Tidy(base, list)
      modifies this`calls, this`engine, this`trace, this`nextId, this`guardId
      ensures Inv() && engine.running == old(engine.running)
      ensures ok ==> Calm() && engine.rules[1..] == old(engine).rules
      ensures !ok ==> guardId == 0 && Interim(Snapshot(engine, base, list, coming))
      ensures Working() ==> ok
    {
      var next := AddRule(GuardSpec(processes));
      if next == 0 { return false; }
      ok := Raise(next);
      if ok { guardId := next; }
    }

    /** Moves the new guard to the front, or takes it back. */
    method Raise(id: nat) returns (ok: bool)
      requires Inv() && id > 0 && !Has(base, id) && engine.rules == base + [EngineRule(id, GuardSpec(list))] &&
               Tidy(base, list)
      modifies this`calls, this`engine, this`trace
      ensures Inv() && engine.running == old(engine.running)
      ensures ok ==> engine.rules == [EngineRule(id, GuardSpec(list))] + base
      ensures !ok ==> Interim(Snapshot(engine, base, list, coming))
      ensures Working() ==> ok
    {
      DeleteLast(base, EngineRule(id, GuardSpec(list)));
      TidyUnderGuard(Engine([EngineRule(id, GuardSpec(list))] + base, engine.running), base, list, coming);
      ok := MoveRuleToFront(id);
      if !ok {
        var _ := DeleteRule(id);
      }
    }

    /** `clear_rules`: deletes every managed rule, keeping at the front of the array those it could not. */
    method ClearRules() returns (ok: bool)
      requires Inv() && (Calm() || !engine.running) && (guardId == 0 || guardId !in ruleIds)
      modifies this`calls, this`engine, this`trace, this`ruleIds
      ensures Inv() && engine.running == old(engine.running) && (old(Calm()) ==> Calm())
      ensures Grown(old(trace), trace, engine.running)
      ensures guardId == 0 || guardId !in ruleIds
      ensures forall x :: Has(engine.rules, x) ==> Has(old(engine).rules, x)
      ensures ok == (ruleIds == []) && forall x :: x in ruleIds ==> x in old(ruleIds)
      ensures forall x :: x in old(ruleIds) && Has(engine.rules, x) ==> x in ruleIds
      ensures Working() ==> ok
    {
      ghost var ids := ruleIds;
      var remaining, index := 0, 0;
      while index < |ruleIds|
        invariant Clearing(ids, remaining, index)
        invariant Inv() && (Calm() || !engine.running) && (old(Calm()) ==> Calm()) &&
                  engine.running == old(engine.running)
        invariant Grown(old(trace), trace, engine.running) && (Working() ==> remaining == 0)
        invariant forall x :: Has(engine.rules, x) ==> Has(old(engine).rules, x)
      {
        remaining := ClearNext(remaining, index, ids);
        index := index + 1;
      }
      ruleIds := ruleIds[..remaining];
      forall x | x in ids && Has(engine.rules, x) ensures x in ruleIds {
        var k :| 0 <= k < |ids| && ids[k] == x;
      }
      return remaining == 0;
    }

    /** The identifiers before index whose rules are still there have moved to the front. */
    ghost predicate Clearing(ids: seq<nat>, remaining: int, index: int)
      reads this`ruleIds, this`engine, this`guardId
    {
      && 0 <= remaining <= index <= |ruleIds| == |ids| && ruleIds[index..] == ids[index..]
      && (guardId == 0 || (guardId !in ids && guardId !in ruleIds))
      && (forall k :: 0 <= k < index && Has(engine.rules, ids[k]) ==> ids[k] in ruleIds[..remaining])
      && (forall x :: x in ruleIds[..remaining] ==> x in ids)
    }

    method ClearNext(remaining: int, index: int, ghost ids: seq<nat>) returns (kept: int)
      requires Inv() && (Calm() || !engine.running) && Clearing(ids, remaining, index) && index < |ruleIds|
      modifies this`calls, this`engine, this`trace, this`ruleIds
      ensures Inv() && (old(Calm()) ==> Calm()) && engine.running == old(engine.running) &&
              Grown(old(trace), trace, engine.running)
      ensures forall x :: Has(engine.rules, x) ==> Has(old(engine).rules, x)
      ensures |ruleIds| == old(|ruleIds|) && Clearing(ids, kept, index + 1)
      ensures Working() ==> kept == remaining
    {
      kept := remaining;
      assert ruleIds[index] == ids[index];
      var deleted := DeleteOne(ruleIds[index]);
      if !deleted {
        KeepId(ruleIds, remaining, index, ids);
        ruleIds := ruleIds[remaining := ruleIds[index]];
        kept := remaining + 1;
      }
    }

    /** Deletes one managed rule, under the guard or with the engine stopped. */
    method DeleteOne(id: nat) returns (ok: bool)
      requires Inv() && (Calm() || !engine.running) && (guardId == 0 || id != guardId)
      modifies this`calls, this`engine, this`trace
      ensures Inv() && (old(Calm()) ==> Calm()) && engine.running == old(engine.running) &&
              Grown(old(trace), trace, engine.running)
      ensures forall x :: Has(engine.rules, x) ==> Has(old(engine).rules, x) && (ok ==> x != id)
      ensures Working() ==> ok
    {
      ghost var rules := engine.rules;
      forall x ensures Has(Delete(rules, id), x) <==> Has(rules, x) && x != id { DeleteIds(rules, id, x); }
      if Calm() {
        TidyDelete(rules[1..], id, list);
        assert Delete(rules, id)[0] == rules[0] && Delete(rules, id)[1..] == Delete(rules[1..], id);
        TidyUnderGuard(Engine(Delete(rules, id), engine.running), base, list, coming);
      }
      ok := DeleteRule(id);
    }

    /** Under the guard, exactly the managed rules, in order. */
    ghost predicate Building(specs: seq<Spec>)
      reads this
    {
      && Calm() && ruleIds == Ids(engine.rules[1..]) && Specs(engine.rules[1..]) == specs
      && guardId !in ruleIds
    }

    /**
     `add_managed_rule`: a rule that must not be enabled is disabled before it counts. When that fails it is
     taken back, and stays only if that fails too.
     */
    method AddManagedRule(spec: Spec, ghost specs: seq<Spec>) returns (ok: bool)
      requires Building(specs) && Installable(spec, list, coming)
      modifies this`calls, this`engine, this`trace, this`nextId, this`ruleIds
      ensures UnderGuard() && engine.running == old(engine.running) && guardId !in ruleIds &&
              Interim(Snapshot(engine, base, list, coming))
      ensures ok ==> Building(specs + [spec]) && |ruleIds| <= MAX_MANAGED_RULES
      ensures !ok ==> ruleIds == old(ruleIds)
      ensures !ok ==> engine.rules == old(engine).rules || LeftBehind(old(engine).rules, engine.rules, spec)
      ensures Working() && |specs| < MAX_MANAGED_RULES ==> ok
    {
      TidyUnderGuard(engine, base, list, coming);
      if |ruleIds| >= MAX_MANAGED_RULES { return false; }
      ghost var before := engine.rules;
      AddedUnderGuard(engine, EngineRule(nextId, spec.(enabled := true)), base, list, coming);
      var id := AddRule(spec.(enabled := true));
      if id == 0 { return false; }
      assert id != guardId by { assert before[0].id == guardId; }
      if !spec.enabled {
        ok := DisableNew(id, spec, before);
        if !ok { return; }
      }
      BuildingNext(before, EngineRule(id, spec), ruleIds, specs);
      TidyNext(before, EngineRule(id, spec), list);
      ruleIds := ruleIds + [id];
      ok := true;
    }

    /** Disables the rule just added, or takes it back. */
    method DisableNew(id: nat, spec: Spec, ghost before: seq<EngineRule>) returns (ok: bool)
      requires UnderGuard() && before != [] && !Has(before, id) && !spec.enabled && Installable(spec, list, coming)
      requires engine.rules == before + [EngineRule(id, spec.(enabled := true))] && Tidy(before[1..], list)
      modifies this`calls, this`engine, this`trace
      ensures UnderGuard() && engine.running == old(engine.running) && Interim(Snapshot(engine, base, list, coming))
      ensures ok ==> engine.rules == before + [EngineRule(id, spec)]
      ensures !ok ==> engine.rules == before || LeftBehind(before, engine.rules, spec)
      ensures Working() ==> ok
    {
      ghost var added := EngineRule(id, spec.(enabled := true));
      var guarded := Engine(before, engine.running);
      ChangeLast(before, added, spec);
      DeleteLast(before, added);
      assert before[0] == engine.rules[0];
      AddedUnderGuard(guarded, added, base, list, coming);
      AddedUnderGuard(guarded, EngineRule(id, spec), base, list, coming);
      TidyUnderGuard(guarded, base, list, coming);
      ok := ChangeRule(id, spec);
      if !ok {
        var _ := DeleteRule(id);
      }
    }

    /** Installs the specs in order. */
    method AddAll(target: seq<Spec>) returns (ok: bool)
      requires Building([]) && |target| <= MAX_MANAGED_RULES && forall t :: t in target ==> Installable(t, list, coming)
      modifies this`calls, this`engine, this`trace, this`nextId, this`ruleIds
      ensures UnderGuard() && engine.running == old(engine.running) && guardId !in ruleIds &&
              Interim(Snapshot(engine, base, list, coming))
      ensures ok ==> Building(target) && |ruleIds| <= MAX_MANAGED_RULES
      ensures Working() ==> ok
    {
      var k := 0;
      TidyUnderGuard(engine, base, list, coming);
      while k < |target|
        invariant 0 <= k <= |target| && Building(target[..k]) && |ruleIds| <= MAX_MANAGED_RULES
        invariant engine.running == old(engine.running) && Interim(Snapshot(engine, base, list, coming))
      {
        assert target[..k + 1] == target[..k] + [target[k]];
        ok := AddManagedRule(target[k], target[..k]);
        if !ok { return; }
        k := k + 1;
      }
      assert target[..k] == target;
      ok := true;
    }

    /**
     `replace_rules` on a parsed command; `enabledProcesses` joins its enabled patterns. On
     success exactly the target is installed. On failure the guard, once at the top, is still
     there, or the committed policy was never touched.
     */
    method ReplaceRules(rules: seq<ParsedRule>, enabledProcesses: string, diagnosticsReady: bool) returns (ok: bool)
      requires Settled() && |rules| <= MAX_RULES && enabledProcesses == Joined(rules)
      modifies this
      ensures Inv()
      ensures ok ==>
              Settled() && engine.running && active == enabledProcesses && Specs(engine.rules) == Target(rules, proxyId)
      ensures !ok ==> Interim(Snapshot(engine, base, list, coming)) && guardId !in ruleIds
      ensures !ok && guardId > 0 ==> UnderGuard()
      ensures !ok && guardId == 0 ==> ruleIds == old(ruleIds)
      ensures trace == old(trace) ||
              (mark == |old(trace)| && Guarded(old(active), enabledProcesses) == Some(list) && coming == rules)
      ensures Working() ==> (ok <==> Startable(old(active), enabledProcesses, diagnosticsReady))
      ensures !Startable(old(active), enabledProcesses, diagnosticsReady) ==>
              !ok && engine == old(engine) && trace == old(trace)
    {
      IdsPositive(engine.rules);
      SettledInterim(engine, list, active, coming);
      var guarded := Guarded(active, enabledProcesses);
      if guarded == None || guarded.value == "" || !diagnosticsReady { return false; }
      GuardedParts(active, enabledProcesses);
      TidyMore(engine.rules, active, guarded.value);
      coming := rules;
      ok := ReplaceUnder(guarded.value, rules, enabledProcesses);
    }

    /** The replacement, once the guard's list is known. */
    method ReplaceUnder(guarded: string, rules: seq<ParsedRule>, enabledProcesses: string) returns (ok: bool)
      requires Settled() && 0 !in ruleIds && Tidy(engine.rules, guarded) && PatternsIn(enabledProcesses, guarded)
      requires |rules| <= MAX_RULES && enabledProcesses == Joined(rules) && coming == rules
      modifies this`calls, this`engine, this`trace, this`nextId, this`ruleIds, this`active, this`guardId, this`base,
               this`list, this`mark, this`proxyId
      ensures Inv() && list == guarded && mark == |old(trace)|
      ensures ok ==>
              Settled() && engine.running && active == enabledProcesses && Specs(engine.rules) == Target(rules, proxyId)
      ensures !ok ==>
              Interim(Snapshot(engine, base, list, coming)) && guardId !in ruleIds && (guardId > 0 ==> UnderGuard())
      ensures !ok && guardId == 0 ==> ruleIds == old(ruleIds)
      ensures Working() ==> ok
    {
      hide Interim, PatternsIn, Target, Tidy, Joined, DistinctIds, GuardOnTop;
      ok := Begin(guarded);
      if !ok { return; }
      TidyUnderGuard(engine, base, list, coming);
      if proxyId == 0 {
        proxyId := AddProxyConfig();
        if proxyId == 0 { return false; }
      }
      TargetSize(rules, proxyId);
      TargetInstallable(rules, proxyId, list);
      ok := Install(Target(rules, proxyId), enabledProcesses);
    }

    method Install(target: seq<Spec>, enabledProcesses: string) returns (ok: bool)
      requires Building([]) && |target| <= MAX_MANAGED_RULES && forall t :: t in target ==> Installable(t, list, coming)
      requires PatternsIn(enabledProcesses, list) && forall t :: t in target ==> Ordinary(t, enabledProcesses)
      modifies this`calls, this`engine, this`trace, this`nextId, this`ruleIds, this`active, this`guardId, this`base
      ensures Inv() && guardId !in ruleIds
      ensures ok ==> Settled() && engine.running && active == enabledProcesses && Specs(engine.rules) == target
      ensures !ok ==> UnderGuard() && Interim(Snapshot(engine, base, list, coming))
      ensures Working() ==> ok
    {
      ok := AddAll(target);
      if !ok { return; }
      ok := Finish(target, enabledProcesses);
    }

    /** The guard goes up, then the old rules go. */
    method Begin(processes: string) returns (ok: bool)
      requires Settled() && 0 !in ruleIds && Tidy(engine.rules, processes)
      modifies this`calls, this`engine, this`trace, this`nextId, this`guardId, this`list, this`mark, this`ruleIds
      ensures Inv() && guardId !in ruleIds && list == processes && mark == |old(trace)|
      ensures ok ==> Building([])
      ensures !ok ==> Interim(Snapshot(engine, base, list, coming)) && (guardId > 0 ==>
              UnderGuard()) && (guardId == 0 ==> ruleIds == old(ruleIds))
      ensures Working() ==> ok
    {
      ok := InstallGuard(processes);
      if !ok { return; }
      FreshGuard(engine.rules, ruleIds);
      ghost var before := engine.rules;
      ok := ClearRules();
      if ok {
        forall x | Has(engine.rules, x) ensures x == guardId { HasInIds(before, x); }
        OnlyGuard(engine.rules, guardId);
      }
    }

    /** The engine runs before the guard comes down. */
    method Finish(target: seq<Spec>, enabledProcesses: string) returns (ok: bool)
      requires Building(target) && |ruleIds| <= MAX_MANAGED_RULES
      requires PatternsIn(enabledProcesses, list) && forall t :: t in target ==> Ordinary(t, enabledProcesses)
      modifies this`calls, this`engine, this`trace, this`active, this`guardId, this`base
      ensures Inv() && guardId !in ruleIds
      ensures ok ==> Settled() && engine.running && active == enabledProcesses && Specs(engine.rules) == target
      ensures !ok ==> UnderGuard() && Interim(Snapshot(engine, base, list, coming))
      ensures Working() ==> ok
    {
      TidyUnderGuard(engine, base, list, coming);
      TidyUnderGuard(engine.(running := true), base, list, coming);
      if !engine.running {
        ok := Call(engine.(running := true));
        if !ok { return; }
      }
      TidySpecs(engine.rules[1..], target, enabledProcesses);
      ok := Commit(enabledProcesses);
      if ok { IdsPositive(engine.rules); }
    }

    method AddProxyConfig() returns (id: nat)
      modifies this`calls
      ensures Working() ==> id > 0
    {
      id := if works(calls) then 1 else 0;
      calls := calls + 1;
    }

    /** Makes the rules under the guard the committed policy, by deleting the guard. */
    method Commit(enabledProcesses: string) returns (ok: bool)
      requires Calm() && engine.running && ruleIds == Ids(engine.rules[1..]) &&
               |ruleIds| <= MAX_MANAGED_RULES && guardId !in ruleIds
      requires Tidy(engine.rules[1..], enabledProcesses) && PatternsIn(enabledProcesses, list)
      modifies this`calls, this`engine, this`trace, this`active, this`guardId, this`base
      ensures Inv() && active == enabledProcesses
      ensures ok ==> Settled() && engine == Engine(old(engine).rules[1..], true)
      ensures !ok ==> guardId == old(guardId) && UnderGuard() && Interim(Snapshot(engine, base, list, coming))
      ensures Working() ==> ok
    {
      hide PatternsIn, Ordinary, Interim, Tidy;
      active := enabledProcesses;
      base := engine.rules[1..];
      assert Delete(engine.rules, guardId) == base;
      TidyUnderGuard(engine, base, list, coming);
      SettledInterim(Engine(base, true), list, enabledProcesses, coming);
      ok := DeleteRule(guardId);
      if ok { guardId := 0; }
    }

    /** The end of `main`: the engine stops before the guard is dropped. */
    method Shutdown()
      requires Inv() && Interim(Snapshot(engine, base, list, coming)) && guardId !in ruleIds
      modifies this`calls, this`engine, this`trace, this`ruleIds
      ensures Inv() && !engine.running && Grown(old(trace), trace, false)
    {
      engine := engine.(running := false);
      trace := trace + [Snapshot(engine, base, list, coming)];
      var _ := ClearRules();
      if guardId > 0 {
        var _ := DeleteRule(guardId);
      }
    }
  }

  /** Between two commands the committed policy is as tidy as the last guard's list asks. */
  lemma SettledInterim(e: Engine, list: string, active: string, coming: seq<ParsedRule>)
    requires Tidy(e.rules, active) && PatternsIn(active, list)
    ensures Interim(Snapshot(e, e.rules, list, coming))
  {
    TidyMore(e.rules, active, list);
  }

  /** Moments were added, all with the engine running or all with it stopped. */
  ghost predicate Grown(before: seq<Snapshot>, after: seq<Snapshot>, running: bool) {
    before <= after && forall k :: |before| <= k < |after| ==> after[k].engine.running == running
  }

  /** The rule that could neither be disabled nor taken back is still there, enabled, at the end. */
  ghost predicate LeftBehind(before: seq<EngineRule>, after: seq<EngineRule>, spec: Spec) {
    !spec.enabled && |after| == |before| + 1 && after[..|before|] == before &&
      after[|before|].spec == spec.(enabled := true)
  }

  ghost predicate Installable(spec: Spec, list: string, coming: seq<ParsedRule>) {
    Ordinary(spec, list) && (!spec.enabled ==> Pending(spec, coming))
  }

  lemma TidyUnderGuard(e: Engine, base: seq<EngineRule>, list: string, coming: seq<ParsedRule>)
    requires GuardOnTop(e, list) && Tidy(e.rules[1..], list)
    ensures Interim(Snapshot(e, base, list, coming))
  {
    forall i | 0 <= i < |e.rules| ensures e.rules[i].spec == GuardSpec(list) || Ordinary(e.rules[i].spec, list) {
      if i > 0 { assert e.rules[i] == e.rules[1..][i - 1]; }
    }
  }

  lemma AddedUnderGuard(e: Engine, rule: EngineRule, base: seq<EngineRule>, list: string, coming: seq<ParsedRule>)
    requires GuardOnTop(e, list) && Tidy(e.rules[1..], list) &&
             (Ordinary(rule.spec, list) || Pending(rule.spec, coming))
    ensures Interim(Snapshot(Engine(e.rules + [rule], e.running), base, list, coming))
  {
    var rules := e.rules + [rule];
    forall i | 0 <= i < |rules|
      ensures rules[i].spec == GuardSpec(list) || Ordinary(rules[i].spec, list) ||
              (i == |rules| - 1 && Pending(rules[i].spec, coming))
    {
      if 0 < i < |e.rules| { assert rules[i] == e.rules[1..][i - 1]; }
    }
  }

  lemma TidyNext(before: seq<EngineRule>, rule: EngineRule, list: string)
    requires before != [] && Tidy(before[1..], list) && Ordinary(rule.spec, list)
    ensures Tidy((before + [rule])[1..], list)
  {
    assert (before + [rule])[1..] == before[1..] + [rule];
  }

  lemma {:induction false} TidyDelete(rules: seq<EngineRule>, id: nat, list: string)
    requires Tidy(rules, list)
    ensures Tidy(Delete(rules, id), list)
  {
    if rules != [] { TidyDelete(rules[1..], id, list); }
  }

  lemma TidyMore(rules: seq<EngineRule>, part: string, list: string)
    requires Tidy(rules, part) && PatternsIn(part, list)
    ensures Tidy(rules, list)
  {
    forall i | 0 <= i < |rules| ensures Ordinary(rules[i].spec, list) {
      if PatternsIn(rules[i].spec.processes, part) { PatternsInThen(rules[i].spec.processes, part, list); }
    }
  }

  lemma TidySpecs(rules: seq<EngineRule>, specs: seq<Spec>, list: string)
    requires Specs(rules) == specs && forall t :: t in specs ==> Ordinary(t, list)
    ensures Tidy(rules, list)
  {
    forall i | 0 <= i < |rules| ensures Ordinary(rules[i].spec, list) {
      assert specs[i] == rules[i].spec && specs[i] in specs;
    }
  }

  /** The patterns enabled before and after are all in the guard's list. */
  lemma GuardedParts(previous: string, next: string)
    requires Guarded(previous, next).Some?
    ensures PatternsIn(previous, Guarded(previous, next).value) && PatternsIn(next, Guarded(previous, next).value)
  {
    assert forall s: string :: "" + "" + s == s;
    if next != "" && previous != "" { JoinedParts(previous, next); }
  }

  /** An enabled rule's pattern is in the joined list. */
  lemma {:induction false} JoinedHas(rules: seq<ParsedRule>, i: nat)
    requires i < |rules| && rules[i].enabled
    ensures PatternsIn(rules[i].processPattern, Joined(rules))
  {
    var last := |rules| - 1;
    var before := Joined(rules[..last]);
    if rules[last].enabled { JoinedParts(before, rules[last].processPattern); }
    if i < last {
      JoinedHas(rules[..last], i);
      PatternsInThen(rules[i].processPattern, before, Joined(rules));
    }
  }

  lemma TargetInstallable(rules: seq<ParsedRule>, proxyId: nat, list: string)
    requires PatternsIn(Joined(rules), list)
    ensures forall t :: t in Target(rules, proxyId) ==> Installable(t, list, rules) && Ordinary(t, Joined(rules))
  {
    forall t | t in Target(rules, proxyId) ensures Installable(t, list, rules) && Ordinary(t, Joined(rules)) {
      if t != Exclusion(0) && t != Exclusion(1) {
        var i :| 0 <= i < |rules| && t == UserSpec(rules[i], proxyId);
        if rules[i].enabled {
          JoinedHas(rules, i);
          PatternsInThen(rules[i].processPattern, Joined(rules), list);
        } else {
          assert rules[i] in rules;
        }
      }
    }
  }

  /** The list the guard must cover: the patterns enabled before and after. */
  function Guarded(previous: string, next: string): Option<string> {
    if next == "" then (if previous == "" then Some("") else AppendPattern("", previous)) else
    if previous == "" then AppendPattern("", next)
    else
      var first := AppendPattern("", previous);
      if first == None then None else AppendPattern(first.value, next)
  }

  /** When a replacement is begun: the list fits, some pattern is or was enabled, and the log can be written. */
  predicate Startable(previous: string, next: string, diagnosticsReady: bool) {
    Guarded(previous, next).Some? && Guarded(previous, next).value != "" && diagnosticsReady
  }

  /** The guard covers every process that an enabled pattern covered before or will cover. */
  lemma GuardedCovers(m: Matcher, previous: string, next: string, process: string)
    requires Guarded(previous, next).Some?
    ensures Covers(m, Guarded(previous, next).value, process) <==>
            Covers(m, previous, process) || Covers(m, next, process)
  {
    assert forall s: string :: "" + "" + s == s;
    if next != "" && previous != "" {
      JoinedCovers(m, previous, next, process);
    }
  }

  /** Two lists within Go's limit always fit the guard's buffer. */
  lemma GuardedFits(previous: string, next: string)
    requires |previous| <= MAX_TOTAL_BYTES && |next| <= MAX_TOTAL_BYTES
    ensures Guarded(previous, next).Some?
  {
  }

  lemma TargetSize(rules: seq<ParsedRule>, proxyId: nat)
    ensures |Target(rules, proxyId)| == |rules| + 2
  {
  }

  lemma IdsPositive(rules: seq<EngineRule>)
    requires forall i :: 0 <= i < |rules| ==> rules[i].id > 0
    ensures 0 !in Ids(rules)
  {
  }

  lemma FreshGuard(rules: seq<EngineRule>, ids: seq<nat>)
    requires rules != [] && DistinctIds(rules) && ids == Ids(rules[1..])
    ensures rules[0].id !in ids
  {
    forall k | 0 <= k < |ids| ensures ids[k] != rules[0].id {
      assert ids[k] == rules[1..][k].id == rules[k + 1].id;
    }
  }

  lemma HasInIds(rules: seq<EngineRule>, x: nat)
    requires rules != [] && Has(rules, x)
    ensures x == rules[0].id || x in Ids(rules[1..])
  {
    var i :| 0 <= i < |rules| && rules[i].id == x;
    if i > 0 { assert Ids(rules[1..])[i - 1] == x; }
  }

  lemma OnlyGuard(rules: seq<EngineRule>, id: nat)
    requires rules != [] && rules[0].id == id && DistinctIds(rules) && forall x :: Has(rules, x) ==> x == id
    ensures rules == [rules[0]]
  {
    if |rules| > 1 {
      assert Has(rules, rules[1].id);
      assert false;
    }
  }

  lemma BuildingNext(before: seq<EngineRule>, rule: EngineRule, ids: seq<nat>, specs: seq<Spec>)
    requires before != [] && ids == Ids(before[1..]) && specs == Specs(before[1..])
    ensures Ids((before + [rule])[1..]) == ids + [rule.id] && Specs((before + [rule])[1..]) == specs + [rule.spec]
  {
    assert (before + [rule])[1..] == before[1..] + [rule];
  }

  lemma KeepId(ruleIds: seq<nat>, remaining: nat, index: nat, ids: seq<nat>)
    requires remaining <= index < |ruleIds| == |ids| && ruleIds[index..] == ids[index..]
    ensures var after := ruleIds[remaining := ruleIds[index]];
            && after[index + 1..] == ids[index + 1..]
            && after[..remaining + 1] == ruleIds[..remaining] + [ids[index]]
  {
    var after := ruleIds[remaining := ruleIds[index]];
    assert ruleIds[index] == ruleIds[index..][0];
    assert after[index + 1..] == ruleIds[index..][1..] == ids[index..][1..];
  }

  lemma DeleteKeepsIds(rules: seq<EngineRule>, id: nat, bound: nat)
    requires DistinctIds(rules) && forall i :: 0 <= i < |rules| ==> 0 < rules[i].id < bound
    ensures DistinctIds(Delete(rules, id)) && forall i :: 0 <= i < |Delete(rules, id)| ==>
            0 < Delete(rules, id)[i].id < bound
  {
    var after := Delete(rules, id);
    DeleteIds(rules, id, id);
    forall i | 0 <= i < |after| ensures 0 < after[i].id < bound {
      DeleteIds(rules, id, after[i].id);
      assert Has(after, after[i].id);
    }
  }

  lemma {:induction false} GetHas(rules: seq<EngineRule>, id: nat)
    requires Has(rules, id)
    ensures Get(rules, id).id == id
  {
    HasCons(rules, id);
    if rules[0].id != id { GetHas(rules[1..], id); }
  }

  lemma MoveKeepsIds(rules: seq<EngineRule>, id: nat, bound: nat)
    requires DistinctIds(rules) && Has(rules, id) && forall i :: 0 <= i < |rules| ==> 0 < rules[i].id < bound
    ensures var after := MoveToFront(rules, id);
            DistinctIds(after) && forall i :: 0 <= i < |after| ==> 0 < after[i].id < bound
  {
    GetHas(rules, id);
    DeleteKeepsIds(rules, id, bound);
    DeleteIds(rules, id, id);
    var rest := Delete(rules, id);
    assert forall i :: 0 <= i < |rest| ==> rest[i].id != id;
  }

  lemma {:induction false} ChangeKeepsIds(rules: seq<EngineRule>, id: nat, spec: Spec)
    ensures |Change(rules, id, spec)| == |rules|
    ensures forall i :: 0 <= i < |rules| ==> Change(rules, id, spec)[i].id == rules[i].id
  {
    if rules != [] { ChangeKeepsIds(rules[1..], id, spec); }
  }
}
