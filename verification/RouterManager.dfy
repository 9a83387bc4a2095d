/**
 The application-routing manager (processrouter/manager.go, processrouter/proxy_health.go). Each
 method is one critical section of the source; a run is any sequence of them, at any times and with
 any outcomes of the calls into the operating system.
 */
module RouterManager {
  import opened Wrappers
  import opened Rules
  import opened Normalize

  const CLIENT_LEASE := 20
  const PROBE_INTERVAL := 30

  datatype State = Stopped | Starting | Running | Blocked | Failed

  /** The rule generation and proxy availability the router process has acknowledged. */
  datatype Policy = Policy(generation: nat, available: bool)

  datatype Event = Contact(at: int) | Started(at: int)

  /** How the calls of one section turn out. */
  datatype Luck = Luck(alive: bool, intact: bool, check: bool, ensured: bool, recheck: bool, starts: bool,
      proxyUp: bool, acknowledged: bool, removed: bool, persists: bool)

  /** Every start follows a client contact of at most twenty seconds before. */
  ghost predicate Gated(history: seq<Event>) {
    forall i :: 0 <= i < |history| && history[i].Started? ==> Recent(history, i)
  }

  ghost predicate Recent(history: seq<Event>, i: int)
    requires 0 <= i < |history|
  {
    exists j :: 0 <= j < i && history[j].Contact? && history[i].at - CLIENT_LEASE <= history[j].at <= history[i].at
  }

  lemma GatedContact(history: seq<Event>, at: int)
    requires Gated(history)
    ensures Gated(history + [Contact(at)])
  {
    var after := history + [Contact(at)];
    forall i | 0 <= i < |after| && after[i].Started? ensures Recent(after, i) {
      RecentStays(history, Contact(at), i);
    }
  }

  lemma RecentStays(history: seq<Event>, event: Event, i: int)
    requires 0 <= i < |history| && Recent(history, i)
    ensures Recent(history + [event], i)
  {
    var j :| 0 <= j < i && history[j].Contact? && history[i].at - CLIENT_LEASE <= history[j].at <= history[i].at;
    assert (history + [event])[j] == history[j] && (history + [event])[i] == history[i];
  }

  lemma GatedStart(history: seq<Event>, contact: int, at: int)
    requires Gated(history) && Contact(contact) in history && at - CLIENT_LEASE <= contact <= at
    ensures Gated(history + [Started(at)])
  {
    var after := history + [Started(at)];
    var j :| 0 <= j < |history| && history[j] == Contact(contact);
    forall i | 0 <= i < |after| && after[i].Started? ensures Recent(after, i) {
      if i < |history| {
        RecentStays(history, Started(at), i);
      } else {
        assert after[j] == history[j];
      }
    }
  }

  predicate HasProxyRules(rules: seq<Rule>) {
    exists i :: 0 <= i < |rules| && rules[i].enabled && rules[i].action == "proxy"
  }

  predicate HasEnabledRules(rules: seq<Rule>) {
    exists i :: 0 <= i < |rules| && rules[i].enabled
  }

  class Manager {
    var rules: RulesRequest
    var desired: bool
    var generation: nat
    var activePolicy: Option<Policy>
    var state: State
    var mihomoReady: bool
    /** Whether there is a router process. */
    var process: bool
    var firewallReady: bool
    var firewallCleaned: bool
    var lastFirewallCheck: Option<int>
    var lastContact: Option<int>
    var clock: int
    /** The configuration file: enabled, and the rules. */
    var file: Option<(bool, RulesRequest)>
    /** Whether the firewall rules are in the system. */
    var walled: bool
    const goos: string
    const supported: bool
    /** The last command the current process acknowledged. */
    ghost var applied: Option<RouterCommand>
    ghost var history: seq<Event>

    /** What holds whenever the lock is free. */
    ghost predicate Valid()
      reads this
    {
      Routing() && Leased() && (mihomoReady ==> state == Running)
    }

    ghost predicate Routing()
      reads this`process, this`desired, this`firewallReady, this`activePolicy, this`generation, this`applied, this`rules
    {
      && (process ==> supported && desired && firewallReady)
      && (activePolicy.Some? ==>
         process && activePolicy.value.generation == generation && Applied(activePolicy.value.available))
    }

    ghost predicate Applied(available: bool)
      reads this`applied, this`rules
    {
      applied == Some(BuildRouterCommand(rules, available))
    }

    ghost predicate Leased()
      reads this`lastContact, this`history, this`clock
    {
      Gated(history) && (lastContact.Some? ==> lastContact.value <= clock && Contact(lastContact.value) in history)
    }

    constructor (goos: string, supported: bool, file: Option<(bool, RulesRequest)>, walled: bool, clock: int)
      ensures Valid() && !process && !desired && history == [] && lastContact == None && this.file == file
      ensures this.supported == supported && this.walled == walled && !firewallCleaned
    {
      this.goos, this.supported, this.file, this.walled, this.clock := goos, supported, file, walled, clock;
      rules := DefaultRules(goos);
      desired, process, mihomoReady, firewallReady, firewallCleaned := false, false, false, false, false;
      generation, activePolicy, state := 0, None, Stopped;
      lastFirewallCheck, lastContact := None, None;
      applied, history := None, [];
    }

    method Pass(seconds: nat)
      requires Valid()
      modifies this`clock
      ensures Valid() && clock == old(clock) + seconds
    {
      clock := clock + seconds;
    }

    /** A client call reaches the manager. */
    method Touch()
      requires Leased()
      modifies this`lastContact, this`history
      ensures Leased() && lastContact == Some(clock) && history == old(history) + [Contact(clock)]
    {
      GatedContact(history, clock);
      lastContact := Some(clock);
      history := history + [Contact(clock)];
    }

    method Persist(ok: bool)
      modifies this`file
      ensures file == if ok then Some((desired, rules)) else old(file)
    {
      if ok { file := Some((desired, rules)); }
    }

    /** `stopProcessLocked`. */
    method StopProcess()
      modifies this`process, this`activePolicy
      ensures !process && (old(process) ==> activePolicy == None) &&
              (!old(process) ==> activePolicy == old(activePolicy))
    {
      if process {
        process := false;
        activePolicy := None;
      }
    }

    /** `ensureFirewallLocked`. */
    method EnsureFirewall(force: bool, luck: Luck) returns (ok: bool)
      modifies this`firewallReady, this`firewallCleaned, this`lastFirewallCheck, this`walled
      ensures ok == firewallReady
      ensures ok && (force || !old(firewallReady)) ==> walled
      ensures (force || !old(firewallReady)) ==> ok == ((old(walled) && luck.check) || (luck.ensured && luck.recheck))
      ensures !ok ==> lastFirewallCheck == Some(clock)
      ensures firewallCleaned ==> old(firewallCleaned)
      ensures (force || !old(firewallReady)) && !(old(walled) && luck.check) ==>
                walled == (old(walled) || luck.ensured) && firewallCleaned == (old(firewallCleaned) && !ok)
      ensures (force || !old(firewallReady)) && old(walled) && luck.check ==>
              walled && firewallCleaned == old(firewallCleaned)
    {
      if !force && firewallReady && lastFirewallCheck.Some? &&
        clock - lastFirewallCheck.value < PROBE_INTERVAL { return true; }
      lastFirewallCheck := Some(clock);
      if walled && luck.check {
        firewallReady := true;
        return true;
      }
      if luck.ensured { walled := true; }
      if !luck.ensured || !luck.recheck {
        firewallReady := false;
        return false;
      }
      firewallReady, firewallCleaned := true, false;
      return true;
    }

    /** `removeFirewallLocked`. */
    method RemoveFirewall(luck: Luck) returns (ok: bool)
      modifies this`firewallReady, this`firewallCleaned, this`lastFirewallCheck, this`walled
      ensures !old(firewallCleaned) ==> !firewallReady && ok == luck.removed && (ok ==> !walled && firewallCleaned)
      ensures old(firewallCleaned) ==>
              ok && firewallReady == old(firewallReady) && walled == old(walled) && firewallCleaned
    {
      if firewallCleaned { return true; }
      firewallReady, lastFirewallCheck := false, None;
      if !luck.removed { return false; }
      walled := false;
      firewallCleaned := true;
      return true;
    }

    method SetError()
      modifies this`state, this`mihomoReady
      ensures state == Failed && !mihomoReady
    {
      state, mihomoReady := Failed, false;
    }

    /** The first section of `ReplaceRules`. */
    method AcceptRules(request: RulesRequest, luck: Luck) returns (ok: bool)
      requires Valid()
      modifies this`rules, this`lastContact, this`history, this`generation, this`activePolicy, this`file
      ensures Valid() && ok == (Acceptable(request, goos) && luck.persists)
      ensures Acceptable(request, goos) ==>
              rules == Normalized(request, goos) && activePolicy == None && lastContact == Some(clock) &&
              generation == old(generation) + 1
      ensures ok ==> file == Some((desired, rules))
      ensures !Acceptable(request, goos) ==>
              rules == old(rules) && activePolicy == old(activePolicy) && generation == old(generation) &&
              lastContact == old(lastContact)
    {
      var normalized := NormalizeRulesRequest(request, goos);
      if normalized == None { return false; }
      Adopt(normalized.value, luck);
      return luck.persists;
    }

    method Adopt(normalized: RulesRequest, luck: Luck)
      requires Valid()
      modifies this`rules, this`lastContact, this`history, this`generation, this`activePolicy, this`file
      ensures Valid() && rules == normalized && activePolicy == None && lastContact == Some(clock) &&
              generation == old(generation) + 1
      ensures file == if luck.persists then Some((desired, normalized)) else old(file)
    {
      rules := normalized;
      Touch();
      generation := generation + 1;
      activePolicy := None;
      Persist(luck.persists);
    }

    /** The first section of `Enable`. */
    method BeginEnable(luck: Luck) returns (ok: bool)
      requires Valid()
      modifies this`desired, this`firewallCleaned, this`lastContact, this`history, this`file
      ensures Valid() && ok == (supported && HasEnabledRules(rules.rules) && luck.persists)
      ensures ok ==> file == Some((true, rules))
      ensures if supported && HasEnabledRules(rules.rules) then desired &&
              lastContact == Some(clock) && !firewallCleaned
              else desired == old(desired) && lastContact == old(lastContact) && file == old(file)
    {
      if !supported || !HasEnabledRules(rules.rules) { return false; }
      desired, firewallCleaned := true, false;
      Touch();
      Persist(luck.persists);
      return luck.persists;
    }

    /** `Disable` stops the router; the firewall rules go too unless they were thought cleaned. */
    method Disable(luck: Luck) returns (ok: bool)
      requires Valid()
      modifies this`desired, this`activePolicy, this`state, this`mihomoReady, this`file, this`process,
               this`firewallReady, this`firewallCleaned, this`lastFirewallCheck, this`walled
      ensures Valid() && !process && !desired && state == Stopped
      ensures ok ==> file == Some((false, rules)) && walled == (old(walled) && old(firewallCleaned)) && firewallCleaned
      ensures ok == (luck.persists && (old(firewallCleaned) || luck.removed))
    {
      desired := false;
      Persist(luck.persists);
      var removed := Halt(luck);
      return luck.persists && removed;
    }

    /** Not desired, no process, no firewall rules. */
    method Halt(luck: Luck) returns (removed: bool)
      requires Leased()
      modifies this`desired, this`activePolicy, this`state, this`mihomoReady, this`process, this`firewallReady,
               this`firewallCleaned, this`lastFirewallCheck, this`walled
      ensures Valid() && !process && !desired && state == Stopped && activePolicy == None && !mihomoReady
      ensures removed == (old(firewallCleaned) || luck.removed)
      ensures removed ==> walled == (old(walled) && old(firewallCleaned)) && firewallCleaned
    {
      desired, activePolicy, state, mihomoReady := false, None, Stopped, false;
      StopProcess();
      removed := RemoveFirewall(luck);
    }

    method Cleanup(luck: Luck) returns (ok: bool)
      requires Valid()
      modifies this`desired, this`rules, this`generation, this`activePolicy, this`state, this`mihomoReady, this`file,
               this`process, this`firewallReady, this`firewallCleaned, this`lastFirewallCheck, this`walled
      ensures Valid() && !process && !desired && state == Stopped && rules == DefaultRules(goos)
      ensures ok ==> file == None && walled == (old(walled) && old(firewallCleaned))
    {
      rules, generation := DefaultRules(goos), generation + 1;
      var removed := Halt(luck);
      if luck.persists { file := None; }
      return luck.persists && removed;
    }

    method RepairFirewall(luck: Luck) returns (ok: bool)
      requires Valid()
      modifies this`lastContact, this`history, this`process, this`activePolicy, this`state, this`mihomoReady,
               this`firewallReady, this`firewallCleaned, this`lastFirewallCheck, this`walled
      ensures Valid()
      ensures ok ==> supported && luck.intact && firewallReady && walled
      ensures ok ==> process == old(process) && state == old(state)
      ensures supported ==> lastContact == Some(clock)
      ensures supported && luck.intact && !(old(walled) && luck.check) ==>
                walled == (old(walled) || luck.ensured) && firewallCleaned == (old(firewallCleaned) && !ok)
      ensures supported && luck.intact ==> ok == ((old(walled) && luck.check) || (luck.ensured && luck.recheck))
      ensures supported && luck.intact && !ok ==> !firewallReady && (desired ==> !process && state == Failed)
      ensures !supported || !luck.intact ==>
              !ok && process == old(process) && state == old(state) && firewallReady == old(firewallReady)
    {
      hide Gated;
      if !supported { return false; }
      Touch();
      if !luck.intact { return false; }
      ok := EnsureFirewall(true, luck);
      if !ok && desired {
        StopProcess();
        SetError();
      }
    }

    method Close(luck: Luck) returns (ok: bool)
      requires Valid()
      modifies this`process, this`activePolicy, this`firewallReady, this`firewallCleaned,
               this`lastFirewallCheck, this`walled
      ensures Valid() && !process
      ensures ok && old(desired || process || firewallReady) ==> walled == (old(walled) && old(firewallCleaned))
      ensures !old(desired || process || firewallReady) ==> ok && walled == old(walled)
    {
      var wasActive := desired || process || firewallReady;
      StopProcess();
      if !wasActive { return true; }
      ok := RemoveFirewall(luck);
    }

    method RenewLease()
      requires Valid()
      modifies this`lastContact, this`history
      ensures Valid() && (if desired then lastContact == Some(clock) else lastContact == old(lastContact))
    {
      if desired { Touch(); }
    }

    predicate LeaseActive()
      reads this`lastContact, this`clock
    {
      lastContact.Some? && clock - lastContact.value <= CLIENT_LEASE
    }

    /** Checks the program and the firewall and starts the router process when there is none. */
    method EnsureProcess(luck: Luck) returns (ok: bool)
      requires Routing() && Leased() && supported && desired && LeaseActive()
      modifies this`process, this`activePolicy, this`state, this`mihomoReady, this`firewallReady, this`firewallCleaned,
               this`lastFirewallCheck, this`walled, this`applied, this`history
      ensures Routing() && Leased() && desired && ok == process
      ensures !ok ==> state == Failed && !mihomoReady
      ensures ok ==> firewallReady && ((old(process) && luck.alive) || (luck.intact && luck.starts && walled))
      ensures history == if ok && !(old(process) && luck.alive) then old(history) + [Started(clock)] else old(history)
    {
      if process && !luck.alive {
        process := false;
        activePolicy := None;
      }
      if !process {
        state := Starting;
        if !luck.intact {
          SetError();
          return false;
        }
      }
      ok := EnsureFirewall(!process, luck);
      if !ok {
        StopProcess();
        SetError();
        return false;
      }
      if !process {
        if !luck.starts {
          var removed := RemoveFirewall(luck);
          SetError();
          return false;
        }
        GatedStart(history, lastContact.value, clock);
        history := history + [Started(clock)];
        process, activePolicy, applied := true, None, None;
      }
    }

    /** Sends the rules when the process does not have them for this generation and proxy state. */
    method ApplyPolicy(luck: Luck, available: bool) returns (ok: bool)
      requires Routing() && process
      modifies this`process, this`activePolicy, this`state, this`mihomoReady, this`firewallReady, this`firewallCleaned,
               this`lastFirewallCheck, this`walled, this`applied
      ensures Routing() && ok == process
      ensures ok == (old(activePolicy) == Some(Policy(generation, available)) || luck.acknowledged)
      ensures ok ==> activePolicy == Some(Policy(generation, available)) && state == old(state)
      ensures !ok ==> state == Failed && !mihomoReady
    {
      var policy := Policy(generation, available);
      if activePolicy != Some(policy) {
        if !luck.acknowledged {
          StopProcess();
          var removed := RemoveFirewall(luck);
          SetError();
          return false;
        }
        applied := Some(BuildRouterCommand(rules, available));
        activePolicy := Some(policy);
      }
      return true;
    }

    /** `updateProxyHealthLocked`: the state says whether the acknowledged rules let the proxy rules through. */
    method UpdateProxyHealth(requiresProxy: bool, available: bool)
      requires Routing() && process && requiresProxy == HasProxyRules(rules.rules) && (!requiresProxy ==> available)
      requires activePolicy == Some(Policy(generation, available))
      modifies this`state, this`mihomoReady
      ensures InForce(available)
    {
      mihomoReady := requiresProxy && available;
      if requiresProxy && !available {
        state := Blocked;
        return;
      }
      state := Running;
    }

    /**
     A desired router without a lease is stopped; with one it ends routing the
     current rules, or failed without a process.
    */
    method Reconcile(luck: Luck) returns (ok: bool)
      requires Valid()
      modifies this`process, this`activePolicy, this`state, this`mihomoReady, this`firewallReady, this`firewallCleaned,
               this`lastFirewallCheck, this`walled, this`applied, this`history
      ensures Valid()
      ensures !desired ==> ok && state == old(state) && process == old(process) && history == old(history)
      ensures desired && !LeaseActive() ==> state == Stopped && !process && history == old(history)
      ensures desired && LeaseActive() ==>
              ok == process && (history == old(history) || history == old(history) + [Started(clock)])
      ensures desired && LeaseActive() && ok ==> InForce(!HasProxyRules(rules.rules) || luck.proxyUp)
      ensures desired && LeaseActive() && !ok ==> state == Failed
    {
      if !desired { return true; }
      if !LeaseActive() {
        state, mihomoReady := Stopped, false;
        StopProcess();
        ok := RemoveFirewall(luck);
        return;
      }
      ok := Drive(luck);
    }

    /** The part of `Reconcile` within the lease. */
    method Drive(luck: Luck) returns (ok: bool)
      requires Valid() && desired && LeaseActive()
      modifies this`process, this`activePolicy, this`state, this`mihomoReady, this`firewallReady, this`firewallCleaned,
               this`lastFirewallCheck, this`walled, this`applied, this`history
      ensures Valid() && ok == process && (history == old(history) || history == old(history) + [Started(clock)])
      ensures if ok then InForce(!HasProxyRules(rules.rules) || luck.proxyUp) else state == Failed
    {
      if !supported {
        SetError();
        return false;
      }
      ok := EnsureProcess(luck);
      if !ok { return; }
      var requiresProxy := HasProxyRules(rules.rules);
      var up := !requiresProxy || luck.proxyUp;
      ok := ApplyPolicy(luck, up);
      if ok { UpdateProxyHealth(requiresProxy, up); }
    }

    /** The process has acknowledged the current rules for this proxy state, and the state says so. */
    ghost predicate InForce(available: bool)
      reads this
    {
      && process && desired && firewallReady && activePolicy == Some(Policy(generation, available)) &&
         Applied(available)
      && state == (if available then Running else Blocked)
      && mihomoReady == (HasProxyRules(rules.rules) && available)
    }
  }

  /** One critical section of a run. */
  datatype Section =
    | Replace(request: RulesRequest) | Enabling | Disabling | Cleaning | Repairing | Closing | Renewing | Reconciling
    | Passing(seconds: nat)

  method Perform(m: Manager, section: Section, luck: Luck)
    requires m.Valid()
    modifies m
    ensures m.Valid()
  {
    var ok := true;
    match section
    case Replace(request) => ok := m.AcceptRules(request, luck);
    case Enabling => ok := m.BeginEnable(luck);
    case Disabling => ok := m.Disable(luck);
    case Cleaning => ok := m.Cleanup(luck);
    case Repairing => ok := m.RepairFirewall(luck);
    case Closing => ok := m.Close(luck);
    case Renewing => m.RenewLease();
    case Reconciling => ok := m.Reconcile(luck);
    case Passing(seconds) => m.Pass(seconds);
  }

  /**
   From start-up through any run: the invariant holds whenever the lock is free,
   and every process start follows a recent contact.
  */
  method Run(m: Manager, sections: seq<(Section, Luck)>)
    requires m.Valid()
    modifies m
    ensures m.Valid() && Gated(m.history)
  {
    for i := 0 to |sections|
      invariant m.Valid()
    {
      Perform(m, sections[i].0, sections[i].1);
    }
  }

  /**
   A run in which `Disable` succeeds and leaves the firewall rules: they are removed, a repair puts them back but
   fails its recheck, which keeps the record of the removal, and so the next `Disable` removes nothing.
   */
  method StaleRemovalRecord(goos: string) returns (m: Manager, first: bool, repaired: bool, second: bool)
    ensures first && !repaired && second && m.Valid() && !m.desired && m.walled && m.firewallCleaned
  {
    m := new Manager(goos, true, None, true, 0);
    var works := Luck(true, true, true, true, true, true, true, true, true, true);
    first := m.Disable(works);
    repaired := m.RepairFirewall(works.(recheck := false));
    second := m.Disable(works);
  }

  /**
   `Restore` at start-up loads the configuration and reconciles; with no
   client contact yet it never starts a process.
  */
  method Restore(m: Manager, luck: Luck) returns (ok: bool)
    requires m.Valid() && !m.process && m.lastContact == None && m.activePolicy == None
    modifies m
    ensures m.Valid() && !m.process && m.history == old(m.history)
    ensures m.desired ==> m.state == Stopped || !ok
  {
    var loaded := Load(m);
    if !loaded { return false; }
    ok := m.Reconcile(luck);
  }

  /** `loadLocked`: the saved rules, checked and normalised again. */
  method Load(m: Manager) returns (ok: bool)
    requires m.Valid() && !m.process && m.activePolicy == None
    modifies m`rules, m`desired, m`generation
    ensures m.Valid()
    ensures m.file.Some? && Acceptable(m.file.value.1, m.goos) ==>
            ok && m.desired == m.file.value.0 && m.rules == Normalized(m.file.value.1, m.goos)
    ensures m.file.Some? && !Acceptable(m.file.value.1, m.goos) ==>
            !ok && m.rules == old(m.rules) && m.desired == old(m.desired)
  {
    if m.file == None { return true; }
    var normalized := NormalizeRulesRequest(m.file.value.1, m.goos);
    if normalized == None { return false; }
    m.rules, m.desired, m.generation := normalized.value, m.file.value.0, m.generation + 1;
    return true;
  }

  function DefaultRules(goos: string): RulesRequest {
    RulesRequest(PROTOCOL_VERSION, if goos == "linux" then "linux" else "windows",
                 if goos == "linux" then LINUX_PROXY_PORT else WINDOWS_PROXY_PORT, true, false, false, [])
  }
}
