/**
 The system-proxy lease, guard and timers (route/sysproxyapi). Client calls, timers and guard loops
 take one mutex in turn, so a run is a sequence of their critical sections; a timer that was armed
 may fire at any later time, stopped or not.
 */
module SystemProxy {
  import opened Wrappers

  const LEASE_DURATION := 60

  datatype Mode = Manual | Pac

  datatype Config = Config(proxyEnable: bool, sameForAll: bool, servers: map<string, string>, bypass: string,
      pacEnable: bool, pacUrl: string)

  /** The part of the settings a mode looks at. */
  datatype Snapshot = ManualSnapshot(enable: bool, sameForAll: bool, servers: map<string, string>, bypass: string,
      pacConflict: bool)
                    | PacSnapshot(enable: bool, url: string, proxyConflict: bool)

  function SnapshotOf(mode: Mode, config: Config): Snapshot {
    match mode
    case Manual =>
      ManualSnapshot(config.proxyEnable, config.sameForAll, map key | key in config.servers &&
        config.servers[key] != "" :: config.servers[key],
                     config.bypass, config.pacEnable)
    case Pac => PacSnapshot(config.pacEnable, config.pacUrl, config.proxyEnable)
  }

  datatype Lease = Lease(mode: Mode, target: Config, expected: Snapshot, runner: nat, deadline: int, generation: nat,
      signature: string, begun: nat)
  datatype Guard = Guard(mode: Mode, target: Config, expected: Snapshot, runner: nat, cancelled: bool, begun: nat)
  datatype Timer = Expiry(generation: nat) | Network(generation: nat, begun: nat) | Recovery(generation: nat)
  datatype Record = Record(mode: Mode, expected: Snapshot)

  /**
   Settings applied, by a background step begun at a point of the log or by a
   client; a disable, stop or expiry completed.
  */
  datatype Event = Applied(begun: Option<nat>) | Completed

  /** How the calls of one section turn out. */
  datatype Luck = Luck(captured: bool, queried: bool, applied: bool, requeried: bool, persisted: bool, written: bool,
      disabled: bool, removed: bool, guardCaptured: bool, guardQueried: bool, signed: bool, leftover: Config)

  ghost predicate Quiet(log: seq<Event>, since: nat) {
    since <= |log| && forall k :: since <= k < |log| ==> log[k] != Completed
  }

  /** No background step begun before a completion applies settings after it. */
  ghost predicate Safe(log: seq<Event>) {
    forall j :: 0 <= j < |log| && log[j].Applied? && log[j].begun.Some? ==> Quiet(log[..j], log[j].begun.value)
  }

  lemma SafeNext(log: seq<Event>, event: Event)
    requires Safe(log) && (event.Applied? && event.begun.Some? ==> Quiet(log, event.begun.value))
    ensures Safe(log + [event])
  {
    var after := log + [event];
    forall j | 0 <= j < |after| && after[j].Applied? &&
      after[j].begun.Some? ensures Quiet(after[..j], after[j].begun.value) {
      if j < |log| {
        assert after[..j] == log[..j] && after[j] == log[j];
      } else {
        assert after[..j] == log;
      }
    }
  }

  lemma QuietNext(log: seq<Event>, event: Event, since: nat)
    requires Quiet(log, since) && event != Completed
    ensures Quiet(log + [event], since)
  {
  }

  /** What is on the system and on disk: the live settings, and the record of the managed ones. */
  datatype Moment = Moment(current: Config, record: Option<Record>)

  /** The runners closed so far, in order, the open ones, and how many were captured. */
  datatype Account = Account(closed: seq<nat>, open: set<nat>, captured: nat)

  /** Every runner captured so far is open or has been closed, and none was closed twice. */
  ghost predicate Balanced(a: Account) {
    && (forall i, j :: 0 <= i < j < |a.closed| ==> a.closed[i] != a.closed[j])
    && (forall r: nat :: r < a.captured <==> r in a.open || r in a.closed)
    && (forall r :: r in a.closed ==> r !in a.open)
  }

  type Ledger = a: Account | Balanced(a) ghost witness Account([], {}, 0)

  ghost function AfterCapture(l: Ledger): (r: Ledger)
    ensures l.captured !in l.open && r.open == l.open + {l.captured} && r.captured == l.captured + 1 &&
            r.closed == l.closed
  {
    Account(l.closed, l.open + {l.captured}, l.captured + 1)
  }

  ghost function AfterClose(l: Ledger, runner: nat): (r: Ledger)
    requires runner in l.open
    ensures r.open == l.open - {runner} && r.captured == l.captured && r.closed == l.closed + [runner]
  {
    Account(l.closed + [runner], l.open - {runner}, l.captured)
  }

  lemma StillLogged(before: seq<Moment>, after: seq<Moment>, w: Moment)
    requires before <= after && w in before
    ensures w in after
  {
  }

  /** The runners the guards hold, each by one guard. */
  ghost predicate Separate(lease: Option<Lease>, guards: map<nat, Guard>) {
    && (forall g, h :: g in guards && h in guards && g != h ==> guards[g].runner != guards[h].runner)
    && (lease.Some? ==> forall g :: g in guards ==> guards[g].runner != lease.value.runner)
  }

  /** Every open runner has an owner and every owner's runner is open. */
  ghost predicate Owned(open: set<nat>, lease: Option<Lease>, guards: map<nat, Guard>) {
    && Separate(lease, guards)
    && (forall g :: g in guards ==> guards[g].runner in open)
    && (lease.Some? ==> lease.value.runner in open)
    && forall r :: r in open ==> HasOwner(r, lease, guards)
  }

  ghost predicate HasOwner(r: nat, lease: Option<Lease>, guards: map<nat, Guard>) {
    (lease.Some? && lease.value.runner == r) || exists g :: g in guards && guards[g].runner == r
  }

  /** Only the current guard is active, and nothing has completed since it began. */
  ghost predicate Guarded(log: seq<Event>, guards: map<nat, Guard>, generation: nat, current: Option<nat>) {
    && (forall g :: g in guards ==> g <= generation && guards[g].begun <= |log|)
    && (current.Some? ==> current.value == generation && generation in guards && !guards[generation].cancelled)
    && (forall g :: g in guards && current != Some(g) ==> guards[g].cancelled)
    && (generation in guards ==> current == Some(generation) && Quiet(log, guards[generation].begun))
  }

  /** Nothing has completed since the lease began; its timers were armed after that. */
  ghost predicate Leased(log: seq<Event>, lease: Option<Lease>, generation: nat, armed: set<Timer>) {
    && (lease.Some? ==> lease.value.generation == generation && Quiet(log, lease.value.begun))
    && (forall t :: t in armed && t.Network? ==> t.generation <= generation && t.begun <= |log|)
    && (lease.Some? ==> forall t :: t in armed && t.Network? && t.generation == generation ==>
       lease.value.begun <= t.begun)
  }

  // How owners change hands.

  lemma CancelOwned(open: set<nat>, lease: Option<Lease>, guards: map<nat, Guard>, g: nat)
    requires Owned(open, lease, guards) && g in guards
    ensures Owned(open, lease, guards[g := guards[g].(cancelled := true)])
  {
    var after := guards[g := guards[g].(cancelled := true)];
    assert forall h :: h in guards ==> h in after && after[h].runner == guards[h].runner;
    forall r | r in open ensures HasOwner(r, lease, after) {
      assert HasOwner(r, lease, guards);
    }
  }

  lemma DropLeaseOwned(open: set<nat>, lease: Lease, guards: map<nat, Guard>)
    requires Owned(open, Some(lease), guards)
    ensures Owned(open - {lease.runner}, None, guards)
  {
    forall r | r in open - {lease.runner} ensures HasOwner(r, None, guards) {
      assert HasOwner(r, Some(lease), guards);
    }
  }

  lemma TakeLeaseOwned(open: set<nat>, lease: Lease, guards: map<nat, Guard>)
    requires Owned(open, None, guards) && lease.runner !in open
    ensures Owned(open + {lease.runner}, Some(lease), guards)
  {
    forall r | r in open + {lease.runner} ensures HasOwner(r, Some(lease), guards) {
      if r != lease.runner { assert HasOwner(r, None, guards); }
    }
  }

  lemma ChangeLeaseOwned(open: set<nat>, lease: Lease, next: Lease, guards: map<nat, Guard>)
    requires Owned(open, Some(lease), guards) && next.runner == lease.runner
    ensures Owned(open, Some(next), guards)
  {
    forall r | r in open ensures HasOwner(r, Some(next), guards) {
      assert HasOwner(r, Some(lease), guards);
    }
  }

  lemma TakeGuardOwned(open: set<nat>, lease: Option<Lease>, guards: map<nat, Guard>, g: nat, guard: Guard)
    requires Owned(open, lease, guards) && g !in guards && guard.runner !in open
    ensures Owned(open + {guard.runner}, lease, guards[g := guard])
  {
    var after := guards[g := guard];
    forall r | r in open + {guard.runner} ensures HasOwner(r, lease, after) {
      if r == guard.runner {
        assert after[g].runner == r;
      } else {
        assert HasOwner(r, lease, guards);
        if !(lease.Some? && lease.value.runner == r) {
          var h :| h in guards && guards[h].runner == r;
          assert h in after && after[h].runner == r;
        }
      }
    }
  }

  lemma DropGuardOwned(open: set<nat>, lease: Option<Lease>, guards: map<nat, Guard>, g: nat)
    requires Owned(open, lease, guards) && g in guards
    ensures Owned(open - {guards[g].runner}, lease, guards - {g})
  {
    var after := guards - {g};
    forall r | r in open - {guards[g].runner} ensures HasOwner(r, lease, after) {
      assert HasOwner(r, lease, guards);
      if !(lease.Some? && lease.value.runner == r) {
        var h :| h in guards && guards[h].runner == r;
        assert h in after && after[h].runner == r;
      }
    }
  }

  class SystemProxy {
    var lease: Option<Lease>
    var leaseGeneration: nat
    var guards: map<nat, Guard>
    var guardGeneration: nat
    var currentGuard: Option<nat>
    var recoveryGeneration: nat
    var armed: set<Timer>
    var record: Option<Record>
    /** The live settings. */
    var current: Config
    var clock: int
    var open: set<nat>
    var nextRunner: nat
    var log: seq<Event>
    const darwin: bool
    ghost var ledger: Ledger
    /** What a crash may find: the settings and the record after every change. */
    ghost var moments: seq<Moment>

    /** What holds in a section that has runners in hand; nothing is in hand when the mutex is free. */
    ghost predicate Holding(hand: set<nat>)
      reads this`open, this`ledger, this`lease, this`guards, this`nextRunner, this`log, this`guardGeneration,
        this`currentGuard, this`leaseGeneration, this`armed
    {
      && Runners(hand) && Safe(log)
      && Guarded(log, guards, guardGeneration, currentGuard)
      && Leased(log, lease, leaseGeneration, armed)
    }

    ghost predicate Runners(hand: set<nat>)
      reads this`open, this`ledger, this`lease, this`guards, this`nextRunner
    {
      hand <= open && Owned(open - hand, lease, guards) && ledger.open == open && ledger.captured == nextRunner
    }

    ghost predicate Valid()
      reads this`open, this`ledger, this`lease, this`guards, this`nextRunner, this`log, this`guardGeneration,
        this`currentGuard, this`leaseGeneration, this`armed
    {
      Holding({})
    }

    constructor (darwin: bool, record: Option<Record>, current: Config, clock: int)
      ensures Valid() && lease == None && guards == map[] && log == [] && this.record == record &&
              this.current == current
      ensures ledger.closed == [] && moments == [Moment(current, record)]
    {
      this.darwin, this.record, this.current, this.clock := darwin, record, current, clock;
      lease, leaseGeneration, guards, guardGeneration, currentGuard, recoveryGeneration := None, 0, map[], 0, None, 0;
      armed, open, nextRunner, log, ledger, moments := {}, {}, 0, [], Account([], {}, 0), [Moment(current, record)];
    }

    method Capture(ghost hand: set<nat>) returns (runner: nat)
      requires Holding(hand)
      modifies this`open, this`ledger, this`nextRunner
      ensures Holding(hand + {runner}) && runner !in hand
    {
      runner := nextRunner;
      ledger := AfterCapture(ledger);
      assert open + {runner} - (hand + {runner}) == open - hand;
      open, nextRunner := open + {runner}, nextRunner + 1;
    }

    /** A runner in hand is closed; it is open, so this is the only time. */
    method Close(runner: nat, ghost hand: set<nat>)
      requires Holding(hand) && runner in hand
      modifies this`open, this`ledger
      ensures Holding(hand - {runner}) && open == old(open) - {runner} && ledger.closed == old(ledger).closed + [runner]
    {
      assert open - {runner} - (hand - {runner}) == open - hand;
      Shut(runner);
    }

    method Shut(runner: nat)
      requires ledger.open == open && runner in open
      modifies this`open, this`ledger
      ensures ledger.open == open == old(open) - {runner} && ledger.captured == old(ledger).captured &&
              ledger.closed == old(ledger).closed + [runner]
    {
      ledger := AfterClose(ledger, runner);
      open := open - {runner};
    }

    /** `sysproxyGuardState.stop`. */
    method StopGuard(ghost hand: set<nat>)
      requires Holding(hand)
      modifies this`guards, this`guardGeneration, this`currentGuard
      ensures Holding(hand) && currentGuard == None && guardGeneration == old(guardGeneration) + 1
      ensures guards.Keys == old(guards).Keys && forall g :: g in guards ==>
              guards[g] == old(guards)[g].(cancelled := true) && g < guardGeneration
    {
      if currentGuard.Some? {
        var g := currentGuard.value;
        CancelOwned(open - hand, lease, guards, g);
        guards := guards[g := guards[g].(cancelled := true)];
      }
      guardGeneration, currentGuard := guardGeneration + 1, None;
    }

    /** `clearSysproxyLease`: the lease's runner is closed with it. */
    method ClearLease(ghost hand: set<nat>)
      requires Holding(hand)
      modifies this`lease, this`open, this`ledger
      ensures Holding(hand) && lease == None &&
              open == old(open) - (if old(lease).Some? then {old(lease).value.runner} else {})
      ensures ledger.closed == old(ledger).closed + if old(lease).Some? then [old(lease).value.runner] else []
    {
      if lease.Some? {
        var runner := lease.value.runner;
        DropLeaseOwned(open - hand, lease.value, guards);
        assert open - {runner} - hand == open - hand - {runner};
        lease := None;
        Shut(runner);
      }
    }

    /** A disable, stop or expiry is done: no guard, no lease. */
    method Complete(ghost hand: set<nat>)
      requires Holding(hand) && lease == None && currentGuard == None && guardGeneration !in guards
      modifies this`log
      ensures Holding(hand) && log == old(log) + [Completed]
    {
      SafeNext(log, Completed);
      log := log + [Completed];
    }

    /** Settings are applied; a failed call may leave anything. */
    method Apply(target: Config, luck: Luck, begun: Option<nat>, ghost hand: set<nat>) returns (ok: bool)
      requires Holding(hand) && (begun.Some? ==> Quiet(log, begun.value))
      modifies this`log, this`current, this`moments
      ensures Holding(hand) && ok == luck.applied && log == old(log) + [Applied(begun)]
      ensures current == if luck.applied then target else luck.leftover
      ensures moments == old(moments) + [Moment(current, record)]
    {
      SafeNext(log, Applied(begun));
      LogGrows(log, Applied(begun), guards, guardGeneration, currentGuard, lease, leaseGeneration, armed);
      log := log + [Applied(begun)];
      current := if luck.applied then target else luck.leftover;
      moments := moments + [Moment(current, record)];
      return luck.applied;
    }

    /** The user changes the settings. */
    method Edit(config: Config)
      requires Valid()
      modifies this`current, this`moments
      ensures Valid() && current == config && moments == old(moments) + [Moment(current, record)]
    {
      current := config;
      moments := moments + [Moment(current, record)];
    }

    method DisableSettings(luck: Luck) returns (ok: bool)
      modifies this`current, this`moments
      ensures ok == luck.disabled && current == if ok then Off(old(current)) else luck.leftover
      ensures moments == old(moments) + [Moment(current, record)]
    {
      current := if luck.disabled then Off(current) else luck.leftover;
      moments := moments + [Moment(current, record)];
      return luck.disabled;
    }

    method RemoveRecord(luck: Luck) returns (ok: bool)
      modifies this`record, this`moments
      ensures ok == luck.removed && record == if ok then None else old(record)
      ensures moments == old(moments) + [Moment(current, record)]
    {
      if luck.removed { record := None; }
      moments := moments + [Moment(current, record)];
      return luck.removed;
    }

    /** `renewSysproxyLease`. */
    method Renew() returns (renewed: bool)
      requires Valid()
      modifies this`lease, this`armed
      ensures Valid() && renewed == old(lease).Some? && lease.Some? == renewed
      ensures renewed ==>
              lease.value == old(lease).value.(deadline := clock + LEASE_DURATION) &&
              armed == old(armed) + {Expiry(leaseGeneration)}
      ensures !renewed ==> armed == old(armed)
    {
      if lease == None { return false; }
      var next := lease.value.(deadline := clock + LEASE_DURATION);
      ChangeLeaseOwned(open - {}, lease.value, next, guards);
      lease := Some(next);
      armed := armed + {Expiry(next.generation)};
      return true;
    }

    /** `replaceSysproxyLease`: the runner passes from hand to the new lease. */
    method ReplaceLease(mode: Mode, target: Config, expected: Snapshot, runner: nat, ghost hand: set<nat>)
      requires Holding(hand) && runner in hand
      modifies this`lease, this`open, this`ledger, this`leaseGeneration, this`recoveryGeneration, this`armed
      ensures Holding(hand - {runner}) && leaseGeneration == old(leaseGeneration) + 1 &&
              recoveryGeneration == old(recoveryGeneration) + 1
      ensures lease == Some(Lease(mode, target, expected, runner, clock + LEASE_DURATION, leaseGeneration, "", |log|))
      ensures armed == old(armed) + {Expiry(leaseGeneration)} + if darwin then {Network(leaseGeneration, |log|)} else {}
    {
      recoveryGeneration := recoveryGeneration + 1;
      ClearLease(hand);
      InstallLease(Lease(mode, target, expected, runner, clock + LEASE_DURATION, leaseGeneration + 1, "", |log|), hand);
    }

    method InstallLease(next: Lease, ghost hand: set<nat>)
      requires Holding(hand) && lease == None && next.runner in hand && next.generation == leaseGeneration + 1 &&
               next.begun == |log|
      modifies this`lease, this`leaseGeneration, this`armed
      ensures Holding(hand - {next.runner}) && lease == Some(next) && leaseGeneration == next.generation
      ensures armed == old(armed) + {Expiry(leaseGeneration)} + if darwin then {Network(leaseGeneration, |log|)} else {}
    {
      TakeLeaseOwned(open - hand, next, guards);
      assert open - (hand - {next.runner}) == open - hand + {next.runner};
      LeaseTaken(log, leaseGeneration, armed, next);
      leaseGeneration, lease := leaseGeneration + 1, Some(next);
      armed := armed + {Expiry(leaseGeneration)} + if darwin then {Network(leaseGeneration, |log|)} else {};
    }

    /** `beginManagedProxy`: ownership of the runner ends here, in a lease or closed. */
    method Begin(mode: Mode, target: Config, runner: nat, luck: Luck) returns (ok: bool)
      requires Holding({runner})
      modifies this`lease, this`open, this`ledger, this`leaseGeneration, this`recoveryGeneration, this`armed,
               this`record, this`guards, this`guardGeneration, this`currentGuard, this`current, this`moments
      ensures Valid() && ok == (luck.queried && luck.persisted) && (ok == lease.Some?)
      ensures ok ==>
              lease.value.runner == runner && lease.value.mode == mode && lease.value.target == target &&
              record == Some(Record(mode, lease.value.expected))
      ensures ok ==>
              current == old(current) && lease.value.expected == SnapshotOf(mode, current) &&
              currentGuard == old(currentGuard)
      ensures !ok ==> currentGuard == None && runner !in open && current == if luck.disabled then
              Off(old(current)) else luck.leftover
      ensures !ok && luck.disabled && luck.removed ==> record == None
      ensures old(moments) <= moments && (ok ==> Moment(current, record) in moments)
    {
      hide Holding;
      var expected := SnapshotOf(mode, current);
      if luck.queried { WriteRecord(mode, luck); }
      if !luck.queried || !luck.persisted {
        Abandon(runner, luck);
        return false;
      }
      ReplaceLease(mode, target, expected, runner, {runner});
      assert {runner} - {runner} == {};
      return true;
    }

    /** `persistManagedProxy`: a failed write may have replaced the record all the same. */
    method WriteRecord(mode: Mode, luck: Luck)
      modifies this`record, this`moments
      ensures record == if luck.persisted || luck.written then Some(Record(mode, SnapshotOf(mode, current)))
              else old(record)
      ensures moments == old(moments) + [Moment(current, record)]
    {
      if luck.persisted || luck.written { record := Some(Record(mode, SnapshotOf(mode, current))); }
      moments := moments + [Moment(current, record)];
    }

    /** The proxy could not be taken under management: it is turned off. */
    method Abandon(runner: nat, luck: Luck)
      requires Holding({runner})
      modifies this`lease, this`open, this`ledger, this`record, this`guards, this`guardGeneration, this`currentGuard,
               this`current, this`moments
      ensures Valid() && lease == None && currentGuard == None && runner !in open
      ensures current == if luck.disabled then Off(old(current)) else luck.leftover
      ensures record == if luck.disabled && luck.removed then None else old(record)
      ensures old(moments) <= moments
    {
      hide Holding;
      StopGuard({runner});
      ClearLease({runner});
      var disabled := DisableSettings(luck);
      Close(runner, {runner});
      assert {runner} - {runner} == {};
      if disabled { var removed := RemoveRecord(luck); }
    }

    /** `sysproxyGuardState.start`: the runner passes to the new guard. */
    method StartGuard(mode: Mode, target: Config, expected: Snapshot, runner: nat)
      requires Holding({runner})
      modifies this`guards, this`guardGeneration, this`currentGuard
      ensures Valid() && currentGuard == Some(guardGeneration) && guardGeneration > old(guardGeneration)
      ensures guardGeneration in guards &&
              guards[guardGeneration] == Guard(mode, target, expected, runner, false, |log|)
    {
      StopGuard({runner});
      var guard := Guard(mode, target, expected, runner, false, |log|);
      TakeGuardOwned(open - {runner}, lease, guards, guardGeneration, guard);
      assert open - {} == open - {runner} + {runner};
      guards := guards[guardGeneration := guard];
      currentGuard := Some(guardGeneration);
    }

    /** A guard for these settings is active. */
    ghost predicate Guards(mode: Mode, target: Config)
      reads this`currentGuard, this`guards, this`current, this`log
    {
      && currentGuard.Some? && currentGuard.value in guards
      && var guard := guards[currentGuard.value];
         guard.mode == mode && guard.target == target && guard.expected == SnapshotOf(mode, current) &&
           guard.begun == |log|
    }

    /** `configureSysproxyGuard`. */
    method ConfigureGuard(enabled: bool, mode: Mode, target: Config, luck: Luck)
      requires Valid()
      modifies this`guards, this`guardGeneration, this`currentGuard, this`open, this`ledger, this`nextRunner
      ensures Valid() && (!enabled ==> currentGuard == None)
      ensures enabled && luck.guardCaptured && luck.guardQueried ==> Guards(mode, target)
      ensures enabled && !(luck.guardCaptured && luck.guardQueried) ==> currentGuard == old(currentGuard)
    {
      if !enabled {
        StopGuard({});
        return;
      }
      if !luck.guardCaptured { return; }
      var runner := Capture({});
      assert {} + {runner} == {runner};
      if !luck.guardQueried {
        Close(runner, {runner});
        return;
      }
      StartGuard(mode, target, SnapshotOf(mode, current), runner);
    }

    /** The proxy and PAC requests. */
    method SetProxy(mode: Mode, target: Config, guard: bool, luck: Luck) returns (ok: bool)
      requires Valid()
      modifies this
      ensures Valid() && ok == (luck.captured && luck.applied && luck.queried && luck.persisted)
      ensures ok ==>
              lease.Some? && lease.value.target == target && record == Some(Record(mode, lease.value.expected)) &&
              current == target
      ensures luck.captured && luck.applied ==> Moment(target, old(record)) in moments
      ensures ok ==> Moment(current, record) in moments && Recoverable(Moment(current, record))
      ensures ok ==> if guard && luck.guardCaptured && luck.guardQueried then Guards(mode, target)
              else currentGuard == None
    {
      ok := TakeProxy(mode, target, luck);
      if !ok { return; }
      StopGuard({});
      ConfigureGuard(guard, mode, target, luck);
    }

    /** Applies the settings and takes them under management. */
    method TakeProxy(mode: Mode, target: Config, luck: Luck) returns (ok: bool)
      requires Valid()
      modifies this`open, this`ledger, this`nextRunner, this`log, this`current, this`lease, this`leaseGeneration,
               this`recoveryGeneration, this`armed, this`record, this`guards, this`guardGeneration,
               this`currentGuard, this`moments
      ensures Valid() && ok == (luck.captured && luck.applied && luck.queried && luck.persisted)
      ensures ok ==>
              lease.Some? && lease.value.target == target && record == Some(Record(mode, lease.value.expected)) &&
              current == target
      ensures luck.captured && luck.applied ==> Moment(target, old(record)) in moments
      ensures ok ==> Moment(current, record) in moments && Recoverable(Moment(current, record))
    {
      if !luck.captured { return false; }
      var runner := Capture({});
      assert {} + {runner} == {runner};
      ok := Apply(target, luck, None, {runner});
      if !ok {
        Close(runner, {runner});
        assert {runner} - {runner} == {};
        return;
      }
      ghost var gap, applied := Moment(current, record), moments;
      assert gap in applied by { assert applied[|applied| - 1] == gap; }
      ok := Begin(mode, target, runner, luck);
      StillLogged(applied, moments, gap);
    }

    /** The disable request; when it succeeds nothing is managed any more. */
    method Disable(luck: Luck) returns (ok: bool)
      requires Valid()
      modifies this
      ensures Valid() && ok == luck.disabled
      ensures if ok then Ended(old(log)) && current == Off(old(current))
              else log == old(log) && lease == old(lease) && guards == old(guards)
      ensures ok && luck.removed ==> record == None
    {
      ok := DisableSettings(luck);
      if !ok { return; }
      StopGuard({});
      Finish(luck);
    }

    /** The lease is forgotten and the end is logged. */
    method Finish(luck: Luck)
      requires Valid() && currentGuard == None && guardGeneration !in guards
      modifies this`lease, this`open, this`ledger, this`record, this`moments, this`log
      ensures Valid() && Ended(old(log)) && record == if luck.removed then None else old(record)
    {
      Forget(luck);
      Complete({});
    }

    /** No guard, no lease, and the log says so. */
    ghost predicate Ended(before: seq<Event>)
      reads this`lease, this`currentGuard, this`log
    {
      lease == None && currentGuard == None && log == before + [Completed]
    }

    /** `forgetSysproxyLease`. */
    method Forget(luck: Luck)
      requires Valid()
      modifies this`lease, this`open, this`ledger, this`record, this`moments
      ensures Valid() && lease == None && record == if luck.removed then None else old(record)
    {
      ClearLease({});
      var removed := RemoveRecord(luck);
    }

    /** A native client is about to change the settings itself; they are not touched here. */
    method PrepareNative(luck: Luck)
      requires Valid()
      modifies this`recoveryGeneration, this`guards, this`guardGeneration, this`currentGuard, this`lease, this`open,
               this`ledger, this`record, this`moments, this`log
      ensures Valid() && Ended(old(log)) && current == old(current)
    {
      recoveryGeneration := recoveryGeneration + 1;
      StopGuard({});
      Finish(luck);
    }

    /** A native client hands its settings over; confirmed tells whether they are what it said. */
    method AdoptNative(mode: Mode, target: Config, confirmed: bool, guard: bool, luck: Luck) returns (ok: bool)
      requires Valid()
      modifies this
      ensures Valid() && ok == (luck.captured && luck.queried && confirmed && luck.persisted) &&
              current == old(current) && log == old(log)
      ensures ok ==> lease.Some? && record == Some(Record(mode, lease.value.expected))
    {
      hide Holding;
      if !luck.captured { return false; }
      var runner := Capture({});
      assert {} + {runner} == {runner};
      if !luck.queried || !confirmed {
        Close(runner, {runner});
        return false;
      }
      ok := Confirm(mode, target, runner, luck);
      if ok { ConfigureGuard(guard, mode, target, luck); }
    }

    method Confirm(mode: Mode, target: Config, runner: nat, luck: Luck) returns (ok: bool)
      requires Holding({runner})
      modifies this`record, this`lease, this`open, this`ledger, this`leaseGeneration, this`recoveryGeneration,
               this`armed, this`moments
      ensures Valid() && ok == luck.persisted &&
              (ok ==> lease.Some? && record == Some(Record(mode, lease.value.expected)))
    {
      var expected := SnapshotOf(mode, current);
      WriteRecord(mode, luck);
      assert {runner} - {runner} == {};
      if !luck.persisted {
        Close(runner, {runner});
        return false;
      }
      ReplaceLease(mode, target, expected, runner, {runner});
      return true;
    }

    /** `releaseSysproxyLease`: settings the user has changed stay. */
    method Release(luck: Luck) returns (ok: bool)
      requires Valid() && lease.Some?
      modifies this`current, this`moments
      ensures Valid() && ok == Releasable(lease.value, old(current), luck)
      ensures SnapshotOf(lease.value.mode, old(current)) != lease.value.expected ==> current == old(current)
      ensures ok && SnapshotOf(lease.value.mode, old(current)) == lease.value.expected ==> current == Off(old(current))
    {
      if !luck.queried { return false; }
      if SnapshotOf(lease.value.mode, current) != lease.value.expected { return true; }
      ok := DisableSettings(luck);
    }

    /** The record stays when the settings could not be released, for the next start to recover. */
    method ReleaseAndClear(luck: Luck) returns (ok: bool)
      requires Valid() && lease.Some?
      modifies this`current, this`lease, this`open, this`ledger, this`record, this`moments
      ensures Valid() && lease == None && ok == Releasable(old(lease).value, old(current), luck) &&
              (!ok ==> record == old(record))
      ensures ok && SnapshotOf(old(lease).value.mode, old(current)) == old(lease).value.expected ==>
              current == Off(old(current))
      ensures SnapshotOf(old(lease).value.mode, old(current)) != old(lease).value.expected ==> current == old(current)
    {
      ok := Release(luck);
      if ok { Forget(luck); } else { ClearLease({}); }
    }

    /** `StopManagedProxy`. */
    method StopManaged(luck: Luck) returns (ok: bool)
      requires Valid()
      modifies this
      ensures Valid() && Ended(old(log))
      ensures old(lease) == None || SnapshotOf(old(lease).value.mode, old(current)) != old(lease).value.expected ==>
              current == old(current)
      ensures old(lease).Some? ==> ok == Releasable(old(lease).value, old(current), luck) && (!ok ==>
              record == old(record))
      ensures old(lease).Some? && ok && SnapshotOf(old(lease).value.mode, old(current)) == old(lease).value.expected ==>
              current == Off(old(current))
    {
      hide Holding;
      recoveryGeneration := recoveryGeneration + 1;
      StopGuard({});
      ok := true;
      if lease.Some? { ok := ReleaseAndClear(luck); }
      Complete({});
    }

    /** `expireSysproxyLease`: a timer of an earlier lease changes nothing. */
    method FireExpiry(generation: nat, luck: Luck)
      requires Valid()
      modifies this
      ensures Valid()
      ensures old(lease) == None || old(lease).value.generation != generation ==>
              Unchanged(old(lease), old(guards), old(armed), old(record), old(current), old(log), old(open))
      ensures old(lease).Some? && clock < old(lease).value.deadline ==> current == old(current)
      ensures old(lease).Some? && SnapshotOf(old(lease).value.mode, old(current)) != old(lease).value.expected ==>
                current == old(current)
      ensures old(lease).Some? && clock < old(lease).value.deadline ==> lease == old(lease) && log == old(log)
      ensures old(lease).Some? && old(lease).value.generation == generation && clock >= old(lease).value.deadline ==>
                currentGuard == None && if Releasable(old(lease).value, old(current), luck) then Ended(old(log))
                  else lease == old(lease) && log == old(log) && Expiry(generation) in armed
    {
      if lease == None || lease.value.generation != generation { return; }
      if clock < lease.value.deadline {
        armed := armed + {Expiry(generation)};
        return;
      }
      Expire(generation, luck);
    }

    /** The lease is over; when its settings cannot be released it is tried again later. */
    method Expire(generation: nat, luck: Luck)
      requires Valid() && lease.Some?
      modifies this`guards, this`guardGeneration, this`currentGuard, this`current, this`lease, this`open, this`ledger,
               this`record, this`moments, this`log, this`armed
      ensures Valid() && currentGuard == None
      ensures SnapshotOf(old(lease).value.mode, old(current)) != old(lease).value.expected ==> current == old(current)
      ensures if Releasable(old(lease).value, old(current), luck) then Ended(old(log))
              else lease == old(lease) && log == old(log) && Expiry(generation) in armed
    {
      hide Runners, Safe, Guarded;
      StopGuard({});
      var ok := Release(luck);
      if ok {
        Finish(luck);
      } else {
        armed := armed + {Expiry(generation)};
      }
    }

    ghost predicate Unchanged(lease0: Option<Lease>, guards0: map<nat, Guard>, armed0: set<Timer>,
        record0: Option<Record>, current0: Config, log0: seq<Event>, open0: set<nat>)
      reads this
    {
      lease == lease0 && guards == guards0 && armed == armed0 && record == record0 && current == current0 &&
        log == log0 && open == open0
    }

    /** `reconcileSysproxyLease` on a network change. */
    method FireNetwork(generation: nat, begun: nat, signature: string, luck: Luck)
      requires Valid() && Network(generation, begun) in armed
      modifies this`log, this`current, this`lease, this`armed, this`moments
      ensures Valid()
      ensures old(lease) == None || old(lease).value.generation != generation || clock >= old(lease).value.deadline ==>
              log == old(log) && current == old(current) && lease == old(lease)
      ensures old(lease).Some? && old(lease).value.generation == generation && clock < old(lease).value.deadline ==>
                if Moves(old(lease).value, signature, luck)
                then log == old(log) + [Applied(Some(begun))] &&
                  current == if luck.applied then old(lease).value.target else luck.leftover
                else log == old(log) && current == old(current)
      ensures old(lease).Some? && old(lease).value.generation == generation && clock < old(lease).value.deadline ==>
              Network(generation, |log|) in armed
    {
      hide Runners, Guarded;
      if lease == None || lease.value.generation != generation || clock >= lease.value.deadline { return; }
      if luck.signed && signature != "" {
        if lease.value.signature == "" || lease.value.signature == signature {
          Sign(signature);
        } else {
          QuietLater(log, lease.value.begun, begun);
          var ok := Apply(lease.value.target, luck, Some(begun), {});
          if ok && luck.requeried && SnapshotOf(lease.value.mode, current) == lease.value.expected { Sign(signature); }
        }
      }
      armed := armed + {Network(generation, |log|)};
    }

    method Sign(signature: string)
      requires Valid() && lease.Some?
      modifies this`lease
      ensures Valid() && lease == Some(old(lease).value.(signature := signature))
    {
      var next := lease.value.(signature := signature);
      ChangeLeaseOwned(open - {}, lease.value, next, guards);
      lease := Some(next);
    }

    /** `recoverManagedProxy`: the settings are turned off only if they are still those of the record. */
    method Recover(luck: Luck) returns (ok: bool)
      requires Valid()
      modifies this`current, this`record, this`moments
      ensures Valid()
      ensures record == None || record == old(record)
      ensures luck.queried && luck.disabled && luck.removed ==> ok
      ensures old(record) == None || SnapshotOf(old(record).value.mode, old(current)) != old(record).value.expected ==>
              current == old(current)
      ensures ok ==>
              record == None &&
              (old(record).Some? && SnapshotOf(old(record).value.mode, old(current)) == old(record).value.expected ==>
              current == Off(old(current)))
    {
      if record == None { return true; }
      if !luck.queried { return false; }
      if SnapshotOf(record.value.mode, current) == record.value.expected {
        ok := DisableSettings(luck);
        if !ok { return; }
      }
      ok := RemoveRecord(luck);
    }

    method ScheduleRecovery()
      requires Valid()
      modifies this`recoveryGeneration, this`armed
      ensures Valid()
    {
      recoveryGeneration := recoveryGeneration + 1;
      armed := armed + {Recovery(recoveryGeneration)};
    }

    /** `ConfigureManagedProxyRecovery`. */
    method ConfigureRecovery(luck: Luck) returns (ok: bool)
      requires Valid()
      modifies this`current, this`record, this`recoveryGeneration, this`armed, this`moments
      ensures Valid() && (luck.queried && luck.disabled && luck.removed ==> ok)
      ensures ok ==> record == None
      ensures ok && old(record).Some? && Recoverable(Moment(old(current), old(record))) ==> current == Off(old(current))
      ensures !Recoverable(Moment(old(current), old(record))) ==> current == old(current)
    {
      recoveryGeneration := recoveryGeneration + 1;
      ok := Recover(luck);
      if !ok { ScheduleRecovery(); }
    }

    /** The retry; it does nothing once a lease exists or the retry was called off. */
    method FireRecovery(generation: nat, luck: Luck)
      requires Valid()
      modifies this`current, this`record, this`recoveryGeneration, this`armed, this`moments
      ensures Valid()
      ensures generation != old(recoveryGeneration) || lease.Some? ==>
              current == old(current) && record == old(record) && armed == old(armed)
    {
      if generation != recoveryGeneration || lease.Some? { return; }
      var ok := Recover(luck);
      if !ok { ScheduleRecovery(); }
    }

    /** The critical section of a guard that saw other settings. */
    method GuardRestore(generation: nat, luck: Luck)
      requires Valid() && generation in guards
      modifies this`log, this`current, this`moments
      ensures Valid()
      ensures if guards[generation].cancelled then log == old(log) && current == old(current)
              else log == old(log) + [Applied(Some(guards[generation].begun))] && current == if luck.applied then
                guards[generation].target else luck.leftover
    {
      if generation != guardGeneration { return; }
      var ok := Apply(guards[generation].target, luck, Some(guards[generation].begun), {});
    }

    /** A cancelled guard loop ends and closes its runner. */
    method GuardExit(generation: nat)
      requires Valid() && generation in guards && guards[generation].cancelled
      modifies this`guards, this`open, this`ledger
      ensures Valid() && guards == old(guards) - {generation} && open == old(open) - {old(guards)[generation].runner}
      ensures ledger.closed == old(ledger).closed + [old(guards)[generation].runner]
    {
      DropGuardOwned(open, lease, guards, generation);
      assert open - {} == open;
      Shut(guards[generation].runner);
      guards := guards - {generation};
    }
  }

  /** One critical section of a run. */
  datatype Section =
    | Set(mode: Mode, target: Config, guard: bool) | Disabling | Renewing | Preparing | Adopting(mode: Mode,
      target: Config, confirmed: bool, guard: bool)
    | Stopping | Configuring | Fire(timer: Timer,
      signature: string) | Restoring(generation: nat) | Exiting(generation: nat)
    | UserEdit(config: Config) | Pass(seconds: nat)

  method Perform(p: SystemProxy, section: Section, luck: Luck)
    requires p.Valid()
    modifies p
    ensures p.Valid()
  {
    var ok := true;
    match section
    case Set(mode, target, guard) => ok := p.SetProxy(mode, target, guard, luck);
    case Disabling => ok := p.Disable(luck);
    case Renewing => ok := p.Renew();
    case Preparing => p.PrepareNative(luck);
    case Adopting(mode, target, confirmed, guard) => ok := p.AdoptNative(mode, target, confirmed, guard, luck);
    case Stopping => ok := p.StopManaged(luck);
    case Configuring => ok := p.ConfigureRecovery(luck);
    case Fire(timer, signature) => if timer in p.armed { FireTimer(p, timer, signature, luck); }
    case Restoring(generation) => if generation in p.guards { p.GuardRestore(generation, luck); }
    case Exiting(generation) => if generation in p.guards && p.guards[generation].cancelled { p.GuardExit(generation); }
    case UserEdit(config) => p.Edit(config);
    case Pass(seconds) => p.clock := p.clock + seconds;
  }

  method FireTimer(p: SystemProxy, timer: Timer, signature: string, luck: Luck)
    requires p.Valid() && timer in p.armed
    modifies p
    ensures p.Valid()
  {
    match timer
    case Expiry(generation) => p.FireExpiry(generation, luck);
    case Network(generation, begun) => p.FireNetwork(generation, begun, signature, luck);
    case Recovery(generation) => p.FireRecovery(generation, luck);
  }

  /**
   Any interleaving of client calls, timers, guard loops and user edits: no background step begun before
   a completed disable, stop or expiry applies settings after it, every captured runner is open or has
   been closed, and that once, and each open one has exactly one owner.
   */
  method Run(p: SystemProxy, sections: seq<(Section, Luck)>)
    requires p.Valid()
    modifies p
    ensures Safe(p.log) && Owned(p.open, p.lease, p.guards) && Balanced(p.ledger) && p.ledger.open == p.open &&
            p.ledger.captured == p.nextRunner
  {
    for i := 0 to |sections|
      invariant p.Valid()
    {
      Perform(p, sections[i].0, sections[i].1);
    }
    assert p.open - {} == p.open;
  }

  /** The settings are those of the record. */
  predicate Recoverable(w: Moment) {
    w.record.Some? && SnapshotOf(w.record.value.mode, w.current) == w.record.value.expected
  }

  /**
   A crash at any moment of any run and a start-up whose calls work: the settings
   are turned off exactly if they are those of the record.
  */
  method CrashAndRecover(p: SystemProxy, w: Moment, luck: Luck) returns (next: SystemProxy)
    requires p.Valid() && w in p.moments && luck.queried && luck.disabled && luck.removed
    ensures fresh(next) && next.Valid() && next.record == None && next.lease == None
    ensures next.current == if Recoverable(w) then Off(w.current) else w.current
  {
    next := new SystemProxy(p.darwin, w.record, w.current, p.clock);
    var ok := next.ConfigureRecovery(luck);
  }

  /** Settings that were applied when no record had been written yet stay on after a crash. */
  method CrashBeforeRecord(mode: Mode, target: Config, before: Config, luck: Luck, later: Luck)
      returns (next: SystemProxy)
    requires luck.captured && luck.applied && later.queried && later.disabled && later.removed
    ensures next.current == target && next.record == None && next.lease == None
  {
    var p := new SystemProxy(false, None, before, 0);
    var ok := p.SetProxy(mode, target, false, luck);
    next := CrashAndRecover(p, Moment(target, None), later);
  }

  /** The lease can be given up: its settings are gone already or can be turned off. */
  predicate Releasable(lease: Lease, current: Config, luck: Luck) {
    luck.queried && (SnapshotOf(lease.mode, current) != lease.expected || luck.disabled)
  }

  /** A lease that follows the network applies its settings when the signature changes. */
  predicate Moves(lease: Lease, signature: string, luck: Luck) {
    luck.signed && signature != "" && lease.signature != "" && lease.signature != signature
  }

  function Off(config: Config): Config {
    config.(proxyEnable := false, pacEnable := false)
  }

  lemma LeaseTaken(log: seq<Event>, generation: nat, armed: set<Timer>, next: Lease)
    requires Leased(log, None, generation, armed) && next.generation == generation + 1 && next.begun == |log|
    ensures Leased(log, Some(next), generation + 1, armed + {Expiry(generation + 1)} + {})
    ensures Leased(log, Some(next), generation + 1, armed + {Expiry(generation + 1)} + {Network(generation + 1, |log|)})
  {
  }

  lemma QuietLater(log: seq<Event>, since: nat, later: nat)
    requires Quiet(log, since) && since <= later <= |log|
    ensures Quiet(log, later)
  {
  }

  lemma LogGrows(log: seq<Event>, event: Event, guards: map<nat, Guard>, generation: nat, current: Option<nat>,
      lease: Option<Lease>, leaseGeneration: nat, armed: set<Timer>)
    requires event != Completed && Guarded(log, guards, generation, current) &&
             Leased(log, lease, leaseGeneration, armed)
    ensures Guarded(log + [event], guards, generation, current) && Leased(log + [event], lease, leaseGeneration, armed)
  {
    if generation in guards { QuietNext(log, event, guards[generation].begun); }
    if lease.Some? { QuietNext(log, event, lease.value.begun); }
  }
}
