/**
 The crash-recoverable DNS lease of route/dnsapi/lease.go.

 Every operating-system call consumes one `Moment` of an arbitrary script: what the user
 edits just before the call, which network service is active, and whether the call works,
 fails without effect, or fails after taking effect. A world is logged after every change,
 so a statement about all logged worlds is a statement about a crash at any point.
 */
module DnsLease {
  import opened Wrappers

  type Servers = seq<string>

  datatype Service = Service(id: string, name: string)

  datatype Entry = Entry(service: Service, original: Servers, desired: Servers, applied: bool)

  datatype Lease = Lease(version: int, deadline: int, entries: seq<Entry>)

  const LEASE_DURATION := 60

  datatype Fault = Works | FailsBefore | FailsAfter

  /** What the outside world does around one operating-system call. */
  datatype Moment = Moment(edits: map<string, Servers>, active: Option<Service>, fault: Fault)

  /**
   `live` and `user` are keyed by service name: the setting in force, and the last one the
   user chose. `record` is the file as a reader sees it; `durable` holds every content the
   file may have after a crash (a rename or removal whose directory sync failed may be lost).
   */
  datatype World = World(live: map<string, Servers>, user: map<string, Servers>, record: Option<Lease>,
      durable: set<Option<Lease>>)

  /** One DNS write: the value it replaced, the value it wrote and the user's choice then. */
  datatype Write = Write(name: string, before: Servers, after: Servers, user: Servers)

  /** What an entry promises about the service of one name. */
  datatype Promise = Promise(original: Servers, desired: Servers)

  type Promises = map<string, Promise>

  function PromisesOf(entries: seq<Entry>): Promises {
    if entries == [] then map[]
    else
      var last := entries[|entries| - 1];
      PromisesOf(entries[..|entries| - 1])[last.service.name := Promise(last.original, last.desired)]
  }

  function RecordPromises(r: Option<Lease>): Promises {
    if r.Some? then PromisesOf(r.value.entries) else map[]
  }

  predicate AllIP(isIP: string -> bool, servers: Servers) {
    forall s :: s in servers ==> isIP(s)
  }

  predicate ValidServers(isIP: string -> bool, servers: Servers) {
    1 <= |servers| <= 4 && AllIP(isIP, servers)
  }

  /** The checks `recover` makes on a decoded record. */
  predicate Decodable(isIP: string -> bool, l: Lease) {
    && l.version == 1 && 1 <= |l.entries| <= 8
    && forall e :: e in l.entries ==>
         e.service.id != "" && e.service.name != "" && ValidServers(isIP, e.desired) && AllIP(isIP, e.original)
  }

  ghost predicate Distinct(entries: seq<Entry>) {
    forall i, j :: 0 <= i < j < |entries| ==>
      entries[i].service.id != entries[j].service.id && entries[i].service.name != entries[j].service.name
  }

  /** The facts about the outside that never change: address syntax and the network services. */
  datatype Setting = Setting(isIP: string -> bool, services: set<Service>) {
    /** Service identifiers and names correspond one to one and are never empty. */
    ghost predicate OneToOne() {
      && (forall s :: s in services ==> s.id != "" && s.name != "")
      && forall s, t :: s in services && t in services ==> (s.id == t.id <==> s.name == t.name)
    }

    /** A held lease: one to eight entries, distinct services, one common `desired`. */
    ghost predicate LeaseOk(l: Lease) {
      && Decodable(isIP, l) && Distinct(l.entries)
      && (forall e :: e in l.entries ==> e.service in services && e.desired == l.entries[0].desired)
    }

    /** Whatever the file holds after a crash, it accounts for every service. */
    ghost predicate Safe(w: World) {
      && w.live.Keys == w.user.Keys && w.record in w.durable
      && (forall n :: n in w.live ==> AllIP(isIP, w.live[n]) && AllIP(isIP, w.user[n]))
      && forall r :: r in w.durable ==>
           && (r.Some? ==> LeaseOk(r.value))
           && Settled(w, RecordPromises(r)) && NotPicked(w, RecordPromises(r))
    }

    /** `Safe`, with `held` the promises the manager answers for in memory. */
    ghost predicate Good(w: World, held: Promises) {
      && Safe(w) && Settled(w, held)
      && forall r :: r in w.durable ==> Included(held, RecordPromises(r))
    }
  }

  /** Each service runs the user's value, or a promised `desired` whose `original` is that value. */
  ghost predicate Settled(w: World, promised: Promises) {
    forall n :: n in w.live && n in w.user ==>
      w.live[n] == w.user[n] || (n in promised && promised[n] == Promise(w.user[n], w.live[n]))
  }

  /** The user has not picked exactly a promised `desired`, unless it was the original anyway. */
  ghost predicate NotPicked(w: World, promised: Promises) {
    forall n :: n in promised ==>
      n in w.live && n in w.user && (w.user[n] == promised[n].desired ==> promised[n].original == promised[n].desired)
  }

  ghost predicate Included(some: Promises, all: Promises) {
    forall n :: n in some ==> n in all && all[n] == some[n]
  }

  /** May the user set `n` to `v` now? Not a protected service, and not exactly a promised `desired`. */
  predicate Admissible(isIP: string -> bool, w: World, lease: Option<Lease>, n: string, v: Servers,
      protect: set<string>) {
    && n !in protect && AllIP(isIP, v)
    && (n in RecordPromises(lease) ==> RecordPromises(lease)[n].desired != v)
    && forall r :: r in w.durable ==> n in RecordPromises(r) ==> RecordPromises(r)[n].desired != v
  }

  /** The admissible edits of one moment land, in force and as the user's choice. */
  function EditWorld(isIP: string -> bool, w: World, lease: Option<Lease>, edits: map<string, Servers>,
      protect: set<string>): World {
    var landing := map n | n in edits && n in w.live && Admissible(isIP, w, lease, n, edits[n], protect) :: edits[n];
    w.(live := w.live + landing, user := w.user + landing)
  }

  lemma EditKeepsPromise(isIP: string -> bool, w: World, lease: Option<Lease>, edits: map<string, Servers>,
      protect: set<string>, promised: Promises)
    requires w.live.Keys == w.user.Keys && Settled(w, promised)
    ensures Settled(EditWorld(isIP, w, lease, edits, protect), promised)
  {
  }

  lemma EditKeepsNotPicked(isIP: string -> bool, w: World, lease: Option<Lease>, edits: map<string, Servers>,
      protect: set<string>, r: Option<Lease>)
    requires w.live.Keys == w.user.Keys && NotPicked(w, RecordPromises(r)) && (r == lease || r in w.durable)
    ensures NotPicked(EditWorld(isIP, w, lease, edits, protect), RecordPromises(r))
  {
  }

  lemma EditKeepsSafe(s: Setting, w: World, lease: Option<Lease>, edits: map<string, Servers>, protect: set<string>)
    requires s.Safe(w)
    ensures s.Safe(EditWorld(s.isIP, w, lease, edits, protect))
  {
    var after := EditWorld(s.isIP, w, lease, edits, protect);
    assert after.live.Keys == w.live.Keys && after.user.Keys == w.user.Keys;
    forall r | r in after.durable ensures Settled(after, RecordPromises(r)) && NotPicked(after, RecordPromises(r)) {
      EditKeepsPromise(s.isIP, w, lease, edits, protect, RecordPromises(r));
      EditKeepsNotPicked(s.isIP, w, lease, edits, protect, r);
    }
  }

  /** User edits keep every promise good. */
  lemma EditKeepsGood(s: Setting, w: World, lease: Option<Lease>, edits: map<string, Servers>, protect: set<string>,
      held: Promises)
    requires s.Good(w, held) && NotPicked(w, RecordPromises(lease))
    ensures s.Good(EditWorld(s.isIP, w, lease, edits, protect), held)
    ensures NotPicked(EditWorld(s.isIP, w, lease, edits, protect), RecordPromises(lease))
  {
    EditKeepsSafe(s, w, lease, edits, protect);
    EditKeepsPromise(s.isIP, w, lease, edits, protect, held);
    EditKeepsNotPicked(s.isIP, w, lease, edits, protect, lease);
  }

  function WriteWorld(w: World, name: string, servers: Servers): World {
    w.(live := w.live[name := servers])
  }

  /** A service may be given the user's value, or a promised `desired` in place of it. */
  ghost predicate MayWrite(w: World, name: string, servers: Servers, held: Promises) {
    && name in w.live && name in w.user
    && (servers == w.user[name] ||
        (w.live[name] == w.user[name] && name in held && held[name] == Promise(w.user[name], servers)))
  }

  lemma WriteKeepsGood(s: Setting, w: World, name: string, servers: Servers, held: Promises)
    requires s.Good(w, held) && MayWrite(w, name, servers, held) && AllIP(s.isIP, servers)
    ensures s.Good(WriteWorld(w, name, servers), held)
  {
    var after := WriteWorld(w, name, servers);
    forall r | r in after.durable ensures Settled(after, RecordPromises(r)) && NotPicked(after, RecordPromises(r)) {
      assert Settled(w, RecordPromises(r)) && NotPicked(w, RecordPromises(r)) && Included(held, RecordPromises(r));
    }
  }

  /** The file is replaced (or removed); unless the directory sync worked, a crash may still undo that. */
  function SaveWorld(w: World, r: Option<Lease>, synced: bool): World {
    w.(record := r, durable := if synced then {r} else w.durable + {r})
  }

  lemma SaveKeepsGood(s: Setting, w: World, r: Option<Lease>, synced: bool, held: Promises)
    requires s.Good(w, held) && Included(held, RecordPromises(r)) && NotPicked(w, RecordPromises(r))
    requires r.Some? ==> s.LeaseOk(r.value)
    ensures s.Good(SaveWorld(w, r, synced), held)
  {
    var after := SaveWorld(w, r, synced);
    forall x | x in after.durable ensures Settled(after, RecordPromises(x)) && NotPicked(after, RecordPromises(x)) {
      if x != r {
        assert x in w.durable && Settled(w, RecordPromises(x)) && NotPicked(w, RecordPromises(x));
      }
    }
  }

  /** What distinct entries promise, entry by entry. */
  lemma {:induction false} PromiseOfEntry(entries: seq<Entry>, i: nat)
    requires Distinct(entries) && i < |entries|
    ensures entries[i].service.name in PromisesOf(entries)
    ensures PromisesOf(entries)[entries[i].service.name] == Promise(entries[i].original, entries[i].desired)
  {
    var front := entries[..|entries| - 1];
    if i < |front| {
      PromiseOfEntry(front, i);
      assert entries[i].service.name != entries[|front|].service.name;
    }
  }

  lemma {:induction false} PromisedByEntry(entries: seq<Entry>, n: string)
    requires n in PromisesOf(entries)
    ensures exists i :: 0 <= i < |entries| && entries[i].service.name == n
  {
    var last := |entries| - 1;
    if entries[last].service.name != n {
      PromisedByEntry(entries[..last], n);
    }
  }

  /** Marking an entry as applied changes no promise. */
  lemma {:induction false} PromisesApplied(entries: seq<Entry>, k: nat)
    requires k < |entries|
    ensures PromisesOf(entries[k := entries[k].(applied := true)]) == PromisesOf(entries)
  {
    var after := entries[k := entries[k].(applied := true)];
    var last := |entries| - 1;
    if k == last {
      assert after[..last] == entries[..last];
    } else {
      assert after[..last] == entries[..last][k := entries[k].(applied := true)];
      PromisesApplied(entries[..last], k);
    }
  }

  /** A promise about a service that already runs the user's value is not needed. */
  lemma SettledWithout(w: World, held: Promises, n: string)
    requires Settled(w, held) && n in w.live && n in w.user && w.live[n] == w.user[n]
    ensures Settled(w, held - {n})
  {
  }

  /** The promises of some of the entries are among the promises of all. */
  lemma {:induction false} FewerEntries(all: seq<Entry>, some: seq<Entry>, n: string)
    requires Distinct(all) && Distinct(some) && (forall e :: e in some ==> e in all)
    requires n in PromisesOf(some)
    ensures n in PromisesOf(all) && PromisesOf(all)[n] == PromisesOf(some)[n]
  {
    PromisedByEntry(some, n);
    var i :| 0 <= i < |some| && some[i].service.name == n;
    assert some[i] in some;
    var j :| 0 <= j < |all| && all[j] == some[i];
    PromiseOfEntry(some, i);
    PromiseOfEntry(all, j);
  }

  lemma {:induction false} StillPromised(all: seq<Entry>, some: seq<Entry>, n: string)
    requires Distinct(all) && Distinct(some) && n in PromisesOf(all)
    requires forall j :: 0 <= j < |all| && all[j].service.name == n ==> all[j] in some
    ensures n in PromisesOf(some) && PromisesOf(some)[n] == PromisesOf(all)[n]
  {
    PromisedByEntry(all, n);
    var j :| 0 <= j < |all| && all[j].service.name == n;
    var i :| 0 <= i < |some| && some[i] == all[j];
    PromiseOfEntry(some, i);
    PromiseOfEntry(all, j);
  }

  /** After a sweep over `all`, the entries kept make exactly the promises still held. */
  lemma {:induction false} SweepKeepsPromises(all: seq<Entry>, held: Promises, remaining: seq<Entry>)
    requires Distinct(all) && Distinct(remaining) && Included(held, PromisesOf(all))
    requires forall e :: e in remaining ==> e in all
    requires forall j :: 0 <= j < |all| && all[j].service.name in held ==> all[j] in remaining
    ensures Included(held, PromisesOf(remaining)) && Included(PromisesOf(remaining), PromisesOf(all))
  {
    forall n | n in held ensures n in PromisesOf(remaining) && PromisesOf(remaining)[n] == held[n] {
      StillPromised(all, remaining, n);
    }
    forall n | n in PromisesOf(remaining) ensures n in PromisesOf(all) &&
      PromisesOf(all)[n] == PromisesOf(remaining)[n] {
      FewerEntries(all, remaining, n);
    }
  }

  /**
   What a service runs after its entry is restored: the original in place
   of the desired servers, and nothing else.
  */
  function PutBack(p: Promise, current: Servers): Servers {
    if current == p.desired then p.original else current
  }

  /** The same for every promise. */
  function PutBackAll(live: map<string, Servers>, held: Promises): map<string, Servers> {
    map n | n in live :: if n in held then PutBack(held[n], live[n]) else live[n]
  }

  /** The service of an entry runs what restoring makes of its servers; the others are as before. */
  ghost predicate Replaced(w: World, w': World, e: Entry) {
    e.service.name in w.live &&
      w'.live == w.live[e.service.name := PutBack(Promise(e.original, e.desired), w.live[e.service.name])]
  }

  /** The first i entries have been restored and nothing else has happened. */
  ghost predicate RestoredUpTo(start: World, w: World, all: seq<Entry>, i: nat) {
    i <= |all| && w.live == PutBackAll(start.live, PromisesOf(all[..i]))
  }

  lemma RestoredNone(w: World, all: seq<Entry>)
    ensures RestoredUpTo(w, w, all, 0)
  {
    assert all[..0] == [] && PutBackAll(w.live, map[]) == w.live;
  }

  lemma RestoredNext(start: World, w: World, w': World, all: seq<Entry>, i: nat)
    requires Distinct(all) && i < |all| && RestoredUpTo(start, w, all, i) && Replaced(w, w', all[i])
    ensures RestoredUpTo(start, w', all, i + 1)
  {
    var name := all[i].service.name;
    assert all[..i + 1][..i] == all[..i] && all[..i + 1][i] == all[i];
    assert name !in PromisesOf(all[..i]) by { if name in PromisesOf(all[..i]) { PromisedByEntry(all[..i], name); } }
    assert w'.live == PutBackAll(start.live, PromisesOf(all[..i + 1]));
  }

  /** One of the entries is for the service. */
  ghost predicate HasEntry(entries: seq<Entry>, service: Service) {
    exists i :: 0 <= i < |entries| && entries[i].service == service
  }

  /** The service has no entry, or one that was never applied and that the user has not touched. */
  ghost predicate Untaken(w: World, entries: seq<Entry>, service: Service) {
    forall e :: e in entries && e.service.id == service.id ==>
      !e.applied && e.service.name in w.live && w.live[e.service.name] == e.original
  }

  /** Only that service's DNS may have changed. */
  ghost predicate OthersKept(before: World, after: World, name: string) {
    forall n :: n in before.live && n != name ==> n in after.live && after.live[n] == before.live[n]
  }

  /** The active service's DNS is as it was. */
  ghost predicate ActiveKept(before: World, after: World, all: seq<Entry>, active: Option<string>) {
    forall e :: e in all && active == Some(e.service.id) && e.service.name in before.live ==>
      e.service.name in after.live && after.live[e.service.name] == before.live[e.service.name]
  }

  lemma ActiveKeptStep(before: World, middle: World, after: World, all: seq<Entry>, active: Option<string>, i: nat)
    requires Distinct(all) && i < |all| && active != Some(all[i].service.id)
    requires ActiveKept(before, middle, all, active) && OthersKept(middle, after, all[i].service.name)
    ensures ActiveKept(before, after, all, active)
  {
    forall e | e in all && active == Some(e.service.id) && e.service.name in before.live
      ensures e.service.name in after.live && after.live[e.service.name] == before.live[e.service.name]
    {
      assert e.service.name != all[i].service.name;
    }
  }

  class Manager {
    const s: Setting
    const script: nat -> Moment
    var configured: bool
    var lease: Option<Lease>
    var world: World
    var clock: nat
    var trace: seq<World>
    var writes: seq<Write>

    /** Every world so far was safe, and no write ever replaced a value that is neither the
        user's own nor the lease's. */
    ghost predicate History()
      reads this`trace, this`writes
    {
      && s.OneToOne()
      && (forall w :: w in trace ==> s.Safe(w))
      && (forall x :: x in writes ==> x.after == x.user || x.before == x.user)
    }

    /** What holds between two calls made under the lock. */
    ghost predicate Inside(held: Promises)
      reads this`trace, this`writes, this`world, this`lease
    {
      History() && world in trace && s.Good(world, held) && NotPicked(world, RecordPromises(lease))
    }

    /** What holds whenever the lock is free. */
    ghost predicate Valid()
      reads this`trace, this`writes, this`world, this`lease
    {
      Inside(RecordPromises(lease)) && (lease.Some? ==> s.LeaseOk(lease.value))
    }

    /** The backend and the disk work from now on. */
    ghost predicate Working()
      reads this`clock
    {
      forall k :: clock <= k ==> script(k).fault.Works?
    }

    /** The user edits nothing. */
    ghost predicate Quiet()
    {
      forall k :: script(k).edits == map[]
    }

    /** The service starts over a world left by a crash; `found` is what the disk then holds. */
    constructor Restart(s: Setting, script: nat -> Moment, w: World, found: Option<Lease>)
      requires s.OneToOne() && s.Safe(w) && found in w.durable
      ensures this.s == s && this.script == script
      ensures clock == 0 && writes == [] && lease == None
      ensures world == World(w.live, w.user, found, {found}) && trace == [world]
      ensures History() && s.Safe(world)
    {
      this.s, this.script := s, script;
      configured, lease, clock, writes := false, None, 0, [];
      world := World(w.live, w.user, found, {found});
      trace := [World(w.live, w.user, found, {found})];
    }

    /** The world changes to `next`, which a crash may then find. */
    method Become(next: World, ghost held: Promises, write: Option<Write>)
      requires History() && s.Good(next, held) && NotPicked(next, RecordPromises(lease))
      requires write.Some? ==> write.value.after == write.value.user || write.value.before == write.value.user
      modifies this`world, this`trace, this`writes
      ensures Inside(held) && world == next && trace == old(trace) + [next]
      ensures writes == old(writes) + if write.Some? then [write.value] else []
    {
      world := next;
      trace := trace + [next];
      if write.Some? {
        writes := writes + [write.value];
      }
    }

    /** One moment passes: the user's admissible edits land. */
    method Tick(protect: set<string>, ghost held: Promises) returns (moment: Moment)
      requires Inside(held)
      modifies this`world, this`clock, this`trace, this`writes
      ensures Inside(held)
      ensures moment == old(script(clock)) && clock == old(clock) + 1
      ensures world == EditWorld(s.isIP, old(world), lease, moment.edits, protect)
      ensures Quiet() ==> world == old(world)
    {
      hide Setting.Good, Setting.Safe;
      moment := script(clock);
      EditKeepsGood(s, world, lease, moment.edits, protect, held);
      Become(EditWorld(s.isIP, world, lease, moment.edits, protect), held, None);
      clock := clock + 1;
      assert Quiet() ==> script(clock - 1).edits == map[];
    }

    method ActiveService(ghost held: Promises) returns (active: Option<Service>)
      requires Inside(held)
      modifies this`world, this`clock, this`trace, this`writes
      ensures Inside(held) && clock >= old(clock) && (Quiet() ==> world == old(world))
      ensures active.Some? ==> active.value in s.services
    {
      var moment := Tick({}, held);
      active := if moment.fault.Works? && moment.active.Some? && moment.active.value in s.services then
        moment.active else None;
    }

    method GetDns(name: string, ghost held: Promises) returns (current: Option<Servers>)
      requires Inside(held)
      modifies this`world, this`clock, this`trace, this`writes
      ensures Inside(held) && clock == old(clock) + 1
      ensures world.durable == old(world).durable && world.live.Keys == old(world).live.Keys
      ensures current.Some? ==> name in world.live && current.value == world.live[name]
      ensures old(name in world.live && script(clock).fault.Works?) ==> current.Some?
      ensures Quiet() ==> world == old(world)
    {
      var moment := Tick({}, held);
      current := if moment.fault.Works? && name in world.live then Some(world.live[name]) else None;
    }

    /** Writes one service's DNS; the user does not edit that service meanwhile. */
    method SetDns(name: string, servers: Servers, ghost held: Promises) returns (ok: bool)
      requires Inside(held) && MayWrite(world, name, servers, held) && AllIP(s.isIP, servers)
      modifies this`world, this`clock, this`trace, this`writes
      ensures Inside(held) && clock == old(clock) + 1
      ensures world.durable == old(world).durable && world.live.Keys == old(world).live.Keys
      ensures world.user[name] == old(world).user[name]
      ensures ok ==> world.live[name] == servers
      ensures Quiet() ==> OthersKept(old(world), world, name)
      ensures Quiet() && ok ==> world.live == old(world).live[name := servers]
      ensures old(script(clock).fault.Works?) ==> ok
    {
      hide Setting.Good, Setting.Safe;
      var moment := Tick({name}, held);
      ok := moment.fault.Works?;
      if !moment.fault.FailsBefore? {
        WriteKeepsGood(s, world, name, servers, held);
        Become(WriteWorld(world, name, servers), held, Some(Write(name, world.live[name], servers, world.user[name])));
      }
    }

    /** Replaces the durable record by the lease in memory. */
    method Persist(protect: set<string>, ghost held: Promises) returns (ok: bool)
      requires Inside(held) && lease.Some? && s.LeaseOk(lease.value) && Included(held, RecordPromises(lease))
      modifies this`world, this`clock, this`trace, this`writes
      ensures Inside(held) && clock >= old(clock)
      ensures ok ==> world.durable == {lease} && Inside(RecordPromises(lease))
      ensures Quiet() ==> world.live == old(world).live
      ensures world.live.Keys == old(world).live.Keys && world.user.Keys == old(world).user.Keys
      ensures forall n :: n in protect && n in world.live && n in world.user ==>
                world.live[n] == old(world).live[n] && world.user[n] == old(world).user[n]
    {
      hide Setting.Good, Setting.Safe;
      GoodKeys(s, world, held);
      var moment := Tick(protect, held);
      GoodKeys(s, world, held);
      ok := moment.fault.Works?;
      if !moment.fault.FailsBefore? {
        SaveKeepsGood(s, world, lease, ok, held);
        Become(SaveWorld(world, lease, ok), held, None);
        if ok { GoodSaved(s, world, lease, held); }
      }
    }

    method RemoveRecord() returns (ok: bool)
      requires Inside(map[]) && lease == None
      modifies this`world, this`clock, this`trace, this`writes
      ensures Inside(map[]) && (Quiet() ==> world.live == old(world).live)
      ensures ok ==> world.record == None && world.durable == if old(world).record.Some? then {None}
              else old(world).durable
      ensures old(script(clock).fault.Works?) ==> ok
    {
      var moment := Tick({}, map[]);
      if world.record == None { return true; }
      ok := moment.fault.Works?;
      if !moment.fault.FailsBefore? {
        SaveKeepsGood(s, world, None, ok, map[]);
        Become(SaveWorld(world, None, ok), map[], None);
      }
    }

    /** Puts the user's value back where the lease's value is in force, and touches nothing else. */
    method Restore(item: Entry, ghost held: Promises) returns (ok: bool)
      requires Inside(held) && item.service.name in held && AllIP(s.isIP, item.original)
      requires held[item.service.name] == Promise(item.original, item.desired)
      requires item.service.name in world.live
      modifies this`world, this`clock, this`trace, this`writes
      ensures Inside(held) && world.durable == old(world).durable && clock >= old(clock)
      ensures world.live.Keys == old(world).live.Keys
      ensures ok ==> Inside(held - {item.service.name})
      ensures Quiet() ==> OthersKept(old(world), world, item.service.name)
      ensures old(Working()) ==> ok
      ensures Quiet() && ok ==> Replaced(old(world), world, item)
    {
      var name := item.service.name;
      var current := GetDns(name, held);
      if current == None {
        return false;
      }
      if current.value != item.desired || current.value == item.original {
        SettledWithout(world, held, name);
        assert world.live[name := world.live[name]] == world.live;
        return true;
      }
      RestoreGivesBack(s, world, lease, held, name);
      ok := SetDns(name, item.original, held);
      if ok {
        SettledWithout(world, held, name);
      }
    }

    /**
     The filter loops of `release` (`active` is None) and `reconcile`: restore every other
     service, compacting the entries still to be restored into the front of the same slice.
     */
    method RestoreExcept(active: Option<string>) returns (remaining: seq<Entry>, changed: bool)
      requires Valid() && lease.Some?
      modifies this`world, this`clock, this`trace, this`writes
      ensures History() && world in trace && NotPicked(world, RecordPromises(lease))
      ensures s.Good(world, PromisesOf(remaining))
      ensures Included(PromisesOf(remaining), RecordPromises(lease)) && clock >= old(clock)
      ensures world.durable == old(world).durable
      ensures |remaining| > 0 ==> s.LeaseOk(lease.value.(entries := remaining))
      ensures active.Some? ==> forall e :: e in lease.value.entries && e.service.id == active.value ==> e in remaining
      ensures Quiet() ==> ActiveKept(old(world), world, lease.value.entries, active)
      ensures Quiet() && old(Working()) && active.None? ==>
              world.live == PutBackAll(old(world).live, PromisesOf(lease.value.entries))
      ensures old(Working()) && active.None? ==> remaining == []
      ensures old(Working()) && active.Some? ==> |remaining| <= 1
    {
      hide History, Setting.Good, Setting.Safe, NotPicked, PutBackAll, Sweeping, ActiveKept, RestoredUpTo, OnlyActive;
      ghost var all := lease.value.entries;
      ghost var held := PromisesOf(all);
      GoodKeys(s, world, held);
      SweepStart(all, active);
      RestoredNone(world, all);
      KeptItself(world, all, active);
      var slots, kept: nat, i: nat := lease.value.entries, 0, 0;
      changed := false;
      while i < |slots|
        invariant kept <= i <= |slots| == |all| && Sweeping(slots, kept, all, i, held, active)
        invariant Inside(held) && world.durable == old(world).durable && clock >= old(clock)
        invariant Quiet() ==> ActiveKept(old(world), world, all, active)
        invariant Quiet() && old(Working()) && active.None? ==> RestoredUpTo(old(world), world, all, i)
        invariant old(Working()) ==> OnlyActive(slots, kept, active)
      {
        var restored;
        SweepNext(slots, kept, all, i, held, active);
        slots, kept, restored, held := SweepEntry(slots, kept, all, i, held, active, old(world));
        changed := changed || restored;
        i := i + 1;
      }
      remaining := slots[..kept];
      assert all[..|all|] == all;
      SweepDone(s, world, slots, kept, all, held, active, lease.value);
      if OnlyActive(slots, kept, active) { OnlyActiveAtMostOne(slots, kept, active); }
      if RestoredUpTo(old(world), world, all, |all|) { RestoredAll(old(world), world, all); }
    }

    /** One step of the sweep: entry `i` is restored, or kept in the next free slot. */
    method SweepEntry(slots: seq<Entry>, kept: nat, ghost all: seq<Entry>, i: nat, ghost held: Promises,
        active: Option<string>, ghost start: World) returns (slots': seq<Entry>, kept': nat, restored: bool,
        ghost held': Promises)
      requires Inside(held) && Sweeping(slots, kept, all, i, held, active) && i < |slots|
      requires AllIP(s.isIP, slots[i].original) && (Quiet() ==> ActiveKept(start, world, all, active))
      modifies this`world, this`clock, this`trace, this`writes
      ensures Inside(held') && world.durable == old(world).durable && clock >= old(clock)
      ensures |slots'| == |slots| && Sweeping(slots', kept', all, i + 1, held', active)
      ensures Quiet() ==> ActiveKept(start, world, all, active)
      ensures Quiet() && old(Working()) && active.None? && old(RestoredUpTo(start, world, all, i)) ==>
              RestoredUpTo(start, world, all, i + 1)
      ensures old(Working()) && OnlyActive(slots, kept, active) ==> OnlyActive(slots', kept', active)
    {
      NextEntry(slots, kept, all, i, held, active);
      restored, held' := false, held;
      if active != Some(slots[i].service.id) {
        HeldIsLive(s, world, held, slots[i].service.name);
        restored := Restore(slots[i], held);
        if Quiet() { ActiveKeptStep(start, old(world), world, all, active, i); }
        if Quiet() && restored &&
          RestoredUpTo(start, old(world), all, i) { RestoredNext(start, old(world), world, all, i); }
        if restored {
          SweepDrop(slots, kept, all, i, held, active);
          return slots, kept, true, held - {slots[i].service.name};
        }
      }
      SweepKeep(slots, kept, all, i, held, active);
      slots', kept' := slots[kept := slots[i]], kept + 1;
    }

    method Release() returns (ok: bool)
      requires Valid()
      modifies this`lease, this`world, this`clock, this`trace, this`writes
      ensures Valid() && (lease == None ==> Settled(world, map[]))
      ensures ok ==> lease == None && (old(lease).Some? ==> world.durable == {None})
      ensures old(Working() && lease.Some?) ==> ok
      ensures Quiet() && old(Working()) ==> world.live == Recovered(old(world), old(lease))
    {
      hide Setting.Good, Setting.Safe;
      if lease == None {
        GoodKeys(s, world, map[]);
        assert Recovered(world, None) == world.live;
        return true;
      }
      HeldIsRecorded(s, world, lease.value);
      var remaining, _ := RestoreExcept(None);
      if |remaining| > 0 {
        lease := Some(lease.value.(entries := remaining));
        ok := Persist({}, PromisesOf(remaining));
        return false;
      }
      lease := None;
      GoodKeys(s, world, map[]);
      ok := RemoveRecord();
      GoodKeys(s, world, map[]);
    }

    method Renew(now: int) returns (ok: bool)
      requires Valid()
      modifies this`lease, this`world, this`clock, this`trace, this`writes
      ensures Valid() && (ok ==> lease.Some? && world.durable == {lease})
      ensures old(lease).Some? ==> lease == Some(old(lease).value.(deadline := now + LEASE_DURATION))
    {
      if lease == None { return false; }
      lease := Some(lease.value.(deadline := now + LEASE_DURATION));
      ok := Persist({}, RecordPromises(lease));
    }

    /** The service the lease was taken on runs `servers`. */
    ghost predicate InForce(servers: Servers)
      reads this`lease, this`world
    {
      && lease.Some? && |lease.value.entries| > 0
      && lease.value.entries[0].service.name in world.live && world.live[lease.value.entries[0].service.name] == servers
    }

    method Set(servers: Servers, now: int) returns (ok: bool)
      requires Valid() && ValidServers(s.isIP, servers)
      modifies this`lease, this`world, this`clock, this`trace, this`writes
      ensures Valid()
      ensures ok ==> lease.Some? && lease.value.entries[0].desired == servers && world.durable == {lease}
      ensures ok && Quiet() && !old(lease.Some? && lease.value.entries[0].desired == servers) ==> InForce(servers)
    {
      if !configured { return false; }
      if lease.Some? {
        if lease.value.entries[0].desired == servers {
          ok := Renew(now);
          return;
        }
        ok := Release();
        if !ok { return; }
      }
      ok := Begin(servers, now);
    }

    /** A first lease: the record is written before the DNS, so that a crash can restore the original. */
    method Begin(servers: Servers, now: int) returns (ok: bool)
      requires Valid() && lease == None && ValidServers(s.isIP, servers)
      modifies this`lease, this`world, this`clock, this`trace, this`writes
      ensures Valid()
      ensures ok ==> lease.Some? && lease.value.entries[0].desired == servers && world.durable == {lease}
      ensures ok && Quiet() ==> InForce(servers)
    {
      hide Setting.Good, Setting.Safe;
      var active := ActiveService(map[]);
      if active == None { return false; }
      var service := active.value;
      var original := GetDns(service.name, map[]);
      if original == None { return false; }
      lease := Some(Lease(1, now + LEASE_DURATION, [Entry(service, original.value, servers, false)]));
      FirstLease(s, world, lease.value);
      ok := Persist({service.name}, map[]);
      if !ok {
        lease := None;
        return;
      }
      ok := Activate(service.name, servers);
    }

    /** The recorded lease takes effect; if the write fails it is undone. */
    method Activate(name: string, servers: Servers) returns (ok: bool)
      requires Valid() && lease.Some? && lease.value.entries[0].desired == servers
      requires MayWrite(world, name, servers, RecordPromises(lease)) && AllIP(s.isIP, servers)
      modifies this`lease, this`world, this`clock, this`trace, this`writes
      ensures Valid()
      ensures ok ==> lease.Some? && lease.value.entries[0].desired == servers && world.durable == {lease}
      ensures ok ==> lease.value.entries[0].service == old(lease).value.entries[0].service
      ensures ok && Quiet() ==> name in world.live && world.live[name] == servers
    {
      ok := SetDns(name, servers, RecordPromises(lease));
      if !ok {
        var _ := Release();
        return false;
      }
      MarkApplied(0);
      ok := Persist({}, RecordPromises(lease));
    }

    method MarkApplied(k: nat)
      requires Valid() && lease.Some? && k < |lease.value.entries|
      modifies this`lease
      ensures Valid() && lease.Some? && RecordPromises(lease) == RecordPromises(old(lease))
      ensures lease.value.entries == old(lease).value.entries[k := old(lease).value.entries[k].(applied := true)]
    {
      PromisesApplied(lease.value.entries, k);
      AppliedLeaseOk(s, lease.value, k);
      lease := Some(lease.value.(entries := lease.value.entries[k := lease.value.entries[k].(applied := true)]));
    }

    /** Follows the active network service: takes it over, and restores the ones left behind. */
    method Reconcile() returns (ok: bool, active: Option<Service>)
      requires Valid() && lease.Some?
      modifies this`lease, this`world, this`clock, this`trace, this`writes
      ensures Valid() && lease.Some?
      ensures ok ==> active.Some? && HasEntry(lease.value.entries, active.value)
      ensures old(Working()) && ok ==> |lease.value.entries| == 1
      ensures ok && Quiet() && Untaken(old(world), old(lease).value.entries, active.value) ==>
              InUse(active.value, old(lease).value.entries[0].desired)
    {
      hide Setting.Good, Setting.Safe;
      ok := false;
      active := ActiveService(RecordPromises(lease));
      if active == None { return; }
      var changed;
      ok, changed := TakeActive(active.value);
      if !ok { return; }
      ok := LeaveOthers(active.value, changed);
    }

    /**
     The active service joins the lease, if it has no entry, and runs the
     leased servers unless the user has changed them.
    */
    method TakeActive(service: Service) returns (ok: bool, changed: bool)
      requires Valid() && lease.Some? && service in s.services
      modifies this`lease, this`world, this`clock, this`trace, this`writes
      ensures Valid() && lease.Some? && clock >= old(clock)
      ensures ok ==> HasEntry(lease.value.entries, service)
      ensures ok && Quiet() && Untaken(old(world), old(lease).value.entries, service) ==>
              InUse(service, old(lease).value.entries[0].desired)
    {
      var k := FindEntry(service.id);
      changed := k == |lease.value.entries|;
      if changed {
        if k >= 8 { return false, false; }
        ok := TakeOver(service);
        if !ok { return; }
      } else {
        SameService(s, lease.value, k, service);
      }
      var applied;
      ok, applied := Apply(k);
      changed := changed || applied;
    }

    /** The services other than the active one get the user's values back; a changed lease is saved. */
    method LeaveOthers(active: Service, changed: bool) returns (ok: bool)
      requires Valid() && lease.Some? && HasEntry(lease.value.entries, active)
      modifies this`lease, this`world, this`clock, this`trace, this`writes
      ensures Valid() && lease.Some? && HasEntry(lease.value.entries, active)
      ensures old(Working()) ==> |lease.value.entries| == 1
      ensures Quiet() ==> ActiveKept(old(world), world, old(lease).value.entries, Some(active.id))
    {
      hide Setting.Good, Setting.Safe;
      ghost var i :| 0 <= i < |lease.value.entries| && lease.value.entries[i].service == active;
      ghost var current := lease.value.entries[i];
      var remaining, restored := RestoreExcept(Some(active.id));
      assert current in remaining;
      lease := Some(lease.value.(entries := remaining));
      ok := true;
      if changed || restored {
        ok := Persist({}, RecordPromises(lease));
      }
    }

    /** The service runs these servers. */
    ghost predicate InUse(service: Service, servers: Servers)
      reads this`world
    {
      service.name in world.live && world.live[service.name] == servers
    }

    method FindEntry(id: string) returns (k: nat)
      requires lease.Some?
      ensures k <= |lease.value.entries|
      ensures k < |lease.value.entries| ==> lease.value.entries[k].service.id == id
      ensures forall i :: 0 <= i < k ==> lease.value.entries[i].service.id != id
    {
      k := 0;
      while k < |lease.value.entries| && lease.value.entries[k].service.id != id
        invariant k <= |lease.value.entries|
        invariant forall i :: 0 <= i < k ==> lease.value.entries[i].service.id != id
      {
        k := k + 1;
      }
    }

    /** Records the user's value of a newly active service before anything is written to it. */
    method TakeOver(service: Service) returns (ok: bool)
      requires Valid() && lease.Some? && |lease.value.entries| < 8 && service in s.services
      requires forall i :: 0 <= i < |lease.value.entries| ==> lease.value.entries[i].service.id != service.id
      modifies this`lease, this`world, this`clock, this`trace, this`writes
      ensures Valid() && lease.Some? && (!ok ==> lease == old(lease)) && clock >= old(clock)
      ensures ok ==>
              |lease.value.entries| == |old(lease).value.entries| + 1 &&
              lease.value.entries[..|old(lease).value.entries|] == old(lease).value.entries
      ensures ok ==> var e := lease.value.entries[|old(lease).value.entries|];
                     && e.service == service && e.desired == old(lease).value.entries[0].desired && !e.applied
                     && (Quiet() ==> InUse(service, e.original))
    {
      hide Setting.Good, Setting.Safe;
      var before := lease;
      var original := GetDns(service.name, RecordPromises(lease));
      if original == None { return false; }
      var entry := Entry(service, original.value, lease.value.entries[0].desired, false);
      LongerLease(s, world, lease.value, entry);
      lease := Some(lease.value.(entries := lease.value.entries + [entry]));
      ok := Persist({}, RecordPromises(before));
      if !ok {
        lease := before;
      }
    }

    /** Applies the lease to entry `k`, unless the user has changed that service meanwhile. */
    method Apply(k: nat) returns (ok: bool, changed: bool)
      requires Valid() && lease.Some? && k < |lease.value.entries|
      modifies this`lease, this`world, this`clock, this`trace, this`writes
      ensures Valid() && lease.Some? && |lease.value.entries| == |old(lease).value.entries|
      ensures lease.value.entries[k].service == old(lease).value.entries[k].service && clock >= old(clock)
      ensures var e := old(lease).value.entries[k];
              ok && Quiet() && !e.applied &&
                old(e.service.name in world.live && world.live[e.service.name] == e.original) ==>
                e.service.name in world.live && world.live[e.service.name] == e.desired
    {
      var entry := lease.value.entries[k];
      changed := false;
      var current := GetDns(entry.service.name, RecordPromises(lease));
      if current == None { return false, false; }
      ok := true;
      if !entry.applied && current.value == entry.original && current.value != entry.desired {
        PromiseOfEntry(lease.value.entries, k);
        HeldIsLive(s, world, RecordPromises(lease), entry.service.name);
        ok := SetDns(entry.service.name, entry.desired, RecordPromises(lease));
        if !ok { return; }
        MarkApplied(k);
        changed := true;
      }
    }

    method Expire(now: int) returns (ok: bool)
      requires Valid()
      modifies this`lease, this`world, this`clock, this`trace, this`writes
      ensures Valid()
      ensures old(lease.Some? && lease.value.deadline > now) ==> lease == old(lease) && world == old(world)
      ensures old(Working() && lease.Some? && lease.value.deadline <= now) ==> lease == None && world.durable == {None}
    {
      if lease == None || lease.value.deadline > now { return true; }
      ok := Release();
    }

    /** Start-up: takes the saved lease and releases it. */
    method Recover() returns (ok: bool)
      requires History() && world in trace && s.Safe(world) && lease == None && world.durable == {world.record}
      modifies this`configured, this`lease, this`world, this`clock, this`trace, this`writes
      ensures Valid() && (ok ==> lease == None)
      ensures old(Working()) ==> ok && world.durable == {None}
      ensures Quiet() && old(Working()) ==> world.live == Recovered(old(world), old(world).record)
    {
      configured := true;
      if world.record == None { return true; }
      assert Decodable(s.isIP, world.record.value);
      lease := world.record;
      ok := Release();
    }
  }

  /** Where a promised `desired` other than the original is in force, the original is the user's. */
  lemma RestoreGivesBack(s: Setting, w: World, lease: Option<Lease>, held: Promises, n: string)
    requires s.Good(w, held) && n in held && n in w.live
    requires w.live[n] == held[n].desired != held[n].original
    ensures n in w.user && w.user[n] == held[n].original
  {
    assert Included(held, RecordPromises(w.record)) && NotPicked(w, RecordPromises(w.record));
  }

  lemma HeldIsLive(s: Setting, w: World, held: Promises, n: string)
    requires s.Good(w, held) && n in held
    ensures n in w.live
  {
    assert Included(held, RecordPromises(w.record)) && NotPicked(w, RecordPromises(w.record));
  }

  lemma GoodKeys(s: Setting, w: World, held: Promises)
    requires s.Good(w, held)
    ensures w.live.Keys == w.user.Keys && w.record in w.durable && Settled(w, held)
    ensures forall r :: r in w.durable ==> Included(held, RecordPromises(r))
  {
  }

  /** Once the record is the only thing a crash can find, the lease answers for all its promises. */
  lemma GoodSaved(s: Setting, w: World, l: Option<Lease>, held: Promises)
    requires s.Good(w, held) && Included(held, RecordPromises(l)) && w.durable == {l}
    ensures s.Good(w, RecordPromises(l))
  {
    SettledMore(w, held, RecordPromises(l));
  }

  lemma SettledMore(w: World, held: Promises, more: Promises)
    requires Settled(w, held) && Included(held, more)
    ensures Settled(w, more)
  {
  }

  /**
   A sweep has handled the first `i` entries of `all`: `slots[..kept]` selects the entries to
   keep, the unread entries are still in place, and every promise still held has its entry.
   */
  ghost predicate Sweeping(slots: seq<Entry>, kept: nat, all: seq<Entry>, i: nat, held: Promises,
      active: Option<string>) {
    && kept <= i <= |slots| == |all| && Distinct(all) && Included(held, PromisesOf(all))
    && (forall j :: i <= j < |all| ==> slots[j] == all[j] && all[j].service.name in held)
    && Distinct(slots[..kept]) && (forall a :: 0 <= a < kept ==> slots[a] in all[..i])
    && (forall j :: 0 <= j < i && all[j].service.name in held ==> all[j] in slots[..kept])
    && (active.Some? ==> forall j :: 0 <= j < i && all[j].service.id == active.value ==> all[j] in slots[..kept])
  }

  /** Nothing is kept but entries of the active service. */
  ghost predicate OnlyActive(slots: seq<Entry>, kept: nat, active: Option<string>) {
    kept <= |slots| && forall a :: 0 <= a < kept ==> active == Some(slots[a].service.id)
  }

  lemma DistinctIds(slots: seq<Entry>, kept: nat, i: nat, j: nat)
    requires i < j < kept <= |slots| && Distinct(slots[..kept])
    ensures slots[i].service.id != slots[j].service.id
  {
    assert slots[..kept][i] == slots[i] && slots[..kept][j] == slots[j];
  }

  lemma OnlyActiveAtMostOne(slots: seq<Entry>, kept: nat, active: Option<string>)
    requires OnlyActive(slots, kept, active) && Distinct(slots[..kept])
    ensures kept <= 1 && (active.None? ==> kept == 0)
  {
    if kept > 0 {
      var first := slots[0];
      if kept > 1 {
        var second := slots[1];
        DistinctIds(slots, kept, 0, 1);
        assert false;
      }
    }
  }

  lemma {:induction false} NextEntry(slots: seq<Entry>, kept: nat, all: seq<Entry>, i: nat, held: Promises,
      active: Option<string>)
    requires Sweeping(slots, kept, all, i, held, active) && i < |all|
    ensures slots[i] == all[i] && all[i].service.name in held
    ensures held[all[i].service.name] == Promise(all[i].original, all[i].desired)
  {
    PromiseOfEntry(all, i);
  }

  lemma {:induction false} SweepDrop(slots: seq<Entry>, kept: nat, all: seq<Entry>, i: nat, held: Promises,
      active: Option<string>)
    requires Sweeping(slots, kept, all, i, held, active) && i < |all| && active != Some(all[i].service.id)
    ensures Sweeping(slots, kept, all, i + 1, held - {all[i].service.name}, active)
  {
    hide PromisesOf;
    forall a | 0 <= a < kept ensures slots[a] in all[..i + 1] {
      InLongerPrefix(all, i, slots[a]);
    }
  }

  lemma SweepNext(slots: seq<Entry>, kept: nat, all: seq<Entry>, i: nat, held: Promises, active: Option<string>)
    requires Sweeping(slots, kept, all, i, held, active) && i < |slots|
    ensures slots[i] == all[i] && slots[i] in all
  {
  }

  lemma KeptItself(w: World, all: seq<Entry>, active: Option<string>)
    ensures ActiveKept(w, w, all, active) && OnlyActive(all, 0, active)
  {
  }

  lemma RestoredAll(start: World, w: World, all: seq<Entry>)
    requires RestoredUpTo(start, w, all, |all|)
    ensures w.live == PutBackAll(start.live, PromisesOf(all))
  {
    assert all[..|all|] == all;
  }

  lemma InLongerPrefix(all: seq<Entry>, i: nat, e: Entry)
    requires i < |all| && e in all[..i]
    ensures e in all[..i + 1]
  {
    assert all[..i + 1] == all[..i] + [all[i]];
  }

  /** Overwriting slot `kept` with entry `i` never clobbers an entry still to be read. */
  lemma {:induction false} SweepKeep(slots: seq<Entry>, kept: nat, all: seq<Entry>, i: nat, held: Promises,
      active: Option<string>)
    requires Sweeping(slots, kept, all, i, held, active) && i < |all|
    ensures Sweeping(slots[kept := slots[i]], kept + 1, all, i + 1, held, active)
  {
    var after := slots[kept := slots[i]];
    var front := slots[..kept];
    assert all[..i + 1] == all[..i] + [all[i]];
    assert after[..kept + 1] == front + [all[i]];
    forall a | 0 <= a < kept
      ensures front[a].service.id != all[i].service.id && front[a].service.name != all[i].service.name
    {
      assert slots[a] in all[..i];
      var j :| 0 <= j < i && all[j] == slots[a];
    }
  }

  lemma SweepStart(all: seq<Entry>, active: Option<string>)
    requires Distinct(all)
    ensures Sweeping(all, 0, all, 0, PromisesOf(all), active)
  {
    forall j | 0 <= j < |all| ensures all[j].service.name in PromisesOf(all) { PromiseOfEntry(all, j); }
  }

  /** After the sweep the kept entries form the lease, and make exactly the promises still needed. */
  lemma SweepDone(s: Setting, w: World, slots: seq<Entry>, kept: nat, all: seq<Entry>, held: Promises,
      active: Option<string>, l: Lease)
    requires Sweeping(slots, kept, all, |all|, held, active) && s.Good(w, held)
    requires l.entries == all && s.LeaseOk(l) && forall r :: r in w.durable ==>
             Included(PromisesOf(all), RecordPromises(r))
    ensures s.Good(w, PromisesOf(slots[..kept])) && Included(PromisesOf(slots[..kept]), PromisesOf(all))
    ensures kept > 0 ==> s.LeaseOk(l.(entries := slots[..kept]))
    ensures Distinct(slots[..kept])
    ensures active.Some? ==> forall e :: e in all && e.service.id == active.value ==> e in slots[..kept]
  {
    var remaining := slots[..kept];
    assert all[..|all|] == all;
    SweepKeepsPromises(all, held, remaining);
    SettledMore(w, held, PromisesOf(remaining));
  }

  lemma SameService(s: Setting, l: Lease, k: nat, service: Service)
    requires s.OneToOne() && s.LeaseOk(l) && k < |l.entries| && service in s.services &&
             l.entries[k].service.id == service.id
    ensures l.entries[k].service == service && l.entries[k].desired == l.entries[0].desired
  {
    assert l.entries[k] in l.entries;
  }

  lemma HeldIsRecorded(s: Setting, w: World, l: Lease)
    requires s.Good(w, PromisesOf(l.entries)) && s.LeaseOk(l)
    ensures forall r :: r in w.durable ==> r.Some?
  {
    PromiseOfEntry(l.entries, 0);
    assert forall r :: r in w.durable ==> Included(PromisesOf(l.entries), RecordPromises(r));
  }

  lemma FirstLease(s: Setting, w: World, l: Lease)
    requires s.Good(w, map[]) && s.OneToOne() && l.version == 1 && |l.entries| == 1
    requires var e := l.entries[0];
             e.service in s.services && e.service.name in w.live && e.original == w.live[e.service.name] &&
               ValidServers(s.isIP, e.desired)
    ensures s.LeaseOk(l) && NotPicked(w, PromisesOf(l.entries))
    ensures var e := l.entries[0];
            PromisesOf(l.entries) == map[e.service.name := Promise(w.user[e.service.name], e.desired)]
  {
    assert l.entries[..0] == [];
    assert PromisesOf(l.entries[..0]) == map[];
  }

  lemma AppliedLeaseOk(s: Setting, l: Lease, k: nat)
    requires s.LeaseOk(l) && k < |l.entries|
    ensures s.LeaseOk(l.(entries := l.entries[k := l.entries[k].(applied := true)]))
  {
    var after := l.entries[k := l.entries[k].(applied := true)];
    assert l.entries[k] in l.entries;
    assert forall e :: e in after ==> e == after[k] || e in l.entries;
  }

  lemma LongerLeaseOk(s: Setting, l: Lease, e: Entry)
    requires s.OneToOne() && s.LeaseOk(l) && |l.entries| < 8
    requires e.service in s.services && AllIP(s.isIP, e.original) && e.desired == l.entries[0].desired
    requires forall i :: 0 <= i < |l.entries| ==> l.entries[i].service.id != e.service.id
    ensures s.LeaseOk(l.(entries := l.entries + [e])) && e.service.name !in PromisesOf(l.entries)
  {
    assert l.entries[0] in l.entries;
    assert forall x :: x in l.entries + [e] ==> x in l.entries || x == e;
    forall i | 0 <= i < |l.entries| ensures l.entries[i].service.name != e.service.name {
      assert l.entries[i] in l.entries;
    }
    if e.service.name in PromisesOf(l.entries) {
      PromisedByEntry(l.entries, e.service.name);
      assert false;
    }
  }

  /** A newly active service can join the lease: its user value is on record, not yet picked. */
  lemma LongerLease(s: Setting, w: World, l: Lease, e: Entry)
    requires s.Good(w, PromisesOf(l.entries)) && s.OneToOne() && s.LeaseOk(l) && |l.entries| < 8
    requires NotPicked(w, PromisesOf(l.entries))
    requires e.service in s.services && e.service.name in w.live && e.original == w.live[e.service.name]
    requires e.desired == l.entries[0].desired
    requires forall i :: 0 <= i < |l.entries| ==> l.entries[i].service.id != e.service.id
    ensures s.LeaseOk(l.(entries := l.entries + [e]))
    ensures Included(PromisesOf(l.entries), PromisesOf(l.entries + [e])) && NotPicked(w, PromisesOf(l.entries + [e]))
  {
    LongerLeaseOk(s, l, e);
    assert (l.entries + [e])[..|l.entries|] == l.entries;
  }

  /** What restoring every entry of the record `r` leaves in force. */
  function Recovered(w: World, r: Option<Lease>): map<string, Servers> {
    PutBackAll(w.live, RecordPromises(r))
  }

  /**
   Restoring gives every service the user's value exactly when each service is settled and no
   user value in force is a `desired` recorded with another original.
   */
  lemma RecoveryExact(w: World, r: Option<Lease>)
    requires w.live.Keys == w.user.Keys
    ensures Recovered(w, r) == w.user <==>
            Settled(w, RecordPromises(r)) &&
            forall n :: n in w.live && n in RecordPromises(r) ==>
              w.live[n] == w.user[n] == RecordPromises(r)[n].desired ==> RecordPromises(r)[n].original == w.user[n]
  {
    assert Recovered(w, r).Keys == w.user.Keys;
  }

  /** Every content of the file that a safe world allows restores every user value. */
  lemma SafeIsRecoverable(s: Setting, w: World, found: Option<Lease>)
    requires s.Safe(w) && found in w.durable
    ensures Recovered(w, found) == w.user
  {
    RecoveryExact(w, found);
  }

  /** Picking exactly the lease's servers by hand, while the record exists, is not recognised as a choice. */
  lemma PickedDesiredIsLost()
    ensures exists w: World, r: Option<Lease> ::
              w.live == w.user && r.Some? && |r.value.entries| == 1 && Recovered(w, r) != w.user
  {
    var e := Entry(Service("A1", "Wi-Fi"), ["192.0.2.53"], ["223.5.5.5"], true);
    var r := Some(Lease(1, 60, [e]));
    var w := World(map["Wi-Fi" := ["223.5.5.5"]], map["Wi-Fi" := ["223.5.5.5"]], r, {r});
    assert [e][..0] == [] && PromisesOf([e]) == map["Wi-Fi" := Promise(["192.0.2.53"], ["223.5.5.5"])];
    assert Recovered(w, r)["Wi-Fi"] == ["192.0.2.53"];
    assert ["192.0.2.53"][0][0] != ["223.5.5.5"][0][0];
    assert w.live == w.user && r.Some? && |r.value.entries| == 1 && Recovered(w, r) != w.user;
  }

  datatype Request = Set(servers: Servers, now: int) | Renew(now: int) | Reconcile | Release | Expire(now: int)

  method Serve(m: Manager, request: Request) returns (ok: bool)
    requires m.Valid()
    modifies m
    ensures m.Valid()
  {
    match request {
      case Set(servers, now) =>
        if !ValidServers(m.s.isIP, servers) { return false; }
        ok := m.Set(servers, now);
      case Renew(now) => ok := m.Renew(now);
      case Reconcile =>
        if m.lease == None { return true; }
        var active;
        ok, active := m.Reconcile();
      case Release => ok := m.Release();
      case Expire(now) => ok := m.Expire(now);
    }
  }

  /** Any run of requests and timers, under any script: every world on the way is safe. */
  method Run(m: Manager, requests: seq<Request>)
    requires m.Valid()
    modifies m
    ensures m.Valid() && forall w :: w in m.trace ==> m.s.Safe(w)
  {
    for i := 0 to |requests|
      invariant m.Valid()
    {
      var _ := Serve(m, requests[i]);
    }
  }

  /**
   A crash at any point `w` of any run, with any content `found` the disk may then hold,
   followed by a start-up whose calls work: every service has the user's last value back,
   and the record is gone.
   */
  method CrashAndRecover(m: Manager, w: World, found: Option<Lease>, script: nat -> Moment) returns (next: Manager)
    requires m.Valid() && w in m.trace && found in w.durable
    requires forall k :: script(k).fault.Works?
    ensures fresh(next) && next.Valid() && next.lease == None
    ensures next.world.live == next.world.user && next.world.durable == {None}
    ensures forall x :: x in next.trace ==> m.s.Safe(x)
  {
    next := new Manager.Restart(m.s, script, w, found);
    var _ := next.Recover();
    assert Settled(next.world, map[]);
  }
}
