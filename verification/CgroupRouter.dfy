/**
 Moving processes between cgroups (processrouter/process_linux.go). The world keeps, beside the
 cgroup of each live process, the one it would be in had the router never run, and which processes
 descend from one that was forked inside the router's groups.
 */
module CgroupRouter {
  import opened Wrappers
  import opened LinuxTables
  import opened LinuxRouting

  datatype Place = Managed(group: Group) | Outside(path: string)
  /** The root of the mount, where processes without a known origin go. */
  const ROOT := Outside("")

  datatype World = World(place: map<int, Place>, parent: map<int, int>, ideal: map<int, Place>, descend: set<int>,
      used: set<int>)

  /** What happens outside the router while it works: forks and exits. */
  datatype Event = Fork(child: int, forker: int) | Exit(pid: int, heir: int) | Nothing

  /** Process identifiers are not reused; an event that cannot happen is none. */
  function Happen(w: World, event: Event): World {
    match event
    case Fork(child, forker) =>
      if forker !in w.place || forker !in w.ideal || child in w.used then w
      else World(w.place[child := w.place[forker]], w.parent[child := forker], w.ideal[child := w.ideal[forker]],
                 if forker in w.descend || w.place[forker].Managed? then w.descend + {child}
                   else w.descend, w.used + {child})
    case Exit(pid, heir) =>
      w.(place := w.place - {pid}, parent := map c | c in w.parent :: if w.parent[c] == pid then heir else w.parent[c])
    case Nothing => w
  }

  /**
   Every live process outside the router's groups is where it would be without
   the router, unless it descends from a routed one.
  */
  ghost predicate Settled(w: World) {
    && (forall pid :: pid in w.place ==> pid in w.ideal && w.ideal[pid].Outside? && pid in w.used)
    && (forall pid :: pid in w.place && pid !in w.descend && w.place[pid].Outside? ==> w.place[pid] == w.ideal[pid])
  }

  /** Every routed process has an origin outside the groups; busy is the process being taken or restored. */
  ghost predicate Recorded(w: World, routed: map<int, Group>, origins: map<int, Place>, busy: Option<int>) {
    && routed.Keys <= origins.Keys <= w.used
    && (forall pid :: pid in origins ==> origins[pid].Outside?)
    && (forall pid :: pid in origins && pid in w.place && pid !in w.descend ==>
       pid in w.ideal && origins[pid] == w.ideal[pid])
    && (forall pid :: pid in routed && pid in w.place ==> w.place[pid] == Managed(routed[pid]))
    && (forall pid :: pid in w.place && pid !in w.descend && w.place[pid].Managed? ==>
       pid in routed || busy == Some(pid))
    && (forall pid :: pid in origins && pid in w.place ==> pid in routed || busy == Some(pid))
  }

  ghost predicate Inv(w: World, routed: map<int, Group>, origins: map<int, Place>, busy: Option<int>) {
    Settled(w) && Recorded(w, routed, origins, busy)
  }

  lemma HappenKeeps(w: World, event: Event, routed: map<int, Group>, origins: map<int, Place>, busy: Option<int>)
    requires Inv(w, routed, origins, busy)
    ensures Inv(Happen(w, event), routed, origins, busy)
  {
  }

  function Put(w: World, pid: int, place: Place): World {
    if pid in w.place then w.(place := w.place[pid := place]) else w
  }

  /** A process taken where it is outside, or already recorded, goes to its group. */
  lemma MoveKeeps(w: World, routed: map<int, Group>, origins: map<int, Place>, pid: int, group: Group)
    requires Inv(w, routed, origins, Some(pid)) && pid in origins && pid in w.place
    ensures Inv(Put(w, pid, Managed(group)), routed[pid := group], origins, None)
  {
  }

  lemma RecordKeeps(w: World, routed: map<int, Group>, origins: map<int, Place>, pid: int, origin: Place)
    requires Inv(w, routed, origins, None) && origin.Outside? && pid in w.used
    requires pid in w.place && pid !in w.descend ==> origin == w.ideal[pid]
    ensures Inv(w, routed, origins[pid := origin], Some(pid))
  {
  }

  /** Nothing is left to do for a process that is gone. */
  lemma GoneKeeps(w: World, routed: map<int, Group>, origins: map<int, Place>, pid: int)
    requires Inv(w, routed, origins, Some(pid)) && pid !in w.place
    ensures Inv(w, routed, origins, None)
  {
  }

  lemma BusyKeeps(w: World, routed: map<int, Group>, origins: map<int, Place>, pid: int)
    requires Inv(w, routed, origins, None)
    ensures Inv(w, routed, origins, Some(pid))
  {
  }

  lemma ForgetKeeps(w: World, routed: map<int, Group>, origins: map<int, Place>, pid: int)
    requires Inv(w, routed, origins, None)
    ensures Inv(w, routed - {pid}, origins - {pid}, Some(pid))
    ensures pid !in origins || pid !in w.place ==> Inv(w, routed - {pid}, origins - {pid}, None)
  {
  }

  lemma RestoreKeeps(w: World, routed: map<int, Group>, origins: map<int, Place>, pid: int, origin: Place)
    requires Inv(w, routed, origins, Some(pid)) && pid !in routed && pid !in origins && origin.Outside?
    requires pid in w.place && pid !in w.descend ==> origin == w.ideal[pid]
    ensures Inv(Put(w, pid, origin), routed, origins, None)
  {
  }

  /** The recorded origin of the parent, or the root. */
  function Inherited(w: World, origins: map<int, Place>, pid: int): Place {
    if pid in w.place && pid in w.parent && w.parent[pid] in origins then origins[w.parent[pid]] else ROOT
  }

  /** Where a process taken under management comes from. */
  function OriginOf(w: World, origins: map<int, Place>, pid: int): Place
    requires pid in w.place
  {
    if w.place[pid].Outside? then w.place[pid] else Inherited(w, origins, pid)
  }

  /** A snapshot entry: a process that was there when it was taken. */
  datatype Entry = Entry(pid: int, process: Process)

  /** A snapshot lists processes that have existed, each once. */
  predicate Snapshot(entries: seq<Entry>, used: set<int>) {
    && (forall i :: 0 <= i < |entries| ==> entries[i].pid in used)
    && forall i, j :: 0 <= i < j < |entries| ==> entries[i].pid != entries[j].pid
  }

  class Router {
    var targets: seq<ProcessTarget>
    var routed: map<int, Group>
    var origins: map<int, Place>
    var world: World
    var script: seq<Event>

    ghost predicate Busy(busy: Option<int>)
      reads this`routed, this`origins, this`world
    {
      Inv(world, routed, origins, busy)
    }

    ghost predicate Valid()
      reads this`routed, this`origins, this`world
    {
      Busy(None)
    }

    constructor (world: World, script: seq<Event>)
      requires Settled(world) && (forall pid :: pid in world.place ==> world.place[pid].Outside?)
      ensures Valid() && routed == map[] && origins == map[] && targets == [] && this.world == world &&
              this.script == script
    {
      this.world, this.script := world, script;
      targets, routed, origins := [], map[], map[];
    }

    /** The next event lands. */
    method Tick(ghost busy: Option<int>)
      requires Busy(busy)
      modifies this`world, this`script
      ensures Busy(busy) && Later(old(world), world, {})
      ensures Calm(old(script), script, old(world), world)
    {
      var event := Nothing;
      if script != [] {
        event := script[0];
        script := script[1..];
      }
      Occur(event, busy);
    }

    /** Something happens outside the router. */
    method Occur(event: Event, ghost busy: Option<int>)
      requires Busy(busy)
      modifies this`world
      ensures Busy(busy) && Later(old(world), world, {}) && world == Happen(old(world), event)
    {
      HappenKeeps(world, event, routed, origins, busy);
      HappenLater(world, event);
      world := Happen(world, event);
    }

    /** `inheritedOriginalCgroup`: the recorded origin of the parent, or the root. */
    method InheritedOrigin(pid: int) returns (origin: Place)
      requires Valid()
      ensures origin.Outside?
      ensures origin == Inherited(world, origins, pid)
    {
      assert Recorded(world, routed, origins, None);
      if pid in world.place && pid in world.parent && world.parent[pid] in origins {
        var parent := world.parent[pid];
        assert parent in origins && origins[parent].Outside?;
        return origins[parent];
      }
      return ROOT;
    }

    /** Records where a process comes from, unless that is known; fails when the process is gone. */
    method Record(pid: int) returns (ok: bool)
      requires Valid()
      modifies this`origins, this`world, this`script
      ensures Busy(Some(pid)) && Later(old(world), world, {})
      ensures Calm(old(script), script, old(world), world)
      ensures if ok then pid in origins else pid !in world.place
      ensures ok && pid !in old(origins) ==> pid in world.place && origins[pid] == OriginOf(world, old(origins), pid)
      ensures origins.Keys <= old(origins).Keys + {pid} && forall q :: q in old(origins) ==>
              q in origins && origins[q] == old(origins)[q]
    {
      if pid !in origins {
        Tick(None);
        if pid !in world.place {
          BusyKeeps(world, routed, origins, pid);
          return false;
        }
        var origin := world.place[pid];
        if origin.Managed? {
          origin := InheritedOrigin(pid);
        }
        RecordKeeps(world, routed, origins, pid, origin);
        origins := origins[pid := origin];
      } else {
        BusyKeeps(world, routed, origins, pid);
      }
      return true;
    }

    /** `move`; fails when the process is gone. */
    method Move(pid: int, group: Group)
      requires Busy(Some(pid)) && pid in origins
      modifies this`world, this`routed, this`script
      ensures Valid() && Later(old(world), world, {pid})
      ensures Calm(old(script), script, old(world), world)
      ensures pid in world.place ==> world.place[pid] == Managed(group) && routed == old(routed)[pid := group]
      ensures pid !in world.place ==> routed == old(routed)
    {
      Tick(Some(pid));
      if pid !in world.place {
        GoneKeeps(world, routed, origins, pid);
      } else {
        MoveKeeps(world, routed, origins, pid, group);
        PutLater(old(world), world, pid, Managed(group));
        world := Put(world, pid, Managed(group));
        routed := routed[pid := group];
      }
    }

    /** `restoreProcessLocked`: a live process goes back to its origin. */
    method Restore(pid: int)
      requires Valid()
      modifies this`world, this`routed, this`origins, this`script
      ensures Valid() && routed == old(routed) - {pid} && origins == old(origins) - {pid} &&
              Later(old(world), world, {pid})
      ensures Calm(old(script), script, old(world), world)
      ensures pid in old(origins) && pid in world.place ==> world.place[pid] == old(origins)[pid]
    {
      var target := if pid in origins then Some(origins[pid]) else None;
      ForgetKeeps(world, routed, origins, pid);
      routed := routed - {pid};
      origins := origins - {pid};
      if target == None { return; }
      Tick(Some(pid));
      RestoreKeeps(world, routed, origins, pid, target.value);
      PutLater(old(world), world, pid, target.value);
      world := Put(world, pid, target.value);
    }

    /**
     One entry of `applyProcessSnapshotLocked`. A process no target names is outside the groups afterwards if
     and only if it was routed or outside before.
     */
    method Visit(entry: Entry) returns (matched: bool)
      requires Valid() && entry.pid in world.used
      modifies this`world, this`routed, this`origins, this`script
      ensures Valid() && Later(old(world), world, {entry.pid}) && Calm(old(script), script, old(world), world)
      ensures Others(old(routed), routed, entry.pid)
      ensures matched == FirstGroup(targets, entry.process).Some?
      ensures Placed(old(world), old(routed), world, routed, targets, entry)
    {
      var group := TargetGroup(targets, entry.process);
      matched := group.Some?;
      if !matched {
        if entry.pid in routed { Restore(entry.pid); }
      } else if entry.pid !in routed || routed[entry.pid] != group.value {
        var known := Record(entry.pid);
        label recorded:
        if known {
          Move(entry.pid, group.value);
          LaterThen(old(world), old@recorded(world), world, {}, {entry.pid});
        } else {
          GoneKeeps(world, routed, origins, entry.pid);
        }
      }
    }

    /**
     `applyProcessSnapshotLocked`: every live process of the snapshot ends in the group its first target names,
     or in none, and then outside the groups if and only if it was routed or outside before.
     */
    method Scan(snapshot: seq<Entry>)
      requires Valid() && Snapshot(snapshot, world.used)
      modifies this`world, this`routed, this`origins, this`script
      ensures Valid() && old(world).used <= world.used && Calm(old(script), script, old(world), world)
      ensures AllPlaced(old(world), old(routed), world, routed, targets, snapshot)
    {
      var seen := {};
      for i := 0 to |snapshot|
        invariant Scanning(old(world), old(routed), snapshot, i) && Calm(old(script), script, old(world), world)
      {
        var matched := VisitAt(snapshot, i, old(world), old(routed));
        if matched { seen := seen + {snapshot[i].pid}; }
      }
      Prune(seen, snapshot, old(world), old(routed));
    }

    /** The first i entries are placed, the others are as at the start. */
    ghost predicate Scanning(world0: World, routed0: map<int, Group>, snapshot: seq<Entry>, i: nat)
      reads this`routed, this`origins, this`world, this`targets
    {
      && Valid() && world0.used <= world.used && i <= |snapshot|
      && (forall j :: 0 <= j < i ==> Placed(world0, routed0, world, routed, targets, snapshot[j]))
      && (forall j :: i <= j < |snapshot| ==> Unvisited(world0, routed0, world, routed, snapshot[j].pid))
    }

    method VisitAt(snapshot: seq<Entry>, i: nat, ghost world0: World, ghost routed0: map<int, Group>)
        returns (matched: bool)
      requires i < |snapshot| && Snapshot(snapshot, world0.used) && Scanning(world0, routed0, snapshot, i)
      modifies this`world, this`routed, this`origins, this`script
      ensures Scanning(world0, routed0, snapshot, i + 1) && Calm(old(script), script, old(world), world)
    {
      matched := Visit(snapshot[i]);
      forall j | 0 <= j < i ensures Placed(world0, routed0, world, routed, targets, snapshot[j]) {
        StillPlaced(world0, routed0, old(world), world, old(routed), routed, targets, snapshot[j], snapshot[i].pid);
      }
      PlacedSince(world0, routed0, old(world), old(routed), world, routed, targets, snapshot[i]);
      forall j | i < j < |snapshot| ensures Unvisited(world0, routed0, world, routed, snapshot[j].pid) {
        StillUnvisited(world0, routed0, old(world), world, old(routed), routed, snapshot[j].pid, snapshot[i].pid);
      }
    }

    /** Forgets processes that are gone. */
    method Prune(seen: set<int>, snapshot: seq<Entry>, ghost world0: World, ghost routed0: map<int, Group>)
      requires Snapshot(snapshot, world0.used) && Scanning(world0, routed0, snapshot, |snapshot|)
      modifies this`world, this`routed, this`origins, this`script
      ensures Scanning(world0, routed0, snapshot, |snapshot|) && Calm(old(script), script, old(world), world)
    {
      var pids := routed.Keys;
      while pids != {}
        invariant Scanning(world0, routed0, snapshot, |snapshot|) && Calm(old(script), script, old(world), world)
        decreases |pids|
      {
        Nonempty(pids);
        var pid :| pid in pids;
        pids := pids - {pid};
        PruneOne(seen, pid, snapshot, world0, routed0);
      }
    }

    method PruneOne(seen: set<int>, pid: int, snapshot: seq<Entry>, ghost world0: World, ghost routed0: map<int, Group>)
      requires Snapshot(snapshot, world0.used) && Scanning(world0, routed0, snapshot, |snapshot|)
      modifies this`world, this`routed, this`origins, this`script
      ensures Scanning(world0, routed0, snapshot, |snapshot|) && Calm(old(script), script, old(world), world)
    {
      if pid in seen { return; }
      Tick(None);
      ghost var middle := routed;
      if pid !in world.place {
        ForgetKeeps(world, routed, origins, pid);
        routed := routed - {pid};
        origins := origins - {pid};
      }
      forall j | 0 <= j < |snapshot| ensures Placed(world0, routed0, world, routed, targets, snapshot[j]) {
        PlacedAfterTick(world0, routed0, old(world), world, middle, routed, targets, snapshot[j], pid);
      }
    }

    /** `restoreAllLocked`: every routed process that is alive is back at its origin. */
    method RestoreAll()
      requires Valid()
      modifies this`world, this`routed, this`origins, this`script
      ensures Valid() && routed == map[]
      ensures Back(old(routed).Keys, old(origins), world)
      ensures Later(old(world), world, old(routed).Keys)
    {
      var pids := routed.Keys;
      LaterSelf(world, routed.Keys);
      while pids != {}
        invariant routed.Keys == pids <= old(routed).Keys && Restoring(old(world), old(routed), old(origins))
        decreases |pids|
      {
        Nonempty(pids);
        var pid :| pid in pids;
        RestoreNext(pid, old(world), old(routed), old(origins));
        pids := pids - {pid};
      }
    }

    /** Of the processes routed0, those no longer routed are back. */
    ghost predicate Restoring(world0: World, routed0: map<int, Group>, origins0: map<int, Place>)
      reads this`routed, this`origins, this`world
    {
      && Valid() && Later(world0, world, routed0.Keys) && routed0.Keys <= world0.used
      && Back(routed0.Keys - routed.Keys, origins0, world)
      && forall pid :: pid in routed ==> pid in origins0 && origins[pid] == origins0[pid]
    }

    method RestoreNext(pid: int, ghost world0: World, ghost routed0: map<int, Group>, ghost origins0: map<int, Place>)
      requires Restoring(world0, routed0, origins0) && pid in routed && pid in routed0
      modifies this`world, this`routed, this`origins, this`script
      ensures Restoring(world0, routed0, origins0) && routed.Keys == old(routed).Keys - {pid}
    {
      ghost var done := routed0.Keys - routed.Keys;
      Restore(pid);
      BackStep(done, origins0, old(world), world, pid);
      LaterThen(world0, old(world), world, routed0.Keys, {pid});
      assert routed0.Keys + {pid} == routed0.Keys;
      assert routed0.Keys - routed.Keys <= done + {pid};
    }

    /** `restoreUntrackedProcesses` for one group: what is still in it goes to the root. */
    method Sweep(group: Group)
      requires Valid() && routed == map[]
      modifies this`world
      ensures Valid() && world == Swept(old(world), group)
    {
      var left := set pid | pid in world.place && world.place[pid] == Managed(group);
      while left != {}
        invariant Valid() && Sweeping(old(world), world, group, left)
        decreases |left|
      {
        Nonempty(left);
        var pid :| pid in left;
        SweepKeeps(world, origins, pid);
        world := Put(world, pid, ROOT);
        left := left - {pid};
      }
      SweepingDone(old(world), world, group);
    }

    /** `Stop`: every routed process is back at its origin and nothing is left in the groups. */
    method Stop()
      requires Valid()
      modifies this`world, this`routed, this`origins, this`script
      ensures Valid() && routed == map[]
      ensures forall pid :: pid in world.place ==> world.place[pid].Outside?
      ensures Back(old(routed).Keys, old(origins), world)
    {
      RestoreAll();
      ghost var restored := world;
      for k := 0 to |GROUPS|
        invariant Valid() && routed == map[] && SweptBefore(restored, world, k)
      {
        Sweep(GROUPS[|GROUPS| - 1 - k]);
      }
      forall pid | pid in world.place ensures world.place[pid].Outside? {
        AllSweptOut(restored, world, pid);
      }
      ghost var pids := old(routed).Keys;
      assert Back(pids, old(origins), restored);
      assert forall pid :: pid in pids && pid in world.place ==> pid in restored.place && restored.place[pid].Outside?;
    }

    /** Another program moves a process that is not routed. */
    method UserMoves(pid: int, path: string)
      requires Valid()
      modifies this`world
      ensures Valid()
      ensures pid in old(world).place && old(world).place[pid].Outside? ==>
              world.place == old(world).place[pid := Outside(path)] &&
              world.ideal == old(world).ideal[pid := Outside(path)]
      ensures !(pid in old(world).place && old(world).place[pid].Outside?) ==> world == old(world)
    {
      if pid in world.place && world.place[pid].Outside? {
        world := world.(place := world.place[pid := Outside(path)], ideal := world.ideal[pid := Outside(path)]);
      }
    }

    method Perform(op: Op)
      requires Valid()
      modifies this`targets, this`world, this`routed, this`origins, this`script
      ensures Valid()
    {
      match op
      case ReplaceTargets(next, snapshot) =>
        targets := next;
        if Snapshot(snapshot, world.used) { Scan(snapshot); }
      case Rescan(snapshot) =>
        if Snapshot(snapshot, world.used) { Scan(snapshot); }
      case UserMove(pid, path) => UserMoves(pid, path);
      case Elapse => Tick(None);
      case Occurs(event) => Occur(event, None);
    }

    /**
     Any run and then `Stop`: no live process is in the router's groups, and each one that does not
     descend from a process forked inside them is where it would be had the router never run.
     */
    method RunAndStop(ops: seq<Op>)
      requires Valid()
      modifies this`targets, this`world, this`routed, this`origins, this`script
      ensures routed == map[] && forall pid :: pid in world.place ==> world.place[pid].Outside?
      ensures forall pid :: pid in world.place && pid !in world.descend ==>
              pid in world.ideal && world.place[pid] == world.ideal[pid]
    {
      for i := 0 to |ops|
        invariant Valid()
      {
        Perform(ops[i]);
      }
      Stop();
    }
  }

  const GROUPS := [
    Group(Proxy, OnlyTcp), Group(Proxy, OnlyUdp), Group(Proxy, Both),
    Group(Direct, OnlyTcp), Group(Direct, OnlyUdp), Group(Direct, Both),
    Group(Block, OnlyTcp), Group(Block, OnlyUdp), Group(Block, Both)]

  /** The last k groups are empty; nothing outside has moved. */
  ghost predicate SweptBefore(before: World, w: World, k: nat) {
    && k <= |GROUPS| && w.place.Keys == before.place.Keys
    && (forall pid :: pid in w.place && before.place[pid].Outside? ==> w.place[pid] == before.place[pid])
    && (forall pid, i :: pid in w.place && |GROUPS| - k <= i < |GROUPS| ==> w.place[pid] != Managed(GROUPS[i]))
  }

  lemma AllSweptOut(before: World, w: World, pid: int)
    requires SweptBefore(before, w, |GROUPS|) && pid in w.place
    ensures w.place[pid].Outside?
  {
    if w.place[pid].Managed? {
      var i := Index(w.place[pid].group);
    }
  }

  function Index(g: Group): (i: nat)
    ensures i < |GROUPS| && GROUPS[i] == g
  {
    var action := match g.action case Proxy => 0 case Direct => 3 case Block => 6;
    var protocol := match g.protocol case OnlyTcp => 0 case OnlyUdp => 1 case Both => 2;
    action + protocol
  }

  datatype Op = ReplaceTargets(targets: seq<ProcessTarget>,
      snapshot: seq<Entry>) | Rescan(snapshot: seq<Entry>) | UserMove(pid: int,
      path: string) | Elapse | Occurs(event: Event)

  function Swept(w: World, group: Group): World {
    w.(place := map pid | pid in w.place :: if w.place[pid] == Managed(group) then ROOT else w.place[pid])
  }

  /** The processes in left are still in the group. */
  ghost predicate Sweeping(before: World, w: World, group: Group, left: set<int>) {
    && w == before.(place := w.place) && w.place.Keys == before.place.Keys
    && (forall pid :: pid in left ==> pid in w.place && w.place[pid] == Managed(group) == before.place[pid])
    && (forall pid :: pid in w.place && pid !in left ==> w.place[pid] == if before.place[pid] == Managed(group) then
       ROOT else before.place[pid])
  }

  lemma SweepingDone(before: World, w: World, group: Group)
    requires Sweeping(before, w, group, {})
    ensures w == Swept(before, group)
  {
    var place := Swept(before, group).place;
    assert place.Keys == before.place.Keys;
    forall pid | pid in place ensures w.place[pid] == place[pid] {
      assert pid in w.place;
    }
    assert w.place == place;
  }

  lemma SweepKeeps(w: World, origins: map<int, Place>, pid: int)
    requires Inv(w, map[], origins, None) && pid in w.place && w.place[pid].Managed?
    ensures Inv(Put(w, pid, ROOT), map[], origins, None)
  {
  }

  /** Other processes are routed as before. */
  ghost predicate Others(before: map<int, Group>, after: map<int, Group>, pid: int) {
    forall q :: q != pid ==> (q in after <==> q in before) && (q in after ==> after[q] == before[q])
  }

  /** A live process is routed as its first target says. */
  ghost predicate Served(w: World, routed: map<int, Group>, targets: seq<ProcessTarget>, entry: Entry) {
    entry.pid in w.place ==>
      match FirstGroup(targets, entry.process)
      case Some(g) => entry.pid in routed && routed[entry.pid] == g
      case None => entry.pid !in routed
  }

  /** Without events nothing happens but what the router does. */
  ghost predicate Calm(script: seq<Event>, script': seq<Event>, w: World, w': World) {
    script == [] ==> script' == [] && w' == w.(place := w'.place) && w'.place.Keys == w.place.Keys
  }

  /** A process that was routed or outside the groups before. */
  predicate Free(w: World, routed: map<int, Group>, pid: int) {
    pid in routed || (pid in w.place && w.place[pid].Outside?)
  }

  /** A live process is served; if no target names it, it is outside the groups exactly if it was free before. */
  ghost predicate Placed(world0: World, routed0: map<int, Group>, w: World, routed: map<int, Group>,
      targets: seq<ProcessTarget>, entry: Entry) {
    && Served(w, routed, targets, entry)
    && (entry.pid in w.place && FirstGroup(targets, entry.process) == None ==>
          (w.place[entry.pid].Outside? <==> Free(world0, routed0, entry.pid)))
  }

  ghost predicate AllPlaced(world0: World, routed0: map<int, Group>, w: World, routed: map<int, Group>,
      targets: seq<ProcessTarget>, snapshot: seq<Entry>) {
    forall i :: 0 <= i < |snapshot| ==> Placed(world0, routed0, w, routed, targets, snapshot[i])
  }

  ghost predicate Unvisited(world0: World, routed0: map<int, Group>, w: World, routed: map<int, Group>, pid: int) {
    (pid in routed <==> pid in routed0) && (pid in w.place ==> pid in world0.place && w.place[pid] == world0.place[pid])
  }

  lemma StillUnvisited(world0: World, routed0: map<int, Group>, w: World, w': World, routed: map<int, Group>,
      routed': map<int, Group>, q: int, pid: int)
    requires Unvisited(world0, routed0, w, routed, q) && q in w.used && q != pid
    requires Later(w, w', {pid}) && Others(routed, routed', pid)
    ensures Unvisited(world0, routed0, w', routed', q)
  {
  }

  lemma PlacedSince(world0: World, routed0: map<int, Group>, w: World, routed: map<int, Group>, w': World,
      routed': map<int, Group>, targets: seq<ProcessTarget>, entry: Entry)
    requires Placed(w, routed, w', routed', targets, entry) && Unvisited(world0, routed0, w, routed, entry.pid)
    requires Later(w, w', {entry.pid}) && entry.pid in w.used
    ensures Placed(world0, routed0, w', routed', targets, entry)
  {
  }

  lemma StillPlaced(world0: World, routed0: map<int, Group>, w: World, w': World, routed: map<int, Group>,
      routed': map<int, Group>, targets: seq<ProcessTarget>, entry: Entry, pid: int)
    requires Placed(world0, routed0, w, routed, targets, entry) && entry.pid in w.used && entry.pid != pid
    requires Later(w, w', {pid}) && Others(routed, routed', pid)
    ensures Placed(world0, routed0, w', routed', targets, entry)
  {
  }

  lemma PlacedAfterTick(world0: World, routed0: map<int, Group>, w: World, w': World, routed: map<int, Group>,
      routed': map<int, Group>, targets: seq<ProcessTarget>, entry: Entry, pid: int)
    requires Placed(world0, routed0, w, routed, targets, entry) && entry.pid in w.used && Later(w, w', {})
    requires routed' == routed || (pid !in w'.place && routed' == routed - {pid})
    ensures Placed(world0, routed0, w', routed', targets, entry)
  {
  }

  /** Those processes, if alive, are at their origins. */
  ghost predicate Back(pids: set<int>, origins: map<int, Place>, w: World) {
    forall pid :: pid in pids && pid in w.place ==> pid in origins && w.place[pid] == origins[pid]
  }

  lemma BackStep(done: set<int>, origins: map<int, Place>, w: World, w': World, pid: int)
    requires Back(done, origins, w) && Later(w, w', {pid}) && pid in origins && done <= w.used
    requires pid in w'.place ==> w'.place[pid] == origins[pid]
    ensures Back(done + {pid}, origins, w')
  {
  }

  lemma Nonempty(pids: set<int>)
    ensures pids == {} || exists pid :: pid in pids
  {
    assert (forall pid :: pid !in pids) ==> pids == {};
  }

  lemma LaterSelf(w: World, except: set<int>)
    ensures Later(w, w, except)
  {
  }

  lemma LaterThen(a: World, b: World, c: World, ab: set<int>, bc: set<int>)
    requires Later(a, b, ab) && Later(b, c, bc)
    ensures Later(a, c, ab + bc)
  {
  }

  /** Live processes were live or are new; the router moved only the processes in except. */
  ghost predicate Later(before: World, after: World, except: set<int>) {
    && before.used <= after.used && before.descend <= after.descend
    && (forall pid :: pid in after.place && pid in before.used ==>
       pid in before.place && (pid !in except ==> after.place[pid] == before.place[pid]))
    && (forall pid :: pid in before.ideal && pid in before.used ==>
       pid in after.ideal && after.ideal[pid] == before.ideal[pid])
    && (forall pid :: pid in after.descend && pid in before.used ==> pid in before.descend)
  }

  lemma HappenLater(w: World, event: Event)
    requires Settled(w)
    ensures Later(w, Happen(w, event), {})
  {
  }

  lemma PutLater(before: World, w: World, pid: int, place: Place)
    requires Later(before, w, {})
    ensures Later(before, Put(w, pid, place), {pid})
  {
  }
}
