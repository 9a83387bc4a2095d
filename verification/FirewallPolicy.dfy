/**
 The Windows firewall reconciler (internal/winfirewall/policy.go) over a store whose calls may fail
 or do nothing. Deleting a name takes out one rule of that name, whichever the system picks.
 */
module FirewallPolicy {
  import opened Wrappers
  import opened Glob

  datatype Rule = Rule(name: string, group: string, description: string, application: string, service: string,
      protocol: int, localPorts: string, remotePorts: string, localAddresses: string, remoteAddresses: string,
      direction: int, action: int, profiles: bv32, interfaceTypes: string, edgeTraversal: bool, enabled: bool)

  datatype Mode = Ensure | Check | Remove

  const ALL_PROFILES: bv32 := 0x7fffffff

  /** The representative of a rule up to case and profile encoding. */
  function Canonical(r: Rule): Rule {
    r.(name := Lower(r.name), group := Lower(r.group), application := Lower(r.application),
      interfaceTypes := Lower(r.interfaceTypes),
       profiles := if r.profiles & 7 == 7 then ALL_PROFILES else r.profiles)
  }

  predicate SameRule(a: Rule, b: Rule) {
    Canonical(a) == Canonical(b)
  }

  // Filtering.

  function Keep(rules: seq<Rule>, p: Rule -> bool): seq<Rule> {
    if rules == [] then []
    else
      var last := |rules| - 1;
      Keep(rules[..last], p) + if p(rules[last]) then [rules[last]] else []
  }

  function Named(name: string): Rule -> bool {
    (r: Rule) => EqualFold(r.name, name)
  }

  function Foreign(group: string): Rule -> bool {
    (r: Rule) => !EqualFold(r.group, group)
  }

  /** Not one of the desired names. */
  function Unreserved(desired: seq<Rule>): Rule -> bool {
    (r: Rule) => forall i :: 0 <= i < |desired| ==> !EqualFold(r.name, desired[i].name)
  }

  lemma {:induction false} KeepAppend(a: seq<Rule>, b: seq<Rule>, p: Rule -> bool)
    ensures Keep(a + b, p) == Keep(a, p) + Keep(b, p)
    decreases |b|
  {
    if b == [] {
      assert a + b == a;
    } else {
      var last := |b| - 1;
      assert (a + b)[..|a + b| - 1] == a + b[..last] && (a + b)[|a + b| - 1] == b[last];
      KeepAppend(a, b[..last], p);
    }
  }

  lemma KeepOne(r: Rule, p: Rule -> bool)
    ensures Keep([r], p) == if p(r) then [r] else []
  {
    assert [r][..0] == [];
  }

  function Drop(rules: seq<Rule>, i: nat): seq<Rule>
    requires i < |rules|
  {
    rules[..i] + rules[i + 1..]
  }

  lemma KeepDrop(rules: seq<Rule>, i: nat, p: Rule -> bool)
    requires i < |rules|
    ensures !p(rules[i]) ==> Keep(Drop(rules, i), p) == Keep(rules, p)
    ensures p(rules[i]) ==> |Keep(Drop(rules, i), p)| == |Keep(rules, p)| - 1
  {
    assert rules == rules[..i] + ([rules[i]] + rules[i + 1..]);
    KeepMiddle(rules[..i], rules[i], rules[i + 1..], p);
  }

  lemma KeepMiddle(a: seq<Rule>, r: Rule, b: seq<Rule>, p: Rule -> bool)
    ensures Keep(a + ([r] + b), p) == Keep(a, p) + ((if p(r) then [r] else []) + Keep(b, p))
    ensures Keep(a + b, p) == Keep(a, p) + Keep(b, p)
  {
    KeepAppend(a, [r] + b, p);
    KeepAppend([r], b, p);
    KeepOne(r, p);
    KeepAppend(a, b, p);
  }

  lemma {:induction false} KeepSound(rules: seq<Rule>, p: Rule -> bool)
    ensures forall r :: r in Keep(rules, p) <==> r in rules && p(r)
  {
    if rules != [] {
      var last := |rules| - 1;
      KeepSound(rules[..last], p);
      assert rules == rules[..last] + [rules[last]];
    }
  }

  /** The loop of `matching`. */
  method Matching(rules: seq<Rule>, name: string) returns (result: seq<Rule>)
    ensures result == Keep(rules, Named(name))
  {
    result := [];
    for i := 0 to |rules|
      invariant result == Keep(rules[..i], Named(name))
    {
      assert rules[..i + 1][..i] == rules[..i];
      if EqualFold(rules[i].name, name) { result := result + [rules[i]]; }
    }
    assert rules[..|rules|] == rules;
  }

  // The store.

  datatype Outcome = Works | Fails | Lies

  /** Every rule of this name belongs to the group. */
  ghost predicate OwnName(rules: seq<Rule>, group: string, name: string) {
    forall r :: r in rules && EqualFold(r.name, name) ==> EqualFold(r.group, group)
  }

  // What a change leaves alone.

  function NotNamed(name: string): Rule -> bool {
    (r: Rule) => !EqualFold(r.name, name)
  }

  /** Only rules of that name came or went. */
  ghost predicate Only(before: seq<Rule>, after: seq<Rule>, name: string) {
    Keep(after, NotNamed(name)) == Keep(before, NotNamed(name))
  }

  lemma {:induction false} KeepThrough(rules: seq<Rule>, p: Rule -> bool, q: Rule -> bool)
    requires forall r :: r in rules && p(r) ==> q(r)
    ensures Keep(Keep(rules, q), p) == Keep(rules, p)
  {
    if rules != [] {
      var last := |rules| - 1;
      KeepThrough(rules[..last], p, q);
      KeepAppend(Keep(rules[..last], q), if q(rules[last]) then [rules[last]] else [], p);
      KeepOne(rules[last], p);
    }
  }

  lemma OnlyKeeps(before: seq<Rule>, after: seq<Rule>, name: string, p: Rule -> bool)
    requires Only(before, after, name)
    requires forall r :: (r in before || r in after) && p(r) ==> !EqualFold(r.name, name)
    ensures Keep(after, p) == Keep(before, p)
  {
    KeepThrough(before, p, NotNamed(name));
    KeepThrough(after, p, NotNamed(name));
  }

  /** Rules of other names belong to the group as before. */
  lemma OnlyOwn(before: seq<Rule>, after: seq<Rule>, name: string, group: string, other: string)
    requires Only(before, after, name) && OwnName(after, group, name) && OwnName(before, group, other)
    ensures OwnName(after, group, other)
  {
    KeepSound(before, NotNamed(name));
    KeepSound(after, NotNamed(name));
    forall r | r in after && EqualFold(r.name, other) ensures EqualFold(r.group, group) {
      if !EqualFold(r.name, name) { assert r in Keep(after, NotNamed(name)); }
    }
  }

  lemma OnlyThen(a: seq<Rule>, b: seq<Rule>, c: seq<Rule>, name: string)
    requires Only(a, b, name) && Only(b, c, name)
    ensures Only(a, c, name)
  {
  }

  ghost predicate Within(rules: seq<Rule>, listed: seq<Rule>) {
    forall r :: r in rules ==> r in listed
  }

  lemma DropOnly(rules: seq<Rule>, i: nat, name: string, group: string)
    requires i < |rules| && EqualFold(rules[i].name, name)
    ensures Only(rules, Drop(rules, i), name) && |Keep(Drop(rules, i), Named(name))| == |Keep(rules, Named(name))| - 1
    ensures OwnName(rules, group, name) ==> OwnName(Drop(rules, i), group, name)
    ensures Within(Drop(rules, i), rules)
  {
    KeepDrop(rules, i, NotNamed(name));
    KeepDrop(rules, i, Named(name));
    forall r | r in Drop(rules, i) ensures r in rules {
    }
  }

  lemma AddOnly(rules: seq<Rule>, want: Rule, group: string)
    requires EqualFold(want.group, group) && OwnName(rules, group, want.name)
    ensures Only(rules, rules + [want], want.name) && OwnName(rules + [want], group, want.name)
    ensures Keep(rules + [want], Named(want.name)) == Keep(rules, Named(want.name)) + [want]
  {
    KeepAppend(rules, [want], NotNamed(want.name));
    KeepAppend(rules, [want], Named(want.name));
    KeepOne(want, NotNamed(want.name));
    KeepOne(want, Named(want.name));
  }

  lemma NoneNamed(rules: seq<Rule>, name: string)
    requires Keep(rules, Named(name)) != []
    ensures exists i :: 0 <= i < |rules| && EqualFold(rules[i].name, name)
  {
    KeepSound(rules, Named(name));
    var r := Keep(rules, Named(name))[0];
    assert r in Keep(rules, Named(name));
  }

  class Store {
    var rules: seq<Rule>
    var writes: nat
    /** What the next calls do; afterwards every call works. */
    var script: seq<Outcome>

    constructor (rules: seq<Rule>, script: seq<Outcome>)
      ensures this.rules == rules && this.script == script && writes == 0
    {
      this.rules, this.script, writes := rules, script, 0;
    }

    method Next() returns (outcome: Outcome)
      modifies this`script
      ensures old(script) == [] ==> outcome == Works && script == []
    {
      if script == [] { return Works; }
      outcome := script[0];
      script := script[1..];
    }

    method List() returns (result: Option<seq<Rule>>)
      modifies this`script
      ensures result == None || result == Some(rules)
      ensures old(script) == [] ==> result.Some? && script == []
    {
      var outcome := Next();
      return if outcome == Fails then None else Some(rules);
    }

    method Modifiable() returns (ok: bool)
      modifies this`script
      ensures old(script) == [] ==> ok && script == []
    {
      var outcome := Next();
      return outcome != Fails;
    }

    method Add(rule: Rule) returns (ok: bool)
      modifies this`rules, this`writes, this`script
      ensures rules == old(rules) || rules == old(rules) + [rule]
      ensures old(script) == [] ==> ok && rules == old(rules) + [rule] && script == []
    {
      writes := writes + 1;
      var outcome := Next();
      if outcome == Works { rules := rules + [rule]; }
      return outcome != Fails;
    }

    /** A rule of that name goes, if there is one. */
    method Delete(name: string) returns (ok: bool)
      modifies this`rules, this`writes, this`script
      ensures rules == old(rules) ||
              exists i :: 0 <= i < |old(rules)| && EqualFold(old(rules)[i].name, name) && rules == Drop(old(rules), i)
      ensures old(script) == [] ==> ok && script == [] && (rules == old(rules) ==> forall i :: 0 <= i < |rules| ==>
              !EqualFold(rules[i].name, name))
    {
      writes := writes + 1;
      var outcome := Next();
      if outcome == Works && exists i :: 0 <= i < |rules| && EqualFold(rules[i].name, name) {
        var i :| 0 <= i < |rules| && EqualFold(rules[i].name, name);
        rules := Drop(rules, i);
      }
      return outcome != Fails;
    }
  }

  /** One deletion of a name that belongs to the group. */
  method DeleteOwn(store: Store, ruleName: string, name: string, group: string) returns (ok: bool)
    requires EqualFold(ruleName, name) && OwnName(store.rules, group, name)
    modifies store
    ensures Only(old(store.rules), store.rules, name) && OwnName(store.rules, group, name) &&
            Within(store.rules, old(store.rules))
    ensures old(store.script) == [] ==>
              && ok && store.script == []
              && |Keep(store.rules, Named(name))| == if old(Keep(store.rules, Named(name))) == [] then 0
                 else |old(Keep(store.rules, Named(name)))| - 1
  {
    ghost var before := store.rules;
    ok := store.Delete(ruleName);
    if store.rules != before {
      ghost var i :| 0 <= i < |before| && EqualFold(before[i].name, ruleName) && store.rules == Drop(before, i);
      DropOnly(before, i, name, group);
    } else if Keep(before, Named(name)) != [] {
      NoneNamed(before, name);
    }
  }

  /** The deletions before a rule is recreated. */
  method DeleteFound(store: Store, found: seq<Rule>, name: string, group: string) returns (ok: bool)
    requires OwnName(store.rules, group, name) && forall i :: 0 <= i < |found| ==> EqualFold(found[i].name, name)
    modifies store
    ensures Only(old(store.rules), store.rules, name) && OwnName(store.rules, group, name)
    ensures old(store.script) == [] && |Keep(old(store.rules), Named(name))| == |found| ==>
            ok && store.script == [] && Keep(store.rules, Named(name)) == []
  {
    for i := 0 to |found|
      invariant Only(old(store.rules), store.rules, name) && OwnName(store.rules, group, name)
      invariant old(store.script) == [] && |Keep(old(store.rules), Named(name))| == |found| ==>
                store.script == [] && |Keep(store.rules, Named(name))| == |found| - i
    {
      label before:
      ok := DeleteOwn(store, found[i].name, name, group);
      OnlyThen(old(store.rules), old@before(store.rules), store.rules, name);
      if !ok { return; }
    }
    return true;
  }

  /** Recreates one rule. */
  method Recreate(store: Store, found: seq<Rule>, want: Rule, group: string) returns (ok: bool)
    requires OwnName(store.rules, group, want.name) && EqualFold(want.group, group) && forall i :: 0 <= i < |found| ==>
             EqualFold(found[i].name, want.name)
    modifies store
    ensures Only(old(store.rules), store.rules, want.name) && OwnName(store.rules, group, want.name)
    ensures old(store.script) == [] && |Keep(old(store.rules), Named(want.name))| == |found| ==>
            ok && store.script == [] && Keep(store.rules, Named(want.name)) == [want]
  {
    ok := DeleteFound(store, found, want.name, group);
    if !ok { return; }
    label deleted:
    AddOnly(store.rules, want, group);
    ok := store.Add(want);
    OnlyThen(old(store.rules), old@deleted(store.rules), store.rules, want.name);
  }

  // Preflight and verification.

  /** The desired rules have different names and carry the managed group. */
  ghost predicate Managed(desired: seq<Rule>, group: string) {
    && (forall i, j :: 0 <= i < j < |desired| ==> !EqualFold(desired[i].name, desired[j].name))
    && forall i :: 0 <= i < |desired| ==> EqualFold(desired[i].group, group)
  }

  ghost predicate NameFree(rules: seq<Rule>, group: string, name: string, repair: bool) {
    OwnName(rules, group, name) && (|Keep(rules, Named(name))| <= 1 || repair)
  }

  ghost predicate NamesFree(rules: seq<Rule>, group: string, desired: seq<Rule>, repair: bool) {
    forall i :: 0 <= i < |desired| ==> NameFree(rules, group, desired[i].name, repair)
  }

  /** No rule of the group shares its name with a foreign one. */
  ghost predicate Removable(rules: seq<Rule>, group: string) {
    forall r :: r in rules && EqualFold(r.group, group) ==> OwnName(rules, group, r.name)
  }

  ghost predicate Preflight(rules: seq<Rule>, group: string, desired: seq<Rule>, mode: Mode, repair: bool) {
    NamesFree(rules, group, desired, repair) && (mode == Remove ==> Removable(rules, group))
  }

  /** Exactly one rule of that name, equivalent to the wanted one. */
  ghost predicate Present(rules: seq<Rule>, want: Rule) {
    var found := Keep(rules, Named(want.name));
    |found| == 1 && SameRule(found[0], want)
  }

  ghost predicate Healthy(rules: seq<Rule>, desired: seq<Rule>) {
    forall i :: 0 <= i < |desired| ==> Present(rules, desired[i])
  }

  ghost predicate Emptied(rules: seq<Rule>, group: string) {
    forall r :: r in rules ==> !EqualFold(r.group, group)
  }

  method AllInGroup(found: seq<Rule>, group: string) returns (ok: bool)
    ensures ok == forall r :: r in found ==> EqualFold(r.group, group)
  {
    for i := 0 to |found|
      invariant forall j :: 0 <= j < i ==> EqualFold(found[j].group, group)
    {
      if !EqualFold(found[i].group, group) {
        assert found[i] in found;
        return false;
      }
    }
    return true;
  }

  lemma FoundIsOwn(rules: seq<Rule>, group: string, name: string)
    ensures OwnName(rules, group, name) <==> forall r :: r in Keep(rules, Named(name)) ==> EqualFold(r.group, group)
  {
    KeepSound(rules, Named(name));
    if forall r :: r in Keep(rules, Named(name)) ==> EqualFold(r.group, group) {
      forall r | r in rules && EqualFold(r.name, name) ensures EqualFold(r.group, group) {
        assert r in Keep(rules, Named(name));
      }
    }
  }

  method NamesAreFree(rules: seq<Rule>, group: string, desired: seq<Rule>, repair: bool) returns (ok: bool)
    ensures ok == NamesFree(rules, group, desired, repair)
  {
    for i := 0 to |desired|
      invariant forall j :: 0 <= j < i ==> NameFree(rules, group, desired[j].name, repair)
    {
      var found := Matching(rules, desired[i].name);
      FoundIsOwn(rules, group, desired[i].name);
      var own := AllInGroup(found, group);
      if !own || (|found| > 1 && !repair) {
        assert !NameFree(rules, group, desired[i].name, repair);
        return false;
      }
    }
    return true;
  }

  method IsRemovable(rules: seq<Rule>, group: string) returns (ok: bool)
    ensures ok == Removable(rules, group)
  {
    for i := 0 to |rules|
      invariant forall j :: 0 <= j < i && EqualFold(rules[j].group, group) ==> OwnName(rules, group, rules[j].name)
    {
      if EqualFold(rules[i].group, group) {
        var found := Matching(rules, rules[i].name);
        FoundIsOwn(rules, group, rules[i].name);
        var own := AllInGroup(found, group);
        if !own {
          assert rules[i] in rules;
          return false;
        }
      }
    }
    return true;
  }

  /** The check of every desired rule, before writing and after. */
  method IsHealthy(rules: seq<Rule>, desired: seq<Rule>) returns (ok: bool)
    ensures ok == Healthy(rules, desired)
  {
    for i := 0 to |desired|
      invariant forall j :: 0 <= j < i ==> Present(rules, desired[j])
    {
      var found := Matching(rules, desired[i].name);
      if |found| != 1 || !SameRule(found[0], desired[i]) {
        assert !Present(rules, desired[i]);
        return false;
      }
    }
    return true;
  }

  // Ensure.

  /** The rules before position i are in place, the others as they were listed, and nothing else has changed. */
  ghost predicate Ensured(listed: seq<Rule>, rules: seq<Rule>, group: string, desired: seq<Rule>, i: nat) {
    && i <= |desired|
    && (forall j :: 0 <= j < i ==> Present(rules, desired[j]))
    && (forall j :: i <= j < |desired| ==> Keep(rules, Named(desired[j].name)) == Keep(listed, Named(desired[j].name)))
  }

  /** Reserved names stay with the group; foreign and unreserved rules stay as they are. */
  ghost predicate Untouched(listed: seq<Rule>, rules: seq<Rule>, group: string, desired: seq<Rule>) {
    && (forall j :: 0 <= j < |desired| ==> OwnName(rules, group, desired[j].name))
    && Keep(rules, Foreign(group)) == Keep(listed, Foreign(group))
    && Keep(rules, Unreserved(desired)) == Keep(listed, Unreserved(desired))
  }

  lemma UntouchedStep(listed: seq<Rule>, before: seq<Rule>, after: seq<Rule>, group: string, desired: seq<Rule>, i: nat)
    requires Untouched(listed, before, group, desired) && i < |desired|
    requires Only(before, after, desired[i].name) && OwnName(after, group, desired[i].name)
    ensures Untouched(listed, after, group, desired)
  {
    var name := desired[i].name;
    forall j | 0 <= j < |desired| ensures OwnName(after, group, desired[j].name) {
      OnlyOwn(before, after, name, group, desired[j].name);
    }
    OnlyKeeps(before, after, name, Foreign(group));
    OnlyKeeps(before, after, name, Unreserved(desired));
  }

  lemma EnsuredStep(listed: seq<Rule>, before: seq<Rule>, after: seq<Rule>, group: string, desired: seq<Rule>, i: nat)
    requires Managed(desired, group) && Ensured(listed, before, group, desired, i) && i < |desired|
    requires Only(before, after, desired[i].name) && Present(after, desired[i])
    ensures Ensured(listed, after, group, desired, i + 1)
  {
    forall j | 0 <= j < |desired| &&
      j != i ensures Keep(after, Named(desired[j].name)) == Keep(before, Named(desired[j].name)) {
      assert !EqualFold(desired[j].name, desired[i].name);
      OnlyKeeps(before, after, desired[i].name, Named(desired[j].name));
    }
  }

  lemma FoundNames(rules: seq<Rule>, name: string)
    ensures forall k :: 0 <= k < |Keep(rules, Named(name))| ==> EqualFold(Keep(rules, Named(name))[k].name, name)
  {
    KeepSound(rules, Named(name));
    var found := Keep(rules, Named(name));
    forall k | 0 <= k < |found| ensures EqualFold(found[k].name, name) {
      assert found[k] in found;
    }
  }

  /** One desired rule: left alone when it is in place, recreated otherwise. */
  method EnsureOne(store: Store, listed: seq<Rule>, group: string, desired: seq<Rule>, i: nat) returns (ok: bool)
    requires Managed(desired, group) && i < |desired| && Untouched(listed, store.rules, group, desired)
    modifies store
    ensures Untouched(listed, store.rules, group, desired)
    ensures old(store.script) == [] && Ensured(listed, old(store.rules), group, desired, i) ==>
            ok && store.script == [] && Ensured(listed, store.rules, group, desired, i + 1)
    ensures Present(listed, desired[i]) ==> ok && store.rules == old(store.rules) && store.writes == old(store.writes)
  {
    var want := desired[i];
    var found := Matching(listed, want.name);
    if |found| == 1 && SameRule(found[0], want) { return true; }
    FoundNames(listed, want.name);
    ok := Recreate(store, found, want, group);
    UntouchedStep(listed, old(store.rules), store.rules, group, desired, i);
    if old(store.script) == [] && Ensured(listed, old(store.rules), group, desired, i) {
      EnsuredStep(listed, old(store.rules), store.rules, group, desired, i);
    }
  }

  method EnsureAll(store: Store, group: string, desired: seq<Rule>) returns (ok: bool)
    requires Managed(desired, group) &&
             (forall j :: 0 <= j < |desired| ==> OwnName(store.rules, group, desired[j].name))
    modifies store
    ensures Untouched(old(store.rules), store.rules, group, desired)
    ensures old(store.script) == [] ==> ok && store.script == [] && Healthy(store.rules, desired)
    ensures old(Healthy(store.rules, desired)) ==>
            ok && store.rules == old(store.rules) && store.writes == old(store.writes)
  {
    var listed := store.rules;
    for i := 0 to |desired|
      invariant Untouched(listed, store.rules, group, desired)
      invariant old(store.script) == [] ==> store.script == [] && Ensured(listed, store.rules, group, desired, i)
      invariant old(Healthy(store.rules, desired)) ==> store.rules == listed && store.writes == old(store.writes)
    {
      ok := EnsureOne(store, listed, group, desired, i);
      if !ok { return; }
    }
    return true;
  }

  // Remove.

  function OwnNamed(group: string, name: string): Rule -> bool {
    (r: Rule) => EqualFold(r.group, group) && EqualFold(r.name, name)
  }

  lemma {:induction false} KeepSame(rules: seq<Rule>, p: Rule -> bool, q: Rule -> bool)
    requires forall r :: r in rules ==> p(r) == q(r)
    ensures Keep(rules, p) == Keep(rules, q)
  {
    if rules != [] {
      var last := |rules| - 1;
      KeepSame(rules[..last], p, q);
    }
  }

  /** As many rules of each managed name are left as deletions are still to come. */
  ghost predicate Pending(listed: seq<Rule>, rules: seq<Rule>, group: string, i: nat) {
    && i <= |listed|
    && forall r :: r in listed && EqualFold(r.group, group) ==>
       |Keep(rules, Named(r.name))| == |Keep(listed[i..], OwnNamed(group, r.name))|
  }

  lemma PendingStart(listed: seq<Rule>, group: string)
    requires Removable(listed, group)
    ensures Pending(listed, listed, group, 0)
  {
    assert listed[0..] == listed;
    forall r | r in listed && EqualFold(r.group, group) ensures |Keep(listed, Named(r.name))| ==
      |Keep(listed[0..], OwnNamed(group, r.name))| {
      KeepSame(listed, Named(r.name), OwnNamed(group, r.name));
    }
  }

  lemma TailCount(listed: seq<Rule>, i: nat, p: Rule -> bool)
    requires i < |listed|
    ensures |Keep(listed[i..], p)| == |Keep(listed[i + 1..], p)| + if p(listed[i]) then 1 else 0
  {
    assert listed[i..] == [listed[i]] + listed[i + 1..];
    KeepAppend([listed[i]], listed[i + 1..], p);
    KeepOne(listed[i], p);
  }

  lemma PendingSkip(listed: seq<Rule>, rules: seq<Rule>, group: string, i: nat)
    requires Pending(listed, rules, group, i) && i < |listed| && !EqualFold(listed[i].group, group)
    ensures Pending(listed, rules, group, i + 1)
  {
    forall r | r in listed && EqualFold(r.group, group) ensures |Keep(rules, Named(r.name))| ==
      |Keep(listed[i + 1..], OwnNamed(group, r.name))| {
      TailCount(listed, i, OwnNamed(group, r.name));
    }
  }

  lemma PendingStep(listed: seq<Rule>, before: seq<Rule>, after: seq<Rule>, group: string, i: nat)
    requires Pending(listed, before, group, i) && i < |listed| && EqualFold(listed[i].group, group)
    requires Only(before, after, listed[i].name)
    requires |Keep(after, Named(listed[i].name))| == if Keep(before, Named(listed[i].name)) == [] then 0
             else |Keep(before, Named(listed[i].name))| - 1
    ensures Pending(listed, after, group, i + 1)
  {
    var rule := listed[i];
    forall r | r in listed && EqualFold(r.group, group) ensures |Keep(after, Named(r.name))| ==
      |Keep(listed[i + 1..], OwnNamed(group, r.name))| {
      TailCount(listed, i, OwnNamed(group, r.name));
      if EqualFold(r.name, rule.name) {
        KeepSame(before, Named(r.name), Named(rule.name));
        KeepSame(after, Named(r.name), Named(rule.name));
      } else {
        OnlyKeeps(before, after, rule.name, Named(r.name));
      }
    }
  }

  lemma PendingDone(listed: seq<Rule>, rules: seq<Rule>, group: string)
    requires Pending(listed, rules, group, |listed|) && Within(rules, listed)
    ensures Emptied(rules, group)
  {
    assert listed[|listed|..] == [];
    forall r | r in rules ensures !EqualFold(r.group, group) {
      KeepSound(rules, Named(r.name));
      assert r in Keep(rules, Named(r.name));
    }
  }

  /** Only rules of the group have gone. */
  ghost predicate Removing(listed: seq<Rule>, rules: seq<Rule>, group: string) {
    Within(rules, listed) && Keep(rules, Foreign(group)) == Keep(listed, Foreign(group))
  }

  method RemoveOne(store: Store, listed: seq<Rule>, group: string, i: nat) returns (ok: bool)
    requires Removable(listed, group) && i < |listed| && Removing(listed, store.rules, group)
    modifies store
    ensures Removing(listed, store.rules, group)
    ensures old(store.script) == [] && Pending(listed, old(store.rules), group, i) ==>
            ok && store.script == [] && Pending(listed, store.rules, group, i + 1)
  {
    var rule := listed[i];
    if !EqualFold(rule.group, group) {
      if Pending(listed, store.rules, group, i) { PendingSkip(listed, store.rules, group, i); }
      return true;
    }
    assert rule in listed;
    ok := DeleteOwn(store, rule.name, rule.name, group);
    OnlyKeeps(old(store.rules), store.rules, rule.name, Foreign(group));
    if old(store.script) == [] && Pending(listed, old(store.rules), group, i) {
      PendingStep(listed, old(store.rules), store.rules, group, i);
    }
  }

  method RemoveAll(store: Store, group: string) returns (ok: bool)
    requires Removable(store.rules, group)
    modifies store
    ensures Removing(old(store.rules), store.rules, group)
    ensures old(store.script) == [] ==> ok && store.script == [] && Emptied(store.rules, group)
  {
    var listed := store.rules;
    PendingStart(listed, group);
    for i := 0 to |listed|
      invariant Removing(listed, store.rules, group)
      invariant old(store.script) == [] ==> store.script == [] && Pending(listed, store.rules, group, i)
    {
      ok := RemoveOne(store, listed, group, i);
      if !ok { return; }
    }
    if old(store.script) == [] { PendingDone(listed, store.rules, group); }
    return true;
  }

  method NoneOfGroup(rules: seq<Rule>, group: string) returns (ok: bool)
    ensures ok == Emptied(rules, group)
  {
    for i := 0 to |rules|
      invariant forall j :: 0 <= j < i ==> !EqualFold(rules[j].group, group)
    {
      if EqualFold(rules[i].group, group) {
        assert rules[i] in rules;
        return false;
      }
    }
    return true;
  }

  // The whole operation.

  /** What success means. */
  ghost predicate Achieved(mode: Mode, rules: seq<Rule>, group: string, desired: seq<Rule>) {
    if mode == Remove then Emptied(rules, group) else Healthy(rules, desired)
  }

  /**
   `reconcile`. Foreign rules are never touched; nothing is written when the preflight fails, when only
   checking, or when everything is in place; success means the goal is reached, and on a working store the
   preflight is all it takes.
   */
  method Reconcile(store: Store, group: string, desired: seq<Rule>, mode: Mode, repair: bool) returns (ok: bool)
    requires Managed(desired, group)
    modifies store
    ensures Keep(store.rules, Foreign(group)) == Keep(old(store.rules), Foreign(group))
    ensures mode != Remove ==> Keep(store.rules, Unreserved(desired)) == Keep(old(store.rules), Unreserved(desired))
    ensures !Preflight(old(store.rules), group, desired, mode, repair) || mode == Check ||
            (mode == Ensure && Healthy(old(store.rules), desired)) ==>
              store.rules == old(store.rules) && store.writes == old(store.writes)
    ensures !Preflight(old(store.rules), group, desired, mode, repair) ==> !ok
    ensures ok ==> Achieved(mode, store.rules, group, desired)
    ensures old(store.script) == [] && Preflight(old(store.rules), group, desired, mode, repair) ==>
              store.script == [] && ok == (mode == Check ==> Healthy(old(store.rules), desired))
  {
    var listed := store.List();
    if listed == None { return false; }
    var rules := listed.value;
    var free := NamesAreFree(rules, group, desired, repair);
    if !free { return false; }
    if mode == Remove {
      var removable := IsRemovable(rules, group);
      if !removable { return false; }
    }
    if mode != Check {
      var modifiable := store.Modifiable();
      if !modifiable { return false; }
    }
    match mode
    case Remove => ok := RemoveAndVerify(store, group);
    case Ensure => ok := EnsureAndVerify(store, group, desired);
    case Check =>
      ok := IsHealthy(rules, desired);
      if ok { ok := Verify(store, desired); }
  }

  method Verify(store: Store, desired: seq<Rule>) returns (ok: bool)
    modifies store`script
    ensures ok ==> Healthy(store.rules, desired)
    ensures old(store.script) == [] ==> store.script == [] && ok == Healthy(store.rules, desired)
  {
    var actual := store.List();
    if actual == None { return false; }
    ok := IsHealthy(actual.value, desired);
  }

  method EnsureAndVerify(store: Store, group: string, desired: seq<Rule>) returns (ok: bool)
    requires Managed(desired, group) &&
             (forall j :: 0 <= j < |desired| ==> OwnName(store.rules, group, desired[j].name))
    modifies store
    ensures Untouched(old(store.rules), store.rules, group, desired)
    ensures ok ==> Healthy(store.rules, desired)
    ensures old(store.script) == [] ==> ok && store.script == []
    ensures old(Healthy(store.rules, desired)) ==> store.rules == old(store.rules) && store.writes == old(store.writes)
  {
    ok := EnsureAll(store, group, desired);
    if ok { ok := Verify(store, desired); }
  }

  method RemoveAndVerify(store: Store, group: string) returns (ok: bool)
    requires Removable(store.rules, group)
    modifies store
    ensures Removing(old(store.rules), store.rules, group)
    ensures ok ==> Emptied(store.rules, group)
    ensures old(store.script) == [] ==> ok && store.script == []
  {
    ok := RemoveAll(store, group);
    if !ok { return; }
    var remaining := store.List();
    if remaining == None { return false; }
    ok := NoneOfGroup(remaining.value, group);
  }

  /** What Ensure reaches passes its own preflight, so ensuring again succeeds and writes nothing. */
  lemma HealthyPassesPreflight(rules: seq<Rule>, group: string, desired: seq<Rule>, repair: bool)
    requires Managed(desired, group) && Healthy(rules, desired)
    ensures Preflight(rules, group, desired, Ensure, repair)
  {
    forall i | 0 <= i < |desired| ensures NameFree(rules, group, desired[i].name, repair) {
      var found := Keep(rules, Named(desired[i].name));
      assert Present(rules, desired[i]);
      assert Canonical(found[0]).group == Canonical(desired[i]).group;
      FoundIsOwn(rules, group, desired[i].name);
    }
  }

  /** Ensure on a working store, and ensure again: both succeed and the second writes nothing. */
  method EnsureTwice(store: Store, group: string, desired: seq<Rule>, repair: bool) returns (both: bool, writes: nat)
    requires Managed(desired, group) && store.script == [] && Preflight(store.rules, group, desired, Ensure, repair)
    modifies store
    ensures both && Healthy(store.rules, desired) && store.writes == writes
  {
    var first := Reconcile(store, group, desired, Ensure, repair);
    writes := store.writes;
    HealthyPassesPreflight(store.rules, group, desired, repair);
    var second := Reconcile(store, group, desired, Ensure, repair);
    both := first && second;
  }
}
