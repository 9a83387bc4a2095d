/**
 ProxyBridge as the C helper uses it: an ordered list of rules where the first enabled match
 decides.
 */
module EngineRules {
  import opened Wrappers
  import opened Rules
  import opened RouterJson

  /** What a rule says, apart from its identity. */
  datatype Spec = Spec(processes: string, hosts: string, ports: string, protocol: RuleProtocol, action: RuleAction,
      proxy: nat, enabled: bool)

  datatype EngineRule = EngineRule(id: nat, spec: Spec)

  datatype Engine = Engine(rules: seq<EngineRule>, running: bool)

  datatype Packet = Packet(process: string, host: string, port: nat, udp: bool)

  /** How ProxyBridge matches one pattern, host list or port list; a star and the full range match all. */
  datatype Matcher = Matcher(process: (string, string) -> bool, host: (string, string) -> bool, port: (string,
      nat) -> bool) {
    ghost predicate Ok() {
      && (forall h :: host("*", h))
      && (forall p :: port("*", p) && port("0-65535", p))
    }
  }

  /** The patterns of a semicolon-separated list. */
  function Patterns(list: string): seq<string> {
    if list == "" then [] else Split(list, ';')
  }

  ghost predicate Covers(m: Matcher, list: string, process: string) {
    exists i :: 0 <= i < |Patterns(list)| && m.process(Patterns(list)[i], process)
  }

  ghost predicate Applies(m: Matcher, s: Spec, p: Packet) {
    && s.enabled && Covers(m, s.processes, p.process) && m.host(s.hosts, p.host) && m.port(s.ports, p.port)
    && (s.protocol == BOTH || (s.protocol == UDP) == p.udp)
  }

  /** The first enabled match decides; None is left alone. */
  ghost function Verdict(m: Matcher, rules: seq<EngineRule>, p: Packet): Option<RuleAction> {
    if rules == [] then None
    else if Applies(m, rules[0].spec, p) then Some(rules[0].spec.action)
    else Verdict(m, rules[1..], p)
  }

  function GuardSpec(list: string): Spec {
    Spec(list, "*", "0-65535", BOTH, BLOCK, 0, true)
  }

  function Delete(rules: seq<EngineRule>, id: nat): seq<EngineRule> {
    if rules == [] then []
    else if rules[0].id == id then rules[1..]
    else [rules[0]] + Delete(rules[1..], id)
  }

  predicate Has(rules: seq<EngineRule>, id: nat) {
    exists i :: 0 <= i < |rules| && rules[i].id == id
  }

  /** `MoveRuleToPosition(id, 1)`. */
  function MoveToFront(rules: seq<EngineRule>, id: nat): seq<EngineRule>
    requires Has(rules, id)
  {
    [Get(rules, id)] + Delete(rules, id)
  }

  function Get(rules: seq<EngineRule>, id: nat): EngineRule
    requires Has(rules, id)
  {
    if rules[0].id == id then rules[0] else Get(rules[1..], id)
  }

  /** Replaces what the rule `id` says. */
  function Change(rules: seq<EngineRule>, id: nat, spec: Spec): seq<EngineRule> {
    if rules == [] then []
    else if rules[0].id == id then [EngineRule(id, spec)] + rules[1..]
    else [rules[0]] + Change(rules[1..], id, spec)
  }

  function Ids(rules: seq<EngineRule>): seq<nat> {
    seq(|rules|, i requires 0 <= i < |rules| => rules[i].id)
  }

  function Specs(rules: seq<EngineRule>): seq<Spec> {
    seq(|rules|, i requires 0 <= i < |rules| => rules[i].spec)
  }

  lemma {:induction false} DeleteLast(rules: seq<EngineRule>, g: EngineRule)
    requires !Has(rules, g.id)
    ensures Delete(rules + [g], g.id) == rules && Has(rules + [g], g.id) && Get(rules + [g], g.id) == g
  {
    assert (rules + [g])[|rules|].id == g.id;
    if rules != [] {
      assert (rules + [g])[1..] == rules[1..] + [g];
      HasCons(rules, g.id);
      assert rules[0].id != g.id;
      DeleteLast(rules[1..], g);
    }
  }

  lemma {:induction false} ChangeLast(rules: seq<EngineRule>, g: EngineRule, spec: Spec)
    requires !Has(rules, g.id)
    ensures Change(rules + [g], g.id, spec) == rules + [EngineRule(g.id, spec)]
  {
    if rules != [] {
      assert (rules + [g])[1..] == rules[1..] + [g];
      assert rules[0].id != g.id;
      assert forall i :: 0 <= i < |rules[1..]| ==> rules[1..][i].id == rules[i + 1].id;
      ChangeLast(rules[1..], g, spec);
    }
  }

  lemma {:induction false} DeleteIds(rules: seq<EngineRule>, id: nat, x: nat)
    requires forall i, j :: 0 <= i < j < |rules| ==> rules[i].id != rules[j].id
    ensures Has(Delete(rules, id), x) <==> Has(rules, x) && x != id
    ensures forall i, j :: 0 <= i < j < |Delete(rules, id)| ==> Delete(rules, id)[i].id != Delete(rules, id)[j].id
  {
    if rules != [] {
      var tail := rules[1..];
      HasCons(rules, x);
      if rules[0].id == id {
        assert forall i :: 0 <= i < |tail| ==> tail[i].id != id;
      } else {
        DeleteIds(tail, id, x);
        DeleteIds(tail, id, rules[0].id);
        var rest := Delete(tail, id);
        assert Delete(rules, id)[1..] == rest;
        HasCons(Delete(rules, id), x);
        assert !Has(tail, rules[0].id);
        forall i, j | 0 <= i < j < |Delete(rules, id)| ensures Delete(rules, id)[i].id != Delete(rules, id)[j].id {
          if i == 0 {
            assert !Has(rest, rules[0].id) && rest[j - 1] == Delete(rules, id)[j];
          }
        }
      }
    }
  }

  lemma HasCons(rules: seq<EngineRule>, x: nat)
    requires rules != []
    ensures Has(rules, x) <==> rules[0].id == x || Has(rules[1..], x)
  {
    if Has(rules[1..], x) {
      var i :| 0 <= i < |rules[1..]| && rules[1..][i].id == x;
      assert rules[i + 1].id == x;
    }
    if Has(rules, x) && rules[0].id != x {
      var i :| 0 <= i < |rules| && rules[i].id == x;
      assert rules[1..][i - 1].id == x;
    }
  }

  // What the guard does to packets.

  lemma {:induction false} SplitAppend(a: string, b: string)
    ensures Split(a + ";" + b, ';') == Split(a, ';') + Split(b, ';')
  {
    if a == [] {
      assert (a + ";" + b)[1..] == b;
    } else {
      assert (a + ";" + b)[1..] == a[1..] + ";" + b;
      SplitAppend(a[1..], b);
    }
  }

  /** A joined list covers what either part covers. */
  lemma JoinedCovers(m: Matcher, a: string, b: string, process: string)
    requires AppendPattern(a, b).Some? && b != ""
    ensures Covers(m, AppendPattern(a, b).value, process) <==> Covers(m, a, process) || Covers(m, b, process)
  {
    var joined := AppendPattern(a, b).value;
    if a == "" {
      assert joined == b;
    } else {
      assert joined == a + ";" + b;
      SplitAppend(a, b);
      var s, t := Patterns(a), Patterns(b);
      assert Patterns(joined) == s + t;
      if Covers(m, b, process) {
        var i :| 0 <= i < |t| && m.process(t[i], process);
        assert (s + t)[|s| + i] == t[i];
      }
      if Covers(m, a, process) {
        var i :| 0 <= i < |s| && m.process(s[i], process);
        assert (s + t)[i] == s[i];
      }
    }
  }

  /** Every pattern of one list is in the other. */
  ghost predicate PatternsIn(part: string, list: string) {
    forall i :: 0 <= i < |Patterns(part)| ==> Patterns(part)[i] in Patterns(list)
  }

  lemma PatternsInCovers(m: Matcher, part: string, list: string, process: string)
    requires PatternsIn(part, list) && Covers(m, part, process)
    ensures Covers(m, list, process)
  {
    var i :| 0 <= i < |Patterns(part)| && m.process(Patterns(part)[i], process);
    var j :| 0 <= j < |Patterns(list)| && Patterns(list)[j] == Patterns(part)[i];
  }

  lemma PatternsInThen(a: string, b: string, c: string)
    requires PatternsIn(a, b) && PatternsIn(b, c)
    ensures PatternsIn(a, c)
  {
    forall i | 0 <= i < |Patterns(a)| ensures Patterns(a)[i] in Patterns(c) {
      var j :| 0 <= j < |Patterns(b)| && Patterns(b)[j] == Patterns(a)[i];
    }
  }

  /** Both parts of a joined list are in it. */
  lemma JoinedParts(a: string, b: string)
    ensures PatternsIn(a, if a == "" then b else a + ";" + b) && PatternsIn(b, if a == "" then b else a + ";" + b)
  {
    if a != "" {
      SplitAppend(a, b);
      assert Patterns(a + ";" + b) == Patterns(a) + Split(b, ';');
    }
  }

  /** Some rule that applies gives the verdict. */
  lemma {:induction false} VerdictFrom(m: Matcher, rules: seq<EngineRule>, p: Packet) returns (i: nat)
    requires Verdict(m, rules, p).Some?
    ensures i < |rules| && Applies(m, rules[i].spec, p) && Verdict(m, rules, p) == Some(rules[i].spec.action)
  {
    i := 0;
    if !Applies(m, rules[0].spec, p) {
      var j := VerdictFrom(m, rules[1..], p);
      i := j + 1;
    }
  }

  lemma GuardBlocks(m: Matcher, rules: seq<EngineRule>, list: string, p: Packet)
    requires m.Ok() && rules != [] && rules[0].spec == GuardSpec(list) && Covers(m, list, p.process)
    ensures Verdict(m, rules, p) == Some(BLOCK)
  {
  }

  lemma {:induction false} VerdictThen(m: Matcher, rules: seq<EngineRule>, g: EngineRule, p: Packet)
    ensures Verdict(m, rules + [g], p) ==
            if Verdict(m, rules, p).Some? then Verdict(m, rules, p) else Verdict(m, [g], p)
  {
    if rules == [] {
      assert rules + [g] == [g];
    } else {
      assert (rules + [g])[1..] == rules[1..] + [g];
      VerdictThen(m, rules[1..], g, p);
    }
  }
}
