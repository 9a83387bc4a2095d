/**
 `normalizeRulesRequest` depends only on the set of rules, renumbers them 1..n in priority
 order, and is idempotent (processrouter/types.go). An accepted rule never names a protected
 process.
 */
module Normalize {
  import opened Wrappers
  import opened Glob
  import opened Permutations
  import opened Rules

  lemma AcceptancePermuted(a: seq<Rule>, b: seq<Rule>, valid: Rule -> bool, key: Rule -> string)
    requires multiset(a) == multiset(b)
    ensures AcceptableBy(a, valid, key) == AcceptableBy(b, valid, key)
  {
    PermutedSize(a, b);
    AllPermuted(a, b, valid);
    DistinctPermuted(a, b, RuleId);
    DistinctPermuted(a, b, key);
    DistinctPermuted(a, b, RulePriority);
    SumPermuted(a, b, RuleBytes);
  }

  /** Acceptance and result do not depend on the order in which the rules are listed. */
  lemma OrderIrrelevant(a: RulesRequest, b: RulesRequest, goos: string)
    requires b == a.(rules := b.rules) && multiset(a.rules) == multiset(b.rules)
    ensures Acceptable(a, goos) == Acceptable(b, goos)
    ensures Acceptable(a, goos) ==> Normalized(a, goos) == Normalized(b, goos)
  {
    hide ValidRule, PathKey, SortBy, Sum, Renumber;
    AcceptancePermuted(a.rules, b.rules, FilledValid(Platform(a, goos)), FilledKey(Platform(a, goos)));
    if Acceptable(a, goos) { SameSorted(a.rules, b.rules); }
  }

  lemma SameSorted(a: seq<Rule>, b: seq<Rule>)
    requires multiset(a) == multiset(b) && Distinct(Map(a, RulePriority))
    ensures SortBy(a, RulePriority) == SortBy(b, RulePriority)
  {
    var s, t := SortBy(a, RulePriority), SortBy(b, RulePriority);
    SortSorts(a, RulePriority);
    SortSorts(b, RulePriority);
    DistinctPermuted(a, s, RulePriority);
    SortedUnique(s, t, RulePriority);
  }

  lemma RankOfSorted(rules: seq<Rule>, k: nat)
    requires Distinct(Map(rules, RulePriority)) && k < |rules|
    ensures var s := SortBy(rules, RulePriority);
            && |s| == |rules| && s[k] in rules
            && |set x | x in rules && x.priority < s[k].priority| == k
  {
    var s := SortBy(rules, RulePriority);
    SortSorts(rules, RulePriority);
    PermutedSize(rules, s);
    DistinctPermuted(rules, s, RulePriority);
    SameElements(rules, s);
    RankIn(rules, s, k);
  }

  lemma RankIn(rules: seq<Rule>, s: seq<Rule>, k: nat)
    requires k < |s| && (forall x :: x in rules <==> x in s) && Sorted(s, RulePriority) &&
             Distinct(Map(s, RulePriority))
    ensures s[k] in rules && |set x | x in rules && x.priority < s[k].priority| == k
  {
    Rank(s, RulePriority, k);
    assert s[k] in s;
    forall x ensures x in rules && x.priority < s[k].priority <==> x in s[..k] {
      assert RulePriority(x) == x.priority;
    }
    assert (set x | x in rules && x.priority < s[k].priority) == (set x | x in s[..k]);
  }

  lemma SameElements(a: seq<Rule>, b: seq<Rule>)
    requires multiset(a) == multiset(b)
    ensures forall x :: x in a <==> x in b
  {
    assert forall x :: x in a <==> x in multiset(a);
    assert forall x :: x in b <==> x in multiset(b);
  }

  /** Position k of the result is the rule with the k-th smallest original priority, renumbered k + 1. */
  lemma PrioritiesRenumbered(request: RulesRequest, goos: string, k: nat) returns (r: Rule)
    requires Acceptable(request, goos) && k < |request.rules|
    ensures |Normalized(request, goos).rules| == |request.rules|
    ensures r in request.rules && Normalized(request, goos).rules[k] == Fill(r).(priority := k + 1)
    ensures |set x | x in request.rules && x.priority < r.priority| == k
  {
    RankOfSorted(request.rules, k);
    r := SortBy(request.rules, RulePriority)[k];
  }

  lemma {:induction false} SumRenumbered(sorted: seq<Rule>, rules: seq<Rule>)
    requires |rules| == |sorted|
    requires forall i :: 0 <= i < |sorted| ==> rules[i] == Fill(sorted[i]).(priority := rules[i].priority)
    ensures Sum(rules, RuleBytes) == Sum(sorted, RuleBytes)
  {
    if rules != [] {
      SumRenumbered(sorted[1..], rules[1..]);
    }
  }

  /** Neither filling in the kind nor renumbering matters to `valid` and `key`. */
  ghost predicate Renumberable(valid: Rule -> bool, key: Rule -> string) {
    && (forall r: Rule, p: int {:trigger valid(Fill(r).(priority := p))} :: valid(r) && 1 <= p <= MAX_RULES ==>
       valid(Fill(r).(priority := p)))
    && (forall r: Rule, p: int {:trigger key(Fill(r).(priority := p))} :: key(Fill(r).(priority := p)) == key(r))
  }

  lemma FilledRenumberable(platform: string)
    ensures Renumberable(FilledValid(platform), FilledKey(platform))
  {
    assert forall r: Rule,
           p: int {:trigger Fill(r).(priority := p)} :: Fill(Fill(r).(priority := p)) == Fill(r).(priority := p);
  }

  lemma RenumberedAcceptable(s: seq<Rule>, valid: Rule -> bool, key: Rule -> string)
    requires AcceptableBy(s, valid, key) && Renumberable(valid, key)
    ensures AcceptableBy(Renumber(s), valid, key)
  {
    var rules := Renumber(s);
    SumRenumbered(s, rules);
    assert Map(rules, RuleId) == Map(s, RuleId);
    assert Map(rules, key) == Map(s, key) by {
      forall i | 0 <= i < |s| ensures key(rules[i]) == key(s[i]) { assert rules[i] == Fill(s[i]).(priority := i + 1); }
    }
    forall r | r in rules ensures valid(r) {
      var i :| 0 <= i < |rules| && rules[i] == r;
      assert s[i] in s && r == Fill(s[i]).(priority := i + 1);
    }
  }

  lemma IdempotentRules(rules: seq<Rule>, valid: Rule -> bool, key: Rule -> string)
    requires AcceptableBy(rules, valid, key) && Renumberable(valid, key)
    ensures var once := Renumber(SortBy(rules, RulePriority));
            AcceptableBy(once, valid, key) && Renumber(SortBy(once, RulePriority)) == once
  {
    var s := SortBy(rules, RulePriority);
    SortSorts(rules, RulePriority);
    AcceptancePermuted(rules, s, valid, key);
    RenumberedAcceptable(s, valid, key);
    SortOfSorted(Renumber(s), RulePriority);
    assert Renumber(Renumber(s)) == Renumber(s);
  }

  /** Normalising twice changes nothing, so a saved configuration reloads as it was saved. */
  lemma Idempotent(request: RulesRequest, goos: string, later: string)
    requires Acceptable(request, goos)
    ensures Acceptable(Normalized(request, goos), later)
    ensures Normalized(Normalized(request, goos), later) == Normalized(request, goos)
  {
    hide ValidRule, PathKey, SortBy, Sum, AcceptableBy;
    var platform := Platform(request, goos);
    FilledRenumberable(platform);
    IdempotentRules(request.rules, FilledValid(platform), FilledKey(platform));
    assert Platform(Normalized(request, goos), later) == platform;
  }

  lemma ProtectedNamesStarFree(name: string)
    requires name in PROTECTED_NAMES
    ensures StarFree(name)
  {
  }

  lemma {:induction false} CoversEach(pattern: string, names: seq<string>, name: string)
    requires name in names && !CoversAny(pattern, names)
    ensures !GoMatches(pattern, name)
  {
    if name != names[0] {
      CoversEach(pattern, names[1..], name);
    }
  }

  lemma UncoveredMeansUnmatched(pattern: string, name: string)
    requires !GoMatches(pattern, name) && StarFree(name)
    ensures !Matches(Lower(pattern), Lower(name))
  {
    GoMeaning(pattern, name);
  }

  lemma ValidRuleUnprotected(rule: Rule, platform: string, name: string)
    requires ValidRule(rule, platform) && name in PROTECTED_NAMES
    ensures !Matches(Lower(RuleName(rule.matchKind, rule.executablePath, rule.executableName, platform)), Lower(name))
  {
    var pattern := RuleName(rule.matchKind, rule.executablePath, rule.executableName, platform);
    CoversEach(pattern, PROTECTED_NAMES, name);
    ProtectedNamesStarFree(name);
    UncoveredMeansUnmatched(pattern, name);
  }

  /** What `validateRule` promises: no accepted pattern's base name covers a protected process. */
  lemma ProtectedNamesSafe(request: RulesRequest, goos: string, rule: Rule, name: string)
    requires Acceptable(request, goos) && rule in Normalized(request, goos).rules && name in PROTECTED_NAMES
    ensures !Matches(Lower(RuleName(rule.matchKind, rule.executablePath, rule.executableName, Platform(request, goos))),
            Lower(name))
  {
    hide Matches, Lower, RuleName, SortBy, Sum, ValidRule;
    Idempotent(request, goos, goos);
    assert FilledValid(Platform(request, goos))(rule);
    ValidRuleUnprotected(rule, Platform(request, goos), name);
  }

  ghost predicate Seen<T(!new)>(keys: set<T>, rules: seq<Rule>, f: Rule -> T) {
    forall x :: x in keys <==> x in Map(rules, f)
  }

  lemma SeenNext<T(!new)>(keys: set<T>, rules: seq<Rule>, rule: Rule, f: Rule -> T)
    requires Seen(keys, rules, f)
    ensures Seen(keys + {f(rule)}, rules + [rule], f)
    ensures Distinct(Map(rules + [rule], f)) <==> Distinct(Map(rules, f)) && f(rule) !in keys
  {
    var m := Map(rules + [rule], f);
    assert m == Map(rules, f) + [f(rule)];
    if f(rule) in keys {
      var j :| 0 <= j < |rules| && Map(rules, f)[j] == f(rule);
      assert m[j] == m[|rules|];
    }
    if Distinct(m) {
      forall i, j | 0 <= i < j < |rules| ensures Map(rules, f)[i] != Map(rules, f)[j] {
        assert m[i] != m[j];
      }
    }
  }

  lemma AllNext(rules: seq<Rule>, rule: Rule, valid: Rule -> bool)
    ensures All(rules + [rule], valid) <==> All(rules, valid) && valid(rule)
  {
    if All(rules + [rule], valid) {
      assert rule in rules + [rule];
      assert forall x :: x in rules ==> x in rules + [rule];
    }
  }

  lemma SumNext(rules: seq<Rule>, rule: Rule)
    ensures Sum(rules + [rule], RuleBytes) == Sum(rules, RuleBytes) + RuleBytes(rule)
  {
    SumAppend(rules, [rule], RuleBytes);
    assert Sum([rule], RuleBytes) == RuleBytes(rule) + Sum([rule][1..], RuleBytes);
  }

  /** What the checking loop knows after `rules`. */
  ghost predicate Checked(rules: seq<Rule>, valid: Rule -> bool, key: Rule -> string, ids: set<string>,
      paths: set<string>, priorities: set<int>, total: nat) {
    && AcceptableBy(rules, valid, key) && total == Sum(rules, RuleBytes)
    && Seen(ids, rules, RuleId) && Seen(paths, rules, key) && Seen(priorities, rules, RulePriority)
  }

  /** The tests made on one rule decide whether the rules so far are acceptable. */
  lemma CheckedNext(rules: seq<Rule>, rule: Rule, valid: Rule -> bool, key: Rule -> string, ids: set<string>,
      paths: set<string>, priorities: set<int>, total: nat)
    requires Checked(rules, valid, key, ids, paths, priorities, total) && |rules| < MAX_RULES
    ensures var ok := && valid(rule) && rule.id !in ids && key(rule) !in paths && rule.priority !in priorities
                      && total + RuleBytes(rule) <= MAX_TOTAL_BYTES;
            && (AcceptableBy(rules + [rule], valid, key) <==> ok)
            && (ok ==> Checked(rules + [rule], valid, key, ids + {rule.id}, paths + {key(rule)},
               priorities + {rule.priority},
                               total + RuleBytes(rule)))
  {
    SeenNext(ids, rules, rule, RuleId);
    SeenNext(paths, rules, rule, key);
    SeenNext(priorities, rules, rule, RulePriority);
    SumNext(rules, rule);
    AllNext(rules, rule, valid);
    assert |rules + [rule]| <= MAX_RULES;
    assert RuleId(rule) == rule.id && RulePriority(rule) == rule.priority;
  }

  lemma DistinctPrefix<T(!new)>(a: seq<Rule>, b: seq<Rule>, f: Rule -> T)
    requires Distinct(Map(a + b, f))
    ensures Distinct(Map(a, f))
  {
    forall i, j | 0 <= i < j < |a| ensures Map(a, f)[i] != Map(a, f)[j] {
      assert Map(a + b, f)[i] != Map(a + b, f)[j];
    }
  }

  lemma AcceptablePrefix(a: seq<Rule>, b: seq<Rule>, valid: Rule -> bool, key: Rule -> string)
    requires AcceptableBy(a + b, valid, key)
    ensures AcceptableBy(a, valid, key)
  {
    DistinctPrefix(a, b, RuleId);
    DistinctPrefix(a, b, key);
    DistinctPrefix(a, b, RulePriority);
    SumAppend(a, b, RuleBytes);
    assert forall x :: x in a ==> x in a + b;
  }

  lemma AcceptableSlice(sorted: seq<Rule>, n: nat, valid: Rule -> bool, key: Rule -> string)
    requires n <= |sorted| && AcceptableBy(sorted, valid, key)
    ensures AcceptableBy(sorted[..n], valid, key)
  {
    assert sorted == sorted[..n] + sorted[n..];
    AcceptablePrefix(sorted[..n], sorted[n..], valid, key);
  }

  /** The checks of one iteration, on the rule with its kind filled in. */
  method CheckRule(rule: Rule, platform: string, ghost original: Rule, ghost before: seq<Rule>, ids: set<string>,
      paths: set<string>, priorities: set<int>, total: nat) returns (ok: bool, ids': set<string>, paths': set<string>,
      priorities': set<int>, total': nat)
    requires Checked(before, FilledValid(platform), FilledKey(platform), ids, paths, priorities, total)
    requires rule == Fill(original) && |before| < MAX_RULES
    ensures ok <==> AcceptableBy(before + [original], FilledValid(platform), FilledKey(platform))
    ensures ok ==> Checked(before + [original], FilledValid(platform), FilledKey(platform), ids', paths',
            priorities', total')
  {
    CheckedNext(before, original, FilledValid(platform), FilledKey(platform), ids, paths, priorities, total);
    ids', paths', priorities', total' := ids, paths, priorities, total;
    if !ValidRule(rule, platform) { ok := false; return; }
    var pathKey := PathKey(rule, platform);
    if rule.id in ids || pathKey in paths || rule.priority in priorities { ok := false; return; }
    ids', paths', priorities' := ids + {rule.id}, paths + {pathKey}, priorities + {rule.priority};
    total' := total + |Identifier(rule)| + 1;
    ok := total' <= MAX_TOTAL_BYTES;
  }

  /** The first `n` rules are filled in and renumbered, the others as they were. */
  ghost predicate RenumberedTo(rules: seq<Rule>, sorted: seq<Rule>, n: nat) {
    n <= |sorted| && rules == Renumber(sorted)[..n] + sorted[n..]
  }

  lemma RenumberNext(rules: seq<Rule>, sorted: seq<Rule>, n: nat)
    requires RenumberedTo(rules, sorted, n) && n < |sorted|
    ensures |rules| == |sorted| && rules[n] == sorted[n]
    ensures RenumberedTo(rules[n := Fill(rules[n]).(priority := n + 1)], sorted, n + 1)
  {
  }

  /** The checking loop over the sorted rules. */
  method CheckSorted(sorted: seq<Rule>, platform: string) returns (result: Option<seq<Rule>>)
    requires |sorted| <= MAX_RULES
    ensures result.Some? <==> AcceptableBy(sorted, FilledValid(platform), FilledKey(platform))
    ensures result.Some? ==> result.value == Renumber(sorted)
  {
    ghost var valid, key := FilledValid(platform), FilledKey(platform);
    var rules := sorted;
    var ids: set<string>, paths: set<string>, priorities: set<int>, total: nat := {}, {}, {}, 0;
    for index := 0 to |sorted|
      invariant RenumberedTo(rules, sorted, index)
      invariant Checked(sorted[..index], valid, key, ids, paths, priorities, total)
    {
      var rule := Fill(rules[index]);
      RenumberNext(rules, sorted, index);
      NextSlice(sorted, index);
      var ok;
      ok, ids, paths, priorities, total := CheckRule(rule, platform, sorted[index], sorted[..index], ids,
        paths, priorities, total);
      if !ok {
        if AcceptableBy(sorted, valid, key) { AcceptableSlice(sorted, index + 1, valid, key); }
        return None;
      }
      rules := rules[index := rule.(priority := index + 1)];
    }
    assert sorted[..|sorted|] == sorted;
    return Some(rules);
  }

  /** `normalizeRulesRequest`. */
  method NormalizeRulesRequest(request: RulesRequest, goos: string) returns (result: Option<RulesRequest>)
    ensures result == if Acceptable(request, goos) then Some(Normalized(request, goos)) else None
  {
    if request.version != PROTOCOL_VERSION { return None; }
    var platform := Platform(request, goos);
    if platform !in ["windows", "linux"] { return None; }
    var expectedPort := WINDOWS_PROXY_PORT;
    if platform == "linux" { expectedPort := LINUX_PROXY_PORT; }
    if request.proxyPort != expectedPort || !request.failClosed { return None; }
    if |request.rules| > MAX_RULES { return None; }
    var sorted := SortBy(request.rules, RulePriority);
    SortSorts(request.rules, RulePriority);
    PermutedSize(request.rules, sorted);
    AcceptancePermuted(request.rules, sorted, FilledValid(platform), FilledKey(platform));
    var rules := CheckSorted(sorted, platform);
    if rules == None { return None; }
    return Some(request.(platform := platform, rules := rules.value));
  }
}
