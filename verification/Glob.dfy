/**
 The two single-backtrack wildcard matchers: `wildcardMatches` of processrouter/types.go and
 `wildcard_match_ci` of the C helper, against the declarative meaning of a pattern. Case is
 folded over ASCII letters.
 */
module Glob {
  function LowerChar(c: char): char {
    if 'A' <= c <= 'Z' then (c as int + 32) as char else c
  }

  function Lower(s: string): (r: string)
    ensures |r| == |s| && forall i :: 0 <= i < |s| ==> r[i] == LowerChar(s[i])
  {
    seq(|s|, i requires 0 <= i < |s| => LowerChar(s[i]))
  }

  predicate EqualFold(a: string, b: string) {
    Lower(a) == Lower(b)
  }

  /** A star stands for any string, every other character for itself. */
  ghost predicate Matches(p: string, v: string)
    decreases |p|, |v|
  {
    if p == [] then v == []
    else if p[0] == '*' then exists k :: 0 <= k <= |v| && Matches(p[1..], v[k..])
    else v != [] && p[0] == v[0] && Matches(p[1..], v[1..])
  }

  /** `q` matches some suffix of `v` starting at `from` or later. */
  ghost predicate Anywhere(q: string, v: string, from: nat) {
    exists j :: from <= j <= |v| && Matches(q, v[j..])
  }

  predicate AllStars(p: string, i: nat)
    requires i <= |p|
    decreases |p| - i
  {
    i == |p| || (p[i] == '*' && AllStars(p, i + 1))
  }

  predicate StarFree(s: string) {
    forall i :: 0 <= i < |s| ==> s[i] != '*'
  }

  /**
   The Go loop from one state on: `pi` and `vi` are the read positions, `si` the last star
   (-1 for none) and `sv` where the value was when it was read. Literal equality comes
   before the star.
   */
  predicate GoRun(p: string, v: string, pi: nat, vi: nat, si: int, sv: nat)
    requires pi <= |p| && sv <= vi <= |v| && -1 <= si < pi
    decreases |v| - sv, (|v| - vi) + (|p| - pi)
  {
    if vi == |v| then AllStars(p, pi)
    else if pi < |p| && p[pi] == v[vi] then GoRun(p, v, pi + 1, vi + 1, si, sv)
    else if pi < |p| && p[pi] == '*' then GoRun(p, v, pi + 1, vi, pi, vi)
    else if si < 0 then false
    else GoRun(p, v, si + 1, sv + 1, si, sv + 1)
  }

  predicate GoMatches(pattern: string, value: string) {
    GoRun(Lower(pattern), Lower(value), 0, 0, -1, 0)
  }

  /** `wildcardMatches`. */
  method WildcardMatches(pattern: string, value: string) returns (matched: bool)
    ensures matched == GoMatches(pattern, value)
    ensures (forall i :: 0 <= i < |value| - 1 ==> value[i] != '*') ==> matched == Matches(Lower(pattern), Lower(value))
  {
    GoMeaning(pattern, value);
    var p, v := Lower(pattern), Lower(value);
    var pi, vi := 0, 0;
    var si, sv := -1, 0;
    while vi < |v|
      invariant 0 <= pi <= |p| && 0 <= sv <= vi <= |v| && -1 <= si < pi
      invariant GoMatches(pattern, value) == GoRun(p, v, pi, vi, si, sv)
      decreases |v| - sv, (|v| - vi) + (|p| - pi)
    {
      if pi < |p| && p[pi] == v[vi] {
        pi, vi := pi + 1, vi + 1;
        continue;
      }
      if pi < |p| && p[pi] == '*' {
        si := pi;
        pi := pi + 1;
        sv := vi;
        continue;
      }
      if si < 0 {
        return false;
      }
      pi := si + 1;
      sv := sv + 1;
      vi := sv;
    }
    while pi < |p| && p[pi] == '*'
      invariant 0 <= pi <= |p|
      invariant GoMatches(pattern, value) == AllStars(p, pi)
    {
      pi := pi + 1;
    }
    return pi == |p|;
  }

  /** `wildcard_match_ci`: tests for a star first, so its values may contain stars. */
  method WildcardMatchCI(pattern: string, value: string) returns (matched: bool)
    ensures matched == Matches(Lower(pattern), Lower(value))
  {
    hide Matches, Scan, Anywhere, GoRun, StarFree;
    ghost var p, v := Lower(pattern), Lower(value);
    var pi, vi := 0, 0;
    ScanStart(p, v);
    var si, sv := -1, 0;
    while vi < |value|
      invariant 0 <= pi <= |pattern| && 0 <= sv <= vi <= |value| && -1 <= si < pi
      invariant Scan(p, v, pi, vi, si, sv)
      decreases |value| - sv, (|value| - vi) + (|pattern| - pi)
    {
      if pi < |pattern| && pattern[pi] == '*' {
        ScanStar(p, v, pi, vi, si, sv);
        si, sv := pi, vi;
        pi := pi + 1;
      } else if pi < |pattern| && LowerChar(pattern[pi]) == LowerChar(value[vi]) {
        ScanLiteral(p, v, pi, vi, si, sv);
        pi, vi := pi + 1, vi + 1;
      } else if si >= 0 {
        ScanBack(p, v, pi, vi, si, sv);
        sv := sv + 1;
        pi, vi := si + 1, sv;
      } else {
        ScanFail(p, v, pi, vi, si, sv);
        return false;
      }
    }
    ScanEnd(p, v, pi, vi, si, sv);
    while pi < |pattern| && pattern[pi] == '*'
      invariant 0 <= pi <= |pattern| && Matches(p, v) == AllStars(p, pi)
    {
      assert p[pi] == '*';
      pi := pi + 1;
    }
    return pi == |pattern|;
  }

  /**
   What both scans keep: the pattern since the last star is literal and matched from `sv`, and
   the value matches exactly if the rest after that star matches at `sv` or later.
   */
  ghost predicate Scan(p: string, v: string, pi: nat, vi: nat, si: int, sv: nat) {
    && pi <= |p| && sv <= vi <= |v| && -1 <= si < pi && (si < 0 ==> sv == 0)
    && p[si + 1..pi] == v[sv..vi] && StarFree(p[si + 1..pi])
    && (si >= 0 ==> Matches(p, v) == Anywhere(p[si + 1..], v, sv))
  }

  lemma ScanStart(p: string, v: string)
    ensures Scan(p, v, 0, 0, -1, 0)
  {
  }

  lemma {:induction false} LiteralPrefix(q: string, w: string, n: nat)
    requires n <= |q| && StarFree(q[..n])
    ensures Matches(q, w) <==> n <= |w| && q[..n] == w[..n] && Matches(q[n..], w[n..])
  {
    if n > 0 {
      assert q[0] == q[..n][0] && StarFree(q[1..][..n - 1]) by {
        assert forall i :: 0 <= i < n - 1 ==> q[1..][i] == q[..n][i + 1];
      }
      LiteralPrefix(q[1..], w[if w == [] then 0 else 1..], n - 1);
      if w != [] && n <= |w| {
        assert q[1..][n - 1..] == q[n..] && w[1..][n - 1..] == w[n..];
        assert q[..n] == [q[0]] + q[1..][..n - 1] && w[..n] == [w[0]] + w[1..][..n - 1];
      }
    }
  }

  /** The literal part matched so far can be dropped on both sides. */
  lemma ScanRest(p: string, v: string, pi: nat, vi: nat, si: int, sv: nat)
    requires Scan(p, v, pi, vi, si, sv)
    ensures Matches(p[si + 1..], v[sv..]) == Matches(p[pi..], v[vi..])
  {
    var q, w, n := p[si + 1..], v[sv..], pi - si - 1;
    assert q[..n] == p[si + 1..pi] == v[sv..vi] && |v[sv..vi]| == n;
    assert w[..n] == v[sv..vi] && q[n..] == p[pi..] && w[n..] == v[vi..];
    LiteralPrefix(q, w, n);
  }

  lemma ScanLiteral(p: string, v: string, pi: nat, vi: nat, si: int, sv: nat)
    requires Scan(p, v, pi, vi, si, sv) && pi < |p| && vi < |v| && p[pi] == v[vi] != '*'
    ensures Scan(p, v, pi + 1, vi + 1, si, sv)
  {
    assert p[si + 1..pi + 1] == p[si + 1..pi] + [p[pi]];
    assert v[sv..vi + 1] == v[sv..vi] + [v[vi]];
  }

  /** A new star may forget the previous one: its literal part was matched as early as possible. */
  lemma ScanStar(p: string, v: string, pi: nat, vi: nat, si: int, sv: nat)
    requires Scan(p, v, pi, vi, si, sv) && pi < |p| && p[pi] == '*'
    ensures Scan(p, v, pi + 1, vi, pi, vi)
    ensures Matches(p, v) == Anywhere(p[pi + 1..], v, vi)
  {
    ScanRest(p, v, pi, vi, si, sv);
    assert p[pi..][1..] == p[pi + 1..];
    if Anywhere(p[pi + 1..], v, vi) {
      var j :| vi <= j <= |v| && Matches(p[pi + 1..], v[j..]);
      assert v[vi..][j - vi..] == v[j..];
      assert Matches(p[pi..], v[vi..]);
      if si < 0 { assert p[0..] == p && v[0..] == v; }
    }
    if Matches(p, v) {
      var q, n := p[si + 1..], pi - si - 1;
      assert p[0..] == p && v[0..] == v;
      var j :| sv <= j <= |v| && Matches(q, v[j..]) && (si < 0 ==> j == 0);
      assert q[..n] == p[si + 1..pi];
      LiteralPrefix(q, v[j..], n);
      assert q[n..] == p[pi..] && v[j..][n..] == v[j + n..];
      var k :| 0 <= k <= |v[j + n..]| && Matches(p[pi..][1..], v[j + n..][k..]);
      assert v[j + n..][k..] == v[j + n + k..];
      assert vi == sv + n by { assert |p[si + 1..pi]| == |v[sv..vi]|; }
    }
    assert p[pi + 1..pi + 1] == v[vi..vi];
  }

  ghost predicate Stuck(p: string, v: string, pi: nat, vi: nat) {
    pi <= |p| && vi < |v| && (pi == |p| || (p[pi] != '*' && p[pi] != v[vi]))
  }

  lemma ScanBack(p: string, v: string, pi: nat, vi: nat, si: int, sv: nat)
    requires Scan(p, v, pi, vi, si, sv) && Stuck(p, v, pi, vi) && si >= 0
    ensures Scan(p, v, si + 1, sv + 1, si, sv + 1)
  {
    ScanRest(p, v, pi, vi, si, sv);
    if Anywhere(p[si + 1..], v, sv) {
      var j :| sv <= j <= |v| && Matches(p[si + 1..], v[j..]);
      assert j != sv;
    }
    assert p[si + 1..si + 1] == v[sv + 1..sv + 1];
  }

  lemma ScanFail(p: string, v: string, pi: nat, vi: nat, si: int, sv: nat)
    requires Scan(p, v, pi, vi, si, sv) && Stuck(p, v, pi, vi) && si < 0
    ensures !Matches(p, v)
  {
    ScanRest(p, v, pi, vi, si, sv);
    assert p[0..] == p && v[0..] == v;
  }

  lemma {:induction false} StarsMatchEmpty(p: string, i: nat)
    requires i <= |p|
    ensures Matches(p[i..], []) == AllStars(p, i)
    decreases |p| - i
  {
    if i < |p| {
      assert p[i..][1..] == p[i + 1..];
      StarsMatchEmpty(p, i + 1);
      assert ""[0..] == "";
    }
  }

  lemma ScanEnd(p: string, v: string, pi: nat, vi: nat, si: int, sv: nat)
    requires Scan(p, v, pi, vi, si, sv) && vi == |v|
    ensures Matches(p, v) == AllStars(p, pi)
  {
    ScanRest(p, v, pi, vi, si, sv);
    assert v[vi..] == [];
    StarsMatchEmpty(p, pi);
    if si < 0 {
      assert p[0..] == p && v[0..] == v;
    } else if Matches(p, v) {
      var q, n := p[si + 1..], pi - si - 1;
      var j :| sv <= j <= |v| && Matches(q, v[j..]);
      assert q[..n] == p[si + 1..pi];
      LiteralPrefix(q, v[j..], n);
      assert |p[si + 1..pi]| == |v[sv..vi]|;
      assert j == sv;
    }
  }

  /** Matching a final star of the value literally loses nothing. */
  lemma {:induction false} StarAgainstLastStar(p: string, i: nat)
    requires i <= |p| && Matches(p[i..], "*")
    ensures AllStars(p, i)
    decreases |p| - i
  {
    assert i < |p|;
    assert p[i..][1..] == p[i + 1..];
    if p[i] == '*' {
      var k :| 0 <= k <= 1 && Matches(p[i..][1..], "*"[k..]);
      if k == 0 {
        assert "*"[0..] == "*";
        StarAgainstLastStar(p, i + 1);
      } else {
        assert "*"[1..] == "";
        StarsMatchEmpty(p, i + 1);
      }
    }
  }

  lemma ScanLastStar(p: string, v: string, pi: nat, vi: nat, si: int, sv: nat)
    requires Scan(p, v, pi, vi, si, sv) && pi < |p| && vi == |v| - 1 && p[pi] == v[vi] == '*'
    ensures Matches(p, v) == AllStars(p, pi + 1)
  {
    ScanStar(p, v, pi, vi, si, sv);
    assert v[vi..] == "*" && v[|v|..] == "";
    StarsMatchEmpty(p, pi + 1);
    if Matches(p, v) {
      var j :| vi <= j <= |v| && Matches(p[pi + 1..], v[j..]);
      if j == vi { StarAgainstLastStar(p, pi + 1); }
    }
  }

  lemma {:induction false} GoRunMeaning(p: string, v: string, pi: nat, vi: nat, si: int, sv: nat)
    requires Scan(p, v, pi, vi, si, sv) && forall i :: 0 <= i < |v| - 1 ==> v[i] != '*'
    ensures GoRun(p, v, pi, vi, si, sv) == Matches(p, v)
    decreases |v| - sv, (|v| - vi) + (|p| - pi)
  {
    if vi == |v| {
      ScanEnd(p, v, pi, vi, si, sv);
    } else if pi < |p| && p[pi] == v[vi] {
      if p[pi] == '*' {
        ScanLastStar(p, v, pi, vi, si, sv);
      } else {
        ScanLiteral(p, v, pi, vi, si, sv);
        GoRunMeaning(p, v, pi + 1, vi + 1, si, sv);
      }
    } else if pi < |p| && p[pi] == '*' {
      ScanStar(p, v, pi, vi, si, sv);
      GoRunMeaning(p, v, pi + 1, vi, pi, vi);
    } else if si < 0 {
      ScanFail(p, v, pi, vi, si, sv);
    } else {
      ScanBack(p, v, pi, vi, si, sv);
      GoRunMeaning(p, v, si + 1, sv + 1, si, sv + 1);
    }
  }

  lemma GoMeaning(pattern: string, value: string)
    ensures (forall i :: 0 <= i < |value| - 1 ==> value[i] != '*') ==>
            GoMatches(pattern, value) == Matches(Lower(pattern), Lower(value))
  {
    if forall i :: 0 <= i < |value| - 1 ==> value[i] != '*' {
      var p, v := Lower(pattern), Lower(value);
      assert p[0..0] == v[0..0];
      GoRunMeaning(p, v, 0, 0, -1, 0);
    }
  }

  lemma {:induction false} PrefixThenStar(x: string, y: string)
    ensures Matches(x + "*", x + y)
  {
    if x == [] {
      assert (x + "*")[1..] == "" && (x + y)[|y|..] == "";
    } else {
      assert (x + "*")[1..] == x[1..] + "*" && (x + y)[1..] == x[1..] + y;
      PrefixThenStar(x[1..], y);
    }
  }

  lemma {:induction false} GoRunThroughPrefix(p: string, v: string, i: nat, n: nat)
    requires i <= n <= |p| && n <= |v| && p[..n] == v[..n] && n < |v|
    ensures GoRun(p, v, i, i, -1, 0) == GoRun(p, v, n, n, -1, 0)
    decreases n - i
  {
    if i < n {
      assert p[i] == p[..n][i] == v[i];
      GoRunThroughPrefix(p, v, i + 1, n);
    }
  }

  /** A star before the last character of the value makes the Go matcher miss a pattern that matches. */
  lemma GoMissesStar(value: string, i: nat) returns (pattern: string)
    requires i < |value| - 1 && value[i] == '*'
    ensures Matches(Lower(pattern), Lower(value)) && !GoMatches(pattern, value)
  {
    var v := Lower(value);
    pattern := v[..i] + "*";
    assert Lower(pattern) == pattern;
    assert v == v[..i] + v[i..];
    PrefixThenStar(v[..i], v[i..]);
    assert pattern[..i + 1] == v[..i + 1];
    GoRunThroughPrefix(pattern, v, 0, i + 1);
  }

  /** The Go matcher means what patterns mean, for every pattern, exactly on the values whose only star is last. */
  lemma GoMatcherExact(value: string)
    ensures (forall pattern :: GoMatches(pattern, value) == Matches(Lower(pattern), Lower(value)))
            <==> forall i :: 0 <= i < |value| - 1 ==> value[i] != '*'
  {
    if forall i :: 0 <= i < |value| - 1 ==> value[i] != '*' {
      forall pattern ensures GoMatches(pattern, value) == Matches(Lower(pattern), Lower(value)) {
        GoMeaning(pattern, value);
      }
    } else {
      var i :| 0 <= i < |value| - 1 && value[i] == '*';
      var pattern := GoMissesStar(value, i);
    }
  }
}
