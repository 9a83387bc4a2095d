/** Facts about sequences that hold the same elements in different orders. */
module Permutations {
  function Map<S, T>(s: seq<S>, f: S -> T): (r: seq<T>)
    ensures |r| == |s| && forall i :: 0 <= i < |s| ==> r[i] == f(s[i])
  {
    seq(|s|, i requires 0 <= i < |s| => f(s[i]))
  }

  ghost predicate Distinct<T(!new)>(s: seq<T>) {
    forall i, j :: 0 <= i < j < |s| ==> s[i] != s[j]
  }

  function Sum<S>(s: seq<S>, weight: S -> nat): nat {
    if s == [] then 0 else weight(s[0]) + Sum(s[1..], weight)
  }

  ghost predicate All<S(!new)>(s: seq<S>, good: S -> bool) {
    forall x :: x in s ==> good(x)
  }

  function Without<S>(s: seq<S>, i: nat): (r: seq<S>)
    requires i < |s|
    ensures multiset(s) == multiset(r) + multiset{s[i]}
  {
    assert s == s[..i] + [s[i]] + s[i + 1..];
    s[..i] + s[i + 1..]
  }

  lemma NextSlice<S>(s: seq<S>, i: nat)
    requires i < |s|
    ensures s[..i + 1] == s[..i] + [s[i]]
  {
  }

  lemma PermutedSize<S>(a: seq<S>, b: seq<S>)
    requires multiset(a) == multiset(b)
    ensures |a| == |b|
  {
    assert |a| == |multiset(a)| && |b| == |multiset(b)|;
  }

  /** The first element of `a` occurs in its permutation `b`, and the rests are permutations again. */
  lemma FirstOf<S>(a: seq<S>, b: seq<S>) returns (j: nat)
    requires multiset(a) == multiset(b) && a != []
    ensures j < |b| && b[j] == a[0] && multiset(a[1..]) == multiset(Without(b, j))
  {
    assert a == [a[0]] + a[1..];
    assert a[0] in multiset(b);
    j :| 0 <= j < |b| && b[j] == a[0];
    assert multiset(a[1..]) == multiset(a) - multiset{a[0]};
    assert multiset(Without(b, j)) == multiset(b) - multiset{b[j]};
  }

  lemma MapWithout<S, T>(s: seq<S>, f: S -> T, i: nat)
    requires i < |s|
    ensures multiset(Map(s, f)) == multiset(Map(Without(s, i), f)) + multiset{f(s[i])}
  {
    assert Map(Without(s, i), f) == Without(Map(s, f), i);
  }

  lemma {:induction false} MapPermuted<S, T>(a: seq<S>, b: seq<S>, f: S -> T)
    requires multiset(a) == multiset(b)
    ensures multiset(Map(a, f)) == multiset(Map(b, f))
  {
    PermutedSize(a, b);
    if a != [] {
      var j := FirstOf(a, b);
      MapPermuted(a[1..], Without(b, j), f);
      MapWithout(b, f, j);
      MapWithout(a, f, 0);
      assert Without(a, 0) == a[1..];
    }
  }

  lemma {:induction false} SumAppend<S>(a: seq<S>, b: seq<S>, weight: S -> nat)
    ensures Sum(a + b, weight) == Sum(a, weight) + Sum(b, weight)
  {
    if a == [] {
      assert a + b == b;
    } else {
      assert (a + b)[1..] == a[1..] + b;
      SumAppend(a[1..], b, weight);
    }
  }

  lemma {:induction false} SumPermuted<S>(a: seq<S>, b: seq<S>, weight: S -> nat)
    requires multiset(a) == multiset(b)
    ensures Sum(a, weight) == Sum(b, weight)
  {
    PermutedSize(a, b);
    if a != [] {
      var j := FirstOf(a, b);
      SumPermuted(a[1..], Without(b, j), weight);
      assert b == b[..j] + ([b[j]] + b[j + 1..]);
      SumAppend(b[..j], [b[j]] + b[j + 1..], weight);
      SumAppend(b[..j], b[j + 1..], weight);
      assert ([b[j]] + b[j + 1..])[1..] == b[j + 1..];
    }
  }

  lemma AllPermuted<S(!new)>(a: seq<S>, b: seq<S>, good: S -> bool)
    requires multiset(a) == multiset(b)
    ensures All(a, good) == All(b, good)
  {
    assert forall x :: x in a <==> x in multiset(a);
    assert forall x :: x in b <==> x in multiset(b);
  }

  lemma {:induction false} DistinctCount<T(!new)>(s: seq<T>, x: T)
    requires Distinct(s)
    ensures multiset(s)[x] <= 1
  {
    if s != [] {
      var last := |s| - 1;
      assert s == s[..last] + [s[last]];
      DistinctCount(s[..last], x);
    }
  }

  lemma DistinctCounts<T(!new)>(s: seq<T>)
    ensures Distinct(s) <==> forall x :: multiset(s)[x] <= 1
  {
    if Distinct(s) {
      forall x ensures multiset(s)[x] <= 1 { DistinctCount(s, x); }
    } else {
      var i, j :| 0 <= i < j < |s| && s[i] == s[j];
      assert s[i] in s[..j];
      assert s == s[..j] + [s[j]] + s[j + 1..];
      assert multiset(s)[s[j]] >= 2;
    }
  }

  lemma DistinctPermuted<S, T(!new)>(a: seq<S>, b: seq<S>, f: S -> T)
    requires multiset(a) == multiset(b)
    ensures Distinct(Map(a, f)) == Distinct(Map(b, f))
  {
    MapPermuted(a, b, f);
    DistinctCounts(Map(a, f));
    DistinctCounts(Map(b, f));
  }

  ghost predicate Sorted<S>(s: seq<S>, key: S -> int) {
    forall i, j :: 0 <= i < j < |s| ==> key(s[i]) <= key(s[j])
  }

  function Insert<S>(x: S, s: seq<S>, key: S -> int): seq<S> {
    if s == [] || key(x) <= key(s[0]) then [x] + s else [s[0]] + Insert(x, s[1..], key)
  }

  /** A stable sort by `key`. */
  function SortBy<S>(s: seq<S>, key: S -> int): seq<S> {
    if s == [] then [] else Insert(s[0], SortBy(s[1..], key), key)
  }

  lemma SortedCons<S(!new)>(x: S, s: seq<S>, key: S -> int)
    requires Sorted(s, key) && forall y :: y in s ==> key(x) <= key(y)
    ensures Sorted([x] + s, key)
  {
  }

  lemma SortedTail<S>(s: seq<S>, key: S -> int)
    requires s != [] && Sorted(s, key)
    ensures Sorted(s[1..], key)
  {
  }

  lemma {:induction false} InsertSorted<S(!new)>(x: S, s: seq<S>, key: S -> int)
    requires Sorted(s, key)
    ensures Sorted(Insert(x, s, key), key) && multiset(Insert(x, s, key)) == multiset{x} + multiset(s)
  {
    if s == [] || key(x) <= key(s[0]) {
      SortedCons(x, s, key);
    } else {
      assert s == [s[0]] + s[1..];
      SortedTail(s, key);
      InsertSorted(x, s[1..], key);
      var rest := Insert(x, s[1..], key);
      forall y | y in rest ensures key(s[0]) <= key(y) {
        assert y in multiset(rest);
        assert y == x || y in s[1..];
      }
      SortedCons(s[0], rest, key);
    }
  }

  lemma {:induction false} SortSorts<S(!new)>(s: seq<S>, key: S -> int)
    ensures Sorted(SortBy(s, key), key) && multiset(SortBy(s, key)) == multiset(s)
  {
    if s != [] {
      assert s == [s[0]] + s[1..];
      SortSorts(s[1..], key);
      InsertSorted(s[0], SortBy(s[1..], key), key);
    }
  }

  lemma {:induction false} SortOfSorted<S>(s: seq<S>, key: S -> int)
    requires Sorted(s, key)
    ensures SortBy(s, key) == s
  {
    if s != [] {
      SortOfSorted(s[1..], key);
      assert s == [s[0]] + s[1..];
    }
  }

  lemma DistinctTail<S, T(!new)>(s: seq<S>, f: S -> T)
    requires s != [] && Distinct(Map(s, f))
    ensures Distinct(Map(s[1..], f))
  {
    assert Map(s[1..], f) == Map(s, f)[1..];
  }

  lemma TailPermuted<S>(a: seq<S>, b: seq<S>)
    requires a != [] && b != [] && multiset(a) == multiset(b) && a[0] == b[0]
    ensures multiset(a[1..]) == multiset(b[1..])
  {
    assert Without(a, 0) == a[1..] && Without(b, 0) == b[1..];
    assert multiset(a[1..]) == multiset(a) - multiset{a[0]};
    assert multiset(b[1..]) == multiset(b) - multiset{b[0]};
  }

  lemma {:induction false} SameFirst<S>(a: seq<S>, b: seq<S>, key: S -> int)
    requires multiset(a) == multiset(b) && a != [] && Sorted(a, key) && Sorted(b, key) && Distinct(Map(a, key))
    ensures b != [] && a[0] == b[0]
  {
    PermutedSize(a, b);
    var j := FirstOf(a, b);
    var i := FirstOf(b, a);
    assert key(a[0]) == key(b[0]);
    var keys := Map(a, key);
    assert keys[0] == keys[i];
  }

  /** With distinct keys there is one sorted order. */
  lemma {:induction false} SortedUnique<S>(a: seq<S>, b: seq<S>, key: S -> int)
    requires multiset(a) == multiset(b) && Sorted(a, key) && Sorted(b, key) && Distinct(Map(a, key))
    ensures a == b
  {
    PermutedSize(a, b);
    if a != [] {
      SameFirst(a, b, key);
      TailPermuted(a, b);
      SortedTail(a, key);
      SortedTail(b, key);
      DistinctTail(a, key);
      SortedUnique(a[1..], b[1..], key);
      assert a == [a[0]] + a[1..] && b == [b[0]] + b[1..];
    }
  }

  /** In a sorted sequence with distinct keys, exactly the first k elements lie below element k. */
  lemma {:induction false} Rank<S(!new)>(s: seq<S>, key: S -> int, k: nat)
    requires Sorted(s, key) && Distinct(Map(s, key)) && k < |s|
    ensures forall x :: x in s && key(x) < key(s[k]) <==> x in s[..k]
    ensures |set x | x in s[..k]| == k
  {
    forall x ensures x in s && key(x) < key(s[k]) <==> x in s[..k] {
      if x in s[..k] {
        var i :| 0 <= i < k && s[i] == x;
        assert Map(s, key)[i] != Map(s, key)[k];
      }
    }
    PrefixSize(s, key, k);
  }

  lemma {:induction false} PrefixSize<S(!new)>(s: seq<S>, key: S -> int, k: nat)
    requires Distinct(Map(s, key)) && k <= |s|
    ensures |set x | x in s[..k]| == k
  {
    if k > 0 {
      var last := k - 1;
      PrefixSize(s, key, last);
      assert s[..k] == s[..last] + [s[last]];
      forall x | x in s[..last] ensures x != s[last] {
        var i :| 0 <= i < last && s[i] == x;
        assert Map(s, key)[i] != Map(s, key)[last];
      }
      assert (set x | x in s[..k]) == (set x | x in s[..last]) + {s[last]};
    }
  }
}
