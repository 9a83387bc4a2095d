/**
 The replay cache and the checks around it (route/auth/middleware.go,
 route/auth/auth.go). Times are in nanoseconds.
*/
module NonceStore {
  import opened Wrappers

  const SECOND := 1_000_000_000
  const DRIFT := 30 * SECOND
  const TTL := 2 * DRIFT

  datatype Entry = Entry(key: string, expiresAt: int)

  /** A full history of acceptances refuses a key while one of its acceptances has not expired. */
  predicate Replayed(history: seq<Entry>, key: string, now: int) {
    exists i :: 0 <= i < |history| && history[i].key == key && history[i].expiresAt > now
  }

  ghost predicate Ascending(history: seq<Entry>) {
    forall i, j :: 0 <= i < j < |history| ==> history[i].expiresAt <= history[j].expiresAt
  }

  /** Acceptances of one key are at least ttl apart. */
  ghost predicate Spaced(history: seq<Entry>, ttl: int) {
    forall i, j :: 0 <= i < j < |history| && history[i].key == history[j].key ==>
      history[j].expiresAt - history[i].expiresAt >= ttl
  }

  /** The map holds exactly the entries of the list, each key once. */
  ghost predicate Indexed(seen: map<string, int>, order: seq<Entry>) {
    && (forall i :: 0 <= i < |order| ==> order[i].key in seen && seen[order[i].key] == order[i].expiresAt)
    && (forall i, j :: 0 <= i < j < |order| ==> order[i].key != order[j].key)
    && (forall key :: key in seen ==> exists i :: 0 <= i < |order| && order[i].key == key)
  }

  lemma IndexedTail(seen: map<string, int>, order: seq<Entry>)
    requires Indexed(seen, order) && order != []
    ensures Indexed(seen - {order[0].key}, order[1..])
  {
    var rest := order[1..];
    forall key | key in seen - {order[0].key} ensures exists i :: 0 <= i < |rest| && rest[i].key == key {
      var i :| 0 <= i < |order| && order[i].key == key;
      var k := i - 1;
      assert rest[k].key == key;
    }
  }

  lemma IndexedNext(seen: map<string, int>, order: seq<Entry>, entry: Entry)
    requires Indexed(seen, order) && entry.key !in seen
    ensures Indexed(seen[entry.key := entry.expiresAt], order + [entry])
  {
    var after, list := seen[entry.key := entry.expiresAt], order + [entry];
    forall key | key in after ensures exists i :: 0 <= i < |list| && list[i].key == key {
      if key == entry.key {
        assert list[|order|].key == key;
      } else {
        var i :| 0 <= i < |order| && order[i].key == key;
        assert list[i].key == key;
      }
    }
  }

  // The cache as a value.

  datatype Cache = Cache(seen: map<string, int>, order: seq<Entry>)

  const EMPTY := Cache(map[], [])

  function Forget(seen: map<string, int>, entry: Entry): map<string, int> {
    if entry.key in seen && seen[entry.key] == entry.expiresAt then seen - {entry.key} else seen
  }

  /** Expired entries leave from the front, up to the first that has not expired. */
  function Evicted(cache: Cache, now: int): Cache
    decreases |cache.order|
  {
    if cache.order == [] || cache.order[0].expiresAt > now then cache
    else Evicted(Cache(Forget(cache.seen, cache.order[0]), cache.order[1..]), now)
  }

  predicate Known(cache: Cache, key: string, now: int) {
    var seen := Evicted(cache, now).seen;
    key in seen && seen[key] > now
  }

  function Remembered(cache: Cache, key: string, now: int, ttl: int): Cache {
    var left := Evicted(cache, now);
    if Known(cache, key, now) then left
    else Cache(left.seen[key := now + ttl], left.order + [Entry(key, now + ttl)])
  }

  class Store {
    const ttl: int
    var seen: map<string, int>
    var order: seq<Entry>

    constructor (ttl: int)
      ensures this.ttl == ttl && Cache(seen, order) == EMPTY
    {
      this.ttl, seen, order := ttl, map[], [];
    }

    /** `evictExpiredLocked`. */
    method Evict(now: int)
      modifies this`seen, this`order
      ensures Cache(seen, order) == Evicted(old(Cache(seen, order)), now)
    {
      var evicted := 0;
      ghost var goal := Evicted(Cache(seen, order), now);
      while evicted < |order|
        invariant order == old(order) && evicted <= |order|
        invariant Evicted(Cache(seen, order[evicted..]), now) == goal
        decreases |order| - evicted
      {
        var entry := order[evicted];
        if entry.expiresAt > now { break; }
        assert order[evicted..][0] == entry && order[evicted..][1..] == order[evicted + 1..];
        if entry.key in seen && seen[entry.key] == entry.expiresAt {
          seen := seen - {entry.key};
        }
        evicted := evicted + 1;
      }
      assert evicted < |order| ==> order[evicted..][0] == order[evicted];
      if evicted > 0 { order := order[evicted..]; }
    }

    /** `Remember`. */
    method Remember(key: string, now: int) returns (novel: bool)
      modifies this`seen, this`order
      ensures Cache(seen, order) == Remembered(old(Cache(seen, order)), key, now, ttl)
      ensures novel == !Known(old(Cache(seen, order)), key, now)
    {
      Evict(now);
      if key in seen && seen[key] > now { return false; }
      var expiresAt := now + ttl;
      seen := seen[key := expiresAt];
      order := order + [Entry(key, expiresAt)];
      return true;
    }
  }

  // Under a clock that does not go back.

  ghost predicate Until(entries: seq<Entry>, bound: int) {
    forall i :: 0 <= i < |entries| ==> entries[i].expiresAt <= bound
  }

  ghost predicate AllAfter(entries: seq<Entry>, bound: int) {
    forall i :: 0 <= i < |entries| ==> entries[i].expiresAt > bound
  }

  lemma UntilAppend(a: seq<Entry>, b: seq<Entry>, bound: int)
    ensures Until(a + b, bound) == (Until(a, bound) && Until(b, bound))
  {
    if Until(a + b, bound) {
      forall i | 0 <= i < |a| ensures a[i].expiresAt <= bound {
        assert (a + b)[i] == a[i];
      }
      forall i | 0 <= i < |b| ensures b[i].expiresAt <= bound {
        assert (a + b)[|a| + i] == b[i];
      }
    }
  }

  lemma AscendingTail(order: seq<Entry>)
    requires Ascending(order) && order != []
    ensures Ascending(order[1..])
  {
  }

  lemma AscendingAfter(order: seq<Entry>, now: int)
    requires Ascending(order) && (order == [] || order[0].expiresAt > now)
    ensures AllAfter(order, now)
  {
  }

  /** The history is what is gone, all expired, and then the list of the cache. */
  ghost predicate Represents(cache: Cache, gone: seq<Entry>, last: int, ttl: int) {
    && Indexed(cache.seen, cache.order) && Ascending(cache.order)
    && Until(gone, last) && Until(cache.order, last + ttl)
  }

  /** What an eviction takes from the list. */
  function Leaving(order: seq<Entry>, now: int): seq<Entry> {
    if order == [] || order[0].expiresAt > now then [] else [order[0]] + Leaving(order[1..], now)
  }

  lemma {:induction false} EvictedSplits(cache: Cache, now: int)
    ensures Leaving(cache.order, now) + Evicted(cache, now).order == cache.order
    decreases |cache.order|
  {
    if cache.order != [] && cache.order[0].expiresAt <= now {
      var rest := Cache(Forget(cache.seen, cache.order[0]), cache.order[1..]);
      EvictedSplits(rest, now);
      assert cache.order == [cache.order[0]] + cache.order[1..];
    }
  }

  lemma {:induction false} LeavingExpired(order: seq<Entry>, now: int)
    ensures Until(Leaving(order, now), now)
  {
    if order != [] && order[0].expiresAt <= now { LeavingExpired(order[1..], now); }
  }

  lemma {:induction false} EvictedIndexed(cache: Cache, now: int)
    requires Indexed(cache.seen, cache.order) && Ascending(cache.order)
    ensures Indexed(Evicted(cache, now).seen, Evicted(cache, now).order) && Ascending(Evicted(cache, now).order)
    ensures AllAfter(Evicted(cache, now).order, now)
    decreases |cache.order|
  {
    if cache.order != [] && cache.order[0].expiresAt <= now {
      IndexedTail(cache.seen, cache.order);
      AscendingTail(cache.order);
      EvictedIndexed(Cache(cache.seen - {cache.order[0].key}, cache.order[1..]), now);
    } else {
      AscendingAfter(cache.order, now);
    }
  }

  lemma EvictedRepresents(cache: Cache, gone: seq<Entry>, last: int, now: int, ttl: int)
    requires Represents(cache, gone, last, ttl) && last <= now
    ensures Represents(Evicted(cache, now), gone + Leaving(cache.order, now), now, ttl)
    ensures gone + Leaving(cache.order, now) + Evicted(cache, now).order == gone + cache.order
  {
    EvictedSplits(cache, now);
    EvictedIndexed(cache, now);
    LeavingExpired(cache.order, now);
    UntilAppend(gone, Leaving(cache.order, now), now);
    UntilAppend(Leaving(cache.order, now), Evicted(cache, now).order, last + ttl);
    Regroup(gone, Leaving(cache.order, now), Evicted(cache, now).order);
  }

  lemma Regroup(a: seq<Entry>, b: seq<Entry>, c: seq<Entry>)
    ensures a + b + c == a + (b + c)
  {
  }

  lemma ReplayedSplit(a: seq<Entry>, b: seq<Entry>, key: string, now: int)
    ensures Replayed(a + b, key, now) == (Replayed(a, key, now) || Replayed(b, key, now))
  {
    if Replayed(a, key, now) {
      var i :| 0 <= i < |a| && a[i].key == key && a[i].expiresAt > now;
      assert (a + b)[i] == a[i];
    }
    if Replayed(b, key, now) {
      var i :| 0 <= i < |b| && b[i].key == key && b[i].expiresAt > now;
      assert (a + b)[|a| + i] == b[i];
    }
  }

  /** The map answers as the whole history does, and keeps nothing that has expired. */
  lemma Answer(cache: Cache, gone: seq<Entry>, key: string, now: int, ttl: int)
    requires Represents(cache, gone, now, ttl) && AllAfter(cache.order, now)
    ensures (key in cache.seen) == Replayed(gone + cache.order, key, now)
    ensures forall k :: k in cache.seen ==> cache.seen[k] > now
  {
    ReplayedSplit(gone, cache.order, key, now);
  }

  /** The acceptances, as a full history keeps them. */
  function Recorded(history: seq<Entry>, key: string, now: int, ttl: int): seq<Entry> {
    if Replayed(history, key, now) then history else history + [Entry(key, now + ttl)]
  }

  /** One call. */
  lemma RememberExact(cache: Cache, gone: seq<Entry>, last: int, key: string, now: int, ttl: int)
    requires Represents(cache, gone, last, ttl) && last <= now && ttl >= 0
    ensures Known(cache, key, now) == Replayed(gone + cache.order, key, now)
    ensures Represents(Remembered(cache, key, now, ttl), gone + Leaving(cache.order, now), now, ttl)
    ensures gone + Leaving(cache.order, now) + Remembered(cache, key, now, ttl).order ==
            Recorded(gone + cache.order, key, now, ttl)
  {
    hide Evicted, Leaving;
    var left := Evicted(cache, now);
    var gone' := gone + Leaving(cache.order, now);
    EvictedRepresents(cache, gone, last, now, ttl);
    EvictedIndexed(cache, now);
    Answer(left, gone', key, now, ttl);
    if !Known(cache, key, now) {
      var entry := Entry(key, now + ttl);
      IndexedNext(left.seen, left.order, entry);
      AscendingNext(left.order, entry);
      Regroup(gone', left.order, [entry]);
    }
  }

  lemma AscendingNext(order: seq<Entry>, entry: Entry)
    requires Ascending(order) && Until(order, entry.expiresAt)
    ensures Ascending(order + [entry]) && Until(order + [entry], entry.expiresAt)
  {
  }

  /** Between calls the cache keeps no key that had expired at the last one. */
  lemma NothingExpiredKept(cache: Cache, gone: seq<Entry>, last: int, key: string, now: int, ttl: int)
    requires Represents(cache, gone, last, ttl) && last <= now && ttl > 0
    ensures forall k :: k in Remembered(cache, key, now, ttl).seen ==> Remembered(cache, key, now, ttl).seen[k] > now
  {
    EvictedRepresents(cache, gone, last, now, ttl);
    EvictedIndexed(cache, now);
    Answer(Evicted(cache, now), gone + Leaving(cache.order, now), key, now, ttl);
  }

  datatype Call = Call(key: string, now: int)

  function Replies(cache: Cache, calls: seq<Call>, ttl: int): seq<bool>
    decreases |calls|
  {
    if calls == [] then []
      else [!Known(cache, calls[0].key, calls[0].now)] + Replies(Remembered(cache, calls[0].key, calls[0].now, ttl),
      calls[1..], ttl)
  }

  function FullReplies(history: seq<Entry>, calls: seq<Call>, ttl: int): seq<bool>
    decreases |calls|
  {
    if calls == [] then []
    else [!Replayed(history, calls[0].key, calls[0].now)] + FullReplies(Recorded(history, calls[0].key, calls[0].now,
      ttl), calls[1..], ttl)
  }

  ghost predicate Forward(calls: seq<Call>, from: int) {
    calls == [] || (from <= calls[0].now && Forward(calls[1..], calls[0].now))
  }

  /** Every run of calls: the lazily evicted cache and the full history give the same replies. */
  lemma {:induction false} SameReplies(cache: Cache, gone: seq<Entry>, last: int, calls: seq<Call>, ttl: int)
    requires Represents(cache, gone, last, ttl) && Forward(calls, last) && ttl >= 0
    ensures Replies(cache, calls, ttl) == FullReplies(gone + cache.order, calls, ttl)
    decreases |calls|
  {
    if calls != [] {
      var call := calls[0];
      RememberExact(cache, gone, last, call.key, call.now, ttl);
      SameReplies(Remembered(cache, call.key, call.now, ttl), gone + Leaving(cache.order, call.now),
        call.now, calls[1..], ttl);
    }
  }

  /**
   The run in which the clock goes back from h to now: the cache accepts
   the first key again, the history does not.
  */
  lemma ClockGoesBack(a: string, b: string, h: int, now: int, ttl: int)
    requires a != b && ttl > 0 && now < h
    ensures var calls := [Call(a, h - ttl), Call(b, h), Call(a, now)];
            Replies(EMPTY, calls, ttl) == [true, true, true] && FullReplies([], calls, ttl) == [true, true, false]
  {
    var calls := [Call(a, h - ttl), Call(b, h), Call(a, now)];
    var c1 := Cache(map[a := h], [Entry(a, h)]);
    var c2 := Cache(map[b := h + ttl], [Entry(b, h + ttl)]);
    assert Remembered(EMPTY, a, h - ttl, ttl) == c1;
    assert Evicted(c1, h) == EMPTY;
    assert Remembered(c1, b, h, ttl) == c2;
    assert Evicted(c2, now) == c2;
    assert calls[1..] == [calls[1], calls[2]] && calls[1..][1..] == [calls[2]] && [calls[2]][1..] == [];
    assert Replies(c2, [calls[2]], ttl) == [true];
    assert Replies(c1, calls[1..], ttl) == [true, true];
    ClockGoesBackForHistory(a, b, h, now, ttl);
  }

  lemma ClockGoesBackForHistory(a: string, b: string, h: int, now: int, ttl: int)
    requires a != b && ttl > 0 && now < h
    ensures FullReplies([], [Call(a, h - ttl), Call(b, h), Call(a, now)], ttl) == [true, true, false]
  {
    var calls := [Call(a, h - ttl), Call(b, h), Call(a, now)];
    var h1 := [Entry(a, h)];
    var h2 := [Entry(a, h), Entry(b, h + ttl)];
    assert Recorded([], a, h - ttl, ttl) == h1;
    assert Recorded(h1, b, h, ttl) == h2;
    assert Replayed(h2, a, now) by { assert h2[0] == Entry(a, h); }
    assert calls[1..] == [calls[1], calls[2]] && calls[1..][1..] == [calls[2]] && [calls[2]][1..] == [];
    assert FullReplies(h2, [calls[2]], ttl) == [false];
    assert FullReplies(h1, calls[1..], ttl) == [true, false];
  }

  /** A run under a clock that does not go back, with h its last reading. */
  ghost predicate EndsAt(calls: seq<Call>, h: int) {
    calls != [] && Forward(calls, calls[0].now) && calls[|calls| - 1].now == h
  }

  lemma {:induction false} ForwardAppend(calls: seq<Call>, from: int, call: Call)
    requires calls != [] && Forward(calls, from) && calls[|calls| - 1].now <= call.now
    ensures Forward(calls + [call], from)
  {
    assert (calls + [call])[0] == calls[0] && (calls + [call])[1..] == calls[1..] + [call];
    if |calls| == 1 {
      assert calls[1..] == [] && [call][1..] == [];
    } else {
      ForwardAppend(calls[1..], calls[0].now, call);
    }
  }

  /** The reply to one more call, at the reading now, is that of the history after every run that ends at h. */
  ghost predicate ExactAfter(h: int, now: int, ttl: int) {
    forall calls, key :: EndsAt(calls, h) ==>
      Replies(EMPTY, calls + [Call(key, now)], ttl) == FullReplies([], calls + [Call(key, now)], ttl)
  }

  /** The cache answers as a full history would exactly when the clock has not gone back. */
  lemma ExactIfForward(h: int, now: int, ttl: int)
    requires ttl > 0
    ensures ExactAfter(h, now, ttl) <==> now >= h
  {
    if now >= h {
      forall calls, key | EndsAt(calls, h)
        ensures Replies(EMPTY, calls + [Call(key, now)], ttl) == FullReplies([], calls + [Call(key, now)], ttl)
      {
        ForwardAppend(calls, calls[0].now, Call(key, now));
        SameReplies(EMPTY, [], calls[0].now, calls + [Call(key, now)], ttl);
      }
    } else {
      var calls := [Call("a", h - ttl), Call("b", h)];
      assert calls[1..] == [Call("b", h)] && [Call("b", h)][1..] == [];
      assert EndsAt(calls, h);
      assert calls + [Call("a", now)] == [Call("a", h - ttl), Call("b", h), Call("a", now)];
      ClockGoesBack("a", "b", h, now, ttl);
      assert [true, true, true][2] != [true, true, false][2];
    }
  }

  // Under any clock.

  /** Every acceptance not yet past the highest reading is still known, or its key has been accepted since. */
  ghost predicate Remembering(seen: map<string, int>, history: seq<Entry>, high: int) {
    forall i :: 0 <= i < |history| && history[i].expiresAt > high ==>
      history[i].key in seen && seen[history[i].key] >= history[i].expiresAt
  }

  lemma {:induction false} EvictedRemembers(cache: Cache, history: seq<Entry>, high: int, now: int)
    requires Remembering(cache.seen, history, high) && now <= high
    ensures Remembering(Evicted(cache, now).seen, history, high)
    decreases |cache.order|
  {
    if cache.order != [] && cache.order[0].expiresAt <= now {
      EvictedRemembers(Cache(Forget(cache.seen, cache.order[0]), cache.order[1..]), history, high, now);
    }
  }

  lemma LaterRemembers(seen: map<string, int>, history: seq<Entry>, high: int, later: int)
    requires Remembering(seen, history, high) && high <= later
    ensures Remembering(seen, history, later)
  {
  }

  /** A key is accepted again only when its earlier acceptances are past the highest reading. */
  lemma RememberedRemembers(cache: Cache, history: seq<Entry>, high: int, key: string, now: int, ttl: int)
    requires Remembering(cache.seen, history, high) && now <= high && ttl > 0 && !Known(cache, key, now)
    ensures Remembering(Remembered(cache, key, now, ttl).seen, history + [Entry(key, now + ttl)], high)
    ensures forall i :: 0 <= i < |history| && history[i].key == key ==> history[i].expiresAt <= high
  {
    EvictedRemembers(cache, history, high, now);
    var after := history + [Entry(key, now + ttl)];
    var seen := Remembered(cache, key, now, ttl).seen;
    forall i | 0 <= i < |after| && after[i].expiresAt > high ensures after[i].key in seen &&
      seen[after[i].key] >= after[i].expiresAt {
      if i < |history| { assert after[i] == history[i]; }
    }
  }

  lemma SpacedAfter(history: seq<Entry>, entry: Entry, high: int, space: int)
    requires Spaced(history, space) && entry.expiresAt - high >= space
    requires forall i :: 0 <= i < |history| && history[i].key == entry.key ==> history[i].expiresAt <= high
    ensures Spaced(history + [entry], space)
  {
  }

  lemma SpacedLess(history: seq<Entry>, space: int, less: int)
    requires Spaced(history, space) && less <= space
    ensures Spaced(history, less)
  {
  }

  // Requests.

  /** The headers of a request, and whether its digest and signature check out. */
  datatype Request = Request(keyId: string, timestamp: string, nonce: string, content: bool, signed: bool)

  const MAX_INT64 := 0x7fff_ffff_ffff_ffff

  predicate AllDigits(s: string) {
    s != "" && forall i :: 0 <= i < |s| ==> '0' <= s[i] <= '9'
  }

  function Decimal(s: string): nat
    requires AllDigits(s)
  {
    var last := |s| - 1;
    (if last == 0 then 0 else 10 * Decimal(s[..last])) + (s[last] as int - '0' as int)
  }

  /** `strconv.ParseInt` in base ten with 64 bits. */
  function ParseInt(s: string): Option<int> {
    var negative := s != "" && s[0] == '-';
    var digits := if negative || (s != "" && s[0] == '+') then s[1..] else s;
    if !AllDigits(digits) then None
    else
      var n: int := Decimal(digits);
      if negative then if n <= MAX_INT64 + 1 then Some(-n) else None
      else if n <= MAX_INT64 then Some(n) else None
  }

  predicate IsSpace(c: char) {
    c in " \t\n\r" || c as int == 11 || c as int == 12
  }

  function TrimSpace(s: string): string {
    if s != "" && IsSpace(s[0]) then TrimSpace(s[1..])
    else if s != "" && IsSpace(s[|s| - 1]) then var last := |s| - 1; TrimSpace(s[..last])
    else s
  }

  predicate IsKeyChar(c: char) {
    'a' <= c <= 'z' || 'A' <= c <= 'Z' || '0' <= c <= '9' || c in "-_."
  }

  /** `validateKeyID`. */
  predicate ValidKeyId(keyId: string) {
    var trimmed := TrimSpace(keyId);
    trimmed != "" && |trimmed| <= 128 && forall i :: 0 <= i < |trimmed| ==> IsKeyChar(trimmed[i])
  }

  function NonceKey(keyId: string, timestamp: string, nonce: string): string {
    keyId + ":" + timestamp + ":" + nonce
  }

  lemma {:induction false} TrimKeeps(s: string, c: char)
    requires c in s && !IsSpace(c)
    ensures c in TrimSpace(s)
  {
    if s != "" && IsSpace(s[0]) {
      assert s == [s[0]] + s[1..];
      TrimKeeps(s[1..], c);
    } else if s != "" && IsSpace(s[|s| - 1]) {
      var last := |s| - 1;
      assert s == s[..last] + [s[last]];
      TrimKeeps(s[..last], c);
    }
  }

  lemma NoColonInKeyId(keyId: string)
    requires ValidKeyId(keyId)
    ensures ':' !in keyId
  {
    if ':' in keyId {
      TrimKeeps(keyId, ':');
    }
  }

  lemma NoColonInTimestamp(timestamp: string)
    requires ParseInt(timestamp).Some?
    ensures ':' !in timestamp
  {
    if timestamp[0] in "+-" {
      assert timestamp == [timestamp[0]] + timestamp[1..];
    }
  }

  function BeforeColon(s: string): string {
    if s == "" || s[0] == ':' then "" else [s[0]] + BeforeColon(s[1..])
  }

  lemma {:induction false} BeforeColonOf(a: string, b: string)
    requires ':' !in a
    ensures BeforeColon(a + ":" + b) == a
  {
    var whole := a + ":" + b;
    if a == "" {
      assert whole[0] == ':';
    } else {
      assert whole[0] == a[0] && whole[1..] == a[1..] + ":" + b;
      BeforeColonOf(a[1..], b);
    }
  }

  lemma FirstColon(a: string, b: string, c: string, d: string)
    requires ':' !in a && ':' !in c && a + ":" + b == c + ":" + d
    ensures a == c && b == d
  {
    BeforeColonOf(a, b);
    BeforeColonOf(c, d);
    assert b == (a + ":" + b)[|a| + 1..];
    assert d == (c + ":" + d)[|c| + 1..];
  }

  /** The joined key tells every two requests apart that pass the earlier checks. */
  lemma NonceKeyInjective(a: Request, b: Request)
    requires ValidKeyId(a.keyId) && ValidKeyId(b.keyId) && ParseInt(a.timestamp).Some? && ParseInt(b.timestamp).Some?
    requires NonceKey(a.keyId, a.timestamp, a.nonce) == NonceKey(b.keyId, b.timestamp, b.nonce)
    ensures a.keyId == b.keyId && a.timestamp == b.timestamp && a.nonce == b.nonce
  {
    NoColonInKeyId(a.keyId);
    NoColonInKeyId(b.keyId);
    NoColonInTimestamp(a.timestamp);
    NoColonInTimestamp(b.timestamp);
    Joined(a.keyId, a.timestamp, a.nonce);
    Joined(b.keyId, b.timestamp, b.nonce);
    FirstColon(a.keyId, a.timestamp + ":" + a.nonce, b.keyId, b.timestamp + ":" + b.nonce);
    FirstColon(a.timestamp, a.nonce, b.timestamp, b.nonce);
  }

  lemma Joined(keyId: string, timestamp: string, nonce: string)
    ensures NonceKey(keyId, timestamp, nonce) == keyId + ":" + (timestamp + ":" + nonce)
  {
  }

  /** Milliseconds in the header, nanoseconds in the clock. */
  function RequestTime(request: Request): int
    requires ParseInt(request.timestamp).Some?
  {
    ParseInt(request.timestamp).value * 1_000_000
  }

  predicate InWindow(request: Request, now: int) {
    ParseInt(request.timestamp).Some? && -DRIFT <= now - RequestTime(request) <= DRIFT
  }

  /** The checks before the replay cache. */
  predicate Admissible(request: Request, now: int) {
    && request.timestamp != "" && request.keyId != "" && request.nonce != ""
    && InWindow(request, now) && request.content && ValidKeyId(request.keyId) && request.signed
  }

  predicate SameRequest(a: Request, b: Request) {
    a.keyId == b.keyId && a.timestamp == b.timestamp && a.nonce == b.nonce
  }

  /** An accepted request and when. */
  datatype Acceptance = Acceptance(request: Request, at: int)

  function EntryOf(a: Acceptance): Entry {
    Entry(NonceKey(a.request.keyId, a.request.timestamp, a.request.nonce), a.at + TTL)
  }

  function Entries(accepted: seq<Acceptance>): seq<Entry> {
    seq(|accepted|, i requires 0 <= i < |accepted| => EntryOf(accepted[i]))
  }

  /** Every acceptance passed the checks at its time, and acceptances of one request are a lifetime less lag apart. */
  ghost predicate Sound(accepted: seq<Acceptance>, lag: int) {
    && (forall i :: 0 <= i < |accepted| ==> Admissible(accepted[i].request, accepted[i].at))
    && Spaced(Entries(accepted), TTL - lag)
  }

  lemma EntriesNext(accepted: seq<Acceptance>, next: Acceptance)
    ensures Entries(accepted + [next]) == Entries(accepted) + [EntryOf(next)]
  {
  }

  lemma SoundNext(accepted: seq<Acceptance>, next: Acceptance, high: int, lag: int, wider: int)
    requires Sound(accepted, lag) && Admissible(next.request, next.at) && lag <= wider && high - next.at <= wider
    requires forall i :: 0 <= i < |Entries(accepted)| && Entries(accepted)[i].key == EntryOf(next).key ==>
             Entries(accepted)[i].expiresAt <= high
    ensures Sound(accepted + [next], wider)
  {
    SpacedLess(Entries(accepted), TTL - lag, TTL - wider);
    SpacedAfter(Entries(accepted), EntryOf(next), high, TTL - wider);
    EntriesNext(accepted, next);
  }

  function Max(a: int, b: int): int {
    if a >= b then a else b
  }

  /**
   `authenticateRequest` over the replay cache. A request reads the clock before it gets the cache, so
   readings may arrive out of order; high is the highest so far and lag how far one has fallen behind it.
   */
  class Gate {
    const store: Store
    ghost var accepted: seq<Acceptance>
    ghost var gone: seq<Entry>
    ghost var high: int
    ghost var lag: int

    ghost predicate Valid()
      reads this, store
    {
      store.ttl == TTL && Kept(Cache(store.seen, store.order), accepted, gone, high, lag)
    }

    constructor (ghost start: int)
      ensures Valid() && accepted == [] && high == start && lag == 0
    {
      store := new Store(TTL);
      accepted, gone, high, lag := [], [], start, 0;
      new;
      assert gone + store.order == Entries(accepted);
    }

    /**
     Accepts only admissible requests that the cache does not know; while no reading has fallen behind,
     exactly those that were not accepted within their lifetime.
     */
    method Authenticate(request: Request, now: int) returns (ok: bool)
      requires Valid()
      modifies this, store
      ensures Valid()
      ensures Admissible(request, now) ==> high == Max(old(high), now) && lag == Max(old(lag), old(high) - now)
      ensures !Admissible(request, now) ==> !ok && high == old(high) && lag == old(lag)
      ensures accepted == if ok then old(accepted) + [Acceptance(request, now)] else old(accepted)
      ensures lag == 0 ==>
                ok == (Admissible(request, now) &&
                  !Replayed(Entries(old(accepted)), EntryOf(Acceptance(request, now)).key, now))
    {
      if !Admissible(request, now) { return false; }
      ok := Check(request, now);
    }

    method Check(request: Request, now: int) returns (ok: bool)
      requires Valid() && Admissible(request, now)
      modifies this, store
      ensures Valid() && high == Max(old(high), now) && lag == Max(old(lag), old(high) - now)
      ensures accepted == if ok then old(accepted) + [Acceptance(request, now)] else old(accepted)
      ensures lag == 0 ==> ok == !Replayed(Entries(old(accepted)), EntryOf(Acceptance(request, now)).key, now)
    {
      var key := NonceKey(request.keyId, request.timestamp, request.nonce);
      ghost var cache := Cache(store.seen, store.order);
      CheckKeeps(cache, accepted, gone, high, lag, Acceptance(request, now), key);
      gone := gone + Leaving(store.order, now);
      high, lag := Max(high, now), Max(lag, high - now);
      ok := store.Remember(key, now);
      if ok { accepted := accepted + [Acceptance(request, now)]; }
    }
  }

  /** What the gate keeps: sound acceptances, remembered by the cache, and in order while no reading fell behind. */
  ghost predicate Kept(cache: Cache, accepted: seq<Acceptance>, gone: seq<Entry>, high: int, lag: int) {
    && lag >= 0 && Sound(accepted, lag) && Remembering(cache.seen, Entries(accepted), high)
    && (lag == 0 ==> InOrder(cache, accepted, gone, high))
  }

  /** The cache is what a clock that never goes back makes of it. */
  ghost predicate InOrder(cache: Cache, accepted: seq<Acceptance>, gone: seq<Entry>, high: int) {
    Represents(cache, gone, high, TTL) && gone + cache.order == Entries(accepted)
  }

  function After(accepted: seq<Acceptance>, next: Acceptance, known: bool): seq<Acceptance> {
    if known then accepted else accepted + [next]
  }

  lemma CheckInOrder(cache: Cache, accepted: seq<Acceptance>, gone: seq<Entry>, high: int, next: Acceptance,
      key: string)
    requires InOrder(cache, accepted, gone, high) && high <= next.at && EntryOf(next) == Entry(key, next.at + TTL)
    ensures Known(cache, key, next.at) == Replayed(Entries(accepted), key, next.at)
    ensures InOrder(Remembered(cache, key, next.at, TTL), After(accepted, next, Known(cache, key, next.at)),
            gone + Leaving(cache.order, next.at), next.at)
  {
    EntriesNext(accepted, next);
    RememberExact(cache, gone, high, key, next.at, TTL);
  }

  lemma CheckRemembers(cache: Cache, accepted: seq<Acceptance>, high: int, lag: int, top: int, wider: int,
      next: Acceptance, key: string)
    requires Sound(accepted, lag) && Remembering(cache.seen, Entries(accepted), high) &&
             Admissible(next.request, next.at)
    requires EntryOf(next) == Entry(key, next.at + TTL) && high <= top && next.at <= top && lag <= wider &&
             top - next.at <= wider
    ensures var after := After(accepted, next, Known(cache, key, next.at));
            Sound(after, wider) && Remembering(Remembered(cache, key, next.at, TTL).seen, Entries(after), top)
  {
    LaterRemembers(cache.seen, Entries(accepted), high, top);
    if Known(cache, key, next.at) {
      EvictedRemembers(cache, Entries(accepted), top, next.at);
      SpacedLess(Entries(accepted), TTL - lag, TTL - wider);
    } else {
      RememberedRemembers(cache, Entries(accepted), top, key, next.at, TTL);
      EntriesNext(accepted, next);
      SoundNext(accepted, next, top, lag, wider);
    }
  }

  lemma CheckKeeps(cache: Cache, accepted: seq<Acceptance>, gone: seq<Entry>, high: int, lag: int, next: Acceptance,
      key: string)
    requires Kept(cache, accepted, gone, high, lag) && Admissible(next.request, next.at) &&
             EntryOf(next) == Entry(key, next.at + TTL)
    ensures Kept(Remembered(cache, key, next.at, TTL), After(accepted, next, Known(cache, key, next.at)),
                 gone + Leaving(cache.order, next.at), Max(high, next.at), Max(lag, high - next.at))
    ensures Max(lag, high - next.at) == 0 ==> Known(cache, key, next.at) == Replayed(Entries(accepted), key, next.at)
  {
    CheckRemembers(cache, accepted, high, lag, Max(high, next.at), Max(lag, high - next.at), next, key);
    if Max(lag, high - next.at) == 0 { CheckInOrder(cache, accepted, gone, high, next, key); }
  }

  /**
   A request passes twice only within lag of both ends of its window; under a clock that never goes back only
   at both exact ends, and so never three times.
   */
  lemma TwiceOnlyAtTheEnds(accepted: seq<Acceptance>, lag: nat, i: nat, j: nat)
    requires Sound(accepted, lag) && i < j < |accepted| && SameRequest(accepted[i].request, accepted[j].request)
    ensures var t := RequestTime(accepted[i].request);
            accepted[i].at <= t - DRIFT + lag && accepted[j].at >= t + DRIFT - lag
    ensures lag == 0 ==> var t := RequestTime(accepted[i].request);
            accepted[i].at == t - DRIFT && accepted[j].at == t + DRIFT
  {
    var entries := Entries(accepted);
    assert entries[i].key == entries[j].key;
  }

  /** Only an earlier acceptance of the same request is a reason to call it replayed. */
  lemma ReplayedMeansAccepted(accepted: seq<Acceptance>, lag: nat, request: Request, now: int)
    requires Sound(accepted, lag) && Admissible(request, now)
    ensures Replayed(Entries(accepted), EntryOf(Acceptance(request, now)).key, now) <==>
            exists i :: 0 <= i < |accepted| && SameRequest(accepted[i].request, request) && now < accepted[i].at + TTL
  {
    var key, entries := EntryOf(Acceptance(request, now)).key, Entries(accepted);
    if Replayed(entries, key, now) {
      var i :| 0 <= i < |entries| && entries[i].key == key && entries[i].expiresAt > now;
      NonceKeyInjective(accepted[i].request, request);
      assert SameRequest(accepted[i].request, request);
    }
    if i :| 0 <= i < |accepted| && SameRequest(accepted[i].request, request) && now < accepted[i].at + TTL {
      assert entries[i].key == key;
    }
  }
}
