/** The drawing-cache store of CacheManagingDrawTask.CacheManager: a list of
    comments that hold a pre-rendered drawing cache, in the order they were
    admitted, with a running byte total checked against a byte budget, and the
    pool that evicted caches are returned to. */
module CacheStore {
  import opened Wrappers

  /** Capacity of the drawing-cache pool (`Pools.finitePool(..., 500)`). */
  const PoolCapacity: nat := 500

  /** A pre-rendered drawing cache; only its byte size matters here. */
  datatype DrawingCache = DrawingCache(size: nat)

  /** A comment as the cache manager sees it: its identity (the Java object
      it stands for), its display time and duration, and its drawing cache,
      if any. */
  datatype Danmaku = Danmaku(id: nat, time: int, duration: int, cache: Option<DrawingCache>)

  /** A comment is timed out once its duration has elapsed at `now`. */
  predicate IsTimeOut(d: Danmaku, now: int)
  {
    now - d.time > d.duration
  }

  /** A comment is outside the screen at `now` before its display time and
      once it has timed out; in between it is on screen. */
  predicate IsOutside(d: Danmaku, now: int)
  {
    now < d.time || IsTimeOut(d, now)
  }

  /** Some entry of `s` is the comment `id`. */
  predicate Listed(s: seq<Danmaku>, id: nat)
  {
    exists d :: d in s && d.id == id
  }

  /** No comment is listed twice. */
  predicate DistinctIds(s: seq<Danmaku>)
  {
    forall i, j :: 0 <= i < j < |s| ==> s[i].id != s[j].id
  }

  /** `sizeOf`: the byte size of a comment's cache, 0 when it has none. */
  function SizeOf(d: Danmaku): (r: nat)
    ensures d.cache.None? ==> r == 0
    ensures d.cache.Some? ==> r == d.cache.value.size
  {
    if d.cache.Some? then d.cache.value.size else 0
  }

  /** The sum of `SizeOf` over a list of comments. */
  function TotalSize(s: seq<Danmaku>): nat
  {
    if s == [] then 0 else SizeOf(s[0]) + TotalSize(s[1..])
  }

  /** Releasing in two batches is releasing their sum. */
  lemma ReleasedTwice(pooled: nat, a: nat, b: nat)
    ensures Released(Released(pooled, a), b) == Released(pooled, a + b)
  {
  }

  /** The number of comments in a list that hold a cache. */
  function CacheCount(s: seq<Danmaku>): nat
  {
    if s == [] then 0 else (if s[0].cache.Some? then 1 else 0) + CacheCount(s[1..])
  }

  /** The pool's size after `n` caches are released into it one by one: a
      release into a full pool is dropped. */
  function Released(pooled: nat, n: nat): (r: nat)
    ensures pooled <= r
    ensures pooled <= PoolCapacity ==> r <= PoolCapacity
    ensures pooled + n <= PoolCapacity ==> r == pooled + n
    ensures pooled <= PoolCapacity < pooled + n ==> r == PoolCapacity
  {
    if pooled >= PoolCapacity then pooled
    else if pooled + n <= PoolCapacity then pooled + n
    else PoolCapacity
  }

  /** The pool's size after one `acquire`, which yields nothing from an empty pool. */
  function Acquired(pooled: nat): (r: nat)
    ensures pooled > 0 ==> r + 1 == pooled
    ensures pooled == 0 ==> r == 0
  {
    if pooled > 0 then pooled - 1 else 0
  }

  /** The state of a CacheManager: `mCaches`, `mRealSize`, `mMaxSize`,
      `mScreenSize` and the number of caches held by `mCachePool`. */
  datatype Manager = Manager(caches: seq<Danmaku>, realSize: int, maxSize: int, screenSize: int, pooled: nat)

  /** A fresh manager with an empty list and an empty pool. */
  function NewManager(maxSize: int, screenSize: int): (m: Manager)
    ensures m.caches == [] && m.realSize == 0 && m.pooled == 0
    ensures m.maxSize == maxSize && m.screenSize == screenSize
    ensures Valid(m)
  {
    Manager([], 0, maxSize, screenSize, 0)
  }

  /** The size counter equals the sum of the entries' sizes. */
  predicate Accounted(m: Manager)
  {
    m.realSize == TotalSize(m.caches)
  }

  /** The budget holds, or the list holds a single entry admitted while empty. */
  predicate WithinBudget(m: Manager)
  {
    m.realSize <= m.maxSize || |m.caches| <= 1
  }

  predicate Valid(m: Manager)
  {
    Accounted(m) && WithinBudget(m) && m.pooled <= PoolCapacity
  }

  /** Entries whose display times never decrease along the list. */
  predicate TimeOrdered(s: seq<Danmaku>)
  {
    forall i, j :: 0 <= i < j < |s| ==> s[i].time <= s[j].time
  }

  lemma {:induction false} TotalSizeAppend(a: seq<Danmaku>, b: seq<Danmaku>)
    ensures TotalSize(a + b) == TotalSize(a) + TotalSize(b)
    decreases |a|
  {
    if a == [] {
      assert a + b == b;
    } else {
      assert (a + b)[1..] == a[1..] + b;
      TotalSizeAppend(a[1..], b);
    }
  }

  lemma {:induction false} PrefixStep(s: seq<Danmaku>, k: nat)
    requires k < |s|
    ensures TotalSize(s[..k + 1]) == SizeOf(s[0]) + TotalSize(s[1..][..k])
    ensures CacheCount(s[..k + 1]) == (if s[0].cache.Some? then 1 else 0) + CacheCount(s[1..][..k])
  {
    assert s[..k + 1][1..] == s[1..][..k];
  }

  /** `entryRemoved`: subtracts the entry's size from the counter, then
      releases its cache to the pool and nulls it. */
  function EntryRemoved(m: Manager, d: Danmaku): (r: (Manager, Danmaku))
    ensures r.0.caches == m.caches && r.0.maxSize == m.maxSize && r.0.screenSize == m.screenSize
    ensures r.0.realSize == m.realSize - SizeOf(d)
    ensures r.0.pooled == Released(m.pooled, if d.cache.Some? then 1 else 0)
    ensures r.1.cache.None? && r.1 == d.(cache := None)
  {
    (m.(realSize := m.realSize - SizeOf(d),
        pooled := if d.cache.Some? then Released(m.pooled, 1) else m.pooled),
     d.(cache := None))
  }

  /** The outcome of `push`: the manager afterwards, the entries evicted on
      the way (their caches nulled, oldest first) and the returned flag. */
  datatype PushResult = PushResult(manager: Manager, evicted: seq<Danmaku>, pushed: bool)

  /** `push`: while the item does not fit, evict the oldest entry if it is
      timed out and refuse as soon as it is not; once it fits, or the list is
      empty, append the item. Eviction stops as soon as the item fits; every
      evicted entry is timed out; a refusal keeps the evictions already made. */
  function Push(m: Manager, item: Danmaku, now: int): (r: PushResult)
    ensures |r.evicted| <= |m.caches|
    ensures r.manager.maxSize == m.maxSize && r.manager.screenSize == m.screenSize
    decreases |m.caches|
  {
    var size := SizeOf(item);
    if m.realSize + size > m.maxSize && |m.caches| > 0 then
      var oldest := m.caches[0];
      if IsTimeOut(oldest, now) then
        var removal := EntryRemoved(m, oldest);
        var rest := Push(removal.0.(caches := m.caches[1..]), item, now);
        PushResult(rest.manager, [removal.1] + rest.evicted, rest.pushed)
      else
        PushResult(m, [], false)
    else
      PushResult(m.(caches := m.caches + [item], realSize := m.realSize + size), [], true)
  }

  /** What `push` does to the list: it evicts a prefix of timed-out entries,
      nulling their caches, keeps the rest in order and appends the item
      exactly when it returns true; it refuses only in front of a live
      entry. */
  lemma PushShape(m: Manager, item: Danmaku, now: int)
    ensures var r := Push(m, item, now);
            && (forall i :: 0 <= i < |r.evicted| ==>
                  IsTimeOut(m.caches[i], now) && r.evicted[i] == m.caches[i].(cache := None))
            && r.manager.caches == m.caches[|r.evicted|..] + (if r.pushed then [item] else [])
            && (!r.pushed ==> |r.evicted| < |m.caches| && !IsTimeOut(m.caches[|r.evicted|], now))
  {
    PushEvictsTimedOutPrefix(m, item, now);
    PushKeepsRest(m, item, now);
    PushRefusesOnlyBeforeLive(m, item, now);
  }

  lemma {:induction false} PushEvictsTimedOutPrefix(m: Manager, item: Danmaku, now: int)
    ensures var r := Push(m, item, now);
            forall i :: 0 <= i < |r.evicted| ==>
              IsTimeOut(m.caches[i], now) && r.evicted[i] == m.caches[i].(cache := None)
    decreases |m.caches|
  {
    if m.realSize + SizeOf(item) > m.maxSize && |m.caches| > 0 && IsTimeOut(m.caches[0], now) {
      var m1 := EntryRemoved(m, m.caches[0]).0.(caches := m.caches[1..]);
      PushEvictsTimedOutPrefix(m1, item, now);
      assert Push(m, item, now).evicted == [m.caches[0].(cache := None)] + Push(m1, item, now).evicted;
    }
  }

  lemma {:induction false} PushKeepsRest(m: Manager, item: Danmaku, now: int)
    ensures var r := Push(m, item, now);
            r.manager.caches == m.caches[|r.evicted|..] + (if r.pushed then [item] else [])
    decreases |m.caches|
  {
    if m.realSize + SizeOf(item) > m.maxSize && |m.caches| > 0 && IsTimeOut(m.caches[0], now) {
      var m1 := EntryRemoved(m, m.caches[0]).0.(caches := m.caches[1..]);
      PushKeepsRest(m1, item, now);
      PushEvictionStep(m, item, now);
      var k1 := |Push(m1, item, now).evicted|;
      assert m.caches[1..][k1..] == m.caches[k1 + 1..];
    } else {
      assert m.caches[0..] == m.caches;
    }
  }

  lemma {:induction false} PushRefusesOnlyBeforeLive(m: Manager, item: Danmaku, now: int)
    ensures var r := Push(m, item, now);
            !r.pushed ==> |r.evicted| < |m.caches| && !IsTimeOut(m.caches[|r.evicted|], now)
    decreases |m.caches|
  {
    if m.realSize + SizeOf(item) > m.maxSize && |m.caches| > 0 && IsTimeOut(m.caches[0], now) {
      var m1 := EntryRemoved(m, m.caches[0]).0.(caches := m.caches[1..]);
      PushRefusesOnlyBeforeLive(m1, item, now);
      PushEvictionStep(m, item, now);
    }
  }

  /** The counter and the pool after `push`: the evicted prefix's bytes are
      subtracted and its caches released; the item's size is added when it is
      admitted. Eviction stops as soon as the item fits; a refusal leaves it
      still not fitting. */
  lemma PushAccounting(m: Manager, item: Danmaku, now: int)
    ensures var r := Push(m, item, now);
            var k := |r.evicted|;
            && r.manager.realSize == m.realSize - TotalSize(m.caches[..k]) + (if r.pushed then SizeOf(item) else 0)
            && r.manager.pooled == Released(m.pooled, CacheCount(m.caches[..k]))
            && (forall j :: 0 <= j < k ==> m.realSize - TotalSize(m.caches[..j]) + SizeOf(item) > m.maxSize)
            && (r.pushed <==> m.realSize - TotalSize(m.caches[..k]) + SizeOf(item) <= m.maxSize || k == |m.caches|)
  {
    PushCounters(m, item, now);
    PushEvictsNoMoreThanNeeded(m, item, now);
    PushSucceedsIff(m, item, now);
  }

  /** The counter and the pool after `push`. */
  lemma PushCounters(m: Manager, item: Danmaku, now: int)
    ensures var r := Push(m, item, now);
            var k := |r.evicted|;
            && r.manager.realSize == m.realSize - TotalSize(m.caches[..k]) + (if r.pushed then SizeOf(item) else 0)
            && r.manager.pooled == Released(m.pooled, CacheCount(m.caches[..k]))
  {
    PushRealSize(m, item, now);
    PushPooled(m, item, now);
  }

  /** One eviction step of `push`: the rest of the push runs on the manager
      with the oldest entry removed. */
  lemma PushEvictionStep(m: Manager, item: Danmaku, now: int)
    requires m.realSize + SizeOf(item) > m.maxSize && |m.caches| > 0 && IsTimeOut(m.caches[0], now)
    ensures var m1 := EntryRemoved(m, m.caches[0]).0.(caches := m.caches[1..]);
            var r := Push(m, item, now);
            var r1 := Push(m1, item, now);
            && r.manager == r1.manager && r.pushed == r1.pushed && |r.evicted| == |r1.evicted| + 1
  {
  }

  lemma {:induction false} PushRealSize(m: Manager, item: Danmaku, now: int)
    ensures var r := Push(m, item, now);
            r.manager.realSize == m.realSize - TotalSize(m.caches[..|r.evicted|]) + (if r.pushed then SizeOf(item) else 0)
    decreases |m.caches|
  {
    if m.realSize + SizeOf(item) > m.maxSize && |m.caches| > 0 && IsTimeOut(m.caches[0], now) {
      var m1 := EntryRemoved(m, m.caches[0]).0.(caches := m.caches[1..]);
      PushRealSize(m1, item, now);
      PushEvictionStep(m, item, now);
      PrefixStep(m.caches, |Push(m1, item, now).evicted|);
    } else {
      assert m.caches[..0] == [];
    }
  }

  lemma {:induction false} PushPooled(m: Manager, item: Danmaku, now: int)
    ensures var r := Push(m, item, now);
            r.manager.pooled == Released(m.pooled, CacheCount(m.caches[..|r.evicted|]))
    decreases |m.caches|
  {
    if m.realSize + SizeOf(item) > m.maxSize && |m.caches| > 0 && IsTimeOut(m.caches[0], now) {
      var m1 := EntryRemoved(m, m.caches[0]).0.(caches := m.caches[1..]);
      var k1 := |Push(m1, item, now).evicted|;
      var first := if m.caches[0].cache.Some? then 1 else 0;
      PushPooled(m1, item, now);
      PushEvictionStep(m, item, now);
      PrefixStep(m.caches, k1);
      ReleasedTwice(m.pooled, first, CacheCount(m1.caches[..k1]));
    } else {
      assert m.caches[..0] == [];
    }
  }

  /** `push` evicts no more than it needs: before each eviction the item did
      not fit. */
  lemma {:induction false} PushEvictsNoMoreThanNeeded(m: Manager, item: Danmaku, now: int)
    ensures var k := |Push(m, item, now).evicted|;
            forall j :: 0 <= j < k ==> m.realSize - TotalSize(m.caches[..j]) + SizeOf(item) > m.maxSize
    decreases |m.caches|
  {
    if m.realSize + SizeOf(item) > m.maxSize && |m.caches| > 0 && IsTimeOut(m.caches[0], now) {
      var m1 := EntryRemoved(m, m.caches[0]).0.(caches := m.caches[1..]);
      PushEvictsNoMoreThanNeeded(m1, item, now);
      PushEvictionStep(m, item, now);
      var k1 := |Push(m1, item, now).evicted|;
      forall j | 1 <= j <= k1
        ensures TotalSize(m.caches[..j]) == SizeOf(m.caches[0]) + TotalSize(m1.caches[..j - 1])
      {
        PrefixStep(m.caches, j - 1);
      }
      assert m.caches[..0] == [];
    }
  }

  /** `push` admits the item exactly when it fits after the evictions or the
      list has run empty. */
  lemma {:induction false} PushSucceedsIff(m: Manager, item: Danmaku, now: int)
    ensures var r := Push(m, item, now);
            var k := |r.evicted|;
            r.pushed <==> m.realSize - TotalSize(m.caches[..k]) + SizeOf(item) <= m.maxSize || k == |m.caches|
    decreases |m.caches|
  {
    if m.realSize + SizeOf(item) > m.maxSize && |m.caches| > 0 && IsTimeOut(m.caches[0], now) {
      var m1 := EntryRemoved(m, m.caches[0]).0.(caches := m.caches[1..]);
      PushSucceedsIff(m1, item, now);
      PushEvictionStep(m, item, now);
      PrefixStep(m.caches, |Push(m1, item, now).evicted|);
    } else {
      assert m.caches[..0] == [];
    }
  }

  /** Which entries an eviction pass releases. */
  datatype Criterion = Every | OutsideAt(now: int) | TimedOutAt(time: int)

  predicate Picks(c: Criterion, d: Danmaku)
  {
    match c
    case Every => true
    case OutsideAt(now) => IsOutside(d, now)
    case TimedOutAt(t) => IsTimeOut(d, t)
  }

  /** The entries of `s` a pass with criterion `c` leaves alone, in order. */
  function Unpicked(s: seq<Danmaku>, c: Criterion): (r: seq<Danmaku>)
    ensures |r| <= |s|
    ensures forall d :: d in r <==> d in s && !Picks(c, d)
  {
    if s == [] then []
    else if Picks(c, s[0]) then Unpicked(s[1..], c)
    else [s[0]] + Unpicked(s[1..], c)
  }

  /** The entries of `s` a pass with criterion `c` releases, in order, as
      they are after `entryRemoved` nulled their caches. */
  function Removed(s: seq<Danmaku>, c: Criterion): (r: seq<Danmaku>)
    ensures |r| + |Unpicked(s, c)| == |s|
    ensures forall d :: d in r ==> d.cache.None? && Picks(c, d)
  {
    if s == [] then []
    else if Picks(c, s[0]) then [s[0].(cache := None)] + Removed(s[1..], c)
    else Removed(s[1..], c)
  }

  /** Every entry of `s` after a pass with criterion `c`: the picked ones
      with their caches nulled, the others untouched. */
  function AfterPass(s: seq<Danmaku>, c: Criterion): (r: seq<Danmaku>)
    ensures |r| == |s|
    ensures forall i :: 0 <= i < |s| ==> r[i] == if Picks(c, s[i]) then s[i].(cache := None) else s[i]
  {
    if s == [] then [] else [if Picks(c, s[0]) then s[0].(cache := None) else s[0]] + AfterPass(s[1..], c)
  }

  /** The entries a pass drops weigh nothing any more: with their caches
      nulled, `sizeOf` gives 0 for each. */
  lemma {:induction false} RemovedWeighNothing(s: seq<Danmaku>, c: Criterion)
    ensures TotalSize(Removed(s, c)) == 0
    decreases |s|
  {
    if s != [] {
      RemovedWeighNothing(s[1..], c);
      if Picks(c, s[0]) {
        var r := Removed(s, c);
        assert r[1..] == Removed(s[1..], c);
      }
    }
  }

  /** The bytes `entryRemoved` subtracts over a pass with criterion `c`: the
      size of every picked entry; the rest of the total belongs to the
      entries the pass leaves alone. */
  function Freed(s: seq<Danmaku>, c: Criterion): (r: nat)
    ensures r + TotalSize(Unpicked(s, c)) == TotalSize(s)
    ensures c == Every ==> r == TotalSize(s)
  {
    if s == [] then 0
    else (if Picks(c, s[0]) then SizeOf(s[0]) else 0) + Freed(s[1..], c)
  }

  /** The number of caches a pass with criterion `c` releases to the pool. */
  function Returned(s: seq<Danmaku>, c: Criterion): (r: nat)
    ensures r <= CacheCount(s)
    ensures c == Every ==> r == CacheCount(s)
  {
    if s == [] then 0
    else (if Picks(c, s[0]) && s[0].cache.Some? then 1 else 0) + Returned(s[1..], c)
  }

  /** A pass leaves the unpicked entries in their original order: it acts
      on a concatenation part by part. */
  lemma {:induction false} UnpickedAppend(a: seq<Danmaku>, b: seq<Danmaku>, c: Criterion)
    ensures Unpicked(a + b, c) == Unpicked(a, c) + Unpicked(b, c)
    decreases |a|
  {
    if a == [] {
      assert a + b == b;
    } else {
      assert (a + b)[0] == a[0];
      assert (a + b)[1..] == a[1..] + b;
      UnpickedAppend(a[1..], b, c);
      if !Picks(c, a[0]) {
        calc {
          Unpicked(a + b, c);
          [a[0]] + Unpicked(a[1..] + b, c);
          [a[0]] + (Unpicked(a[1..], c) + Unpicked(b, c));
          ([a[0]] + Unpicked(a[1..], c)) + Unpicked(b, c);
        }
      }
    }
  }

  /** The outcome of an eviction: the manager afterwards and the entries it
      dropped from the list, as they are afterwards. */
  datatype Eviction = Eviction(manager: Manager, dropped: seq<Danmaku>)

  /** `clearTimeOutCaches(time)`: scans the whole list and removes exactly the
      entries timed out at `time`, releasing and nulling their caches. */
  function ClearTimeOutCaches(m: Manager, time: int): (r: Eviction)
    ensures forall d :: d in r.manager.caches <==> d in m.caches && !IsTimeOut(d, time)
    ensures forall d :: d in r.dropped ==> d.cache.None? && IsTimeOut(d, time)
    ensures |r.manager.caches| + |r.dropped| == |m.caches|
    ensures r.manager.realSize == m.realSize - Freed(m.caches, TimedOutAt(time))
    ensures r.manager.pooled == Released(m.pooled, Returned(m.caches, TimedOutAt(time)))
    ensures r.manager.maxSize == m.maxSize && r.manager.screenSize == m.screenSize
    ensures Valid(m) ==> Valid(r.manager)
  {
    var c := TimedOutAt(time);
    Eviction(
      m.(caches := Unpicked(m.caches, c),
         realSize := m.realSize - Freed(m.caches, c),
         pooled := Released(m.pooled, Returned(m.caches, c))),
      Removed(m.caches, c))
  }

  /** `evictAll`: releases and nulls every entry's cache, empties the list and
      zeroes the counter. */
  function EvictAll(m: Manager): (r: Eviction)
    ensures r.manager.caches == [] && r.manager.realSize == 0
    ensures |r.dropped| == |m.caches|
    ensures forall i :: 0 <= i < |m.caches| ==> r.dropped[i] == m.caches[i].(cache := None)
    ensures r.manager.pooled == Released(m.pooled, CacheCount(m.caches))
    ensures r.manager.maxSize == m.maxSize && r.manager.screenSize == m.screenSize
    ensures m.pooled <= PoolCapacity ==> Valid(r.manager)
  {
    Eviction(m.(caches := [], realSize := 0, pooled := Released(m.pooled, Returned(m.caches, Every))),
             AfterPass(m.caches, Every))
  }

  /** `evictAllNotInScreen` at playback time `now`: releases and nulls the
      caches of the entries outside the screen at `now` only, yet empties the
      whole list and zeroes the counter; entries on screen keep their caches,
      no longer counted. */
  function EvictAllNotInScreen(m: Manager, now: int): (r: Eviction)
    ensures r.manager.caches == [] && r.manager.realSize == 0
    ensures |r.dropped| == |m.caches|
    ensures forall i :: 0 <= i < |m.caches| && IsOutside(m.caches[i], now) ==> r.dropped[i] == m.caches[i].(cache := None)
    ensures forall i :: 0 <= i < |m.caches| && !IsOutside(m.caches[i], now) ==> r.dropped[i] == m.caches[i]
    ensures r.manager.pooled == Released(m.pooled, Returned(m.caches, OutsideAt(now)))
    ensures r.manager.maxSize == m.maxSize && r.manager.screenSize == m.screenSize
    ensures m.pooled <= PoolCapacity ==> Valid(r.manager)
  {
    Eviction(m.(caches := [], realSize := 0, pooled := Released(m.pooled, Returned(m.caches, OutsideAt(now)))),
             AfterPass(m.caches, OutsideAt(now)))
  }

  /** In `evictAll` the subtractions made by `entryRemoved` already bring an
      accounted counter to 0, so the final reset changes nothing. */
  lemma EvictAllSubtractionsReachZero(m: Manager)
    requires Accounted(m)
    ensures m.realSize - Freed(m.caches, Every) == 0 == EvictAll(m).manager.realSize
  {
  }

  /** In `evictAllNotInScreen` the subtractions leave exactly the bytes of the
      entries on screen, which the reset to 0 then forgets although their
      caches stay alive. */
  lemma EvictAllNotInScreenForgetsInsideBytes(m: Manager, now: int)
    requires Accounted(m)
    ensures m.realSize - Freed(m.caches, OutsideAt(now)) == TotalSize(Unpicked(m.caches, OutsideAt(now)))
    ensures forall d :: d in Unpicked(m.caches, OutsideAt(now)) ==> !IsOutside(d, now)
  {
  }

  /** `getFirstCacheTime`: the time of the first entry in admission order,
      0 when the list is empty; on a time-ordered list it is the earliest
      cached time. */
  function FirstCacheTime(m: Manager): (r: int)
    ensures |m.caches| == 0 ==> r == 0
    ensures |m.caches| > 0 ==> r == m.caches[0].time
    ensures TimeOrdered(m.caches) ==> forall i :: 0 <= i < |m.caches| ==> r <= m.caches[i].time
  {
    if |m.caches| > 0 then m.caches[0].time else 0
  }

  /** `push` keeps the counter equal to the sum of the entries' sizes, keeps
      the pool within capacity, and exceeds the budget only with a single
      item admitted into an emptied list. */
  lemma PushKeepsValid(m: Manager, item: Danmaku, now: int)
    requires Valid(m)
    ensures Valid(Push(m, item, now).manager)
  {
    var r := Push(m, item, now);
    var k := |r.evicted|;
    var rest := m.caches[k..];
    PushRealSize(m, item, now);
    PushPooled(m, item, now);
    PushSucceedsIff(m, item, now);
    PushShape(m, item, now);
    assert m.caches == m.caches[..k] + rest;
    TotalSizeAppend(m.caches[..k], rest);
    assert r.manager.realSize == TotalSize(rest) + (if r.pushed then SizeOf(item) else 0);
    if r.pushed {
      assert r.manager.caches == rest + [item];
      TotalSizeAppend(rest, [item]);
      assert TotalSize([item]) == SizeOf(item) by {
        assert [item][1..] == [];
      }
    } else {
      assert r.manager.caches == rest;
    }
  }

  /** A suffix of a list without repeated comments has none either. */
  lemma DistinctSuffix(s: seq<Danmaku>, k: nat)
    requires DistinctIds(s) && k <= |s|
    ensures DistinctIds(s[k..])
  {
    forall i, j | 0 <= i < j < |s| - k
      ensures s[k..][i].id != s[k..][j].id
    {
      assert s[k..][i] == s[k + i] && s[k..][j] == s[k + j];
    }
  }

  /** Adding a comment that is not listed at either end keeps every comment
      listed once. */
  lemma DistinctAdd(x: Danmaku, t: seq<Danmaku>)
    requires DistinctIds(t) && !Listed(t, x.id)
    ensures DistinctIds([x] + t) && DistinctIds(t + [x])
  {
    forall i, j | 0 <= i < j < |t| + 1
      ensures ([x] + t)[i].id != ([x] + t)[j].id && (t + [x])[i].id != (t + [x])[j].id
    {
      assert ([x] + t)[j] == t[j - 1];
      assert ([x] + t)[j] in t;
      assert (t + [x])[i] == t[i] && t[i] in t;
      if j < |t| {
        assert (t + [x])[j] == t[j];
      }
    }
  }

  /** Dropping entries keeps every comment listed at most once. */
  lemma {:induction false} UnpickedKeepsDistinct(s: seq<Danmaku>, c: Criterion)
    requires DistinctIds(s)
    ensures DistinctIds(Unpicked(s, c))
    decreases |s|
  {
    if s != [] {
      DistinctSuffix(s, 1);
      UnpickedKeepsDistinct(s[1..], c);
      if !Picks(c, s[0]) {
        var u := Unpicked(s[1..], c);
        forall d | d in u
          ensures d.id != s[0].id
        {
          var k :| 0 <= k < |s[1..]| && s[1..][k] == d;
          assert s[k + 1] == d;
        }
        DistinctAdd(s[0], u);
      }
    }
  }

  /** `push` of a comment that is not listed keeps every comment listed at
      most once, and a refused push leaves the comment unlisted. */
  lemma PushKeepsDistinct(m: Manager, item: Danmaku, now: int)
    requires DistinctIds(m.caches) && !Listed(m.caches, item.id)
    ensures var r := Push(m, item, now);
            && DistinctIds(r.manager.caches)
            && (!r.pushed ==> !Listed(r.manager.caches, item.id))
  {
    var r := Push(m, item, now);
    PushShape(m, item, now);
    var rest := m.caches[|r.evicted|..];
    DistinctSuffix(m.caches, |r.evicted|);
    forall d | d in rest
      ensures d.id != item.id
    {
      assert d in m.caches;
    }
    if r.pushed {
      DistinctAdd(item, rest);
    } else {
      assert r.manager.caches == rest;
    }
  }

  /** Once `push` has evicted every entry it admits the item, even if the
      item alone is larger than the budget. */
  lemma PushAdmitsOversizeIntoEmptyList(m: Manager, item: Danmaku, now: int)
    requires forall i :: 0 <= i < |m.caches| ==> IsTimeOut(m.caches[i], now)
    ensures Push(m, item, now).pushed
    ensures Push(m, item, now).manager.caches == m.caches[|Push(m, item, now).evicted|..] + [item]
  {
    PushShape(m, item, now);
  }

  /** `push` refuses without touching anything when the item does not fit and
      the oldest entry is live. */
  lemma PushRefusesBeforeLiveEntry(m: Manager, item: Danmaku, now: int)
    requires m.realSize + SizeOf(item) > m.maxSize
    requires |m.caches| > 0 && !IsTimeOut(m.caches[0], now)
    ensures Push(m, item, now) == PushResult(m, [], false)
  {
  }

  /** A refused `push` need not leave the list unchanged: here it evicts a
      timed-out entry, meets a live one and refuses. */
  lemma FailedPushKeepsItsEvictions()
    ensures var expired := Danmaku(1, 0, 10, Some(DrawingCache(400)));
            var live := Danmaku(2, 100, 10, Some(DrawingCache(400)));
            var m := Manager([expired, live], 800, 1000, 3, 0);
            var r := Push(m, Danmaku(3, 105, 10, Some(DrawingCache(700))), 105);
            !r.pushed && r.manager.caches == [live] && r.manager.realSize == 400
            && r.evicted == [expired.(cache := None)]
  {
    var expired := Danmaku(1, 0, 10, Some(DrawingCache(400)));
    var live := Danmaku(2, 100, 10, Some(DrawingCache(400)));
    var m := Manager([expired, live], 800, 1000, 3, 0);
    var item := Danmaku(3, 105, 10, Some(DrawingCache(700)));
    assert Push(m, item, 105).evicted == [expired.(cache := None)];
  }

  /** Budget 1000, comments A (time 0, 600 bytes) and B (time 1, 600 bytes):
      A is admitted, B is refused while A is live, and B is admitted once A
      has expired, A being evicted first. */
  lemma AdmissionScenario()
    ensures var a := Danmaku(1, 0, 10, Some(DrawingCache(600)));
            var b := Danmaku(2, 1, 10, Some(DrawingCache(600)));
            var m0 := NewManager(1000, 3);
            var r1 := Push(m0, a, 0);
            var r2 := Push(r1.manager, b, 1);
            var r3 := Push(r1.manager, b, 11);
            && r1.pushed && r1.manager.caches == [a] && r1.manager.realSize == 600
            && !r2.pushed && r2.manager == r1.manager
            && r3.pushed && r3.evicted == [a.(cache := None)]
            && r3.manager.caches == [b] && r3.manager.realSize == 600 && r3.manager.pooled == 1
  {
    var a := Danmaku(1, 0, 10, Some(DrawingCache(600)));
    var b := Danmaku(2, 1, 10, Some(DrawingCache(600)));
    var m0 := NewManager(1000, 3);
    var r1 := Push(m0, a, 0);
    assert r1.manager.caches == [a];
    var r3 := Push(r1.manager, b, 11);
    assert r3.evicted == [a.(cache := None)];
  }

  /** `evictAllNotInScreen` at time 3 on a comment on screen since time 0
      and one due at time 5 returns only the latter's cache to the pool. */
  lemma EvictOutOfWindowScenario()
    ensures var inside := Danmaku(1, 0, 10, Some(DrawingCache(300)));
            var outside := Danmaku(2, 5, 10, Some(DrawingCache(200)));
            var m := Manager([inside, outside], 500, 1000, 3, 7);
            var r := EvictAllNotInScreen(m, 3);
            r.manager.pooled == 8 && r.dropped == [inside, outside.(cache := None)]
  {
    var inside := Danmaku(1, 0, 10, Some(DrawingCache(300)));
    var outside := Danmaku(2, 5, 10, Some(DrawingCache(200)));
    var m := Manager([inside, outside], 500, 1000, 3, 7);
    assert m.caches[1..] == [outside];
    assert Returned(m.caches, OutsideAt(3)) == 1;
  }
}
