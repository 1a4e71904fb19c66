/** The cache-building side of CacheManagingDrawTask: the CacheHandler's
    message step (PREPARE falling through to BUILD_CACHES), its per-tick
    decision between the cache-ahead timer and the playback timer, the bounded
    build pass `prepareCaches`, and the begin/resume/end lifecycle, with the
    Handler's message queue reduced to the message each step posts. */
module CacheHandler {
  import opened Wrappers
  import opened CacheStore

  /** `MAX_CACHE_SCREEN_SIZE`, the screen count the task gives its manager. */
  const MaxCacheScreenSize: int := 3

  /** The number of empty caches PREPARE releases into the pool. */
  const PrewarmCount: nat := 200

  /** The lead over the playback timer below which a tick builds instead of
      waiting, and the margin taken off the wait when it reschedules. */
  const RescheduleMargin: int := 1000

  /** How far ahead of the playback timer a resynchronised cache timer starts. */
  const ResyncOffset: int := 100

  /** What the build pass consumes from outside the manager: the comment
      list's `subset(start, end)`, the cache size guessed from a measured
      comment, the cache built for it, and whether the wall-clock quota is
      found exhausted after the given number of visited comments. */
  datatype Env = Env(
    subset: (int, int) -> seq<Danmaku>,
    estimate: Danmaku -> nat,
    build: Danmaku -> DrawingCache,
    outOfTime: nat -> bool)

  /** A CacheHandler, reduced to its pause flag. */
  datatype Handler = Handler(paused: bool)

  /** The task as the handler sees it: the playback timer, the cache timer,
      the manager, the handler and the thread (both absent after `end`),
      whether a ready listener is still registered, and
      `DanmakuFactory.MAX_DANMAKU_DURATION`. */
  datatype Task = Task(
    timer: int,
    cacheTimer: int,
    store: Manager,
    handler: Option<Handler>,
    threadAlive: bool,
    listener: bool,
    maxDuration: int)

  datatype Message = Prepare | BuildCaches

  /** The message a step leaves in the handler's queue. */
  datatype Post = NoPost | PostNow(msg: Message) | PostDelayed(msg: Message, delay: int)

  /** One handler step: the task afterwards, what it posts, and whether it
      called the listener's `ready`. */
  datatype Step = Step(task: Task, post: Post, ready: bool)

  /** The look-ahead horizon `MAX_DANMAKU_DURATION * mScreenSize`. */
  function Horizon(t: Task): int
  {
    t.maxDuration * t.store.screenSize
  }

  /** A cache built for a comment: the comment with that cache attached. */
  function Built(item: Danmaku, env: Env): (d: Danmaku)
    ensures d.id == item.id && d.time == item.time && d.duration == item.duration
    ensures d.cache == Some(env.build(item))
  {
    item.(cache := Some(env.build(item)))
  }

  /** Why a build pass ended. */
  datatype Stop = Exhausted | BudgetFull | PushRefused | OutOfTime

  /** What visiting one comment does in the build pass. */
  datatype Visit = Skipped | Kept(store: Manager) | Broke(store: Manager, reason: Stop)

  /** A comment has a drawing cache (`hasDrawingCache`) when it carries one
      or when the list holds it, cache attached, from an earlier pass. */
  predicate HasCache(m: Manager, item: Danmaku)
  {
    item.cache.Some? || Listed(m.caches, item.id)
  }

  /** One iteration of the build loop: a timed-out comment, or one on
      screen, is skipped; one that already has a cache is kept as it is;
      otherwise the pass breaks if the guessed size would exceed the budget,
      else a cache is taken from the pool, built and pushed, and a refused
      push nulls the cache, returns it to the pool and breaks. */
  function VisitItem(m: Manager, item: Danmaku, now: int, env: Env): (v: Visit)
    ensures v.Skipped? <==> IsTimeOut(item, now) || !IsOutside(item, now)
    ensures v.Broke? ==> v.reason == BudgetFull || v.reason == PushRefused
    ensures v.Broke? && v.reason == BudgetFull ==>
              !HasCache(m, item) && v.store == m && m.realSize + env.estimate(item) > m.maxSize
    ensures v.Broke? && v.reason == PushRefused ==>
              !HasCache(m, item) && |v.store.caches| > 0 && !IsTimeOut(v.store.caches[0], now)
    ensures v.Kept? && HasCache(m, item) ==> v.store == m
    ensures v.Kept? && !HasCache(m, item) ==>
              |v.store.caches| > 0 && v.store.caches[|v.store.caches| - 1] == Built(item, env)
    ensures !v.Skipped? ==> forall d :: d in v.store.caches ==> d in m.caches || d == Built(item, env)
    ensures !v.Skipped? ==> v.store.maxSize == m.maxSize && v.store.screenSize == m.screenSize
  {
    if IsTimeOut(item, now) || !IsOutside(item, now) then Skipped
    else if HasCache(m, item) then Kept(m)
    else if m.realSize + env.estimate(item) > m.maxSize then Broke(m, BudgetFull)
    else
      var taken := m.(pooled := Acquired(m.pooled));
      var r := Push(taken, Built(item, env), now);
      PushShape(taken, Built(item, env), now);
      if r.pushed then Kept(r.manager)
      else Broke(r.manager.(pooled := Released(r.manager.pooled, 1)), PushRefused)
  }

  /** A visit keeps the manager valid: taking a cache from the pool only
      shrinks it, `push` keeps the counter and budget, and a refusal returns
      the cache to a pool that stays within capacity. */
  lemma VisitKeepsValid(m: Manager, item: Danmaku, now: int, env: Env)
    requires Valid(m)
    ensures var v := VisitItem(m, item, now, env);
            !v.Skipped? ==> Valid(v.store)
  {
    if !IsTimeOut(item, now) && IsOutside(item, now) && !HasCache(m, item)
       && m.realSize + env.estimate(item) <= m.maxSize {
      PushKeepsValid(m.(pooled := Acquired(m.pooled)), Built(item, env), now);
    }
  }

  /** A refused push keeps the evictions it made: the list loses a prefix of
      timed-out entries, their bytes leave the counter, their caches go back
      to the pool together with the one built for the comment, and the
      comment is not listed. */
  lemma VisitRefusal(m: Manager, item: Danmaku, now: int, env: Env)
    ensures var v := VisitItem(m, item, now, env);
            v.Broke? && v.reason == PushRefused ==>
              var k := |m.caches| - |v.store.caches|;
              && 0 <= k < |m.caches| && v.store.caches == m.caches[k..]
              && (forall i :: 0 <= i < k ==> IsTimeOut(m.caches[i], now))
              && v.store.realSize == m.realSize - TotalSize(m.caches[..k])
              && v.store.pooled == Released(Acquired(m.pooled), CacheCount(m.caches[..k]) + 1)
              && !Listed(v.store.caches, item.id)
  {
    if !IsTimeOut(item, now) && IsOutside(item, now) && !HasCache(m, item)
       && m.realSize + env.estimate(item) <= m.maxSize {
      var taken := m.(pooled := Acquired(m.pooled));
      var r := Push(taken, Built(item, env), now);
      if !r.pushed {
        var v := r.manager.(pooled := Released(r.manager.pooled, 1));
        assert VisitItem(m, item, now, env) == Broke(v, PushRefused);
        PushShape(taken, Built(item, env), now);
        PushCounters(taken, Built(item, env), now);
        var k := |r.evicted|;
        assert |m.caches| - |v.caches| == k;
        ReleasedTwice(Acquired(m.pooled), CacheCount(m.caches[..k]), 1);
        forall d | d in v.caches
          ensures d.id != item.id
        {
          assert d in m.caches;
        }
      }
    }
  }

  /** A visit never lists a comment twice: a comment is built and pushed
      only when the list does not hold it already. */
  lemma VisitKeepsDistinct(m: Manager, item: Danmaku, now: int, env: Env)
    requires DistinctIds(m.caches)
    ensures var v := VisitItem(m, item, now, env);
            !v.Skipped? ==> DistinctIds(v.store.caches)
  {
    if !IsTimeOut(item, now) && IsOutside(item, now) && !HasCache(m, item)
       && m.realSize + env.estimate(item) <= m.maxSize {
      PushKeepsDistinct(m.(pooled := Acquired(m.pooled)), Built(item, env), now);
    }
  }

  /** The outcome of a build pass: the manager afterwards, how many comments
      it visited (the last visited one included) and why it ended. */
  datatype Pass = Pass(store: Manager, visited: nat, stop: Stop)

  /** The build loop of `prepareCaches` from the `i`-th candidate on. */
  function BuildPass(m: Manager, items: seq<Danmaku>, i: nat, now: int, init: bool, env: Env): (p: Pass)
    requires i <= |items|
    ensures i <= p.visited <= |items|
    ensures p.stop == Exhausted ==> p.visited == |items|
    ensures p.stop != Exhausted ==> i < p.visited
    ensures init ==> p.stop != OutOfTime
    ensures p.store.maxSize == m.maxSize && p.store.screenSize == m.screenSize
    decreases |items| - i
  {
    if i == |items| then Pass(m, i, Exhausted)
    else
      var v := VisitItem(m, items[i], now, env);
      if v.Skipped? then BuildPass(m, items, i + 1, now, init, env)
      else if v.Broke? then Pass(v.store, i + 1, v.reason)
      else if !init && env.outOfTime(i + 1) then Pass(v.store, i + 1, OutOfTime)
      else BuildPass(v.store, items, i + 1, now, init, env)
  }

  /** The build pass keeps the manager valid, and every entry it leaves is
      one that was there before or a live comment outside the screen. */
  lemma {:induction false} BuildPassKeepsValid(m: Manager, items: seq<Danmaku>, i: nat, now: int, init: bool, env: Env)
    requires i <= |items|
    ensures var p := BuildPass(m, items, i, now, init, env);
            && (Valid(m) ==> Valid(p.store))
            && (forall d :: d in p.store.caches ==> d in m.caches || (!IsTimeOut(d, now) && IsOutside(d, now)))
    decreases |items| - i
  {
    if i < |items| {
      var v := VisitItem(m, items[i], now, env);
      if Valid(m) {
        VisitKeepsValid(m, items[i], now, env);
      }
      if v.Skipped? {
        BuildPassKeepsValid(m, items, i + 1, now, init, env);
      } else if !v.Broke? {
        BuildPassKeepsValid(v.store, items, i + 1, now, init, env);
      }
    }
  }

  lemma {:induction false} BuildPassKeepsDistinct(m: Manager, items: seq<Danmaku>, i: nat, now: int, init: bool, env: Env)
    requires i <= |items|
    requires DistinctIds(m.caches)
    ensures DistinctIds(BuildPass(m, items, i, now, init, env).store.caches)
    decreases |items| - i
  {
    if i < |items| {
      var v := VisitItem(m, items[i], now, env);
      VisitKeepsDistinct(m, items[i], now, env);
      if v.Skipped? {
        BuildPassKeepsDistinct(m, items, i + 1, now, init, env);
      } else if !v.Broke? {
        BuildPassKeepsDistinct(v.store, items, i + 1, now, init, env);
      }
    }
  }

  /** The pass breaks on the budget only at a live, outside, uncached comment
      whose guessed size does not fit, and on a refused push only before a
      live entry. */
  lemma BuildPassBreaks(m: Manager, items: seq<Danmaku>, i: nat, now: int, init: bool, env: Env)
    requires i <= |items|
    ensures var p := BuildPass(m, items, i, now, init, env);
            && (p.stop == BudgetFull ==>
                  var last := items[p.visited - 1];
                  !HasCache(p.store, last) && !IsTimeOut(last, now) && IsOutside(last, now)
                  && p.store.realSize + env.estimate(last) > p.store.maxSize)
            && (p.stop == PushRefused ==>
                  |p.store.caches| > 0 && !IsTimeOut(p.store.caches[0], now))
  {
    BuildPassBreaksOnBudget(m, items, i, now, init, env);
    BuildPassBreaksOnRefusal(m, items, i, now, init, env);
  }

  lemma {:induction false} BuildPassBreaksOnBudget(m: Manager, items: seq<Danmaku>, i: nat, now: int, init: bool, env: Env)
    requires i <= |items|
    ensures var p := BuildPass(m, items, i, now, init, env);
            p.stop == BudgetFull ==>
              var last := items[p.visited - 1];
              !HasCache(p.store, last) && !IsTimeOut(last, now) && IsOutside(last, now)
              && p.store.realSize + env.estimate(last) > p.store.maxSize
    decreases |items| - i
  {
    if i < |items| {
      var v := VisitItem(m, items[i], now, env);
      if v.Skipped? {
        BuildPassBreaksOnBudget(m, items, i + 1, now, init, env);
      } else if v.Broke? {
        assert BuildPass(m, items, i, now, init, env) == Pass(v.store, i + 1, v.reason);
      } else if init || !env.outOfTime(i + 1) {
        BuildPassBreaksOnBudget(v.store, items, i + 1, now, init, env);
      }
    }
  }

  lemma {:induction false} BuildPassBreaksOnRefusal(m: Manager, items: seq<Danmaku>, i: nat, now: int, init: bool, env: Env)
    requires i <= |items|
    ensures var p := BuildPass(m, items, i, now, init, env);
            p.stop == PushRefused ==> |p.store.caches| > 0 && !IsTimeOut(p.store.caches[0], now)
    decreases |items| - i
  {
    if i < |items| {
      var v := VisitItem(m, items[i], now, env);
      if v.Skipped? {
        BuildPassBreaksOnRefusal(m, items, i + 1, now, init, env);
      } else if v.Broke? {
        assert BuildPass(m, items, i, now, init, env) == Pass(v.store, i + 1, v.reason);
      } else if init || !env.outOfTime(i + 1) {
        BuildPassBreaksOnRefusal(v.store, items, i + 1, now, init, env);
      }
    }
  }

  /** The outcome of `prepareCaches`: the manager, the cache timer, how many
      candidates were visited and why the pass ended. */
  datatype Prepared = Prepared(store: Manager, cacheTimer: int, visited: nat, stop: Stop)

  /** `prepareCaches(init)`: fetch the comments of the window
      `[curr, curr + horizon)` and run the build loop over them; an empty
      window changes nothing, otherwise the cache timer moves to the time of
      the last comment visited. */
  function PrepareCaches(m: Manager, curr: int, now: int, init: bool, horizon: int, env: Env): (r: Prepared)
    ensures var items := env.subset(curr, curr + horizon);
            && (|items| == 0 ==> r == Prepared(m, curr, 0, Exhausted))
            && (|items| > 0 ==> 1 <= r.visited <= |items| && r.cacheTimer == items[r.visited - 1].time)
            && (r.stop == Exhausted ==> r.visited == |items|)
            && (r.stop == BudgetFull ==>
                  r.store.realSize + env.estimate(items[r.visited - 1]) > r.store.maxSize)
    ensures init ==> r.stop != OutOfTime
    ensures forall d :: d in r.store.caches ==> d in m.caches || (!IsTimeOut(d, now) && IsOutside(d, now))
    ensures r.store.maxSize == m.maxSize && r.store.screenSize == m.screenSize
    ensures Valid(m) ==> Valid(r.store)
  {
    var items := env.subset(curr, curr + horizon);
    if |items| == 0 then Prepared(m, curr, 0, Exhausted)
    else
      var p := BuildPass(m, items, 0, now, init, env);
      BuildPassKeepsValid(m, items, 0, now, init, env);
      BuildPassBreaks(m, items, 0, now, init, env);
      Prepared(p.store, items[p.visited - 1].time, p.visited, p.stop)
  }

  /** How a tick treats the cache before building. */
  datatype Eviction = KeepAll | EvictEverything | EvictOutOfWindow

  /** The per-tick decision: either only reschedule, or evict as needed,
      possibly resynchronise the cache timer, and build. */
  datatype Decision = Reschedule(delay: int) | Rebuild(evict: Eviction, resync: bool)

  /** The BUILD_CACHES decision from the cache timer's lead over the playback
      timer (`wait`), the horizon and the first cached time. */
  function Decide(wait: int, horizon: int, firstCacheAhead: int): (d: Decision)
    ensures d.Reschedule? <==> RescheduleMargin < wait <= horizon
    ensures d.Reschedule? ==> 0 < d.delay && d.delay + RescheduleMargin == wait
    ensures d.Rebuild? ==> (d.evict == EvictEverything <==> wait < 0)
    ensures d.Rebuild? ==> (d.evict == EvictOutOfWindow <==> 0 <= wait && firstCacheAhead > horizon)
    ensures d.Rebuild? ==> (d.resync <==> wait < 0 || wait > horizon)
  {
    if RescheduleMargin < wait <= horizon then Reschedule(wait - RescheduleMargin)
    else
      var evict :=
        if wait < 0 then EvictEverything
        else if firstCacheAhead > horizon then EvictOutOfWindow
        else KeepAll;
      Rebuild(evict, wait < 0 || wait > horizon)
  }

  /** The store a rebuilding tick starts its pass from. */
  function Evicted(m: Manager, evict: Eviction, now: int): (r: Manager)
    ensures evict == KeepAll ==> r == m
    ensures evict != KeepAll ==> r.caches == [] && r.realSize == 0
    ensures r.maxSize == m.maxSize && r.screenSize == m.screenSize
    ensures Valid(m) ==> Valid(r)
  {
    match evict
    case KeepAll => m
    case EvictEverything => EvictAll(m).manager
    case EvictOutOfWindow => EvictAllNotInScreen(m, now).manager
  }

  /** The rebuilding half of a tick on the cleared task `t`: evict as
      decided, run one pass from the playback timer plus the offset when
      resynchronising and from the cache timer otherwise, post the next tick
      at once, and call `ready` if a listener is registered, dropping it. */
  function RebuildStep(t: Task, evict: Eviction, resync: bool, env: Env): (s: Step)
    ensures s.post == PostNow(BuildCaches) && s.ready == t.listener && !s.task.listener
    ensures s.task.timer == t.timer && s.task.handler == t.handler
    ensures s.task.threadAlive == t.threadAlive && s.task.maxDuration == t.maxDuration
    ensures Valid(t.store) ==> Valid(s.task.store)
  {
    var curr := if resync then t.timer + ResyncOffset else t.cacheTimer;
    var p := PrepareCaches(Evicted(t.store, evict, t.timer), curr, t.timer, t.listener, Horizon(t), env);
    Step(t.(store := p.store, cacheTimer := p.cacheTimer, listener := false),
         PostNow(BuildCaches), t.listener)
  }

  /** Where a rebuild leaves the cache timer and the store: on a fetched
      comment's time, or at the pass's start with the evicted store when the
      window is empty; every entry is one that survived the eviction or a
      live comment outside the screen. */
  lemma RebuildWindow(t: Task, evict: Eviction, resync: bool, env: Env)
    ensures var s := RebuildStep(t, evict, resync, env);
            var base := Evicted(t.store, evict, t.timer);
            var curr := if resync then t.timer + ResyncOffset else t.cacheTimer;
            var items := env.subset(curr, curr + Horizon(t));
            && (|items| == 0 ==> s.task.cacheTimer == curr && s.task.store == base)
            && (|items| > 0 ==> exists i :: 0 <= i < |items| && s.task.cacheTimer == items[i].time)
            && (forall d :: d in s.task.store.caches ==> d in base.caches || (!IsTimeOut(d, t.timer) && IsOutside(d, t.timer)))
  {
    var base := Evicted(t.store, evict, t.timer);
    var curr := if resync then t.timer + ResyncOffset else t.cacheTimer;
    var p := PrepareCaches(base, curr, t.timer, t.listener, Horizon(t), env);
    var items := env.subset(curr, curr + Horizon(t));
    if |items| > 0 {
      assert 0 <= p.visited - 1 < |items| && p.cacheTimer == items[p.visited - 1].time;
    }
  }

  /** The BUILD_CACHES branch of `handleMessage`: nothing while paused;
      otherwise clear timed-out caches, then follow `Decide`. */
  function HandleBuildCaches(t: Task, env: Env): (s: Step)
    ensures t.handler.None? || t.handler.value.paused ==> s == Step(t, NoPost, false)
    ensures s.ready <==> t.listener && s.post == PostNow(BuildCaches)
    ensures s.ready ==> !s.task.listener
    ensures !s.ready ==> s.task.listener == t.listener
    ensures s.task.timer == t.timer && s.task.handler == t.handler
    ensures s.task.threadAlive == t.threadAlive && s.task.maxDuration == t.maxDuration
    ensures Valid(t.store) ==> Valid(s.task.store)
  {
    if t.handler.None? || t.handler.value.paused then Step(t, NoPost, false)
    else Tick(t, env)
  }

  /** A running tick: clear the timed-out caches, then follow `Decide`. It
      always schedules the next tick, delayed exactly when the cache timer
      leads by more than the margin and no more than the horizon, and leaves
      no entry timed out at the playback timer. */
  function Tick(t: Task, env: Env): (s: Step)
    ensures s.post.PostDelayed? <==> RescheduleMargin < t.cacheTimer - t.timer <= Horizon(t)
    ensures s.post.PostDelayed? ==> s.post.msg == BuildCaches && s.post.delay > 0
    ensures !s.post.PostDelayed? ==> s.post == PostNow(BuildCaches)
    ensures s.ready <==> t.listener && s.post == PostNow(BuildCaches)
    ensures s.ready ==> !s.task.listener
    ensures !s.ready ==> s.task.listener == t.listener
    ensures s.task.timer == t.timer && s.task.handler == t.handler
    ensures s.task.threadAlive == t.threadAlive && s.task.maxDuration == t.maxDuration
    ensures forall d :: d in s.task.store.caches ==> !IsTimeOut(d, t.timer)
    ensures Valid(t.store) ==> Valid(s.task.store)
  {
    var cleared := ClearTimeOutCaches(t.store, t.timer).manager;
    var ticked := t.(store := cleared);
    Proceed(ticked, Decide(t.cacheTimer - t.timer, Horizon(ticked), FirstCacheTime(cleared) - t.timer), env)
  }

  /** Follows a decision on the cleared task. */
  function Proceed(ticked: Task, d: Decision, env: Env): (s: Step)
  {
    match d
    case Reschedule(delay) => Step(ticked, PostDelayed(BuildCaches, delay), false)
    case Rebuild(evict, resync) => RebuildStep(ticked, evict, resync, env)
  }

  /** The PREPARE branch: evict the caches not on screen, pre-warm the pool
      with empty caches, then fall through to BUILD_CACHES. A paused handler
      stops after the eviction and the pre-warming; a running one ticks as
      BUILD_CACHES does. */
  function HandlePrepare(t: Task, env: Env): (s: Step)
    ensures t.handler.None? ==> s == Step(t, NoPost, false)
    ensures t.handler == Some(Handler(true)) ==>
              && s.task.store.caches == [] && s.task.store.realSize == 0
              && s.task.store.pooled == Released(t.store.pooled, Returned(t.store.caches, OutsideAt(t.timer)) + PrewarmCount)
              && s.post == NoPost && !s.ready
    ensures t.handler == Some(Handler(false)) ==>
              && (s.post.PostDelayed? <==> RescheduleMargin < t.cacheTimer - t.timer <= Horizon(t))
              && (s.ready <==> t.listener && s.post == PostNow(BuildCaches))
    ensures s.task.timer == t.timer && s.task.handler == t.handler
    ensures Valid(t.store) ==> Valid(s.task.store)
    ensures t.handler.Some? && t.store.pooled <= PoolCapacity ==> Valid(s.task.store)
  {
    match t.handler
    case None => Step(t, NoPost, false)
    case Some(_) =>
      var evicted := EvictAllNotInScreen(t.store, t.timer).manager;
      ReleasedTwice(t.store.pooled, Returned(t.store.caches, OutsideAt(t.timer)), PrewarmCount);
      var warmed := evicted.(pooled := Released(evicted.pooled, PrewarmCount));
      HandleBuildCaches(t.(store := warmed), env)
  }

  /** After PREPARE nothing cached before remains listed: every entry is a
      live comment outside the screen that this step's pass admitted. */
  lemma PrepareStartsAfresh(t: Task, env: Env)
    requires t.handler.Some?
    ensures forall d :: d in HandlePrepare(t, env).task.store.caches ==> !IsTimeOut(d, t.timer) && IsOutside(d, t.timer)
  {
    var evicted := EvictAllNotInScreen(t.store, t.timer).manager;
    var warmed := evicted.(pooled := Released(evicted.pooled, PrewarmCount));
    var tw := t.(store := warmed);
    if !t.handler.value.paused {
      var cleared := ClearTimeOutCaches(warmed, t.timer).manager;
      var ticked := tw.(store := cleared);
      assert cleared.caches == [];
      var d := Decide(t.cacheTimer - t.timer, Horizon(ticked), FirstCacheTime(cleared) - t.timer);
      assert HandlePrepare(t, env) == Proceed(ticked, d, env);
      if d.Rebuild? {
        RebuildWindow(ticked, d.evict, d.resync, env);
        assert Evicted(cleared, d.evict, t.timer).caches == [];
      }
    }
  }

  /** `handleMessage`: a message reaches only a live handler. */
  function HandleMessage(t: Task, msg: Message, env: Env): (s: Step)
    ensures t.handler.None? ==> s == Step(t, NoPost, false)
    ensures s.ready ==> t.listener && !s.task.listener
    ensures !s.ready ==> s.task.listener == t.listener
    ensures s.task.handler == t.handler && s.task.timer == t.timer
    ensures Valid(t.store) ==> Valid(s.task.store)
  {
    match msg
    case Prepare => HandlePrepare(t, env)
    case BuildCaches => HandleBuildCaches(t, env)
  }

  /** A tick never lists a comment twice if none was before: clearing and
      evicting only drop entries, and the pass adds only unlisted comments. */
  lemma TickKeepsDistinct(t: Task, env: Env)
    requires DistinctIds(t.store.caches)
    ensures DistinctIds(Tick(t, env).task.store.caches)
  {
    var cleared := ClearTimeOutCaches(t.store, t.timer).manager;
    var ticked := t.(store := cleared);
    var d := Decide(t.cacheTimer - t.timer, Horizon(ticked), FirstCacheTime(cleared) - t.timer);
    UnpickedKeepsDistinct(t.store.caches, TimedOutAt(t.timer));
    assert Tick(t, env) == Proceed(ticked, d, env);
    match d
    case Reschedule(_) =>
    case Rebuild(evict, resync) =>
      RebuildKeepsDistinct(ticked, evict, resync, env);
  }

  lemma RebuildKeepsDistinct(t: Task, evict: Eviction, resync: bool, env: Env)
    requires DistinctIds(t.store.caches)
    ensures DistinctIds(RebuildStep(t, evict, resync, env).task.store.caches)
  {
    var base := Evicted(t.store, evict, t.timer);
    var curr := if resync then t.timer + ResyncOffset else t.cacheTimer;
    var items := env.subset(curr, curr + Horizon(t));
    if |items| > 0 {
      BuildPassKeepsDistinct(base, items, 0, t.timer, t.listener, env);
    }
  }

  /** No message lists a comment twice if none was before, so no comment's
      bytes are ever counted twice. */
  lemma StepKeepsDistinct(t: Task, msg: Message, env: Env)
    requires DistinctIds(t.store.caches)
    ensures DistinctIds(HandleMessage(t, msg, env).task.store.caches)
  {
    if t.handler.Some? {
      if msg == Prepare {
        var evicted := EvictAllNotInScreen(t.store, t.timer).manager;
        var warmed := evicted.(pooled := Released(evicted.pooled, PrewarmCount));
        if !t.handler.value.paused {
          TickKeepsDistinct(t.(store := warmed), env);
        }
      } else if !t.handler.value.paused {
        TickKeepsDistinct(t, env);
      }
    }
  }

  /** While the cache timer leads the playback timer by more than the margin
      and no more than the horizon, a tick only clears timed-out caches and
      reschedules itself for when the lead is down to the margin: it builds
      nothing, keeps the cache timer and keeps the listener. */
  lemma RescheduleDoesNoWork(t: Task, env: Env)
    requires t.handler == Some(Handler(false))
    requires RescheduleMargin < t.cacheTimer - t.timer <= Horizon(t)
    ensures var s := HandleBuildCaches(t, env);
            && s.post.PostDelayed? && s.post.msg == BuildCaches
            && t.timer + s.post.delay == t.cacheTimer - RescheduleMargin
            && s.task.cacheTimer == t.cacheTimer && s.task.listener == t.listener && !s.ready
            && forall d :: d in s.task.store.caches <==> d in t.store.caches && !IsTimeOut(d, t.timer)
  {
  }

  /** When the cache timer has fallen behind the playback timer, the tick
      throws every cache away and rebuilds from the playback timer plus the
      offset: every entry afterwards was admitted by this tick's pass, live
      and outside the screen, and the cache timer lands on a comment fetched
      from that window, or on the resynchronised time if the window is empty. */
  lemma FallenBehindRebuildsFromScratch(t: Task, env: Env)
    requires t.handler == Some(Handler(false))
    requires t.cacheTimer < t.timer
    ensures FreshRebuild(HandleBuildCaches(t, env), t.timer, Horizon(t), env)
  {
    var ticked := t.(store := ClearTimeOutCaches(t.store, t.timer).manager);
    FallenBehindIsRebuild(t, env);
    RebuildFromEmpty(ticked, env);
    assert Horizon(ticked) == Horizon(t);
  }

  /** What a rebuild from scratch leaves at playback time `timer` with
      window length `horizon`: BUILD_CACHES posted again, only live entries
      outside the screen, and the cache timer at the resynchronised time
      with an empty store when the window is empty, or at the time of a
      comment fetched from the window otherwise. */
  predicate FreshRebuild(s: Step, timer: int, horizon: int, env: Env)
  {
    var curr := timer + ResyncOffset;
    var items := env.subset(curr, curr + horizon);
    && s.post == PostNow(BuildCaches)
    && (forall d :: d in s.task.store.caches ==> !IsTimeOut(d, timer) && IsOutside(d, timer))
    && (|items| == 0 ==> s.task.cacheTimer == curr && s.task.store.caches == [])
    && (|items| > 0 ==> exists i :: 0 <= i < |items| && s.task.cacheTimer == items[i].time)
  }

  /** A resynchronising rebuild after evicting everything starts from the
      playback timer plus the offset with an empty store. */
  lemma RebuildFromEmpty(t: Task, env: Env)
    ensures FreshRebuild(RebuildStep(t, EvictEverything, true, env), t.timer, Horizon(t), env)
  {
    RebuildWindow(t, EvictEverything, true, env);
    assert Evicted(t.store, EvictEverything, t.timer).caches == [];
  }

  /** A tick that finds the cache timer behind the playback timer clears
      timed-out caches, then evicts everything and resynchronises. */
  lemma FallenBehindIsRebuild(t: Task, env: Env)
    requires t.handler == Some(Handler(false))
    requires t.cacheTimer < t.timer
    ensures HandleBuildCaches(t, env) ==
              RebuildStep(t.(store := ClearTimeOutCaches(t.store, t.timer).manager), EvictEverything, true, env)
  {
    var cleared := ClearTimeOutCaches(t.store, t.timer).manager;
    var ticked := t.(store := cleared);
    var d := Decide(t.cacheTimer - t.timer, Horizon(ticked), FirstCacheTime(cleared) - t.timer);
    assert HandleBuildCaches(t, env) == Tick(t, env);
    assert d == Rebuild(EvictEverything, true);
  }

  /** After a tick that ran, no cached entry is timed out at the playback
      timer: the tick clears them first, evictions only remove entries, and
      the pass admits only live comments. */
  lemma TickLeavesNoTimedOutEntry(t: Task, msg: Message, env: Env)
    requires t.handler == Some(Handler(false))
    ensures forall d :: d in HandleMessage(t, msg, env).task.store.caches ==> !IsTimeOut(d, t.timer)
  {
  }

  /** A paused handler ignores BUILD_CACHES entirely. */
  lemma PausedTickDoesNothing(t: Task, env: Env)
    requires t.handler == Some(Handler(true))
    ensures HandleMessage(t, BuildCaches, env) == Step(t, NoPost, false)
  {
  }

  /** A message together with the playback time at which it is delivered:
      the render side moves the playback timer between handler steps. */
  datatype Delivery = Delivery(timer: int, msg: Message)

  /** One delivery: the playback timer reads the delivery's time, then the
      handler takes the message. */
  function Deliver(t: Task, d: Delivery, env: Env): (s: Step)
    ensures s.task.timer == d.timer && s.task.handler == t.handler
    ensures s.ready ==> t.listener && !s.task.listener
    ensures !s.ready ==> s.task.listener == t.listener
    ensures Valid(t.store) ==> Valid(s.task.store)
  {
    HandleMessage(t.(timer := d.timer), d.msg, env)
  }

  /** Runs the handler over a sequence of deliveries. */
  function Run(t: Task, ds: seq<Delivery>, env: Env): (r: Task)
    ensures r.handler == t.handler
    ensures r.timer == if ds == [] then t.timer else ds[|ds| - 1].timer
    ensures Valid(t.store) ==> Valid(r.store)
    ensures !t.listener ==> !r.listener
    decreases |ds|
  {
    if ds == [] then t
    else
      var next := Deliver(t, ds[0], env).task;
      assert ds[1..] != [] ==> ds[1..][|ds[1..]| - 1] == ds[|ds| - 1];
      Run(next, ds[1..], env)
  }

  /** Over any run of deliveries a comment is listed at most once. */
  lemma {:induction false} RunKeepsDistinct(t: Task, ds: seq<Delivery>, env: Env)
    requires DistinctIds(t.store.caches)
    ensures DistinctIds(Run(t, ds, env).store.caches)
    decreases |ds|
  {
    if ds != [] {
      StepKeepsDistinct(t.(timer := ds[0].timer), ds[0].msg, env);
      RunKeepsDistinct(Deliver(t, ds[0], env).task, ds[1..], env);
    }
  }

  /** The number of `ready` calls made during a run. */
  function ReadyCalls(t: Task, ds: seq<Delivery>, env: Env): nat
    decreases |ds|
  {
    if ds == [] then 0
    else
      var s := Deliver(t, ds[0], env);
      (if s.ready then 1 else 0) + ReadyCalls(s.task, ds[1..], env)
  }

  /** The ready listener fires at most once over any run, and not at all
      once it has been dropped. */
  lemma {:induction false} ReadyAtMostOnce(t: Task, ds: seq<Delivery>, env: Env)
    ensures ReadyCalls(t, ds, env) <= (if t.listener then 1 else 0)
    decreases |ds|
  {
    if ds != [] {
      var s := Deliver(t, ds[0], env);
      ReadyAtMostOnce(s.task, ds[1..], env);
      if s.ready {
        NoListenerNoReady(s.task, ds[1..], env);
      }
    }
  }

  lemma {:induction false} NoListenerNoReady(t: Task, ds: seq<Delivery>, env: Env)
    requires !t.listener
    ensures ReadyCalls(t, ds, env) == 0
    decreases |ds|
  {
    if ds != [] {
      NoListenerNoReady(Deliver(t, ds[0], env).task, ds[1..], env);
    }
  }

  /** A new task: both timers at the playback position, an empty manager
      with budget `maxCacheSize`, no handler or thread yet. */
  function NewTask(timer: int, maxCacheSize: int, listener: bool, maxDuration: int): (t: Task)
    ensures Valid(t.store) && t.store.caches == [] && t.cacheTimer == t.timer
    ensures t.handler.None? && !t.threadAlive
  {
    Task(timer, timer, NewManager(maxCacheSize, MaxCacheScreenSize), None, false, listener, maxDuration)
  }

  /** `CacheManager.begin`: start the thread and create the handler if
      missing, then post PREPARE. */
  function Begin(t: Task): (s: Step)
    ensures s.task.threadAlive && s.task.handler.Some?
    ensures t.handler.Some? ==> s.task.handler == t.handler
    ensures t.handler.None? ==> s.task.handler == Some(Handler(false))
    ensures s.post == PostNow(Prepare) && !s.ready
    ensures s.task.store == t.store && s.task.timer == t.timer && s.task.cacheTimer == t.cacheTimer
  {
    var h := if t.handler.Some? then t.handler else Some(Handler(false));
    Step(t.(threadAlive := true, handler := h), PostNow(Prepare), false)
  }

  /** `CacheManager.resume`: unpause the handler and post BUILD_CACHES, or
      begin afresh when there is no handler. */
  function Resume(t: Task): (s: Step)
    ensures s.task.handler == Some(Handler(false))
    ensures t.handler.Some? ==> s.post == PostNow(BuildCaches) && s.task == t.(handler := Some(Handler(false)))
    ensures t.handler.None? ==> s.post == PostNow(Prepare) && s.task.threadAlive
    ensures s.task.store == t.store && !s.ready
  {
    if t.handler.Some? then Step(t.(handler := Some(Handler(false))), PostNow(BuildCaches), false)
    else Begin(t)
  }

  /** `CacheManager.end`: drop the handler with its pending messages, stop
      the thread, evict everything and drain the pool. */
  function End(t: Task): (r: Task)
    ensures r.handler.None? && !r.threadAlive
    ensures r.store.caches == [] && r.store.realSize == 0 && r.store.pooled == 0
    ensures Valid(r.store)
    ensures r.timer == t.timer && r.cacheTimer == t.cacheTimer && r.listener == t.listener
  {
    var evicted := EvictAll(t.store).manager;
    t.(handler := None, threadAlive := false, store := evicted.(pooled := 0))
  }

  /** `end` is idempotent, and after it no message does anything. */
  lemma EndIdempotent(t: Task, msg: Message, env: Env)
    ensures End(End(t)) == End(t)
    ensures HandleMessage(End(t), msg, env) == Step(End(t), NoPost, false)
  {
  }

  /** `reset`: evict everything (the renderer is not part of this model). */
  function Reset(t: Task): (r: Task)
    ensures r.store.caches == [] && r.store.realSize == 0
    ensures r.store.pooled == Released(t.store.pooled, CacheCount(t.store.caches))
    ensures r.handler == t.handler && r.timer == t.timer && r.cacheTimer == t.cacheTimer
  {
    t.(store := EvictAll(t.store).manager)
  }

  /** `seek(mills)`: move the playback timer, evict the caches not in screen
      and resume the handler. */
  function Seek(t: Task, mills: int): (s: Step)
    ensures s.task.timer == mills && s.task.cacheTimer == t.cacheTimer
    ensures s.task.store.caches == [] && s.task.store.realSize == 0
    ensures s.task.handler == Some(Handler(false))
    ensures s.post == PostNow(BuildCaches) || s.post == PostNow(Prepare)
    ensures t.store.pooled <= PoolCapacity ==> Valid(s.task.store)
  {
    Resume(t.(timer := mills, store := EvictAllNotInScreen(t.store, mills).manager))
  }

  /** The comment list's `subset(start, end)` returns only comments whose
      time lies in `[start, end)`. */
  ghost predicate Windowed(env: Env)
  {
    forall start, end, i :: 0 <= i < |env.subset(start, end)| ==> start <= env.subset(start, end)[i].time < end
  }

  /** With a windowed comment list, a running tick never leaves the cache
      timer behind the playback timer: it keeps a lead above the margin,
      resumes from a cache timer that is not behind, or restarts from the
      playback timer plus the offset, and any fetched comment lies at or
      after where the pass started. */
  lemma TickKeepsCacheAhead(t: Task, env: Env)
    requires Windowed(env)
    ensures Tick(t, env).task.cacheTimer >= t.timer
  {
    var cleared := ClearTimeOutCaches(t.store, t.timer).manager;
    var ticked := t.(store := cleared);
    var d := Decide(t.cacheTimer - t.timer, Horizon(ticked), FirstCacheTime(cleared) - t.timer);
    assert Tick(t, env) == Proceed(ticked, d, env);
    match d
    case Reschedule(_) =>
    case Rebuild(evict, resync) =>
      RebuildWindow(ticked, evict, resync, env);
  }

  /** After `seek(mills)` the message it posts brings the cache timer to
      `mills` or beyond and leaves no entry timed out at `mills`. */
  lemma SeekThenTick(t: Task, mills: int, env: Env)
    requires Windowed(env)
    ensures var s := Seek(t, mills);
            var r := HandleMessage(s.task, s.post.msg, env);
            && r.task.cacheTimer >= mills
            && forall d :: d in r.task.store.caches ==> !IsTimeOut(d, mills)
  {
    var s := Seek(t, mills);
    var u := s.task;
    if s.post.msg == Prepare {
      var evicted := EvictAllNotInScreen(u.store, u.timer).manager;
      var warmed := evicted.(pooled := Released(evicted.pooled, PrewarmCount));
      assert HandleMessage(u, Prepare, env) == Tick(u.(store := warmed), env);
      TickKeepsCacheAhead(u.(store := warmed), env);
    } else {
      assert HandleMessage(u, BuildCaches, env) == Tick(u, env);
      TickKeepsCacheAhead(u, env);
    }
  }

  /** `quit`: end the manager, then reset; the reset finds nothing left. */
  lemma QuitLeavesEnded(t: Task)
    ensures Reset(End(t)) == End(t)
  {
  }
}
