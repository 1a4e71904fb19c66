# DanmakuFlameMaster draw-cache core in Dafny

This project models the sequential core of DanmakuFlameMaster's comment
("danmaku") renderer and proves properties about it.

- **The draw-cache manager** (`CacheManagingDrawTask.CacheManager`). It keeps
  a list of comments that hold a pre-rendered drawing cache, in admission
  order. A running byte total (`mRealSize`) is checked against a budget
  (`mMaxSize`). Evicted caches go back to a pool of capacity 500.
  - `cache_store.dfy` (module `CacheStore`) holds the list, the counter and
    the pool:
    - `push`;
    - the three evictions (timed out, not in screen, all);
    - `entryRemoved`, `sizeOf` and `getFirstCacheTime`.
  - `cache_handler.dfy` (module `CacheHandler`) holds the background side:
    - the PREPARE → BUILD_CACHES message step;
    - the per-tick decision between the cache timer and the playback timer;
    - the bounded build pass `prepareCaches`;
    - the begin/resume/end lifecycle and the task's `reset`, `seek` and `quit`.
- **`AndroidDisplayer`** (`displayer.dfy`, module `Displayer`):
  - the line scan of `calcPaintWH`, which gives a comment's paint width and
    height from its text;
  - the paint flags `drawDanmaku` chooses and the shared paints `getPaint` restyles;
  - `update`.
- **`DanmakuGlobalConfig`** (`global_config.dfy`, module `GlobalConfig`):
  - the hidden-type list `mFilterTypes` kept by `setVisible` and the five
    visibility setters;
  - the on-screen limit `setMaximumVisibleSizeInScreen`;
  - the style switch `setDanmakuStyle`.
- `wrappers.dfy` (module `Wrappers`) holds the `Option` type that stands for
  Java's nullable references.

State is immutable. Every operation is a pure function that returns the new
state. Side effects on code outside the model are returned as values:
- the message a handler step posts;
- whether `ready` was called;
- the calls made on the filter registry;
- the displayer's style switches.

External capabilities are parameters:
- the comment list's `subset`;
- the cache-size estimate;
- the cache builder;
- the wall-clock quota;
- `Paint.measureText` (`measure`).

`BaseDanmaku` is not part of this model. A comment is a record with an
identity (the Java object it stands for), a display time, a duration and an
optional cache. It is timed out at `now` when `now - time > duration`, and
outside the screen at `now` when `now < time` or it is timed out. Its own
`isTimeOut()` and `isOutside()` read the playback timer, so both are passed
that timer at the moment the code calls them. `DanmakuFactory.MAX_DANMAKU_DURATION`
is a field of the task. The line-break mark `DANMAKU_BR_CHAR` is a pair of
characters given as a parameter, because the scan steps over it with
`endPos + 2`.

Three behaviours of the code are easy to misread, and the model follows the
code in each:
- `clearTimeOutCaches` scans the whole list and does not stop at the first
  live entry (CacheManagingDrawTask.java:259-268).
- `evictAllNotInScreen` empties the whole list and resets the counter, but
  releases only the caches of the entries outside the screen
  (CacheManagingDrawTask.java:204-214).
- `push` admits the item once its eviction loop has emptied the list, however
  large the item (CacheManagingDrawTask.java:239-253).

A comment that already has a drawing cache is not rebuilt
(`hasDrawingCache()`, CacheManagingDrawTask.java:355). The cache is a field
of the comment object, so a comment that an earlier pass admitted still has
its cache when a later pass fetches it again. The model reads that from the
list: a comment counts as cached when it carries a cache or the list holds
it. As a result no comment is ever listed twice.

`setDanmakuStyle` writes `AndroidDisplayer.CONFIG_HAS_SHADOW` and
`CONFIG_HAS_STROKE`. The `AndroidDisplayer` shown declares only
`HAS_SHADOW`/`HAS_STROKE`, which `drawDanmaku` overwrites on every draw. The
style switches are therefore their own record, `GlobalConfig.DisplayStyle`,
and are not connected to `Displayer.PaintFlags`.

## Model

| member | source | states |
|---|---|---|
| CacheStore.Released | DanmakuFlameMaster/src/main/java/master/flame/danmaku/controller/CacheManagingDrawTask.java:135 | Releasing into a pool within its capacity of 500 keeps every released cache while there is room and fills the pool to exactly 500 when there is not; the pool never shrinks. |
| CacheStore.Acquired | DanmakuFlameMaster/src/main/java/master/flame/danmaku/controller/CacheManagingDrawTask.java:377 | An acquire takes one cache from a non-empty pool and yields nothing from an empty one. |
| CacheStore.NewManager | DanmakuFlameMaster/src/main/java/master/flame/danmaku/controller/CacheManagingDrawTask.java:145-149 | A new manager has an empty list, a zero counter and an empty pool, takes the given budget and screen count, and is valid. |
| CacheStore.EntryRemoved | DanmakuFlameMaster/src/main/java/master/flame/danmaku/controller/CacheManagingDrawTask.java:216-230 | Removing an entry subtracts its cache size (0 without a cache), returns a present cache to the pool, nulls it, and leaves the list alone. |
| CacheStore.SizeOf | DanmakuFlameMaster/src/main/java/master/flame/danmaku/controller/CacheManagingDrawTask.java:225-230 | A comment without a cache weighs 0 bytes; one with a cache weighs that cache's size. |
| CacheStore.Push | DanmakuFlameMaster/src/main/java/master/flame/danmaku/controller/CacheManagingDrawTask.java:239-253 | Push evicts at most the entries the list holds and keeps the budget and the screen count. |
| CacheStore.PushEvictsTimedOutPrefix | DanmakuFlameMaster/src/main/java/master/flame/danmaku/controller/CacheManagingDrawTask.java:241-246 | Every evicted entry is the entry at the same position of the old list, timed out, with its cache nulled. |
| CacheStore.PushKeepsRest | DanmakuFlameMaster/src/main/java/master/flame/danmaku/controller/CacheManagingDrawTask.java:241-252 | After the evicted prefix the old entries stay in order, and the item is appended exactly when push returns true. |
| CacheStore.PushRefusesOnlyBeforeLive | DanmakuFlameMaster/src/main/java/master/flame/danmaku/controller/CacheManagingDrawTask.java:241-248 | A refusal leaves a live entry at the front of what remains. |
| CacheStore.PushRealSize | DanmakuFlameMaster/src/main/java/master/flame/danmaku/controller/CacheManagingDrawTask.java:216-253 | The counter after push is the old counter minus the evicted prefix's bytes, plus the item's size when admitted. |
| CacheStore.PushPooled | DanmakuFlameMaster/src/main/java/master/flame/danmaku/controller/CacheManagingDrawTask.java:216-253 | The pool after push has received the evicted prefix's caches, up to its capacity. |
| CacheStore.PushEvictsNoMoreThanNeeded | DanmakuFlameMaster/src/main/java/master/flame/danmaku/controller/CacheManagingDrawTask.java:241-246 | Before each eviction the item still did not fit. |
| CacheStore.PushSucceedsIff | DanmakuFlameMaster/src/main/java/master/flame/danmaku/controller/CacheManagingDrawTask.java:241-252 | Push returns true iff the item fits after the evictions or the evictions emptied the list. |
| CacheStore.PushKeepsValid | DanmakuFlameMaster/src/main/java/master/flame/danmaku/controller/CacheManagingDrawTask.java:216-253 | Push preserves "counter = sum of entry sizes". The budget is exceeded only by a single item admitted into an emptied list. |
| CacheStore.PushAdmitsOversizeIntoEmptyList | DanmakuFlameMaster/src/main/java/master/flame/danmaku/controller/CacheManagingDrawTask.java:241-252 | When every entry is timed out, push admits the item whatever its size. |
| CacheStore.PushRefusesBeforeLiveEntry | DanmakuFlameMaster/src/main/java/master/flame/danmaku/controller/CacheManagingDrawTask.java:241-248 | An item that does not fit in front of a live oldest entry is refused with nothing changed. |
| CacheStore.PushKeepsDistinct | DanmakuFlameMaster/src/main/java/master/flame/danmaku/controller/CacheManagingDrawTask.java:239-253 | Pushing a comment that is not listed keeps every comment listed at most once; a refused push leaves it unlisted. |
| CacheStore.UnpickedKeepsDistinct | DanmakuFlameMaster/src/main/java/master/flame/danmaku/controller/CacheManagingDrawTask.java:259-268 | Removing entries from a list where no comment appears twice keeps it so. |
| CacheStore.FailedPushKeepsItsEvictions | DanmakuFlameMaster/src/main/java/master/flame/danmaku/controller/CacheManagingDrawTask.java:241-248 | A refused push can still have evicted an expired entry: the list and counter shrink although false is returned. |
| CacheStore.AdmissionScenario | DanmakuFlameMaster/src/main/java/master/flame/danmaku/controller/CacheManagingDrawTask.java:239-253 | With a 1000-byte budget, a second 600-byte comment is refused while the first is live and admitted after it expires, the first being evicted and its cache pooled. |
| CacheStore.Unpicked | DanmakuFlameMaster/src/main/java/master/flame/danmaku/controller/CacheManagingDrawTask.java:259-268 | The entries a pass keeps are exactly the old entries the criterion does not pick. |
| CacheStore.UnpickedAppend | DanmakuFlameMaster/src/main/java/master/flame/danmaku/controller/CacheManagingDrawTask.java:259-268 | The kept entries keep their original relative order: a pass over a concatenation is the concatenation of the passes. |
| CacheStore.Freed | DanmakuFlameMaster/src/main/java/master/flame/danmaku/controller/CacheManagingDrawTask.java:216-217 | The bytes subtracted over a pass plus the bytes of the kept entries are the old total; for evict-all it is the whole total. |
| CacheStore.RemovedWeighNothing | DanmakuFlameMaster/src/main/java/master/flame/danmaku/controller/CacheManagingDrawTask.java:216-223 | The entries a pass drops have their caches nulled, so together they weigh 0 bytes. |
| CacheStore.ClearTimeOutCaches | DanmakuFlameMaster/src/main/java/master/flame/danmaku/controller/CacheManagingDrawTask.java:255-268 | An entry survives iff it is not timed out at `time`. Every dropped entry is timed out with its cache nulled, and the counts add up. The counter loses the dropped bytes, the pool gets their caches, and validity is preserved. |
| CacheStore.EvictAll | DanmakuFlameMaster/src/main/java/master/flame/danmaku/controller/CacheManagingDrawTask.java:194-202 | Evict-all empties the list, zeroes the counter, nulls every entry's cache, position by position, and pools every cache. |
| CacheStore.EvictAllNotInScreen | DanmakuFlameMaster/src/main/java/master/flame/danmaku/controller/CacheManagingDrawTask.java:204-214 | The list is emptied and the counter zeroed, but only entries outside the screen at the given playback time lose (and pool) their caches. Entries on screen keep theirs. |
| CacheStore.EvictAllSubtractionsReachZero | DanmakuFlameMaster/src/main/java/master/flame/danmaku/controller/CacheManagingDrawTask.java:194-202 | On an accounted manager the per-entry subtractions of evict-all already reach 0, so its reset agrees with them. |
| CacheStore.EvictAllNotInScreenForgetsInsideBytes | DanmakuFlameMaster/src/main/java/master/flame/danmaku/controller/CacheManagingDrawTask.java:204-214 | After the subtractions, exactly the bytes of the entries on screen remain; the reset to 0 forgets those still-alive caches. |
| CacheStore.EvictOutOfWindowScenario | DanmakuFlameMaster/src/main/java/master/flame/danmaku/controller/CacheManagingDrawTask.java:204-214 | At time 3, with one comment on screen since 0 and one due at 5, the pool grows by exactly one and the comment on screen keeps its cache. |
| CacheStore.FirstCacheTime | DanmakuFlameMaster/src/main/java/master/flame/danmaku/controller/CacheManagingDrawTask.java:442-447 | 0 for an empty list, otherwise the time of the first entry in the list; on a time-ordered list that is the earliest cached time. |
| CacheHandler.Built | DanmakuFlameMaster/src/main/java/master/flame/danmaku/controller/CacheManagingDrawTask.java:379-381 | Building attaches the new cache to the comment and keeps its identity, time and duration. |
| CacheHandler.VisitItem | DanmakuFlameMaster/src/main/java/master/flame/danmaku/controller/CacheManagingDrawTask.java:342-401 | A candidate is skipped iff it is timed out or on screen. A comment that has a cache, or is already listed, is kept as it is. A budget break happens only for an uncached comment whose estimate does not fit, with nothing changed. A refused push leaves a live entry in front. An admitted comment ends the list, and only old entries or the new one are present. |
| CacheHandler.VisitKeepsValid | DanmakuFlameMaster/src/main/java/master/flame/danmaku/controller/CacheManagingDrawTask.java:342-389 | A visit that does not skip keeps the manager valid: counter equal to the sum of sizes, budget kept or a single entry, pool within capacity. |
| CacheHandler.VisitRefusal | DanmakuFlameMaster/src/main/java/master/flame/danmaku/controller/CacheManagingDrawTask.java:377-389 | A refused push keeps the evictions it made: the list loses a prefix of timed-out entries and their bytes, the pool gets their caches back plus the one acquired for the comment, and the comment is not listed. |
| CacheHandler.VisitKeepsDistinct | DanmakuFlameMaster/src/main/java/master/flame/danmaku/controller/CacheManagingDrawTask.java:355-382 | A visit never lists a comment twice: it builds and pushes only a comment the list does not hold. |
| CacheHandler.BuildPass | DanmakuFlameMaster/src/main/java/master/flame/danmaku/controller/CacheManagingDrawTask.java:342-414 | The loop visits a prefix of the candidates. It ends by exhaustion only after visiting all of them, and never on the time quota when initialising. |
| CacheHandler.BuildPassKeepsValid | DanmakuFlameMaster/src/main/java/master/flame/danmaku/controller/CacheManagingDrawTask.java:342-390 | The whole pass preserves validity, and everything it leaves cached was there before or is a live comment outside the screen. |
| CacheHandler.BuildPassBreaksOnBudget | DanmakuFlameMaster/src/main/java/master/flame/danmaku/controller/CacheManagingDrawTask.java:370-375 | A budget break's last visited comment is live, outside the screen, neither carrying a cache nor listed, and too large for the remaining budget. |
| CacheHandler.BuildPassBreaksOnRefusal | DanmakuFlameMaster/src/main/java/master/flame/danmaku/controller/CacheManagingDrawTask.java:377-390 | A break on a refused push leaves a live entry at the front. |
| CacheHandler.BuildPassKeepsDistinct | DanmakuFlameMaster/src/main/java/master/flame/danmaku/controller/CacheManagingDrawTask.java:342-414 | A whole pass never lists a comment twice if none was before. |
| CacheHandler.PrepareCaches | DanmakuFlameMaster/src/main/java/master/flame/danmaku/controller/CacheManagingDrawTask.java:327-422 | An empty window changes nothing. Otherwise the cache timer moves to the time of the last visited candidate. The stop reasons hold as in the loop, validity is preserved, and only live comments outside the screen are added. |
| CacheHandler.Decide | DanmakuFlameMaster/src/main/java/master/flame/danmaku/controller/CacheManagingDrawTask.java:296-310 | A tick only reschedules iff 1000 < wait <= horizon, and then waits `wait - 1000`. It evicts everything iff wait < 0 and evicts what is outside the screen iff wait >= 0 and the first cache lies beyond the horizon. It resynchronises iff wait < 0 or wait > horizon. |
| CacheHandler.Evicted | DanmakuFlameMaster/src/main/java/master/flame/danmaku/controller/CacheManagingDrawTask.java:303-307 | Keeping leaves the store alone. Either eviction leaves an empty, zeroed list. Budget, screen count and validity are kept. |
| CacheHandler.RebuildStep | DanmakuFlameMaster/src/main/java/master/flame/danmaku/controller/CacheManagingDrawTask.java:303-316 | A rebuild posts BUILD_CACHES at once, calls `ready` iff a listener is registered and drops it, keeps timers, handler and thread, and preserves validity. |
| CacheHandler.RebuildWindow | DanmakuFlameMaster/src/main/java/master/flame/danmaku/controller/CacheManagingDrawTask.java:308-311 | With an empty window the store is the evicted one and the cache timer the pass's start. Otherwise the cache timer is the time of a fetched comment. Every entry survived the eviction or is a live comment outside the screen. |
| CacheHandler.HandleBuildCaches | DanmakuFlameMaster/src/main/java/master/flame/danmaku/controller/CacheManagingDrawTask.java:293-318 | Paused or absent handler: nothing. Otherwise `ready` is called iff a listener is registered and the tick rebuilt, and then the listener is dropped. Timers, handler and thread are unchanged; validity is preserved. |
| CacheHandler.Tick | DanmakuFlameMaster/src/main/java/master/flame/danmaku/controller/CacheManagingDrawTask.java:294-317 | A running tick always posts the next BUILD_CACHES, delayed exactly when the lead is in (1000, horizon], calls `ready` iff a listener is registered and it rebuilt, keeps timer, handler and thread, leaves no entry timed out at the playback timer and preserves validity. |
| CacheHandler.TickKeepsDistinct | DanmakuFlameMaster/src/main/java/master/flame/danmaku/controller/CacheManagingDrawTask.java:294-317 | A tick never lists a comment twice if none was before. |
| CacheHandler.RebuildKeepsDistinct | DanmakuFlameMaster/src/main/java/master/flame/danmaku/controller/CacheManagingDrawTask.java:303-316 | A rebuild never lists a comment twice if none was before. |
| CacheHandler.HandlePrepare | DanmakuFlameMaster/src/main/java/master/flame/danmaku/controller/CacheManagingDrawTask.java:288-318 | With a handler, PREPARE evicts what is outside the screen and releases 200 empty caches into the pool. When paused it stops there: an empty, zeroed list and the pool grown by the outside caches plus 200, up to capacity. When running it ticks: it reschedules iff the lead is in (1000, horizon] and calls `ready` iff a listener is registered and it rebuilt. The store stays valid. |
| CacheHandler.PrepareStartsAfresh | DanmakuFlameMaster/src/main/java/master/flame/danmaku/controller/CacheManagingDrawTask.java:288-318 | After PREPARE with a handler nothing cached before is listed: every entry is a live comment outside the screen that this step's pass admitted. |
| CacheHandler.HandleMessage | DanmakuFlameMaster/src/main/java/master/flame/danmaku/controller/CacheManagingDrawTask.java:285-325 | Without a handler a message does nothing. The listener only ever disappears by a `ready` call, and the store stays valid. |
| CacheHandler.Deliver | DanmakuFlameMaster/src/main/java/master/flame/danmaku/controller/CacheManagingDrawTask.java:285-325 | A delivery sets the playback timer to its time before the handler step; it keeps the handler, drops the listener only by a `ready` call and keeps the store valid. |
| CacheHandler.StepKeepsDistinct | DanmakuFlameMaster/src/main/java/master/flame/danmaku/controller/CacheManagingDrawTask.java:285-325 | No message lists a comment twice if none was before, so no comment's bytes are counted twice. |
| CacheHandler.RescheduleDoesNoWork | DanmakuFlameMaster/src/main/java/master/flame/danmaku/controller/CacheManagingDrawTask.java:294-302 | With a lead in (1000, horizon], a tick only clears timed-out caches and re-posts itself for when the lead is down to 1000. It builds nothing and keeps the cache timer and the listener. |
| CacheHandler.FallenBehindRebuildsFromScratch | DanmakuFlameMaster/src/main/java/master/flame/danmaku/controller/CacheManagingDrawTask.java:303-311 | When the cache timer lags the playback timer, every cache is dropped and rebuilt from playback + 100. Afterwards all entries are live and outside the screen, and the cache timer is a fetched comment's time (or playback + 100 for an empty window). |
| CacheHandler.FallenBehindIsRebuild | DanmakuFlameMaster/src/main/java/master/flame/danmaku/controller/CacheManagingDrawTask.java:293-311 | A running tick whose cache timer lags the playback timer is exactly a rebuild that evicts everything and resynchronises, after the timed-out caches are cleared. |
| CacheHandler.RebuildFromEmpty | DanmakuFlameMaster/src/main/java/master/flame/danmaku/controller/CacheManagingDrawTask.java:303-312 | A resynchronising rebuild after evicting everything leaves only live entries outside the screen, and the cache timer on a fetched comment's time or at playback + 100 with an empty store. |
| CacheHandler.TickLeavesNoTimedOutEntry | DanmakuFlameMaster/src/main/java/master/flame/danmaku/controller/CacheManagingDrawTask.java:288-318 | After a running tick no cached entry is timed out at the playback timer. |
| CacheHandler.PausedTickDoesNothing | DanmakuFlameMaster/src/main/java/master/flame/danmaku/controller/CacheManagingDrawTask.java:293-294 | A paused handler ignores BUILD_CACHES entirely. |
| CacheHandler.Run | DanmakuFlameMaster/src/main/java/master/flame/danmaku/controller/CacheManagingDrawTask.java:285-325 | A run of messages, each delivered at its own playback time, keeps the store valid and the handler, ends at the last delivery's time, and never re-registers a dropped listener. |
| CacheHandler.RunKeepsDistinct | DanmakuFlameMaster/src/main/java/master/flame/danmaku/controller/CacheManagingDrawTask.java:285-325 | Over any run of messages a comment is listed at most once. |
| CacheHandler.ReadyAtMostOnce | DanmakuFlameMaster/src/main/java/master/flame/danmaku/controller/CacheManagingDrawTask.java:311-316 | Over any run of deliveries the ready listener fires at most once, and not at all once dropped. |
| CacheHandler.NoListenerNoReady | DanmakuFlameMaster/src/main/java/master/flame/danmaku/controller/CacheManagingDrawTask.java:313-316 | Once the listener is gone, `ready` is never called again. |
| CacheHandler.NewTask | DanmakuFlameMaster/src/main/java/master/flame/danmaku/controller/CacheManagingDrawTask.java:53-65 | A new task starts with the cache timer at the playback timer and an empty, valid manager with no handler or thread. |
| CacheHandler.Begin | DanmakuFlameMaster/src/main/java/master/flame/danmaku/controller/CacheManagingDrawTask.java:157-165 | Begin guarantees a live thread and a handler (keeping an existing one) and posts PREPARE, touching nothing else. |
| CacheHandler.Resume | DanmakuFlameMaster/src/main/java/master/flame/danmaku/controller/CacheManagingDrawTask.java:186-192 | Resume leaves an unpaused handler. It posts BUILD_CACHES when a handler existed, and otherwise begins afresh with PREPARE. |
| CacheHandler.End | DanmakuFlameMaster/src/main/java/master/flame/danmaku/controller/CacheManagingDrawTask.java:167-184 | After end there is no handler or thread, the store is empty, zeroed and valid, and the pool is drained. |
| CacheHandler.EndIdempotent | DanmakuFlameMaster/src/main/java/master/flame/danmaku/controller/CacheManagingDrawTask.java:167-184 | Ending twice is ending once, and after end no message has any effect. |
| CacheHandler.Reset | DanmakuFlameMaster/src/main/java/master/flame/danmaku/controller/CacheManagingDrawTask.java:85-90 | Reset empties and zeroes the store and pools every cache, keeping timers and handler. |
| CacheHandler.Seek | DanmakuFlameMaster/src/main/java/master/flame/danmaku/controller/CacheManagingDrawTask.java:93-99 | Seek moves the playback timer, empties the store, and leaves an unpaused handler with a build or prepare posted. |
| CacheHandler.TickKeepsCacheAhead | DanmakuFlameMaster/src/main/java/master/flame/danmaku/controller/CacheManagingDrawTask.java:294-317 | When the comment list returns only comments within the asked time range, a running tick leaves the cache timer at or after the playback timer. |
| CacheHandler.SeekThenTick | DanmakuFlameMaster/src/main/java/master/flame/danmaku/controller/CacheManagingDrawTask.java:93-99 | Under the same condition, after `seek(mills)` and the message it posts, the cache timer is at or after `mills` and no entry is timed out at `mills`. |
| CacheHandler.QuitLeavesEnded | DanmakuFlameMaster/src/main/java/master/flame/danmaku/controller/CacheManagingDrawTask.java:112-116 | The reset that quit performs after end finds nothing left to do. |
| Displayer.IndexOf | DanmakuFlameMaster/src/main/java/master/flame/danmaku/danmaku/model/android/AndroidDisplayer.java:201 | The search result is -1 or a position at or after `from` where the mark occurs. |
| Displayer.IndexOfIsFirst | DanmakuFlameMaster/src/main/java/master/flame/danmaku/danmaku/model/android/AndroidDisplayer.java:201 | The position found is the first occurrence, and -1 means there is none. |
| Displayer.ScanLines | DanmakuFlameMaster/src/main/java/master/flame/danmaku/danmaku/model/android/AndroidDisplayer.java:201-211 | The loop only widens the running width and only moves `stPos` forward within the text, so it terminates. |
| Displayer.ScanCountsBreaks | DanmakuFlameMaster/src/main/java/master/flame/danmaku/danmaku/model/android/AndroidDisplayer.java:201-202 | The loop counts one break per line but the last. |
| Displayer.ScanStopsAtLastLine | DanmakuFlameMaster/src/main/java/master/flame/danmaku/danmaku/model/android/AndroidDisplayer.java:201-211 | The loop stops where the last line begins: the remainder it leaves is the last line. |
| Displayer.ScanStopsAtLastStart | DanmakuFlameMaster/src/main/java/master/flame/danmaku/danmaku/model/android/AndroidDisplayer.java:201-211 | The loop stops at the start of the last line, found by following the marks. |
| Displayer.LastLineAtLastStart | DanmakuFlameMaster/src/main/java/master/flame/danmaku/danmaku/model/android/AndroidDisplayer.java:201-211 | The last line is the text from the last line's start on. |
| Displayer.ScanWidthIsWidest | DanmakuFlameMaster/src/main/java/master/flame/danmaku/danmaku/model/android/AndroidDisplayer.java:201-211 | The loop's width is the larger of its start value and the widest line but the last. |
| Displayer.ScanWidthIsWidestBefore | DanmakuFlameMaster/src/main/java/master/flame/danmaku/danmaku/model/android/AndroidDisplayer.java:203-210 | The loop's width is the larger of its start value and the widest line before the last mark, a non-empty line counting by its measure. |
| Displayer.WidestBeforeIsWidestFront | DanmakuFlameMaster/src/main/java/master/flame/danmaku/danmaku/model/android/AndroidDisplayer.java:201-211 | The widest line before the last mark is the widest of the lines but the last. |
| Displayer.LastStart | DanmakuFlameMaster/src/main/java/master/flame/danmaku/danmaku/model/android/AndroidDisplayer.java:201-211 | The last line starts within the text, at or after the position the walk starts from. |
| Displayer.JoinLinesFrom | DanmakuFlameMaster/src/main/java/master/flame/danmaku/danmaku/model/android/AndroidDisplayer.java:201-211 | The lines the loop walks, rejoined with the mark, give back the text. |
| Displayer.LinesHoldNoMark | DanmakuFlameMaster/src/main/java/master/flame/danmaku/danmaku/model/android/AndroidDisplayer.java:201-211 | No line the loop walks holds a mark. |
| Displayer.LastLineIsNotMark | DanmakuFlameMaster/src/main/java/master/flame/danmaku/danmaku/model/android/AndroidDisplayer.java:212-215 | The last line is never the bare mark, so the `equals(DANMAKU_BR_CHAR)` test never excludes it. |
| Displayer.CalcPaintWH | DanmakuFlameMaster/src/main/java/master/flame/danmaku/danmaku/model/android/AndroidDisplayer.java:187-224 | Text without a mark: its measure and one text height. Otherwise at least two text heights. |
| Displayer.CalcPaintWHByLines | DanmakuFlameMaster/src/main/java/master/flame/danmaku/danmaku/model/android/AndroidDisplayer.java:187-224 | In terms of lines: the width is the widest line before the last, widened by the last only if it has two or more characters. The height is one text height per line plus one more for such a last line, and one line for one text height. |
| Displayer.CalcPaintWHCorrected | DanmakuFlameMaster/src/main/java/master/flame/danmaku/danmaku/model/android/AndroidDisplayer.java:212-219 | Same no-mark case as the original. |
| Displayer.CorrectedCountsEveryLine | DanmakuFlameMaster/src/main/java/master/flame/danmaku/danmaku/model/android/AndroidDisplayer.java:212-219 | With the corrected guard, the width is the widest of all lines. The height is (lines + 1) text heights when the last line is non-empty and (lines) text heights when it is empty, whatever its length. |
| Displayer.OneCharacterLastLineIgnored | DanmakuFlameMaster/src/main/java/master/flame/danmaku/danmaku/model/android/AndroidDisplayer.java:212-219 | For "a/nW", where "W" is the wider line, the original width is that of "a" and its height that of two lines, while the corrected one measures "W". |
| Displayer.DrawFlags | DanmakuFlameMaster/src/main/java/master/flame/danmaku/danmaku/model/android/AndroidDisplayer.java:130-139 | Stroke is never set. Shadow and anti-aliasing are both on exactly for a non-quick draw. |
| Displayer.GetPaint | DanmakuFlameMaster/src/main/java/master/flame/danmaku/danmaku/model/android/AndroidDisplayer.java:162-177 | The text paint takes the comment's size and colour, anti-aliasing as the flag says, and a shadow layer in the shadow colour iff HAS_SHADOW. The stroke paint is restyled only under HAS_STROKE and otherwise keeps its last state. |
| Displayer.GetPaintForgetsPrevious | DanmakuFlameMaster/src/main/java/master/flame/danmaku/danmaku/model/android/AndroidDisplayer.java:162-177 | The text paint returned depends only on the flags and the comment, not on the shared paint's previous state, and styling twice is styling once. |
| Displayer.DrawDanmakuPaint | DanmakuFlameMaster/src/main/java/master/flame/danmaku/danmaku/model/android/AndroidDisplayer.java:130-140 | A quick draw uses a plain text paint; a full draw uses an anti-aliased one with the comment's shadow colour. The stroke paint is left as it was. |
| Displayer.Update | DanmakuFlameMaster/src/main/java/master/flame/danmaku/danmaku/model/android/AndroidDisplayer.java:77-83 | The canvas is always stored. Width and height come from a non-null canvas and are otherwise unchanged. |
| Displayer.NullCanvasKeepsLastSize | DanmakuFlameMaster/src/main/java/master/flame/danmaku/danmaku/model/android/AndroidDisplayer.java:77-83 | After a null canvas the displayer still reports the last real canvas's size. |
| GlobalConfig.RemoveFirst | DanmakuFlameMaster/src/main/java/master/flame/danmaku/danmaku/model/android/DanmakuGlobalConfig.java:145 | Removing a type takes exactly one occurrence out of the multiset of types, and leaves a list without it untouched. |
| GlobalConfig.RemoveFirstDropsFirstOccurrence | DanmakuFlameMaster/src/main/java/master/flame/danmaku/danmaku/model/android/DanmakuGlobalConfig.java:145 | With the type present, the result is the list with its first occurrence cut out: everything before and after it stays in order. |
| GlobalConfig.SetVisible | DanmakuFlameMaster/src/main/java/master/flame/danmaku/danmaku/model/android/DanmakuGlobalConfig.java:143-149 | Making a type visible removes one occurrence. Hiding makes it a member, adding it only when absent, and leaves the other types' counts alone. |
| GlobalConfig.SetVisibleMembership | DanmakuFlameMaster/src/main/java/master/flame/danmaku/danmaku/model/android/DanmakuGlobalConfig.java:143-149 | On a duplicate-free list the result stays duplicate-free. The type is a member iff hidden, and every other type's membership is unchanged. |
| GlobalConfig.DuplicateSurvivesRemoval | DanmakuFlameMaster/src/main/java/master/flame/danmaku/danmaku/model/android/DanmakuGlobalConfig.java:144-145 | The no-duplicates invariant is needed: with a type listed twice, showing it leaves it filtered. |
| GlobalConfig.WithVisibility | DanmakuFlameMaster/src/main/java/master/flame/danmaku/danmaku/model/android/DanmakuGlobalConfig.java:43-51 | Setting one type's flag changes no other type's flag and no other field. |
| GlobalConfig.InitialConsistent | DanmakuFlameMaster/src/main/java/master/flame/danmaku/danmaku/model/android/DanmakuGlobalConfig.java:43-56 | All-visible flags and an empty list are consistent. |
| GlobalConfig.SetDanmakuVisibility | DanmakuFlameMaster/src/main/java/master/flame/danmaku/danmaku/model/android/DanmakuGlobalConfig.java:129-136 | Setting a flag to its current value does nothing. Otherwise the flag takes the value, the list is updated by `setVisible` and handed to the type filter, and other types' flags, the limit and the style are untouched. |
| GlobalConfig.VisibilityKeepsConsistent | DanmakuFlameMaster/src/main/java/master/flame/danmaku/danmaku/model/android/DanmakuGlobalConfig.java:129-233 | Each setter preserves "flag false iff listed, no duplicates" and no other type's membership changes. |
| GlobalConfig.ApplyVisibility | DanmakuFlameMaster/src/main/java/master/flame/danmaku/danmaku/model/android/DanmakuGlobalConfig.java:119-233 | Any sequence of setter calls keeps the configuration consistent, and the types it does not name keep their flags. |
| GlobalConfig.SetFTDanmakuVisibility | DanmakuFlameMaster/src/main/java/master/flame/danmaku/danmaku/model/android/DanmakuGlobalConfig.java:129-136 | Sets the fix-top flag only. On a consistent configuration fix-top is listed iff hidden. |
| GlobalConfig.SetFBDanmakuVisibility | DanmakuFlameMaster/src/main/java/master/flame/danmaku/danmaku/model/android/DanmakuGlobalConfig.java:163-170 | Sets the fix-bottom flag only. On a consistent configuration fix-bottom is listed iff hidden. |
| GlobalConfig.SetL2RDanmakuVisibility | DanmakuFlameMaster/src/main/java/master/flame/danmaku/danmaku/model/android/DanmakuGlobalConfig.java:184-191 | Sets the left-to-right flag only. On a consistent configuration that type is listed iff hidden. |
| GlobalConfig.SetR2LDanmakuVisibility | DanmakuFlameMaster/src/main/java/master/flame/danmaku/danmaku/model/android/DanmakuGlobalConfig.java:205-212 | Sets the right-to-left flag only. On a consistent configuration that type is listed iff hidden. |
| GlobalConfig.SetSpecialDanmakuVisibility | DanmakuFlameMaster/src/main/java/master/flame/danmaku/danmaku/model/android/DanmakuGlobalConfig.java:226-233 | Sets the special flag only. On a consistent configuration special is listed iff hidden. |
| GlobalConfig.HideThenShow | DanmakuFlameMaster/src/main/java/master/flame/danmaku/danmaku/model/android/DanmakuGlobalConfig.java:143-149 | Hiding a visible type and showing it again restores the flags and the exact list, in order. |
| GlobalConfig.SetMaximumVisibleSizeInScreen | DanmakuFlameMaster/src/main/java/master/flame/danmaku/danmaku/model/android/DanmakuGlobalConfig.java:240-259 | The limit is always recorded. 0 unregisters the quantity and elapsed-time filters; -1 unregisters quantity and registers elapsed-time; anything else becomes quantity-filter data. |
| GlobalConfig.QuantityDataOnlyForExplicitLimits | DanmakuFlameMaster/src/main/java/master/flame/danmaku/danmaku/model/android/DanmakuGlobalConfig.java:240-259 | The quantity filter gets data iff the limit is neither 0 nor -1, and then exactly that limit. It is unregistered iff the limit is 0 or -1. |
| GlobalConfig.SetDanmakuStyle | DanmakuFlameMaster/src/main/java/master/flame/danmaku/danmaku/model/android/DanmakuGlobalConfig.java:261-289 | The style is always recorded. NONE gives no shadow or stroke; SHADOW gives shadow only; DEFAULT and STROKEN give stroke only with the new width. Any other style leaves switches and width alone. |
| GlobalConfig.StyleSwitchesExclusive | DanmakuFlameMaster/src/main/java/master/flame/danmaku/danmaku/model/android/DanmakuGlobalConfig.java:270-289 | A known style never turns on shadow and stroke together, and the switches it sets do not depend on the previous ones. |
| GlobalConfig.SetDanmakuStyleIdempotent | DanmakuFlameMaster/src/main/java/master/flame/danmaku/danmaku/model/android/DanmakuGlobalConfig.java:270-289 | Setting the same style twice equals setting it once. |

## Left out

- Threads and message passing are reduced to one step per delivered
  message. This covers the `HandlerThread`, the `Handler` queue,
  `removeCallbacksAndMessages`, the thread join and the `synchronized`
  blocks. No interleaving of the render path with the worker is modelled, and
  the pause flag is not re-read between candidates of a pass.
- The `mDrawingNotify` wait of up to 100 ms before each build is left out. It
  only delays the pass.
- The wall-clock quota (`System.currentTimeMillis` against
  `COMMON_DANMAKU_DURATION`) is an oracle, `Env.outOfTime`, consulted after
  each non-skipped candidate when not initialising.
- `OutOfMemoryError` and other exceptions during a build are not modelled.
  Such a break would leave the store as it was before the failing candidate,
  and the buffer taken from the pool at CacheManagingDrawTask.java:377 would
  not go back to it.
- `DanmakuUtils.getCacheSize` and `buildDanmakuDrawingCache`,
  `DrawingCache.destroy` and the bitmap holder are abstract functions of the
  comment or are omitted. The pool is a counter. It does not track which
  buffer is reused, and an acquired buffer is not re-linked to the built cache.
- `BaseDanmaku` is not part of this model. The timed-out rule
  `now - time > duration` and the outside rule "before its time or timed
  out" are assumptions, and measurement is left out.
- CacheHandler.VisitItem: a comment that `evictAllNotInScreen` drops while
  it is on screen keeps its cache in the source, so no later pass rebuilds
  it. The model no longer sees that cache once the comment has left the
  list. If the playback timer then moves back before that comment's time, the
  model builds and lists the comment again where the source would skip it.
- CacheHandler.Run: the comment list and the other oracles in `Env` stay
  the same for a whole run; only the playback timer moves between
  deliveries. Comments added while running are not modelled.
- CacheHandler.TickKeepsCacheAhead and CacheHandler.SeekThenTick assume
  that `subset(start, end)` returns only comments with `start <= time < end`
  (`Windowed`); the comment list class is not part of this model.
- Displayer.CalcPaintWH: text is a sequence of Unicode scalar values, while
  Java's `length()` and `indexOf` count UTF-16 code units. The two agree only
  for text within the Basic Multilingual Plane, which is the text the scan
  lemmas and the finding below speak for.
- `ADD_DANMAKKU` and `addDanmaku`, which delegate to `DrawTask`, are not part
  of this model. The renderer's `clear` in `reset`/`seek` is left out, as is
  `DrawTask.quit`.
- `mRealSize` is a Java `int`. The model uses unbounded integers and does not
  model 32-bit overflow of the counter.
- Java reference aliasing is not modelled: the store holds comment values.
  After an eviction the nulled comment is returned as `dropped`/`evicted` and
  is not written back into the comment list.
- `setFilterData` hands the live `mFilterTypes` list to the filter, so the
  filter sees later mutations. The model hands over a snapshot of the list.
- `DanmakuFilters` internals, `Typeface`, `setGlobalAlpha`,
  `setScaleTextSize` and the float stroke width arithmetic are left out. The
  stroke width is recorded as a `real`.
- `drawDanmaku`'s text output, `Canvas`/`Paint` drawing, colours and text
  sizes are left out. `Paint.measureText` is an abstract `measure` returning
  a natural number; float widths and heights are naturals.
- `SpannedCacheStuffer` and the sample application are not part of this
  model.
- GlobalConfig.SetDanmakuVisibility: the five setters share this body. Each
  named setter is a member that calls it with its own type.

## Findings

| source | as written | input that shows it | evidently intended | confidence | as-written member | corrected member |
|---|---|---|---|---|---|---|
| DanmakuFlameMaster/src/main/java/master/flame/danmaku/danmaku/model/android/AndroidDisplayer.java:212 | The remainder after the last mark counts for `t`, and is measured, only when `stPos < text.length() - 1`. A last line of one UTF-16 code unit is never measured, so a comment whose last line is its widest gets too narrow a width. For the height it is treated like an empty last line, while any longer last line adds a text height. Text is taken to lie within the Basic Multilingual Plane, where one character is one code unit. | Text "a/nW" with mark "/n", where "W" is wider than "a": width is measure("a") and height is two text heights. The text "a/nWW" gets three. | `stPos < text.length()` for the width: every non-empty last line is measured, as `drawDanmaku` draws every line. The corrected height, lines + 1 text heights for a non-empty last line, only carries over the extra height the source already gives last lines of two or more code units; it is not evidence of intent. | medium, not executed | Displayer.OneCharacterLastLineIgnored | Displayer.CorrectedCountsEveryLine |
