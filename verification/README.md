# banana-mw: the stateful core, modelled and proved

banana-mw is a small caching proxy. Three of its parts keep state that outlives a request, and this project models
those three in Dafny and proves what they promise.

**The 48-hour statistics** (`StatKeys`, `Redis`, `Clock`, `Recording`, `StatSystem`, `StatProofs`, `StatReads`, `StatTheorems`,
`StatLimits`, `StatEdges`, `StatService`). Every tracked request becomes an event in a bounded queue; workers write
events to Redis, in any order, into hour hashes, counters and sorted sets with 48-hour expiries; a cleaner trims,
prunes and deletes; `pathStats` and `tokenStats` read the result back. Several instances may share the store: a prune's
deletion may come any time after its reading, with any other step in between. The model is a state machine over the store, the
clock, the queue, the workers and the cleaner, whose runs are arbitrary lists of actions. The reference is the plain
list of recorded events. The main results say that the reports are what that list says, and when and by how much they
can differ from it: exact conditions for the cleaner's settings, for a reader from an earlier hour and for shadowed paths, and
runs that show what goes wrong with a racing write, an interrupted prune or events out of order.

**The delayed token deleter** (`DelayDelete`, `DelayService`). One timer for each scheduled token, a capped map under a mutex,
cancellation. A timer is armed, fired, past the mutex, past its context check, stopped or done, and any other step may
come between two steps of a callback.

**The response cache** (`TtlCache`, `BodyCapture`, `QueryText`, `CacheKey`, `Proxy`, `ProxyService`). Two maps with expiries and a double-checked
removal, a writer that keeps the first bytes of a body, a canonical cache key, and the chain of lookups, upstream call
and store.

Code that updates things in place is modelled by classes and methods (`StatService`, `DelayService`,
`TtlCache.Memory`, `BodyCapture.BodyCaptureWriter`, `ProxyService`), each tied by its contract to the function
that the state machine steps with; the theorems are about those functions.

What came out where code and documentation differ, or where the code does less than a reader expects:

- `README.md:88` of the repository calls a sorted set's score the time of the last visit. It is the time of the event
  written last: two workers can lower it, and `StatEdges.ReorderedTokenVanishes` shows a token that drops out of the
  listing while its visits are still in the 48-hour window.
- The same line speaks of about 49 fields in an hour hash. The bound is 48 plus the hours
  that have begun since the last prune, as long as no event older than that prune's window is written
  (`StatLimits.HashStaysSmall`); it is reached for every number of hours (`StatEdges.HashBoundIsReached`), but in
  timestamp order 48 fields are never exceeded within 48 hours of a prune (`StatLimits.OrderedHashStaysSmaller`).
- Deleting low-traffic paths loses window events in two ways only: an `inactive` threshold below 48 hours (less one
  clock tick, `StatEdges.PatienceIsExact`), and an event written between the cleaner's verdict and its deletion
  (`StatEdges.RaceLosesEvent`, for every setting that deletes anything).
- A path spelled `ips`, `uas`, `hours`, `paths` (or one of these behind a colon) or `tokens` is recorded but never
  listed, and for `hours` and `:hours` the cleaner also removes the running count
  (`StatEdges.ShadowedPathIsInvisible`, `StatEdges.CounterIsPruned`, `StatEdges.WithinCountExactly`).
- The comment at `internal/secure/delay_delete.go:25` calls the pending deletions bounded. The map is. The timers are if
  every superseded timer could still be stopped (`DelayDelete.CapBoundsTimers`); in general they exceed the cap exactly
  when there are more stray timers than free places (`DelayDelete.WaitingCount`), which happens for every cap
  (`DelayDelete.LateStop`).
- `Get` on the cache can miss although the key has a live entry at every moment (`TtlCache.SpuriousMiss`; exactly when,
  `TtlCache.SpuriousExactly`).
- A path containing `|` always shares its cache key with another request, whether or not the query is included
  (`CacheKey.PipeCollides`).
- A reader that fixes its hour before the clock ticks may miss its oldest bucket; `StatEdges.ReaderIsExact` says exactly
  when.

Times are in nanoseconds and never negative. Strings are sequences of bytes, one char for each.

## Model

| member | source | states |
|---|---|---|
| Decimal.ParseInverse | internal/stats/worker.go:122-123 | the text of a bucket number parses back to that number, so hour fields are read as they were written |
| Decimal.FormatIsDecimal | internal/stats/worker.go:122-123 | that text is the decimal one: a digit for 0 to 9, one digit more for each factor of ten, a minus sign in front of a negative number |
| Decimal.ParseAccepts | internal/stats/summarize.go:9-18 | a text is a number exactly when it is a non-empty row of digits, with or without one sign in front; a plus sign and a leading zero make no difference |
| Sorting.LessEqIsLexicographic | internal/stats/handlers.go:153-154 | the order of sort.Strings is the byte order: a prefix first, otherwise by the first byte that differs |
| StatKeys.DecodeInverse | internal/stats/paths.go:37-45 | the kind of key and its path or token can be read back from the text of any key built for a path without `::` other than `tokens`, or for a valid token |
| StatKeys.NameInjective | internal/stats/paths.go:37-45 | on the same domain the nine builders and `stats::tokens` give equal text exactly for equal arguments of the same builder |
| StatKeys.PlainIsSeparated | internal/stats/paths.go:37-45 | so any set of such paths and tokens has pairwise distinct keys, which is all that the run theorems below ask of their paths and tokens |
| StatKeys.KeysCollide | internal/stats/paths.go:37-45 | outside that domain keys of different families coincide: `p::ips`, `token::t` and `tokens` as paths |
| StatKeys.MainKeyFilter | internal/stats/cleaner.go:225-238 | of all keys that are ever written the filter keeps exactly the counter hashes of paths that are not spelled like a suffix, and trimming the prefix gives the path |
| StatKeys.ListedPath | internal/stats/handlers.go:108-117 | the same test inside pathStats, for every path without `::`: passed if and only if the path is not one of the nine shadowed spellings |
| StatKeys.MainKeyIsPath | internal/stats/cleaner.go:225-238 | for every path and token whatever their spelling, a key that passes the filter is the counter hash of a path, and trimming gives that path |
| StatKeys.ActionOnKey | internal/stats/cleaner_key.go:8-18 | the cleaner prunes a hash as an hour hash exactly when it is one, or the counter hash of `hours` or `:hours` |
| StatKeys.PlainIsSteady | internal/stats/cleaner_key.go:12-15 | among paths without `::` and valid tokens, only the counters of `hours` and `:hours` are taken for hour hashes |
| Clock.ExpiredIsOutside | internal/stats/worker.go:136-139 | what has outlived the 48-hour expiry lies outside the 48 hour buckets and outside the 172800 seconds |
| Clock.HourWindowInside | internal/stats/handlers.go:125-127 | an event in one of the 48 buckets is strictly inside the second window |
| Clock.SecondWindowReach | internal/stats/handlers.go:173-175 | an event in the second window is at most one bucket outside the hour window |
| Clock.CutoffAgrees | internal/stats/cleaner.go:167-169 | the cleaner's cutoff, taken from a shifted clock, is the readers' cutoff in seconds |
| Clock.InactiveIsOutside | internal/stats/cleaner.go:273-276 | a bucket whose start is more than 48 hours less one tick ago is outside the hour window |
| Recording.RecordedAt | internal/stats/worker.go:114-175 | for any paths and tokens with pairwise distinct keys, the whole pipeline changes each key by that key's own effect (count, bucket and dropped stale bucket, sighting, expiry, trim) and leaves every key of another path or token alone |
| Recording.RecordedIs | internal/stats/worker.go:114-175 | that effect in numbers: `count` and the field of the event's hour gain one, the field 48 hours before it goes, a sorted set holds the event's member at the event's second and loses whatever is 172800 seconds older or more, every other field and member stays, and each touched key expires 48 hours after the write |
| StatProofs.RunKeeps | internal/stats/worker.go:60-175 | in every state reachable with events of pairwise distinct keys, every hash, sorted set and expiry agrees with the events recorded since the subject's keys last came to be |
| StatReads.SummarizeHours | internal/stats/summarize.go:5-24 | whatever the hash holds, slot i is the sum of the parsable counts whose field parses to hour now-47+i, and the count is the sum of the 48 slots |
| StatReads.HourTotalAdds | internal/stats/summarize.go:8-22 | the sum of a slot starts at 0, and each field adds its value if its name parses to the slot's hour and its value parses, and nothing otherwise |
| StatReads.HourTotalIsBucket | internal/stats/summarize.go:8-22 | on a hash that recording wrote, a slot is the value of that hour's own field |
| StatTheorems.HistogramIsEventList | internal/stats/handlers.go:129-163 | over every such run and under any cleaner, each slot still in the window when the read is served is the number of recorded events of that path or token in that hour less those that deletions dropped, and no slot ever exceeds the recorded number; a patient cleaner (it deletes nothing or waits 48 hours) drops only what was recorded after its verdict, and tokens lose none |
| StatTheorems.QuietLosesNothing | internal/stats/cleaner.go:259-284 | when no event is written for a path between the verdict on it and its deletion, nothing is ever dropped by a deletion |
| StatTheorems.WindowWithinCount | internal/stats/worker.go:131-139 | in every reachable state the 48-hour count is at most the running count, under any cleaner, for every path and token whose counter the cleaner does not take for an hour hash |
| StatTheorems.CountsAndDropsAddUp | internal/stats/handlers.go:129-163 | over every run and under any cleaner, read in the current hour, the 48-hour counts of any set of paths or tokens and the window events that deletions dropped of them add up to the recorded window events that carry one of those names |
| StatTheorems.DropsAreRaces | internal/stats/cleaner.go:259-296 | what a patient cleaner has dropped of a path's window is exactly what was recorded between a verdict and its deletion |
| StatTheorems.CountsAddUp | internal/stats/handlers.go:129-163 | so in the current hour the counts alone add up, for paths with a patient cleaner and no racing write, for tokens always |
| StatTheorems.PathsAddUp | internal/stats/handlers.go:95-165 | over every run and under any cleaner, read in the current hour, the counts of all paths that pathStats returns add up to all recorded window events if and only if the path of each of these passes the filter and no deletion has dropped anything of its window |
| StatTheorems.QuietPathsAddUp | internal/stats/handlers.go:95-165 | so with a patient cleaner and no racing write, if and only if each of these paths passes the filter |
| StatTheorems.TokenListing | internal/stats/handlers.go:177-184 | a token is listed when its last written event is inside the second window, and is not listed when that event is before it |
| StatTheorems.TokensAddUp | internal/stats/handlers.go:167-228 | read in the current hour, under any cleaner and race, the counts of all listed tokens add up to the window events with a token if the event written last for each of these tokens is after the cutoff second, and only if it is at or after it |
| StatTheorems.OrderedTokensAddUp | internal/stats/handlers.go:167-228 | so with events written in timestamp order they always add up |
| StatTheorems.SpreadReportsAddUp | internal/stats/handlers.go:129-163 | when the reports of one answer are read at different moments of one hour, their sum lies between the window events recorded at the first of these moments and at the last |
| StatLimits.CountedIsShown | internal/stats/worker.go:134-169 | with events in timestamp order, the address, user agent and path of every recorded event of the window are reported and its token is listed; for a path, with a patient cleaner and no racing write |
| StatLimits.PositiveCountIsShown | internal/stats/handlers.go:186-227 | with events in timestamp order and a reader in the current hour, under any cleaner and race, a positive 48-hour count comes with non-empty address and user-agent lists, and for a token also with non-empty paths and a place in the listing |
| StatLimits.ShownWasSeen | internal/stats/handlers.go:138-151 | in any order, a reported address, user agent or token path belongs to a recorded event of the subject no older than 172800 seconds |
| StatLimits.ShownByLastWritten | internal/stats/worker.go:134-143 | in any order, a member is reported when the event written last for it is inside the second window, and not reported when that event is before it |
| StatLimits.ListedTokenIsRecent | internal/stats/handlers.go:173-184 | a listed token has a recorded event at most one bucket older than the hour window |
| StatLimits.LowCountMeansFewEvents | internal/stats/cleaner.go:240-259 | the cleaner looks closer only at the counter hash of a recorded path with fewer than the minimum count of events since its keys came to be |
| StatLimits.VerdictIsJustified | internal/stats/cleaner.go:259-284 | a condemned path has no kept event in the hour window younger than `inactive` minus an hour, and with a threshold of 48 hours less one tick it has none in the window at all |
| StatLimits.PatientVerdictIsIdle | internal/stats/cleaner.go:259-284 | a patient cleaner condemns only paths whose 48-hour count is 0 at that moment |
| StatLimits.DeletionIsJustified | internal/stats/cleaner.go:240-296 | a path that is about to be deleted was first read to have too few events and, by a later step, no buckets or too old ones; with a patient cleaner its 48-hour count at the deletion, however late, is the number of window events recorded after that verdict, and 0 without a racing write |
| StatLimits.LastEventIsOld | internal/stats/cleaner.go:259-284 | for thresholds of any length and any order of writing, with prunes that are not interrupted, a condemned path has no buckets or the event written last for it is older than `inactive` minus an hour |
| StatLimits.EventsAreConserved | internal/stats/worker.go:60-112 | every offered event is refused, queued, held by a worker or recorded, each exactly once; queue and workers stay within their limits |
| StatLimits.RefusedByFullQueue | internal/stats/worker.go:104-111 | an event is refused only at a moment when the queue is full |
| StatLimits.HashStaysSmall | internal/stats/cleaner.go:204-223 | after a prune an hour hash holds at most 48 fields plus one for each hour begun since, unless an event older than that prune's window is written |
| StatLimits.OrderedHashStaysSmaller | internal/stats/worker.go:132-133 | with events in timestamp order it never exceeds 48 fields within 48 hours of a prune, because each write removes the bucket 48 hours before its own |
| StatEdges.PatienceIsExact | internal/stats/cleaner.go:240-285 | over all runs without racing writes, read at once, every path's histogram is exact if and only if the minimum count is at most one or the threshold is at least 48 hours less one tick |
| StatEdges.ImpatientLoses | internal/stats/cleaner.go:273-276 | for every other setting a concrete run loses an event that is still in the window |
| StatEdges.RaceLosesEvent | internal/stats/cleaner.go:261-296 | with every patient setting that deletes anything, an event written between verdict and deletion is lost |
| StatEdges.DeletionIsUnsafe | internal/stats/cleaner.go:240-296 | over all runs, races included, the histograms are exact if and only if the minimum count is at most one |
| StatEdges.StaleReaderLosesBucket | internal/stats/worker.go:133 | in any hour, a reader with a clock reading of an event's last hour, served as the next hour begins, misses the event although its keys are alive, because a newer write removed its bucket |
| StatEdges.ReaderIsExact | internal/stats/handlers.go:124-127 | for a patient cleaner and every clock reading and serving time: histograms are exact over all runs without racing writes if and only if no hour that can hold events has left the reader's window in between |
| StatEdges.ReorderedTokenVanishes | internal/stats/worker.go:152 | under any cleaner, a two-second reordering takes a token out of the listing in the last second of its window, and the token counts fall short |
| StatEdges.ShadowedPathIsInvisible | internal/stats/handlers.go:108-117 | a path without `::` is reported exactly when its key was scanned and it is not shadowed |
| StatEdges.CounterIsPruned | internal/stats/cleaner.go:195-219 | the running count of a path or token survives the window cleaner if and only if its main key does not end in `::hours` |
| StatEdges.WithinCountExactly | internal/stats/cleaner.go:195-219 | over all runs the 48-hour count of a path or token stays within its running count if and only if its main key does not end in `::hours` (or there are no paths, and so no events, at all) |
| StatEdges.InterruptedPruneMisleads | internal/stats/cleaner.go:204-223 | for every minimum count of at least two, every threshold longer than 48 hours and every late enough hour, a run with a late event and an interrupted prune in which a path is condemned though its last written event is not old enough |
| StatEdges.OldEnoughExactly | internal/stats/cleaner.go:204-284 | over all runs, whatever the order of writing and however prunes are interrupted, every condemned path has no buckets or an old enough last event if and only if the minimum count is at most one or the threshold at most 48 hours |
| StatEdges.HashBoundIsReached | internal/stats/cleaner.go:204-223 | for every k some run reaches 48 + k fields k hours after a prune |
| StatService.Record | internal/stats/worker.go:114-175 | the commands, sent one by one, leave the store that Recording.RecordedAt describes |
| StatService.RunWorker | internal/stats/worker.go:60-72 | a worker empties the queue and records its events in queue order; StatService.WorkerIsRun says what store that is |
| StatService.WorkerIsRun | internal/stats/worker.go:60-72 | the store a worker leaves behind n queued events is the one that n times taking an event and writing it leaves in the state machine: each event once, in queue order, with the log longer by exactly these events |
| StatService.EventQueue.Enqueue | internal/stats/worker.go:100-112 | a full queue drops the new event and counts it, otherwise the event is appended and nothing is counted |
| StatService.PruneHourBuckets | internal/stats/cleaner.go:204-223 | exactly the fields that do not parse or are too old are deleted; the other fields and all other keys stay as they were |
| StatService.PruneIsDropStale | internal/stats/cleaner.go:204-223 | a prune is a late deletion of stale fields, the step of the runs that allows writes in between, when nothing comes in between |
| StatService.CleanWindows | internal/stats/cleaner.go:162-202 | a batch of keys is cleaned one after the other; StatService.WindowsAreSteps and StatService.CleanWindowKeeps say what that does |
| StatService.WindowsAreSteps | internal/stats/cleaner.go:162-202 | the pass over a batch is one window step of the state machine for each key, in order, and changes nothing but the store |
| StatService.CleanWindowKeeps | internal/stats/cleaner.go:182-197 | a window step leaves in a sorted set exactly the members scored after the cutoff second (or below 0, where the removed range begins) and in a hash ending in `::hours` exactly the fields that parse to one of the last 48 hours or later, with their values and expiry; every other hash and every other key is untouched |
| StatService.FilterMainKeys | internal/stats/cleaner.go:225-238 | the main keys of a batch, in order |
| StatService.FilterSplits | internal/stats/cleaner.go:225-238 | the filter judges each key by itself: the main keys of two batches in a row are those of the first and then those of the second |
| StatService.DeletePathKeys | internal/stats/cleaner.go:287-296 | the four keys of the path are gone, nothing else changes |
| StatService.CheckAndCleanKey | internal/stats/cleaner.go:240-285 | the path is deleted, and this reported, exactly when a minimum is set, its count is there and lower, and it has no buckets or every bucket that parses (and with them the beginning of time) is older than `inactive`; otherwise nothing changes |
| StatService.CheckIsThreeSteps | internal/stats/cleaner.go:240-285 | undisturbed, that is the three cleaner steps of the runs |
| StatService.CleanBatch | internal/stats/cleaner.go:92-114 | a batch is first trimmed and pruned, then its main keys are checked on the resulting store; the number of deleted paths is returned; StatService.BatchIsRun says what these are |
| StatService.ChecksAreSteps | internal/stats/cleaner.go:105-114 | the checks of a batch are, key by key, the reading of the count, the reading of the hours and the deletion of the state machine |
| StatService.DeletionsAreCounted | internal/stats/cleaner.go:111-113 | the reported number is the number of these checks that come to a deletion |
| StatService.BatchIsRun | internal/stats/cleaner.go:92-114 | a whole undisturbed batch is a list of window steps and cleaner steps of the state machine: same store, same number of deletions |
| StatService.ReadReport | internal/stats/handlers.go:135-162 | one report is read as StatReads.ReadSubject says; StatService.ReportShows says what it holds |
| StatService.ReportShows | internal/stats/handlers.go:135-162 | the running count or 0, the 48 totals up to the present hour and their sum, and for each sorted set exactly the members scored at the cutoff second or later, each once, in byte order |
| StatService.PathStats | internal/stats/handlers.go:124-164 | exactly the listed paths are reported, each with its own report |
| StatService.TokenStats | internal/stats/handlers.go:167-228 | exactly the tokens whose score in the index is at the cutoff second or later are reported, each with its own report |
| DelayDelete.RunIsSafe | internal/secure/delay_delete.go:53-94 | in every interleaving at most maxPending entries, each an armed timer of that token or one that fired and waits for the mutex; the map is nil only after cancellation |
| DelayDelete.NoLostDelete | internal/secure/delay_delete.go:53-78 | until cancellation every scheduled token has been deleted at or after its latest schedule, or the timer of that schedule is still on its way, even when an old callback removed its entry |
| DelayDelete.QuiescentMeansDeleted | internal/secure/delay_delete.go:68-77 | once no timer is live every token has been deleted since its latest schedule |
| DelayDelete.ScheduleDecision | internal/secure/delay_delete.go:59-77 | with room for at least one token, a schedule deletes at once if and only if the token is not pending and the map is full; otherwise it arms a new timer and deletes nothing |
| DelayDelete.CancelStopsDeletes | internal/secure/delay_delete.go:56-58 | after cancellation only timers whose context check had already passed delete, whatever fires or is scheduled |
| DelayDelete.StopAllStops | internal/secure/delay_delete.go:87-94 | stopping everything stops each pending timer that is still armed, leaves every other timer as it was and makes the map nil |
| DelayDelete.NothingArmedAfterStop | internal/secure/delay_delete.go:87-94 | if every superseded timer could be stopped, no timer is armed after that, and none ever will be |
| DelayDelete.EarliestDeletion | internal/secure/delay_delete.go:68-76 | from any reachable uncancelled state some continuation deletes a token by timer before a limit if and only if some live timer of the token is ready before it |
| DelayDelete.CleanRunsWait | internal/secure/delay_delete.go:59-77 | if every superseded timer could be stopped, a timer's deletion comes no earlier than the delay after the latest schedule, and only the latest timer of a token is live |
| DelayDelete.WaitingCount | internal/secure/delay_delete.go:53-78 | in every uncancelled run the timers that have not taken the mutex are as many as the pending entries plus the strays (waiting timers that are not their token's pending one), so they stay within the cap exactly while the strays fit into the free places |
| DelayDelete.CapBoundsTimers | internal/secure/delay_delete.go:63-77 | if every superseded timer could be stopped there are no strays, and at most maxPending timers have not yet taken the mutex |
| DelayDelete.LateStop | internal/secure/delay_delete.go:59-72 | for every cap, a run in which one Stop came too late: more armed timers than the cap, none of them overdue, and a deletion possible a whole delay too early |
| DelayService.TokenDelayDeleter.constructor | internal/secure/delay_delete.go:26-44 | the initial state, with 4096 for a cap that is not positive |
| DelayService.TokenDelayDeleter.Schedule | internal/secure/delay_delete.go:53-78 | schedule is the state machine's step and keeps the invariant |
| DelayService.TokenDelayDeleter.CallbackLock | internal/secure/delay_delete.go:68-71 | the callback removes the token's entry, whoever put it there, and no other |
| DelayService.TokenDelayDeleter.CallbackCheck | internal/secure/delay_delete.go:72-74 | a callback that sees the context cancelled ends without deleting |
| DelayService.TokenDelayDeleter.CallbackDelete | internal/secure/delay_delete.go:75-85 | the deletion of the callback's own token |
| DelayService.TokenDelayDeleter.StopAll | internal/secure/delay_delete.go:87-94 | timer by timer: an armed one that is pending is stopped, every other one stays as it was, and the map is nil |
| TtlCache.Memory.Get | internal/cache/memory.go:29-48 | an entry is returned up to and including its expiry, a dead one is removed, every other entry stays |
| TtlCache.Memory.CleanupExpired | internal/cache/memory.go:56-71 | exactly the entries that expire strictly later survive, with their values |
| TtlCache.CacheRefinesMap | internal/cache/memory.go:29-71 | after any sequential run a lookup agrees with the map that never evicts, if and only if it is not at the very instant of an expiry at which the entry was swept |
| TtlCache.SweepLeavesLive | internal/cache/memory.go:56-71 | after any sequential run a sweep leaves exactly the part of the never-evicting map that expires strictly later |
| TtlCache.SharedSweepLeavesLive | internal/cache/memory.go:56-71 | and so it does in any interleaving with reads, re-checks and sets |
| TtlCache.RecheckRemovesExpired | internal/cache/memory.go:38-45 | the re-check under the write lock removes the entry it finds exactly when that one has expired by then |
| TtlCache.NothingEvictedEarly | internal/cache/memory.go:98-139 | in any interleaving of reads, re-checks, sets and sweeps an entry that is not replaced stays until its expiry |
| TtlCache.GetOutcome | internal/cache/memory.go:29-48 | in any interleaving a hit is the entry that was current when it was read and unexpired at the time check; a miss happens exactly when that entry was absent, has expired by the check, or was swept at the instant of its expiry at which both fall |
| TtlCache.SpuriousExactly | internal/cache/memory.go:29-48 | a miss is spurious exactly when, in addition, the key holds an unexpired entry at the check; short of an expiry instant this takes a set in between |
| TtlCache.SpuriousMiss | internal/cache/memory.go:38-45 | with a set in between, Get can miss although the key always had a live entry |
| BodyCapture.BodyCaptureWriter.Write | internal/cache/memory.go:188-204 | one write: status 200 if there was none, the bytes passed on, and the part that still fits captured |
| BodyCapture.CaptureIsExact | internal/cache/memory.go:188-204 | for every list of writes the buffer is the first bytes of the body up to the limit, and the overflow mark is set if and only if the body is longer or some write began with the buffer full |
| BodyCapture.ClientGetsAll | internal/cache/memory.go:203 | the client receives the whole body whatever the limit |
| BodyCapture.CacheableIsWhole | internal/cache/memory.go:179-181 | cacheable if and only if the limit is positive, the body not empty and within it, and no write began full; then the buffer is the whole body |
| BodyCapture.EmptyWriteCounts | internal/cache/memory.go:193-195 | a body of exactly the limit is cacheable, but not when an empty write follows |
| BodyCapture.StatusIsLastHeader | internal/cache/memory.go:183-191 | the recorded status is the code of the last header write, whatever is written after it |
| BodyCapture.StatusWithoutHeader | internal/cache/memory.go:189-191 | without a header write it is 200 once anything was written, and 0 when nothing happened |
| QueryText.UnescapeInverse | internal/cache/middleware.go:46 | percent-encoding (sections 2.1 and 2.3 of RFC 3986) is undone by unescaping, with a space written as `+` or as `%20` |
| QueryText.EscapePlain | internal/cache/middleware.go:46 | letters, digits and `-`, `_`, `.`, `~` (section 2.3 of RFC 3986) are never escaped |
| QueryText.EscapeOther | internal/cache/middleware.go:46 | every other byte becomes `%` and its two capital hexadecimal digits, a space `+` or `%20` |
| QueryText.EscapeAppend | internal/cache/middleware.go:46 | and a text is escaped byte by byte |
| QueryText.JoinLaws | internal/cache/middleware.go:46 | a pair is printed as name, `=` and value, pairs are separated by one `&`, no pairs print nothing |
| QueryText.ReplaceJoined | internal/cache/middleware.go:46 | replacing every `+` of an encoded query is the same as having written its spaces as `%20`: no other character is touched |
| QueryText.ParseJoined | internal/cache/middleware.go:46 | parsing an encoded query gives its pairs back in order |
| CacheKey.Canonical | internal/cache/middleware.go:36-47 | the loop over the values, the sorting and the encoding give the canonical query, whose text CacheKey.CanonicalText fixes |
| CacheKey.CanonicalRoundTrip | internal/cache/middleware.go:36-47 | parsing the canonical query gives, for every key but `token` and `s`, its values in byte order, and nothing for those two |
| CacheKey.CanonicalText | internal/cache/middleware.go:36-47 | the text of the canonical query is that of the pairs it parses to, spaces as `%20`, with the names in byte order; a `%` always stands before two digits of 0-9A-F for a byte that needs escaping, and every other character is a letter, a digit, one of `-_.~`, `=` or `&` |
| CacheKey.CanonicalEqualIff | internal/cache/middleware.go:36-47 | two canonical queries are equal if and only if every key but `token` and `s` has the same multiset of values, absent meaning none |
| CacheKey.KeyEqualIff | internal/cache/middleware.go:19-34 | for methods and paths without a pipe and no digest collision between the two, keys are equal if and only if method, agent and token agree and either path and query do, or one path spells out the other's path and query |
| CacheKey.KeyIsInjective | internal/cache/middleware.go:19-34 | without a question mark in the paths, keys are equal exactly for equal method, path, agent and token and, when included, equal query up to order |
| CacheKey.PipeCollides | internal/cache/middleware.go:23-29 | every request whose path holds a pipe has the key of another one whose path holds none, whether or not the query is part of the key |
| CacheKey.SpelledQueryCollides | internal/cache/middleware.go:24-28 | every request with a query that counts has the key of one whose path spells that query out |
| Proxy.KeptPageIsWhole | internal/cache/middleware.go:133-146 | a page is kept if and only if the recorded status is 200 and the body is cacheable; it then has that header and the whole body; a refusal is kept if and only if the recorded status is from 400 to 499 |
| Proxy.SamePageUntilExpiry | internal/cache/middleware.go:65-92 | in sequential runs, after a stored 200, every request for the key whose lookups come no later than its expiry gets the same status, header and whole body, never a 403 and never the upstream, as long as sweeps come before that instant |
| Proxy.RefusedUntilExpiry | internal/cache/middleware.go:49-63 | after a stored 4xx, every request for the key whose lookups come no later than its expiry is refused, as long as sweeps come before that instant |
| Proxy.UpstreamSpacing | internal/cache/middleware.go:65-92 | in any interleaving a request goes on to the upstream only ttl200 or more after every 200 stored for its key, having passed the 4xx lookup ttl4xx or more after every 4xx stored by then; otherwise it gets the last stored page, unexpired |
| Proxy.RefusalIsJustified | internal/cache/middleware.go:49-63 | in any interleaving a request is refused only under the last stored 4xx of its key, unexpired, and let through only when all of them have expired |
| Proxy.StoredPagesAreReplies | internal/cache/middleware.go:84-88 | every page ever stored is the whole 200 reply, header and body, that the upstream gave to a request for that very key, stored at the moment it ended |
| Proxy.StoredRefusalsAreReplies | internal/cache/middleware.go:143-145 | every refusal ever stored was stored when the upstream's reply with a recorded status from 400 to 499 to a waiting request for that very key ended |
| Proxy.StoresExactly | internal/cache/middleware.go:133-146 | each such reply is stored, with its own time to live, and each whole 200 reply; nothing else ever adds to either cache: no panic, no other status, no reply without writes, no uncacheable body |
| Proxy.ServedFromReply | internal/cache/middleware.go:72-77 | in any interleaving a client served from the cache gets the last kept such reply for its key, no older than ttl200 |
| Proxy.UndisturbedIsAsked | internal/cache/middleware.go:49-92 | a request that runs alone does, in its interleaved steps, what the sequential account says |
| ProxyService.CachingProxy.Handle | internal/cache/middleware.go:49-131 | the 403 for an unexpired refusal, else the unexpired page, else the upstream's reply or its panic; the caches change as the sequential account says |
| ProxyService.CachingProxy.StoreResponse | internal/cache/middleware.go:133-146 | a 200 with a whole, non-empty body goes to the 200 cache, a status from 400 to 499 to the 4xx cache, each with its own time to live; anything else leaves both as they were |
| ProxyService.CloneHeader | internal/cache/memory.go:151-159 | the same names and values in fresh, pairwise different slices |
| ProxyService.Response.WriteCached | internal/cache/middleware.go:94-105 | status and body of the page; under canonical names exactly the page's values, under other names what was there before |

## Left out

- Redis itself: a store of hashes and sorted sets in which each command is atomic, a key disappears at its expiry and not
  before, and hash counters never overflow 64 bits. Network errors, timeouts and partly applied pipelines are not modelled,
  nor is the branch of checkAndCleanKey that deletes when its read fails on the network.
- StatProofs.RunKeeps: one `record`, one `deletePathKeys` and one read of one report are each a single step, although
  the code sends several commands in a plain pipeline; the cleaner's reading of the count, its reading of the hours and
  its deletion are separate steps, and so may be the reading and the deletion of a prune.
- StatTheorems.HistogramIsEventList: about runs whose paths and tokens have pairwise distinct keys, because otherwise one
  hash counts for two of them (StatKeys.KeysCollide); paths with `::` and tokens that are not valid are included as long
  as no two keys coincide.
- StatTheorems.PathsAddUp: the scan is taken to return every key at least once, and all reports to be read from one state
  of the store; SCAN cursors and batches are not modelled. StatTheorems.SpreadReportsAddUp bounds what reading one
  report after another changes.
- StatTheorems.TokensAddUp: all reports are read from one state of the store, as for the paths.
- StatLimits.LastEventIsOld: for prunes that are not interrupted; interrupted ones are covered for thresholds of at most 48
  hours, and beyond that the property is false (StatEdges.OldEnoughExactly).
- StatReads.SummarizeHours: counters and hours are unbounded integers, so ParseInt's range errors do not occur.
- The uninitialised queue, on which enqueue does nothing, and the log lines, sleeps and progress counters of the cleaner.
- NormalizePath, the stats middleware and StatusCaptureWriter: which responses become events is a parameter of the runs.
- RequestToken, ClientIP and the guards: the token and the user agent of a request are parameters of the key.
- DelayDelete.RunIsSafe: the Redis command behind deleteNow is an entry in a history; its timeout is not modelled.
- TtlCache.Memory.Get: the two clock readings are parameters; in a single-threaded call they make no difference.
- CacheKey.KeyEqualIff: MD5 is an unknown function to 32 characters, with no collision between the two requests at hand.
- Proxy.UpstreamSpacing: each lookup is one step; its inner interleavings are the subject of TtlCache.GetOutcome.
- ProxyService.CachingProxy.Handle: the reverse proxy is any list of header and body writes, or a panic after one; the
  text of the 403 answer and the marks for request tracing are not modelled.
- ProxyService.CloneHeader: shown by itself on mutable slices; cached pages hold header fields as values.
- Flush, StartGC's ticker, configuration, admin authentication, health, the HTML panel, TLS and server start-up.
