# Fleet live client: a verified model

The browser client of the fleet live application loads GPS history, queues driver positions, draws
live markers and edits alert rules. This project models the parts of it where order, failure and
caching meet, and proves what they promise.

- **User-day loader** (`UserDays`, `Ndjson`, `SlimPoints`, `DayLoader`, `DayLoaderProofs`,
  `DayProgress`, `DaySkips`, `DayWords`, `DayTruth`, `DayOrders`, `DayAnswer`). One call asks for every
  (vehicle, date): cached days first, then chunks through a streaming batch endpoint, then direct fetches for
  whatever the batch did not answer. Everything between two awaits is one event. The pools set the
  limits: chunks start in order, eight at a time, and each fetches directly eight days at a time;
  within them the events of different chunks interleave in any way. `DayLoad` is the call as a mutable
  object, `Step` and `After` are the machine it is proved against, and the theorems speak of every
  legal sequence of events.
- **Trips** (`Sorting`, `Trips`, `TripGrouping`, `LoadedTrips`). The rows of a vehicle are regrouped into
  trips, one for each recording and one for each UTC day of the rest, and
  when the arrival order of rows, or of whole days, can be seen in the result is settled exactly.
- **Track loader** (`TrackLoader`, `TrackTrips`). The same shape for single recordings, with a batch endpoint whose
  state is shared by all chunks. Any number of chunks may be at work, which covers the pool's eight.
- **Caches and pool** (`BoundedCache`, `DayCaches`, `Pool`). The insertion-ordered, bounded caches of
  both loaders, and the sliding-window pool that runs them.
- **Window merge, paging, retries** (`TrackInfos`, `StatusPages`, `ApiGet`).
- **Ping queue** (`PingQueue`, `PingTwice`, `PingDone`). The page enqueues fixes; any number of
  service-worker and page flushers send batches and delete what the server has dealt with. Each
  IndexedDB transaction and each response is one step. Ids follow the key generator of section 2.11 of
  the Indexed Database API 3.0. `PingStore` is one flush with the store to itself.
- **Live map** (`LiveMarkers`, `FocusToken`, `FocusKeys`, `FocusRuns`). A heap of marker objects patched
  in place, through an icon cache that outlives every theme, against a full rebuild; and the decision
  to refocus the map, down to what the page's search text can do to it.
- **Rule editor** (`JsNumbers`, `RuleEditor`, `RuleMeaning`). Packing a draft into a rule and unpacking it again.

`Seqs` and `Tracks` hold shared vocabulary. Servers, clocks, number parsing, JSON parsing and number
formatting are parameters; the theorems hold for every choice of them unless they say otherwise.

## What the proofs found

- `skipped` counts the keys whose first word is a failure. A key first heard of through its own fetch
  is never counted wrongly; the keys counted are the jobs without rows exactly when what a batch
  announces first agrees with the good line, the refusal or the retry that follows. A line that is
  announced and then cannot be parsed, with a retry that fails, is missed; a day announced as failed
  before the stream breaks stays counted although its retry succeeds, and with no other job the whole
  day endpoint is then given up for a load that has its rows.
- The order in which fetched days arrive shows in the trips exactly when two of them meet in one bucket
  at one instant and neither only continues what the other shows there, behind what the cached days
  show; days that never meet are safe. This holds for loads of up to 2560 fetched days, the eight chunks
  that run at once; beyond, the condition still suffices, but no day of a ninth chunk can come first.
- A marker keeps the colour its class had when its icon key was first drawn, so a theme change is not
  followed by markers whose key is cached. The map equals a fresh rebuild exactly when no shown class
  changed colour since.
- Two fit keys of the page share a token for some rows exactly when one continues the other with a bar
  and texts of rows in ascending order, all sorted after it; a change is then missed exactly when the
  named rows are the difference of the two views and come before the other rows sorted after the key.
  It can happen: a search text that names a vehicle hides it, and the map does not move if another
  vehicle's name holds the same text.
- Merging the windows before selecting users is harmless exactly when an id always belongs to one user.
- A rule is unchanged by "open, save" exactly when everything in it is written as the editor writes
  it: enabled, whole minutes within the limits, groups spelt out without empty or nested ones, values
  coerced, a first branch that repeats the rule, numbered else-branches with direct conditions. One
  round always settles a rule. A branch of groups only gains the condition `speed > 80` as soon as
  there is an else-branch, and a disabled rule comes back enabled.
- A ping can be accepted twice exactly when a flusher takes a snapshot whose batch holds a row that
  another flusher is sending or that the server has accepted.

## Model

| member | source | states |
|---|---|---|
| DayLoader.DayLoad.constructor | src/lib/api.ts:582-593 | the first pass over the cached days leaves the object in the machine's initial state, the rest cut into chunks |
| DayLoader.DayLoad.Store | src/lib/api.ts:595-604 | a direct fetch counts its key at most once, skips only a failure, and delivers and remembers only a success |
| DayLoader.DayLoad.Receive | src/lib/api.ts:606-612 | announcements count each key once, in order |
| DayLoader.DayLoad.AbsorbBatch | src/lib/api.ts:637-642 | the rows of a completed batch are remembered and delivered in chunk order |
| DayLoader.DayLoad.Perform | src/lib/api.ts:614-657 | every event of the pool takes the object exactly where the machine goes |
| DayLoader.DayLoad.Conclude | src/lib/api.ts:659-663 | the end of the call answers with the rows held and the count of skipped days, or gives the endpoint up |
| DayLoader.RunSchedule | src/lib/api.ts:626-659 | driving the object through any schedule ends in the machine's state after that schedule |
| DayLoaderProofs.RowsAreSettledRows | src/lib/api.ts:582-642 | at every moment a vehicle holds exactly the rows settled for it so far, in order: nothing lost, nothing twice, nothing of another vehicle |
| DayLoaderProofs.JobsConserved | src/lib/api.ts:582-657 | at every moment of every interleaving the settled jobs and the open jobs together are the jobs of the load |
| DayLoaderProofs.EveryJobSettledOnce | src/lib/api.ts:582-663 | a run that completes has settled each job exactly once, whatever mix of cache, batch, missing keys, broken streams and direct retries it took |
| DayLoaderProofs.CacheStaysFaithful | src/lib/api.ts:208-220 | against a fixed source every cached day stays what the source answers, through one load and its evictions |
| DayLoaderProofs.CacheFaithfulThroughLoads | src/lib/api.ts:203-220 | and through any sequence of loads, finished or aborted, each starting with the cache the one before left |
| DayLoaderProofs.RefinesNaiveLoader | src/lib/api.ts:545-669 | the cached, batched, interleaved loader gives each vehicle the same multiset of rows as fetching each day once |
| DayAnswer.AnswerIsNaive | src/lib/api.ts:545-669 | a finished load that does not give up answers, for exactly the requested vehicles, the multiset of rows that fetching each day once gives, and counts as skipped the days whose first word was a failure; it gives up exactly when there are jobs and every key heard of, one for each job, was a failure first |
| DayAnswer.AnswerHasEveryTrip | src/lib/api.ts:665-669 | its trips are, for each requested vehicle, one for each recording and one for each UTC day without one among these rows |
| DayAnswer.AnswerCall | src/lib/api.ts:659-669 | the last lines of the call compute that answer from the object |
| DayLoaderProofs.AnsweredNotRetried | src/lib/api.ts:637-644 | after a batch exactly the days that no line of its answer parsed to are fetched directly, so a refused day is not asked for again |
| DayLoaderProofs.WarmEqualsCold | src/lib/api.ts:582-604 | a load that starts with the cache any earlier loads left and a cold load agree on every vehicle's multiset of rows |
| DayProgress.LoadedIsCounted | src/lib/api.ts:569-612 | always: `loaded` is the size of `counted` and `skipped` is at most `loaded` |
| DayProgress.LoadedWithinJobs | src/lib/api.ts:569-612 | if only requested keys are announced, `loaded` never exceeds the job count |
| DayTruth.ProgressIff | src/lib/api.ts:569-663 | then `loaded` is the job count exactly when every job has been heard of, and the endpoint is given up exactly when there are jobs and the first word about each is a failure |
| DayProgress.ProgressExact | src/lib/api.ts:569-663 | so when every line that peeks and parses gives one key both times, `loaded` equals the job count at the end and the endpoint is given up exactly when every job was skipped |
| DaySkips.SkippedIsJobsWithoutRows | src/lib/api.ts:595-654 | with batches that complete with one well-formed line per announced key, or fail before announcing, `skipped` is the number of jobs settled without rows |
| DayWords.FirstFailuresMeaning | src/lib/api.ts:595-612 | a key is among the first failures exactly when the first word heard about it is a failure |
| DayWords.SkippedIsFirstFailures | src/lib/api.ts:595-612 | always, whatever the server says: `counted` is what was heard of and `skipped` is the number of keys whose first word is a failure |
| DayTruth.SkippedKeysRightIff | src/lib/api.ts:472-657 | for every server and completed run: the keys counted as skipped are the keys of the jobs without rows exactly when, for every key, what a batch announced first agrees with the good line, refusal or retry that followed |
| DayTruth.OwnWordIsTrue | src/lib/api.ts:595-623 | a key first heard of through its own direct fetch, or found in the cache, is never counted wrongly |
| DayTruth.ForeignKeys | src/lib/api.ts:606-612 | a key that was never asked for ends with nothing: only a failure announced for it is counted wrongly |
| DayTruth.SkippedOff | src/lib/api.ts:595-663 | so `skipped` is then the number of jobs without rows, and in general it is off by the wrongly announced keys |
| DayTruth.AnsweredIsHeard | src/lib/api.ts:472-497 | when lines agree with their peeks, no answered key goes unheard |
| DaySkips.UnparsableLineNotSkipped | src/lib/api.ts:472-484 | a run that completes with a job without rows and nothing skipped |
| DaySkips.RecoveredDayStillSkipped | src/lib/api.ts:595-663 | a run that holds all its rows, counts its day as skipped, and gives the endpoint up |
| Ndjson.CutLines | src/lib/api.ts:508-518 | the inner loop moves every complete line out of the buffer, keeping the split of the whole text |
| Ndjson.ReadStream | src/lib/api.ts:501-527 | for every way of cutting the text into chunks the stash is the trimmed non-empty lines of the whole text, each peeked at once in order |
| Ndjson.SplitTakesApart | src/lib/api.ts:508-516 | the pieces have no line feed and, joined by line feeds, are the text |
| Ndjson.CleanKeeps | src/lib/api.ts:510-513 | the lines are, in order, the pieces trimmed, without the empty ones |
| Ndjson.TrimDropsEnds | src/lib/api.ts:510 | trimming drops all white space at the two ends and nothing else |
| Ndjson.ParseStashed | src/lib/api.ts:472-497 | the parse phase yields exactly the good rows and the refusals of the stash, and announces only lines the peek did not |
| Ndjson.ByKeyMeaning | src/lib/api.ts:463-484 | a key has rows exactly when some line gave them, and the last such line wins |
| Ndjson.RefusedMeaning | src/lib/api.ts:463-484 | a key is refused exactly when some line says so |
| Ndjson.AnnouncedOnce | src/lib/api.ts:472-527 | each line that peeks or parses to a key is announced once over both phases together |
| Ndjson.FetchUserDayStream | src/lib/api.ts:499-529 | the answer and the announcements of a batch do not depend on how the stream was cut |
| Ndjson.PeekAgreesIff | src/lib/dayTracks.ts:108-117 | the peek tells the truth about a written line exactly when the line is a failure or its points do not contain the failure mark |
| SlimPoints.UnmarkedText | server/slim-points.mjs:72-90 | the JSON text of a value without a member named like the failure mark does not contain the mark |
| SlimPoints.SlimmedPointsUnmarked | server/slim-points.mjs:52-90 | of scalar values, the points the server writes never contain the failure mark |
| SlimPoints.WrittenLinePeeksTrue | src/lib/dayTracks.ts:108-117 | so every line written of scalar points is peeked at truthfully |
| SlimPoints.NestedValueMisleads | server/slim-points.mjs:34-50 | a kept variable that is itself an object can carry the mark: scalar values are needed |
| UserDays.DayCacheKeyInjective | src/lib/api.ts:208-210 | a day key determines its vehicle and its date |
| UserDays.InterleaveUserDays | src/lib/dayTracks.ts:120-132 | the loops give one job per date and vehicle, date-major |
| UserDays.JobsAre | src/lib/dayTracks.ts:120-132 | the jobs are exactly the pairs of a requested vehicle and a requested date |
| UserDays.JobsOfDate | src/lib/dayTracks.ts:120-132 | the jobs of a date follow those of the dates before it, in the order of the vehicles |
| UserDays.JobsDistinct | src/lib/dayTracks.ts:120-132 | distinct vehicles and dates give jobs with distinct keys |
| UserDays.ChunkArray | src/lib/pool.ts:25-30 | the chunks concatenate back to the items |
| UserDays.ChunksCover | src/lib/pool.ts:25-30 | every chunk but the last is full, none is empty or too large, and together they are the items in order |
| UserDays.StillMissing | src/lib/dayTracks.ts:156-162 | exactly the jobs whose key was not received |
| Pool.EachStartedOnce | src/lib/pool.ts:2-23 | at every moment indices were started in order, once each, and no more are in work than the limit |
| Pool.AllDoneOnReturn | src/lib/pool.ts:2-23 | when the pool returns every item has its result |
| Pool.ResultsAreOwn | src/lib/pool.ts:18-19 | the result at an index is what the worker of that index gave |
| Pool.MapPool.Perform | src/lib/pool.ts:13-20 | every step of the shared counter and the runners takes the object exactly where the machine goes |
| TripGrouping.GroupRowsIntoTrips | src/lib/dayTracks.ts:71-105 | the loops give one trip for each recording that a stamped row names and one for each UTC day of the stamped rows without one, with the recording's or day's number, the given user, exactly the stamps of these rows in time order, and the trips in order of beginning |
| TripGrouping.GroupsAreLabels | src/lib/dayTracks.ts:71-105 | there are no other trips and none twice |
| TripGrouping.ShareTripIff | src/lib/dayTracks.ts:73-82 | two stamped rows share a trip exactly when they have the same recording, or neither has one and they fall on the same UTC day |
| Trips.TripStamps | src/lib/dayTracks.ts:86-93 | a trip has every stamp of its bucket, each once |
| Trips.TripsInOrder | src/lib/dayTracks.ts:86-103 | points are in time order within a trip, trips in order of their beginning |
| Trips.TripShowsFirst | src/lib/dayTracks.ts:86-93 | at each instant a trip shows the point that arrived first |
| Trips.SameTripIff | src/lib/dayTracks.ts:86-93 | two arrival sequences give the same trip exactly when, at every instant, they show the same points once repeated stamps are dropped |
| Trips.BucketOrderFree | src/lib/dayTracks.ts:85-102 | a trip is the same for every arrival order of its points exactly when instants tell points apart |
| Trips.TripsOrderFree | src/lib/dayTracks.ts:71-105 | rows that agree on every bucket's trip give the same trips |
| Trips.GroupOrderFree | src/lib/dayTracks.ts:71-105 | when instants tell points apart, the list of trips, order included, is the same for every order of the rows exactly when no two trips begin together |
| LoadedTrips.LoadedTripsAreNaive | src/lib/api.ts:545-669 | end to end: in every interleaving the answer of a finished load holds the trips that fetching each day once in job order would give, provided the days agree wherever they meet; one for each recording and each UTC day of these rows |
| LoadedTrips.InterleavingsAgreeIff | src/lib/api.ts:582-669 | when the days to fetch fit into the eight chunks that run at once, a vehicle's trips are the same in every interleaving exactly when its fetched days, each behind the cached rows, agree: at every instant of every bucket one of two only continues what the other shows |
| LoadedTrips.ColdInterleavingsAgreeIff | src/lib/api.ts:614-669 | with nothing cached, exactly when its days agree |
| LoadedTrips.AgreeingDaysAgree | src/lib/api.ts:614-669 | for loads of any size, agreeing days give the same trips in every interleaving |
| LoadedTrips.EarlyDaysContinue | src/lib/api.ts:614-657 | for loads of any size, if every interleaving gives the same trips then the days of the first eight chunks agree |
| LoadedTrips.ApartDaysAgree | src/lib/dayTracks.ts:71-105 | days that never meet in one bucket at one instant agree |
| LoadedTrips.DaysOrderFree | src/lib/dayTracks.ts:71-105 | days that agree give every bucket the same trip in any order |
| DayOrders.AlwaysInTurn | src/lib/pool.ts:11-22 | chunks are started in turn and at most eight are at work |
| DayOrders.FinishRun | src/lib/api.ts:614-657 | from every reachable point at which the endpoint was not found missing, the load can be brought to its end, keeping what was settled |
| DayOrders.JobsTellVehicles | src/lib/api.ts:556-560 | in the jobs of a load a key belongs to one vehicle |
| DayOrders.AnyDayFirst | src/lib/api.ts:626-644 | any day of the first eight chunks that can be had at all is, in some finished run, the first to arrive behind the cached ones |
| DayOrders.LateChunksWait | src/lib/api.ts:626-628 | a chunk behind the first eight is started only when an earlier one is finished |
| DayCaches.DayCacheIsNewest | src/lib/api.ts:203-220 | after any sequence of loads, finished or aborted, the day cache holds the last 1200 days by last write; a cached day that is used is not written again |
| DayCaches.ChainCacheIsNewest | src/lib/api.ts:203-220 | against a fixed source it holds the source's answers for exactly these days |
| DayCaches.RefetchedIff | src/lib/api.ts:582-593 | so a later load fetches exactly its days that are not among them |
| BoundedCache.CacheHoldsNewest | src/lib/api.ts:203-230 | after any writes the cache holds exactly the last min(max, n) distinct keys by last write, in that order, with their newest values |
| BoundedCache.RememberFaithful | src/lib/api.ts:212-230 | a write of the source's answer, eviction included, keeps every entry equal to the source's answer |
| BoundedCache.GetAfterRemember | src/lib/api.ts:212-230 | a write is readable at once |
| BoundedCache.Cache.Lookup | src/lib/api.ts:583-584 | a key is answered exactly when it is among the newest `max` keys by last write, with its newest value |
| BoundedCache.Cache.RememberEntry | src/lib/api.ts:212-230 | the object stays the newest `max` entries of its whole write history |
| TrackLoader.TrackLoad.Perform | src/lib/api.ts:331-422 | every event takes the mutable call exactly where the machine goes |
| TrackLoader.RunSchedule | src/lib/api.ts:331-422 | any schedule ends in the machine's state after it |
| TrackTrips.CountersAndTrips | src/lib/api.ts:338-354 | always: `loaded` and `skipped` count the results and the failures so far, and the trips follow the results with points, each with its recording's id, user, date and points |
| TrackLoader.EveryInfoCountedOnce | src/lib/api.ts:331-422 | on return each info was counted exactly once as trip, empty or skipped, for every endpoint state and interleaving |
| TrackLoader.SkippedExactlyFailedFetches | src/lib/api.ts:258-269 | the skipped tracks are exactly those whose direct fetch failed, and each such fetch was needed: not cached when it started, not returned by its batch if that was answered |
| TrackLoader.CacheFollowsUse | src/lib/api.ts:342-348 | the track cache holds the last 800 tracks by last use, hits included |
| TrackLoader.RefinesNaiveLoader | src/lib/api.ts:331-422 | same multiset of trips and same number skipped as fetching each track directly |
| TrackTrips.ReturnsTheTracks | src/lib/api.ts:331-422 | on return there is one trip for each recording whose track the source has with points, carrying its id, user, date and exactly these points, and as many are skipped as the source cannot give |
| TrackTrips.AnswerSplits | src/lib/api.ts:392-402 | of a batch answer, what it names as failed or leaves out is fetched directly and the rest is counted at once |
| TrackTrips.StartAsksBatch | src/lib/api.ts:384-391 | a chunk asks the batch exactly when the endpoint is not known to be missing, and is fetched directly otherwise |
| TrackTrips.EndpointIsLastTold | src/lib/api.ts:384-414 | the endpoint is what the last answer or missing endpoint said of it, whichever chunk it came from |
| TrackInfos.MergeWindows | src/lib/api.ts:319-328 | the merged list is the first info of each id over all windows in window order |
| TrackInfos.FetchInfosInRange | src/lib/api.ts:295-329 | the order in which windows complete does not matter, one failing window fails the whole fetch, and progress counts up by one |
| TrackInfos.SelectTrackInfosForUsers | src/lib/api.ts:282-293 | the loop selects, in order, exactly the infos of wanted users before which no wanted one has their id |
| TrackInfos.DedupKeepsFirsts | src/lib/api.ts:319-328 | what is kept are exactly the first infos of their ids, in order |
| TrackInfos.DedupThenSelect | src/lib/api.ts:282-329 | merging before selecting changes no selection exactly when an id always belongs to one user |
| StatusPages.FetchUsersStatus | src/lib/api.ts:104-129 | for every server the loop returns the normalized pages up to the first short one, at most 50 |
| StatusPages.WholeListFetched | src/lib/api.ts:108-128 | against slices of a fixed list: what exactly the first min(n, 50000) items normalise to, in order and without those that give nothing, in min(50, n/1000 + 1) requests |
| ApiGet.Get | src/lib/api.ts:50-88 | the call ends with the first decisive outcome among eight attempts, or gives up with the last one; total wait bounded |
| ApiGet.ErrorStatusDecisive | src/lib/api.ts:61-80 | a non-retryable error status is retried exactly on a path that contains the give-up words |
| ApiGet.ResponseMeans | src/lib/api.ts:46-70 | on every path of the client: 429, 502, 503 and 504 and an unreadable answer are tried again, an answer from 200 to 299 that can be read is the result, any other status is an error at once |
| ApiGet.FailureMeans | src/lib/api.ts:71-81 | a network failure is tried again unless its message looks like an error of the tracker's, and an abort ends the call |
| ApiGet.GaveUpWith | src/lib/api.ts:76-87 | after the last attempt the error names the transient status, or the failure's own message |
| ApiGet.WaitMeans | src/lib/api.ts:33-67 | only a response with a transient status is asked how long to wait |
| ApiGet.ClientPathsNeverRetried | src/lib/api.ts:90-193 | no path the client asks for contains them, so an error status always ends the call at once |
| ApiGet.DelayBounds | src/lib/api.ts:33-44 | no wait is negative or above 20 s, nor above the cap without a header |
| ApiGet.RetryAfterObeyed | src/lib/api.ts:35-41 | Retry-After is read as delay-seconds only (section 10.2.3 of RFC 9110); anything else falls back |
| ApiGet.BackoffDoubles | src/lib/api.ts:43 | the fallback starts at 400 ms and doubles up to the cap |
| PingQueue.NoPingLost | public/sw.js:57-83 | for any number of flushers, kills and lost responses: every ping enqueued is in the store, or was in a batch answered with neither 429 nor a status from 500 up (nor, for the page, 401 or 403), or was trimmed |
| PingQueue.LeavesOnlySettled | public/sw.js:72-77 | a row leaves the store only by a trim that read it, or by its flusher after an answer that is neither 429 nor from 500 up nor, for the page, 401 or 403 |
| PingQueue.AnswerDecides | public/sw.js:64-77 | an answer of the kept kinds ends the flush and touches nothing, and every other has the whole batch deleted |
| PingQueue.WhereNext | public/sw.js:78-79 | after a deletion a worker stops at a status outside 200-299, and a flush that saw the whole store is done |
| PingQueue.SnapshotTakesFront | public/sw.js:61-63 | a snapshot posts the first 50 rows, or ends the flush when there is none |
| PingQueue.TrimKeepsNewest | src/lib/driverLocation.ts:210-219 | a trim that nothing disturbs leaves the newest 2000 rows |
| PingQueue.TrimmedWasOutgrown | src/lib/driverLocation.ts:201-219 | a ping is trimmed only if some trim read the store while at least 2000 younger rows followed it |
| PingQueue.NewcomersSurvive | public/sw.js:61-76 | a ping enqueued after a flusher's snapshot is not deleted by that flusher, whatever happens in between |
| PingQueue.AcceptedInOrderOnce | public/sw.js:57-83 | one flusher at a time, no lost response: accepted pings follow enqueue order and none is accepted twice |
| PingDone.TrueMeansSent | public/sw.js:57-83 | among any number of flushers: when a flush ends with `true`, everything in the store as it last saw it was answered with neither 429 nor a status from 500 up, to a worker with 200-299, and is not in the store then or later |
| PingTwice.NoPingTwice | public/sw.js:57-83 | for any number of flushers, kills and lost responses: if no snapshot takes a row that is under way or accepted, no ping is accepted twice |
| PingTwice.SnapshotSafeIff | public/sw.js:61-73 | after a run careful so far, a snapshot makes a double acceptance possible, without any further snapshot, exactly when it takes a row under way or accepted |
| PingTwice.HazardousEndsTwice | public/sw.js:61-73 | from any reachable state where a snapshot takes such a row, some continuation accepts it twice |
| PingQueue.TwoFlushersSendTwice | public/sw.js:93-107 | two flushers can have one ping accepted twice |
| PingQueue.LostResponseSendsTwice | public/sw.js:64-72 | so can a lost response |
| PingQueue.PingStore.Add | src/lib/driverLocation.ts:201-208 | new rows go to the end with ever-increasing ids |
| PingQueue.PingStore.Round | public/sw.js:61-77 | one POST of the first 50 rows leaves the queue as it is on 429 and from 500 up, deletes its batch on every other status, and keeps what arrived meanwhile |
| PingQueue.PingStore.FlushQueue | public/sw.js:57-83 | the loop ends; what it dropped is exactly the front of the queue in full accepted batches; `true` means everything present at the last snapshot was accepted and deleted |
| LiveMarkers.IconKeyDetermines | src/components/LiveOpsMap.tsx:64-71 | the icon cache key tells apart everything an icon depends on except its colour |
| LiveMarkers.LiveOpsMap.MarkerIcon | src/components/LiveOpsMap.tsx:64-87 | the icon is the cached one of its key, built in the colours of now only when the key is new |
| LiveMarkers.LiveOpsMap.PlaceRows | src/components/LiveOpsMap.tsx:362-437 | the first loop draws every located row over what was shown, the last row of an id winning, and builds the icons that were not cached |
| LiveMarkers.LiveOpsMap.Sweep | src/components/LiveOpsMap.tsx:441-445 | the second loop removes exactly the markers of unseen ids |
| LiveMarkers.LiveOpsMap.Reconcile | src/components/LiveOpsMap.tsx:352-445 | whatever was shown before, exactly the ids of rows with finite coordinates have records and markers, and these carry the last such row: its latitude, longitude, class, selection and name, raised and labelled when selected, with the icons a rebuild through the same cache would have |
| LiveMarkers.RunUpdates | src/components/LiveOpsMap.tsx:352-445 | over any updates and themes the map shows the last update, with the icons of the whole run |
| LiveMarkers.IconOfFirstDraw | src/components/LiveOpsMap.tsx:62-87 | a cached icon has the colours of the update that drew its key first |
| LiveMarkers.IconCurrentIff | src/lib/liveOps.ts:24-41 | a marker shows the icon that would be built now exactly when its class has the colour it had when its key was first drawn |
| LiveMarkers.MapCurrentIff | src/lib/liveOps.ts:24-41 | the whole map equals a rebuild from scratch, icon cache included, exactly when no shown class changed colour since its key was first drawn |
| LiveMarkers.ThemeChangeKeepsOldColour | src/components/LiveOpsMap.tsx:420-436 | a row drawn before and after a theme change keeps the colour of the old theme |
| LiveMarkers.OverlayIsUnion | src/components/LiveOpsMap.tsx:362-445 | what was shown before survives only for ids the rows do not draw |
| LiveMarkers.RebuildKeys | src/components/LiveOpsMap.tsx:362-367 | exactly the ids of rows with finite latitude and longitude have markers |
| LiveMarkers.RebuildLast | src/components/LiveOpsMap.tsx:362-437 | of several such rows with one id the last is shown, at its own latitude and longitude, with its name, its class by age, speed and ignition, and selected exactly when its id is |
| LiveMarkers.ClassifiedRight | src/lib/liveOps.ts:54-63 | a row is of exactly one class: no fix, silent for more than 15 minutes, driving at 5 km/h or more, ignition off, or idle |
| FocusToken.TokenTellsPlaces | src/components/LiveOpsMap.tsx:171-180 | under one fit key two tokens are equal exactly when the multisets of (id, rounded position) are |
| FocusToken.PlaceOfRow | src/components/LiveOpsMap.tsx:171-180 | each row with finite coordinates gives one place, its id with its rounded latitude and longitude |
| FocusKeys.TokenTellsView | src/components/LiveOpsMap.tsx:171-180 | for fit keys that hold no place text two tokens are equal exactly when fit key and multiset of places are |
| FocusKeys.ColonlessKeyIsClean | src/pages/LiveOps.tsx:299 | a fit key without a colon holds no place text |
| FocusKeys.TokensAlikeIff | src/components/LiveOpsMap.tsx:171-180 | for every two keys of the page's form and any rows, equal tokens exactly for equal views, or when one key names, in order after a bar, the rows by which the other view is larger |
| FocusKeys.KeysShareTokenIff | src/components/LiveOpsMap.tsx:171-180 | two different keys of that form share a token for some rows exactly when one continues the other with texts of rows in ascending order, all sorted after it: a condition on the keys alone |
| FocusKeys.PageKeysFramed | src/pages/LiveOps.tsx:299 | every key the page builds has that form |
| FocusRuns.PageChangeMissedIff | src/pages/LiveOps.tsx:279-299 | for every two states of the page, search filter included, a change of view goes unnoticed exactly when one fit key names its rows |
| FocusRuns.PageCollision | src/pages/LiveOps.tsx:279-299 | it happens: a vehicle hidden by typing its place text, while another stays because its name holds that text |
| FocusRuns.FocusMemory.Decide | src/components/LiveOpsMap.tsx:447-461 | focus exactly when something is located and the token changed; a failed focus forgets the token |
| FocusRuns.RunUpdates | src/components/LiveOpsMap.tsx:447-461 | over any updates the map refocuses on the first located rows, after a failed focus, and otherwise exactly when the view changed and no fit key masks the change |
| RuleEditor.RuleEditor.StartEdit | src/components/FleetLiveAlertsPanel.tsx:360-411 | overwriting the fields one by one gives the draft `Open` describes |
| RuleEditor.BlankRoundTrip | src/components/FleetLiveAlertsPanel.tsx:413-431 | the draft of a new rule can be saved at once, is saved settled, and reopens as itself |
| RuleEditor.RuleEditor.SaveRule | src/components/FleetLiveAlertsPanel.tsx:472-523 | refusals in order; only an accepted save clears the draft |
| RuleEditor.CoerceIdempotent | src/components/FleetLiveAlertsPanel.tsx:117-131 | coercing a condition twice is coercing it once |
| RuleMeaning.CoercedRight | src/components/FleetLiveAlertsPanel.tsx:117-131 | an ignition is saved as a truth value, a text that is not blank and reads as a number as that number unless it is compared by `in` or `contains`, and every other value as it is |
| RuleMeaning.SavedRight | src/components/FleetLiveAlertsPanel.tsx:433-512 | the saved rule says what the draft said, field by field: seconds for minutes within the limits, scope, conditions, groups, and a branch for the draft itself and for each else-draft |
| RuleMeaning.OpenedRight | src/components/FleetLiveAlertsPanel.tsx:360-411 | the opened draft shows the rule, field by field: the nearest whole minutes, the first branch where there are branches, the others as else-drafts, and a proposed condition where a branch or group has none |
| RuleMeaning.RefusedRight | src/components/FleetLiveAlertsPanel.tsx:472-496 | a draft is refused for the first thing that is wrong with it and for nothing else |
| RuleEditor.SaveThenOpen | src/components/FleetLiveAlertsPanel.tsx:360-512 | opening what was saved gives back the draft itself exactly when there was nothing to round, clamp, coerce, fill in or leave out |
| RuleEditor.SaveOpenSave | src/components/FleetLiveAlertsPanel.tsx:360-512 | save, open, save gives the same rule exactly when minutes are whole, groups non-empty and, with else-branches, every branch has a direct condition |
| RuleEditor.OpenIsStable | src/components/FleetLiveAlertsPanel.tsx:360-411 | whatever the rule, the draft it opens as meets that condition |
| RuleEditor.OneRoundSettles | src/components/FleetLiveAlertsPanel.tsx:360-512 | so one open-and-save round settles any rule |
| RuleEditor.UnchangedRules | src/components/FleetLiveAlertsPanel.tsx:360-512 | opening and saving leaves a rule as it is exactly when its own fields are written as the editor writes them |
| RuleEditor.StableSavesSettled | src/components/FleetLiveAlertsPanel.tsx:360-512 | the condition on drafts and the condition on rules are one: a draft is saved as a settled rule exactly when it is stable |
| RuleEditor.ReopenedPasses | src/components/FleetLiveAlertsPanel.tsx:477-496 | a draft that could be saved can be saved again after reopening |
| RuleEditor.GroupOnlyBranchGainsCondition | src/components/FleetLiveAlertsPanel.tsx:386-405 | a branch of groups only gains the default condition as soon as there is an else-branch |
| RuleEditor.DisabledRuleIsEnabled | src/components/FleetLiveAlertsPanel.tsx:500-512 | a disabled rule never survives being opened and saved |

## Left out

- DaySkips.SkippedIsJobsWithoutRows: a sufficient condition on what the server sends; the exact condition is `DayTruth.SkippedKeysRightIff`.
- DayProgress.ProgressExact: a line whose peek gives another key than its parse is excluded, since such a key can go unheard; `DayTruth.ProgressIff` is the exact condition without that.
- LoadedTrips.InterleavingsAgreeIff: loads of more than 2560 fetched days have one direction for all days and the other for the days of the first eight chunks.
- Loads without the batch endpoint are modelled as their branch is written (api.ts:655-657), although no caller reaches it: line 706 has made the test of line 626 before.
- ApiGet.Get: network and JSON error texts are arbitrary strings, and an abort during a wait is not a separate outcome.
- FocusRuns.RunUpdates: for keys that no page builds, without a bar or beginning with a place text, the comparison is left to the tokens.
- FocusRuns.PageChangeMissedIff: `toLowerCase` and the other searched texts of a row are parameters; the rows are those the class filter lets through.
- LiveMarkers.LiveOpsMap.MarkerIcon: HTML escaping and icon anchors follow from the modelled parts and are left out; a theme does not change in the middle of one update.
- RuleEditor.SaveOpenSave: numbers are real numbers; an infinite duration or hysteresis typed by the user is not modelled, nor what the server changes in a rule it stores.
- SlimPoints.SlimmedPointsUnmarked: the parsing of the tracker's answer is a parameter; a body that is not JSON is an empty list.
- Pool.AllDoneOnReturn: a worker that rejects ends the pool and is not modelled.
- Aborts of a load: an aborted call returns nothing; what it leaves in the cache is covered.
- Exceptions from progress callbacks, and from spreading a very large row list into one push.
- Several loads at once over the shared caches and over `dayEndpoint`; the fallback from days to recordings in `loadTripsForUsers`.
- Decoding bytes to text, including the decoder's final flush; JSON parsing and row normalization, which are parameters.
- User ids are whole numbers; the enumeration of dates and of windows is a parameter.
- Stamps that are not dates: `Date.parse` is a total function of the stamp, so a comparison with NaN does not arise.
- Popups, geofence layers and the map movement that a focus performs.
- The remote evaluation of alert rules, and nested groups in rules written by other means, which the editor drops on opening.
- React rendering, native shells, dispatch, reports and stock panels.
