# KChat Drive data plane: a verified model

KChat Drive keeps each immutable blob in up to two places: a hot cache (L1, memory or
disk) and a durable object store (L2), with a status row per blob that says CACHED or
COMMITTED_DURABLE. This project models the stateful parts of that data plane and proves
what holds over whole runs and interleavings:

- `Pipeline*`: Write, Read with its background fill, Promote and Evict as a step system in
  which every access to the cache, the status table, the store or a singleflight map is a
  step, and faults, cancellation, automatic eviction and crashes strike anywhere. `Env` says
  what the surroundings may do; `PipelineShape` holds what every step leaves alone,
  `PipelineSafety` and `PipelineLimits` what is never lost and exactly when,
  `PipelineReports` what status rows say, `PipelineFlights` what waiters are told,
  `PipelineAlone` what each call does by itself, `PipelineFaults` what a failing access does,
  `PipelineReads` what reads answer, `PipelineCounts` what the counters count and
  `PipelineRecovery` promotion across crashes.
- `Singleflight`: the singleflight of restoreFromL2 with its separate writes, close and delete.
- `Multipart*`: the part reader, upload workers, waiter and collector of promoteMultipart, what
  they keep, how they end and what a cancellation leaves.
- `Lru*`, `MemoryCache`, `Disk*`, `CacheFileNames`: the two hot caches. `Lru` gives the
  bookkeeping as functions, the two classes refine it in place, `LruLaws`, `LruOrder`,
  `LruRuns`, `LruPuts` and `LruPins` prove what eviction removes and in which order, what every
  run keeps, what an entry owes to its Put and how much there can be,
  `DiskFiles`, `DiskWarm`, `DiskCache` and `DiskRuns` add the files, crashes, restart and the
  runs after it.
- `Breaker`, `BreakerSteps`, `BreakerAlone`, `BreakerReasons`, `BreakerWedge`,
  `RequestBracket`: the S3 circuit breaker with atomic methods, with every atomic access its
  own step, how the one refines the other, why a call answers as it does, when the
  interleavings wedge the breaker, and composed with the bracket around each request.
- `Versions`, `LocalProvider`, `VersionHistory`: the local provider's directories of sidecar
  files as a map from key to version stack.
- `Paging`, `Listings`: cursor paging through objects and multipart uploads, and the purge
  job's counting loop.
- `PromotionPool`: the promotion job's bounded worker pool.

Conventions. SHA-256 is a free injective constructor, so equal checksums mean equal bytes.
Strings are compared by code point, which agrees with Go's order of UTF-8 bytes. Clocks,
random names, fresh version IDs and the outcome of every I/O call are parameters. A run
lists its states and the action between each two; `Reachable` means some run ends there.
A crash of the pipeline keeps the status rows, as the Postgres store of the deployed gateway
does; the MemoryStatusStore of tests and dev mode would lose them. Integers are unbounded: sizes and counters in the modelled code stay far from 64 bits, and
part numbers from 32.

Where the code and its own comments differ, the model follows the code:

- promoteMultipart says that cancelling on return prevents goroutine leaks. It does so
  exactly when the body makes no more parts than the result channel holds
  (`MultipartLeaks.NoLeakExactlyForFewParts`).
- ListMultipartUploads says that paging is stable because uploads are sorted by
  (key, uploadID). Its cursor uses another order, and uploads are skipped for some keys
  (`Listings.PagingIsCompleteExactlyWithoutClash`).
- After a probe that ends in a client error the breaker never closes again
  (`RequestBracket.ClosableIff`). With the atomic accesses interleaved, the probe flag can be
  set in the closed state (`BreakerSteps.FlagMeansHalfOpenExactlyWithoutStrayTakes`), after
  which the next opening is for good (`BreakerWedge.NextOpeningIsForGood`), and an open
  breaker is wedged exactly by a take of the probe that comes after the half-open state has
  ended and is not cleared (`BreakerWedge.WedgedExactlyByAnUnclearedStrayTake`).
- MaxBytes bounds the evictable entries of a cache exactly when nothing can be pinned. The
  disk cache of the gateway has a hot region, where the least bound is twice MaxBytes; with
  a hot region of no bytes there is none (`LruPins.LeastBound`, `LruPins.BoundedExactlyWithHotLimit`).
- MarkDurable is said to record provider-verified metadata. It records what the upload
  reported, and an S3 CompleteMultipart whose HEAD fails reports size 0 and no checksum
  (`PipelineReports.RowsAreAccurateExactlyIfReportsAre`, `PipelineReports.BlankReportLeavesBlankRow`).
- A read that joins a restore is told what the restore's fetch saw, even if the blob was
  written, acknowledged and stored since then
  (`PipelineFlights.WaiterGetsTheBodyExactlyIfFetchedAfterStored`).
- A leader that panics returns success to its own caller while its waiters get the error
  (`Singleflight.EveryoneGetsWhatTheLeaderFetched`, `PipelineLimits.PanicLoses`).
- Promote's HEAD-skip path marks the row durable but leaves the cache entry non-evictable
  (`PipelineAlone.PromoteAlone`).
- PurgeAllVersions also removes every key below the purged one
  (`LocalProvider.PurgeSparesOthersExactlyWithoutSubkeys`).
- ListObjects lists a key whose newest version is a delete marker, as long as some older
  version is not one, and never lists a key with a slash
  (`Listings.AllLiveKeysListedExactlyWithoutSlashes`).
- hasAnyVersionLocked takes a directory whose name ends in .json for a version, so that an
  IfNoneMatch Put of the key above it is refused and a Delete of it succeeds
  (`LocalProvider.JsonSubkeyDeceives`).
- A disk-cache Put that fails to publish has already lost the entry it was to replace, and a
  Get that cannot open the body file drops the entry, protected or not.

`dafny verify dfyconfig.toml` checks everything.

## Model

| member | source | states |
|---|---|---|
| PipelineSafety.NothingIsEverLost | internal/blobio/pipeline.go:271-639 | in every interleaving of Write, Read, Promote, Evict, automatic eviction and crashes, an acknowledged body is in L1 as non-evictable or in the durable store, and a COMMITTED_DURABLE row is backed by a stored object with the written bytes, whatever the upload reported |
| PipelineSafety.ShippedCachesLoseNothing | internal/server/server.go:118-129 | that covers the gateway with a MemoryCache as long as the process lives, and the gateway with a DiskCache across crashes and failed publications when each ID is written once |
| PipelineSafety.StepInv | internal/blobio/pipeline.go:271-657 | every single step keeps the invariant behind it: what each blob's cache entry, row and versions may be, and what every call in progress may still do |
| PipelineSafety.ReadReturnsTheWrittenBytes | internal/blobio/pipeline.go:343-492 | in every reachable state, whatever an L1 hit, an L2 leader or a waiter returns is the bytes written under the ID, and a restore returns their checksum (that a hit returns, and when a read finds them, are the rows of PipelineReads) |
| PipelineSafety.AckedBlobIsFoundByItsLeader | internal/blobio/pipeline.go:343-470 | a read that began after the acknowledgement and missed the cache finds the body in the store when it leads the fetch (what a waiter gets is the row of PipelineFlights) |
| PipelineFlights.WaiterIsToldWhatTheFetchSaw | internal/blobio/pipeline.go:426-491 | in every run a waiter that does not give up is told exactly what the fetch of its flight saw, whatever happened since |
| PipelineFlights.WaiterGetsTheBodyExactlyIfFetchedAfterStored | internal/blobio/pipeline.go:422-492 | without a fault in the fetch, and for a body within the restore limit, a waiter gets the written body if and only if the object was stored before its flight's fetch |
| PipelineFlights.SomeFetch | internal/blobio/pipeline.go:449-488 | whatever a flight has to tell was fetched by an earlier step of its leader |
| PipelineFlights.WaiterCanMissAnAcknowledgedBlob | internal/blobio/pipeline.go:426-440 | whatever the surroundings, a read begun after the blob was acknowledged and stored can be told that there is no object |
| PipelineReports.RowsAreAccurateExactlyIfReportsAre | internal/blobio/pipeline.go:614-619 | in every run all durable rows have the body's size and checksum if and only if every mark after an upload had them to record |
| PipelineReports.BlankReportLeavesBlankRow | pkg/blobstore/s3/s3.go:610-638 | whatever the surroundings, a completion that reports nothing leaves a durable row of size 0 without checksum above the stored body |
| PipelineReports.HitReturnsTheRightChecksum | internal/blobio/pipeline.go:347-361 | the checksum that a cache hit returns is the body's or none, as long as every mark so far was right (which of them is the row of PipelineReads.HitReturnsTheCachedBody) |
| Pipeline.Restore | internal/blobio/pipeline.go:457-491 | a restore is never truncated, never longer than a positive limit, always matches the returned checksum, and fails exactly when it is too long or the reported checksum differs |
| PipelineLimits.NothingLostExactlyWhenSafe | internal/blobio/pipeline.go:271-639 | nothing acknowledged is lost in any run if and only if all the assumptions hold: no expiry, no Get that drops, no blind Evict, no panic, no other writer, one body per ID, Writes that come once if failed Puts drop, no crash if the cache dies with it |
| PipelineLimits.ExpiryLoses | pkg/hotcache/memory_cache.go:80-88 | with expiring entries an acknowledged blob can be lost |
| PipelineLimits.LossyPutLoses | pkg/hotcache/disk_cache.go:222-259 | with a cache whose failed Put drops the old entry, and a second Write of the same body, an acknowledged blob can be lost |
| PipelineLimits.LossyGetLoses | pkg/hotcache/disk_cache.go:166-176 | with a cache that drops an entry whose body it cannot open an acknowledged blob can be lost |
| PipelineLimits.BlindEvictLoses | internal/blobio/pipeline.go:912-926 | with Evict called while no row can be read an acknowledged blob can be lost |
| PipelineLimits.PanicLoses | internal/blobio/pipeline.go:440-447 | a panicking restore leader returns an empty body without error, which the fill then records as durable |
| PipelineLimits.OutsiderLoses | internal/blobio/pipeline.go:644-657 | with another writer of the same keys a durable row can lose its object |
| PipelineLimits.RewriteLoses | internal/blobio/pipeline.go:271-315 | with two bodies under one ID an acknowledged body can be lost |
| PipelineLimits.VolatileCacheLoses | internal/blobio/pipeline.go:283-315 | with a cache that does not survive a crash an acknowledged CACHED blob can be lost |
| PipelineShape.OnePromoterPerBlob | internal/blobio/pipeline.go:531-555 | at most one Promote per blob is between LoadOrStore and Delete, whatever the surroundings do |
| PipelineShape.WriterHolds | internal/blobio/pipeline.go:271-311 | when Writes come once, in every run a blob has at most one Write under way, and none while it is acknowledged |
| PipelineRecovery.AtMostOneVersion | internal/blobio/pipeline.go:578-657 | if HEAD never fails on a stored object, no crash, retry or lost reply ever adds a second version |
| PipelineRecovery.SingleVersionExactlyWhenHeadAnswers | internal/blobio/pipeline.go:578-657 | single versions hold in every run if and only if HEAD never fails on a stored object |
| PipelineRecovery.RerunThatSucceedsIsDurable | internal/blobio/pipeline.go:531-657 | in every run, a Promote begun after a crash that is about to return success has the written bytes stored, saw its row COMMITTED_DURABLE since the crash, and, if HEAD never fails on a stored object, added no version to one published before |
| PipelineRecovery.PromoteCommits | internal/blobio/pipeline.go:557-639 | in every reachable state with a row and a copy in which nobody promotes the blob, one Promote, alone and without faults, succeeds and leaves the row COMMITTED_DURABLE and the written bytes stored; a cached copy stays as it was, or evictable if the upload was made now |
| PipelineRecovery.RerunAfterCrash | internal/blobio/pipeline.go:557-657 | crash in any reachable state with a row and a copy: from the crashed state one Promote, alone and without faults, answers success with the row COMMITTED_DURABLE and the written bytes stored, adds no version if one had been published, and otherwise leaves the cached entry to the automatic eviction |
| PipelineAlone.PromoteAlone | internal/blobio/pipeline.go:531-639 | whatever the surroundings and the state, if nobody promotes the blob: what one Promote by itself, without faults, answers, and what it leaves of row, cache entry, versions and counters, in each case (no row, durable row, object found by HEAD, nothing cached, body refused, uploaded) |
| PipelineAlone.ReadAlone | internal/blobio/pipeline.go:343-492 | the same for Read: a hit answers the cached body with the row's checksum and changes nothing; a miss answers the current version with its checksum if it may be restored and leaves it cached, evictable, with a durable row; otherwise an error and no change |
| PipelineAlone.WriteAlone | internal/blobio/pipeline.go:271-315 | an asynchronous Write by itself leaves the body cached and protected, the row CACHED with its length and checksum, no new version, and the body acknowledged |
| PipelineAlone.SyncWriteAlone | internal/blobio/pipeline.go:271-315 | a synchronous Write by itself succeeds with the row COMMITTED_DURABLE: if HEAD finds an object of that size and checksum it adds no version and leaves the cached body protected, otherwise the body becomes a new version and its entry evictable |
| PipelineAlone.EvictAlone | internal/blobio/pipeline.go:912-926 | Evict by itself removes the cache entry and nothing else, or refuses and changes nothing, exactly when the row says CACHED |
| PipelineReads.HitReturnsTheCachedBody | internal/blobio/pipeline.go:343-363 | in every run, whatever happens in between: a read that finds its blob cached returns at its next step exactly the body that was cached when it looked, with the row's checksum if the row can be read, and ends without changing the blob |
| PipelineReads.MissGoesOn | internal/blobio/pipeline.go:364-373 | in every run a read that finds its blob not cached goes on to the durable store |
| PipelineReads.AckedReadReturnsTheBody | internal/blobio/pipeline.go:343-492 | in every reachable state in which nobody restores the blob, a read of an acknowledged blob, by itself and without faults, returns the written bytes exactly if they are cached or within the restore limit |
| PipelineReads.AckedExactlyWhenAnswered | internal/blobio/pipeline.go:271-315 | a body counts as acknowledged from exactly the step at which its Write answers success |
| PipelineFaults.FaultsKeepTheStores | internal/blobio/pipeline.go:271-639 | in any state a failing access changes nothing but the cache entry that the disk cache may drop and the version that a lost answer leaves behind: no fault marks, acknowledges, protects or releases anything |
| PipelineFaults.FaultsFailOrLookLikeAbsence | internal/blobio/pipeline.go:271-639 | in any state a failing access either fails its call, or (for the HEAD, the re-put after an upload, a fetch, a fill, the check before an eviction, and a disk cache's Get in a read) the call goes on exactly as if nothing were stored about the blob |
| PipelineFaults.FillRecordsTheRow | internal/blobio/pipeline.go:376-407 | in every run a background fill that is not cancelled records its body as durable if it can write the row, whether or not it could cache the body |
| PipelineFaults.WaitersMayLeave | internal/blobio/pipeline.go:429-439 | a call that waits for another's result may be cancelled at any time, and leaves with an error and without a trace |
| PipelineCounts.EachCounterCountsItsEvents | internal/blobio/pipeline.go:557-639 | in every run without panics, with no promote in flight: attempts counts the leaders that began, successes the uploads marked in their row, skipped the rows found durable and the objects found by HEAD, failures the leaders that returned an error, each since the process started |
| PipelineCounts.CountersBalanceAtRest | internal/blobio/pipeline.go:557-639 | with no promote in flight and no panics, successes + failures + skipped = attempts + HEAD-skips whose MarkDurable failed |
| Singleflight.StepInv | internal/blobio/pipeline.go:422-492 | every access keeps: a leader is registered for its blob, its record holds exactly what it has written so far, and a finished record never changes |
| Singleflight.OneLeaderPerBlob | internal/blobio/pipeline.go:422-440 | at most one call per blob is between LoadOrStore and Delete |
| Singleflight.WaiterReturnsItsLeadersReply | internal/blobio/pipeline.go:426-447 | an uncancelled waiter answers with its leader's whole reply for the same blob; only a panic is told to the waiters and not to the leader's caller |
| Singleflight.EveryoneGetsWhatTheLeaderFetched | internal/blobio/pipeline.go:440-491 | in every run, once a leader has fetched: it returns the body and metadata it fetched, or its fault, or after a panic nothing and no error; every waiter on it returns what it fetched, its fault, or that it panicked |
| Singleflight.NoWaiterIsLeftWaiting | internal/blobio/pipeline.go:426-447 | the leader of a blocked waiter is still on its way, can always move, comes nearer to its end with each move, and once it has closed the call the waiter can go on |
| MultipartSafety.StepInv | internal/blobio/pipeline.go:753-896 | every channel operation, upload, check and fault keeps: what was read and what is left make up the body, no part sent is dropped, and unless an upload failed everything reported is staged with its bytes |
| MultipartSafety.SuccessIsTheWholeBody | internal/blobio/pipeline.go:702-896 | success means the list was parts 1..n in order, the stored object is the whole body, its checksum is the recorded one, and no abort was issued |
| MultipartSafety.FailureAbortsOnce | internal/blobio/pipeline.go:719-732 | any other exit issues exactly one abort if the upload was created, none otherwise, and has stored nothing, or the whole body when the reply to the completion was lost |
| MultipartSafety.AllCollected | internal/blobio/pipeline.go:843-852 | when workersDone wins the select and the channel is drained, the results are exactly the parts sent |
| MultipartSafety.WholeBody | internal/blobio/pipeline.go:857-890 | when everything was read and drained, the gapless staged parts assemble to the body |
| MultipartSafety.AssembleRead | pkg/blobstore/local_fs_dev/local.go:436-465 | assembling staged parts 1..n in list order gives the bytes that were read |
| MultipartList.CompletedParts | internal/blobio/pipeline.go:861-879 | the two loops return the list 1..n exactly when the part numbers have no gap, and fail otherwise |
| MultipartProgress.RunsAreFinite | internal/blobio/pipeline.go:753-896 | every run, with any faults, has at most 10 times the body length plus the parallelism plus 8 steps |
| MultipartProgress.NeverStuck | internal/blobio/pipeline.go:753-856 | in every state with the invariant in which promoteMultipart has not returned some goroutine can move |
| MultipartProgress.FaultlessRunSucceeds | internal/blobio/pipeline.go:753-896 | if nothing fails and nobody cancels, a run that cannot go on has returned success with the body stored |
| MultipartOutcome.CompletionDecides | internal/blobio/pipeline.go:857-896 | once the workers are gone and the results drained, promoteMultipart succeeds exactly if everything was read, the checksum is the recorded one and the completion is confirmed; the body is in the store exactly if the completion was not refused; no part is ever missing |
| MultipartOutcome.PartsAreFull | internal/blobio/pipeline.go:785-821 | every part read is full but perhaps the last one of the body, and a short part is not followed by another read |
| MultipartOutcome.CancelStopsTheWork | internal/blobio/pipeline.go:753-815 | in every run, once the context is cancelled no upload is begun, and at most the part being read is still read |
| MultipartLeaks.NoLeakExactlyForFewParts | internal/blobio/pipeline.go:703-777 | every goroutine ends in every run if and only if the body makes no more parts than the parallelism, plus one when the caller cannot cancel |
| MultipartLeaks.FewPartsNoLeak | internal/blobio/pipeline.go:753-776 | with so few parts every run that cannot go on has the reader and all workers gone |
| MultipartLeaks.AbandonedForever | internal/blobio/pipeline.go:765-774 | a worker facing a full result channel after the return is still there when nothing else can move |
| MultipartLeaks.PartsRoundsUp | internal/blobio/pipeline.go:785-821 | the number of parts is the body length over the part size, rounded up |
| Breaker.CircuitBreaker.constructor | pkg/blobstore/s3/circuit_breaker.go:56-69 | a new breaker is closed, with the defaults for a threshold below one or a timeout not above zero |
| Breaker.CircuitBreaker.AllowRequest | pkg/blobstore/s3/circuit_breaker.go:80-131 | told from the history of calls alone: admits everything while closed, nothing after an opening until the reset timeout is over, then the first request, and then nothing until an outcome is recorded; refines the three-phase machine and keeps: flag set exactly when half-open, closed below threshold |
| Breaker.HistoryDecides | pkg/blobstore/s3/circuit_breaker.go:80-175 | the machine's phase after any history of calls is what the calls alone say: closed since a success that ended a probe or the start, open since the failure that reached the threshold or ended a probe, or half-open since the first Allow after the timeout |
| Breaker.HistoryCoversAll | pkg/blobstore/s3/circuit_breaker.go:80-175 | every history ends in one of these three |
| Breaker.NeverTripped | pkg/blobstore/s3/circuit_breaker.go:153-175 | a history without a run of threshold failures leaves the breaker closed throughout |
| Breaker.CircuitBreaker.RecordSuccess | pkg/blobstore/s3/circuit_breaker.go:136-148 | refines the machine's success event and keeps the invariant |
| Breaker.CircuitBreaker.RecordFailure | pkg/blobstore/s3/circuit_breaker.go:153-175 | refines the machine's failure event and keeps the invariant |
| Breaker.ClosedCountsTrailingFailures | pkg/blobstore/s3/circuit_breaker.go:136-175 | over every history a closed breaker's count is the run of failures since the last success, below threshold |
| Breaker.OpensExactlyAtThreshold | pkg/blobstore/s3/circuit_breaker.go:162-173 | it leaves the closed phase exactly at the failure that brings that run to the threshold |
| Breaker.OpenRemembersLastOpening | pkg/blobstore/s3/circuit_breaker.go:153-173 | an open breaker holds the time of its last opening |
| Breaker.EpisodeAdmitsExactlyOne | pkg/blobstore/s3/circuit_breaker.go:84-131 | each half-open episode admits exactly one request, its first event, no earlier than the reset timeout after opening |
| BreakerSteps.InvStep | pkg/blobstore/s3/circuit_breaker.go:80-175 | with every atomic access and lock its own step: the mutex is held exactly by the thread between Lock and Unlock, and a thread about to take the probe sees the flag clear |
| BreakerAlone.AllowAlone | pkg/blobstore/s3/circuit_breaker.go:80-131 | access by access, an Allow that nobody interrupts admits exactly when the reference machine does and leaves the fields of its next phase, the lock free and every other thread where it was |
| BreakerAlone.SuccessAlone | pkg/blobstore/s3/circuit_breaker.go:136-148 | the same for RecordSuccess |
| BreakerAlone.FailureAlone | pkg/blobstore/s3/circuit_breaker.go:153-175 | the same for RecordFailure |
| BreakerReasons.EveryAnswerHasAReason | pkg/blobstore/s3/circuit_breaker.go:80-131 | in every interleaving an Allow that admits has found the breaker closed or has itself put the probe in flight, and one that refuses has found a probe in flight or the reset timeout not over |
| BreakerSteps.AtMostOneTakeBetweenClears | pkg/blobstore/s3/circuit_breaker.go:92-160 | in every interleaving two takes of the probe have a clear between them |
| BreakerSteps.ProbeSurvives | pkg/blobstore/s3/circuit_breaker.go:92-160 | without a clear in between, a probe once taken is still in flight |
| BreakerSteps.FlagMeansHalfOpenExactlyWithoutStrayTakes | pkg/blobstore/s3/circuit_breaker.go:80-175 | in every run, whenever no thread is in the middle of an update a set flag means half-open, if and only if no Allow takes the probe at line 127 outside half-open |
| BreakerSteps.ClosedWithProbeIsReachable | pkg/blobstore/s3/circuit_breaker.go:81-143 | for every configuration the flag can be set in the closed state with no call in progress: an Allow that read half-open takes the probe after RecordSuccess cleared it |
| BreakerSteps.WedgeIsReachable | pkg/blobstore/s3/circuit_breaker.go:81-160 | for every configuration the same happens after RecordFailure, leaving an open breaker with the flag set and nobody calling |
| BreakerWedge.WedgedExactlyByAnUnclearedStrayTake | pkg/blobstore/s3/circuit_breaker.go:80-175 | a run that ends open, with no call in progress or only harmless ones, ends wedged if and only if some take at line 127 outside half-open has no clear after it |
| BreakerWedge.LastTakeIsStray | pkg/blobstore/s3/circuit_breaker.go:117-160 | whenever the flag is set outside half-open and nobody is in the middle of an update, the take that set it was such a one |
| BreakerWedge.NextOpeningIsForGood | pkg/blobstore/s3/circuit_breaker.go:80-175 | from closed with the flag set and no call in progress, in every run the breaker is never half-open, and from the first open state on it stays open and admits nobody |
| BreakerSteps.WedgedForever | pkg/blobstore/s3/circuit_breaker.go:80-175 | from there no later call at any time opens the way: the breaker stays open and admits nobody |
| RequestBracket.HalfOpenRefusesUntilRecorded | pkg/blobstore/s3/s3.go:285-337 | a half-open breaker refuses every request until one admitted earlier records its outcome |
| RequestBracket.ClosableIff | pkg/blobstore/s3/s3.go:285-337 | from any state it can return to closed if and only if it is not half-open with nobody in flight |
| RequestBracket.RecordedOutcomesKeepItClosable | pkg/blobstore/s3/s3.go:364-382 | if requests end only in success or server error, closed stays reachable by such requests from every reachable state |
| RequestBracket.ClientErrorOnProbeTrapsBreaker | pkg/blobstore/s3/s3.go:1184-1189 | for every configuration a probe that ends in a client error leads to a state from which it never closes |
| RequestBracket.ProbeOutcomeDecides | pkg/blobstore/s3/s3.go:285-382 | a lone probe that succeeds closes the breaker, throttling, a version mismatch, an ambiguous timeout and a network error reopen it, and exactly the other outcomes, among them a request never sent, leave it where it never closes |
| RequestBracket.LostProbeIsForever | pkg/blobstore/s3/s3.go:285-337 | half-open with nobody in flight is never left and admits nobody |
| LruLaws.EvictMainRemovesShortestRun | pkg/hotcache/memory_cache.go:198-221 | evictMain removes exactly the shortest oldest-first run of evictable candidates that makes the blob fit; survivors keep order and entries |
| LruLaws.EvictHotRemovesShortestRun | pkg/hotcache/memory_cache.go:223-240 | evictHot does the same to the hot list against its own limit |
| LruLaws.HotTouchedOnlyWhenMainEmpty | pkg/hotcache/memory_cache.go:198-221 | evictMain touches the hot list only once main is completely empty |
| LruLaws.ShortestIsLeast | pkg/hotcache/memory_cache.go:202-220 | the run it takes frees enough or is everything, and no shorter run frees enough |
| LruLaws.MainRound | pkg/hotcache/memory_cache.go:202-220 | each round of the loop finds the next of those candidates at the back of the list it looks at |
| LruOrder.EvictsLeastRecentlyUsed | pkg/hotcache/memory_cache.go:135-240 | in every run an operation makes room by evicting an entry only if it also evicts every evictable entry of the same list that was used less recently |
| LruOrder.PutTakesNoMoreThanItMust | pkg/hotcache/memory_cache.go:135-240 | besides the old entry of its blob a Put evicts no more than makes a pinned blob fit into the hot region and the blob into the cache: without the last entry that went it would not have fitted |
| LruPuts.PutStores | pkg/hotcache/memory_cache.go:112-174 | an accepted Put leaves the blob cached at the front of its list with the bytes, size, hash, protection and pin asked for, and a Get at any time hits exactly if the option's TTL, else the policy's, is not over |
| LruPuts.CachedAsLastPut | pkg/hotcache/memory_cache.go:69-174 | in every run of a new cache an entry is what the last accepted Put of its blob asked for, nothing has removed it since, and its hits and time of use count the lookups since |
| LruPuts.ProtectedStays | pkg/hotcache/memory_cache.go:69-256 | in every run a blob put with NonEvictable stays cached and protected, as it was put, until another Put of it is accepted, it is removed, or a Get finds it expired |
| LruRuns.RunValid | pkg/hotcache/memory_cache.go:69-256 | in every run of cache operations, from any consistent cache, the index is the disjoint union of the two lists and both byte counters are exact sums |
| LruRuns.ListOrderIsOrderOfLastUse | pkg/hotcache/memory_cache.go:90-94 | after every run, from any cache in such an order, both lists are in the order of last Put or Get |
| LruRuns.ProtectedLeavesOnlyByItsOwnOp | pkg/hotcache/memory_cache.go:69-256 | a non-evictable entry leaves only by an operation on that blob, and by Get only if it has expired |
| LruRuns.EvictableBytesNeverExceedLimit | pkg/hotcache/memory_cache.go:135-256 | in plain LRU mode, from any cache that fits, the evictable entries never hold more than MaxBytes together |
| LruPins.EvictableBytesWithPins | pkg/hotcache/memory_cache.go:135-256 | with a hot region, in every run the evictable main entries keep within MaxBytes and the evictable pinned ones within MaxBytes, the hot limit or what was there before, whichever is most |
| LruPins.PinnedBytesFitHotRegion | pkg/hotcache/memory_cache.go:156-240 | in every run that starts so, or has pinned a blob, the evictable pinned entries fit into the hot region or there is only one of them |
| LruPins.WithinLimitExactlyWithoutPins | pkg/hotcache/memory_cache.go:135-240 | evictable entries keep within MaxBytes together in every run of a new cache if and only if nothing can be pinned |
| LruPins.LeastBound | pkg/hotcache/memory_cache.go:135-240 | with a hot region within MaxBytes, a number bounds the evictable bytes of every run if and only if it is at least twice MaxBytes |
| LruPins.BoundedExactlyWithHotLimit | pkg/hotcache/memory_cache.go:198-240 | evictable bytes are bounded at all if and only if nothing can be pinned or the hot list has a limit |
| DiskRuns.ListOrderAfterRestart | pkg/hotcache/disk_cache.go:316-349 | every run after a restart keeps both lists in the order of last use, where blobs not used since rank by the order of storing |
| DiskRuns.RestartOrdersByPut | pkg/hotcache/disk_cache.go:316-349 | after a restart both lists are in the order of the last Puts: of two blobs in the same list, however they were used in between, the one put earlier stands nearer the back |
| DiskRuns.WarmedFits | pkg/hotcache/disk_cache.go:343-347 | in plain LRU mode a restart brings the evictable bytes down to MaxBytes |
| DiskRuns.EvictableBytesFitAfterRestart | pkg/hotcache/disk_cache.go:316-371 | and every run after it keeps them there |
| DiskRuns.PinnedBytesAfterRestart | pkg/hotcache/disk_cache.go:316-390 | with a hot region, as the gateway configures it: every run after a restart keeps the evictable main entries within MaxBytes and the pinned ones within MaxBytes, the hot limit or what the restart brought back; once a blob has been pinned they fit into the hot region or are just one |
| MemoryCache.MemoryCache.Get | pkg/hotcache/memory_cache.go:69-110 | returns the stored bytes exactly for a cached, unexpired entry; the fields become the specification's Get, and stay consistent |
| MemoryCache.MemoryCache.Put | pkg/hotcache/memory_cache.go:112-174 | succeeds exactly when nothing is too big or unreadable; then the entry has the bytes, length, hash, protection, pin and expiry asked for and the fields become the specification's Put, otherwise nothing changes |
| MemoryCache.MemoryCache.Evict | pkg/hotcache/memory_cache.go:176-185 | drops the entry and nothing else |
| MemoryCache.MemoryCache.EvictMainLocked | pkg/hotcache/memory_cache.go:198-221 | the loop computes the specification's EvictMain |
| MemoryCache.MemoryCache.EvictHotLocked | pkg/hotcache/memory_cache.go:223-240 | the loop computes the specification's EvictHot |
| MemoryCache.MemoryCache.RemoveLocked | pkg/hotcache/memory_cache.go:242-256 | takes the entry out of its list, the index and the counters |
| DiskCache.DiskCache.Open | pkg/hotcache/disk_cache.go:90-122 | from any crash-consistent files: the index, lists and counters are the specification's warmed cache, the files are exactly those of the indexed blobs, no temporary file is left, and on the way no file of a protected, unexpired blob was touched |
| DiskCache.DiskCache.Scan | pkg/hotcache/disk_cache.go:475-525 | leaves the files of the complete blobs and no others, and returns those blobs oldest first |
| DiskCache.DiskCache.Adopt | pkg/hotcache/disk_cache.go:324-342 | indexes the unexpired blobs, oldest first, and removes the files of the expired ones |
| DiskCache.DiskCache.Get | pkg/hotcache/disk_cache.go:125-180 | a hit returns the body of the Put that wrote its metadata; an entry that cannot be opened is dropped; every state of the disk stays restartable |
| DiskCache.DiskCache.Stage | pkg/hotcache/disk_cache.go:183-219 | before the lock only a temporary file of its own changes, and it is gone again if the copy fails or is too big |
| DiskCache.DiskCache.Commit | pkg/hotcache/disk_cache.go:220-272 | under the lock: success is the specification's Put with the staged bytes as the body file, an entry with the hash, protection, pin and expiry asked for, and metadata that say so; a failure to publish leaves what making room left; every state of the disk in between is restartable; of the temporary files only its own is gone, so what other Puts have staged is still there |
| DiskCache.DiskCache.Publish | pkg/hotcache/disk_cache.go:245-259 | body first, metadata second: on success the files describe the new entry, on failure they are as before, and no other blob's files are touched |
| DiskCache.DiskCache.WriteMeta | pkg/hotcache/disk_cache.go:444-473 | replaces the metadata file by rename or leaves it as it was |
| DiskCache.DiskCache.Evict | pkg/hotcache/disk_cache.go:275-284 | drops the entry with its two files and nothing else; every temporary file stays |
| DiskCache.DiskCache.RemoveLocked | pkg/hotcache/disk_cache.go:392-407 | the entry goes, then its body, then its metadata, each state restartable |
| DiskCache.DiskCache.EvictMainLocked | pkg/hotcache/disk_cache.go:351-371 | the loop computes the specification's EvictMain and removes the victims' files |
| DiskCache.DiskCache.EvictHotLocked | pkg/hotcache/disk_cache.go:373-390 | the loop computes the specification's EvictHot and removes the victims' files |
| DiskFiles.OpConsistent | pkg/hotcache/disk_cache.go:220-271 | a file operation keeps "body and metadata on disk come from one Put", given what Put does before each rename |
| DiskWarm.CrashThenRestart | pkg/hotcache/disk_cache.go:316-349 | die in any state the disk passed through and restart: every entry has body and metadata of the same Put, and both byte counters are the real lengths of the bodies |
| DiskWarm.RestartKeepsEntries | pkg/hotcache/disk_cache.go:316-349 | a cache closed in order comes back with exactly its unexpired entries, each as it was but for the time of last use and the hits, which are those of its metadata (a crash inside an operation is the next row) |
| DiskWarm.ProtectedSurvivesCrash | pkg/hotcache/disk_cache.go:220-349 | die in any state of the disk during one operation and restart: every protected, unexpired entry of another blob comes back with the body and metadata it had |
| DiskWarm.ProtectedSurvivesRestarts | pkg/hotcache/disk_cache.go:316-349 | die while restarting, in any state of the disk and any number of times in a row, and restart: every protected entry that none of the restarts found expired comes back with the body and metadata it had |
| DiskWarm.AdoptedIndex | pkg/hotcache/disk_cache.go:324-342 | exactly the unexpired blobs come back, with the entries their metadata describes |
| CacheFileNames.ScanReadsBack | pkg/hotcache/disk_cache.go:429-505 | the start-up scan recognises every body, metadata and temporary file the cache writes, and recovers the blob ID |
| CacheFileNames.PathsAreDistinct | pkg/hotcache/disk_cache.go:425-442 | different blobs never share a path, and a body is never a metadata file |
| Versions.RemoveUndoesInsert | pkg/blobstore/local_fs_dev/local.go:304-322 | DeleteVersion of a version or marker just written gives back the stack, whatever the clock did |
| Versions.RemovingTopShowsBelow | pkg/blobstore/local_fs_dev/local.go:790-803 | DeleteVersion of the newest version re-exposes the stack below it |
| Versions.OrderedUnique | pkg/blobstore/local_fs_dev/local.go:947-969 | sorting by write time determines the list, whatever order the directory is read in |
| LocalProvider.ValidKeysStayBelowRoot | pkg/blobstore/local_fs_dev/local.go:73-108 | the path of a valid key, wherever the root is, is the root followed by the key's segments; no key with an empty, "." or ".." segment has such a path |
| LocalProvider.ValidKeysHaveOwnDirectories | pkg/blobstore/local_fs_dev/local.go:73-108 | two valid keys never share a directory |
| LocalProvider.BelowIsPathPrefix | pkg/blobstore/local_fs_dev/local.go:325-342 | one key's directory lies in another's exactly if the other's path is a prefix of its path |
| LocalProvider.LineageIsThePath | pkg/blobstore/local_fs_dev/local.go:142-145 | the directories MkdirAll makes for a key are exactly those whose path is a prefix of the key's |
| LocalProvider.DeceivedByJsonDirs | pkg/blobstore/local_fs_dev/local.go:933-945 | a key without versions counts as stored exactly if there is a directory x.json directly below it |
| LocalProvider.Slice | pkg/blobstore/local_fs_dev/local.go:262-292 | a ranged read gives byte for byte the range asked for, to the last byte if the end is negative or too large, and refuses exactly a range without bytes |
| LocalProvider.Provider.ListVersions | pkg/blobstore/local_fs_dev/local.go:947-969 | reading the sidecars in any order and sorting gives the key's stack |
| LocalProvider.Provider.HasAnyVersion | pkg/blobstore/local_fs_dev/local.go:933-945 | true exactly when the key's stack is not empty or a directory lies directly below the key whose name ends in .json |
| LocalProvider.JsonSubkeyDeceives | pkg/blobstore/local_fs_dev/local.go:137-141 | a key without versions above a directory x.json counts as stored, and an IfNoneMatch Put of it is refused that its empty stack would admit |
| LocalProvider.Provider.Put | pkg/blobstore/local_fs_dev/local.go:127-208 | refuses with the error of the first failing check, each only for its own reason, and changes no stack, or adds the version to its key's stack and to no other; what it stores has the length and checksum asked for, an IfNoneMatch is met, and with a clock that moved forward it is the version readers see; past the first two checks the directories of the key are made, and stay whatever happens then |
| LocalProvider.Provider.Head | pkg/blobstore/local_fs_dev/local.go:211-226 | answers the newest version, or NotFound when there is none or it is a marker |
| LocalProvider.Provider.Get | pkg/blobstore/local_fs_dev/local.go:230-292 | answers the bytes of the newest or the named version, or the requested range of them, with the error cases |
| LocalProvider.Provider.Delete | pkg/blobstore/local_fs_dev/local.go:304-322 | NotFound exactly when the key does not count as stored, otherwise adds a marker; no body, directory or other key changes |
| LocalProvider.Provider.DeleteVersion | pkg/blobstore/local_fs_dev/local.go:790-803 | removes the version from its stack, silently if it is not there; a failure after the sidecar is gone has removed it |
| LocalProvider.Provider.Purge | pkg/blobstore/local_fs_dev/local.go:325-342 | empties the key and every key below it, with their directories |
| LocalProvider.HasDirectory | pkg/blobstore/local_fs_dev/local.go:137-145 | in every consistent state a key that counts as stored has a directory |
| LocalProvider.PurgeSparesOthersExactlyWithoutSubkeys | pkg/blobstore/local_fs_dev/local.go:325-342 | Purge changes no other key if and only if no stored key lies below the purged one |
| VersionHistory.StackIsWhatSurvives | pkg/blobstore/local_fs_dev/local.go:127-342 | over every history with a forward clock, a key's stack is the versions written and not removed since, in order |
| VersionHistory.ReaderSeesLastSurvivor | pkg/blobstore/local_fs_dev/local.go:211-255 | Head and Get answer with the last write not removed since, or NotFound if that was a Delete |
| VersionHistory.NothingLeftIsNotFound | pkg/blobstore/local_fs_dev/local.go:211-255 | a key of which nothing is left is not found |
| VersionHistory.ReaderSeesLatestTime | pkg/blobstore/local_fs_dev/local.go:947-999 | over every history, whatever the clock did, Head and Get answer with a version if and only if it was a Put that survives and no surviving Put or Delete of the key has a later write time |
| Paging.FollowsWhole | pkg/blobstore/local_fs_dev/local.go:751-768 | following the cursors through a list in cursor order gives the whole list, in order, for every page size |
| Paging.AfterShrinks | pkg/blobstore/local_fs_dev/local.go:848-868 | each cursor leaves strictly fewer items, so following the cursors always ends |
| Paging.FollowIsThePages | pkg/blobstore/local_fs_dev/local.go:751-768 | what a caller sees who follows the cursors is the pages one after another, up to the first without a cursor; a cursor is that of its page's last item |
| Listings.OrdersAgreeUnlessClash | pkg/blobstore/local_fs_dev/local.go:841-852 | the (key, uploadID) order and the "key/uploadID" order agree on two uploads if and only if the first key is not a proper prefix of the second continued by a character below '/' |
| Listings.PagingIsCompleteExactlyWithoutClash | pkg/blobstore/local_fs_dev/local.go:809-869 | for every page size, each upload under a set of slash-free keys is listed exactly once, for all uploads, if and only if no two keys clash in that way |
| Listings.NoClashListsAll | pkg/blobstore/local_fs_dev/local.go:809-869 | without a clash the pages are the sorted list, cut |
| Listings.ClashHidesUploads | pkg/blobstore/local_fs_dev/local.go:848-868 | with a clash a full page under the one key hides the upload under the other |
| Listings.HyphenHidesAnUpload | pkg/blobstore/local_fs_dev/local.go:848-868 | uploads under "a" and "a-b" with pages of one: the second is never listed |
| Listings.FoundTimes | pkg/blobstore/local_fs_dev/local.go:809-840 | the scan finds every upload directory under a key that starts with the prefix, as often as it is there, and no other |
| Listings.UploadsListedExactly | pkg/blobstore/local_fs_dev/local.go:809-869 | for keys that do not clash, following the cursors shows exactly the upload directories under the prefix, each as often as it is there, for every page size |
| Listings.ListUploads | pkg/blobstore/local_fs_dev/local.go:809-869 | for any prefix, cursor and limit the loops return the page and cursor of the specification: only upload directories under the prefix that are above the cursor, all of them if there is no next cursor, and a full page ending at the next cursor otherwise |
| Listings.CountUploads | internal/worker/jobs.go:300-322 | the purge loop ends for all inputs and returns the number of uploads seen by following the cursors, which for keys that do not clash is the number of upload directories |
| Listings.CountIsExact | internal/worker/jobs.go:300-322 | for keys that do not clash, following the cursors in pages of 1000 shows as many uploads as there are upload directories |
| Listings.ListObjects | pkg/blobstore/local_fs_dev/local.go:723-769 | over the provider's own versions: the loop, sort and clamp return the page and cursor of the specification; truncated exactly when there is a cursor, and then the page has as many keys as asked for, or 1000 if that is more or not positive |
| Listings.LatestNonDeleteMarker | pkg/blobstore/local_fs_dev/local.go:992-999 | the newest version that is no marker, or none exactly when all are |
| Listings.ObjectPagingIsComplete | pkg/blobstore/local_fs_dev/local.go:723-769 | following the cursors lists every shown key exactly once, in order, for every page size |
| Listings.ListedExactly | pkg/blobstore/local_fs_dev/local.go:723-769 | a key is listed if and only if it has no slash, starts with the prefix and has a version that is no delete marker |
| Listings.AllLiveKeysListedExactlyWithoutSlashes | pkg/blobstore/local_fs_dev/local.go:723-769 | every live key under the prefix is listed if and only if none of them has a slash |
| Listings.SkipThenSort | pkg/blobstore/local_fs_dev/local.go:739-751 | skipping up to the cursor before sorting is the same as after it |
| PromotionPool.EveryPlacementGetsOneResult | internal/worker/jobs.go:98-156 | when the batch is collected every placement has exactly one result, promoted + failed is the batch length, and all workers are gone |
| PromotionPool.ResultsAreWhatPromoteSaid | internal/worker/jobs.go:114-156 | when the batch is collected a placement is reported promoted exactly if its Promote returned no error, and failed exactly if its Promote returned one or its worker found the batch cancelled; each is settled once |
| PromotionPool.EachIsPromotedOnce | internal/worker/jobs.go:98-156 | a batch that is not cancelled promotes every placement exactly once |
| PromotionPool.TakenInOrder | internal/worker/jobs.go:111-140 | workers take the placements in the order of the batch |
| PromotionPool.StepInv | internal/worker/jobs.go:111-156 | every step keeps each placement fed so far in exactly one place, and the counters |
| PromotionPool.SendsNeverBlock | internal/worker/jobs.go:111-134 | no send on either channel of a reachable state waits |
| PromotionPool.NeverStuck | internal/worker/jobs.go:114-156 | until the batch is done some goroutine can move |
| PromotionPool.BatchesAreFinite | internal/worker/jobs.go:98-156 | a batch of n placements ends within 6n plus the parallelism plus 4 steps |

## Left out

- HTTP handlers, request decoding and the chat storage API: plumbing around the modelled parts.
- The metadata store, the outbox and the deduplication table: their state and locking live in Postgres.
- Real S3 calls, classification of S3 errors by message, and S3 version listing: behaviour of a remote service; only the breaker bracket and the client-error test are modelled.
- Retention, legal hold, UpdateRetention and SetLegalHold: settled by reading one function each; local CompleteMultipart takes retention from the complete request, which promoteMultipart leaves empty.
- CopyWithinProvider, ListObjectVersions, ListParts, DeleteBatch: a Put of bytes already stored, two unpaged listings and a loop over DeleteVersion.
- Cache statistics, log lines and metrics: they feed no decision.
- The float product that gives hotLimit: hotLimit is any natural number.
- SHA-256, hex, JSON and fsync: abstract; file operations take effect in program order and removals succeed, except where a fault is named in a signature.
- Part buffers and their pool in promoteMultipart: a part's bytes are a value, so reuse of a buffer by another part is not modelled.
- Concurrent changes between two pages of a listing: the listed set is fixed while the cursors are followed.
- Names that files and directories of a key share by chance: a version ID is taken to differ from every directory name below its key, and no key to lie below _multipart.
- Multipart uploads under keys with a slash: the listing would show such an upload under the key's first segment; the results on upload listings are about slash-free keys.
- Status rows lost in a crash: a crash keeps them, as the Postgres store does.
- Write times that coincide within one key: sort.Slice leaves their order open; `Fresh` asks for distinct times.
- MultipartProgress.NeverStuck: is stated of every state with the invariant of `MultipartSafety.InvHolds`, which holds in every reachable state.
- The Size and VersionID fields of a read's result: Size repeats the row or the response, and no decision uses them.
- The size in a GET response: the background fill records the length of the body.
- Pipeline: an upload is one step there; `Multipart*` model its inside when it is a multipart upload.
- Versions.OrderedUnique: is about ordered stacks; that the directory and the stack hold the same versions is part of `LocalProvider.Provider.ListVersions`.
