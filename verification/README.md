# Verified models of the ingestion, migration and dashboard cores

Dafny models of the parts of the system whose correctness depends on many steps, workers or loop
iterations working together, with proofs about every run or every input. `dafny verify dfyconfig.toml`
checks the whole project.

| Files | What they model |
|---|---|
| `RawEvents` | the parsed raw-event history of one entity: events, watermark, generation, deletion flag |
| `Ingestion`, `IngestionInvariant`, `IngestionTheorems`, `IngestionLimits` | the rebuild and coalescing protocol as a step system: API requests, queues, workers, Redis keys, writer, deletions |
| `IngestionSteps` | what each step does to the stores, in terms of their columns and keys |
| `IngestionProcessor` | the job processor as an object over the shared stores, tied to the steps of that system |
| `IngestionOrder` | what writing in order means, and that the last write on an entity loses nothing exactly when it is not older than the newest snapshot accepted before |
| `ProjectDeletion`, `ParentDeletion` | project deletion and resurrection; trace deletion and late children |
| `MigrationLease`, `MigrationManager` | the lease protocol for background migrations, over many workers and as one worker's object |
| `TimeBuckets`, `CategoricalSeries`, `GapFilling`, `NumericSeries` | backward buckets, categorical and numeric gap filling |
| `QueryScheduler` | the dashboard query scheduler |
| `TextSplit`, `EventStream` | the incremental event-stream parser and the reader loop |
| `Intervals` | choosing a display interval |
| `RangeStrings` | time ranges in URLs |
| `CostBackfill`, `AuditLogPatch`, `TraceDeletion` | three batch loops over a table |
| `Wrappers`, `Collections`, `Arithmetic` | shared definitions and facts |

## What the models assume

* There is one monotone clock in whole milliseconds. All workers and API servers read it.
* A history read returns every raw row written before it, and a write that the writer accepts is durable.
* Every `await` of the ingestion code is the boundary of one step; steps of different requests and
  workers interleave in any order. A request that has written its raw rows eventually enqueues its job,
  and a job that fails is put back; both only matter for reaching the state the convergence theorem speaks
  about.
* All events of an observation or score name the same trace. A row erased from a projection and a row
  marked deleted are the same thing, because queries show neither.
* The ingestion results need one thing from the environment, `ClockPastStamps`: a history read, and an entity
  tombstone, happen after the stamps they cover. `IngestionLimits` shows that a history read needs exactly that.
  Nothing is assumed about the order in which snapshots are written: a row counts as covered once any accepted
  snapshot held it (`CoveredMeaning`), the invariant and the safety of coalescing hold in that sense, and
  `ConvergenceIff` and `LostForGoodIff` say exactly when the last snapshot also holds it. Writing in order
  (`WritesInOrder`: no snapshot misses a row of its entity that an earlier one held) is sufficient (`Convergence`),
  and serving one rebuild of an entity at a time is enough for that (`SerialRebuildsConverge`).
* Snapshots of one entity land in the order in which they are handed to the writer. A corner of the writer is outside
  this assumption, see "Left out".
* The state records the length of the longest snapshot ever stored for an entity, for the proofs only; no step
  depends on it (`NewestIsUnread`).
* `validate` of a migration gives the same answer every time it is asked.
* Time series use integer time, units of one fixed length, and weeks that start on Mondays at midnight.

## What the proofs found

* `worker/src/queues/ingestionQueue.ts:121-125` says that a job's timestamp is never older than its events.
  It can be: a request stamps its events `now`, `now + 1`, ... (`processEventBatch.ts:232-245`) and takes the
  job timestamp afterwards, possibly in the same millisecond (`JobStampedBeforeItsEvents`). The claim holds
  exactly when one millisecond per event after the first passes in between (`JobTimestampIff`). A rebuild may
  otherwise publish a watermark ahead of the clock, and a job enqueued in that gap is skipped with nobody having
  read its events: two requests and a rebuild in one millisecond suffice, with every write in order
  (`SkippedJobIsLost`). The exact condition on a rebuild read is that the clock has passed every stamp it
  covers (`ReadSafeIff`).
* Nothing orders the writes of an entity by the histories they were built from: a snapshot is handed to the writer
  whenever its rebuild gets there. Two overlapping rebuilds of one entity can leave the older one for good
  (`OvertakenRebuildIsLost`); one rebuild per entity at a time cannot (`SerialRebuildsConverge`). With nothing in
  flight a projection is complete exactly when it holds every row that any snapshot ever held (`ConvergenceIff`).
  When a write is the last work on its entity, rows stay lost until new work starts exactly when the write is older
  than the newest snapshot accepted before it, which need not be the one it replaces (`LostForGoodIff`,
  `NewerThanTheRowInPlace`).
* The parent guard (`worker/src/queues/ingestionQueue.ts:177-187`) does not cover the time between guard and
  write: a trace deleted in that gap keeps a live child, although the run ends with nothing in flight
  (`OrphanStaysLive`). A child without a live projection stays without one, as long as its trace stays deleted,
  exactly when no run of it is in that gap (`NoOrphanIff`).
* The generation of a history is not always strictly increasing
  (`packages/shared/src/server/greptime/converters.ts:142-147`): it stands still for a late-stamped event and
  from the 4096th event of one millisecond on (`GenerationRisesIff`).
* `close()` releases the lease while the migration may still be validating or unwinding, so a second worker
  can run the same migration at once (`CloseOverlaps`). Releasing is harmless exactly when the worker holds no lease
  (`CloseIsSafeIff`). A worker that waits for its first heartbeat is in danger only because `close` itself waits
  between releasing the lease and forgetting the migration: if nothing happens in that gap, `run` finds no migration
  and rejects, and the close is harmless exactly up to that read (`WholeCloseIsSafeIff`). Mutual exclusion is proved
  for runs in which a holder does not close.
* Backward buckets do not tile the range when its end is not on a unit boundary: with `to = k * u + r`,
  `r > 0`, the units congruent to `k + 1` modulo the count are in no bucket, and their data is dropped
  (`CoverageIff`). A category keeps its total exactly when it has no positive count there (`KeepsTotalIff`).
* A numeric series is filled only up to its last data point; the requested end plays no part
  (`GridReachesIff`). In an averaged bucket a null in the first row hides all other numbers of that column
  (`AverageMeaning`).
* The interval choice does not always prefer 10 to 16 points: 17 points score higher than 16, and nine
  minutes are drawn in 19 points although one-minute steps give 10 (`OvershootHappens`). `LandsInTargetIff`
  says for every duration when the choice does land there.
* `rangeFromString` does not accept full preset names, although its comment says so
  (`web/src/utils/date-range-utils.ts:607-612`); the model follows the code (`FullNamesFallBack`).
* The cost backfill ends normally exactly when fewer than a batch of matching rows share any start time
  (`UnlimitedRunEndsIff`).
* The audit-log patch can stop with patchable rows left, exactly when a full batch of rows cannot be
  inferred and some other row can (`AlwaysCompleteIff`).
* Trace ids carried only by a deletion job, with no pending row, are all served only if everything fits into
  one batch; the job records nothing about the rest (`EventsServedIff`).
* A dashboard query that is disabled while it runs keeps its slot: the scheduler leaves it running, and the hook marks
  nothing done that is disabled (`DisabledItemKeepsSlot`). The eligible queries can all finish exactly when such
  queries hold fewer slots than the cap, or no eligible one waits (`CanFinishIff`).
* If a progress event reports a total above zero and a row count that is no number, the percentage is lost
  for the rest of the run; otherwise it never falls (`PercentRun`).

## Model

| member | source | states |
|---|---|---|
| `RawEvents.ParseRawEventHistory` | packages/shared/src/server/greptime/converters.ts:101-151 | the one-pass loop computes first copies of live events, earliest stamp, latest live stamp, generation and deletion flag of the rows, as defined independently of each other |
| `RawEvents.EventsAreFirstCopies` | packages/shared/src/server/greptime/converters.ts:115-124 | the parsed events are the first copies of live rows, all of them, in read order |
| `RawEvents.ParsedStamps` | packages/shared/src/server/greptime/converters.ts:109-140 | the creation time is the earliest stamp of all rows, or the present without any; the watermark is the latest stamp of the events, or the creation time without any |
| `RawEvents.ParsedVerdict` | packages/shared/src/server/greptime/converters.ts:141-149 | the generation is 4096 per millisecond of the watermark plus its events, up to 4095; deleted if and only if some tombstone is no older than every parsed event |
| `RawEvents.KeepsFirstCopies` | packages/shared/src/server/greptime/converters.ts:115-124 | reading row by row, a row is kept as an event if and only if it is the first live row of its event id, and events stay in read order |
| `RawEvents.EarliestMeaning` | packages/shared/src/server/greptime/converters.ts:109-137 | the creation time is the earliest stamp of all rows, tombstones and copies included |
| `RawEvents.DeletedMeaning` | packages/shared/src/server/greptime/converters.ts:148-149 | deleted if and only if some tombstone is no older than every live event |
| `RawEvents.RedeliveryIsIdempotent` | packages/shared/src/server/greptime/rawEvents.ts:69-75 | a retried, duplicated append changes neither events, nor generation, nor deletion flag, wherever it is read |
| `RawEvents.GenerationRisesIff` | packages/shared/src/server/greptime/converters.ts:142-147 | exactly when a new event raises the generation; otherwise it stays although the history changed |
| `RawEvents.RecreatedIff` | packages/shared/src/server/greptime/converters.ts:88-93 | an appended event re-creates a deleted entity if and only if it is new and stamped after every tombstone |
| `RawEvents.ReadOrderSorts` | packages/shared/src/server/greptime/rawEvents.ts:101-112 | sorting by stamp and event id keeps exactly the given rows |
| `RawEvents.ReadOrderMeaning` | packages/shared/src/server/greptime/rawEvents.ts:101-112 | a history is read by stamp, then by event id |
| `RawEvents.ArrivalOrderIrrelevant` | worker/src/queues/ingestionQueue.ts:112-115 | out-of-order delivery disappears: any two arrival orders of the same rows parse to the same history |
| `IngestionInvariant.HistoryMeaning` | packages/shared/src/server/greptime/rawEvents.ts:95-113 | a history read returns the events of exactly the rows of that project, type and entity, ordered by stamp and event id |
| `IngestionInvariant.InitHolds` | worker/src/queues/ingestionQueue.ts:33-246 | the invariant holds before anything happened |
| `IngestionInvariant.StepKeeps` | worker/src/queues/ingestionQueue.ts:33-246 | every step of request, worker, key store, writer and deletion keeps: each raw row is in an accepted snapshot or somebody owes its rebuild, and no watermark or seen key promises more than that |
| `IngestionInvariant.RunKeeps` | worker/src/queues/ingestionQueue.ts:33-246 | the same over whole runs |
| `IngestionInvariant.AppendRowsKeeps` | packages/shared/src/server/ingestion/processEventBatch.ts:232-246 | newly visible rows are owed by their request or deletion and leave every published watermark true |
| `IngestionInvariant.EnqueueKeeps` | packages/shared/src/server/ingestion/processEventBatch.ts:248-272 | a job enqueued after its rows are visible carries a timestamp no older than their visibility |
| `IngestionInvariant.WatermarkStored` | worker/src/queues/ingestionQueue.ts:207-221 | a published watermark lies before the clock and covers every row visible by it |
| `IngestionInvariant.MarkSeenKeeps` | worker/src/queues/ingestionQueue.ts:223-237 | a seen key is set only for batches whose rows are all in an accepted snapshot |
| `IngestionInvariant.RequeueKeeps` | worker/src/queues/ingestionQueue.ts:87-100 | redirecting or retrying a job keeps every owed rebuild owed |
| `IngestionInvariant.PrefixIsWhole` | worker/src/queues/ingestionQueue.ts:143-149 | a snapshot that misses no row of its entity is the rebuild of the full history |
| `IngestionTheorems.Convergence` | worker/src/queues/ingestionQueue.ts:33-246 | in every clocked run whose writes are in order, once nothing is in flight, every projection is the rebuild of its full history; it is deleted if that history says so, and only then unless its project or its parent trace has a tombstone |
| `IngestionTheorems.ConvergenceIff` | worker/src/queues/ingestionQueue.ts:112-115 | in every clocked run, whatever the order of its writes, once nothing is in flight, a projection is the rebuild of its full history if and only if it holds every row that any snapshot ever held; it is then deleted if that history says so, and only then unless its project or its parent trace has a tombstone |
| `IngestionTheorems.CoveredMeaning` | worker/src/queues/ingestionQueue.ts:193-205 | in every run the rows counted as covered are exactly those in some snapshot that was stored along the way |
| `IngestionTheorems.NewestIsUnread` | worker/src/queues/ingestionQueue.ts:33-246 | the record of the longest snapshots decides neither what can happen nor what it does |
| `IngestionTheorems.CoalescingIsSafe` | worker/src/queues/ingestionQueue.ts:121-141 | in every clocked run, whatever the order of its writes, whenever the watermark would skip a job, every row visible at the job's timestamp, its own among them, is in a snapshot that was accepted |
| `IngestionTheorems.LowerWatermarkOnlyRebuilds` | worker/src/queues/ingestionQueue.ts:207-209 | a lowered or expired watermark keeps the invariant and never skips a job that was not skipped before |
| `IngestionTheorems.NothingToLose` | worker/src/queues/ingestionQueue.ts:132-140 | under the invariant no job is about to be skipped with one of its rows uncovered |
| `IngestionTheorems.FlagRun` | worker/src/queues/ingestionQueue.ts:168-187 | every stored or pending deletion flag is justified by the history it was built from or by a project or parent deletion |
| `IngestionTheorems.TombstoneDeletes` | packages/shared/src/server/greptime/deletion.ts:110-128 | an entity tombstone stamped no earlier than its rows deletes it |
| `IngestionLimits.ReadSafeIff` | worker/src/queues/ingestionQueue.ts:121-141 | a rebuild read may be published if and only if the clock has passed every stamp it covers: exactly then no clocked continuation, in whatever order it writes, skips a job with a row that no accepted snapshot held |
| `IngestionLimits.UnsafeReadLoses` | worker/src/queues/ingestionQueue.ts:132-140 | the losing run for every unsafe read: a request of the same moment is skipped with its row in no snapshot |
| `IngestionLimits.SkippedJobIsLost` | worker/src/queues/ingestionQueue.ts:132-140 | that run from the start: it ends with nothing in flight, every write in order, and the second event in no snapshot |
| `IngestionLimits.JobStampedBeforeItsEvents` | packages/shared/src/server/ingestion/processEventBatch.ts:232-253 | a two-event request whose job timestamp is older than its second event |
| `IngestionLimits.JobTimestampIff` | packages/shared/src/server/ingestion/processEventBatch.ts:232-253 | the job of a request is no older than its events if and only if at least one millisecond per event after the first passes between stamping and enqueueing |
| `IngestionLimits.SerialIsDisciplined` | worker/src/queues/ingestionQueue.ts:207-209 | serving one rebuild of an entity at a time keeps its snapshots in order |
| `IngestionLimits.SerialRebuildsConverge` | worker/src/queues/ingestionQueue.ts:33-246 | convergence, deletion flag included, from clocked runs with non-overlapping rebuilds and erases, without assuming the write order |
| `IngestionOrder.OvertakenRebuildIsLost` | worker/src/services/GreptimeWriter/index.ts:499-555 | with overlapping rebuilds a run exists that ends with nothing in flight and the newer event missing |
| `IngestionOrder.OrderMeaning` | worker/src/services/GreptimeWriter/index.ts:490-498 | a write is out of order if and only if the newest accepted snapshot is the rebuild of a longer history of its entity; racing rebuilds of one history are in order |
| `IngestionOrder.LateWriteIff` | worker/src/queues/ingestionQueue.ts:193-205 | a late write that is the last work on its entity loses no row if and only if it is not older than the newest accepted snapshot, in whatever order the earlier ones were written |
| `IngestionOrder.LateEraseIff` | packages/shared/src/server/greptime/deletion.ts:110-128 | so does an erase that is the last work on its entity |
| `IngestionOrder.LostForGoodIff` | worker/src/queues/ingestionQueue.ts:193-205 | in every clocked run from the start, after the last write on an entity and in every continuation without new work on it, the projection is the rebuild of its full history if and only if that write is not older than the newest snapshot accepted before it |
| `IngestionOrder.NewerThanTheRowInPlace` | worker/src/services/GreptimeWriter/index.ts:499-555 | a run of three overlapping rebuilds whose last write replaces an older snapshot and still loses a row for good |
| `IngestionOrder.VerdictStays` | worker/src/queues/ingestionQueue.ts:33-246 | without new work on an entity no step of anybody else changes whether its projection is complete |
| `IngestionSteps.SeenCheck` | worker/src/queues/ingestionQueue.ts:52-84 | a job ends at the seen check if and only if the key of its project, entity, event type and batch is set |
| `IngestionSteps.Redirection` | worker/src/queues/ingestionQueue.ts:86-104 | only jobs of configured projects on the primary queue are redirected, to the secondary queue |
| `IngestionSteps.WatermarkCheck` | worker/src/queues/ingestionQueue.ts:127-141 | a job ends at the watermark check if and only if the watermark of its project, entity and event type is at or past its timestamp |
| `IngestionSteps.HistoryReadMeaning` | worker/src/queues/ingestionQueue.ts:143-166 | a run goes on if and only if its entity has a row that is no tombstone, and has then read all rows there are |
| `IngestionSteps.ProjectGuard` | worker/src/queues/ingestionQueue.ts:168-176 | deleted if and only if the history read says so or the project has a tombstone |
| `IngestionSteps.ParentGuard` | worker/src/queues/ingestionQueue.ts:177-187 | an observation or score that names a trace is deleted as well if that trace's own history says deleted; for a trace, or without a trace id, nothing changes |
| `IngestionSteps.ParentWithoutTombstone` | packages/shared/src/server/greptime/deletion.ts:163-174 | a trace without a tombstone deletes none of its children |
| `IngestionSteps.WriteMeaning` | worker/src/queues/ingestionQueue.ts:193-205 | the projection becomes the rebuild of the rows read, under the flag of the guards, and no other projection changes |
| `IngestionSteps.PublishMeaning` | worker/src/queues/ingestionQueue.ts:207-221 | the published watermark is the latest stamp of the live events read, under the key of project, entity and event type |
| `IngestionSteps.MarkSeenMeaning` | worker/src/queues/ingestionQueue.ts:223-237 | the seen key of project, entity, event type and batch is set last |
| `IngestionSteps.FailMeaning` | worker/src/queues/ingestionQueue.ts:238-246 | a job that fails goes back into the queue it came from |
| `IngestionSteps.RequestRowsMeaning` | packages/shared/src/server/ingestion/processEventBatch.ts:232-246 | the rows of a request are stamped one millisecond apart in request order, carry the ids and bodies of its events, and are visible when written |
| `IngestionSteps.EnqueueMeaning` | packages/shared/src/server/ingestion/processEventBatch.ts:248-272 | the job names entity, type and batch and is stamped when it is enqueued |
| `IngestionSteps.DeletionMeaning` | packages/shared/src/server/greptime/deletion.ts:110-128 | deleting an entity appends a tombstone stamped now and later erases its projection |
| `IngestionSteps.EraseProjectMeaning` | worker/src/queues/ingestionQueue.ts:168-176 | deleting a project marks exactly its projections deleted |
| `IngestionProcessor.Stores.Process` | worker/src/queues/ingestionQueue.ts:52-237 | one invocation takes exactly the steps of its outcome: skipped as seen, redirected, skipped by watermark, no events, or rebuilt; the worker is free afterwards |
| `IngestionProcessor.Stores.Skip` | worker/src/queues/ingestionQueue.ts:52-141 | the seen key, the secondary queue and the watermark are asked in this order, and a job that passes all three leaves everything as it was |
| `IngestionProcessor.Stores.Rebuild` | worker/src/queues/ingestionQueue.ts:143-237 | without live events nothing is written; otherwise the stores become those of a whole undisturbed rebuild |
| `IngestionProcessor.Stores.CheckDeleted` | worker/src/queues/ingestionQueue.ts:168-187 | deleted if and only if the own flag, the project tombstone, or, for an observation or score that names a trace, that trace's history says so |
| `IngestionProcessor.Stores.MergeAndWrite` | worker/src/queues/ingestionQueue.ts:193-237 | the snapshot is stored, the watermark set to the covered maximum and the batch marked, each Redis write possibly failing |
| `IngestionProcessor.RebuiltLeads` | worker/src/queues/ingestionQueue.ts:143-237 | the eight steps of an undisturbed rebuild compose to the processor's effect |
| `ProjectDeletion.NoResurrectionIff` | worker/src/queues/ingestionQueue.ts:168-205 | a deleted project stays deleted in every continuation if and only if no rebuild of it is between its guard read and its write with a live result; no timing or order is assumed |
| `ProjectDeletion.DeletionBuries` | worker/src/queues/ingestionQueue.ts:168-205 | a project tombstone followed by the erase leaves no live projection of the project and touches no other |
| `ProjectDeletion.BuriedStep` | worker/src/queues/ingestionQueue.ts:168-187 | no single step brings a projection of a deleted project back or opens a live rebuild of it |
| `ProjectDeletion.Recreates` | packages/shared/src/server/greptime/converters.ts:88-93 | a new event stamped after every other row of an entity makes its history live again |
| `ParentDeletion.NoOrphanIff` | worker/src/queues/ingestionQueue.ts:177-187 | a child of a deleted trace without a live projection stays without one in every continuation in which the trace stays deleted, if and only if no run of it is past the parent guard with a live result |
| `ParentDeletion.ChildStep` | worker/src/queues/ingestionQueue.ts:181-187 | while the trace is deleted no single step opens a live rebuild of its child |
| `ParentDeletion.OrphanStaysLive` | packages/shared/src/server/greptime/deletion.ts:181-214 | a disciplined run from the empty system that ends with nothing in flight, the trace deleted and its child live |
| `MigrationLease.FirstOpenFromMeaning` | worker/src/backgroundMigrations/backgroundMigrationManager.ts:46-52 | the acquire query finds the first open row by name, or none is open |
| `MigrationLease.AcquireMeaning` | worker/src/backgroundMigrations/backgroundMigrationManager.ts:43-101 | the first open row is locked for the worker unless its lock is younger than 60 s; without a row to lock the loop ends, after one more pass if a migration is still active |
| `MigrationLease.HeartBeatMeaning` | worker/src/backgroundMigrations/backgroundMigrationManager.ts:17-36 | the lock of an owned, open, active row is renewed, and nothing else changes |
| `MigrationLease.ValidateMeaning` | worker/src/backgroundMigrations/backgroundMigrationManager.ts:107-124 | a valid migration runs; an invalid one is recorded as failed and unlocked if still owned, otherwise the run rejects |
| `MigrationLease.RunEndMeaning` | worker/src/backgroundMigrations/backgroundMigrationManager.ts:126-162 | the end of a run is recorded as finished or failed if the row is still owned and the migration still active; a forgotten one is left alone, and otherwise the run rejects |
| `MigrationLease.CloseMeaning` | worker/src/backgroundMigrations/backgroundMigrationManager.ts:167-184 | closing unlocks an owned row, which stays open, and then forgets the migration; otherwise it throws |
| `MigrationLease.Fencing` | worker/src/backgroundMigrations/backgroundMigrationManager.ts:22-32 | a row changes only by being locked while first open and unlocked, or by the worker whose id it stores; finished and failed rows stay so |
| `MigrationLease.LostLeaseIsPowerless` | worker/src/backgroundMigrations/backgroundMigrationManager.ts:126-162 | a worker that lost a row never changes it again, in whatever interleaving with all other workers and the clock, and does not get it back, until it locks that very row anew |
| `MigrationLease.RunsInNameOrder` | worker/src/backgroundMigrations/backgroundMigrationManager.ts:43-124 | in every run, with no timing assumption, a running migration is valid and all earlier ones are settled; no row is both finished and failed; an invalid one is never recorded as finished |
| `MigrationLease.OrderStep` | worker/src/backgroundMigrations/backgroundMigrationManager.ts:99-163 | every step keeps that order, including the pass over a migration left active by a failed validation |
| `MigrationLease.LeaseStep` | worker/src/backgroundMigrations/backgroundMigrationManager.ts:17-36 | with timely renewal every step keeps: a held row is owned, open, unexpired and first in name order |
| `MigrationLease.MutualExclusion` | worker/src/backgroundMigrations/backgroundMigrationManager.ts:43-162 | if every holder renews within 60 s and neither releases nor forgets its lease by a close, no two workers ever hold a migration |
| `MigrationLease.TakeoverIff` | worker/src/backgroundMigrations/backgroundMigrationManager.ts:54-82 | another worker takes a held row over if and only if the last renewal is 60 s old or older |
| `MigrationLease.CloseOverlaps` | worker/src/backgroundMigrations/backgroundMigrationManager.ts:167-184 | closing a worker that holds a lease, running, validating or waiting for its first heartbeat, lets a second one run the same migration with no time passing |
| `MigrationLease.CloseIsSafeIff` | worker/src/backgroundMigrations/backgroundMigrationManager.ts:167-184 | releasing the lease leads to no overlap in any otherwise timely continuation if and only if the worker holds none |
| `MigrationLease.WholeCloseIsSafeIff` | worker/src/backgroundMigrations/backgroundMigrationManager.ts:103-106 | a close that nothing interrupts leads to no overlap if and only if the worker has not read the active migration after its first heartbeat |
| `MigrationLease.CloseOverlapsFromStart` | worker/src/backgroundMigrations/backgroundMigrationManager.ts:167-184 | the overlap in a run from the start, with one open migration and two workers |
| `MigrationManager.BackgroundMigrationManager.HeartBeat` | worker/src/backgroundMigrations/backgroundMigrationManager.ts:17-36 | only an owned, open row is renewed; everything else stays |
| `MigrationManager.BackgroundMigrationManager.AcquireNext` | worker/src/backgroundMigrations/backgroundMigrationManager.ts:43-97 | the transaction locks the first open row unless it is locked, and otherwise changes nothing |
| `MigrationManager.BackgroundMigrationManager.Complete` | worker/src/backgroundMigrations/backgroundMigrationManager.ts:131-160 | finishing or failing throws and changes nothing when the row is no longer owned |
| `MigrationManager.BackgroundMigrationManager.Close` | worker/src/backgroundMigrations/backgroundMigrationManager.ts:167-184 | the lock is released and the active migration forgotten, or the call throws |
| `MigrationManager.BackgroundMigrationManager.Run` | worker/src/backgroundMigrations/backgroundMigrationManager.ts:38-165 | an undisturbed loop, with a clock reading for each pass, finishes or fails every open row before the first one locked by somebody else when the loop comes to it, as validation and run decide, and touches nothing after it |
| `MigrationManager.FirstLockedMeaning` | worker/src/backgroundMigrations/backgroundMigrationManager.ts:54-67 | where that loop stops: the first open row with a live lock at the time of the pass that comes to it |
| `TimeBuckets.BuildBuckets` | web/src/utils/fill-time-series-gaps.ts:533-556 | the backward walk yields, newest last, exactly the buckets that reach the start of the range, at most 10000 |
| `TimeBuckets.WalkMeaning` | web/src/utils/fill-time-series-gaps.ts:222-248 | the last bucket ends at the end of the range, each spans count units and ends that far before the next, as long as it ends in the range, and there are at most ten thousand |
| `TimeBuckets.UnitsNest` | web/src/utils/fill-time-series-gaps.ts:60-82 | seconds, minutes, hours, days and Monday weeks nest as they should |
| `TimeBuckets.InBucketIff` | web/src/utils/fill-time-series-gaps.ts:558-568 | which unit indices lie in the m-th bucket, for aligned and unaligned ends |
| `TimeBuckets.BucketsDisjoint` | web/src/utils/fill-time-series-gaps.ts:533-556 | no unit lies in two buckets |
| `TimeBuckets.CoverageIff` | web/src/utils/fill-time-series-gaps.ts:226-260 | a unit index is in some bucket if and only if the walk reaches it and, for an unaligned end, it is not congruent to k + 1 modulo the count |
| `TimeBuckets.CoverageInRange` | web/src/utils/fill-time-series-gaps.ts:534-568 | inside the range and below the iteration limit only the congruence decides |
| `CategoricalSeries.SummedRowAt` | web/src/utils/fill-time-series-gaps.ts:570-599 | exactly one row per bucket and category, at its place, holding that category's sum in the bucket |
| `CategoricalSeries.TotalGrows` | web/src/utils/fill-time-series-gaps.ts:574-586 | a total adds the counts of its category, point by point |
| `CategoricalSeries.Conserved` | web/src/utils/fill-time-series-gaps.ts:558-568 | over disjoint buckets nothing is counted twice: sums plus unassigned points are the input |
| `CategoricalSeries.MultiUnitBalance` | web/src/utils/fill-time-series-gaps.ts:471-599 | for every input, output total plus total of the points in no bucket is the input total, per category |
| `CategoricalSeries.MultiUnitConserves` | web/src/utils/fill-time-series-gaps.ts:471-599 | with an aligned end, data in range and below the bucket limit, every category keeps its total |
| `CategoricalSeries.KeepsTotalIff` | web/src/utils/fill-time-series-gaps.ts:520-568 | for data in range and counts that are not negative, a category keeps its total if and only if no point of it with a positive count has, with an unaligned end, a unit index congruent to k + 1 modulo the count |
| `GapFilling.CategoriesMeaning` | web/src/utils/fill-time-series-gaps.ts:342-347 | the categories are exactly those of the data, each once |
| `GapFilling.CategoriesInOrder` | web/src/utils/fill-time-series-gaps.ts:342-343 | categories come in the order of their first data points |
| `GapFilling.AssignPoints` | web/src/utils/fill-time-series-gaps.ts:558-568 | stopping at the first matching bucket assigns each bucket exactly its points |
| `GapFilling.SumByCategory` | web/src/utils/fill-time-series-gaps.ts:574-586 | the running map ends with every category's total |
| `GapFilling.AggregateIntoBuckets` | web/src/utils/fill-time-series-gaps.ts:471-599 | the loops produce the summed rows of the walked buckets |
| `GapFilling.IndexPoints` | web/src/utils/fill-time-series-gaps.ts:434-442 | the nested map holds the last count of each normalized time and category |
| `GapFilling.LastInCell` | web/src/utils/fill-time-series-gaps.ts:434-442 | a cell holds the count of the last data point of its unit and category |
| `GapFilling.FillGrid` | web/src/utils/fill-time-series-gaps.ts:431-466 | the loops produce the whole grid from normalized start to normalized end |
| `GapFilling.FullGrid` | web/src/utils/fill-time-series-gaps.ts:444-466 | row k * categories + j is the k-th time and j-th category with its last count or 0, and there are no other rows |
| `GapFilling.GridSpan` | web/src/utils/fill-time-series-gaps.ts:431-463 | the times run from the start of the first unit to that of the last, one unit apart |
| `GapFilling.GridConserves` | web/src/utils/fill-time-series-gaps.ts:373-466 | with one row per cell and all data in range every category keeps its total |
| `TimeBuckets.WeekMeaning` | web/src/utils/fill-time-series-gaps.ts:402-406 | a seven-day interval starts at the last Monday midnight that is not later |
| `GapFilling.WeeksConserve` | web/src/utils/fill-time-series-gaps.ts:402-466 | the weekly grid keeps every category's total when no week holds two rows of a category and all weeks are in range |
| `GapFilling.WeekRowAt` | web/src/utils/fill-time-series-gaps.ts:402-466 | row k * categories + j of a weekly series is the k-th Monday and the j-th category with that week's last count |
| `GapFilling.FillCategoricalTimeSeriesGaps` | web/src/utils/fill-time-series-gaps.ts:337-368 | no data gives no rows, a single unit the grid, seven-day weeks the grid from Monday to Monday, any other count the summed buckets |
| `NumericSeries.FillGapsInSingleUnitData` | web/src/utils/fill-time-series-gaps.ts:55-164 | the loops produce the data row or a placeholder for each unit from the start of the range to the last data point |
| `NumericSeries.GridReachesIff` | web/src/utils/fill-time-series-gaps.ts:127-162 | a unit has a row if and only if it is not before the start and some data point is at or after it |
| `NumericSeries.RowsAreKept` | web/src/utils/fill-time-series-gaps.ts:112-138 | the last row of a unit is passed on untouched, at its place |
| `NumericSeries.EmptyUnit` | web/src/utils/fill-time-series-gaps.ts:139-160 | a unit without data gets a placeholder made from the first data row |
| `NumericSeries.PlaceholderMeaning` | web/src/utils/fill-time-series-gaps.ts:266-284 | a placeholder has null for every numeric column of its sample and the sample's own value for every other one |
| `NumericSeries.WeekRowsAreKept` | web/src/utils/fill-time-series-gaps.ts:80-138 | in a weekly series the last row of a week is passed on untouched, at its place |
| `NumericSeries.AverageField` | web/src/utils/fill-time-series-gaps.ts:289-313 | the first value of a column that is not numeric in its first row; otherwise the sum over the count of numbers, not-a-number when a value is absent, and whatever adding other values gives |
| `NumericSeries.AverageGrows` | web/src/utils/fill-time-series-gaps.ts:293-304 | with a further number x an average of n numbers moves so that (n + 1) times the new one is n times the old one plus x; a null changes nothing |
| `NumericSeries.AverageOfOne` | web/src/utils/fill-time-series-gaps.ts:293-304 | one number is its own average |
| `NumericSeries.AverageCases` | web/src/utils/fill-time-series-gaps.ts:293-308 | when a column gives its first value, what adding other values makes, no number, or a number |
| `NumericSeries.AverageMeaning` | web/src/utils/fill-time-series-gaps.ts:289-313 | for numbers, nulls and absent values: a number results if and only if the first row has one and none is absent, and it lies between smallest and largest; a null in the first row gives null |
| `NumericSeries.AggregateBucket` | web/src/utils/fill-time-series-gaps.ts:265-316 | an empty bucket becomes a placeholder, another one an averaged row at its end |
| `NumericSeries.BucketRowMeaning` | web/src/utils/fill-time-series-gaps.ts:265-312 | a bucket's row stands at its end, a placeholder without data, else with the columns of its first data row and that row's values where they are no numbers |
| `NumericSeries.OutsideBucket` | web/src/utils/fill-time-series-gaps.ts:251-260 | a data point outside a bucket does not change its row |
| `NumericSeries.FirstInBucket` | web/src/utils/fill-time-series-gaps.ts:289-304 | the first data point of a bucket gives its own numbers |
| `NumericSeries.BucketAverageGrows` | web/src/utils/fill-time-series-gaps.ts:289-304 | each further data point moves the bucket's averages as averages move |
| `NumericSeries.ColumnMeaning` | web/src/utils/fill-time-series-gaps.ts:295-297 | a column takes each row's value, absent where the row lacks it |
| `NumericSeries.AssignRows` | web/src/utils/fill-time-series-gaps.ts:251-260 | stopping at the first matching bucket assigns each bucket exactly its rows |
| `NumericSeries.AggregateIntoMultiUnitBuckets` | web/src/utils/fill-time-series-gaps.ts:170-316 | one row per walked bucket, in order |
| `NumericSeries.BucketMeanBetween` | web/src/utils/fill-time-series-gaps.ts:286-313 | every number of a bucket lies within the numbers of the data points that fall into it, in a column of numbers, nulls and absent values |
| `NumericSeries.FillTimeSeriesGaps` | web/src/utils/fill-time-series-gaps.ts:37-50 | a single unit gives the filled grid, seven-day weeks the grid from Monday on, any other count the averaged buckets |
| `QueryScheduler.WaitingRanks` | web/src/hooks/useDashboardQueryScheduler.tsx:95-97 | filtering and stable sorting puts each waiting item at the position of its priority rank, ties by registration |
| `QueryScheduler.SyncCount` | web/src/hooks/useDashboardQueryScheduler.tsx:99-104 | a sync starts exactly as many items as there are free slots and waiting items |
| `QueryScheduler.SyncIsPrefix` | web/src/hooks/useDashboardQueryScheduler.tsx:89-108 | whatever starts goes before whatever keeps waiting |
| `QueryScheduler.SyncConserves` | web/src/hooks/useDashboardQueryScheduler.tsx:84-109 | after a sync the cap is reached or nothing eligible waits |
| `QueryScheduler.OpKeepsGood` | web/src/hooks/useDashboardQueryScheduler.tsx:111-207 | every operation leaves ids distinct and the cap reached or nothing eligible waiting |
| `QueryScheduler.OpRespectsCap` | web/src/hooks/useDashboardQueryScheduler.tsx:111-207 | no operation lifts the running count above the cap, and over a lowered cap it never grows |
| `QueryScheduler.RegisterMeaning` | web/src/hooks/useDashboardQueryScheduler.tsx:111-153 | the given settings are stored, a done item stays done if and only if its run key is unchanged, a running one keeps running, and other items can only be started |
| `QueryScheduler.UnregisterMeaning` | web/src/hooks/useDashboardQueryScheduler.tsx:155-168 | the item and nothing else is removed, others are at most started, and nothing starts unless it was running; an unknown id changes nothing |
| `QueryScheduler.MarkDoneMeaning` | web/src/hooks/useDashboardQueryScheduler.tsx:170-180 | the item is done and keeps its settings, others are at most started; an unknown or done item changes nothing |
| `QueryScheduler.SetMaxMeaning` | web/src/hooks/useDashboardQueryScheduler.tsx:205-207 | the cap is stored and items are at most started |
| `QueryScheduler.OpStartsBest` | web/src/hooks/useDashboardQueryScheduler.tsx:95-104 | whatever any operation starts has a lower priority number, or the same and an earlier place, than whatever it leaves waiting |
| `QueryScheduler.ResetMeaning` | web/src/hooks/useDashboardQueryScheduler.tsx:182-197 | afterwards nothing is done, and only statuses changed |
| `QueryScheduler.Safety` | web/src/hooks/useDashboardQueryScheduler.tsx:84-207 | in every reachable state ids are distinct, the cap is reached or nothing eligible waits, and no more run than at the start or than the largest cap so far |
| `QueryScheduler.NeverStuck` | web/src/hooks/useDashboardQueryScheduler.tsx:84-109 | under a positive cap something runs if and only if some item is open and either eligible or running |
| `QueryScheduler.Progress` | web/src/hooks/useDashboardQueryScheduler.tsx:111-180 | for a fixed item set with unchanged run keys and eligibility, whatever registers again and whatever positive caps are set: each markDone on a running item takes exactly one item out of play; while one is left something runs, and when none is, nothing runs and every eligible item is done |
| `QueryScheduler.CanFinishIff` | web/src/hooks/useDashboardQueryScheduler.tsx:455-494 | marking done only eligible running items, as the hook does, all eligible items can be finished if and only if running items that are no longer eligible hold fewer slots than the cap, or no eligible item waits |
| `QueryScheduler.HookProgress` | web/src/hooks/useDashboardQueryScheduler.tsx:455-494 | in every such run each markDone finishes one eligible item, slots are left afterwards if and only if they were before, and with one left the run can go on until all eligible items are finished |
| `QueryScheduler.DisabledItemKeepsSlot` | web/src/hooks/useDashboardQueryScheduler.tsx:132-147 | from the empty scheduler with cap 1: an item is registered, disabled while it runs, and the next one can never finish |
| `QueryScheduler.AllStarted` | web/src/hooks/useDashboardQueryScheduler.tsx:95-104 | starting candidates one by one until the slots are full starts exactly the best-ranked items |
| `QueryScheduler.DashboardQueryScheduler.SyncQueue` | web/src/hooks/useDashboardQueryScheduler.tsx:84-109 | the loops start the best-ranked waiting items that fit, and change nothing else |
| `QueryScheduler.DashboardQueryScheduler.Register` | web/src/hooks/useDashboardQueryScheduler.tsx:111-153 | a new item is appended; a known one is updated in place and queued again only if done under another run key |
| `QueryScheduler.DashboardQueryScheduler.Unregister` | web/src/hooks/useDashboardQueryScheduler.tsx:155-168 | the item goes, and its slot is given away if it was running |
| `QueryScheduler.DashboardQueryScheduler.MarkDone` | web/src/hooks/useDashboardQueryScheduler.tsx:170-180 | the item is done and its slot given away; unknown and done items change nothing |
| `QueryScheduler.DashboardQueryScheduler.ResetQueue` | web/src/hooks/useDashboardQueryScheduler.tsx:182-197 | all items are queued again, then synchronised |
| `QueryScheduler.DashboardQueryScheduler.SetMaxConcurrent` | web/src/hooks/useDashboardQueryScheduler.tsx:205-207 | a changed cap is followed by a sync |
| `QueryScheduler.DashboardQueryScheduler.CanFetch` | web/src/hooks/useDashboardQueryScheduler.tsx:199-203 | true if and only if the item is known and running |
| `TextSplit.SplitIsSplit` | web/src/hooks/useSSEDashboardQuery.ts:39-42 | the pieces joined by the separator give the text back, and no piece but the last has an earlier separator in sight |
| `TextSplit.SplitIsUnique` | web/src/hooks/useSSEDashboardQuery.ts:39-42 | no other list of pieces has that property |
| `TextSplit.SplitConcat` | web/src/hooks/useSSEDashboardQuery.ts:39-42 | appending text touches only the last, unfinished piece |
| `EventStream.ParseSSEBuffer` | web/src/hooks/useSSEDashboardQuery.ts:34-64 | the two loops compute the events of the finished blocks, last data line winning, and the remaining text |
| `EventStream.LinesMeaning` | web/src/hooks/useSSEDashboardQuery.ts:43-58 | the last event line names the kind, `message` without one, and the last data line holds the data |
| `EventStream.BlockMeaning` | web/src/hooks/useSSEDashboardQuery.ts:43-61 | a block gives one event unless it is white space or its last data line is empty or missing |
| `EventStream.ParseConcat` | web/src/hooks/useSSEDashboardQuery.ts:186-197 | parsing may stop anywhere and go on from the remaining text, with the same events and the same rest |
| `EventStream.BlankTextIsSilent` | web/src/hooks/useSSEDashboardQuery.ts:199-201 | a rest of white space holds no event, so skipping its flush loses nothing |
| `EventStream.WireRoundTrip` | web/src/__tests__/sse-dashboard-query.clienttest.ts:27-40 | every list of sendable events, serialised block by block, parses back to itself with nothing left |
| `EventStream.ComputeMonotonicPercent` | web/src/hooks/useSSEDashboardQuery.ts:66-73 | the result is the larger of the previous maximum and the ratio, or no number exactly when one of them is none |
| `EventStream.PercentOfFinite` | web/src/hooks/useSSEDashboardQuery.ts:66-73 | for finite numbers the result is at least the previous maximum, its product with the total is at least the rows read, and one of the two is exact |
| `EventStream.PercentCases` | web/src/hooks/useSSEDashboardQuery.ts:66-73 | the result without a positive total, and with infinite numbers |
| `EventStream.FinalPercent` | web/src/hooks/useSSEDashboardQuery.ts:142-163 | with finite progress numbers the percentage at the end is the largest share of rows read among the progress events before the first terminal event, or zero |
| `EventStream.PercentRun` | web/src/hooks/useSSEDashboardQuery.ts:142-163 | over any events the percentage never falls and covers every ratio seen, unless a ratio before the first terminal event is no number: then and only then it is lost |
| `EventStream.ProgressMeaning` | web/src/hooks/useSSEDashboardQuery.ts:142-163 | the progress shown at the end is that of the last readable progress event before the first terminal event, with the percentage reached |
| `EventStream.OnlyFirstTerminal` | web/src/hooks/useSSEDashboardQuery.ts:140-184 | of the first terminal event and everything after it only that event has an effect |
| `EventStream.OutcomeMeaning` | web/src/hooks/useSSEDashboardQuery.ts:140-216 | rows are those before the first terminal event; success exactly on done, or without a terminal event when there is a row; the error text otherwise |
| `EventStream.RowsInMeaning` | web/src/hooks/useSSEDashboardQuery.ts:164-169 | the rows are those of the readable row events, in their order |
| `EventStream.LastCountersMeaning` | web/src/hooks/useSSEDashboardQuery.ts:142-163 | the counters shown are those of the last readable progress event |
| `EventStream.TerminalIsFinal` | web/src/hooks/useSSEDashboardQuery.ts:140-141 | nothing after a complete terminal event changes the outcome, whatever text follows |
| `EventStream.FlushAdds` | web/src/hooks/useSSEDashboardQuery.ts:199-205 | the conditional flush handles exactly what a closing blank line would have delivered |
| `EventStream.StreamRun.HandleEvent` | web/src/hooks/useSSEDashboardQuery.ts:140-184 | one event changes rows, progress, status and error as its kind and its readable data say; unreadable rows and progress are ignored |
| `EventStream.StreamRun.RunQuery` | web/src/hooks/useSSEDashboardQuery.ts:186-216 | for every split of a stream into chunks the reader loop ends with the outcome of the whole text followed by a blank line |
| `Intervals.GetOptimalInterval` | web/src/utils/date-range-utils.ts:480-528 | a non-positive duration gives one day; otherwise the first-listed interval of highest score |
| `Intervals.BestOf` | web/src/utils/date-range-utils.ts:494-527 | the loop finds the first-listed maximiser of any non-empty list |
| `Intervals.NextLength` | web/src/utils/date-range-utils.ts:387-415 | allowed intervals grow, by a factor of at most five |
| `Intervals.GoodScore` | web/src/utils/date-range-utils.ts:504-518 | an interval scores at least 4 if and only if it yields 8 to 40 points |
| `Intervals.ScoreSteps` | web/src/utils/date-range-utils.ts:504-518 | the doubled score is twice the upper bound at the target and loses two per point inside the bounds, six per point below and one per point above |
| `Intervals.PointsMeaning` | web/src/utils/date-range-utils.ts:497-502 | as many points as interval starts fit into the duration |
| `Intervals.AllowedLengths` | web/src/utils/date-range-utils.ts:387-415 | the allowed intervals in seconds |
| `Intervals.SomeIntervalFits` | web/src/utils/date-range-utils.ts:387-415 | for every duration in range some allowed interval yields 8 to 40 points |
| `Intervals.PointBound` | web/src/utils/date-range-utils.ts:480-528 | the default choice yields 8 to 40 points if and only if the duration is at least 7 s and less than 40 average years |
| `Intervals.LowerEndIsReached` | web/src/utils/date-range-utils.ts:497-525 | 7 s are drawn in 8 points |
| `Intervals.UpperEndIsReached` | web/src/utils/date-range-utils.ts:497-525 | 39 s are drawn in 40 points |
| `Intervals.LandsInTargetIff` | web/src/utils/date-range-utils.ts:467-527 | the chosen interval yields 10 to 16 points if and only if some allowed one does and each one above that range overshoots by more than twice the distance of some interval inside it from 13 |
| `Intervals.OvershootHappens` | web/src/utils/date-range-utils.ts:467-471 | nine minutes get 19 points although another interval gives 10 |
| `RangeStrings.PrintParses` | web/src/utils/date-range-utils.ts:628-629 | the decimal print of a non-negative integer parses to it |
| `RangeStrings.ValueGrows` | web/src/utils/date-range-utils.ts:628-629 | one more digit is worth ten times what stands before it plus itself |
| `RangeStrings.ParseUnsigned` | web/src/utils/date-range-utils.ts:628-629 | leading white space and everything from the first character after the digits on are ignored; without a digit there is no number |
| `RangeStrings.ParseSigned` | web/src/utils/date-range-utils.ts:628-629 | one sign may stand in front of the digits |
| `RangeStrings.DateRange` | web/src/utils/date-range-utils.ts:628-633 | dates reach 100 million days to either side of 1970 |
| `RangeStrings.UnknownNamesPrint` | web/src/utils/date-range-utils.ts:599-605 | a name that is no preset is printed as it is |
| `RangeStrings.NamedRoundTrip` | web/src/utils/date-range-utils.ts:599-622 | a preset survives printing and parsing if and only if it is allowed or the fallback |
| `RangeStrings.CustomRoundTrip` | web/src/utils/date-range-utils.ts:599-646 | a custom range survives if and only if both dates are valid, not before 1970 and in order |
| `RangeStrings.ParsedRangesAreStable` | web/src/utils/date-range-utils.ts:599-646 | whatever text a range was parsed from, printing and parsing it gives it back |
| `RangeStrings.FullNamesFallBack` | web/src/utils/date-range-utils.ts:607-646 | a full preset name is never recognised and gives the fallback |
| `RangeStrings.TwoPartsIff` | web/src/utils/date-range-utils.ts:626-627 | a printed range splits into two parts if and only if neither side has a dash |
| `CostBackfill.CostMeaning` | worker/src/backgroundMigrations/addGenerationsCostBackfill.ts:121-150 | given costs win as a whole; otherwise each part is its tokens at its price when both are known, and the total is the total price of all tokens or else the sum of the parts |
| `CostBackfill.UpdateKeeps` | worker/src/backgroundMigrations/addGenerationsCostBackfill.ts:118-154 | an update also stores the model used and the done mark, and changes nothing else |
| `CostBackfill.CompleteMeaning` | worker/src/backgroundMigrations/addGenerationsCostBackfill.ts:107-112 | complete: every row up to the date with an internal model or a given cost is updated, and no other |
| `CostBackfill.UpdateTwice` | worker/src/backgroundMigrations/addGenerationsCostBackfill.ts:121-150 | updating a row again, as overlapping batches do, changes nothing |
| `CostBackfill.StallIff` | worker/src/backgroundMigrations/addGenerationsCostBackfill.ts:113-119 | the inclusive cutoff stays in place if and only if a full batch of matching rows shares it |
| `CostBackfill.BatchShrinks` | worker/src/backgroundMigrations/addGenerationsCostBackfill.ts:113-163 | otherwise each full batch leaves strictly fewer rows at or below the new cutoff |
| `CostBackfill.UnlimitedRunEndsIff` | worker/src/backgroundMigrations/addGenerationsCostBackfill.ts:82-176 | an unlimited run can end normally if and only if fewer than a batch of matching rows share any start time |
| `CostBackfill.RunsAreShort` | worker/src/backgroundMigrations/addGenerationsCostBackfill.ts:82-176 | and then every run has at most one full batch per eligible row |
| `CostBackfill.NoRunEnds` | worker/src/backgroundMigrations/addGenerationsCostBackfill.ts:82-176 | a full batch at one start time is a floor that no run passes or ends above |
| `CostBackfill.BatchKeeps` | worker/src/backgroundMigrations/addGenerationsCostBackfill.ts:83-163 | one statement keeps: rows are untouched or updated once, everything newer than the cutoff is updated, and a short batch completes the table |
| `CostBackfill.Observations.UpdateBatch` | worker/src/backgroundMigrations/addGenerationsCostBackfill.ts:83-154 | some newest batch of matching rows is updated, and its oldest start time returned if it is full |
| `CostBackfill.Observations.Run` | worker/src/backgroundMigrations/addGenerationsCostBackfill.ts:60-190 | the cutoffs it goes through are those of a run on the first table; a normal finish is complete and the end of that run, a reached limit and an abort come exactly when they should; in every ending nothing else is touched and no row is reached before a newer one |
| `AuditLogPatch.Infer` | worker/src/backgroundMigrations/patchLLMToolAndLLLMSchemaAuditLogs.ts:57-87 | a kind stays unknown if and only if neither snapshot tells; after decides before before, parameters before schema |
| `AuditLogPatch.CompleteMeaning` | worker/src/backgroundMigrations/patchLLMToolAndLLLMSchemaAuditLogs.ts:41-53 | complete: exactly the project logs whose resource is not their project have their inferred kind |
| `AuditLogPatch.RoundKeeps` | worker/src/backgroundMigrations/patchLLMToolAndLLLMSchemaAuditLogs.ts:40-100 | a round changes only open logs, each to its inferred kind, and records only hopeless ones as failed |
| `AuditLogPatch.RoundShrinks` | worker/src/backgroundMigrations/patchLLMToolAndLLLMSchemaAuditLogs.ts:39-106 | every non-final round leaves strictly fewer open logs not known to fail |
| `AuditLogPatch.AlwaysCompleteIff` | worker/src/backgroundMigrations/patchLLMToolAndLLLMSchemaAuditLogs.ts:29-118 | every run patches every log that can be patched if and only if fewer than a batch of logs are hopeless, or all are |
| `AuditLogPatch.IdleRun` | worker/src/backgroundMigrations/patchLLMToolAndLLLMSchemaAuditLogs.ts:41-53 | with a full batch of hopeless logs a run exists that ends normally and patches nothing |
| `AuditLogPatch.AuditLogs.InferAll` | worker/src/backgroundMigrations/patchLLMToolAndLLLMSchemaAuditLogs.ts:56-88 | the loop infers every fetched log and collects exactly those that stay unknown |
| `AuditLogPatch.AuditLogs.Round` | worker/src/backgroundMigrations/patchLLMToolAndLLLMSchemaAuditLogs.ts:40-106 | a round patches the fetched logs that are not known failures and is the last if there are none |
| `AuditLogPatch.AuditLogs.Run` | worker/src/backgroundMigrations/patchLLMToolAndLLLMSchemaAuditLogs.ts:29-118 | the loop is a run of rounds in the sense above and ends as it ends; on a normal finish the patch is complete or a full batch of logs is hopeless; an abort comes exactly in its round and has patched nothing wrongly |
| `TraceDeletion.SelectionIsSafe` | worker/src/queues/traceDelete.ts:26-75 | at most a batch of distinct traces, each with an open pending row or carried by the job and not marked deleted |
| `TraceDeletion.UniqueInOrder` | worker/src/queues/traceDelete.ts:59-65 | traces are taken in the order of their first occurrence |
| `TraceDeletion.PendingFirst` | worker/src/queues/traceDelete.ts:59-75 | pending traces fill the batch before any other |
| `TraceDeletion.EventsServedIff` | worker/src/queues/traceDelete.ts:53-75 | traces known only from the job are all served if and only if there are none or everything fits into one batch |
| `TraceDeletion.JobDrains` | worker/src/queues/traceDelete.ts:93-119 | a successful job lowers the number of distinct pending traces by a batch or to zero; any other job leaves it |
| `TraceDeletion.StepMeaning` | worker/src/queues/traceDelete.ts:77-119 | each store that answers loses the selected traces and no others, and exactly when both answer their rows are marked; a skipped or empty job does nothing |
| `TraceDeletion.RunDrains` | worker/src/queues/traceDelete.ts:15-131 | n successful jobs leave d - n * batch of d pending traces, whatever ids the jobs carry and whatever fails in between |
| `TraceDeletion.DrainedIff` | worker/src/queues/traceDelete.ts:15-131 | the table is drained if and only if ceil(d / batch) jobs succeeded |
| `TraceDeletion.RunKeepsMarkedGone` | worker/src/queues/traceDelete.ts:93-119 | in every run a row is marked deleted only if both stores deleted its trace |
| `TraceDeletion.StepKeepsMarkedGone` | worker/src/queues/traceDelete.ts:93-119 | one job keeps that, and a failed or skipped job marks nothing |
| `TraceDeletion.TraceDeleteProcessor.Process` | worker/src/queues/traceDelete.ts:15-131 | one job selects, deletes in both stores and marks as specified, and a throwing job leaves the pending table alone |

## Left out

* Dataset run items, which share the ingestion queue but keep no tombstones and have no coalescing of their own.
* The merge of events into projection columns and the key-value side tables: a snapshot is the number of raw
  rows it was rebuilt from and its deletion flag. The generation is modelled in `RawEvents` only.
* The writer's queue (groups, entities in flight, flushes, bisection, requeueing): an accepted snapshot replaces the
  projection row at once. A full flush that claims several groups of one entity, bisects them after a deterministic
  failure and requeues the older half can land them in another order than they were handed over.
* Retention of raw events by age, reconciliation scans, permanently failing jobs and rows that the writer drops
  after refusing them: the model keeps every raw row and puts every failed job back.
* Stamps that are no finite numbers, and JSON parse errors inside a raw history.
* Several concurrent trace-deletion jobs of one project, and pending rows added during a run.
* Month and year steps, daylight saving and time zones in gap filling.
* Floating point: averages, ratios and interval lengths are exact. The source's month length is a
  floating-point product that stands for 2630016000 ms.
* What adding strings or objects to numbers gives in a numeric column: an arbitrary function of the values.
* React state batching and effects: the cap of the scheduler is changed by a method that synchronises at once.
* HTTP errors before the stream starts, abort signals during it, UTF-8 decoding, and the JSON grammar: the
  decoders of rows, counters and error bodies are arbitrary functions of the event text.
* Abort signals in the batch loops arrive between rounds. Dropping the backfill's helper column and setting
  statement timeouts are not modelled.
* The choice of the model whose prices a backfilled row uses: the row carries the result of that join, which is
  the same each time it is read.
* Scheduler key helpers, cache policies, telemetry, logging and metrics.
