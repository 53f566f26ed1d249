# Verified model of kaptanto's delivery, log, backfill and sink logic

kaptanto is a change-data-capture pipeline: source events go into a partitioned, deduplicated
log, a router fans them out to consumers in per-key order, failed entries wait in per-key
queues, and cursors are persisted by a write-behind store. A backfill engine snapshots tables
into the same log, dropping rows that a newer WAL event supersedes. This project models that
logic in Dafny and proves what it promises, over every input, every interleaving of steps and
every crash. `dafny verify dfyconfig.toml` checks all of it.

| files | what they model |
|---|---|
| `Retry`, `Scheduler`, `Dispatch`, `CursorStore` | the four mutable components of delivery, as classes proved against functions on values |
| `Delivery`, `DeliverySafety`, `DeliveryRuns` | the whole protocol for one consumer and one partition as a state machine: poll loop, retry loop, cursor store and crashes interleave freely |
| `DeliveryProgress`, `SavedCursor`, `RetryCounts` | what that machine gets to: how far cursors move, what the store holds when nothing is pending, how often a head is tried |
| `FlushSafety`, `FlushGuard`, `FlushLoss`, `FlushPoison` | the same machine for batch-flushing consumers: clean partitions, the exact condition with blocked groups and skips, the runs that lose an entry, and the poison guard |
| `LogKeys`, `EventLog`, `EventLogSafety` | the byte-ordered store under the log, single and chunked batch appends, failed batches and their retries |
| `Watermark`, `WatermarkBuild`, `UnobservedBatch` | "is this snapshot row superseded?" by paged scan and by an index built while appends run, and what a failed batch does to the index |
| `Keyset`, `Backfill`, `BackfillWatermark` | keyset pages of a changing table, the snapshot that may crash anywhere and resume, and its skips measured against the log |
| `VectorModel`, `VectorSink` | the embedding sink: hash-cache skips, runs, chunks, isolation, acknowledgement |
| `WhereGrammar`, `WhereParser`, `WhereSafety`, `WherePrint`, `WhereLexer`, `WhereTexts` | row-filter expressions from text to tree and back, and exactly which texts are taken apart into which tokens |
| `Ident`, `IdentForms` | table references: parsing and quoting, and exactly which texts mean which names |
| `Ownership` | partition ownership with epochs |

## Where the code does not meet the property

Each of these is kept as the code has it, shown by a lemma with a concrete run or input, and
fenced by the exact condition under which the property holds.

- A floor release is not atomic with the pop it follows. If the poll loop queues a lower entry
  in between, the callback persists a cursor past an entry that is only in memory
  (`DeliveryRuns.FloorReleaseRaceLoses`; exact condition: `ReleaseIsSafeExactlyWhen`). `NoLoss`
  and `PerKeyOrder` hold of every run whose releases meet that condition, and a release that
  does not race meets it (`UnracedReleasesAreSafe`).
- The poll loop saves a cursor after it has left the router's lock, so a floor release can
  overtake the save: with every entry delivered and nothing queued or pending, the store then
  says the old floor until the next event (`OvertakenSavePins`). The store holds the cursor as
  far as the floor lets it exactly when the last save on its way is fresh
  (`StepIsUpToDateExactlyWhen`), and so it does over every run whose last saves are
  (`SavedIsUpToDate`).
- A batch-flushing consumer loses an entry in five ways: the follow-on of a blocked group and
  the skip of a poisoned entry move the durable cursor past entries that are only buffered
  (`BlockedFollowOnLoses`, `SkippedPoisonLoses`); a retried Deliver only buffers its entry, and
  the pop after it releases the floor (`RetriedDeliveryLoses`); an entry queued behind a
  later one is below the floor that caps its own save (`FollowOnBehindLoses`); and an entry that
  a retry delivers and pops while FlushBatch is at work on the batch before it is passed by the
  promotion that follows (`RetryDuringFlushLoses`). A step loses nothing if and only if it meets
  `FlushGuard.Sound` (`StepIsSafeExactlyWhen`), and over every run whose steps do, nothing is
  lost (`FlusherLosesNothing`). The comment at
  internal/router/router.go:938 says that the skip advances the provisional cursor.
- The comment at internal/router/retry.go:246 says that popping only raises the floor. Queues
  are not sorted, so it can also fall (`DeliveryRuns.PopLowersFloor`; exact condition on the
  queue: `PopLowersFloorExactlyWhen`). The floor is proved to be the minimum head instead.
- The guard against dead-lettering a whole stream counts in memory: without a successful flush
  in between, restarts let more than 25 poisons through. The bound that holds is 25 for each
  process in the stretch (`PoisonIsGuarded`), and for every number of restarts a run attains it
  (`RestartsExceedTheGuard`).
- `LoadCursor` does not look at the snapshot in flight and can answer with an older value
  (`LoadDuringFlushIsStale`; exact condition: `LoadIsLatestExactlyWhen`).
- A batch append that fails at a later chunk has committed events that no observer hears of,
  and an index built before it misses one (`FailedBatchIsMissed`; exact condition:
  `IndexAgreesExactlyWhen`).
- A skip by text hash is right exactly for ids whose cache entry describes the stored text or
  for which the window brings a differing change (`HarmlessExactlyWhenReady`). A failed flush
  followed by a shorter window breaks that (`ShorterWindowIsSkipped`); the damage is undone
  once flushes have caught up with how far attempts reached (`DeliverStream`).
- A claim call that fails after winning a row leaves that row owned by a node whose manager
  does not serve it, until the node releases it or is declared stale (`OrphanIsReachable`;
  exact condition: `FailedCallOrphans`; how it ends: `OrphanStays`).
- Quoting drops NUL bytes and accepts an empty table name, so the round trip of a table
  reference has exactly those two exceptions (`RoundTripExactlyWhen`).

One disagreement is between comments only: internal/backfill/backfill.go:350-351 calls an LSN
of 0 conservative, 340-342 says that it suppresses rows. The code suppresses them, and so does
the model.

## Model

| member | source | states |
|---|---|---|
| `Retry.AddBlockedKeepsFloors` | internal/router/retry.go:220-241 | queueing a record lowers the partition's floor just enough: floors stay the exact minimum head per partition |
| `Retry.PopHeadKeepsFloors` | internal/router/retry.go:249-290 | popping a head and recomputing keeps every floor exact and absent exactly when no group is left on the partition |
| `Retry.PopLowersFloorExactlyWhen` | internal/router/retry.go:243-290 | a pop lowers the floor if and only if the popped queue's next record is below the old floor |
| `Retry.FloorIsAlwaysTheHeadMinimum` | internal/router/retry.go:220-306 | after every history of queueing and popping, the incremental floor equals the from-scratch minimum head, both ways |
| `Retry.FloorExists` | internal/router/retry.go:249-273 | a finite set of groups always has a floor value, or none because no group is on the partition |
| `Retry.FloorUnique` | internal/router/retry.go:249-273 | at most one value is the floor |
| `Scheduler.ConsumerRetry.AddBlocked` | internal/router/retry.go:220-241 | the in-place queue and floor update is the specified one |
| `Scheduler.ConsumerRetry.RecomputeFloor` | internal/router/retry.go:249-273 | the loop over groups leaves exactly the floor of the remaining heads and touches no other partition |
| `Scheduler.ConsumerRetry.PopHead` | internal/router/retry.go:281-290 | pop plus recompute, reporting the floor that the release callback gets |
| `Scheduler.ConsumerRetry.TryHead` | internal/router/retry.go:434-495 | one pass over a head: an attempt that is due is answered as its results say, the head delivered, counted, dead-lettered, dropped or kept; one that is not due changes nothing |
| `Scheduler.StepAnswers` | internal/router/retry.go:434-495 | a nil Deliver settles the head; a transient failure below the fifteenth is counted and ends the pass; any other goes to the DLQ, and the head stays only if the DLQ write fails; other groups stay |
| `Scheduler.ConsumerRetry.DrainGroup` | internal/router/retry.go:434-495 | every attempt made is answered, with what arrived before it, and the drain goes on until one ends it; settled records followed by what is queued are what was queued followed by what arrived, for every key; each settlement has an attempt of its own, in order, whose Deliver or DLQ write returned nil, or the DLQ is disabled; each release reports the exact floor of its pop |
| `Scheduler.SteadyDrains` | internal/router/retry.go:434-495 | when every attempt is due and Deliver returns nil, as many records are delivered from the head as there are attempts, or all |
| `Scheduler.ConsumerRetry.CountFailure` | internal/router/retry.go:482-495 | counting an attempt changes neither contents nor floors |
| `Scheduler.Verdict` | internal/router/retry.go:569-648 | a head is kept only when a DLQ is set and its write failed; otherwise its settlement is justified |
| `Dispatch.Router.MinCursorForPartition` | internal/router/router.go:860-878 | the least cursor of the live consumers, 1 when there is none |
| `Dispatch.Router.SnapshotConsumers` | internal/router/router.go:970-1000 | every live consumer is captured with its blocked flag, cursor and skip flag |
| `Dispatch.Router.ApplyDispatchCursors` | internal/router/router.go:1006-1030 | every snapshotted live consumer takes exactly its own update on this partition, no other partition or consumer changes, and the saves come out in order |
| `Dispatch.Router.ApplyOne` | internal/router/router.go:1006-1030 | one consumer's phase 3, and nothing of the others |
| `Dispatch.Router.DispatchUpdateCursor` | internal/router/router.go:1043-1158 | the cursor moves just past an entry that is skipped, queued behind its group, or delivered to a plain consumer, and the save is that or the floor where it is lower; a failed or blocked entry is queued with its count; a flusher's provisional cursor moves; nothing else changes |
| `Dispatch.TookTakes` | internal/router/router.go:1006-1030 | so it is for every live snapshotted consumer of phase 3; any other is left alone and owes no save |
| `Dispatch.OwedInOrder` | internal/router/router.go:1022-1030 | the saves of phase 3 are one for each consumer that owes one, in registration order |
| `Dispatch.Router.PersistCursor` | internal/router/router.go:1162-1172 | the value queued for saving is the cursor capped at the floor |
| `CursorStore.FlushKeepsView` | internal/checkpoint/cursor_store.go:158-220 | no outcome of a flush changes what the store stands for, and a restore never overwrites a newer save |
| `CursorStore.NothingSavedIsLost` | internal/checkpoint/cursor_store.go:84-220 | at every step of every interleaving, dirty over in-flight over durable is the last value saved per key |
| `CursorStore.EveryValueWasSaved` | internal/checkpoint/cursor_store.go:84-220 | with crashes as well, every value anywhere in the store was saved for that key |
| `CursorStore.LoadIsLatestExactlyWhen` | internal/checkpoint/cursor_store.go:99-118 | exactly when LoadCursor answers with the last saved value |
| `CursorStore.LoadDuringFlushIsStale` | internal/checkpoint/cursor_store.go:99-118 | a concrete history in which LoadCursor answers 1 after a larger value was saved |
| `CursorStore.SQLiteCursorStore.SaveCursor` | internal/checkpoint/cursor_store.go:84-89 | only the saved key of the dirty map changes |
| `CursorStore.SQLiteCursorStore.LoadCursor` | internal/checkpoint/cursor_store.go:99-118 | dirty, then durable, then 1 |
| `CursorStore.SQLiteCursorStore.Flush` | internal/checkpoint/cursor_store.go:158-220 | with saves arriving during the transaction and a fault at any point, the store afterwards stands for those saves over what it stood for |
| `CursorStore.SQLiteCursorStore.Upserts` | internal/checkpoint/cursor_store.go:185-206 | the row loop writes the whole snapshot or reports failure |
| `Delivery.FirstFrom` | internal/eventlog/badger.go:414-448 | the first log index at or after a sequence number |
| `DeliverySafety.RunInvariant` | internal/router/router.go:439-1221 | in every state of every run whose releases are settled: every unsettled entry below the memory cursor waits in its queue behind every earlier unsettled one, and every cursor value the store holds is safe |
| `DeliverySafety.MemoryInvariant` | internal/router/router.go:894-1158 | up to the first crash the memory part holds even with raced releases |
| `DeliverySafety.NoLoss` | internal/router/router.go:1006-1221 | across any crashes and failures, every entry from the initial cursor to the durable cursor was delivered, dead-lettered, or dropped for want of a DLQ; the runs are those whose releases meet the exact condition |
| `DeliverySafety.PerKeyOrder` | internal/router/retry.go:434-495 | whenever an entry is handed over, by dispatch or retry, every earlier entry of its key is settled, whatever interleaves with dispatch's three phases |
| `DeliverySafety.LeavesOnlySettled` | internal/router/retry.go:569-648 | for every consumer and every run, raced, crashed or flushing: a step other than a crash keeps every record of a queue in its place, or takes exactly the head, and that head is settled, with a DLQ only by delivery or a DLQ write |
| `DeliverySafety.QueuesInvariant` | internal/router/retry.go:220-306 | in every run queues are well keyed, floors exact and the head being retried is still the head |
| `DeliverySafety.NothingDropped` | internal/router/retry.go:569-648 | with a DLQ configured nothing is ever logged and dropped |
| `DeliverySafety.CappedIsSafe` | internal/router/router.go:1162-1172 | any covered cursor capped at the floor is safe to persist |
| `DeliverySafety.ReleaseIsSafeExactlyWhen` | internal/router/router.go:1199-1221 | a floor release is safe if and only if nothing queued below the released value is unsettled |
| `DeliverySafety.UnracedReleasesAreSafe` | internal/router/retry.go:281-290 | releases with no entry queued between pop and callback meet the exact condition in every run |
| `DeliverySafety.StepKeepsMemory` | internal/router/router.go:894-1221 | every step but a crash keeps the memory invariant and only adds to what is settled or queued |
| `DeliverySafety.StepKeepsStore` | internal/router/router.go:1175-1221 | every step keeps all stored cursor values safe |
| `DeliveryRuns.FloorReleaseRaceLoses` | internal/router/retry.go:281-290 | a concrete run in which a raced release puts the durable cursor past an unsettled entry |
| `DeliveryRuns.PopLowersFloor` | internal/router/retry.go:243-290 | a concrete run whose last pop moves the floor from 2 to 1 |
| `DeliveryProgress.BatchMovesCursor` | internal/router/router.go:439-545 | a batch whose Delivers all return nil ends with a plain consumer's cursor just after its last entry, or where it was if that is further, whatever is blocked or retried meanwhile |
| `DeliveryProgress.FlushMovesCursor` | internal/router/router.go:787-855 | on a clean partition a successful flush moves the cursor just after the batch and saves it, and all of the batch is flushed |
| `SavedCursor.BatchIsSaved` | internal/router/router.go:1006-1172 | with nothing queued, such a batch also ends with that cursor as the last value saved |
| `SavedCursor.StepIsUpToDateExactlyWhen` | internal/router/router.go:1006-1221 | a step leaves the store with the cursor capped at the floor, or saves on their way, if and only if the last save on its way carries that value |
| `SavedCursor.SavedIsUpToDate` | internal/router/router.go:1186-1221 | over every run whose last saves are fresh, with blocked groups, retries and restarts, the store holds the cursor as far as the floor lets it, unless a save is on its way |
| `SavedCursor.OvertakenSavePins` | internal/router/router.go:1022-1030 | a concrete run in which a save overtaken by two releases leaves the store at the old floor with everything delivered |
| `RetryCounts.OutcomeDecides` | internal/router/retry.go:434-495 | what each result of a retried Deliver does to the head, the queues and the retry loop |
| `RetryCounts.FailuresAreCounted` | internal/router/retry.go:482-495 | over any stretch of a run in which a head stays, its counter grows by exactly its transient failures |
| `RetryCounts.CondemnedAfterFifteen` | internal/router/retry.go:51-53 | a transient failure condemns a head exactly when, with those it was queued with, it is the fifteenth or a later one |
| `FlushSafety.ProvisionalCursorIsSafe` | internal/router/router.go:558-603 | under every pattern of flush failures and crashes, with no blocked group and no skipped entry, each entry below the memory and durable cursors was in a batch whose FlushBatch returned nil |
| `FlushSafety.WindowInvariant` | internal/router/router.go:787-855 | what the sink holds, buffered or in flight, is always the log from the cursor on, in order, and the provisional cursor its end |
| `FlushSafety.CursorStays` | internal/router/router.go:1043-1158 | on a clean partition only a successful flush and a crash move a flusher's cursor |
| `FlushSafety.FailedWindowIsRedelivered` | internal/router/router.go:839-855 | after a failed flush the next one of the process has the same cursor, and the two batches taken hold the same entries in the same order, as far as both go |
| `FlushGuard.StepIsSafeExactlyWhen` | internal/router/router.go:558-1221 | a flusher's direct move, pop, release or promotion loses nothing if and only if what it passes or pops is flushed, dead-lettered, dropped or queued, no entry it promotes past is only in the buffer behind the flushed batch, and nothing unsettled waits below the value it saves |
| `FlushGuard.SoundStepKeeps` | internal/router/router.go:439-1221 | a step that meets its condition keeps the invariant of poll loop, queues, buffer, cursor and store |
| `FlushGuard.FlushInvariant` | internal/router/router.go:439-1221 | so does every run of such steps, with crashes, failed flushes and retries while FlushBatch is at work |
| `FlushGuard.FlusherLosesNothing` | internal/router/router.go:558-603 | over every such run each entry below the memory cursor was flushed, dead-lettered, dropped for want of a DLQ, or is queued, and each entry below the durable cursor is not even only queued |
| `FlushLoss.BlockedFollowOnLoses` | internal/router/router.go:1061-1090 | a concrete run that loses a buffered entry behind a blocked follow-on |
| `FlushLoss.SkippedPoisonLoses` | internal/router/router.go:1020-1042 | a concrete run that loses a buffered entry behind a skipped poison |
| `FlushLoss.RetriedDeliveryLoses` | internal/router/retry.go:434-495 | a concrete run that loses an entry which a retry delivered into the buffer only, with no direct move and no raced release |
| `FlushLoss.FollowOnBehindLoses` | internal/router/router.go:1061-1090 | a concrete run that saves a cursor past an entry queued behind a later one |
| `FlushLoss.RetryDuringFlushLoses` | internal/output/vector/consumer.go:279-290 | a concrete run in which every step before the promotion meets its condition: a retry buffers and pops an entry while FlushBatch is at work, and the promotion moves and saves the cursor past it |
| `FlushPoison.SkippedIsDeadLettered` | internal/router/router.go:614-780 | in every run an entry is skipped only after its DLQ write returned nil, and never without a DLQ |
| `FlushPoison.FlushDecides` | internal/router/router.go:558-855 | success ends the streak and forgets the skips up to a promoted cursor; a poison that reaches the DLQ is skipped and counted; any other failure changes neither, and no failed flush moves a cursor |
| `FlushPoison.PoisonIsGuarded` | internal/router/router.go:614-780 | over any stretch without a successful flush, the poisons dead-lettered, counted from the run, number at most 25 for each process |
| `FlushPoison.RestartsExceedTheGuard` | internal/router/router.go:614-780 | for every number of restarts a run that dead-letters 25 poisons in each process without a successful flush |
| `LogKeys.PartKeyOrder` | internal/eventlog/keys.go:42-49 | part keys compare as bytes exactly as (partition, seq) compare as numbers |
| `LogKeys.DecodeInvertsEncode` | internal/eventlog/keys.go:106-111 | decoding a part key gives its partition and sequence number back |
| `LogKeys.EncodeInvertsDecode` | internal/eventlog/keys.go:42-111 | every key of the part-key shape is the encoding of what it decodes to |
| `LogKeys.PrefixSelectsPartition` | internal/eventlog/keys.go:54-61 | a part key has a partition's prefix if and only if it is of that partition |
| `LogKeys.DedupKeysAreDistinct` | internal/eventlog/keys.go:63-95 | equal dedup keys have equal idempotency keys, hashed or not, and none is a part key |
| `LogKeys.PutBigEndian` | internal/eventlog/keys.go:42-49 | the byte loop fills the buffer with the big-endian digits |
| `LogKeys.EncodePartKey` | internal/eventlog/keys.go:42-49 | the filled buffer is the part key |
| `LogKeys.ReadPartition` | internal/eventlog/badger.go:414-448 | seek and iterate returns exactly the first `limit` entries of the partition from `fromSeq` on, ascending, leaving none out |
| `LogKeys.ReadIsUnique` | internal/eventlog/badger.go:414-448 | that specification determines the result |
| `EventLog.PartitionOf` | internal/eventlog/badger.go:470-474 | the partition of a key is its hash modulo the partition count |
| `EventLog.BatchIsSequential` | internal/eventlog/badger.go:252-310 | allocating all sequence numbers first and writing afterwards equals appending one by one, duplicates inside the batch included |
| `EventLog.PrefixIsSequential` | internal/eventlog/badger.go:369-409 | committing the first chunks only equals appending that prefix |
| `EventLog.ChunkRanges` | internal/eventlog/badger.go:322-363 | for any budgets the chunks tile the batch, each has one item or fits, and none but the last could take one more |
| `EventLog.BadgerEventLog.Append` | internal/eventlog/badger.go:158-225 | one transactional append is the specified one |
| `EventLog.BadgerEventLog.CommitChunk` | internal/eventlog/badger.go:369-409 | a chunk writes its items in order and fills in their sequence numbers, 0 for duplicates |
| `EventLog.BadgerEventLog.AppendBatch` | internal/eventlog/badger.go:252-310 | success is the store and sequence numbers of appending one by one; failure is the store of the chunks before the first that breaks or is too large, and nothing observed |
| `EventLog.Observed` | internal/eventlog/badger.go:286-310 | observers are told exactly the events with a sequence number, each once and in batch order |
| `EventLogSafety.ObservesExactlyTheNew` | internal/eventlog/badger.go:286-310 | an event of a batch gets a sequence number, and so is observed, if and only if neither the log nor an earlier event of the batch has its key |
| `EventLogSafety.AtMostOnce` | internal/eventlog/badger.go:178-203 | in a consistent log no idempotency key is stored twice |
| `EventLogSafety.AppendKeepsConsistent` | internal/eventlog/badger.go:158-225 | an append keeps entries and dedup index pointing at each other, and indexes its key |
| `EventLogSafety.RetryLeavesEachOnce` | internal/eventlog/badger.go:252-310 | after any number of failed attempts with other appends in between, and the attempt that succeeds, each key of the batch is in the log, once |
| `EventLogSafety.AttemptPlaces` | internal/eventlog/badger.go:369-409 | where each event of a batch is after an attempt that broke anywhere |
| `EventLogSafety.CommittedStays` | internal/eventlog/badger.go:369-409 | a new event whose chunk was committed stays where the first attempt put it |
| `EventLogSafety.UncommittedMoves` | internal/eventlog/badger.go:369-409 | a new event beyond the failure is where the retry puts it |
| `EventLogSafety.RetryKeepsOrder` | internal/eventlog/badger.go:252-310 | new events keep the batch's order on each partition, wherever and however often the batch broke and whatever others appended in between |
| `Watermark.PageCovers` | internal/backfill/watermark.go:188-213 | a row from the page's start on is on the page, or the page is full and ends before it |
| `Watermark.ShouldEmitScan` | internal/backfill/watermark.go:336-377 | true only if no partition held a superseding event when the scan began, false only if one is in the log, for any length and with appends between pages |
| `Watermark.MergeAllIndexes` | internal/backfill/watermark.go:305-324 | merging any feed gives the highest LSN above the snapshot per key, and gives up exactly when the keys exceed the cap |
| `Watermark.MergeOrderDoesNotMatter` | internal/backfill/watermark.go:305-324 | feeds with the same events, in any order and with repetitions, build the same index |
| `Watermark.WatermarkChecker.ObserveAppend` | internal/backfill/watermark.go:256-269 | each event goes to the index of its own table and no other |
| `Watermark.WatermarkChecker.MergeEntries` | internal/backfill/watermark.go:274-299 | a page is merged into its table's index only |
| `WatermarkBuild.StepKeeps` | internal/backfill/watermark.go:161-216 | every commit, observation, page read and page merge keeps the index exact for what was merged, and leaves no observed event both unread and unmerged |
| `WatermarkBuild.RunInvariant` | internal/backfill/watermark.go:161-216 | so does every interleaving of them |
| `WatermarkBuild.IndexIsSound` | internal/backfill/watermark.go:238-250 | at any time a key the index holds has a committed event with that LSN above the snapshot |
| `WatermarkBuild.IndexIsComplete` | internal/backfill/watermark.go:121-149 | once built and within its cap, the index reports every event whose append was observed before, during or after the build |
| `WatermarkBuild.BuildIsTheIndexOfTheLog` | internal/backfill/watermark.go:161-216 | with every commit observed, a finished build is the index of the whole log, over cap exactly when the log is |
| `WatermarkBuild.IndexAgreesWithScan` | internal/backfill/watermark.go:238-250 | index and full scan give the same answer for every key |
| `WatermarkBuild.IndexAgreesExactlyWhen` | internal/backfill/watermark.go:238-250 | once built and within its cap, index and scan agree on a key if and only if the log does not supersede it or a superseding event was merged |
| `WatermarkBuild.UnobservedCommitIsMissed` | internal/eventlog/badger.go:281-285 | an event committed to any partition behind the build and not observed is missed |
| `UnobservedBatch.BreakSecondChunk` | internal/eventlog/badger.go:252-310 | a two-chunk batch whose second chunk breaks fails, keeps its first event and observes nothing |
| `UnobservedBatch.FailedBatchIsMissed` | internal/eventlog/badger.go:281-285 | on a new log with any number of partitions, an index built before that batch lets the row through that the committed event supersedes; the log that the index is measured against is the store's, row by row |
| `Keyset.SelectPage` | internal/backfill/cursor.go:47-88 | strictly after the last key, ascending, limited, leaving nothing out before the page's end; row values compare column by column |
| `Keyset.PageCovers` | internal/backfill/backfill.go:377-512 | a covered page moves the cursor to its last row without passing an uncovered stable row, whatever was inserted or deleted |
| `Keyset.LastPageCovers` | internal/backfill/backfill.go:516-519 | a page that is not full leaves no stable row uncovered |
| `Keyset.FullPageShrinks` | internal/backfill/backfill.go:377-519 | on a table that stands still each full page leaves that many fewer rows |
| `Keyset.BatchOptimizer.Adjust` | internal/backfill/optimizer.go:27-35 | sizes stay within 100 and 50000, grow by a quarter below a second, halve above three, and stay in between |
| `Backfill.KeysIdentifyEvents` | internal/backfill/backfill.go:573-579 | equal idempotency keys are of the same kind, primary key and snapshot, whatever characters the names hold |
| `Backfill.OneEventPerKey` | internal/backfill/backfill.go:328-338 | the log holds one read event per primary key and snapshot, and one completion per snapshot |
| `Backfill.ReadCovers` | internal/backfill/backfill.go:453-469 | an append that lands covers its row, be it new or a duplicate of an earlier attempt's |
| `Backfill.Engine.SaveState` | internal/backfill/backfill.go:510-512 | whether the save is acknowledged, refused, or durable though reported as failed, what the next attempt loads is a state whose cursor is past no uncovered row |
| `Backfill.Engine.FlushEventBuf` | internal/backfill/backfill.go:531-553 | all events land and the memory cursor moves, or a prefix lands and it does not |
| `Backfill.Engine.EmitPage` | internal/backfill/backfill.go:410-508 | after a page every row of it is read into the log or skipped; what is added carries the row's content and the snapshot's ID and is for rows no newer WAL event supersedes; what is skipped is a row of the page that one does; buffered 256 at a time |
| `Backfill.Engine.TakePage` | internal/backfill/backfill.go:377-512 | one page queried, emitted and saved: the table read is recorded, what is added is of its rows, every saved state is safe, and a page that is not full leaves no stable row uncovered |
| `Backfill.Engine.SnapshotTable` | internal/backfill/backfill.go:290-523 | wherever it dies, no saved cursor is past a row neither read nor skipped, and what it added or skipped is of the pages it read; when it ends, every row on all pages is covered; on a quiet table it ends within rows/100 + 1 pages |
| `Backfill.Engine.Begin` | internal/backfill/backfill.go:290-375 | an attempt resumes the saved state, or saves a new one with its ID before any row; it runs with the saved LSN, or else with the flush LSN if that could be read, or else with 0 |
| `Backfill.Engine.RunOne` | internal/backfill/backfill.go:236-283 | the snapshot ID is durable before the first row and never changes, nor does an LSN once saved; all events added carry the ID and a row's content as a page showed it with no WAL event above the attempt's LSN; all skips are at that LSN with one above it; completed means that every row on all pages is covered; an attempt that meets no failure completes |
| `Backfill.Engine.Announce` | internal/backfill/backfill.go:271-282 | the completion event is in the log before the completed status is saved |
| `Backfill.Engine.ResetForSlotLoss` | internal/backfill/backfill.go:184-218 | a new ID, no cursor, the given LSN, and an unchanged log |
| `Backfill.Engine.RunUntilDone` | internal/backfill/backfill.go:225-283 | over any number of attempts that die anywhere: one snapshot ID; events and skips as each attempt's pages and LSN have them; the LSN saved at first, or each attempt's own or an earlier one's; once one completes every row in the table of every page of every attempt is covered and the completion is announced; if one meets no failure it completes |
| `BackfillWatermark.SkippedIsSuperseded` | internal/backfill/watermark.go:238-250 | at every point of every build, a row skipped on the index's word has a committed event with that LSN above the snapshot |
| `BackfillWatermark.SkipsExactlyTheSuperseded` | internal/backfill/backfill.go:410-508 | with a finished build and every commit observed, the rows of a page that count as superseded are exactly those that the log supersedes |
| `VectorModel.BufferedWhenDifferent` | internal/output/vector/consumer.go:181-245 | an id is buffered exactly when some change to it differs from the cache, and then its last change is |
| `VectorModel.SequentialSays` | internal/output/vector/consumer.go:181-245 | applying events one at a time leaves, for each id, what the last event that changes it says: nothing after a delete, else its text with that text's embedding; without one, what was there |
| `VectorModel.ItemsAreChanges` | internal/output/vector/consumer.go:181-245 | the changes of a window are those its events ask for, each once, in order and under its event's number |
| `VectorModel.SkippingIsHarmless` | internal/output/vector/consumer.go:220-230 | for a ready id the buffered changes and all changes have the same effect, and cache and store agree afterwards |
| `VectorModel.HarmlessExactlyWhenReady` | internal/output/vector/consumer.go:220-230 | and for no other mentioned id |
| `VectorModel.ShorterWindowIsSkipped` | internal/output/vector/consumer.go:220-230 | a concrete failed flush after which a shorter window skips a change that the store lacks |
| `VectorModel.CallSucceeded` | internal/output/vector/consumer.go:414-438 | a successful call moves the flush past its changes, wiping traces of failed calls |
| `VectorModel.CallFailed` | internal/output/vector/consumer.go:414-438 | a failed call leaves every id as it was or holding one of the call's records |
| `VectorModel.FailureKeepsReady` | internal/output/vector/consumer.go:279-318 | wherever a flush fails, every ready id is ready again for any window that starts with the same changes |
| `VectorModel.FailureTracked` | internal/output/vector/consumer.go:279-318 | wherever a flush fails, every id holds what the flushed part of the stream gives or is ahead, and delivering what is ahead repairs it |
| `VectorModel.FlushTracked` | internal/output/vector/consumer.go:279-318 | a successful flush moves its window from what is ahead to what is flushed, whatever earlier failed attempts left behind |
| `VectorSink.SplitRuns` | internal/output/vector/consumer.go:328-338 | maximal runs of one kind whose concatenation is the batch |
| `VectorSink.EmbedKeyIsInjective` | internal/output/vector/consumer.go:347-349 | a kept vector is never reused for another id or text |
| `VectorSink.VectorSinkConsumer.Deliver` | internal/output/vector/consumer.go:181-245 | buffers or skips by cache and pending ids, on its own partition only |
| `VectorSink.VectorSinkConsumer.EnsureEmbedded` | internal/output/vector/consumer.go:440-471 | every kept vector is the embedding of its text, and on success all texts have one |
| `VectorSink.VectorSinkConsumer.Isolate` | internal/output/vector/consumer.go:475-498 | one change at a time up to the first failure; a poison names the first change not written |
| `VectorSink.VectorSinkConsumer.FlushChunk` | internal/output/vector/consumer.go:414-438 | a chunk is written and acknowledged whole, or isolated, or failed |
| `VectorSink.VectorSinkConsumer.FlushRun` | internal/output/vector/consumer.go:351-410 | calls cover the run in order: deletes in one, upserts up to the batch limit and the embedder's cap and no fewer but at the end |
| `VectorSink.VectorSinkConsumer.FlushBatch` | internal/output/vector/consumer.go:279-318 | empties one partition's buffer; success means every change written and acknowledged |
| `VectorSink.VectorSinkConsumer.TryWindow` | internal/output/vector/consumer.go:279-318 | one window delivered and flushed keeps track of the stream, succeeding or failing anywhere, and fails only when a call does |
| `VectorSink.VectorSinkConsumer.DeliverStream` | internal/output/vector/consumer.go:279-318 | over any attempts, of any length, failing anywhere and starting again from further back: their outcomes determine how far the stream is flushed and how far any attempt reached, and where the two meet every id holds what its last event in the flushed stream says, and cache and store agree |
| `WhereSafety.OrComplete` | internal/output/row_filter.go:467-481 | what the grammar derives is parsed, up to what can follow it |
| `WhereSafety.OrSound` | internal/output/row_filter.go:467-593 | what is parsed is derived by the grammar with that tree |
| `WhereSafety.AcceptsExactlyTheGrammar` | internal/output/row_filter.go:6-16 | a token list is accepted with a tree exactly when the grammar derives it with that tree |
| `WhereSafety.TreeIsUnique` | internal/output/row_filter.go:6-16 | no token list has two trees |
| `WherePrint.PrintParsesBack` | internal/output/row_filter.go:463-632 | a tree printed with parentheses only where needed parses back to it |
| `WherePrint.PrintIsMinimal` | internal/output/row_filter.go:463-632 | no token list that parses to the tree is shorter than the print |
| `WhereParser.Parser.ParseValueList` | internal/output/row_filter.go:562-573 | the IN loop reads the specified values and stops right after them |
| `WhereParser.Parser.ParsePrimaryExpr` | internal/output/row_filter.go:511-593 | the position-based primary is the specified one, errors included |
| `WhereParser.Parser.ParseNotExpr` | internal/output/row_filter.go:499-509 | NOT nests to the right |
| `WhereParser.Parser.ParseAndExpr` | internal/output/row_filter.go:483-497 | the loop builds the left-nested AND of the specification |
| `WhereParser.Parser.ParseOrExpr` | internal/output/row_filter.go:467-481 | the loop builds the left-nested OR of the specification |
| `WhereParser.ParseFilter` | internal/output/row_filter.go:59-67 | the whole token list must be consumed |
| `WhereLexer.Tokenize` | internal/output/row_filter.go:341-428 | the index loop produces the specified tokens or error |
| `WhereLexer.LexInvertsSpell` | internal/output/row_filter.go:341-428 | tokens spelt with blanks between them lex back to themselves |
| `WhereTexts.LexesExactly` | internal/output/row_filter.go:341-428 | a text is taken apart into these tokens if and only if it is them, spelt, each as long as it can be, with or without blanks between them |
| `WhereLexer.PrintedTextReadsBack` | internal/output/row_filter.go:48-69 | a filter printed as text reads back as the same filter |
| `Ident.ReadQuoted` | internal/pgident/ident.go:105-124 | the index loop reads the quoted name, doubled quotes undone |
| `Ident.ReadIdent` | internal/pgident/ident.go:87-103 | quoted or plain up to the next dot, rejecting empty names and stray quotes |
| `Ident.SplitQualified` | internal/pgident/ident.go:59-81 | dots inside quotes do not split; a trailing dot or junk is an error |
| `Ident.Parse` | internal/pgident/ident.go:22-46 | one or two non-empty parts, anything else is an error |
| `IdentForms.SplitsExactly` | internal/pgident/ident.go:59-103 | a text splits into these names if and only if it is them, plain or quoted, with dots between them |
| `IdentForms.TrimsExactly` | internal/pgident/ident.go:22-46 | blanks around a reference, and nothing else, are dropped |
| `IdentForms.ParsesExactly` | internal/pgident/ident.go:22-46 | a reference means this schema and table if and only if, blanks around it aside, it is the spelt table, or the spelt schema, a dot and the spelt table |
| `IdentForms.ReferencesParse` | internal/pgident/ident.go:22-46 | plain and quoted names, alone or with a dot between them, and with blanks around them, parse to those names |
| `IdentForms.UnquotedParse` | internal/pgident/ident.go:87-103 | so do unquoted references |
| `IdentForms.ThirdNameIsInvalid` | internal/pgident/ident.go:22-46 | more than two names are an error |
| `IdentForms.OuterDotIsInvalid` | internal/pgident/ident.go:59-81 | a leading or trailing dot is an error |
| `IdentForms.StrayQuoteIsInvalid` | internal/pgident/ident.go:87-124 | an unclosed quote, or one inside a plain name, is an error |
| `Ident.QualifySplits` | internal/pgident/ident.go:50-55 | a quoted reference splits into the names without their NULs |
| `Ident.RoundTripExactlyWhen` | internal/pgident/ident.go:22-124 | quoting then parsing gives the names back if and only if the table is not empty and neither name holds a NUL |
| `Ident.RequotingIsStable` | internal/pgident/ident.go:22-55 | requoting what any NUL-free reference parses to parses to the same names |
| `Ownership.StepKeeps` | internal/cluster/partitions.go:28-43 | every statement, reply, failure and crash keeps grants unique and local maps granted |
| `Ownership.RunInvariant` | internal/cluster/partitions.go:91-175 | so does every interleaving by any number of nodes |
| `Ownership.EpochsAreExclusive` | internal/cluster/partitions.go:28-43 | no two nodes ever hold the same epoch of a partition, at whatever times, and none above the table's |
| `Ownership.CurrentEpochIsTheOwners` | internal/cluster/partitions.go:91-175 | who holds the table's epoch is the recorded owner or has released it, and is the only one |
| `Ownership.FailedCallOrphans` | internal/cluster/partitions.go:114-120 | a failed call orphans a won row if and only if the manager did not have it before |
| `Ownership.OrphanArisesExactlyWhen` | internal/cluster/partitions.go:91-175 | a row becomes an orphan exactly by a call that fails after taking it, a manager that forgets it without releasing it, or a crash |
| `Ownership.FinishedCallServes` | internal/cluster/partitions.go:91-160 | when a claiming or stealing call ends, every row it took is with store and manager, at an epoch one above the row's epoch before |
| `Ownership.OrphanStays` | internal/cluster/partition_manager.go:125-159 | an orphan ends exactly with the node's release or its being declared stale |
| `Ownership.OrphanStaysForever` | internal/cluster/partition_manager.go:125-159 | over whole runs |
| `Ownership.OrphanIsReachable` | internal/cluster/partitions.go:106-130 | a concrete run to an orphan |
| `Ownership.WonByIsLast` | internal/cluster/partitions.go:91-160 | what a call takes over is, for each partition some reply before an error won, the epoch of the last of them |
| `Ownership.PartitionStore.ReadClaims` | internal/cluster/partitions.go:91-160 | what was won before an error stays in the store's map and is not returned |
| `Ownership.PartitionManager.ClaimAndApply` | internal/cluster/partition_manager.go:125-159 | the manager takes over the claims of a successful call only |
| `Ownership.PartitionManager.ReleaseAll` | internal/cluster/partition_manager.go:109-122 | the manager forgets everything even when the release failed |

## Left out

- Integer widths: sequence numbers, epochs and LSNs are unbounded; the key encoding is proved for values that fit their fields, and overflow of a counter is not modelled.
- Retention: entries do not expire.
- Timing: backoff, jitter, polling, notify channels and heartbeats; steps happen in any order instead. Liveness is stated only for the snapshot of a quiet table.
- SHA-256, FNV-1a, canonical JSON and the embedder are functions, without collisions where that is needed; JSON values, ULIDs, timestamps and vector metadata are not part of this model. A hash-cache skip is judged by text alone, as in the code.
- The saved backfill cursor is read back as it was saved; its trip through JSON is not modelled. Strategies other than taking a snapshot only set a status.
- `Register`, `Unregister`, `DeleteCursor` and changes of the consumer list during a run; consumer ids are unique, keys decode, and a key determines its partition.
- NATS log, Kafka, SQS, Pub/Sub, RabbitMQ, webhook, gRPC and SSE outputs: a sink is only "Deliver may fail, FlushBatch may fail".
- The Postgres cursor store, WAL leader lease, and the use of epochs to fence delivery in cluster mode.
- Row-filter evaluation against a row, number overflow in literals, and extraction errors of the vector sink.
- Table globs, column filters, enrichment, metrics, configuration, CLI: easy members only.
- FlushSafety.FailedWindowIsRedelivered: the two windows may differ in length, because the read limit is counted from the lowest cursor of all consumers.
- Backfill.Appended: the log as the snapshot sees it, one entry per idempotency key; that the stored log behaves so is `EventLogSafety.AtMostOnce` and `EventLogSafety.AppendKeepsConsistent`.
- VectorSink.VectorSinkConsumer.DeliverStream: cache writes succeed; a window that ends before an earlier failed attempt did can leave an id behind for a while, as `VectorModel.ShorterWindowIsSkipped` shows, so the store is compared where flushes have caught up.
- VectorSink.VectorSinkConsumer.FlushBatch: a flush is not interleaved with deliveries into the buffer behind it; what that does to cursors is modelled in `Delivery`.
- Delivery.Do: a pop between the queueing of an entry and the floor read of the same dispatch is not a step of its own; the value saved is then no higher than what the release of that pop saves.
