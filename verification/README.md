# Verified model of the collector

A Dafny model of the parts of the collector that must not lose, repeat or reorder anything, with proofs
about whole runs. Each locked database transaction and each Lua script is one atomic step; everything
between such steps may interleave. Code that changes state is modelled by classes and loops, each proved
against a pure specification, and the theorems are about runs of those specifications.

| files | what they model |
|---|---|
| `Journal*.dfy`, `PgStore.dfy` | the donation journal: owner grants, gap-free offsets, retention, generations, consumer cursors and audited recovery |
| `Worker*.dfy`, `DonationSpool.dfy` | the worker's grant deadline and its crash-safe spool in front of the journal |
| `Segments.dfy`, `Archive*.dfy`, `PgArchive.dfy` | the chat archive: hot rows, immutable segments, exporters with stale batches, paging |
| `Fencing.dfy` | leader leases and fencing tokens |
| `Discovery.dfy`, `DiscoveryCycles.dfy` | discovery cycles and the rule for ending a broadcast |
| `Chat*.dfy`, `WatchChat.dfy` | the trimmed recent-chat stream, its polling reader and what it goes through |
| `BatchWriter.dfy`, `Soop.dfy`, `RateLimit.dfy` | the retrying batch writer, the packet framing, the token bucket |
| `Least.dfy` | least elements, for ordered and limited selections |

`dafny verify dfyconfig.toml` checks everything.

## How it is built

The journal is a value `Store` with one function per transaction (`JournalOps`). `JournalRuns` lists the
sixteen operations and a history of what was issued, granted, delivered and audited. Four invariants
(shape, authority, deduplication, coverage) and the retention rule are kept by every operation, and
`JournalTheorems` draws the conclusions for every reachable state. `JournalRecovery` adds what a recovery
may skip, `JournalConsumers` what is settled, `JournalAudit` what stays on record, and `JournalEffects` says
when each transaction succeeds and what it then changes. `PgStore` holds the same tables as fields, and its
methods, with the loops of the source, are proved to do what those functions say. `WorkerRuns` puts workers,
file operations and crashes around that machine.

The archive has one simple meaning, the session's log: hot rows together with the rows of indexed
segments, in position order (`ArchiveLog.IsLog`). `ArchiveExport` and `ArchiveRuns` show what every
transaction does to it, `ArchiveRows` what its rows say, `ArchivePage` that the bounded merge reads it, and `ArchiveTrail` that pages read
one after the other add up to it.

## Assumptions

- One logical clock; worker and database share it. Transactions are atomic and serial.
- `next_offset` and `expired_through` start at 0 and offsets compare numerically; `event_id` is unique in
  the journal and (`session_id`, `event_id`) in the archive (`shared/migrations/006_collector_delivery.sql`,
  `shared/migrations/007_public_chat_archive.sql`). Archive positions come from an increasing sequence,
  which may skip values.
- Generated identifiers are new. An event has one acceptance time, a spool ID names one chat.
- A row's line and its compression decode to what was encoded, and no two bodies share a digest
  (`Segments.Lawful`). Object keys are the four values they are made of.
- Unseen outcomes (lost replies, failed writes, object availability, live checks, parsed timestamps) are
  parameters, so every combination is covered.

## Where the code says less than one might expect

- A recovery that names another generation than the journal's needs no audit. It may skip events for an
  unknown consumer (`UnknownConsumerSkips`) and for a registered one (`RegisteredConsumerSkips`);
  `RecoveryLosesNothing` says exactly when it skips none.
- A poll whose cycle is aborted before its upsert does not count as a sighting. `LostSightingEnds` shows a
  channel ended right after such a poll; `EndedSinceLastSeen` says exactly when an ended channel was missed
  twice since it was last seen.
- A close of the batch writer does not wait for rows that another flush has in flight
  (`DrainedMayLeaveRows`). If no other flush starts during the close, drained means flushed exactly unless
  the close finds an empty buffer and a running flush (`Close`).
- A reader of the chat stream is told of a gap when the entry it read last has been trimmed, even if nothing
  is missing (`MarkWithoutGap`); `GapsAreReal` says exactly when something is.
- The deadline an instance sets after acquiring a lease counts from the answer and may outlast the lease;
  the one it sets after a renewal does not (`RenewalHolds`). The expiry guard makes up for this exactly if
  the operation timeout is no longer than the guard (`GuardOfElection`, `LateAnswerOutlastsLease`).

## Model

| member | source | states |
|---|---|---|
| `JournalTheorems.OwnersNeverOverlap` | shared/store/collector.go:100-176 | In every reachable state two grants of a channel share at most one instant of authority, a live grant is the one `owner_token` names, and that token names a stored grant of the channel |
| `JournalTheorems.EventsAndOffsetsPairUp` | shared/store/collector.go:184-239 | Over every run an event ID gets at most one offset, an offset at most one event, and every offset up to `next_offset` was given out |
| `JournalTheorems.EveryEventWasAuthorized` | shared/store/collector.go:218-233 | Every journaled event was accepted at its one acceptance time, within [granted_at, valid_until] of the grant it came with, and at most one second past the closing of a grant that was closed afterwards |
| `JournalTheorems.NoSilentLoss` | shared/store/collector_consumer.go:62-176 | For a consumer whose recoveries stayed in one generation, every event up to its ack or baseline was returned to it, lies in an audited range, or had expired before it registered |
| `JournalTheorems.UnforcedRetentionWaits` | shared/store/collector_consumer.go:386-463 | Until a limit forces expiry on a channel, `expired_through` never passes the ack or baseline of any of its consumers |
| `JournalTheorems.ReachableInv` | shared/store/collector.go:100-283 | All invariants together hold in every state reachable from the empty database by any interleaving of the sixteen operations |
| `JournalTheorems.StepKeepsInv` | shared/store/collector_maintenance.go:12-70 | Every single transaction keeps all of them |
| `JournalRuns.StepKeepsShape` | shared/store/collector_consumer.go:62-138 | Every transaction keeps the journal shape: current generation on every row, one payload per unexpired offset and none below, cursors in range |
| `JournalAuthority.StepKeepsAuthority` | shared/store/collector.go:100-176 | Every transaction, with any passage of time, keeps owner intervals apart and the owner token pointing at the live grant |
| `JournalDedup.StepKeepsDedup` | shared/store/collector.go:184-239 | Every transaction keeps one row per replayable event: the 30-day replay limit is shorter than the 90-day tombstone life |
| `JournalDedup.CleaningKeepsDedup` | shared/store/collector_maintenance.go:12-36 | A deleted tombstone belongs to an event that no append would accept any more |
| `JournalDedup.NewEventIsFresh` | shared/store/collector.go:198-239 | An event that is newly journaled was never given an offset before |
| `JournalCoverage.StepKeepsCoverage` | shared/store/collector_consumer.go:62-176 | Every transaction keeps every offered offset of an uncrossed consumer accounted for |
| `JournalCoverage.ReadDelivers` | shared/store/collector_consumer.go:96-138 | A read returns every event ever issued in the range it moves the cursor over |
| `JournalCoverage.CoverIsSound` | shared/store/collector_consumer.go:299-337 | A list the coverage loop accepts covers every skipped offset and claims none past where it ends |
| `JournalCoverage.CoverIsComplete` | shared/store/collector_consumer.go:299-337 | An ordered list that covers all skipped offsets is accepted if and only if no range follows after the last 64-bit offset was reached, where the successor wraps |
| `JournalRecovery.RecoveryLosesNothing` | shared/store/collector_consumer.go:257-351 | In every run the next recovery of a consumer that has skipped nothing so far leaves nothing unaccounted if and only if it stays in its generation or resumes no later than the highest offset ever offered to the consumer |
| `JournalRecovery.NoLossAcrossGenerations` | shared/store/collector_consumer.go:62-351 | For a consumer whose recoveries from other generations each resumed no later than that, every event up to the highest offset ever offered to it was returned to it, lies in an audited range, or had expired before it registered, over any number of rotations |
| `JournalRecovery.UncrossedIsUnskipped` | shared/store/collector_consumer.go:303-337 | Consumers never recovered from another generation are among these |
| `JournalRecovery.FirstCrossingLosesNothing` | shared/store/collector_consumer.go:257-351 | For a consumer without earlier recoveries the limit is its offered offset, and 0 if the consumer is unknown |
| `JournalRecovery.CrossingAddsNothing` | shared/store/collector_consumer.go:303-337 | A recovery across generations of a known consumer changes nothing about what is accounted for |
| `JournalRecovery.UnknownConsumerSkips` | shared/store/collector_consumer.go:281-346 | A concrete run in which an unknown consumer names another generation and skips an event without an audit |
| `JournalRecovery.RegisteredConsumerSkips` | shared/store/collector_consumer.go:303-346 | A concrete run in which a registered consumer skips an event when it recovers across a rotation |
| `JournalRecovery.CrossingSkips` | shared/store/collector_consumer.go:257-351 | A recovery from another generation that resumes past everything shown or audited leaves the event there unaccounted |
| `JournalAudit.DecisionsStayOnRecord` | shared/store/collector_consumer.go:339-350 | In every run each recovery decision and each restore is in the audit table, or was made over a year ago |
| `JournalRetention.StepKeepsRetained` | shared/store/collector_consumer.go:386-463 | Every transaction keeps cursors at or beyond the expired prefix of unforced channels |
| `JournalRetention.ExpireMeetsLimit` | shared/store/collector_consumer.go:399-463 | A successful expiry only extends the expired prefix, and ends within the byte limit or with all of its at most 500 candidates expired |
| `JournalRetention.UnforcedReach` | shared/store/collector_consumer.go:430-449 | Without a forced row expiry stops at or before what every consumer has settled |
| `JournalRetention.ExpiryIsExact` | shared/store/collector_consumer.go:386-463 | An expiry drops payloads in offset order, at most 500, exactly as long as each is over the age limit, the bytes from it on exceed the size limit, or it has its minimum age and every consumer, of at least one, has settled it in the current generation |
| `JournalRetention.ExpiryKeepsRows` | shared/store/collector_consumer.go:450-463 | It keeps every row, and exactly the payloads past the new expired prefix |
| `JournalConsumers.SettledIsLastSaid` | shared/store/collector_consumer.go:139-176 | In every run what a consumer has settled is exactly the last offset it acknowledged, resumed from, or found expired when it registered |
| `JournalConsumers.SettledNeverFalls` | shared/store/collector_consumer.go:139-176 | Over any stretch of a run within one revision what a consumer has settled never falls |
| `JournalConsumers.RecoveryIsRepeatable` | shared/store/collector_consumer.go:264-275 | In every run a recovery asked for again within ninety days changes nothing and gets the same decision |
| `JournalConsumers.SubscriptionIsRepeatable` | shared/store/collector_consumer.go:197-245 | In every run a subscription request repeated within ninety days changes nothing and gets its first answer; the opposite one under its key is refused |
| `JournalEffects.EnsureEffect` | shared/store/collector.go:47-56 | A channel gets its row once: subscribed, unowned, with nothing journaled; all other rows stay |
| `JournalEffects.AcquireEffect` | shared/store/collector.go:100-145 | The assigned worker gets a grant exactly if the channel is subscribed, not opted out and unowned; it accepts exactly the observations of the next thirty seconds |
| `JournalEffects.RenewEffect` | shared/store/collector.go:146-172 | Exactly the owner of a live grant on a collected channel it is still assigned to prolongs it, to thirty seconds from now |
| `JournalEffects.ReleaseEffect` | shared/store/collector.go:173-179 | The grant accepts nothing later than the release, and what it accepted before it still does |
| `JournalEffects.AppendEffect` | shared/store/collector.go:180-283 | A new event is journaled exactly if its channel is collected, its grant covers it and there is an offset and room left; it is stored as observed under the next offset and queued for dispatch |
| `JournalEffects.ReplayEffect` | shared/store/collector.go:203-216 | A replay changes nothing and gets the stored donation exactly if the payload is there and tells the same observation |
| `JournalEffects.QuietWhileUncollected` | shared/store/collector.go:221-223 | Over any stretch of a run in which a channel is never collected no event of it gets an offset |
| `JournalEffects.NothingUncollected` | shared/store/collector.go:100-223 | No acquisition, renewal or new event succeeds on a channel that is not collected |
| `JournalEffects.AckEffect` | shared/store/collector_consumer.go:139-176 | An acknowledgement is accepted exactly if it names an offered offset that is not behind what is settled; it settles exactly that offset and changes nothing else |
| `JournalEffects.SubscribeEffect` | shared/store/collector_consumer.go:197-245 | After an applied request the channel is collected exactly if it enables it; one that disables it closes exactly the grants of the channel |
| `JournalEffects.ResolveExactly` | shared/store/collector_consumer.go:276-335 | A recovery is decided exactly if it names the current generations, revision and a retained offset, and covers what it skips within a generation |
| `JournalEffects.ResolveEffect` | shared/store/collector_consumer.go:336-351 | The decision tells what was settled before, and where, in which generation and under which revision the consumer now is; it is kept as the answer and in the audit table |
| `JournalEffects.RotateEffect` | shared/store/collector_maintenance.go:40-70 | All rows of the channel move to the next generation with offsets and payloads unchanged, its grants are closed, and the restore is on record |
| `JournalEffects.CleanupEffect` | shared/store/collector_maintenance.go:18-30 | Of the channel exactly the dispatch entries, tombstones without one and grants not owning it that are over ninety days old are deleted |
| `JournalEffects.CleanupForgets` | shared/store/collector_maintenance.go:18-36 | Likewise its answered requests; other tables but the audit stay |
| `JournalQuery.Select` | shared/store/collector_consumer.go:96-116 | The ordered, limited selection returns the least matching offsets and nothing else |
| `JournalQuery.SelectedIsNext` | shared/store/collector_consumer.go:96-138 | On a journal in shape the selection after a valid cursor is exactly the next min(limit, current - after) offsets |
| `PgStores.Covers` | shared/store/collector_consumer.go:299-337 | The loop accepts exactly when the ranges carry the settled offset to the resume offset |
| `PgStores.SumPayloads` | shared/store/collector_consumer.go:399-403 | The sum equals the total payload size of the channel |
| `PgStores.Candidates` | shared/store/collector_consumer.go:404-429 | The candidates are the payloads of the next offsets after the expired prefix: a full batch, or all there are |
| `PgStores.ExpireLoop` | shared/store/collector_consumer.go:430-449 | The loop stops exactly where the specification of reachable expiry does |
| `PgStores.Deliver` | shared/store/collector_consumer.go:96-138 | The delivery loop yields exactly the next events in offset order and its contiguity error never fires |
| `PgStores.DeliveriesAreReturned` | shared/store/collector_consumer.go:96-138 | What a run counts as delivered by a read is exactly the rows it returns |
| `PgStores.PgStore.EnsureCollection` | shared/store/collector.go:47-56 | New state and result are those of the transaction |
| `PgStores.PgStore.AcquireCollection` | shared/store/collector.go:100-145 | New state and result are those of the transaction, error cases included |
| `PgStores.PgStore.RenewCollection` | shared/store/collector.go:146-172 | New state and result are those of the transaction, error cases included |
| `PgStores.PgStore.ReleaseCollection` | shared/store/collector.go:173-179 | New state is that of the transaction, which takes no channel lock |
| `PgStores.PgStore.AppendDonation` | shared/store/collector.go:180-283 | New state and result are those of the transaction; a replay changes nothing |
| `PgStores.PgStore.ReadDonations` | shared/store/collector_consumer.go:62-138 | New state is that of the transaction. It succeeds exactly at a cursor the consumer may read from, returns exactly the next events, as many as there are up to the limit or its default of 100, and offers exactly these |
| `PgStores.PgStore.AckDonations` | shared/store/collector_consumer.go:139-176 | New state and result are those of the transaction, which `AckEffect` and `SettledIsLastSaid` are about |
| `PgStores.PgStore.SetSubscription` | shared/store/collector_consumer.go:197-256 | New state and result are those of the transaction, request idempotency included |
| `PgStores.PgStore.ResolveRecovery` | shared/store/collector_consumer.go:257-351 | New state and result are those of the transaction, with the coverage loop |
| `PgStores.PgStore.ExpireDonations` | shared/store/collector_consumer.go:386-463 | New state and result are those of the transaction |
| `PgStores.PgStore.DeleteOld` | shared/store/collector_maintenance.go:18-36 | New state is that of the deletions of old outbox rows, tombstones, grants, requests and audit rows |
| `PgStores.PgStore.MaintainCollection` | shared/store/collector_maintenance.go:12-36 | Expiry by the product limits, then the deletions, only if expiry succeeded |
| `PgStores.PgStore.RotateJournal` | shared/store/collector_maintenance.go:40-70 | New state and result are those of the transaction |
| `WorkerSafety.SavedIsNeverLost` | worker/internal/pipeline/spool.go:106-228 | In every run, once a save is acknowledged the record is on disk now and after whatever a crash leaves, or it was journaled; nothing is journaled twice |
| `WorkerSafety.PublishedWithinGrant` | worker/internal/collection.go:29-78 | Every record ever published was accepted within [granted_at, valid_until] of its grant, across any sequence of renewals |
| `WorkerSafety.DoKeepsGood` | worker/internal/pipeline/spool.go:106-228 | Every step of worker, spool and database keeps the invariant behind both |
| `WorkerSafety.AcquiredIsBacked` | worker/internal/collection.go:29-45 | A deadline measured from before the database call lies within the grant |
| `WorkerSafety.CrashKeepsSpool` | worker/internal/pipeline/spool.go:139-172 | A crash between any two file operations loses no synced record |
| `WorkerProgress.SaveGoesThrough` | worker/internal/pipeline/spool.go:106-228 | Whenever a donation may be saved and the journal accepts it, a run of the worker publishes, submits and acknowledges it and leaves the spool empty |
| `WorkerProgress.SaveSurvivesOutage` | worker/internal/pipeline/spool.go:106-228 | With the journal out of reach a run acknowledges the save and keeps its record durably on disk |
| `WorkerProgress.AcquiredSession` | worker/internal/collection.go:29-45 | A session holds its grant until thirty seconds after it asked |
| `WorkerProgress.RenewedSession` | worker/internal/collection.go:66-78 | A confirmed renewal moves that to thirty seconds after its own request |
| `DonationSpools.Sorted` | worker/internal/pipeline/spool.go:74-105 | The listing is every published file once, in name order |
| `DonationSpools.DonationSpool.Drain` | worker/internal/pipeline/spool.go:173-228 | Exactly a prefix of the name-sorted files is removed, each journaled, and the journal is what submitting it makes it. A drain stops exactly at a record over thirty days old, at an outage or failed append, or at one refused for good, and says which |
| `DonationSpools.DonationSpool.Files` | worker/internal/pipeline/spool.go:74-105 | Lists the directory in name order with the sum of its bytes, exactly if no record is incomplete and no entry unknown |
| `DonationSpools.DonationSpool.Save` | worker/internal/pipeline/spool.go:106-172 | A record that passes every check is published and the answer is that of the drain that follows; otherwise the answer is the first check it fails, and directory and journal stay as they were |
| `Segments.Build` | query/archive/segment.go:53-93 | A segment is built exactly from rows that are in order and fit; orderly rows that do not fit are reported as too large, and nothing that fits is |
| `Segments.Decode` | query/archive/segment.go:97-142 | Rows are returned exactly when checksum, limits, order, count and range all agree |
| `Segments.BuiltDecodes` | query/archive/segment.go:53-142 | Round trip: what was built decodes to the very rows it was built from |
| `ArchiveState.Commit` | query/archive/postgres.go:92-144 | A successful commit has indexed the segment and changed only the index and the hot rows |
| `ArchiveLog.LogIsUnique` | query/archive/read.go:27-30 | A state determines the log of a session |
| `ArchiveLog.LogRowsDiffer` | shared/store/postgres_chat_archive.go:123-135 | Two log rows with the same position or the same event are one row |
| `ArchiveExport.AppendKeeps` | shared/store/postgres_chat_archive.go:48-151 | An append keeps the invariant and adds at most one row, at a new position past all others, for an event not yet known |
| `ArchiveExport.UploadKeeps` | query/archive/exporter.go:42-45 | Uploading changes no object an entry refers to and no log |
| `ArchiveExport.CommitDeletesBatch` | query/archive/postgres.go:136-142 | The hot rows a commit deletes are exactly the batch, so the counts agree |
| `ArchiveExport.CommitOutcome` | query/archive/postgres.go:108-144 | A commit of a batch is refused exactly for a foreign session or an overlap with another segment, and otherwise done, once |
| `ArchiveExport.CommitKeeps` | query/archive/postgres.go:92-144 | Committing any stored batch, however stale, keeps the invariant and every log, and never fails on the row count |
| `ArchiveRuns.CandidateIsBatch` | query/archive/postgres.go:47-87 | What a batch query selects is all of the log between its ends |
| `ArchiveRuns.StepKeepsConsistent` | query/archive/postgres.go:13-16 | Every step of writers and exporters keeps the invariant and extends at most one log, by one row at its end |
| `ArchiveRuns.RunGrowsLog` | shared/store/postgres_chat_archive.go:60-150 | Over every run a session log only grows at its end, with positions past all earlier ones |
| `ArchiveRuns.ReachableLog` | shared/store/postgres_chat_archive.go:123-150 | In every reachable archive each session has one log, with strictly increasing positions and distinct event IDs |
| `ArchiveRuns.AcceptedIsKept` | shared/store/postgres_chat_archive.go:93-150 | Every accepted chat is queued for its broadcast or its event is in the log of a session of its channel |
| `ArchiveRows.RowsAreGenuine` | shared/store/postgres_chat_archive.go:123-140 | In every reachable archive each row of a log carries, field by field, an accepted chat of a channel of that session |
| `ArchiveRows.NewChatIsLogged` | shared/store/postgres_chat_archive.go:60-150 | A chat with exactly one running broadcast whose event is new to its session is in that log from then on, word for word, past all earlier rows, and no longer waits |
| `ArchiveRows.AcceptedIsShown` | shared/store/postgres_chat_archive.go:93-150 | Every accepted chat waits, or its event has such a row in a session of its channel |
| `ArchiveRows.CoversWindow` | shared/store/postgres_chat_archive.go:66-73 | A broadcast is running from half a minute before it was observed and started to its end, and no longer than ten minutes after it was last seen |
| `ArchiveRows.OtherChatsWait` | shared/store/postgres_chat_archive.go:92-107 | A chat without exactly one running broadcast waits as it is |
| `ArchiveRuns.ExportIsLossless` | query/archive/postgres.go:33-144 | Committing any stale batch of any exporter in a reachable archive leaves ranges disjoint and clear of hot rows and every log unchanged; the count mismatch is unreachable |
| `ArchivePage.SelectSegments` | query/archive/read.go:46-75 | The first four segments after the cursor, and as boundary the start of the fifth |
| `ArchivePage.SelectHot` | query/archive/read.go:76-95 | The first limit + 1 hot rows after the cursor and below the boundary |
| `ArchivePage.AppendHotBefore` | query/archive/read.go:101-106 | The merge front advances over exactly the hot rows before the position |
| `ArchivePage.AppendSegment` | query/archive/read.go:128-138 | The merge front advances over the segment; no hot row is ever in the way |
| `ArchivePage.ReadSegment` | query/archive/read.go:112-127 | Fails exactly for another bucket or an unreachable object; key and decoding errors cannot occur |
| `ArchivePage.Merge` | query/archive/read.go:99-148 | The rows are the log from the cursor, up to one more than the page or up to the boundary; it fails exactly if a segment it reaches cannot be read |
| `ArchivePage.HasRepetition` | query/archive/read.go:149-153 | Reports exactly whether two neighbours share a position |
| `ArchivePage.FinishPage` | query/archive/read.go:149-163 | Rows, cursor and HasMore are right, a page with more to come is full or ends at the boundary, and the duplicate error cannot occur |
| `ArchivePage.ReadChatsPage` | query/archive/read.go:30-164 | A page is given exactly if all segments it needs can be read, and is then exactly the next rows of the log, with HasMore exactly if rows remain and a cursor that advances; such a page is full or ends right before the fifth segment; otherwise the error is that of the first segment that cannot be read |
| `ArchiveTrail.PageIsSlice` | query/archive/read.go:143-163 | A page is a slice of the sorted log right after the cursor |
| `ArchiveTrail.FollowingShowsTheLog` | query/archive/read.go:70-163 | Following cursors while appends and exports interleave shows each log row once and in order, and all of them when the last page ends it |
| `PgArchives.PgArchive.AppendArchiveChat` | shared/store/postgres_chat_archive.go:48-151 | New state is that of the transaction; refused exactly for invalid or disallowed records; says whether a broadcast was found; what its rows then say is stated by `RowsAreGenuine` and `NewChatIsLogged` |
| `PgArchives.PgArchive.ReconcileUnassigned` | shared/store/postgres_chat_archive.go:156-198 | New state is that of appending the records up to the first refused one; counts the assigned ones |
| `PgArchives.PgArchive.NextBatch` | query/archive/postgres.go:33-87 | Starts at the oldest eligible row and goes on until the limit, the next segment or the last hot row |
| `PgArchives.BatchStartsAtOldest` | query/archive/postgres.go:33-60 | There is a batch exactly if a hot row of the channel was received before the cutoff, and it starts at the first of these |
| `PgArchives.PgArchive.CommitSegment` | query/archive/postgres.go:92-144 | Unverified exactly if the segment does not decode or has no bucket; else the outcome and state of the commit; an error changes nothing |
| `PgArchives.Exporter.Shrink` | query/archive/exporter.go:30-41 | Ends with a prefix that fits one segment, or with a single row that does not |
| `PgArchives.Exporter.RunOnce` | query/archive/exporter.go:25-50 | A segment is moved unless there is no batch, the object cannot be stored, no bucket is named or the first row does not fit; then the first rows of the batch are an indexed segment and no longer hot. Whatever happens every log stays as it was |
| `Fencing.LeaseStore.TryAcquireLeaderLease` | shared/store/redis.go:58-73 | New keys and answer are those of the script |
| `Fencing.LeaseStore.RenewLeaderLease` | shared/store/redis.go:75-90 | New keys and answer are those of the script |
| `Fencing.LeaseStore.ReleaseLeaderLease` | shared/store/redis.go:175-196 | New keys and answer are those of the script |
| `Fencing.LeaseChangesHands` | shared/store/redis.go:58-90 | The lease is taken exactly while nobody holds it, renewed exactly by its holder, and free at once after its holder gave it back |
| `Fencing.ValidTokenIsLast` | shared/store/redis.go:162-173 | In every run a token is valid if and only if a fence key is present and no newer token was issued |
| `Fencing.LeaderElection.TryAcquire` | discover/internal/leader.go:206-230 | The instance takes over exactly the token it is told it holds |
| `Fencing.LeaderElection.TryRenew` | discover/internal/leader.go:233-274 | The instance keeps, refreshes or concedes leadership as the answer and its remaining time demand |
| `Fencing.TrustsOneLease` | discover/internal/leader.go:214-270 | A held lease is trusted for its length from the answer of an acquisition or the request of a renewal; a refusal ends leadership |
| `Fencing.RetryFitsBeforeGuard` | discover/internal/leader.go:292-300 | After more failures than allowed an instance goes on only if the next retry comes before its guard |
| `Fencing.RenewalHolds` | discover/internal/leader.go:233-274 | In every run, from a renewal until the local deadline it set, the instance holds the lease and no newer token is issued, unless a key is lost or it shuts down itself |
| `Fencing.GuardOfElection` | discover/internal/leader.go:72-117 | Of every configuration, normalized: in every run without lost keys in which acquisitions are answered within the operation timeout, an instance that goes on leading after a failed renewal still holds the lease, if and only if the operation timeout is at most the expiry guard or the guard at least the lease, which leaves only leases up to a second; the defaults meet this |
| `Fencing.GuardIsExact` | discover/internal/leader.go:238-257 | The same for any configuration that allows a renewal to fail once |
| `Fencing.OneLeaderWithinGuard` | discover/internal/leader.go:215-219 | If the operation timeout is at most the guard, in every such run no two instances at once lead with more than the guard left, and one that does holds the lease with a valid token |
| `Fencing.LateAnswerOutlastsLease` | discover/internal/leader.go:210-219 | For every other configuration a run in which it fails: the acquisition is answered late, both keys expire, a renewal fails, and the instance goes on leading |
| `Fencing.TokensIncrease` | shared/store/redis.go:61-90 | Over every run issued tokens strictly increase |
| `Fencing.FenceIsLast` | shared/store/redis.go:61-90 | A present fence key holds the last issued token |
| `Fencing.StaleCyclesAreFenced` | discover/internal/discover.go:359-380 | No cycle passes a lease check after a newer token was issued to anyone, and every token that passes was issued |
| `Discovery.ProcessedAt` | discover/internal/history/emitter.go:101-210 | After processing, recorded channels count from zero and all others are as before |
| `Discovery.Emitter.ProcessDiscovered` | discover/internal/history/emitter.go:101-156 | New counters are those of processing the found channels in order |
| `Discovery.Emitter.DetectEndedChannels` | discover/internal/history/emitter.go:235-278 | Counters, channels held active and channels to end are exactly those of the poll, whatever the iteration order |
| `Discovery.Emitter.ResetMissedPolls` | discover/internal/history/emitter.go:282-295 | Exactly the given tracked channels count from zero |
| `Discovery.Emitter.CommitEnded` | discover/internal/history/emitter.go:299-316 | Exactly the ended channels whose session closes are forgotten |
| `Discovery.Emitter.RecoverState` | discover/internal/history/emitter.go:320-384 | Exactly the open sessions are tracked, from zero |
| `DiscoveryCycles.Discover.ValidateEndedCandidates` | discover/internal/discover.go:565-609 | Confirmed are exactly the candidates checked offline; the others are held active, and those checked live count from zero |
| `DiscoveryCycles.Discover.MarkEndedChannels` | shared/store/postgres.go:126-168 | Exactly the live channels of the platform outside the list are ended |
| `DiscoveryCycles.Discover.RunDiscoveryCycle` | discover/internal/discover.go:351-563 | New counters, live channels and record are those of the cycle, early exits included |
| `DiscoveryCycles.RunKeepsCounts` | discover/internal/history/emitter.go:235-295 | Over every run each counter is the number of complete polls that missed the channel since a recorded sighting, check or recovery |
| `DiscoveryCycles.EndedAfterTwoMisses` | discover/internal/discover.go:511-548 | In every run a tracked channel is ended if and only if marking is reached, this complete poll and an earlier one with no sighting in between missed it, and this cycle's check says offline |
| `DiscoveryCycles.PartialPollsEndNothing` | discover/internal/discover.go:508-516 | A partial poll or an aborted cycle ends nothing |
| `DiscoveryCycles.AliveExactly` | shared/store/postgres.go:126-168 | After a cycle exactly the channels alive before or recorded by it are alive that it did not end |
| `DiscoveryCycles.TrackedExactly` | discover/internal/discover.go:461-548 | After a cycle exactly the channels tracked before or recorded by it are tracked, but for those found offline and closed |
| `DiscoveryCycles.UntrackedEndsAtOnce` | shared/store/postgres.go:126-168 | A live channel that is not tracked is ended exactly by a complete cycle that reaches marking and does not see it |
| `DiscoveryCycles.EndedSinceLastSeen` | discover/internal/discover.go:461-548 | In every run, when a tracked channel is ended, two complete polls missed it after every poll that saw it, recorded or not, if and only if no sighting was lost after the last counted miss |
| `DiscoveryCycles.MissedSinceSeenExactly` | discover/internal/discover.go:461-516 | Of a channel with a counted miss: some complete poll missed it after every poll that saw it if and only if no sighting was lost after its last miss |
| `DiscoveryCycles.LostSightingEnds` | discover/internal/discover.go:466-476 | A run in which that fails: the previous poll saw the channel, its upsert failed, and the next miss ends it |
| `ChatStream.LaterContinues` | worker/internal/pipeline/product_chat.go:13-20 | Under one generation the stream only grows at its end and loses its oldest entries |
| `ChatStream.PublishKeepsNewest` | worker/internal/pipeline/product_chat.go:13-20 | A publication appends the entry and keeps exactly the entries among the newest ten thousand that are not too old; the generation is new exactly if there was none or the stream is |
| `ChatTour.PollPasses` | shared/store/collector_chat.go:14-20 | A poll passes the retained entries after the cursor in order, all of them or a hundred |
| `ChatTour.EveryChatIsSent` | query/internal/collector_chat.go:28-63 | In every call a chat with a timestamp that the cursor has gone past was sent, if and only if it had not been trimmed before the poll that passed it |
| `ChatTour.GapsAreReal` | query/internal/collector_chat.go:41-62 | In every call a chat was missed right before an event if and only if one without a timestamp was passed since the event before, or a poll since found one trimmed; every such gap is marked |
| `ChatTour.BehindExactly` | query/internal/collector_chat.go:41-43 | A poll marks a gap exactly if its cursor is before everything left, which for a read entry means that it has been trimmed |
| `ChatTour.MarkWithoutGap` | query/internal/collector_chat.go:41-43 | A run with a gap mark although nothing is missing |
| `WatchChat.PollIsReady` | query/internal/collector_chat.go:41-43 | After the check against the oldest entry, whatever was trimmed unread is marked as a gap |
| `ChatTrace.BatchIsSlice` | shared/store/collector_chat.go:14-20 | A batch is a contiguous part of the stream |
| `WatchChat.Handle` | query/internal/collector_chat.go:47-63 | A chat with a timestamp is sent with the gap mark, one without sets the mark, anything else is passed over |
| `WatchChat.Deliver` | query/internal/collector_chat.go:47-63 | A batch adds exactly its chats with a timestamp, in order, and leaves the reader caught up to its last entry |
| `WatchChat.Poll` | query/internal/collector_chat.go:28-63 | One poll ends the call exactly for entries without a generation, another generation, or a cursor past the newest entry; otherwise it adds exactly the chats of its batch |
| `WatchChat.Watch` | query/internal/collector_chat.go:13-73 | Over any sequence of polls: sent are exactly the events of what the reader goes through, in stream order and of the one generation that every poll had; one without gap mark has no chat between it and its predecessor; only a bad cursor or a poll as above ends the call |
| `BatchWriters.RunConserves` | shared/store/ch_batch_writer.go:91-196 | Under every interleaving, flushed then in-flight then buffered rows are the accepted rows in order, and pending rows never exceed the bound |
| `BatchWriters.RetriesWait` | shared/store/ch_batch_writer.go:125-158 | In every run an unforced flush of waiting rows starts exactly if no failure precedes it or one second, doubled per failure up to thirty, has passed since the last; it takes all rows |
| `BatchWriters.AcceptsWhatFits` | shared/store/ch_batch_writer.go:91-115 | In every run a row is accepted exactly if the writer is open and has room, and then waits behind all others |
| `BatchWriters.ForcedFlushWritesAll` | shared/store/ch_batch_writer.go:121-196 | In every run a forced flush that succeeds writes everything accepted so far in order, and one that fails leaves every row where it was |
| `BatchWriters.BatchWriter.Enqueue` | shared/store/ch_batch_writer.go:91-115 | Appends the row unless closed or full |
| `BatchWriters.BatchWriter.StartFlush` | shared/store/ch_batch_writer.go:121-138 | Takes the whole buffer in flight, or does nothing before the retry time |
| `BatchWriters.BatchWriter.FinishFlush` | shared/store/ch_batch_writer.go:140-196 | Failed rows return to the front of the buffer and the delay doubles; written rows are flushed and the delay is cleared |
| `BatchWriters.BatchWriter.Close` | shared/store/ch_batch_writer.go:198-240 | Drained exactly if the buffer is empty; then all accepted rows but those in flight elsewhere were flushed in order. If no other flush starts meanwhile, everything was flushed if and only if the close found rows in the buffer or no flush running |
| `BatchWriters.DrainedMayLeaveRows` | shared/store/ch_batch_writer.go:210-217 | A run in which a drained close leaves a row behind: another flush had taken it, and fails later |
| `Soop.Parse` | worker/internal/connector/soop.go:775-809 | The loop finds exactly the packets of the bytes |
| `Soop.PaddedWidth` | worker/internal/connector/soop.go:769-773 | A header number has its fixed width if and only if it fits |
| `Soop.ParsedBuilt` | worker/internal/connector/soop.go:769-809 | A built packet parses to itself, whatever follows |
| `Soop.WireParses` | worker/internal/connector/soop.go:769-809 | Any packets, with any noise free of byte 0x1B around them, parse to exactly those packets in order |
| `Soop.FieldsComeBack` | worker/internal/connector/soop.go:792-799 | Separator-free fields are recovered if and only if they are not one single empty field |
| `RateLimit.RateLimiter.AllowRequest` | query/publicapi/server.go:91-105 | New bucket and answer are those of the refill and the check |
| `RateLimit.WindowIsBounded` | query/publicapi/server.go:91-105 | Over every run with a non-decreasing clock any window of T seconds admits at most 60 + 20T requests |
| `RateLimit.BurstIsAllowed` | query/publicapi/server.go:91-105 | The bound is tight: up to 60 requests at one moment pass a full bucket |
| `RateLimit.SlowRequestsAreAllowed` | query/publicapi/server.go:91-105 | A client that keeps to 20 requests a second is never refused |

## Left out

- PgStores.PgStore.AppendDonation: does not model the identity annotation after reconnects (`reconnect_ambiguous`) and the content key, because they only label an event and do not bear on its offset.
- PgArchives.PgArchive.ReconcileUnassigned: takes the selected records as input; their selection by retry time and the retry update are not modelled.
- The outbox notification loop and the runtime state column of a channel.
- The body of a spool file (envelope and checksum): its length is a function of the record.
- JSON, SHA-256, HMAC, gzip and UUID text: abstract encodings with the laws under Assumptions; a segment's body is parsed line by line.
- Recording start times and quality gaps: easy bookkeeping beside the log.
- A claim that every locally accepted donation is journaled: a grant may be closed before the connector stops, and the record is then refused.
- A claim that the local leader flag implies a live lease between renewals: the flag stays set until the next renewal is answered, which may be past the deadline. The lease check also precedes the write rather than being part of it.
- Timing of the election loop (jitter, renew and acquire delays) and the leader callbacks.
- Metadata, viewer intervals and session rows of the emitter, and the path without history: only the counters decide about ending. A cycle of one platform is one step; cycles of different platforms touch different channels.
- The allowlist and opt-out filters: a poll's channels are what they let through.
- The text form of stream IDs: an ID is its pair of numbers, compared as the source does.
- The public WebSocket reader of the same stream, whose gap notices precede a whole batch.
- Soop.Parse: header numbers are runs of decimal digits; numbers with a sign, which the source also reads, are not modelled.
- RateLimit.WindowIsBounded: over real numbers; floating-point rounding is not modelled.
- The flush triggers of the batch writer (timer, full batch) and its metrics; a flush that fails is taken to have written nothing.
- SQL text, drivers, HTTP and gRPC handlers, connection management, command dispatch, search, admin and operations tools.
