# LocaQL, verified

A Dafny model of the concurrent protocols and the meaning-preserving transformations inside
LocaQL, a local BigQuery emulator written in Go, with proofs of what they guarantee. Check it with
`dafny verify dfyconfig.toml`.

Code that updates state in place is a class or a method with loops, proved against a
specification function; what the system promises is then proved about those functions and about
transition systems built from them, in which one action is one section executed under a mutex.
Unless a lemma says otherwise, a statement about runs covers every interleaving.

| files | what they model |
|---|---|
| `Signature`, `EnginePool*` | the pool of embedded SQL engines and its materialization cache |
| `Catalog*`, `RowDelta` | the versioned table catalog, statements that commit if the version is unchanged |
| `Scheduler*`, `Counting` | the job scheduler with its three nested semaphores |
| `Partitioning`, `Reconcile`, `HiddenColumns`, `Purge`, `Cells` | ingestion partitions, hidden columns, expiry, stored cells |
| `Pruning*` | partition pruning and the meaning of filters |
| `StorageWrite*` | offset-based appends and the atomic batch commit |
| `ContentRange`, `Upload` | resumable uploads |
| `Views` | view resolution |
| `Scanners`, `SqlDialect`, `Text` | the pseudocolumn rewriter, GoogleSQL's own tokens, and the list splitter |
| `Sharding`, `Supervisor`, `Decimal`, `Options` | extract shards, the restart window, helpers |

## Conditions

Some promises hold only under a condition. Each condition below is a hypothesis of the theorems
named, and where it is one the code could miss, a lemma shows what happens without it.

- Engine pool, leases: no engine is leased between a failed reset, which publishes it as idle, and
  the close that follows (`EnginePoolLeases.Safe`).
- Engine pool, contents: besides that, dataset and table names contain no separator, and a shared
  build does not start on a blank engine that has marked one of its tables without holding it, as a
  failed build leaves behind (`EnginePoolContent.Safe`). What a statement run on a private engine
  leaves behind is among the tables the pool tracks for that engine, and so is dropped by its reset;
  this is the enabling condition of the step `Execute`.
- Engine pool, freshness: besides that, a marked table is also fresh, and a dropped table's name is
  used again only when no open engine offers it and no query that may share an engine has read it
  (`EnginePoolFreshness.Safe`).
- Catalog: no table is created under an ID while a statement that has seen another table there is
  under way (`CatalogRuns.Safe`). The other tables a statement looks at are an input: the guarantee
  is about its target.
- Partition lists: a patch or update does not change whether a table is partitioned by ingestion
  time (`Catalog.KeepsKind`).
- Scheduler: a generated job ID is not in use (`SchedulerRecords.Safe`), for what is said of job
  records and of the two outcome counters. Exclusion, limits, progress and the balance of the
  counters need no condition. The scheduler's documentation does not mention that generated IDs are
  not compared with requested ones; the model follows the code.
- Pruning: each other WHERE clause of the statement demands nothing, or no less than the block's own
  (`PruningTheorems.Covers`); a path whose last part is the partition column's name is that column;
  not `_PARTITIONDATE` on hourly partitions (`PruningTheorems.FilterOk`). The comment on
  `prunePartitionedRows` calls the pruning conservative; in those three cases it is not, and the
  model follows the code. Rows and partition IDs come from two reads of the table and are paired by
  position, so they are two inputs here: a write between the reads can put a row in another's
  partition, and the theorems are about the pairing as the code makes it.
- Hidden columns: rows are as wide as the schema. A shorter row never comes back.
- Storage Write, PENDING streams: a commit names each stream once, and none that a commit under way
  names (`StorageWriteCommits.Safe`). The comment on `BatchCommitWriteStreams` promises atomicity
  without this; the model follows the code. COMMITTED streams need no condition.
- Uploads: a new session gets an ID that no earlier session had. The code draws 16 random bytes.
- Pseudocolumn rewriter: no token of the query is a hash comment, is triple-quoted or has an escaped
  quote (`SqlDialect.Plain`). The comment on the rewriter promises that literals and comments are
  copied verbatim; for those three it does not hold of GoogleSQL's literals and comments, and the
  model follows the code.
- View cycles: reported if and only if reachable when nothing the root leads to fails; otherwise the
  first error in resolution order is reported.
- Restart window: positive window, monotone clock. Go's time values carry a monotonic reading, so
  the second always holds of the code.

Calendars, SQL execution, payload encoders and REQUIRED-field validation are function-valued
parameters. Of the calendar it is assumed only that partition IDs are not empty, that reading an ID
and formatting the instant gives the ID back, and that a shown timestamp reads back
(`Partitioning.Lawful`); for pruning, that partitions of a day or longer start a day.

## Model

| member | source | states |
|---|---|---|
| `Signature.SameSignatureIff` | internal/server/sql_engine_pool.go:97-107 | two lists of well-formed references get the same cache signature if and only if they are the same multiset of (dataset, table, version) |
| `Signature.SignatureNonEmpty` | internal/server/sql_engine_pool.go:97-107 | only the empty list has the empty signature, which the pool reads as "not cacheable" |
| `Signature.SeparatorInTableNameCollides` | internal/server/sql_engine_pool.go:97-107 | with the separator inside a table name, two different reference lists share a signature; hence the condition on names |
| `Signature.PartInjective` | internal/server/sql_engine_pool.go:97-107 | one `dataset.table@version` part determines its reference and version |
| `EnginePool.SqlEnginePool.AcquirePrivateSection` | internal/server/sql_engine_pool.go:154-184 | the scan leases the first idle engine, and only when there is none leaves the pool unchanged |
| `EnginePool.SqlEnginePool.JoinMatchingEngine` | internal/server/sql_engine_pool.go:213-221 | the scan adds a lease to the first engine with exactly the wanted signature, if any |
| `EnginePool.SqlEnginePool.LeaseReusableEngine` | internal/server/sql_engine_pool.go:222-244 | the scan prefers the first blank idle engine and falls back to the first idle one |
| `EnginePool.SqlEnginePool.ReleaseSharedSection` | internal/server/sql_engine_pool.go:268-280 | a release takes one lease away and evicts over the cap only when it was the last |
| `EnginePool.SqlEnginePool.ReleasePrivateSection` | internal/server/sql_engine_pool.go:186-201 | a reset engine is published idle and the idle set is brought under the cap |
| `EnginePool.SqlEnginePool.DiscardEngine` | internal/server/sql_engine_pool.go:348-362 | exactly the given engine leaves the list, the order of the others unchanged |
| `EnginePool.SqlEnginePool.EvictOverCapLocked` | internal/server/sql_engine_pool.go:285-314 | the loops remove exactly the engines the eviction order selects |
| `EnginePool.EvictOverCapCorrect` | internal/server/sql_engine_pool.go:285-314 | eviction removes idle engines only and leaves min(idle, 8) of them |
| `EnginePool.EvictsBlankFirst` | internal/server/sql_engine_pool.go:285-314 | an engine with a signature is never evicted while a blank idle one is kept |
| `EnginePoolContent.RunKeepsInv` | internal/server/sql_engine.go:693-834 | every interleaving of the 24 kinds of steps of queries, pool sections and catalog writes, failures and recreated tables included, keeps what engines hold in step with their bookkeeping and their queries |
| `EnginePoolFreshness.RunKeepsInv` | internal/server/sql_engine.go:636-863 | every interleaving in which table names are used again only when forgotten also keeps what is planned and offered that of the latest table of each name |
| `EnginePoolTheorems.TableSignatureIsCanonical` | internal/server/sql_engine.go:774-786 | the signature function the protocol is instantiated with determines its references |
| `EnginePoolTheorems.SharedQueryReadsFreshTables` | internal/server/sql_engine.go:636-863 | in every reachable state a query on a shared engine finds exactly the tables it referenced, each of the incarnation it read and no older than the version it read |
| `EnginePoolContent.SignedEngineHoldsItsTables` | internal/server/sql_engine_pool.go:97-258 | in every reachable state, whatever tables are dropped and created again, an engine with a non-empty signature holds exactly that signature's tables |
| `EnginePoolBuilds.BuildServesIff` | internal/server/sql_engine.go:798-863 | reconciling an engine and loading a whole plan serves exactly the plan, each table fresh, if and only if every planned table the engine has marked at the planned version is there and fresh |
| `EnginePoolBuilds.BlankLeaseServesIff` | internal/server/sql_engine_pool.go:222-258 | the same as a run: from every state of the invariant, a query that leases a blank engine and builds on it is served what it asked for if and only if the marks it trusts are right |
| `EnginePoolBuilds.SuccessfulBuildsAreTrusted` | internal/server/sql_engine.go:798-863 | while no shared build fails, the condition on blank engines holds by itself |
| `EnginePoolLeases.RunKeepsLeases` | internal/server/sql_engine_pool.go:154-362 | every interleaving in which no engine is leased while it is being discarded keeps the lease invariant, failed loads and resets included |
| `EnginePoolLeases.LeasesAreCounted` | internal/server/sql_engine_pool.go:154-314 | refCount equals the number of outstanding leases and a blank engine has at most one holder |
| `EnginePoolLeases.NeverDisturbsAnotherHolder` | internal/server/sql_engine_pool.go:154-314 | no step resets, repurposes, reloads or evicts an engine that a client other than the one stepping holds |
| `EnginePoolLeases.DiscardedEngineIsLost` | internal/server/sql_engine_pool.go:186-196 | that condition decides: from every state, an engine leased while another client discards it is closed under its new holder by that client's next step |
| `EnginePoolLeases.SuccessfulResetsAreSafe` | internal/server/sql_engine_pool.go:186-201 | while resets on release succeed, nothing is discarded and the condition holds by itself |
| `EnginePoolHypotheses.RecreatedTableIsServedStale` | internal/server/tables_service.go:303-303 | without the hypothesis on creations: a reachable state in which a shared query is served the rows of a dropped table |
| `EnginePoolHypotheses.TableCreatedBehindEngineIsServedStale` | internal/server/sql_engine_pool.go:213-221 | from every state of the invariant in which an open engine offers a table that is dropped, and its other tables are current: a table created under the name at the version offered is served with the dropped rows |
| `EnginePoolHypotheses.TableCreatedBehindBuilderIsServedStale` | internal/server/sql_engine.go:709-722 | the same for a query that is about to offer what it has built |
| `EnginePoolHypotheses.FailedLoadIsServedAsLoaded` | internal/server/sql_engine.go:855-862 | without the condition on blank engines: a reachable state in which a query runs on an engine lacking its table |
| `EnginePoolHypotheses.FailedReleaseClosesHeldEngine` | internal/server/sql_engine_pool.go:186-196 | without the condition on discarded engines: a reachable state in which a client holds an engine that has been closed |
| `Scheduler.JobService.Insert` | internal/server/jobs_service.go:280-389 | the new record, counters and ID, or no change for an invalid or used ID |
| `Scheduler.JobService.Cancel` | internal/server/jobs_service.go:671-694 | a pending job becomes done and stopped at once, any other only gets its cancel flag |
| `Scheduler.JobService.FirstCheck` | internal/server/jobs_service.go:499-517 | a cancelled job is recorded as stopped, otherwise nothing changes |
| `Scheduler.JobService.SecondCheck` | internal/server/jobs_service.go:525-545 | a cancelled job is recorded as stopped, otherwise it starts running |
| `Scheduler.JobService.Finish` | internal/server/jobs_service.go:555-586 | the outcome is stopped, invalid or success, in that order, and is counted once |
| `Scheduler.JobService.RecoverFromPanic` | internal/server/jobs_service.go:454-473 | a panicking job is recorded as an internal error |
| `Scheduler.JobService.RecordOutcome` | internal/server/jobs_service.go:423-433 | exactly one of completed and failed goes up, by the error reason |
| `Scheduler.JobService.AcquireResourceSlot` | internal/server/jobs_service.go:794-811 | an attempt waits exactly while the key's slot is taken, changing nothing, and otherwise puts one token into it, creating it on first use; no key, no slot |
| `Scheduler.JobService.AcquireStorageWriteSlot` | internal/server/jobs_service.go:813-835 | an attempt waits exactly while a limiter that applies is full; a token is taken exactly by load and copy jobs and by queries with a target, when there is a limiter |
| `SchedulerRuns.RunKeepsBase` | internal/server/jobs_service.go:475-586 | every interleaving of submissions, cancellations and job goroutines keeps the slot, goroutine and counter invariant |
| `SchedulerRecords.RunKeepsInv` | internal/server/jobs_service.go:280-586 | every interleaving in which generated IDs are fresh also keeps each goroutine's record, state and outcome in step with it |
| `SchedulerTheorems.ExecutorsAreExclusive` | internal/server/jobs_service.go:475-586 | never two jobs with the same resource key inside an executor |
| `SchedulerTheorems.LimitsAreKept` | internal/server/jobs_service.go:490-523 | never more jobs inside executors than the run limit, nor more writing ones than the storage-write limit |
| `SchedulerTheorems.JobsOnlyMoveForward` | internal/server/jobs_service.go:423-586 | over every run a job only moves PENDING, RUNNING, DONE, and a done job keeps its outcome |
| `SchedulerTheorems.SuccessIsReportedByTheExecutor` | internal/server/jobs_service.go:555-586 | a job ends without an error exactly when its own executor reports success uncancelled, as invalid exactly on a reported error, as an internal error exactly on a panic |
| `SchedulerTheorems.CancelledPendingJobNeverExecutes` | internal/server/jobs_service.go:671-694 | a job cancelled while PENDING is in no later state of any run inside an executor, and stays stopped |
| `SchedulerTheorems.CountersBalance` | internal/server/jobs_service.go:423-473 | over every run submitted equals completed plus failed plus goroutines that have not recorded an outcome |
| `SchedulerTheorems.CountersAreExact` | internal/server/jobs_service.go:423-473 | and completed and failed count the goroutines that recorded success and an error, panics included |
| `SchedulerTheorems.SchedulerNeverDeadlocks` | internal/server/jobs_service.go:475-586 | whenever a job is unfinished, some job's goroutine can step |
| `SchedulerTheorems.RunsAreBounded` | internal/server/jobs_service.go:475-586 | along every run the goroutines take at most eleven steps per submitted job |
| `SchedulerTheorems.MaximalRunsFinishEveryJob` | internal/server/jobs_service.go:475-586 | where no goroutine can step, every job is done and recorded and all slots are free |
| `SchedulerTheorems.RecordMovesForwardIff` | internal/server/jobs_service.go:280-586 | a record that has started, finished or been cancelled moves forward in every step of every kind exactly unless the step generates its ID |
| `SchedulerTheorems.GeneratedIdOverwritesFinishedJob` | internal/server/jobs_service.go:280-284 | without the fresh-ID hypothesis, from every state in which the next generated ID is not that of a running job: a generated ID puts a finished job back to PENDING |
| `Cells.LoadUndoesStore` | internal/server/cell_storage.go:21-36 | every string survives storing and loading, and none is stored as NULL |
| `Cells.StoreIsInjective` | internal/server/cell_storage.go:21-26 | different values are stored as different cells |
| `Cells.StoreUndoesLoadIff` | internal/server/cell_storage.go:21-36 | storing a loaded cell gives the cell back exactly for the cells storing can write |
| `Partitioning.FindField` | internal/server/table_partitioning.go:67-74 | the first field of that name in any case, and none before it |
| `Partitioning.NewPartitions` | internal/server/table_partitioning.go:348-358 | one non-empty ID per row for an ingestion-time table, none otherwise |
| `Reconcile.IndexOldRows` | internal/server/table_partitioning.go:364-375 | the first loop lists the positions of each row content in order, and the old partitions |
| `Reconcile.MatchCopies` | internal/server/table_partitioning.go:376-389 | the second loop pairs equal rows in order, each old row once |
| `Reconcile.ReconcileIngestionPartitions` | internal/server/table_partitioning.go:360-407 | the loops compute the assignment defined without loops: the copied row's partition, else the one at the same index when free, else the current one |
| `Reconcile.SourcesAreDistinct` | internal/server/table_partitioning.go:376-406 | each old row gives its partition to at most one new row |
| `Reconcile.UnchangedRowsKeepPartitions` | internal/server/table_partitioning.go:360-407 | unchanged rows get the old list back |
| `Reconcile.RemovalKeepsPartitions` | internal/server/table_partitioning.go:360-407 | when the new rows are a sub-multiset of the old ones, so are the (row, partition) pairs |
| `Reconcile.ReconciledIsComplete` | internal/server/table_partitioning.go:360-407 | every new row gets a non-empty partition |
| `HiddenColumns.MaterializePseudocolumns` | internal/server/table_partitioning.go:260-283 | the two hidden columns are appended for managed ingestion-time tables only, row by row |
| `HiddenColumns.StripPseudocolumns` | internal/server/table_partitioning.go:290-339 | the loops drop the last columns of those names and read each row's partition by time, then date, then current |
| `HiddenColumns.StripUndoesAdd` | internal/server/table_partitioning.go:260-339 | stripping after adding returns the schema, the rows and the valid partition IDs of every full-width table |
| `HiddenColumns.RowsComeBackIff` | internal/server/table_partitioning.go:260-339 | among rows no wider than the schema, they come back exactly when all are full width |
| `HiddenColumns.ShortRowKeepsHiddenCell` | internal/server/tables_service.go:382-384 | a row shorter than the schema does not come back |
| `HiddenColumns.CarriedIsAdded` | internal/server/table_partitioning.go:290-339 | a row carries its ID through when the ID is valid, and gets the current partition otherwise |
| `HiddenColumns.NullHiddenCellsGetCurrent` | internal/server/table_partitioning.go:310-337 | a row whose hidden cells are NULL lands in the current partition |
| `Purge.PurgeExpiredPartitions` | internal/server/table_partitioning.go:514-567 | the loop computes the purged record and reports whether its version moved |
| `Purge.PurgeRemovesExactlyExpired` | internal/server/table_partitioning.go:514-567 | the rows that stay are exactly the unexpired ones, in their old order, each with its own partition |
| `Purge.PurgeBumpsVersionIff` | internal/server/table_partitioning.go:514-567 | the version moves by one exactly when a row expired, and otherwise nothing changes |
| `Purge.PurgeIsIdempotent` | internal/server/table_partitioning.go:514-567 | purging twice at one time is purging once |
| `Catalog.OpsGrowVersions` | internal/server/tables_service.go:185-435 | a record an operation leaves in place is untouched or has a higher version |
| `Catalog.CommitsGrowVersions` | internal/server/tables_service.go:336-723 | the same for every versioned commit |
| `Catalog.OpKeepsAligned` | internal/server/tables_service.go:270-316 | every direct operation that keeps the kind of partitioning keeps one non-empty partition ID per row |
| `Catalog.CommitKeepsAligned` | internal/server/tables_service.go:457-497 | the same for every versioned commit, with IDs carried through or reconciled |
| `Catalog.PatchAlignedIff` | internal/server/tables_service.go:353-403 | patching in ingestion-time partitioning breaks this exactly when the table has rows and was not so partitioned |
| `Catalog.AppendExtendsTable` | internal/server/tables_service.go:725-796 | an accepted append adds exactly its rows and their partitions at the end and one to the version, a refused one changes nothing |
| `Catalog.AppendKeepsPairs` | internal/server/tables_service.go:725-796 | in an ingestion-time table every (row, partition) pair stays where it was, and each new row, in order, is in the current partition |
| `CatalogService.TableService.PurgeExpired` | internal/server/tables_service.go:185-202 | the loop over a dataset, in any order, drops expired tables and purges the others |
| `CatalogService.TableService.Get` | internal/server/tables_service.go:255-268 | a read purges its dataset first and returns what is left |
| `CatalogService.TableService.InsertNew` | internal/server/tables_service.go:270-316 | accepts exactly a named, new, fitting table, at version 1 with its partitions |
| `CatalogService.TableService.Remove` | internal/server/tables_service.go:318-329 | removes the record and reports whether there was one |
| `CatalogService.TableService.PatchRecord` | internal/server/tables_service.go:353-403 | sets exactly the given fields and bumps the version |
| `CatalogService.TableService.UpdateRecord` | internal/server/tables_service.go:405-435 | replaces all of these fields and bumps the version |
| `CatalogService.TableService.Upsert` | internal/server/tables_service.go:725-796 | accepts or refuses by disposition, schema and row checks, and stores the filled record |
| `CatalogService.TableService.ReplaceRowsIfVersion` | internal/server/tables_service.go:457-497 | commits exactly when the version is unchanged and the checks pass |
| `CatalogService.TableService.ReplaceTableIfVersion` | internal/server/tables_service.go:502-530 | the same for a table redefinition |
| `CatalogService.TableService.ReplaceViewIfVersion` | internal/server/tables_service.go:539-563 | the same for a view redefinition |
| `CatalogService.TableService.AddColumnsIfVersion` | internal/server/tables_service.go:572-595 | the same for added columns, each row padded with NULL cells |
| `CatalogService.TableService.DropColumnsIfVersion` | internal/server/tables_service.go:603-664 | the same for dropped columns, cells dropped at the same indices |
| `CatalogService.TableService.RenameColumnsIfVersion` | internal/server/tables_service.go:671-695 | the same for renamed columns, each by some entry of the map that matches it, in any order of the map |
| `Catalog.RenamingIsUniqueIff` | internal/server/tables_service.go:682-689 | the outcome does not depend on the order of the map if and only if no two entries that differ in case alone send a column to different names |
| `CatalogService.TableService.RenameTableIfVersion` | internal/server/tables_service.go:701-723 | the same for a rename, refused onto a name in use |
| `CatalogService.TableService.DeleteIfVersion` | internal/server/tables_service.go:336-351 | the same for a drop |
| `CatalogRuns.RunsAreSerial` | internal/server/sql_statements.go:934-1034 | over every interleaving of statements and direct writes, the catalog ends as if the operations that took effect had run one after another, each statement whole, in commit order |
| `CatalogRuns.CommitReplacesWhatItRead` | internal/server/sql_statements.go:934-1034 | a successful versioned commit finds the very record its statement read, at each of its reads |
| `CatalogTheorems.RunsKeepPartitionsAligned` | internal/server/tables_service.go:270-796 | over every run, ingestion-partitioned tables keep one non-empty partition ID per row |
| `CatalogTheorems.RecreatedTableIsOverwritten` | internal/server/tables_service.go:303-303 | without the hypothesis on creations: a reachable commit replaces a recreated table by a result computed from the deleted one |
| `CatalogTheorems.TableCreatedBehindReaderIsOverwritten` | internal/server/tables_service.go:303-497 | and from every state in which a DML statement has read, at all its reads, a table that is gone: a table created under its ID can be brought to the version seen, and is then overwritten |
| `RowDelta.StoredRowMultisetDelta` | internal/server/sql_statements.go:1120-1138 | removed and added are the sizes of the two multiset differences |
| `RowDelta.EffectiveAffectedRows` | internal/server/sql_statements.go:1097-1118 | the driver's count, the length difference, or the larger multiset difference, by statement type |
| `RowDelta.DeltaBalances` | internal/server/sql_statements.go:1120-1138 | the delta balances the row counts and vanishes exactly when no row was changed |
| `Views.Visiting.ResolveVisiting` | internal/server/bigquery.go:3742-3770 | the recursion with one shared, mutable set computes the resolution and restores the set on every exit |
| `Views.Visiting.ResolveRefs` | internal/server/sql_engine.go:756-769 | references are resolved in order and the first error stops |
| `Views.CyclesAreCaught` | internal/server/bigquery.go:3742-3770 | no resolution succeeds when a cycle is reachable, and a circular reference is reported only when one is |
| `Views.CircularIff` | internal/server/bigquery.go:3742-3770 | when no query or file that the root leads to fails, a circular reference is reported if and only if a cycle is reachable from the root |
| `Views.FailureHidesCycle` | internal/server/sql_engine.go:756-769 | a failing sibling that comes first hides a cycle; hence the condition |
| `Views.ResolveIsUnfold` | internal/server/bigquery.go:3742-3770 | a resolution that meets no cycle equals plain unfolding to any sufficient depth |
| `Views.ResultIgnoresVisiting` | internal/server/bigquery.go:3742-3770 | the result, failures included, does not depend on the visiting set |
| `Pruning.PrunePartitionedRows` | internal/server/partition_pruning.go:14-91 | the loops keep exactly the rows, and their partitions, that the demands of the WHERE clauses select |
| `Pruning.EqualityTargets` | internal/server/partition_pruning.go:96-153 | the recursion with its deleting loop computes the intersection of the demands of an AND tree |
| `Pruning.BucketName` | internal/server/partition_pruning.go:179-184 | within 64 bits, a range partition is named by the start of the interval that holds the value |
| `Pruning.SameBucketIff` | internal/server/partition_pruning.go:259-264 | two values of the range share a partition exactly when one interval holds both |
| `PruningTheorems.PruningKeepsMeaning` | internal/server/partition_pruning.go:14-267 | for every filter of AND, OR, equalities and opaque terms under three-valued logic, filtering the pruned rows gives the same row sequence as filtering all rows, for each block whose demands the other WHERE clauses cover |
| `PruningTheorems.PrunedBlockGetsAdmittedRows` | internal/server/partition_pruning.go:56-91 | with any number of WHERE clauses, a block gets exactly those of its rows that every clause of the statement admits, in order |
| `PruningTheorems.BlockKeepsMeaningIff` | internal/server/partition_pruning.go:56-91 | so pruning keeps a block's meaning if and only if every clause of the statement admits every row that satisfies the block |
| `PruningTheorems.TargetsAreRight` | internal/server/partition_pruning.go:96-267 | a row that satisfies a filter is in a partition the filter demands |
| `PruningTheorems.PrunedTableHoldsPrunedItems` | internal/server/sql_engine.go:613-627 | the table handed to the engine holds exactly the kept rows, each in its partition |
| `PruningTheorems.DateOfHourKeepsOnlyFirstHour` | internal/server/partition_pruning.go:190-217 | `_PARTITIONDATE` on hourly partitions: a row of the day is kept exactly when its partition starts the day |
| `PruningTheorems.NestedFieldIsTakenForPartitionColumn` | internal/server/partition_pruning.go:155-185 | a struct field named like the partition column: a satisfying row is kept exactly when its own partition happens to be the demanded one |
| `PruningTheorems.BlocksOfDifferentPartitionsGetNothing` | internal/server/partition_pruning.go:56-73 | two blocks that demand different partitions: each gets none of the rows that satisfy it |
| `StorageWrite.WriteStream.Append` | internal/server/storage_write_service.go:561-597 | accepts exactly at the end of an open stream whose write goes through, and otherwise changes nothing |
| `StorageWrite.WriteStream.Finalize` | internal/server/storage_write_service.go:238-249 | closes the stream and reports the rows accepted |
| `StorageWrite.CheckStreams` | internal/server/storage_write_service.go:273-290 | no error is reported exactly when every named stream may be committed, and each error is right |
| `StorageWrite.CollectRows` | internal/server/storage_write_service.go:293-302 | the buffers concatenate in request order |
| `StorageWrite.MarkCommitted` | internal/server/storage_write_service.go:309-316 | exactly the named streams are marked and emptied |
| `StorageWriteRuns.RunKeepsBase` | internal/server/storage_write_service.go:238-318 | every interleaving of appends, finalizations and the steps of commits keeps streams, history and running calls in step |
| `StorageWriteCommits.RunKeepsInv` | internal/server/storage_write_service.go:255-318 | every interleaving in which commits under way share no stream lands each stream's rows at most once |
| `StorageWriteTheorems.CommittedStreamIsExact` | internal/server/storage_write_service.go:561-597 | accepted batches tile [0, NextOffset) without gap or overlap and the table has received exactly their concatenation |
| `StorageWriteTheorems.RetriesLandExactlyOnce` | internal/server/storage_write_service.go:561-597 | with slices of one client's data in any order and number, and any commits going on, the table holds exactly its first NextOffset rows |
| `StorageWriteTheorems.WrongOffsetChangesNothing` | internal/server/storage_write_service.go:566-584 | a stale or future offset changes nothing and is answered as such |
| `StorageWriteTheorems.PendingLandsAtMostOnce` | internal/server/storage_write_service.go:255-318 | nothing of a PENDING stream is in the catalog before its commit, and all of it once afterwards |
| `StorageWriteTheorems.FinalizedStaysFrozen` | internal/server/storage_write_service.go:561-565 | over every run a finalized stream takes no more rows |
| `StorageWriteTheorems.FinalizedIsFrozen` | internal/server/storage_write_service.go:561-565 | no step changes a finalized buffer except its commit |
| `StorageWriteTheorems.CommitWritesInOneCall` | internal/server/storage_write_service.go:273-318 | over every run a commit makes at most one catalog call, with one part per named stream in request order, and one that fails changes nothing |
| `StorageWriteTheorems.CommitIsAllOrNothing` | internal/server/storage_write_service.go:293-318 | what a commit writes are the whole buffers of all named streams in request order, or nothing |
| `StorageWriteTheorems.LandsAsOftenAsNamed` | internal/server/storage_write_service.go:261-310 | a commit lands a buffer as often as the request names its stream |
| `StorageWriteTheorems.LandsOnceIff` | internal/server/storage_write_service.go:261-310 | so a stream with rows lands once exactly when it is named once |
| `StorageWriteTheorems.OverlappingCommitsLandTwice` | internal/server/storage_write_service.go:273-310 | from every reachable state in which two commits that can still write share a stream with rows, some continuation lands it twice |
| `StorageWriteTheorems.SharedStreamLandsTwice` | internal/server/storage_write_service.go:273-316 | a commit begun while another names one of its streams and can still write it, or has written and not marked it, lands it twice in some continuation; hence the condition |
| `ContentRange.Parse` | internal/server/bigquery_upload.go:250-277 | a chunk has start <= end < total, all within 64 bits, numbers out of range saturating |
| `ContentRange.ParseUndoesRender` | internal/server/bigquery_upload.go:250-277 | every range a client can write is read back as meant |
| `Upload.UploadService.Begin` | internal/server/bigquery_upload.go:66-87 | the sweep drops exactly the expired sessions and adds an empty one |
| `Upload.UploadService.AcceptChunk` | internal/server/bigquery_upload.go:279-336 | the answer and the new session, branch by branch |
| `Upload.UploadService.Complete` | internal/server/bigquery_upload.go:223-238 | a session still there becomes completed and drops its bytes |
| `Upload.NeverExceedsTotal` | internal/server/bigquery_upload.go:330-333 | the branch for bytes beyond the total is unreachable for every header and payload |
| `Upload.SubmitsAtMostOnce` | internal/server/bigquery_upload.go:192-336 | whatever clients send, a session submits at most one job |
| `Upload.UploadsAreExact` | internal/server/bigquery_upload.go:192-336 | with chunks of one file in any order and with repeats, the buffer is always a prefix of the file and what is submitted is exactly the file |
| `Upload.LastChunkSubmits` | internal/server/bigquery_upload.go:324-335 | the chunk that ends the file submits it |
| `Scanners.RewriteIngestionPseudocolumns` | internal/server/sql_engine.go:878-961 | the index loop terminates on every input and computes the token-wise rewriting |
| `Scanners.RewriteIsTokenwise` | internal/server/sql_engine.go:878-961 | the output has the tokens of the input, pseudocolumns replaced and nothing else |
| `Scanners.LiteralsAndCommentsAreCopied` | internal/server/sql_engine.go:874-925 | a comment or literal, wherever it stands in the query, is copied byte for byte, and what is around it is rewritten as if alone |
| `Scanners.RewriteIsIdempotent` | internal/server/sql_engine.go:878-961 | rewriting twice is rewriting once |
| `Scanners.LexLosesNothing` | internal/server/sql_engine.go:878-961 | the tokens of a query make up the query |
| `SqlDialect.ScannerAgreesOnPlainQueries` | internal/server/sql_engine.go:874-961 | on queries in which no token is a hash comment, is triple-quoted or has an escaped quote, the rewriting is the one by the tokens of GoogleSQL |
| `SqlDialect.NameInsideLiteralIsRewritten` | internal/server/sql_engine.go:904-921 | an escaped quote: a name inside the literal is rewritten |
| `SqlDialect.NameAfterLiteralIsSkipped` | internal/server/sql_engine.go:904-921 | an escaped quote at the end of a literal: a pseudocolumn after it is left alone |
| `SqlDialect.NameInTripleQuotesIsRewritten` | internal/server/sql_engine.go:904-921 | a quote inside triple quotes: a name after it, inside the literal, is rewritten |
| `SqlDialect.NameInHashCommentIsRewritten` | internal/server/sql_engine.go:881-903 | a hash comment: a name in it is rewritten |
| `Scanners.SplitTopLevelList` | internal/server/sql_engine.go:1168-1198 | the loop cuts exactly at the commas outside quotes and parentheses |
| `Scanners.JoinUndoesSplit` | internal/server/sql_engine.go:1168-1198 | joining the pieces with commas gives the input back |
| `Scanners.PiecesAreWhole` | internal/server/sql_engine.go:1168-1198 | no piece can be split further |
| `Sharding.WriteExtractDestinations` | internal/server/bigquery.go:3028-3117 | the files and the byte count after one payload to every destination, the missing-wildcard error, an encoding or writing error, or the numbered shards |
| `Sharding.SplitExtractIsOnDisk` | internal/server/bigquery.go:3028-3117 | a split extract that succeeds leaves the table on disk: the numbered files hold the encodings of non-empty slices that make up the rows in order, and no other file changes |
| `Sharding.WholeExtractIsEverywhere` | internal/server/bigquery.go:3028-3117 | an extract in one piece that succeeds is at every destination |
| `Sharding.ExtractConservesRows` | internal/server/bigquery.go:3047-3068 | shards are encodings of non-empty slices that make up the rows in order, numbered consecutively and no more than the computed count |
| `Sharding.NoMoreShardsThanCounted` | internal/server/bigquery.go:3047-3057 | rounding up twice still makes no more shards than counted |
| `Sharding.CeilDivIsCeiling` | internal/server/bigquery.go:3047-3054 | the integer division used is the ceiling of the quotient |
| `Sharding.ShardPathsAreDistinct` | internal/server/bigquery.go:3586-3599 | with one wildcard, different shards go to different files |
| `Supervisor.PruneOlderThan` | internal/procsupervisor/procsupervisor.go:86-94 | the in-place filter leaves the later times at the front, in order |
| `Supervisor.RecordCrash` | internal/procsupervisor/procsupervisor.go:69-70 | a crash is appended to the list and the list pruned in place |
| `Supervisor.Supervise` | internal/procsupervisor/procsupervisor.go:50-82 | the loop ends at the first failed start, shutdown, clean exit or crash too many in the window of the whole history, and restarts the child after every turn before |
| `Supervisor.PrunedListIsHistory` | internal/procsupervisor/procsupervisor.go:69-72 | the carried list is the filter of the whole crash history |
| `Supervisor.WindowBoundsRestarts` | internal/procsupervisor/procsupervisor.go:50-82 | however the child behaves, with a monotone clock and a positive window no window holds more than MaxRestarts restarts |
| `Supervisor.EmptyWindowNeverGivesUp` | internal/procsupervisor/procsupervisor.go:69-74 | without a positive window the loop never gives up |

## Left out

- HTTP, JSON, ETags, metrics, persistence, gRPC framing and protobuf, Arrow, Avro and Parquet codecs: plumbing and foreign code.
- The GoogleSQL engine and its parser: statement execution is an uninterpreted function; filters are a small expression datatype in which name resolution is given.
- Projects: the model has one project, as the cache signature does.
- Physical races below the granularity of a mutex section.
- Request-ID deduplication, priorities, sleeping and scripts with child jobs in the job service.
- Dataset versions, dataset deletion and lazily seeded demo tables in the table service.
- Case folding outside ASCII, and white space trimmed from identifiers and headers: names and headers are taken trimmed.
- Rows are compared as lists of cells where the code compares their JSON encodings; encodings of invalid UTF-8, which the code identifies, are distinct in the model.
- Tables without time partitioning whose engine image carries hidden columns: `partitionIDsFromEngineRows` would dereference a missing configuration.
- Sizes of 2^53 and more in the shard computation, where the code's floating-point quotients are no longer exact: the model divides integers.
- Nested and repeated fields in schemas.
- The clauses of ALTER TABLE, which become a function of the record read; the child process, its environment and its exit codes under supervision.
- A partition column missing from the schema: `validateRowsForPartitioning` would index a row at -1 and panic; the model reads NULL there.
- Session temporary tables, routines, models, INFORMATION_SCHEMA, wildcard tables.
- CatalogRuns.RunsAreSerial: covers the target of each statement; the tables it merely reads are read at different times and are not serialized by the code.
