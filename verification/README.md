# Verification of the TiDB-to-Snowflake replication

A Dafny model of the replication tool and proofs about it. The tool loads a snapshot of TiDB
tables into Snowflake and then keeps merging the change files that TiCDC writes to object storage.
The model follows the program's own structure; `dafny verify dfyconfig.toml` checks all of it.

## What is modelled

**The incremental protocol.** `Replication` is a step system: a producer that writes schema files,
data files, indexes and the metadata checkpoint; a loader that scans a table in the order of the
code (metadata, schema files, directory listings, indexes, then DDLs, statement by statement, and
merges by version); the state file; the Snowflake table with its rows and columns; crashes at any
point, also in the middle of a DDL. What the producer promises is stated as one predicate,
`Replication.Contract`:

- data files of a version come after its schema file, dates of a stream never go backward, and a
  data file shows only through its directory's index;
- a metadata checkpoint T covers every schema version up to T and, for every key, the last indexed
  row in file order is at least as new as the key's latest change up to T;
- a schema file shows only once the same holds for all older versions;
- under one version a key's rows go to one stream; rows may be written again (repeated rows,
  older rows before newer ones) after a restart of the producer, within these bounds;
- a metadata checkpoint is not before the changefeed's start.

A run begins with the rows of a snapshot, recorded with its checkpoint, or with rows of the
changefeed's start in a state opened as finished with checkpoint 0 (`Replication.Loaded`).

`Statements` says what a DDL's statements do to a table's columns, once and when run again,
`History` gives the source table over time, `Merge` the meaning of the MERGE statement, `Discovery`
the search for new files, `Freshness`, `Scanning` and `Safety` the invariants and the results over
all runs, `CrashWindow` what becomes of a DDL that was cut off. `ExampleRun` is one run that plans,
merges, runs a DDL and commits, and the same run cut off after the DDL's statement.

**The loader's code.** `TableLoader.Loader` is the loader's state for one table with the maps the
program updates in place, and its methods with their loops. They are proved against the functions in
`Planning` and `Executing`; calls to Snowflake and the state file succeed until a budget is used up,
so every prefix of the calls is covered. `Refinement` shows that the loader's plan is the
protocol's and that a restarted loader plans and calls the same; `Simulation` that the calls of a
scan, however they turn out, are a run of the protocol. `Counting` compares the program's three
file counts, and `ScanAnswers` says when a scan succeeds and what it plans in terms of the storage's
answers alone. `ScanLoop` is one round of the outer loop over the tables' loaders, `WorkerGroup` the
worker group it runs on. `Reading` shows that the reads of a scan, each made at its own moment, answer
the loader like one storage, and `Rounds` that a round which has scanned all tables is a stretch of a
run of the protocol that ends in moving the checkpoint to a metadata checkpoint read before it all.

**Durable state and job creation.** `ReplicationState` and `Manager` are the state manager, with
Go's pointers and maps as heap objects. `JobCreation` is the pending-creation protocol with a
service that may act late, reject, or lose responses, state writes that fail with or without effect,
crashes, and the delete command; `CloudClient` is the retry loop and the classification of errors.
`CommandRuns` has runs in which commands get through.

**Generated SQL.** `MergeSql` is the generator of the MERGE statement and what the statement it
writes means, clause by clause, on CSV records and rows; `Ddl` the translation of DDLs, `DdlMeaning`
its meaning on columns, `DdlEffects` what each kind of DDL comes to for the table as a whole,
`Identifiers` the quoting of names.

**The snapshot side.** `Handoff` is the sequence of commands from the export to the incremental
load, with crashes and lost state writes, and relates the changefeed's start to the recorded
checkpoint (the hypothesis `start <= origin` in `History.Sound`); `SnapshotLoad` is the snapshot
phase on the worker group; `FileNames` the escaping of names in file names.

## Where the code meets its promises only under a condition

- The MERGE ranks rows by the commit timestamp as text. That is the numeric order exactly on
  timestamps of equal width (`TextOrder.OrdersAgreeIffEqualWidth`). Merging a file is replaying it
  exactly if for every key the row that is greatest as text says what the newest row says
  (`Merge.ReplayIff`); `Merge.UnequalWidthsKeepOlder` shows the older row kept otherwise. The
  theorems over runs assume one width.
- A crash, or a failing call, after statements of a DDL and before its watermark is stored makes
  the loader run the DDL from its first statement. The run ends as it would have without the crash
  if the statements that had run are all MODIFY, TRUNCATE or DROP IF EXISTS, and fails in Snowflake
  if one of them adds, drops or renames a column (`Statements.RerunAfterPrefix`,
  `CrashWindow.RerunIff`). In terms of the ALTER, a second run is harmless exactly if no spec adds,
  drops or renames a column, where a CHANGE renames unless its names differ at most in case
  (`DdlMeaning.AlterTwice`). In the failing case the table never gets past that DDL
  (`CrashWindow.WindowCrash`); `ExampleRun.ACrashIsFatal` is a reachable state where ADD COLUMN has run
  and every continuation is stuck. The rows stay right all the same: `Safety.CheckpointSafety` covers
  every run, and the rows a rerun ends with are the source's (`CrashWindow.MarkedRowsAreSource`).
- Without a watermark the baseline schema is kept "to rebuild currentMeta"
  (`incremental/loader.go:396-400`), but `loadSchemaFiles` rebuilds it only for a nonzero watermark. So a
  table's first DDL is compiled without previous metadata, and `DdlMeaning.WithoutPreviousMeta` says
  which ALTERs then compile. The model follows the code.
- ALTER translation is right exactly for the specs in `DdlMeaning.Renders`: names typed in the query
  must resolve to the stored ones, a CHANGE that differs only in case must not need quoting, and
  nullability must not change to a text other than "true" and "false".
- A state opened as finished has no recorded handoff point: the incremental load begins without a
  checkpoint exactly if the command found the state finished without one (`Handoff.WithoutCheckpoint`).

## Model

| member | source | states |
|---|---|---|
| TextOrder.OrdersAgreeIffEqualWidth | pkg/snowflake/sql.go:190-191 | text order and numeric order of timestamps agree exactly on equal widths |
| TextOrder.TextOrderIsNumericOrder | pkg/snowflake/sql.go:190-191 | on equal widths, order and equality as text are order and equality as numbers |
| Merge.SourceHasOneRowPerKey | pkg/snowflake/sql.go:184-192 | the merge source never has two rows of one primary key, however ties are numbered |
| Merge.SourceRowIsNewest | pkg/snowflake/sql.go:184-192 | the source row of a key is its newest row above the checkpoint |
| Merge.MergeOutcome | pkg/snowflake/sql.go:184-199 | after the MERGE a key holds the image of its newest visible row, or what it held before |
| Merge.MergeRefinesReplay | pkg/snowflake/sql.go:146-211 | merging a file equals replaying its events above the checkpoint in commit order |
| Merge.ReplayIff | pkg/snowflake/sql.go:184-199 | every table the MERGE may leave is the replayed one iff for each key the row greatest as text says what the newest says |
| Merge.UnequalWidthsKeepOlder | pkg/snowflake/sql.go:190-191 | with timestamps "9" and "10" the statement keeps the older row |
| Merge.LastFileWins | incremental/loader.go:891-898 | after many files a key holds the newest row of the last file that has one |
| Merge.CrashAbsorption | incremental/loader.go:281-314 | merging files again from older cursors ends in the table of the uninterrupted run |
| MergeSql.GenMergeInto | pkg/snowflake/sql.go:146-211 | the loops put field i+5 into column i, and name every column in update, insert and values, every key column in ON and partition |
| MergeSql.GeneratedMerges | pkg/snowflake/sql.go:184-208 | the generated statement is SQL iff there is a primary key; read clause by clause on CSV records, it then never meets two source rows for one target row and leaves exactly the tables the MERGE of the file's changes may leave, keys taken from the primary key columns |
| MergeSql.GeneratedRefinesReplay | pkg/snowflake/sql.go:146-211 | with a primary key, on timestamps of one width the generated statement leaves exactly the table that replaying the file's changes in commit order leaves |
| MergeSql.SelectIsRecord | pkg/snowflake/sql.go:147-156 | the SELECT list makes of each CSV record the row whose columns hold their own fields |
| MergeSql.BranchesTakeSourceRow | pkg/snowflake/sql.go:166-180 | UPDATE turns the whole matched row into the source row, INSERT adds the source row |
| MergeSql.OnIsSameKey | pkg/snowflake/sql.go:158-164 | ON matches exactly the rows with equal primary keys |
| Discovery.PositionOfName | incremental/loader.go:574-587 | a cursor leads back to the place of its file in the stream |
| Discovery.NamesAreDistinct | incremental/loader.go:574-587 | no two files of a stream leave the same cursor |
| Discovery.GrowthKeepsCursors | incremental/loader.go:497-563 | files the producer adds do not change what a cursor stands for |
| Discovery.PlanIsContiguous | incremental/loader.go:483-563 | a stream's plan is the stretch of its files from the cursor to a point not before the listing, while the producer keeps writing |
| Discovery.PassesCoverLog | incremental/loader.go:554-563 | over any number of scans the plans join to one stretch: each file once, in order |
| Freshness.MergedKey | pkg/snowflake/sql.go:184-199 | merging a file leaves a key alone or shows it at a commit above the checkpoint, not older than its last row in the file |
| Freshness.MergeKeepsFresh | incremental/loader.go:891-898 | a merge keeps every row at a source value not older than the checkpoint |
| Freshness.ExecKeepsFresh | incremental/loader.go:822-826 | one statement of a DDL, run for the first time or again, keeps every row at a source value, changed by the first statements of the DDL |
| Freshness.MarkKeepsFresh | incremental/loader.go:827-832 | storing the watermark after all files of the old version and all statements keeps that too |
| Freshness.DdlKeepsKey | incremental/loader.go:804-837 | after a DDL each row is the source row at the DDL's own time |
| Freshness.ScanAdvancesFresh | incremental/loader.go:75-80 | a finished scan lets the checkpoint move to the metadata checkpoint read before it |
| Scanning.PlannedVersions | incremental/loader.go:403-447 | the walk keeps the version a table has and all later ones, with or without a watermark or a checkpoint |
| Scanning.MakePlanOk | incremental/loader.go:467-563 | reads interleaved with producer steps give a plan that reaches what was indexed when the metadata was read |
| Scanning.EpochAlignment | incremental/loader.go:867-898 | a file is merged only while the table has the version the file was written under |
| Scanning.GrowthKeepsStage | incremental/loader.go:382-572 | a producer step during a scan breaks nothing the scan has established |
| Safety.InvAlways | incremental/loader.go:53-88 | the invariant holds in every state of every run |
| Safety.CheckpointSafety | incremental/loader.go:53-88 | at every moment every row is the source row at some time not before the durable checkpoint, in the middle of a DDL changed by the first of its statements |
| Safety.QuietSourceIsReplicated | incremental/loader.go:53-88 | if the source was quiet since the checkpoint, the tables are equal |
| Safety.NoFileLost | incremental/loader.go:403-563 | when the checkpoint is committed, every file indexed at the metadata read has been merged |
| Safety.MergedIsPrefix | incremental/loader.go:891-898 | each merge takes the file at the cursor, never past the first unmerged one, so what is merged is a prefix of the stream |
| Safety.EpochsInOrder | incremental/loader.go:867-898 | files are merged under their own version, and every file of a version that was left has been merged |
| Safety.DdlsInOrder | incremental/loader.go:804-837 | each watermark takes a table to the source's next version: none is skipped or stored twice |
| Safety.ProgressIsMonotone | incremental/loader.go:244-256 | the durable checkpoint and watermarks never move back |
| Statements.RerunAfterPrefix | incremental/loader.go:822-826 | statements run again from the start after the first m of them end as uninterrupted iff those m are all repeatable, else they fail |
| CrashWindow.RerunIff | incremental/loader.go:822-832 | in every state of every run, running the next DDL from its start on the table as it is ends as uninterrupted iff the statements that have run are repeatable, else it fails |
| CrashWindow.OnlyRepeatsAreRerun | incremental/loader.go:822-832 | a statement that does run a second time is a repeatable one and leaves the columns as they are |
| CrashWindow.MarkedRowsAreSource | incremental/loader.go:822-832 | however often statements were run, the rows are the source rows of the DDL's time when its watermark is stored |
| CrashWindow.StuckForever | incremental/loader.go:822-832 | a table on which a statement that cannot be repeated is to be repeated stays at its version in every continuation |
| CrashWindow.WindowCrash | incremental/loader.go:822-832 | a crash in the middle of a DDL: the rerun ends as without the crash, or the table never gets past the DDL, by which statements had run |
| ExampleRun.ARunCommits | incremental/loader.go:53-88 | a run that reads, plans, merges a file, runs a DDL and commits ends with the source's row and the new checkpoint |
| ExampleRun.ACrashIsFatal | incremental/loader.go:822-832 | a run reaches a crash between ADD COLUMN and its watermark, and no continuation of it gets past the DDL |
| CursorKeys.CursorKeyRoundTrip | incremental/loader.go:158-176 | a printed cursor key parses to its stream, for every uint64 version and int64 partition |
| CursorKeys.ParsesIff | incremental/loader.go:162-176 | exactly the texts of a uint64, an int64 and a rest, with slashes in between, are keys, and parse to those |
| CursorKeys.KeyText | incremental/loader.go:158-160 | the text of a printed key |
| CursorKeys.CursorKeysDiffer | incremental/loader.go:158-160 | different streams have different cursor keys |
| Planning.WorkIsOrdered | incremental/loader.go:863-873 | the work list goes by version, a version's DDL first, each stream front to back |
| Planning.WorkListIsStreamPlan | incremental/loader.go:554-563 | per stream the work list is exactly the plan from the cursor over the listed dates |
| Counting.FoundIsHighest | incremental/loader.go:664-670 | the index kept for a directory is the largest shown, and none before the cursor's date is read |
| Counting.CountsAgree | incremental/loader.go:642-671 | pending files at discovery, files in the planned ranges and loads are one number |
| Counting.CountFilesInRanges | incremental/loader.go:903-914 | counts in any order what the sorted work list counts |
| ScanAnswers.ScanSucceedsIff | incremental/loader.go:382-572 | reading fails iff the schema files cannot be listed, the current one is missing, or in a version it keeps a listing or a needed index cannot be read |
| ScanAnswers.PlanIsTold | incremental/loader.go:600-630 | a plan has the kept versions, a DDL for each later schema file, and for each directory not before its cursor the files from the one after the cursor to the highest number shown, and nothing else |
| Executing.ScanIsFaithful | incremental/loader.go:852-901 | after any part of the work, memory and calls agree and every call so far is right |
| Executing.EveryCallIsRight | incremental/loader.go:804-901 | DDLs are compiled from the schema at the watermark, watermarks grow, files are merged under their version's schema and past their cursor |
| Executing.AllFineIff | incremental/loader.go:774-837 | a list is worked off to the end iff no task meets a table without a primary key or a new DDL that cannot be translated, in the memory those before it leave |
| Executing.CursorsMoveOn | incremental/loader.go:574-587 | a scan leaves every cursor where it was or moves it forward |
| Executing.PlansArePlanful | incremental/loader.go:382-572 | what getNewFiles plans is ordered, past watermark and cursors, and of the current or a pending version |
| Executing.StopsHere | incremental/loader.go:852-901 | stopping at a failed call makes the same calls as the whole list cut there |
| TableLoader.Loader.constructor | incremental/loader.go:178-230 | the maps built from stored cursors stand for exactly those cursors |
| TableLoader.Loader.MarkConsumed | incremental/loader.go:574-587 | records any file in all four maps and touches no other stream; the stream's cursor is that file if its date is not before the active one |
| TableLoader.Loader.WalkSchemas | incremental/loader.go:403-460 | keeps the current or baseline version and the pending ones, and reports a missing current one |
| TableLoader.Loader.LookAt | incremental/loader.go:600-672 | skips dates before the cursor, counts new files, keeps the larger index |
| TableLoader.Loader.ListVersion | incremental/loader.go:483-550 | both directory layouts, stopping at the first answer that cannot be used |
| TableLoader.Loader.GetNewFiles | incremental/loader.go:382-572 | the plan is a function of the storage's answers, the watermark and the cursors alone |
| TableLoader.Loader.NewRanges | incremental/loader.go:554-563 | ranges start after the cursor and only new ones are kept |
| TableLoader.Loader.LoadSchemaFiles | incremental/loader.go:674-715 | reads exactly the needed versions and rebuilds the current metadata when a DDL needs it |
| TableLoader.LoadedIsReady | incremental/loader.go:674-744 | no needed schema file is ever missing from the walk, and a DDL starts from the schema at the watermark |
| TableLoader.Loader.ExecDdl | incremental/loader.go:774-802 | the outcome of every branch, cut at the first failed call |
| TableLoader.Loader.ApplyDdl | incremental/loader.go:804-837 | the statements, then the watermark, cut at the first failed call |
| TableLoader.Loader.LoadFile | incremental/loader.go:891-898 | one merge under the version's schema file, and the cursor only if it succeeded |
| TableLoader.Loader.LoadRange | incremental/loader.go:891-898 | every index of the range once, ascending, each followed by its cursor |
| TableLoader.Loader.HandleNewFiles | incremental/loader.go:852-901 | calls, memory and file count are those of the sorted work list, cut at the first failed call |
| TableLoader.SavesForward | pkg/state/manager.go:178-197 | the cursors a scan saves are never refused as moving backward |
| TableLoader.ScannedIsFaithful | incremental/loader.go:281-314 | every call a scan has made is right, whether it succeeded or failed and wherever it stopped |
| TableLoader.Loader.ProcessTable | incremental/loader.go:281-314 | the whole scan of a table: when it succeeds, what it called, and that memory and stored state agree afterwards |
| Refinement.PlanRefinesMakePlan | incremental/loader.go:382-572 | the loader's plan is the protocol's plan, DDLs and every stream's queue |
| Refinement.NextTaskIsEnabled | incremental/loader.go:863-898 | the next task of the sorted list is the next pending DDL or the next file of its stream, with nothing older left |
| Simulation.CallsAreRun | incremental/loader.go:804-901 | whatever calls were made and however Snowflake and the producer acted, the protocol goes through the same worlds, one loader step a call |
| Simulation.ScanIsRun | incremental/loader.go:281-314 | what processTable does outside, stopping anywhere, is a run of the protocol from its plan on, up to storing the cursors if it succeeds |
| Refinement.RestartPlansTheSame | incremental/loader.go:188-229 | a loader rebuilt from the last cursors plans the same for every storage content |
| Refinement.RestartRunsTheSame | incremental/loader.go:674-715 | and makes the same calls, although its metadata is read again |
| Reading.ReadsAreAnswers | incremental/loader.go:382-572 | in every run, what a scan has read, interleaved with the producer, is what one storage answers |
| Reading.MakePlanIsPlan | incremental/loader.go:382-572 | every plan of the protocol is one the loader makes for such a storage: same DDLs, same files of each stream |
| ScanLoop.BeginScan | incremental/loader.go:232-257 | a scan starts exactly if the metadata checkpoint is past the stored one |
| ScanLoop.RunOnce | incremental/loader.go:53-88 | without news nothing happens; with news each table is scanned or left alone, and then the metadata checkpoint is uploaded iff the group succeeded, which needs every table scanned with all its calls and fails only by a task or a stopped context; the round advances iff that upload is acknowledged |
| Rounds.TargetIsReadFirst | incremental/loader.go:232-257 | in every run the target of a scan is the metadata checkpoint of a moment before which nothing had been read in that scan, and past the checkpoint |
| Rounds.RoundCommits | incremental/loader.go:53-88 | once every table's processTable has succeeded, each table has gone through a run of the protocol to its stored cursors, and the checkpoint may move to the target |
| WorkerGroup.Group.Submit | pkg/workerpool/pool.go:97-112 | accepts one task or reports an error and accepts none; the limit is kept |
| WorkerGroup.Group.Capture | pkg/workerpool/pool.go:131-137 | the first error stays and cancels the group |
| WorkerGroup.Group.Drain | pkg/workerpool/pool.go:123-129 | waits for every outstanding future |
| WorkerGroup.Group.Cancel | pkg/workerpool/pool.go:119-121 | cancels the group without losing a future |
| WorkerGroup.Group.Wait | pkg/workerpool/pool.go:114-117 | nil iff every Submit succeeded and every accepted task ran and returned nil; none is left unawaited |
| WorkerGroup.ProcessTables | incremental/loader.go:316-347 | success iff every table's task ran and returned nil; it fails only if a task's result is an error or a context was stopped |
| ReplicationState.ProgressIsMonotone | pkg/state/manager.go:118-218 | over any calls the checkpoint, watermarks and cursors never decrease and the snapshot stays finished |
| ReplicationState.SourceStaysBound | pkg/state/manager.go:233-258 | over any calls a bound source keeps its identity |
| ReplicationState.CreationIsExclusive | pkg/state/manager.go:259-270 | a marker is stored iff a source is bound, no marker is there and no ID of that kind |
| ReplicationState.ForwardStepsSucceed | pkg/state/manager.go:118-218 | progress calls are refused exactly if they would move backward |
| ReplicationState.TableStepStores | pkg/state/manager.go:164-197 | a watermark or cursor call stores exactly the larger version, or exactly the given cursors on top of the others, and leaves every other table and field |
| ReplicationState.FieldStepStores | pkg/state/manager.go:118-273 | every other call changes exactly the fields it is for |
| ReplicationState.OtherStepsSucceed | pkg/state/manager.go:131-273 | when the other calls are refused: a zero timestamp, an unknown table, and a source exactly if it is not valid or not the bound one, whatever its plan |
| ReplicationState.WatermarkIsLargest | pkg/state/manager.go:164-176 | over any calls a table's stored watermark is the largest that was acknowledged |
| ReplicationState.CursorIsLast | pkg/state/manager.go:178-197 | over any calls a stored cursor is the last that was acknowledged |
| ReplicationState.AcceptedFiles | pkg/state/state.go:90-161 | which states are valid, said of the fields one by one |
| Manager.Clone | pkg/state/state.go:163-183 | an equal state that shares no object with the original |
| Manager.MergeCursors | pkg/state/manager.go:187-193 | all cursors are taken over, or an error iff one would move backward |
| Manager.SetTable | pkg/state/manager.go:164-197 | one table's entry changes, no other, also where maps are shared by reference |
| Manager.Mutate | pkg/state/manager.go:118-273 | each call's change, on the clone only |
| Manager.Validate | pkg/state/state.go:90-161 | accepts exactly the valid states for the configured tables |
| Manager.StateManager.Snapshot | pkg/state/manager.go:94-98 | an equal copy made of fresh objects |
| Manager.ChangeSnapshot | pkg/state/manager.go:94-98 | any change whatever to a snapshot's objects leaves the manager valid and its state as it was |
| Manager.StateManager.Update | pkg/state/manager.go:100-116 | exactly the changed and valid state is uploaded, once, and the call succeeds iff that is acknowledged; memory is the last acknowledged upload, a failure leaves it unchanged; the file is old or new |
| Manager.StateManager.SetCheckpointTS | pkg/state/manager.go:118-129 | refuses zero and smaller values, else as update |
| Manager.StateManager.SetDMLCursors | pkg/state/manager.go:178-197 | as update; refuses unknown tables and cursors that move backward |
| Manager.StateManager.SetDDLTableVersionWatermark | pkg/state/manager.go:164-176 | as update; a smaller version leaves the watermark |
| Manager.StateManager.MarkSnapshotFinished | pkg/state/manager.go:206-218 | as update; checkpoint and flag in one write |
| Manager.StateManager.BeginCreate | pkg/state/manager.go:259-270 | as update; the marker is stored before anything is created |
| Manager.StateManager.SetExportID | pkg/state/manager.go:131-142 | as update; the ID replaces the export's marker in one write, an empty ID changes nothing |
| Manager.StateManager.SetChangefeedID | pkg/state/manager.go:144-155 | as update; the ID replaces the changefeed's marker in one write, an empty ID changes nothing |
| Manager.StateManager.ClearChangefeedID | pkg/state/manager.go:157-162 | as update; forgets the changefeed and nothing else |
| Manager.StateManager.ClearPendingCreate | pkg/state/manager.go:271-273 | as update; removes the marker and nothing else |
| Manager.StateManager.BindCloudSource | pkg/state/manager.go:233-258 | refuses another source; uploads the first version's file as backup exactly if it has a job and there is no backup, and only if that is acknowledged the bound state; the backup is never overwritten |
| Manager.OpenState | pkg/state/manager.go:58-92 | opens a file iff it can be read and is valid, as it is; without one, uploads a new state and opens it iff that is acknowledged |
| Manager.OpenFile | pkg/state/manager.go:79-91 | opens exactly the states valid for the tables and yields an equal state |
| Manager.NewStateIsFresh | pkg/state/state.go:62-88 | a new state is valid and without any progress, source or job |
| CloudClient.Do | pkg/tidbcloud/client.go:123-219 | a POST is sent exactly once, other requests until the first final answer, the last retry, or the end of the context, in flight or while waiting |
| CloudClient.RejectedIffPostRefused | pkg/tidbcloud/backend.go:239-257 | a creation counts as rejected iff the POST itself was answered 400, 401 or 403 |
| CloudClient.RetriedIff | pkg/tidbcloud/client.go:267-278 | exactly which responses are worth another attempt |
| CloudClient.VerdictIs | pkg/tidbcloud/client.go:123-219 | exactly which last response makes a request succeed, or fail how |
| CloudClient.CreatedIsConfirmed | pkg/tidbcloud/backend.go:78-110 | a job ID is reported iff a successful POST named it, for the own cluster, or for none and a check found it |
| CloudClient.DeleteChangefeed | pkg/tidbcloud/backend.go:196-230 | deletion succeeds exactly if the service showed the job gone, after the DELETE or for a verified job |
| JobCreation.InvAlways | source/tidbcloud/runner.go:234-342 | the invariant holds in every state of every run of create, delete and crash steps |
| JobCreation.OnceOnly | source/tidbcloud/runner.go:234-342 | at most one job per kind exists or can still appear, and with neither ID nor marker stored none does |
| JobCreation.MarkerBlocks | source/tidbcloud/runner.go:57-60 | once a command has ended and left its marker, the marker stays and no later command sends a POST, over all runs |
| CommandRuns.ACreationSucceeds | source/tidbcloud/runner.go:246-268 | a run from any state without jobs to one with the job there and its ID stored |
| CommandRuns.ARefusalClears | source/tidbcloud/runner.go:269-275 | a run in which the service refuses, and the state is as before |
| CommandRuns.ALostAnswerStays | source/tidbcloud/runner.go:246-268 | a run in which the answer is lost: the marker stays and the job may still appear |
| CommandRuns.ADeletionClears | pkg/tidbcloud/backend.go:196-230 | a run that deletes a recorded changefeed, which is then neither there nor recorded |
| Handoff.InvAlways | source/tidbcloud/runner.go:174-233 | the invariant holds along all runs of commands, crashes, lost state writes and deletions |
| Handoff.HandoffHasNoGap | source/tidbcloud/runner.go:367-385 | at every moment of the incremental load, in all runs, the saved changefeed starts at a nonzero time; with a checkpoint it starts not after it and the rows reach it, without one the state was opened as finished |
| Handoff.WithoutCheckpoint | source/tidbcloud/runner.go:441-487 | the incremental load begins without a checkpoint iff the command found the state finished without one |
| Handoff.SnapshotStartsChangefeed | cmd/core.go:92-103 | a changefeed created next to an unfinished snapshot starts at the checkpoint that snapshot is recorded with, also by a later command |
| Handoff.SnapshotTsoIff | source/tidbcloud/runner.go:301-315 | the snapshot's TSO is the metadata's iff that is nonzero and contradicts neither what the service reports nor the configuration |
| Handoff.ChangefeedStartIff | source/tidbcloud/runner.go:367-385 | a changefeed starts at the checkpoint, else at the snapshot's TSO, else at the configured one, else nowhere |
| Handoff.FitIff | source/tidbcloud/runner.go:441-487 | exactly which starts are accepted for a changefeed |
| Handoff.EnsureSnapshotIff | source/tidbcloud/runner.go:174-211 | exactly when the snapshot side is ready, and with which metadata |
| Handoff.EnsureChangefeedIff | source/tidbcloud/runner.go:212-232 | a saved changefeed must be fit; a new one starts where it should and is fit |
| Handoff.RecordedAsConfigured | source/tidbcloud/runner.go:301-315 | in every run, a snapshot recorded by a command with a nonzero configured TSO is recorded with that TSO |
| Handoff.StartsAsConfigured | source/tidbcloud/runner.go:367-385 | in every run, a changefeed that such a command creates without a checkpoint starts at that TSO |
| CommandRuns.ALoadAdvances | cmd/core.go:58-110 | a run of a first command from nothing through snapshot and changefeed to an advanced checkpoint |
| CommandRuns.ASnapshotIsRecorded | cmd/core.go:58-110 | the same for a snapshot alone |
| CommandRuns.AnIncrementalLoadAdvances | cmd/core.go:58-110 | the same for an incremental load alone, from the configured TSO |
| SnapshotLoad.OrderDoesNotMatter | snapshot/loader.go:142-195 | the order in which workers copy files does not matter |
| SnapshotLoad.RunGroup | pkg/workerpool/pool.go:97-129 | fails iff the listing or a task does, and on return exactly the accepted tasks, the first ones of the list, have been waited for |
| SnapshotLoad.Load | snapshot/loader.go:35-53 | from whatever earlier attempts left, success leaves each row of each file exactly once; an attempt that fails has taken only steps of tasks it waited for, and copies only after all tables were replaced; without a stopped context it succeeds iff the listing and every task do |
| SnapshotLoad.TookIsWork | snapshot/loader.go:35-53 | such steps are pieces of the group's work, none more often than it is there |
| SnapshotLoad.SnapshotRowsOnce | snapshot/loader.go:35-53 | the two phases, their tasks in any order, leave in each table the rows of its files exactly once |
| Identifiers.IsSnowflakeRegularIdent | pkg/snowflake/sql.go:52-65 | the scan decides regular identifiers |
| Identifiers.QualifiedRoundTrip | pkg/snowflake/sql.go:13-19 | reading a quoted dotted name gives back each part, up to the case of regular identifiers |
| Identifiers.SameIdentifier | pkg/snowflake/sql.go:45-50 | quoting makes two names one iff they are equal, or both regular and equal but for case |
| Identifiers.QuotedIsReadAs | pkg/snowflake/sql.go:45-50 | a quoted name is read back as the name in upper case if it is regular, as it is otherwise |
| Identifiers.QuotedNameIsReadAs | pkg/snowflake/sql.go:13-19 | the same for each part of a dotted name |
| Identifiers.RegularIff | pkg/snowflake/sql.go:52-73 | which names are regular: letters, digits, underscores and dollar signs, starting with a letter or an underscore |
| Ddl.GenAlterTableDDLs | pkg/snowflake/ddl.go:77-132 | the loops produce the statements of all specs in order, or an error if any spec has one |
| DdlMeaning.ActionsCarry | pkg/snowflake/ddl.go:18-39 | MODIFY gives a column its next type, and its next nullability iff it is carried |
| DdlMeaning.TranslationPreservesMeaning | pkg/snowflake/ddl.go:77-132 | the statements take the previous column image to the next one iff every spec is one the code renders |
| DdlMeaning.WithoutPreviousMeta | pkg/snowflake/ddl.go:146-156 | without previous metadata exactly the ALTERs that only add columns compile |
| DdlMeaning.QuotedCaseChangeIsLost | pkg/snowflake/ddl.go:114-125 | a CHANGE of case of a quoted name yields no statement although the name differs in Snowflake |
| DdlMeaning.OtherNullabilityBecomesNotNull | pkg/snowflake/ddl.go:31-36 | a changed nullability text other than "true" and "false" makes a nullable column NOT NULL |
| DdlMeaning.AlterAfterCrash | incremental/loader.go:822-832 | an ALTER cut off after m statements ends, when run again, as uninterrupted iff those are all MODIFY, else it fails |
| DdlMeaning.AlterTwice | incremental/loader.go:822-832 | a second run of an ALTER changes nothing iff no spec adds, drops or renames a column, else it fails |
| DdlMeaning.DdlTwice | pkg/snowflake/ddl.go:41-75 | the same over all kinds of DDL: only an ALTER can be impossible to repeat |
| DdlEffects.TruncateEmpties | pkg/snowflake/ddl.go:43-44 | TRUNCATE leaves the columns and no row |
| DdlEffects.DropRemoves | pkg/snowflake/ddl.go:45-46 | DROP leaves no table, whether there was one or not |
| DdlEffects.NothingChanges | pkg/snowflake/ddl.go:51-62 | dropping a schema and a blank query change nothing |
| DdlEffects.AlterTakes | pkg/snowflake/ddl.go:77-132 | an ALTER takes the previous column image to the next iff every spec is rendered, and rows to what its statements make of them |
| DdlEffects.RefusedIff | pkg/snowflake/ddl.go:41-75 | exactly which DDLs are refused |
| DdlEffects.CompilesIff | pkg/snowflake/ddl.go:77-160 | an ALTER is translated iff each spec's columns are there and none renames the table |
| DdlEffects.ActionsAre | pkg/snowflake/ddl.go:18-39 | exactly which actions a MODIFY has |
| FileNames.EscapeRoundTrip | pkg/table/meta.go:25-39 | unescaping an escaped name gives the name, for all names |
| FileNames.SchemaFilesDiffer | pkg/table/meta.go:27-29 | two tables share a schema file path iff they are the same table |
| FileNames.DataFileRoundTrip | snapshot/loader.go:228-252 | every data file name leads back to its database and table |
| FileNames.SchemaCreateRoundTrip | snapshot/loader.go:213-226 | every schema-create file name leads back to its database |
| FileNames.SpecialText | pkg/table/meta.go:25-39 | control and special characters become a percent sign and two upper-case digits |
| FileNames.PlainText | pkg/table/meta.go:25-39 | so does a dash before "schema" in any case, and nothing else changes |
| FileNames.SchemaFileText | pkg/table/meta.go:27-33 | the text of the two schema files' names |
| FileNames.UnescapesIff | snapshot/loader.go:221-250 | a text unescapes iff two hexadecimal digits follow each percent sign |
| FileNames.PercentIsRead | snapshot/loader.go:221-250 | those digits are read in either case |
| FileNames.DataFileIff | snapshot/loader.go:228-252 | a file belongs to a table iff its name is made of the two names, perhaps more, and the extensions |
| FileNames.OthersAreNoData | snapshot/loader.go:228-252 | schema files and the metadata file are not taken for data |
| FileNames.SchemaCreateIff | snapshot/loader.go:213-226 | exactly which names are schema-create files, and of which database |

## Left out

- A version directory, a date listing and an index are each read at one moment; object stores that list while they change are not modelled.
- Statements of a process that died do not take effect later in Snowflake; only job creations do.
- Schema files of one version have one content, labelled with that version; stored content does not change.
- Dates are day ordinals, ordered as the text form orders them; the empty date is 0.
- Characters are ASCII: Unicode case folding and multi-byte names are not modelled.
- TableLoader.Outside: stands for Snowflake and the state file; each call succeeds or ends the process.
- Replication.MergeNext: leaves the order among the streams of one version open, where the code sorts them; their keys are disjoint. After a crash in the middle of a DDL it merges a file of the old version into a table whose columns have changed in part, which Snowflake may reject.
- Manager.StateManager.Update: takes the change as a value in place of a closure; JSON encoding is not modelled.
- Manager.StateManager.BindCloudSource: the backup's existence check is assumed to succeed.
- WorkerGroup.ProcessTables: takes each task's result as given, and `ScanLoop` supplies it; goroutines and channels are represented by what each future finally answers.
- ScanLoop.RunOnce: keeps each table's stored watermark and cursors with its loader, apart from the manager's copy of them.
- SnapshotLoad.Load: a COPY or CREATE still under way in Snowflake when the whole process dies is not modelled.
- Handoff.HandoffHasNoGap: takes the metadata file as fixed once it is there, and a metadata checkpoint of the changefeed as not before its start.
- MergeSql.GeneratedMerges: takes the target's rows as stored under their primary keys, which Snowflake does not enforce, and a NULL field as a text of its own.
- Simulation.ScanIsRun: takes from `ScanScripted` that the text of a statement does what the source's script says; `DdlMeaning` is about that translation.
- Rows loaded by other means as of another time than the changefeed's start, in a state without a checkpoint, are not modelled.
- Statements of one DDL touch different columns, as `DdlMeaning.CompiledIsApart` shows of the specs it covers (`History.Sound`).
- In the runs of `Replication`, DROP TABLE empties the rows and leaves the columns as they were (`DdlEffects` tells it from TRUNCATE); that merges into a dropped table fail is not modelled.
- A column that is added has one value in all rows, and converting a converted cell changes nothing.
- Column defaults, type mapping and literals: not part of the column image.
- The TiDB parser, TiCDC path parsing, S3, HTTP, digest authentication, Dumpling and the Snowflake driver: parameters or outcomes.
- Configuration, prompts, logging, metrics, cluster discovery and plan checks: no property beyond one branch.
- The OP source runner: it has no pending marker and allows a zero start.
- prepareSchemas (`snapshot/loader.go:55-78`): the Snowflake schemas are taken as there.
- Two processes on one storage prefix, and manual repair of the state.
