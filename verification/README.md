# Mini-Drop: a verified model of its storage protocols and profile algebra

Mini-Drop collects profiles continuously and on demand. This project models, in Dafny 4.11, the parts of it
whose correctness is not visible from any single function, and proves what they promise:

- **Hour blocks** (`HourBlocks`, `HourBlockSafety`, `HourBlockSweeps`, `ReaderGrace`, `BlockServer`). Minute
  batches are compacted into versioned hour blocks while readers read, rows are repointed in one transaction, and
  sources, superseded blocks, empty blocks and unregistered uploads are deleted afterwards by any number of workers
  that may crash at any point.
- **Blob lifecycle** (`BlobLifecycle`, `BlobServer`). Artifacts share content-addressed blobs; cleaners, the
  migrator and the analysis registrar change them by transactions on locked rows.
- **Leases and election** (`Lease`, `Election`). Workers claim analysis jobs, lose them by expiry, and late
  attempts must not displace newer results.
- **Profiles** (`Wire`, `ProfileFormat`, `ProfileMeaning`, `ProfileBuilder`): the hand-written pprof encoder,
  against a decoder written from the "Base 128 Varints" and "Length-Delimited Records" sections of the Protocol
  Buffers encoding guide and the field numbers of pprof's profile.proto.
- **Flame graphs** (`FlameTrie`, `FlameAggregate`, `FlameTree`, `FlameDiff`, `Forests`): the trie built in
  place, its rendering, truncation and diff.
- **Ingest, intervals, summaries, verdicts** (`Ingest`, `Timeline`, `Coverage`, `Receipts`, `ColdSummary`,
  `Composite`).
- `Sorting`, `Sums`, `Text` and `Wrappers` hold what these share.

How the model is read:

- Protocols are step systems: `Apply` is one step of one worker, `Run` a whole interleaving, and the theorems
  quantify over every sequence of steps. A transaction, or what happens under one row lock, is one step; every
  object-store call is a step of its own. Guards are the conditions in the update itself, so workers that act on
  something they read long ago are included. The hour-block proof does not use the advisory lock.
- Classes hold the tables or structures the program updates in place; each method's contract says which step, or
  which run of steps, it performs, or ties the new state to a function of the old one.
- Times are integers; weights and counts are naturals, with 64-bit wrap-around and saturation written out where
  the program has them. Hashes and gzip are faithful. Batch ids, block ids and object keys are not reused. Window
  rows carry the id of their batch and its object key.
- Text in the pprof modules is its UTF-8 bytes. The names compared in flame graphs are compared by code point,
  which for UTF-8 is the program's byte order.

## Model

| member | source | states |
|---|---|---|
| HourBlockSafety.ReadersGetIngestedPayload | apiserver/server/continuous_block.go:536-1012 | after any interleaving of ingest, retention, compaction, crashes, source deletion and all sweeps, every window row resolves through the loader to exactly the payload its batch was ingested with |
| HourBlockSafety.WindowServed | apiserver/server/continuous_block.go:213-250 | in any store that satisfies the invariant, loading the object of a window row and picking its batch gives the ingested payload, for minute objects and for blocks |
| HourBlockSafety.IndexFinds | apiserver/server/continuous_block.go:1038-1073 | the index of a loaded object finds a batch id whenever all payloads of that id agree, although the last one wins |
| HourBlockSafety.OneActiveBlockPerBucket | apiserver/server/continuous_block.go:754-772 | in every reachable state two active blocks of one session and bucket are the same block, also when two workers compact it at once |
| HourBlockSafety.VersionsRiseByOne | apiserver/server/continuous_block.go:598-603 | in every reachable state a superseded block was replaced by one whose version is its own plus one |
| HourBlockSafety.SourcesAreUnread | apiserver/server/continuous_block.go:773-796 | in every reachable state a recorded source key is a minute key that no batch row, window row or block row reads |
| HourBlockSafety.DoomedUnread | apiserver/server/continuous_block.go:812-824 | whatever a worker is about to delete as a source, however long ago it read the key, no live row needs |
| HourBlockSafety.OrphanUnneeded | apiserver/server/continuous_block.go:978-1011 | what the orphan sweep deletes is needed by no row and is not an upload still to be registered: the grace period outlasts a listing and a round |
| HourBlockSafety.GraceCoversReadersInFlight | apiserver/server/continuous_block.go:945-976 | a reader that took a block key from a window row and loads it within 12 minutes gets the ingested payload although the row was repointed since; the 15 minutes of grace count from the start of the round that superseded the block |
| ReaderGrace.ServedExactlyWithinGrace | apiserver/server/continuous_block.go:547-976 | over all runs and readers, everybody who loads within a given delay is served exactly when the delay is at most the 15 minutes of grace less the 3 minutes of a round |
| ReaderGrace.LateReaderMisses | apiserver/server/continuous_block.go:547-976 | a run in which a reader that is one second later finds nothing: the superseding round took its whole time before it committed |
| ReaderGrace.MinuteReadersHaveNoGrace | apiserver/server/continuous_block.go:812-824 | a reader that holds the key of a minute object is not served for any delay, not even none: the source is deleted right after the commit |
| HourBlockSafety.RunKeeps | apiserver/server/continuous_block.go:536-1012 | every run of steps keeps the invariant that ties rows, windows, blocks, objects, histories and what workers hold in memory |
| HourBlockSafety.StepKeeps | apiserver/server/continuous_block.go:536-1012 | each of the 23 kinds of step keeps it |
| HourBlockSafety.RegisterKeepsStore | apiserver/server/continuous_block.go:735-803 | the registering transaction leaves every row readable: repointed rows are members of the new block, and no other row loses its object |
| HourBlockSafety.RegisterEvolves | apiserver/server/continuous_block.go:735-803 | registering undoes nothing other workers rely on: payloads, versions, registrations, and the block of a row unless it is the new one |
| HourBlockSafety.OnlyFromReplaced | apiserver/server/continuous_block.go:736-803 | a member row that is already compacted can only belong to the block being replaced |
| HourBlockSafety.MarkDeletingKeepsStore | apiserver/server/continuous_block.go:849-896 | emptying a block removes only rows without windows and leaves no row behind that reads it |
| HourBlockSafety.ClassificationSplits | apiserver/server/continuous_block.go:642-656 | every member of the old block is either kept or removed; what is removed is gone or expired without windows |
| HourBlockSafety.MemoryStable | apiserver/server/continuous_block.go:536-1012 | what jobs and sweeps have read stays usable when other workers change the store |
| BlockServer.IndexBatches | apiserver/server/continuous_block.go:1038-1044 | the loop builds the last-wins index of the loaded batches |
| BlockServer.GroupWindowsByObject | apiserver/server/continuous_block.go:1021-1034 | every window row is in the group of its own object, in order; each object is listed once |
| BlockServer.Server.Ingest | apiserver/server/continuous.go:978-1188 | a stored batch id changes nothing; any other adds its row, object and windows, which for an id not seen before is the ingest step |
| BlockServer.Server.ReadRow | apiserver/server/continuous_block.go:213-250 | loading and resolving by the loop gives what the reading function says |
| BlockServer.Server.ClassifyMembers | apiserver/server/continuous_block.go:610-656 | the loop with its window counts keeps and removes exactly what the classification says |
| BlockServer.Server.GatherFresh | apiserver/server/continuous_block.go:572-587 | exactly the batches of the session that start in the bucket, are not compacted and end at or after the cutoff |
| BlockServer.Server.LoadFreshSources | apiserver/server/continuous_block.go:658-672 | the members added are exactly the sources that can be read, with the payloads of their objects, and exactly those are recorded for deletion; the loop is a run of steps |
| BlockServer.Server.PlanCompaction | apiserver/server/continuous_block.go:553-672 | the reading half of a round is a run of steps; it stops exactly when the old block cannot be read, and else lists exactly who stays, leaves and joins |
| BlockServer.Server.RegisterBlock | apiserver/server/continuous_block.go:735-803 | all of the transaction or none of it, exactly when the old block is still active, or no block is; the times it writes are those of the start of the round |
| BlockServer.Server.BuildBlock | apiserver/server/continuous_block.go:701-810 | upload and registration are a run of steps that ends with the block registered, exactly when the commit is allowed, or with the upload deleted again |
| BlockServer.Server.CompactBucket | apiserver/server/continuous_block.go:536-843 | a whole round is a run of steps, so the run theorems cover it, and its outcome is fixed by what is stored: built exactly when the old block can be read and a batch joins, or one leaves while another stays; emptied exactly when nobody stays or joins; else nothing changes. A built block is active, holds exactly the members that stay and join with their payloads, supersedes the old one, and rows and windows point to it; what leaves is gone |
| BlockServer.JoinersKeepRows | apiserver/server/continuous_block.go:572-803 | in a store that satisfies the invariant every batch that joins keeps its row, in the new block and with its source recorded |
| HourBlockSweeps.RetentionRemoves | apiserver/server/continuous.go:1819-1846 | retention removes an uncompacted batch, row and object, exactly when it has no windows left |
| HourBlockSweeps.ExpiredBatchRemoved | apiserver/server/continuous.go:1790-1846 | deleting its last windows lets it go with them, and nothing else |
| HourBlockSweeps.SourceRemoved | apiserver/server/continuous_block.go:906-926 | the retry removes the minute object a compacted batch records, then the record |
| HourBlockSweeps.BlockSwept | apiserver/server/continuous_block.go:928-976 | a superseded block goes exactly after 15 minutes, an emptied one at once, an active one never |
| HourBlockSweeps.OrphanSwept | apiserver/server/continuous_block.go:978-1011 | a block object is swept exactly when it is 15 minutes old and no row registers it |
| BlockServer.Server.DeleteEmptyBlock | apiserver/server/continuous_block.go:849-896 | rows and status first, then the object, then the row of the block |
| BlockServer.Server.DeleteSources | apiserver/server/continuous_block.go:812-824 | removes exactly the given objects and clears exactly the rows that recorded them for this block |
| BlobLifecycle.GoneBlobsUnreferenced | apiserver/server/artifact_lifecycle.go:661-852 | after any interleaving a blob being deleted or deleted has no live artifact or symbol reference |
| BlobLifecycle.LiveReferencesReady | apiserver/server/blob.go:207-235 | after any interleaving every live reference names a blob that exists and is ready |
| BlobLifecycle.OneBlobPerContent | apiserver/server/blob_workers.go:623-703 | content is stored in one row, whoever registers it |
| BlobLifecycle.RunKeeps | analysis/analysis_daemon.py:49-171 | registration, migration, claims, tombstones, failed deletions and retries keep the invariant in any order |
| BlobLifecycle.UpsertKeeps | apiserver/server/blob_workers.go:627-703 | an upsert never touches a blob in deletion, keeps ready blobs ready and returns a ready row of the content |
| BlobLifecycle.RegisterLinks | analysis/analysis_daemon.py:49-171 | a registration links the artifact to a ready blob of its content, or is refused exactly for a blob in deletion or upload, or for a tombstone |
| BlobLifecycle.UnreferencedIsCollected | apiserver/server/artifact_lifecycle.go:724-762 | a ready blob without references is in deletion or gone after the next claim, whatever other steps come in between, unless one of them links its content again |
| BlobLifecycle.SwitchMoves | apiserver/server/blob_workers.go:715-751 | after a migration the new blob counts the union of its references and those of the old key, each once, and every other blob what is left of its own |
| BlobLifecycle.MigrateCreateMoves | apiserver/server/blob_workers.go:539-565 | a migration that brings its blob leaves one ready row of the content; exactly the live artifacts and the symbol file of the old key refer to it, nothing else changes, and references are counted as in a switch |
| BlobLifecycle.MigrateCreateRefused | apiserver/server/blob_workers.go:627-637 | a content whose row is being deleted is not migrated |
| BlobLifecycle.LegacyIsMigrated | apiserver/server/blob_workers.go:539-565 | an artifact and a symbol file without a blob get one by a migration, which then cannot be claimed |
| BlobLifecycle.PinDecidesCleaning | apiserver/server/artifact_lifecycle.go:583-625 | a pinned artifact is claimed by nobody, an unpinned one by expiry, one of a deleted task only by the cleaning of that task |
| BlobLifecycle.RecordKernelLinks | apiserver/server/symbol.go:422-472 | a kernel symbol artifact is linked to the ledger's blob if that is ready; a tombstone stays |
| BlobLifecycle.RetryIsSafe | apiserver/server/artifact_lifecycle.go:806-852 | a retry that lists, counts and updates at three different times, with all other workers in between: it finds a reference only if the deletion ended meanwhile, changes the row only of a blob in deletion that nothing refers to, takes a blob back only if it was claimed again, and keeps the invariant |
| BlobLifecycle.RetryCanFindReference | apiserver/server/artifact_lifecycle.go:806-852 | a run in which a retry with an older list does find a reference |
| BlobLifecycle.NoRefs | apiserver/server/blob.go:219-235 | the count is zero exactly when no live artifact and no symbol file refers to the blob |
| BlobLifecycle.PinnedNeverDeleting | apiserver/server/artifact_lifecycle.go:583-625 | in every reachable state no artifact of a pinned, undeleted task is being deleted |
| BlobLifecycle.TombstoneForever | analysis/analysis_daemon.py:138-151 | a tombstoned artifact is unchanged and not live after any further steps |
| BlobLifecycle.RegisterByKeyKeepsIff | analysis/analysis_daemon.py:174-212 | registration of a bare key keeps references sound exactly when the row has no blob or a ready one |
| BlobLifecycle.RegisterByKeyCanBreak | analysis/analysis_daemon.py:174-212 | a reachable state in which it does not |
| BlobServer.Tables.FindByContent | apiserver/server/blob_workers.go:629-637 | finds the row of a content exactly when there is one |
| BlobServer.Tables.RegisterDescriptor | analysis/analysis_daemon.py:49-171 | performs the registration step; asks for a retry without changing anything, and says whether the artifact was registered |
| BlobServer.Tables.ClaimArtifact | apiserver/server/artifact_lifecycle.go:583-625 | claims exactly when the row is as seen and its task neither pinned nor deleted |
| BlobServer.Tables.PinTask | apiserver/server/artifact_lifecycle.go:1243-1289 | pins exactly when the task exists undeleted and none of its artifacts is being deleted |
| BlobServer.Tables.CompleteDeletion | apiserver/server/artifact_lifecycle.go:882-910 | writes the tombstone of an artifact being deleted, and of no other |
| BlobServer.Tables.ClaimUnreferencedBlob | apiserver/server/artifact_lifecycle.go:724-762 | claims a blob exactly when it is ready and unreferenced |
| BlobServer.Tables.ProcessClaimed | apiserver/server/artifact_lifecycle.go:661-720 | the artifact becomes a tombstone; its blob is deleted, or fails once more, exactly if it was ready and had no live reference; nothing else changes; a run of steps that keeps the invariant |
| BlobServer.Tables.ListDeleting | apiserver/server/artifact_lifecycle.go:806-818 | lists exactly the blobs in deletion with their attempts |
| BlobServer.Tables.RetryDeletions | apiserver/server/artifact_lifecycle.go:819-852 | for any list made earlier, the loop is a run of steps that changes exactly the listed rows still in deletion: tombstoned when their object was removed, else failed once more |
| Lease.JobsAreBounded | analysis/lease.py:52-205 | in every run a job is running exactly when it has an owner, and is tried at most max(1, limit) times plus its takeovers, where a limit of zero means that of the environment |
| Lease.ZeroIsNotTheLimit | analysis/analysis_daemon.py:310-312 | for every environment limit of two or more, a run in which a job with zero in its column is tried twice without a takeover |
| Lease.ColumnIsTheLimitIff | analysis/analysis_daemon.py:310-312 | every run keeps a job within max(1, column) tries plus takeovers exactly when its column is not zero or the environment allows at most one try |
| Lease.HolderDecides | analysis/lease.py:142-205 | in every run: the owner's completion is a success, its failure is due again exactly if retryable and below the limit, else failed, and the lease is cleared; a worker that lost the job changes nothing |
| Lease.ClaimGives | analysis/lease.py:52-118 | a claim takes a job exactly if it is new, due again or its lease ran out, counting the attempt and the takeover |
| Lease.FinalForever | analysis/lease.py:163-205 | a successful or failed job never changes again, whatever stale workers do |
| Lease.OnlyExpiryTakesOver | analysis/lease.py:52-205 | no step of another worker changes a held job, except a claim after its lease ran out |
| Lease.RunKeeps | analysis/lease.py:52-205 | claims, renewals, completions, failures and time keep the invariant in any order |
| Lease.JobTable.PickOldest | analysis/lease.py:64-76 | the oldest claimable job that is not locked, or none exactly when there is none |
| Lease.JobTable.ClaimOne | analysis/lease.py:52-118 | takes that job and returns its record: the claim step of the run theorems |
| Lease.JobTable.Renew | analysis/lease.py:122-141 | renews exactly for the owner of a running job: the heartbeat step of the run theorems |
| Lease.JobTable.FinishJob | analysis/lease.py:163-205 | finishes exactly for the owner and clears the lease |
| Election.ActiveIsTheOnlyOne | analysis/analysis_daemon.py:370-450 | after any finishing order a completed job is active exactly when it was elected and not superseded; one completed without an election is neither active nor superseded |
| Election.ActiveIsLatestAttempt | analysis/analysis_daemon.py:389-403 | the active one analysed the latest attempt since the last manual analysis, and finished last among equals |
| Election.LateAttemptsNeverDisplace | analysis/analysis_daemon.py:395-401 | without manual analyses no finished generation has a later attempt than the active one |
| Election.ManualIsActive | analysis/analysis_daemon.py:373-386 | a manual analysis is active right after it finishes |
| Election.FinalizeLeavesOthers | analysis/analysis_daemon.py:370-486 | a finalisation changes no row but its outputs and the ready results of the one job it supersedes |
| Election.BareIsCompleted | analysis/analysis_daemon.py:626-634 | a job completed without an election changes neither the active job nor artifacts and cannot be finalised any more |
| Election.LeftUnmarked | analysis/analysis_daemon.py:404-447 | what is no longer ready is not marked by a superseding |
| Election.TombstoneForever | analysis/analysis_daemon.py:138-151 | a deleted artifact never changes again, whatever is finalised or reconciled |
| Election.ClassesMean | apiserver/server/artifact_lifecycle.go:124-155 | when an artifact is in each retention class, both ways |
| Election.SupersededStaysMarkedIff | apiserver/server/artifact_lifecycle.go:312-372 | in every run the ready results and intermediates of superseded jobs are marked all along exactly when no reconciling server writes a class for a job that is superseded by then but was not seen so when it was read |
| Election.MarkLostIff | apiserver/server/artifact_lifecycle.go:312-372 | one artifact, with any steps between read and write: the write leaves the mark off exactly when the jobs could not be loaded or its job was not superseded at the read |
| Election.MarkCanBeLost | apiserver/server/artifact_lifecycle.go:312-372 | a run that loses a mark |
| Election.SupersededStaysMarked | apiserver/server/artifact_lifecycle.go:312-372 | if every write directly followed its read of the jobs, superseded results would be marked in every run |
| Election.ManifestsKept | apiserver/server/artifact_lifecycle.go:124-127 | manifests are never marked for removal |
| Election.RunKeeps | analysis/analysis_daemon.py:370-486 | finalisations, reconciling and deletions keep the invariant in any order |
| Election.TaskRows.PrevAttempt | analysis/analysis_daemon.py:395-400 | finds the attempt of the active job |
| Election.TaskRows.SwitchActive | analysis/analysis_daemon.py:370-450 | performs the election: new active job, superseded job and demoted artifacts |
| Election.OutputsRegistered | analysis/analysis_daemon.py:123-171 | after a finalisation every output is a ready row of its job, also one that an earlier job had registered, except tombstones, which stay as they are |
| Election.TaskRows.FinalizeSuccess | analysis/analysis_daemon.py:453-486 | outputs, completion and election together, once per job; an output whose row exists takes the row over |
| Wire.EncodeVarint | analysis/pprof_builder.py:30-40 | the loop writes the base-128 form of the value modulo 2^64 |
| Wire.VarintRoundTrip | analysis/pprof_builder.py:30-40 | decoding by the rules, ten bytes at most, gives every 64-bit value back and leaves the rest |
| Wire.FieldsRoundTrip | analysis/pprof_builder.py:43-67 | any list of fields is decoded back, in order |
| Wire.WrapSigned | analysis/pprof_builder.py:51-53 | reading a written int64 back gives the value, or the value modulo 2^64 |
| ProfileFormat.ProfileRoundTrip | analysis/pprof_builder.py:327-347 | a protobuf reader gets back every message and number of an encoded profile |
| ProfileFormat.SampleRoundTrip | analysis/pprof_builder.py:311-324 | the same for samples with their unpacked ids, values and labels |
| ProfileFormat.NumericLabelRoundTrip | analysis/pprof_builder.py:350-359 | the same for labels with a number and unit |
| ProfileFormat.StringLabelRoundTrip | analysis/pprof_builder.py:350-359 | the same for labels with a string |
| ProfileFormat.MappingRoundTrip | analysis/pprof_builder.py:252-269 | the same for mappings, with or without a build id |
| ProfileFormat.LocationRoundTrip | analysis/pprof_builder.py:288-305 | the same for locations with their line |
| ProfileFormat.FunctionRoundTrip | analysis/pprof_builder.py:271-286 | the same for functions |
| ProfileMeaning.FirstSeenOnce | analysis/pprof_builder.py:219-238 | the merged events are the events with frames, each once |
| ProfileMeaning.RowsFound | analysis/pprof_builder.py:309-325 | following ids and string indices from each sample gives the event it was built from, its count and its count times the period |
| ProfileMeaning.EventsRecorded | analysis/pprof_builder.py:309-325 | in plain numbers: every event with a stack is a sample with its own ids and addresses, its count and its count times the period, as long as these fit 64 bits |
| ProfileMeaning.FrameFound | analysis/pprof_builder.py:288-307 | a location id leads to the frame's address, symbol and file |
| ProfileMeaning.LabelsFound | analysis/pprof_builder.py:319-322 | the four labels are told apart by the texts of their keys |
| ProfileMeaning.ValidatesIffStacks | analysis/pprof_builder.py:416-471 | the self-check accepts a built profile exactly when some event has a stack |
| ProfileBuilder.Aggregate | analysis/pprof_builder.py:219-238 | the loop lists the merged events in first-seen order with the number of times each occurs |
| ProfileBuilder.Builder.Intern | analysis/pprof_builder.py:208-217 | returns an index of the text, adds it only if it is new, and keeps the table free of duplicates |
| ProfileBuilder.Builder.EnsureMapping | analysis/pprof_builder.py:252-269 | returns the id of the file's mapping; ids stay dense and every earlier mapping keeps its meaning |
| ProfileBuilder.Builder.EnsureFunction | analysis/pprof_builder.py:271-286 | the same for functions |
| ProfileBuilder.Builder.EnsureLocation | analysis/pprof_builder.py:288-307 | the same for locations, which name the right mapping and function |
| ProfileBuilder.Builder.WriteLabels | analysis/pprof_builder.py:350-359 | the four labels of an event, with the fixed strings in their fixed places |
| ProfileBuilder.Builder.WriteSample | analysis/pprof_builder.py:311-324 | the bytes of a sample whose references and values mean the event, its count and its count times the period |
| ProfileBuilder.BuiltIsFaithful | analysis/pprof_builder.py:190-347 | a profile with such tables decodes to itself and is faithful to the events |
| ProfileBuilder.BuildProfile | analysis/pprof_builder.py:190-347 | the bytes decode to a profile with dense non-zero ids, resolving references and a duplicate-free string table starting with the empty string, which read by its references is exactly the events with frames, each with its number of occurrences and that number times the period in 64 bits |
| FlameTrie.FoldWeights | apiserver/server/continuous.go:3768-3856 | after any samples a path weighs what the samples starting with it weigh, and its own weight is that of the samples ending there |
| FlameTrie.FoldPaths | apiserver/server/continuous.go:3834-3855 | the trie has exactly the prefixes of the samples' stacks |
| FlameTrie.FoldConserves | apiserver/server/continuous.go:3834-3855 | every node weighs its own weight plus its children's |
| FlameTrie.FoldOrder | apiserver/server/continuous.go:3768-3856 | weights and paths do not depend on the order of the samples |
| FlameTrie.FlameWeights | apiserver/server/continuous.go:3768-3856 | the tree is well formed and its node at each path has these weights; there are no other nodes |
| FlameTrie.FlameDiffWeights | apiserver/server/continuous.go:4024-4088 | the diff of two lists of samples shows at each path both their weights |
| FlameTrie.Normal | apiserver/server/continuous.go:3768-3779 | what a valid sample adds is a non-empty stack and a positive weight |
| FlameTrie.NormalMeans | apiserver/server/continuous.go:3768-3779 | it counts as its frames that are not blank, trimmed and in their order, else as its command, executable or "unknown", with its count or one |
| FlameTrie.ValidMeans | apiserver/server/continuous.go:3937-3951 | a sample counts exactly if its count is at most a milliard and neither its text nor a frame is a message of the collector |
| FlameTrie.InvalidMeans | apiserver/server/continuous.go:3953-3964 | which frames are such messages |
| FlameTrie.TrimMeans | apiserver/server/continuous.go:3966-3987 | trimming removes white space at both ends and nothing else |
| FlameTrie.SplitMeans | apiserver/server/continuous.go:3979-3986 | joining the parts of a stack text with semicolons gives the text back, and no part has one |
| FlameTrie.NonBlankMeans | apiserver/server/continuous.go:3966-3987 | every frame contributes in its place: itself trimmed, or nothing if blank |
| FlameAggregate.AddChild | apiserver/server/continuous.go:3841-3850 | a new node is linked under its parent in place and nothing else changes |
| FlameAggregate.Descend | apiserver/server/continuous.go:3841-3850 | the child of the frame, the existing one or a new one |
| FlameAggregate.AddToTop | apiserver/server/continuous.go:3809-3833 | each frame adds the weight to its function, the last one also to its own weight |
| FlameAggregate.Aggregate.AddToTrie | apiserver/server/continuous.go:3834-3855 | the walk that updates nodes in place leaves the heap holding the trie with the sample added |
| FlameAggregate.Aggregate.AddSample | apiserver/server/continuous.go:3768-3856 | a valid sample is counted in total, table and trie; any other changes nothing |
| FlameAggregate.Aggregated | apiserver/server/continuous.go:2704-2708 | folding a list of raw samples counts exactly the valid ones |
| FlameAggregate.NodeWeights | apiserver/server/continuous.go:3834-3855 | the nodes on the heap are those of the samples' prefixes, with their weights |
| FlameAggregate.TotalIsShared | apiserver/server/continuous.go:3780-3835 | the total is the root's weight and the sum of all functions' own weights |
| Forests.CutIsPrefix | apiserver/server/continuous.go:4126-4141 | truncation keeps exactly the first nodes of the preorder, as many as the budget allows |
| Forests.CutPrunes | apiserver/server/continuous.go:4126-4141 | kept nodes are unchanged and keep their parents; at each node the first children are kept |
| Forests.CountIsPreorder | apiserver/server/continuous.go:4118-4124 | the recursive count is the length of the preorder |
| Forests.Truncate | apiserver/server/continuous.go:4126-4141 | the recursive loop over the shared budget computes this cut |
| FlameTree.SortedChildrenUnique | apiserver/server/continuous.go:3992-3998 | an arrangement of the children is the one shown exactly when heavier ones come first and equal ones by ascending name, so an unstable sort gives it too |
| FlameTree.RenderHeaviestFirst | apiserver/server/continuous.go:3988-4014 | at every level siblings come with the larger weight first, equal weights by the first differing character of their names |
| FlameTree.IdsArePositions | apiserver/server/continuous.go:4000-4010 | the id of a node is its position, level by level with dots |
| FlameTree.IdsDiffer | apiserver/server/continuous.go:4000-4010 | no two nodes have the same id |
| FlameTree.RenderCount | apiserver/server/continuous.go:4193-4202 | the list has as many nodes as the tree |
| FlameTree.RenderBudget | apiserver/server/continuous.go:4160-4191 | sorting level by level under a budget gives the cut of the fully sorted list |
| FlameTree.RenderTruncated | apiserver/server/continuous.go:4143-4158 | exactly min(nodes, limit) nodes, 5000 without a limit, the first of the full preorder and heaviest first at every level; truncated flag exactly when some are missing |
| FlameDiff.RenderShowsTree | apiserver/server/continuous.go:3988-4014 | the list shows every path of the tree with its weights, and no other path |
| FlameDiff.DiffJoins | apiserver/server/continuous.go:4024-4088 | a path is in the diff exactly when it is in one of the trees |
| FlameDiff.DiffShowsChange | apiserver/server/continuous.go:4024-4044 | at such a path: both weights, zero where absent, compare minus base, and that in per cent of the base weight, a hundred for what is new |
| FlameDiff.DiffSorted | apiserver/server/continuous.go:4078-4086 | at every level siblings come with the larger of their two weights first, then by ascending name; no two have the same name |
| FlameDiff.DiffOfSame | apiserver/server/continuous.go:4024-4088 | a tree compared with itself shows no change |
| FlameDiff.DiffSwapped | apiserver/server/continuous.go:4024-4088 | swapping the trees negates every change |
| FlameDiff.TruncateDiff | apiserver/server/continuous.go:4107-4116 | the diff is truncated like a flame graph, and stays in that order |
| Ingest.Validate | apiserver/server/continuous.go:1192-1232 | refuses exactly the batches whose identities, digests, counts or ranges are not well formed, and names a field that is wrong, of the first wrong window |
| Ingest.WantedRows | apiserver/server/continuous.go:1070-1125 | a batch asks for exactly one row for every signal of every window, with the window's digest |
| Ingest.KnownIdAnswered | apiserver/server/continuous.go:978-997 | once a batch is stored its id is for ever answered duplicate exactly for the same session, times and digest, and conflict otherwise, and neither changes the tables |
| Ingest.DigestsConflict | apiserver/server/continuous.go:978-1188 | a history in which one id comes with two digests meets a conflict |
| Ingest.RunOnePerKey | apiserver/server/continuous.go:1126-1151 | after any submissions there is one row per session, window and signal |
| Ingest.DigestsNeverChange | apiserver/server/continuous.go:1126-1151 | a stored row keeps its digest through any later submissions |
| Ingest.SubmitKeeps | apiserver/server/continuous.go:1043-1161 | rows are only added, and a duplicate or conflict changes nothing |
| Ingest.AddRowsKeeps | apiserver/server/continuous.go:1070-1153 | the rows of a batch go in exactly when all digests agree, with the table and among themselves |
| Ingest.AcceptedIffCompatible | apiserver/server/continuous.go:978-1188 | a history meets no conflict exactly when batches of one id have one digest and windows of one session and id that share a signal have one digest; then the tables hold the union of all batches |
| Ingest.OrderDoesNotMatter | apiserver/server/continuous.go:978-1188 | conflict-free histories of the same batches, in any order and repetition, leave the same rows and batches |
| Ingest.Tables.IngestBatch | apiserver/server/continuous.go:978-1188 | the nested loops with rollback perform one submission |
| Timeline.TimelineCoverage | apiserver/server/continuous.go:1580-1648 | the gaps are exactly the maximal uncovered runs longer than the tolerance, in order, trailing or leading exactly when they touch that end; the range ends at the earlier of its end and the finalised time; covered time is never negative nor more than the total |
| Timeline.Merge | apiserver/server/continuous.go:1608-1617 | merged spans are more than the tolerance apart, hold all windows and have no longer hole |
| Timeline.CollectGaps | apiserver/server/continuous.go:1619-1635 | the cursor loop finds the spaces between merged spans longer than the tolerance |
| Timeline.FirstGapsAreGaps | apiserver/server/continuous.go:1619-1635 | these are the maximal runs, in both directions |
| Timeline.GapsUnique | apiserver/server/continuous.go:1580-1635 | windows covering the same instants, in any order or pieces, have the same gaps |
| Timeline.GapTimeCounts | apiserver/server/continuous.go:1636-1640 | gap time is the number of instants in gaps |
| Timeline.MoreWindowsLessGap | apiserver/server/continuous.go:1580-1648 | adding windows never adds gap time |
| Coverage.AddCount | apiserver/server/continuous.go:4613-4629 | the saturating sum |
| Coverage.GroupSources | apiserver/server/coverage.go:56-69 | groups the usable, clipped windows of the hour by series |
| Coverage.SourcesMean | apiserver/server/coverage.go:33-69 | these are, one for one and in order, the windows of the session and signal that meet the hour, each with its instants in the hour and all its samples |
| Coverage.RebuildSeries | apiserver/server/coverage.go:109-133 | segments are more than five seconds apart, hold every window, have holes of at most five seconds, and carry the saturating sum of their windows' samples |
| Coverage.RebuildHour | apiserver/server/coverage.go:103-139 | the same for every series that has windows, and no segments for any other |
| Coverage.IsCovered | apiserver/server/coverage.go:164-203 | accepts exactly when every instant of the range lies in, or at most five seconds before, a segment of the session and signals that meets the range |
| Coverage.WindowsAreCovered | apiserver/server/coverage.go:103-203 | every clipped window is accepted for the segments rebuilt from its hour, whatever else is stored, exactly when neither of its ends is the zero time |
| Receipts.ReceiptsCoverRange | apiserver/server/migration_receipts.go:73-100 | true exactly when every instant of the range lies in some receipt, for any receipts |
| ColdSummary.CountIsExact | apiserver/server/continuous.go:2334-2338 | after any merges the sample count is the exact total, also when stored lists could not be read |
| ColdSummary.NeverTooHeavy | apiserver/server/continuous.go:2318-2356 | no function is credited with more than it weighed |
| ColdSummary.StoredWithinCount | apiserver/server/continuous.go:2318-2356 | stored own weights add up to at most the sample count |
| ColdSummary.ExactWithinLimit | apiserver/server/continuous.go:2353-2355 | everything is exact while at most 50 functions were ever met and every stored list could be read |
| ColdSummary.KeptOutrankDropped | apiserver/server/continuous.go:2347-2355 | a dropped function weighs less than every kept one, or as much with a later name |
| ColdSummary.KeptAreListed | apiserver/server/continuous.go:2347-2355 | the list holds as many of the merged functions as there are, up to 50, heaviest first and then by name |
| ColdSummary.MergeSummary | apiserver/server/continuous.go:2309-2373 | the loops over the map compute this merge; a stored list that cannot be read is given up, its count is not |
| Composite.Aggregate | apiserver/server/composite.go:333-390 | the counting loop computes the verdict, its analysis status and how many children are in which state |
| Composite.VerdictOnFinished | apiserver/server/composite.go:355-389 | of finished children: all required means success exactly if every child is done, quorum exactly if at least the quorum or else half of them are, best effort exactly if one is; otherwise, and without children, failure |
| Composite.BestEffortWaits | apiserver/server/composite.go:365-368 | BEST_EFFORT runs exactly as long as some child does |
| Composite.VerdictForetells | apiserver/server/composite.go:373-389 | except under BEST_EFFORT the verdict is success exactly when every way of finishing meets the policy, failure exactly when none does, running exactly while both can happen |
| Composite.VerdictIsFinal | apiserver/server/composite.go:364-389 | under every policy a final verdict stays while finished children stay finished |
| Composite.BestEffortForetellsIff | apiserver/server/composite.go:365-372 | BEST_EFFORT foretells that every way of finishing meets it exactly when no child is left or none has succeeded |
| Composite.BestEffortLags | apiserver/server/composite.go:365-372 | a case in which it does not |

## Left out

- HTTP handlers, authentication, metrics, logging, configuration, disk checks and retry back-off tables: plumbing without a deep property.
- Physical presence of blob bytes: uploads and deletions happen outside the transactions, so the blob properties are about references and states.
- Legacy backfill of blobs, the reconciling of orphaned backfill rows and the status update of a raw artifact on upload notification: they do not follow the row-lock protocol. Registration by key alone is modelled only in BlobLifecycle.RegisterByKeyKeepsIff.
- BlockServer.Server.Ingest: is the ingest step only for a batch id that is new or still stored, because in the run theorems an id names one batch for ever.
- HourBlockSafety.GraceCoversReadersInFlight: promises 12 minutes and not the 15 of the constant, because the program stamps a superseded block with the start of its round; ReaderGrace.ServedExactlyWithinGrace says that this is exact.
- A registering transaction whose outcome the worker cannot see: it either commits or fails here.
- Batches whose rows name an object key of their own, and window rows without a batch id.
- Packed repeated fields and groups in the pprof decoder, which the encoder never writes; UTF-8 encoding itself.
- Parsing of perf output, gzip and the choice of content key.
- Runtime, label and symbol diagnostics kept beside the trie, the lookup of sample labels, and floating point beyond exact sums; percentages of diffs are exact reals.
- Which signals a window has: Ingest takes the list as given. Clock and session columns of ingest.
- Lease.JobsAreBounded: each worker works on the job it claimed last, because the daemon runs one job at a time; two processes under one worker id are not modelled.
- Member-lineage fallback of the coverage rebuild, Parquet blocks and query planning.
