# Verified models of the context database

This project models the concurrent, durable and search-heavy parts of the context database and
proves what they promise. `dafny verify dfyconfig.toml` checks all of it. Nothing was executed.

## What is modelled

**Archiving and restoring an entry** (`Lifecycle*.dfy`). One journalled job is a state machine:
submit, claim under a lease, an attempt of single awaits, and a restore. Any number of workers
interleave; each await can succeed, fail, take effect and then report an error, bump the caller's
revision without reaching the file, or be the last thing before a crash. `LifecycleModel` holds
the machine, `LifecycleSteps` its single awaits spelled out, `LifecycleSafety` its invariant,
`LifecycleLeases` who may claim when, `LifecycleFencing` what leases do and do not give,
`LifecycleOrder` when what may be missing, `LifecycleResume` what a later attempt achieves,
`LifecycleStamps` what writing an entry back makes of it, `LifecycleRestore` the round trip,
`LifecycleRuns` concrete runs into each of the failures.
`LifecycleExecutor` is the same code with its classes, loops and in-place updates; every method is
proved to be a run of the machine.

**Admission and shutdown** (`Admission.dfy`, `AdmissionProgress.dfy`). Requests counting themselves in between two loads of
a flag, and shutdown callers that close it, drain, and run the guards under a lock; sequentially
consistent atomic steps, any number of both, futures dropped at any await.

**Conflict-session bindings** (`Bindings.dfy`). The table and its eviction queue, as written and
with the push moved behind the filter.

**Embedding migration** (`Migration.dfy`). The phase chain, the generation compare-and-swap with
racing callers, the evaluation gate, and the chunked re-encoding run.

**Searches.** The cognitive tree search with its policy and value (`Policy.dfy`,
`SearchTree.dfy`, and `PolicyLaws.dfy` and `SearchTreeLaws.dfy` for what they come to), the
evidence forest and its shape (`Evidence.dfy`, `EvidenceOrder.dfy`), the entanglement weights and
the cascade of an invalidation (`Entanglement.dfy`, `Cascade.dfy`, `CascadeOrder.dfy`,
`CascadeGraph.dfy`).

**Fast forms.** Batched embedding behind a drifting cache (`EmbeddingBatch.dfy`), cached
completions and the embedding cache (`ResponseCaches.dfy`), what their keys hash
(`CacheKeys.dfy`), hash buckets (`Lsh.dfy`, `LshProjections.dfy`), and the paginated background sweep
(`Sleeptime.dfy`, `SleeptimePages.dfy`, `UriOrder.dfy`).

**Algorithms with bounds.** Prompt budgeting (`PromptBudget.dfy`, `PromptTurns.dfy`), repair of contradictions
(`Guardian.dfy`), coverage of all pairs by counting (`PairCoverage.dfy`), clustering of votes
(`VoteClusters.dfy`). `Prelude.dfy` holds shared datatypes.

Floating-point numbers are read as `real`; clocks are integers handed to each step; hashes are
functions assumed not to collide where a theorem needs it; model calls, token counts, similarities
and contradiction markers are functions with the hypotheses stated in each lemma.

Of the stores behind a lifecycle job the theorems assume that deleting an absent vector, edge or
blob succeeds. `Env.strict` says whether deleting an absent entry fails, as it does in both shipped
content stores (`crates/context-db-storage/src/sqlite.rs:352`, `pg.rs:349`). `Env.stamp` is what a
store keeps of an entry it is handed: both write the time and the next version into it.

## Where the code does not do what it is meant to do

- A crash between storing a manifest and recording its checkpoint leaves a job that conflicts on
  every retry, because the manifest carries a fresh creation time and is compared whole
  (`LifecycleResume.StuckForever`, reached by `LifecycleRuns.WindowIsReached`).
- A crash between deleting the entry and recording that checkpoint does the same where deleting an
  absent entry is an error. By then the entry is gone, and restore refuses the job
  (`LifecycleResume.ContentStuckForever`, `LifecycleRuns.ContentWindowIsReached`). A clean attempt
  succeeds exactly outside these two windows (`LifecycleResume.CleanAttemptSucceedsIff`).
- A restored entry carries the stamp of its write. A restore that ends after writing the entry and
  before recording that checkpoint leaves an entry no later restore recognizes: each is refused,
  and the edges and the vector never come back (`LifecycleRestore.RestoreStuckForever`,
  `LifecycleRuns.RestoreWindowIsReached`). An undisturbed restore completes exactly outside this
  window (`LifecycleRestore.RoundTrip`).
- An executor that outlives its lease can damage what a finished restore put back. It does so
  exactly when it stands before something it would erase (`LifecycleRestore.RestoredLastsIff`,
  `LifecycleRuns.StaleWorkerRun`).
- A journal update bumps the caller's revision before the file is written. If the write fails, the
  copy is one ahead, and the next claim makes two workers holders of the same revision
  (`LifecycleFencing.LostWriteBreaksFencing`). No item is lost even then
  (`LifecycleFencing.NothingIsLost`).
- The session queue is filtered by the ids already in the table before the new id gets there, so
  it is always empty and eviction above the cap never ends (`Bindings.BindReturnsIff`,
  `Bindings.OneTooManySpins`).
- The store pages by canonical string, the sweep filters by parsed URI. A hyphen sorts before the
  slash, so `a-b` and `a/b` are ordered differently and entries can be skipped; a doubled slash and
  a query do the same (`Sleeptime.SweepCoversIff`, `UriOrder.NestedNeverVisited`,
  `UriOrder.DoubledSlashNeverVisited`, `UriOrder.QueriedNeverVisited`).
- The prompt limit can be exceeded by one section separator (`PromptBudget.LimitExceeded`), and is
  kept throughout exactly when a separator between two sections costs nothing
  (`PromptBudget.LimitKeptIff`).
- An evidence source first met at the depth limit is not expanded when it is met again nearer to a
  root (`Evidence.NearSourceMissed`, `Evidence.NearSourcesShownIff`).
- With more than one table, and more than 256 tables or 56 bits, two tables' bucket keys can
  coincide (`Lsh.KeysTellApartIff`); a query then returns an item that shares no hash with it
  exactly when the projections produce such a pair (`Lsh.QueriesAreExactIff`). They do:
  `LshProjections.SourceFarAnswer`.
- A URI the knowledge graph lists is never followed, even if a link meets it later, so switching
  the graph on can lose URIs from a cascade (`CascadeGraph.GraphHides`).
- Equal samples can be counted in different clusters (`VoteClusters.EqualAnswersPartUnderJaccard`,
  `VoteClusters.SameClusterIff`).

## Model

| member | source | states |
|---|---|---|
| LifecycleModel.CollectsExactly | crates/context-db-consolidation/src/lifecycle_execution.rs:574-600 | a blob is collected from a payload iff the payload, or one embedded in it at any depth, mentions it; references to other entries are not followed |
| LifecycleSafety.StepKeeps | crates/context-db-consolidation/src/lifecycle_execution.rs:244-284 | every atomic step of submit, claim, attempt, restore, crash or failure keeps the invariant: checkpoints in phase order, the manifest an exact snapshot, erased items all in a durable manifest, Succeeded only with all five checkpoints |
| LifecycleSafety.RunKeeps | crates/context-db-consolidation/src/lifecycle_execution.rs:389-498 | the same over every run of any length and any interleaving of workers |
| LifecycleSafety.FirstManifestIsExact | crates/context-db-consolidation/src/lifecycle_execution.rs:446-469 | the manifest stored first is a full snapshot of entry, blobs, edges and vector as they were in the beginning, because what its worker read is that, and nothing has been erased until then |
| LifecycleFencing.JournalOnlyAdvances | crates/context-db-consolidation/src/lifecycle_execution.rs:244-284 | one step raises the revision by at most one, never clears a checkpoint, never replaces a manifest and never leaves a terminal state |
| LifecycleFencing.RunOnlyAdvances | crates/context-db-consolidation/src/lifecycle_execution.rs:226-298 | the same end to end over any run |
| LifecycleFencing.NothingIsLost | crates/context-db-consolidation/src/lifecycle_execution.rs:444-498 | in every reachable state each original item is live and unchanged or in the durable manifest, even with workers whose lease was taken over; before the manifest checkpoint nothing is gone at all |
| LifecycleFencing.ClaimFencesIff | crates/context-db-consolidation/src/lifecycle_execution.rs:260-284 | a claim leaves one holder of the current revision iff no live worker carries a copy bumped by an update that missed the file |
| LifecycleFencing.AtMostOneHolder | crates/context-db-consolidation/src/lifecycle_execution.rs:244-284 | over any run without such a lost update at most one worker ever holds the current revision |
| LifecycleFencing.LostWriteBreaksFencing | crates/context-db-consolidation/src/lifecycle_execution.rs:244-259 | a concrete run with one lost update ends with two workers holding the current revision: the copy is bumped before the file is written |
| LifecycleLeases.LeaseKeepsOut | crates/context-db-consolidation/src/lifecycle_execution.rs:270-278 | from every state a claim before a lease has run out changes nothing, whoever asks |
| LifecycleLeases.ClaimIsGrantedIff | crates/context-db-consolidation/src/lifecycle_execution.rs:260-284 | a worker gets a job, with its own name, thirty seconds and the next revision, iff the job is due, unfinished, and has no lease or one that has run out; otherwise nothing changes |
| LifecycleLeases.ClaimsAreApart | crates/context-db-consolidation/src/lifecycle_execution.rs:260-284 | over any run two granted claims with no last update of an attempt between them are at least thirty seconds apart |
| LifecycleLeases.FailureIsRecorded | crates/context-db-consolidation/src/lifecycle_execution.rs:412-443 | a failed attempt leaves the job retryable below its maximum and permanently failed at it, unleased and due after one, two, four and so on up to 1024 seconds |
| LifecycleLeases.RetryIsDueIff | crates/context-db-consolidation/src/lifecycle_execution.rs:412-443 | it can then be claimed iff attempts are left and the backoff is over |
| LifecycleSteps.FaultEndsAttempt | crates/context-db-consolidation/src/lifecycle_execution.rs:412-443 | a fault at any await sends an executor to record its failure and drops a restore |
| LifecycleSteps.AppliedDidAll | crates/context-db-consolidation/src/lifecycle_execution.rs:412-443 | a call that took effect and then reported an error left journal, manifest and stores as a fine one does, at every await |
| LifecycleSteps.PairGoes | crates/context-db-storage/src/sqlite.rs:1086-1111 | removing one listed edge removes every kind of it and no edge between other ends |
| LifecycleSteps.ErasedIs | crates/context-db-consolidation/src/lifecycle_execution.rs:471-498 | an erased URI has no entry, vector or edge at either end and none of the blobs its payload mentions; everything else is as before |
| LifecycleSteps.KeysAreApart | crates/context-db-consolidation/src/lifecycle_execution.rs:336-350 | jobs of different URIs or of different operations never share a key |
| LifecycleSteps.RestoredBlobIsChecked | crates/context-db-consolidation/src/lifecycle_execution.rs:513-534 | a restored blob is filed under its own digest, and ends the restore iff that is not the digest of its reference |
| LifecycleOrder.ErasedInOrder | crates/context-db-consolidation/src/lifecycle_execution.rs:471-498 | in every reachable state no entry is missing before the graph checkpoint is durable and no blob before the content checkpoint is, whoever holds the lease |
| LifecycleOrder.NoEdgesLeft | crates/context-db-storage/src/sqlite.rs:378-386 | when a worker deletes the entry of a job that has not succeeded, its edges are gone already: a store that drops them with the entry finds none |
| LifecycleResume.CleanAttemptSucceedsIff | crates/context-db-consolidation/src/lifecycle_execution.rs:412-498 | from every reachable state a clean attempt succeeds iff no manifest is stored without its checkpoint and, where deleting an absent entry is an error, no entry is gone without its checkpoint; it then leaves exactly the original stores without the URI, and otherwise exactly the original stores or the blobs alone |
| LifecycleResume.CrashResumeEquivalence | crates/context-db-consolidation/src/lifecycle_execution.rs:412-498 | after any run with crashes and errors outside those two windows, a clean attempt reaches the same stores as an uninterrupted run |
| LifecycleResume.StuckForever | crates/context-db-consolidation/src/lifecycle_execution.rs:159-173 | once the window is entered and nobody is left to store the checkpoint, no continuation ever finishes the job or touches a live store: the fresh creation time conflicts every time |
| LifecycleResume.CrashInWindowSticks | crates/context-db-consolidation/src/lifecycle_execution.rs:455-469 | a crash of the only worker between storing the manifest and its checkpoint leads there |
| LifecycleRuns.WindowIsReached | crates/context-db-consolidation/src/lifecycle_execution.rs:455-469 | a concrete run from the beginning gets there |
| LifecycleResume.ContentWindowLeaves | crates/context-db-consolidation/src/lifecycle_execution.rs:482-490 | in the second window the entry, its edges and its vector are gone, the blobs are not, and the job has not succeeded |
| LifecycleResume.ContentStuckForever | crates/context-db-storage/src/sqlite.rs:341-354 | in the second window, with nobody left to store the checkpoint, no continuation finishes the job or brings anything back, and every restore is refused |
| LifecycleResume.CrashInContentWindowSticks | crates/context-db-storage/src/pg.rs:339-351 | a crash of the only worker between deleting the entry and its checkpoint leads there |
| LifecycleRuns.ContentWindowIsReached | crates/context-db-consolidation/src/lifecycle_execution.rs:482-490 | a concrete run from the beginning gets there |
| LifecycleResume.FineRunErases | crates/context-db-consolidation/src/lifecycle_execution.rs:444-498 | a fault-free attempt that can still delete what it has to, run to its end, leaves the job Succeeded and the stores exactly without the URI |
| LifecycleStamps.EntryIsTraced | crates/context-db-storage/src/sqlite.rs:119-183 | in every reachable state an entry is as it was in the beginning, or what the store made of the snapshot when it was written back |
| LifecycleStamps.SqlStampMatches | crates/context-db-storage/src/pg.rs:150-211 | what an SQL store keeps equals the entry handed to it iff redaction changes nothing, the write falls on the time of the last one, and the version is the next |
| LifecycleRestore.RestoringRun | crates/context-db-consolidation/src/lifecycle_execution.rs:513-571 | restores that crash, fail or race keep their checkpoints truthful and never take anything away again, however the store stamps |
| LifecycleRestore.RoundTrip | crates/context-db-consolidation/src/lifecycle_execution.rs:513-571 | after a Succeeded archive with no executor alive that stands before something to erase, and any crashed or racing restores: one undisturbed restore completes iff no entry other than the snapshot stands without its checkpoint; it then leaves the original stores up to the stamp on the entry, for good, and otherwise it leaves everything as it is |
| LifecycleRestore.VerbatimRoundTrip | crates/context-db-consolidation/src/lifecycle_execution.rs:513-571 | in a store that keeps what it is handed it always completes and gives back exactly the original stores |
| LifecycleRestore.RestoreStuckForever | crates/context-db-consolidation/src/lifecycle_execution.rs:535-549 | in that window, with no restore alive about to write the entry or to store its checkpoint, no continuation finishes the restore or changes a store, and every further restore is refused |
| LifecycleRestore.CrashInRestoreWindowSticks | crates/context-db-consolidation/src/lifecycle_execution.rs:535-549 | a crash of the only restore between writing the entry and its checkpoint leads there |
| LifecycleRuns.RestoreWindowIsReached | crates/context-db-consolidation/src/lifecycle_execution.rs:513-549 | a concrete run from the beginning gets there in any store whose stamp shows |
| LifecycleRuns.SqlStampShows | crates/context-db-storage/src/sqlite.rs:136-176 | as it does in the SQL stores there, whatever the clock says: they count versions from one again |
| LifecycleRestore.RestoredStays | crates/context-db-consolidation/src/lifecycle_execution.rs:513-571 | a finished restore is final: whatever runs later, the stores stay the original ones up to the stamp |
| LifecycleRestore.RestoredLastsIff | crates/context-db-consolidation/src/lifecycle_execution.rs:471-498 | restored stores, the entry stamped or not, stay whole through every continuation iff no executor alive stands before something it would erase: by its position, its own checkpoints and what it has left to do |
| LifecycleRestore.StaleWorkerUndoesRestore | crates/context-db-consolidation/src/lifecycle_execution.rs:471-498 | such an executor, in any of those positions, damages the restored stores with at most two awaits |
| LifecycleRuns.StaleWorkerRun | crates/context-db-consolidation/src/lifecycle_execution.rs:260-284 | a concrete run from the beginning: claim, manifest, lease expiry, another worker finishes, a restore finishes, and then the first worker deletes the vector |
| LifecycleExecutor.Journal.Upsert | crates/context-db-consolidation/src/lifecycle_execution.rs:226-236 | the first job filed under a key stays; equal to the specification of the state machine |
| LifecycleExecutor.Journal.Update | crates/context-db-consolidation/src/lifecycle_execution.rs:244-259 | revision compare, bump of the caller's copy, then the file, for every way the write can end; other keys untouched |
| LifecycleExecutor.Journal.Claim | crates/context-db-consolidation/src/lifecycle_execution.rs:260-284 | leases a job to one owner for thirty seconds under the next revision iff it is due, unfinished and under no running lease; otherwise changes nothing |
| LifecycleExecutor.Journal.Recoverable | crates/context-db-consolidation/src/lifecycle_execution.rs:285-298 | exactly the keys whose job is due, unfinished and under no running lease |
| LifecycleExecutor.ColdStorage.PutManifest | crates/context-db-consolidation/src/lifecycle_execution.rs:159-173 | a manifest is written once; a second write succeeds iff it is the same in every field, the creation time included |
| LifecycleExecutor.Executor.Submit | crates/context-db-consolidation/src/lifecycle_execution.rs:336-373 | an unsupported action is refused and files nothing; otherwise one submit step, and its error iff the write fails; submitting again returns the job already filed |
| LifecycleExecutor.Executor.ExecutePhases | crates/context-db-consolidation/src/lifecycle_execution.rs:444-498 | the five phases in their order as awaits of one worker: a run of the state machine from where the attempt stands to where it ends |
| LifecycleExecutor.Executor.Execute | crates/context-db-consolidation/src/lifecycle_execution.rs:412-443 | start, phases, and the record of success or failure, as a run of the state machine |
| LifecycleExecutor.Executor.RunPending | crates/context-db-consolidation/src/lifecycle_execution.rs:389-404 | claims iff the job is due, unfinished and under no running lease, keeps the invariant whatever happens, each await taking the fate of its own tick; if every fate is fine and the job is outside both windows the URI is erased exactly |
| LifecycleExecutor.CalmAttemptErases | crates/context-db-consolidation/src/lifecycle_execution.rs:412-443 | a claim outside both windows followed by fault-free awaits to the end erases the URI exactly |
| LifecycleExecutor.Executor.Restore | crates/context-db-consolidation/src/lifecycle_execution.rs:513-571 | refused without a manifest and a Succeeded job; if it reports success the stores are the original ones up to the stamp; in the window of a restore it fails and changes no store |
| Admission.StepKeeps | src/facade.rs:68-80 | every interleaved atomic step of any number of requests and shutdown callers keeps the protocol's invariant |
| Admission.CounterIsExact | src/facade.rs:27-34 | in every reachable state the counter is the number of requests past the increment and not yet released |
| Admission.NothingRunsAfterDrain | src/facade.rs:677-694 | once a drain loop has read zero, nothing is running and nothing is ever admitted again, however the system goes on |
| Admission.GuardsAreSerial | src/facade.rs:682-691 | at most one caller is in the guard pass, it got there by a drain, and it shuts the guards in order |
| Admission.ShutOnce | src/facade.rs:682-693 | after a pass that shut every guard the result stays and no guard is called again |
| Admission.SuccessMeansAllShut | src/facade.rs:677-694 | a shutdown that returned Ok means every guard was shut, in order |
| Admission.Facade.Admit | src/facade.rs:68-80 | undisturbed, a request is counted and let in iff the flag is open, and leaves no trace otherwise |
| Admission.Facade.Release | src/facade.rs:28-34 | dropping the guard takes exactly one from the counter |
| Admission.Facade.Shutdown | src/facade.rs:677-694 | undisturbed, succeeds iff an earlier pass did or every guard answers, and stops at the first that fails |
| AdmissionProgress.RefusedLeavesNoTrace | src/facade.rs:68-80 | a request that finds the flag closed between its two loads ends refused, and the counter as it was |
| AdmissionProgress.ReleaseTakesOne | src/facade.rs:27-34 | from every reachable state a request past its second load, admitted or not, leaves the counter one lower |
| AdmissionProgress.DrainReadsZero | src/facade.rs:677-681 | from every state of the protocol the counted requests can all leave, and a draining caller then reads zero |
| AdmissionProgress.ShutdownCanFinish | src/facade.rs:677-694 | from every reachable state every shutdown caller that has not returned can be brought to success |
| Bindings.BindReturnsIff | src/version_facade.rs:294-321 | as written, bind returns iff the other live sessions leave room; it then evicts nobody and leaves the queue empty, and otherwise its loop never ends |
| Bindings.BoundTableIs | src/version_facade.rs:294-321 | what it then keeps: the other sessions no older than the time to live, as they were, and the new one |
| Bindings.QueueIsAlwaysEmpty | src/version_facade.rs:304-321 | in every state that calls reach the eviction queue is empty and the table within its cap |
| Bindings.OwnsMatchesHistory | src/version_facade.rs:323-344 | owns answers as the whole history of binds and forgets would: the last word on the session was this tenant's binding, no older than the time to live |
| Bindings.PurgeIsInvisible | src/version_facade.rs:307-311 | purging expired entries never changes a later answer of owns |
| Bindings.IntendedBindIsBounded | src/version_facade.rs:294-321 | with the push after the filter, bind always returns, the queue lists exactly the table's ids, the table is within its cap and at most the longest queued session is evicted |
| Bindings.IntendedKeepsLive | src/version_facade.rs:294-321 | what it keeps of the other sessions has not run out and is as it was |
| Bindings.IntendedEvictsOldest | src/version_facade.rs:313-320 | it loses at most one live session, only when the table is full, and none queued before it is left |
| Bindings.ForgetKeepsQueued | src/version_facade.rs:340-344 | forgetting keeps the intended invariant |
| Bindings.IntendedNeverSpins | src/version_facade.rs:294-344 | no run of the intended calls from an empty table ever spins, and throughout the queue covers the table |
| Bindings.OneTooManySpins | src/version_facade.rs:294-321 | for every time to live and cap, one bind more than the cap never returns |
| Bindings.ConflictSessions.Bind | src/version_facade.rs:294-321 | the table and queue after bind, as specified, or no return |
| Bindings.ConflictSessions.BindSession | src/version_facade.rs:294-321 | a session whose scope or conflicts name another tenant is refused and changes nothing; otherwise the binding, or no return |
| Bindings.ConflictSessions.CheckOwns | src/version_facade.rs:323-339 | true iff the tenant owns the session now; changes nothing |
| Migration.SwapReplacesWhatWasSeen | crates/context-db-core/src/embedding_migration.rs:95-128 | a swap that wins replaces exactly the state its caller loaded and raises the generation by one |
| Migration.EveryHistoryIsSound | crates/context-db-core/src/embedding_migration.rs:95-169 | under any interleaving of honest callers the i-th durable change has generation i + 1 and one writer, advances along the chain, and from cutover on carries metrics that meet its gate |
| Migration.PhasesFollowTheChain | crates/context-db-core/src/embedding_migration.rs:18-28 | phases never go back, and every phase between two durable ones was durable in between |
| Migration.RecordingKeepsGateIff | crates/context-db-core/src/embedding_migration.rs:150-163 | over any run whose migrations are registered before cutover: every durable state keeps the gate's promise iff each recording that won was before cutover or met the gate |
| Migration.StateStore.CompareAndSwap | crates/context-db-core/src/embedding_migration.rs:95-128 | writes iff the stored generation is the expected one and the next is one higher |
| Migration.StateStore.Transition | crates/context-db-core/src/embedding_migration.rs:138-169 | undisturbed, succeeds iff its checks pass, with the error of the first that fails |
| Migration.ProposedIff | crates/context-db-core/src/embedding_migration.rs:18-28 | at the expected generation a move goes through iff it is one of the four, the one to cutover with metrics that meet the gate; the error of every other |
| Migration.MigrationCompletes | crates/context-db-core/src/embedding_migration.rs:95-169 | whatever the gate, metrics that meet it take a registered migration to completion in six durable states |
| Migration.MigrationRun.Run | crates/context-db-core/src/embedding_migration.rs:191-241 | writes nothing unless the space matches and every item passes the checks, then a prefix of the items in order, each with its own embedding in its own collection; encodes consecutive batches of the batch size, the last one what is left; reports exactly what it wrote; gives no report only if a check failed, the chunk it had come to was not encoded in full, or the very next point was not accepted |
| SearchTree.Search | crates/context-db-cdt/src/tree_search.rs:93-111 | root visits equal the simulations and the tree is conserved |
| SearchTree.SearchPaths | crates/context-db-cdt/src/tree_search.rs:93-143 | the whole search: the conserved tree, and a best and a worst path from its root down to a leaf, each node conserved and the best or worst scored child of the one before, neither longer than the depth allows |
| SearchTree.SimulateConserves | crates/context-db-cdt/src/tree_search.rs:145-174 | one simulation adds one visit and its value, and keeps every node: visits 1 plus its children's, value sum its own rollout plus its children's, depth and branching bounded, initial beliefs kept |
| SearchTree.EveryNodeBalanced | crates/context-db-cdt/src/tree_search.rs:30-36 | each node anywhere in a conserved tree is conserved, has a mean in [0, 1] and no more visits than the root |
| SearchTree.OneVisitPerLevel | crates/context-db-cdt/src/tree_search.rs:145-174 | a simulation walks one path: it adds at most one visit to each level of the tree |
| SearchTree.LevelsHoldSimulations | crates/context-db-cdt/src/tree_search.rs:93-111 | so after k simulations no level has more than k visits, and the root has exactly k |
| SearchTree.SelectsTheBest | crates/context-db-cdt/src/tree_search.rs:235-246 | the selected child has the greatest PUCT score and is the last of those that share it |
| SearchTreeLaws.DescendsIntoBest | crates/context-db-cdt/src/tree_search.rs:145-174 | an expanded node above the limit changes exactly one child, the last of those with the greatest mean plus bonus, which gains the visit and the value |
| SearchTreeLaws.LeafGrows | crates/context-db-cdt/src/tree_search.rs:176-199 | a leaf above the limit grows one child for each of the first actions offered, each projected and one level deeper |
| SearchTreeLaws.RolloutIsMean | crates/context-db-cdt/src/tree_search.rs:211-233 | a rollout is the mean of the values along a trajectory of likeliest actions, each weighing 0.72 of the one before |
| SearchTreeLaws.PathValueIs | crates/context-db-cdt/src/tree_search.rs:408-425 | a path is worth the mean below its root, each step weighing 0.85 of the one before |
| SearchTreeLaws.PathsTurn | crates/context-db-cdt/src/tree_search.rs:398-406 | the best path turns to the last child that ranks highest, the worst to the first that ranks lowest |
| SearchTree.CognitiveIsLawful | crates/context-db-cdt/src/policy_value.rs:105-181 | the built-in policy, value and projection meet the hypotheses: values in [0, 1], always an action, only the graph density moves |
| SearchTree.RolloutValue | crates/context-db-cdt/src/tree_search.rs:211-233 | the loop computes the specified discounted mean, in [0, 1] |
| SearchTree.PathBy | crates/context-db-cdt/src/tree_search.rs:248-266 | the path starts at the root, follows the choice at each node and stops where there is none |
| SearchTree.PathIsBounded | crates/context-db-cdt/src/tree_search.rs:248-266 | a path through a conserved tree is as deep as it is long, at most max_depth steps |
| SearchTree.PathValue | crates/context-db-cdt/src/tree_search.rs:408-425 | the loop computes the discounted mean of the steps below the root |
| SearchTree.PathValueBetween | crates/context-db-cdt/src/tree_search.rs:408-425 | it lies between the least and the greatest mean on the path |
| Policy.NormalizeSumsToOne | crates/context-db-cdt/src/policy_value.rs:141-152 | rescaled priors are in [0, 1] and sum to one, uniform when their total is negligible |
| Policy.SortIsSorted | crates/context-db-cdt/src/policy_value.rs:153-158 | prioritizing puts the likeliest action first |
| Policy.SortKeepsAll | crates/context-db-cdt/src/policy_value.rs:153-158 | and keeps every action |
| PolicyLaws.SortIsStable | crates/context-db-cdt/src/policy_value.rs:153-158 | in the order they came where priors are equal |
| PolicyLaws.PrioritizeReorders | crates/context-db-cdt/src/policy_value.rs:141-158 | prioritizing reorders and changes priors alone |
| PolicyLaws.NormalizeKeepsShares | crates/context-db-cdt/src/policy_value.rs:141-152 | and keeps their proportions |
| PolicyLaws.GenerateOffersIff | crates/context-db-cdt/src/policy_value.rs:105-139 | each of the four built-in actions is offered iff its situation is there |
| PolicyLaws.ErrorsCost | crates/context-db-cdt/src/policy_value.rs:50-73 | each recent error costs 0.03 of a state, up to 0.25 |
| Evidence.ForestIsDistinct | crates/context-db-consolidation/src/explainable.rs:91-116 | no URI occurs twice across all roots, every root is shown, children are linked to their parent |
| Evidence.EveryNodeIsReached | crates/context-db-consolidation/src/explainable.rs:118-158 | a node at depth d is reached from a root in d links, and d is within the limit |
| Evidence.CompleteIff | crates/context-db-consolidation/src/explainable.rs:118-158 | the forest is exactly the reachable set iff the nodes at the depth limit have no link to a URI not shown |
| Evidence.CompleteWhenDeepEnough | crates/context-db-consolidation/src/explainable.rs:118-158 | with max_depth at least the number of reachable URIs the forest is exactly the reachable set |
| Evidence.NearSourcesShownIff | crates/context-db-consolidation/src/explainable.rs:118-158 | the forest is exactly the sources within max_depth links iff every link of a node at the limit to a source within the limit is shown anyway |
| Evidence.NoDetourHidesNothing | crates/context-db-consolidation/src/explainable.rs:118-158 | and it is whenever no URI is reached both in fewer than max_depth links and in exactly max_depth |
| Evidence.NearSourceMissed | crates/context-db-consolidation/src/explainable.rs:134-149 | a concrete graph in which a URI two links away is missed at limit two, because its parent was first met deep |
| Evidence.FailureHasACause | crates/context-db-consolidation/src/explainable.rs:126-147 | the call fails only over a URI within the limit that cannot be read, or cannot be listed although it has to be |
| Evidence.CandidatesAreLinks | crates/context-db-consolidation/src/explainable.rs:135-144 | sorting and deduplicating keep exactly the linked URIs |
| EvidenceOrder.ForestIsDepthFirst | crates/context-db-consolidation/src/explainable.rs:91-158 | the forest is the depth-first one: roots and siblings ascend, and every root and every source of a node above the limit hangs where the search first comes by it |
| Evidence.ExplainAsync | crates/context-db-consolidation/src/explainable.rs:91-116 | the loops compute the forest specified, or its error |
| Evidence.BuildNode | crates/context-db-consolidation/src/explainable.rs:118-158 | the recursive loop computes the node specified and the visited set after it |
| Entanglement.ReplayIsPairwise | crates/context-db-consolidation/src/entanglement.rs:110-138 | after any history of co-patches, dependencies and decays each weight is what its own events make of one number; lists stay without repeats and weights in (0, 1] |
| Entanglement.CoPatchesConverge | crates/context-db-consolidation/src/entanglement.rs:110-138 | n co-patches leave (4/5)^n of what both weights lacked to one, and change no other pair |
| Entanglement.EightCoPatches | crates/context-db-consolidation/src/entanglement.rs:110-138 | two URIs new to each other reach 0.80 from exactly the eighth co-patch on |
| Entanglement.DecayScalesAll | crates/context-db-consolidation/src/entanglement.rs:164-174 | decay scales every weight, forgets those at or below 0.05, and leaves no empty list |
| Entanglement.Detector.RecordDirected | crates/context-db-consolidation/src/entanglement.rs:119-138 | the in-place update of one list, as specified |
| Entanglement.Detector.DecayAll | crates/context-db-consolidation/src/entanglement.rs:164-174 | the in-place decay of all lists, as specified |
| Entanglement.Detector.EntanglementsFor | crates/context-db-consolidation/src/entanglement.rs:148-161 | the links at or above the threshold, in order |
| Entanglement.RecordedIs | crates/context-db-consolidation/src/entanglement.rs:119-138 | a record changes one list: the first link to the partner grows and takes the direction, or a new one of 0.2 comes last |
| Entanglement.SidesOf | crates/context-db-consolidation/src/entanglement.rs:110-118 | a co-patch is recorded on both sides, a dependency on that of its source alone |
| Cascade.PlanFromInvalidated | crates/context-db-consolidation/src/entanglement.rs:192-238 | no URI twice, never the trigger, never more than max_nodes, each task one level below what it follows from; without a graph exactly the first max_nodes of the uncapped plan; with or without, it invalidates exactly the URIs `Cascade.InvalidatesIff` names |
| Cascade.PlanIsExact | crates/context-db-consolidation/src/entanglement.rs:192-238 | the uncapped plan lists exactly the URIs at thresholded distance 1 to max_depth, once each, at their shortest distance |
| Cascade.PopStaysOnTrack | crates/context-db-consolidation/src/entanglement.rs:197-235 | one turn of the queue loop keeps it walking the levels in order |
| Cascade.PopKeepsSound | crates/context-db-consolidation/src/entanglement.rs:197-235 | the same turn, graph expansion included, keeps the plan free of repeats and of the trigger, each task justified |
| CascadeOrder.LevelInOrder | crates/context-db-consolidation/src/entanglement.rs:192-238 | within a level the plan follows the order of the level before and of each list of links, and a URI linked to by several is listed for the first of them |
| CascadeOrder.PlanInOrder | crates/context-db-consolidation/src/entanglement.rs:192-238 | and it goes level by level |
| Cascade.InvalidatedIff | crates/context-db-consolidation/src/entanglement.rs:209-213 | in the uncapped plan a URI is invalidated outright, at whatever depth it is met, iff it is another one entangled with the trigger itself at 0.80 and the threshold |
| CascadeGraph.PlanWithGraph | crates/context-db-consolidation/src/entanglement.rs:192-238 | with or without the graph, a plan that is not full holds exactly what is linked to, or next in the graph to, something followed above the depth limit, where the trigger and what is first met over a link is followed and what the graph meets first is not |
| CascadeGraph.GraphHides | crates/context-db-consolidation/src/entanglement.rs:224-232 | a concrete plan that loses a URI within the depth when the graph is switched on |
| Cascade.InvalidatesIff | crates/context-db-consolidation/src/entanglement.rs:209-238 | in the plan as returned, capped or not and with the graph or without, a URI is invalidated outright iff it is entangled with the trigger at 0.80 and among as many of its strong partners as the plan may hold |
| Cascade.InvalidatedFirstIff | crates/context-db-consolidation/src/entanglement.rs:209-238 | with room for all of them: iff it is another URI entangled at 0.80 and the threshold |
| Cascade.InvalidatedFromEight | crates/context-db-consolidation/src/entanglement.rs:209-213 | two URIs patched together n times: one takes the other down iff n is at least 8, in the uncapped plan and in any of at least one node |
| CacheKeys.CompletionRoundTrip | crates/context-db-core/src/llm.rs:544-556 | with no NUL in the first three fields the completion pre-image decodes to its fields, whatever the prompt holds |
| CacheKeys.NulWouldCollide | crates/context-db-core/src/llm.rs:544-556 | the condition is needed |
| CacheKeys.OptionsPartInjective | crates/context-db-core/src/llm.rs:69-74 | equal options text comes from equal options, whatever quotes, bars or backslashes a model name holds |
| CacheKeys.PartHasNoNul | crates/context-db-core/src/llm.rs:69-74 | and it holds no NUL |
| CacheKeys.EmbeddingPreimageInjective | crates/context-db-core/src/llm.rs:558-563 | equal embedding pre-images come from equal texts |
| CacheKeys.FieldsRoundTrip | crates/context-db-core/src/embedding_cache.rs:17-27 | any list of length-prefixed fields decodes to itself |
| CacheKeys.ContentPreimageInjective | crates/context-db-core/src/embedding_cache.rs:9-28 | equal content pre-images come from equal spaces and equal contents |
| CacheKeys.FeedHasher | crates/context-db-core/src/embedding_cache.rs:17-27 | the loop feeds exactly the specified bytes |
| EmbeddingBatch.Client.EmbedBatch | crates/context-db-core/src/llm.rs:458-501 | for a cache that may drift at every await: each lookup hits iff the cache as that await left it holds the text; the answer of a client without a cache or the provider's error, at most one provider call, on the texts that missed; the cache stays sound |
| EmbeddingBatch.MissedIs | crates/context-db-core/src/llm.rs:464-475 | the batch holds exactly the missed texts, once each |
| EmbeddingBatch.MissedInOrder | crates/context-db-core/src/llm.rs:464-475 | in the order of their first misses |
| EmbeddingBatch.ScanKeeps | crates/context-db-core/src/llm.rs:464-475 | one turn of the lookup loop: every text so far has its embedding or a miss that says where in the batch it is |
| EmbeddingBatch.TwiceTheSame | crates/context-db-core/src/llm.rs:458-501 | on a cache that keeps still the second of two equal batches costs no provider call and answers the same |
| ResponseCaches.KeyInjective | crates/context-db-core/src/llm.rs:544-556 | two requests share a completion key only if they are the same request, options included |
| ResponseCaches.Client.Ask | crates/context-db-core/src/llm.rs:441-449 | complete and complete_json answer only with what the provider once answered to the very same request, here or to another caller, and call it iff the drifted cache has no such answer |
| ResponseCaches.Client.BatchComplete | crates/context-db-core/src/llm.rs:527-538 | one such answer per prompt, in order, or the error of its last call, every call before it having been answered |
| ResponseCaches.MemoryEmbeddingCache.Get | crates/context-db-core/src/embedding_cache.rs:81-87 | returns only what was put for this content in this space; the final filter never drops anything |
| ResponseCaches.MemoryEmbeddingCache.Put | crates/context-db-core/src/embedding_cache.rs:88-99 | files the embedding under its space and content, a zero time to live replaced by the default |
| Lsh.BucketKeyInjective | crates/context-db-core/src/lsh.rs:148-150 | up to 256 tables and 56 bits the shift-xor key says both table and hash |
| Lsh.KeysTellApartIff | crates/context-db-core/src/lsh.rs:148-150 | up to 64 bits, keys say both table and hash iff there is at most one table, or at most 256 tables and 56 bits |
| Lsh.Index.Insert | crates/context-db-core/src/lsh.rs:26-39 | the index represents the live items with the new one added; another dimension empties it first, an empty embedding changes nothing |
| Lsh.Index.Query | crates/context-db-core/src/lsh.rs:42-59 | every URI filed under one of the query's keys, each once; another dimension empties the index |
| Lsh.Index.Remove | crates/context-db-core/src/lsh.rs:61-65 | the index represents the live items without that URI |
| Lsh.Index.EnsureDimension | crates/context-db-core/src/lsh.rs:79-89 | a new dimension empties the index, the same one leaves it alone |
| Lsh.NothingNearIsMissed | crates/context-db-core/src/lsh.rs:42-59 | a query never misses a live URI sharing a hash in some table, whatever the sizes |
| Lsh.OnlyTheNearAreReturned | crates/context-db-core/src/lsh.rs:42-59 | within those bounds it returns exactly those |
| Lsh.QueriesAreExactIff | crates/context-db-core/src/lsh.rs:42-59 | for given projections: every query is exact iff no two embeddings that share no hash have colliding keys |
| Lsh.FarAnswer | crates/context-db-core/src/lsh.rs:42-59 | two embeddings with colliding keys and no shared hash, under whatever projections: a query for one returns the other |
| Lsh.DotAt | crates/context-db-core/src/lsh.rs:136-146 | the product behind a bit is linear in every coordinate |
| Lsh.HashScales | crates/context-db-core/src/lsh.rs:136-146 | a hash depends on the direction of an embedding alone |
| Lsh.SameDirectionIsFound | crates/context-db-core/src/lsh.rs:42-59 | so a query of the direction of a live item finds it |
| LshProjections.OppositesDiffer | crates/context-db-core/src/lsh.rs:151-164 | in one dimension opposite embeddings differ in every table of the projections themselves: none of them is zero |
| LshProjections.SourceFarAnswer | crates/context-db-core/src/lsh.rs:148-164 | with those projections, 261 tables of one bit and one dimension, the query -1 returns the item 1, though they share no hash |
| Sleeptime.SweepIsExact | crates/context-db-consolidation/src/lib.rs:1586-1621 | with both orders agreeing at the page boundaries, ceil(N / batch) successful runs visit every entry once and in order, and the next run comes back empty and clears the progress |
| Sleeptime.SweepCoversIff | crates/context-db-consolidation/src/lib.rs:1592-1616 | a sweep visits every entry before it wraps iff across every page boundary the order of parsed URIs agrees with the order of their strings |
| Sleeptime.DisagreementSkips | crates/context-db-consolidation/src/lib.rs:1604-1616 | an entry the parsed order puts before the cursor is skipped for the rest of the sweep |
| Sleeptime.FailuresSkipNothing | crates/context-db-consolidation/src/lib.rs:1596-1603 | failed scans, tasks, loads and saves move neither cursor nor watermark: the successful runs visit what they would have visited alone |
| Sleeptime.RunVisitsPage | crates/context-db-consolidation/src/lib.rs:1604-1616 | a run visits its whole page iff the orders agree there, and then stands right behind it |
| SleeptimePages.SweepByPages | crates/context-db-consolidation/src/lib.rs:1586-1621 | where the orders agree the k-th run visits the entries from k times the batch limit on, as many as that, up to 1000, or as are left; then one run visits none and clears the progress |
| SleeptimePages.SweepCoversIffPages | crates/context-db-consolidation/src/lib.rs:1592-1616 | a sweep covers the set iff the parsed order puts every such page after the end of the one before |
| SleeptimePages.VisitedIff | crates/context-db-consolidation/src/lib.rs:1604-1616 | a run visits what the store lists as far as it is after the cursor and not after the watermark |
| SleeptimePages.AttemptsAreRuns | crates/context-db-consolidation/src/lib.rs:1573-1621 | until a run comes back empty the attempts recorded are the runs made and the cursor is the last entry visited |
| Sleeptime.Executor.RunOnce | crates/context-db-consolidation/src/lib.rs:1573-1621 | the durable progress and the visited entries as specified, for every way a run can go |
| UriOrder.OrdersAgree | crates/context-db-core/src/uri.rs:46-60 | where the canonical string is the joined path and every byte of every segment is above the slash, the two orders are the same |
| UriOrder.ParsesBack | crates/context-db-core/src/uri.rs:85-123 | every path of such segments without a question mark is the parse of its joined string |
| UriOrder.PlainPathsAreCovered | crates/context-db-storage/src/sqlite.rs:948-974 | over such URIs a sweep with any batch limit covers the set, wherever parsed queries rank |
| UriOrder.NestedNeverVisited | crates/context-db-storage/src/sqlite.rs:948-974 | with t/a-b and t/a/b and one entry a page the sweep never visits t/a/b |
| UriOrder.DoubledSlashNeverVisited | crates/context-db-core/src/uri.rs:101-122 | with t//b and t/a, every byte of a segment above the slash, it never visits t/a: parsing keeps the string and drops the empty segment |
| UriOrder.QueriedNeverVisited | crates/context-db-core/src/uri.rs:94-122 | with t/a/b and t/a? it never visits t/a? |
| UriOrder.SourceOrdersAreStrict | crates/context-db-core/src/uri.rs:46-60 | both orders, that of parsed URIs by path, query and canonical string, are strict, as the sweep assumes |
| UriOrder.QueriesDecide | crates/context-db-core/src/uri.rs:46-60 | of parsed URIs with one path the lower query comes first, then the lower canonical string |
| PromptBudget.TruncateToFit | crates/context-db-consolidation/src/prompt_budget.rs:125-152 | the binary search finds the longest prefix that fits, trimmed at its end; it fails only if counting fails for the section with a prefix of its content |
| PromptBudget.TruncatedFits | crates/context-db-consolidation/src/prompt_budget.rs:125-152 | what is kept is a prefix of the content and fits the budget; content that fits is kept whole |
| PromptBudget.PromptIsBounded | crates/context-db-consolidation/src/prompt_budget.rs:81-111 | for a prefix-monotone, subadditive count the prompt exceeds the limit by at most one separator, however many sections there are |
| PromptBudget.LimitExceeded | crates/context-db-consolidation/src/prompt_budget.rs:81-111 | and it can: two sections within a limit of 15 come to 17 |
| PromptBudget.LimitKeptIff | crates/context-db-consolidation/src/prompt_budget.rs:81-111 | for a prefix-monotone count, every prompt of every configuration keeps its limit iff putting the separator between two section texts never costs anything |
| PromptBudget.CostlySeparatorExceeds | crates/context-db-consolidation/src/prompt_budget.rs:81-111 | any two sections between which it costs something exceed the limit made of their own counts |
| PromptBudget.PromptCutsSections | crates/context-db-consolidation/src/prompt_budget.rs:59-111 | a prompt that fits is unchanged; otherwise sections are taken in order of need, each body a non-empty prefix of its own section, whole or trimmed at its end |
| PromptTurns.PromptTakesTurns | crates/context-db-consolidation/src/prompt_budget.rs:81-111 | over its limit a prompt is what the turns of its sections have kept, in order of need |
| PromptTurns.TakeIsTurn | crates/context-db-consolidation/src/prompt_budget.rs:84-104 | in its turn a section is kept iff it is required or the minimum is left, and something of it fits; then with its longest cut, last, under its heading |
| PromptTurns.KeptIff | crates/context-db-consolidation/src/prompt_budget.rs:125-152 | something is kept iff all of a non-empty content fits or a prefix that is not blank does |
| PromptBudget.BudgetPrompt | crates/context-db-consolidation/src/prompt_budget.rs:59-111 | the loop computes the specified prompt; a bad configuration, and a count that fails for the whole text, a cut section or cut sections together, are the only errors |
| PromptBudget.SortOrders | crates/context-db-consolidation/src/prompt_budget.rs:81-82 | sections are taken required first, then by priority, then in input order, each once |
| Guardian.RepairGoesUp | crates/context-db-consolidation/src/health.rs:386-458 | with distinct URIs, applying a plan closes claims only by links to claims at least delta better once clamped, and changes nothing else |
| Guardian.ChainsAreShort | crates/context-db-consolidation/src/health.rs:386-458 | chains of such links never return to where they were, for any delta, and with a positive one have at most 1 / delta links |
| Guardian.TheBestStays | crates/context-db-consolidation/src/health.rs:386-458 | with a positive delta a claim of the highest quality is never invalidated: its validity stays |
| Guardian.TouchedAreNoted | crates/context-db-consolidation/src/health.rs:386-458 | entries no task speaks to stay as they were; the others carry the last task that does |
| Guardian.PlanHas | crates/context-db-consolidation/src/health.rs:327-384 | the plan holds tasks for contradicting pairs only, and for all of them when max_pairs leaves room for n(n-1)/2 |
| Guardian.PlanIsDue | crates/context-db-consolidation/src/health.rs:327-384 | every task names two entries in listing order that hold now, are of one kind, overlap enough and contradict, with the action and the priority their distance and evidence call for; tasks descend by priority; with room for all pairs every such pair has its task |
| Guardian.FoundIff | crates/context-db-consolidation/src/health.rs:337-372 | however little room there is, exactly the first pairs are looked at |
| Guardian.RepairIsJustified | crates/context-db-consolidation/src/health.rs:386-458 | applying a plan closes an entry only in favour of one it contradicts that is better by delta |
| Guardian.NoClearClashSurvives | crates/context-db-consolidation/src/health.rs:386-458 | with room for every pair, of two contradicting claims far enough apart one is closed |
| Guardian.Plan | crates/context-db-consolidation/src/health.rs:327-384 | the nested loops with their early exit compute the specified plan |
| Guardian.Apply | crates/context-db-consolidation/src/health.rs:386-458 | the in-place application computes the specified entries, with their tags and notes, and counts the ones touched |
| PairCoverage.Contradictions | crates/context-db-consolidation/src/lib.rs:2346-2376 | accepts iff the count is n(n-1)/2, every pair is in range and new, and every field validates; then reports exactly the marked items in order; otherwise the error of the first item that is not in order |
| PairCoverage.AcceptedCoversEveryPair | crates/context-db-consolidation/src/lib.rs:2346-2367 | an accepted answer classifies every unordered pair exactly once |
| PairCoverage.AcceptedIff | crates/context-db-consolidation/src/lib.rs:2346-2367 | and an answer is accepted iff it does that with nothing else and valid fields |
| PairCoverage.ReportedAreMarked | crates/context-db-consolidation/src/lib.rs:2369-2375 | a pair is reported iff it is marked |
| VoteClusters.ClusterSamples | crates/context-db-consolidation/src/self_consistency.rs:252-286 | members over all clusters are the samples, votes count members, every member is within the threshold of its representative, votes descend; representatives are apart from later ones, and both ways for a symmetric similarity |
| VoteClusters.GroupedIsSound | crates/context-db-consolidation/src/self_consistency.rs:252-279 | the same before the sort, for any similarity |
| VoteClusters.AcceptedHasMajority | crates/context-db-consolidation/src/self_consistency.rs:221-250 | an accepted report has at least two valid samples and its largest cluster first; above one half no other cluster has as many votes |
| VoteClusters.ReportIs | crates/context-db-consolidation/src/self_consistency.rs:221-250 | a report accepts iff at least two samples and the least number asked for are valid and the largest cluster holds the ratio of the samples requested |
| VoteClusters.PlaceSettles | crates/context-db-consolidation/src/self_consistency.rs:252-279 | a sample founds a cluster iff it is below the threshold of all, and otherwise joins the last of the most similar |
| VoteClusters.MeansHold | crates/context-db-consolidation/src/self_consistency.rs:252-286 | a cluster of two or more states the mean similarity of its members to the first of them |
| VoteClusters.SortedIsStable | crates/context-db-consolidation/src/self_consistency.rs:280-286 | clusters of one count and one mean stay in order |
| VoteClusters.JaccardIsSymmetric | crates/context-db-consolidation/src/self_consistency.rs:304-317 | the Jaccard similarity of token sets is symmetric |
| VoteClusters.EqualAnswersPart | crates/context-db-consolidation/src/self_consistency.rs:252-279 | the same answer given twice lands in two clusters when a closer representative comes in between |
| VoteClusters.EqualAnswersPartUnderJaccard | crates/context-db-consolidation/src/self_consistency.rs:252-317 | with token sets {1,2}, {1,2,3}, {2,3}, {1,2,3} and any threshold above 1/3 and up to 2/3 it does |
| VoteClusters.SameClusterIff | crates/context-db-consolidation/src/self_consistency.rs:252-279 | a sample repeated after any others joins the cluster it joined first iff every representative founded in between is strictly less similar to it |

## Left out

- LifecycleExecutor.Executor.RunPending: one key; the loop over several recoverable keys, and two keys for one URI or one blob shared by two entries, and writers of the stores other than this executor are not part of this model, and blob reference counting is decided outside the executor.
- LifecycleRestore.RoundTrip: assumes no executor alive stands before something it would erase; `LifecycleRestore.RestoredLastsIff` shows that this is needed.
- LifecycleModel: a vector, edge or blob store whose delete of an absent item fails. Edges are removed without that error in both shipped stores; no blob store is shipped, and vectors are delegated.
- LifecycleModel.CollectsExactly: a payload's text, thumbnails and embeddings are not part of this model, only what mentions a blob.
- Files, fsync, locks between processes and JSON: a journal transaction, a manifest write and a compare-and-swap are atomic steps with the fates listed in the model; bytes of a manifest are compared as values.
- Audit trails, error texts, metrics and reaction events; the outbox through which a written entry is indexed again, and an SQL store dropping an entry's edges with it (`LifecycleOrder.NoEdgesLeft` says that before success there are none).
- Weak memory ordering, and whether a waiting drain loop is ever woken: `AdmissionProgress.ShutdownCanFinish` says that it can finish, not that it will. Requests outside the timed wrapper are not counted by the source either.
- Bindings.ConflictSessions.BindSession: what makes a URI name another tenant is a parameter.
- Migration.EveryHistoryIsSound: other writers are assumed to register before cutover and to record an evaluation only while evaluating; `Migration.RecordingKeepsGateIff` says when that matters. Metrics that are not numbers are not part of this model.
- Migration: `evaluate_paired_retrieval` and `cosine`, arithmetic over a vector index.
- SearchTree.Search: the exploration bonus with its square root, and the language model's suggestions, are parameters; preference pairs and path descriptions are not part of this model.
- Cascade.PlanFromInvalidated: exactness holds without a graph store; with one, the order of a plan and what a full plan leaves out are not stated. Applying a plan to entries is a lookup by URI.
- Evidence: printing a forest, evolution steps and session ids taken from a URI.
- EmbeddingBatch.Client.EmbedBatch: capacities and times to live appear as drift at the awaits; the eviction policy itself is not part of this model.
- LshProjections.SourceFarAnswer: projections are taken as exact numbers and a vector's length as any positive number, where the source rounds both.
- Sleeptime.Executor.RunOnce: the tasks of a run, which all work from the same batch, and the reported completeness. Where a parsed query stands among others is a parameter of `UriOrder`.
- PromptBudget.TruncateToFit: which prefix is kept is stated for token counts that never fall when a text grows, as the binary search itself assumes; without that it is some prefix.
- Guardian.Apply: assumes that recording a repair in an entry's custom field does not fail.
- PairCoverage.Contradictions: the stages of the check before and after the classifier look at one product each.
- VoteClusters.ClusterSamples: entropy and confidence, which need a logarithm; how samples are normalized and split into tokens.
- ResponseCaches.KeyInjective: numbers, names of tasks and the prompt options are assumed to render apart and without a bar or NUL; a model name's unprintable characters beyond ASCII are rendered as themselves.
- The consolidation loop of a single entry, prompts and JSON schemas, the remaining health diagnostics, the bodies of the background tasks and the pass-through facades: formatting, or settled by one branch.
