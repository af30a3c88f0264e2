# Verified models of the local control plane and its workers

This project models the parts of the repository whose correctness depends on
interleavings, crashes, byte-level framing or order of traversal, and proves what
those parts are for. `dafny verify dfyconfig.toml` checks everything.

## What is modelled

**The shared GPU slot** (`GpuSlot`, `GpuSafety`, `GpuTheorems`, `GpuRuns`). Any number of Chroma
Studio processes, of several Studio instances, and of media workers compete for one
lock file. An action is one system call, one Docker command or one update of the
manager's fields, so everything may interleave, every process may crash between any
two actions, and a Studio container outlives its Studio. Proved over every run:
mutual exclusion of all renderers that have the slot, what the lease means, that it is
released only after the absence of containers was confirmed, that recovery is harmless,
which lock files can be recovered at all, and when a renderer that a media worker let go
of can collide with another one. And that the slot is given back: how each request, job,
render, probe and shutdown ends, exactly, and that from every reachable state an orderly
job's own Studio can end it without a crash.

**Durable job history** (`JobHistory`, `JobMemory`). The `job.json` records of one state
directory across saves that fail, crashes, restarts, and shutdowns that give up waiting;
and what the processes hold of them in memory.

**The source export codec** (`Utf8`, `ExportFormat`, `ExportPaths`, `ExportSplit`, `ExportFraming`,
`ExportCodec`, `ExportCreate`, `ExportRoundTrip`, `ExportUnique`, `ExportTree`). The inventory, the
framed snapshot, its split at UTF-8 boundaries, the parts and their headers, the
verifier that undoes all of it, and the extraction into a directory tree on a file
system that may or may not fold case.

**Review snapshots** (`ReviewWorld`, `ReviewWalk`, `ReviewTree`, `ReviewSweep`,
`ReviewCollect`, `ReviewCapture`, `ReviewSnapshot`, `ReviewStill`). A directory walk with explicit
frames and open descriptors, file copies through descriptors, and the scheme around
them: manifest, copies, manifest again. The repository is a history of nodes that
others edit at any time, also during a single enumeration or read; and where nobody
edits it, walks and copies succeed exactly within their limits.

**WebSocket ownership** (`SocketOwnership`, `SocketSafety`, `SocketTheorems`,
`SocketRuns`). Any number of server processes, each with its registry and pending attempts, and the
tasks of endpoints and deliveries in them, over the durable owner of one device and
its lock. The model is of one device: every dictionary access, SQL statement and lock
in the code is keyed by the device.

**Budgeted and streaming algorithms**: phoneme splitting (`PhonemeChunks`), context
projection (`ContextProjection`), import classification (`ImportVisitor`), bounded
symbolic transport (`SymbolicTransport`, `CanonicalReading`), the live log splitter (`LogSplitter`) and
local JSON references (`JsonPointer`).

## Assumptions

- Docker: commands are atomic, and a successful `rm` or `ps` report is true. Clearing the
  lock file succeeds; writing the marker may be partial, and syncing it may fail.
- A media worker's renderer ends with a crash of its worker (in the sandbox), outlives it
  (without), or is let go of by a live worker whose wait for it timed out; the three are
  different steps. The backend's admission holds the same lock without rendering, which is
  a media worker that never renders.
- Studio's shutdown begins when no request is being served.
- File system: an edit of a node, of a directory's entries too, gives it a combination
  of device, link count, size and change times that its inode number never had before.
  Only a directory that stays as it is during an enumeration is enumerated completely.
- Device lock and SQLite statements: `flock` excludes other processes, each statement
  is atomic, and the credential cutover runs under the device lock.
- String literals of JSON (`CanonicalReading.Literals`): each starts with a quote, and its
  end can be told without looking further.
- SHA-256, canonical JSON of the export, the size of the stored manifest, secret and path screens,
  case-folding tables, the phonemizer, Unicode classes and the checks inside one
  evidence record are parameters. `ExportFormat.ToolsOk` and `SymbolicTransport.ToolsOk`
  state everything that is assumed of them, and `ExportUnique.PlainLines`, for its one result, that
  canonical JSON is one line and tells its record; `ReviewSweep.CallsOk` and
  `ReviewSnapshot.ReadsOk` what is assumed of system calls; no result uses any collision
  resistance of the digest. `ReviewSnapshot.StillSources` and `ReviewStill.CallsAnswer`
  show that the latter can be met, `CanonicalReading.BareTools` that the literals can.

## Findings

- `create_export` may write a complete export and then fail its own verification: the
  inventory only refuses equal case-folded paths (scripts/export_source.py:309-312), the
  verifier also refuses a path that is a directory of another
  (scripts/export_source.py:530-535). `ExportRoundTrip.ShadowExample` carries the files
  `A.py` and `a.py/a.py` all the way there, and `CreateExport` states exactly when creation
  succeeds and when it fails like this.
- An interrupted write of the GPU marker (tools/chroma-studio/studio.py:251-252) leaves a
  lock file that no instance recognises (tools/chroma-studio/studio.py:134-137): no renderer
  is ever admitted again until somebody repairs it by hand. `GpuTheorems.PoisoningRun` is a
  run that does it, `PoisonedForever` and `LockFileFate` say what follows.
- If the marker is written but cannot be synced (tools/chroma-studio/studio.py:253-265), it
  stays in the file while its Studio considers its recovery done
  (tools/chroma-studio/studio.py:140): nobody renders until a process of the same instance
  is started anew (`GpuRuns.SyncFailureSticks`, `StuckUntilRestart`).
- The wait for a killed media renderer may time out, and its descendants are not waited for
  (workers/media-worker/media_runtime.py:374-385); nothing catches that timeout, and the slot
  is released on the way out (workers/media-worker/media_worker.py:187-202). A renderer
  without sandbox also outlives a crash of its worker
  (workers/media-worker/media_runtime.py:333-342). Then a second renderer can be admitted
  beside it: `GpuTheorems.AbandonedCollides` is such a run, and `ExclusionFate` says exactly
  from which states two renderers can meet.
- `JobManager.close` releases the service lock after its joins time out, even if the job
  thread is alive (tools/chroma-studio/studio.py:112-127); the thread can then overwrite a
  record that a restarted Studio has already made terminal
  (tools/chroma-studio/studio.py:94-106). `JobHistory.HistoryFate` states exactly when
  history can move backwards.
- `project` measures a payload with at least one message, never the one without
  (scripts/evaluate_personal_context.py:147-180): what it dispatches can exceed the budget,
  by at most four tokens, exactly when the protected state fits and the payload with an
  empty message list does not (`ContextProjection.WithinBudget`, `EmptyListExceeds`).

## Model

| member | source | states |
|---|---|---|
| GpuTheorems.MutualExclusion | tools/chroma-studio/studio.py:129-169 | after every run with any crashes at most one renderer of any kind has the slot, and none but it is alive unless a media worker let go of one; a Studio container implies its instance's whole marker, a held media slot implies an empty file and no container |
| GpuTheorems.ExclusionFate | workers/media-worker/media_runtime.py:374-385 | from a reachable state, while no further renderer is let go, two renderers can be alive at once if and only if two that were let go still are, or one is and the lock file can still be cleared |
| GpuTheorems.AbandonedCollides | workers/media-worker/media_worker.py:187-202 | releasing the slot after a timed-out wait leads to two live renderers |
| GpuRuns.AliveAbandoned | workers/media-worker/media_runtime.py:374-385 | a renderer whose worker gives up waiting stays alive beside the unlocked slot |
| GpuRuns.AliveCrash | workers/media-worker/media_runtime.py:333-342 | a crash takes the renderer along in the sandbox, and one that outlives it is let go of |
| GpuTheorems.LeaseDiscipline | tools/chroma-studio/studio.py:213-315 | whenever nobody is inside the manager's lock, also during shutdown, an active job implies the lease and the lease implies an active job or a blocked manager, never both; the lease is the flock and implies the whole marker; before shutdown a blocked manager keeps it |
| GpuTheorems.ReleaseIsConfirmed | tools/chroma-studio/studio.py:291-315 | a lease given up without a crash leaves no container of an admitted job; an older surviving container keeps its marker |
| GpuTheorems.RecoveryTouchesNoActiveJob | tools/chroma-studio/studio.py:134-140 | recovery removes containers only while no manager of any instance runs a job, and only those of its own instance |
| GpuTheorems.FileChanges | tools/chroma-studio/studio.py:129-132 | the lock file changes only from empty to a prefix of the writer's marker, or from its own whole marker to empty with no container left; a foreign marker is never cleared |
| GpuTheorems.PartialMarkerPoisons | tools/chroma-studio/studio.py:251-252 | a partial write of the marker leaves a nonempty file that is no instance's marker |
| GpuTheorems.PoisoningRun | tools/chroma-studio/studio.py:222-252 | one Studio, one request and a write cut off after its first byte reach that state from an empty lock file |
| GpuTheorems.PoisonedForever | tools/chroma-studio/studio.py:134-140 | from such a file no run ever changes the file or admits a renderer |
| GpuTheorems.LockFileFate | tools/chroma-studio/studio.py:129-169 | a reachable lock file can become empty again if and only if it is empty or some instance's whole marker |
| GpuTheorems.NoRenderUnderMarker | workers/media-worker/media_runtime.py:202-209 | while the lock file is nonempty no media worker holds or renders in the slot; what else is alive was let go before |
| GpuRuns.RequestOutcome | tools/chroma-studio/studio.py:213-268 | a request on a free slot starts its job with lease, marker and active job, or, wherever it fails, leaves the manager idle and the slot unlocked, with in the file what it had written, cleared only after a synced marker |
| GpuRuns.RecoveredRequest | tools/chroma-studio/studio.py:232-268 | with a recovery pending a request on its own or no marker first removes every container its instance left, and then starts its job with a whole new marker |
| GpuRuns.RefusedRequest | tools/chroma-studio/studio.py:232-268 | a request that finds another's marker, or its own with no recovery pending, is refused and changes nothing |
| GpuRuns.RejectedOutcome | tools/chroma-studio/studio.py:222-268 | any exception before the job is registered, also in the recovery, gives the slot back and leaves file and recovery as they are |
| GpuRuns.RecoveryFirst | tools/chroma-studio/studio.py:232-233 | in every run no job is admitted while a recovery is pending |
| GpuRuns.JobOutcome | tools/chroma-studio/studio.py:270-315 | a started job ends with the manager idle and the slot free, whether it was refused, cleaned up at once or cleaned up late; only one whose cleanup stays uncertain leaves the manager blocked, with lease, marker and container |
| GpuRuns.JobCycle | tools/chroma-studio/studio.py:213-315 | after a request and its job the system is as before, but that no recovery is pending |
| GpuRuns.JobsEnd | tools/chroma-studio/studio.py:270-315 | from every reachable state a Studio with an orderly job gets by its own steps, without a crash, to no lease, no lock, no marker, no container and not blocked |
| GpuRuns.BlockedCause | tools/chroma-studio/studio.py:295-301 | a manager becomes blocked exactly when it gives up on confirming its cleanup |
| GpuRuns.CloseOutcome | tools/chroma-studio/studio.py:112-127 | shutdown of a blocked manager removes its containers, clears its marker and gives the slot back |
| GpuRuns.ProbeOutcome | tools/chroma-studio/studio.py:151-169 | a probe of an unlocked file recovers what its instance left if that is pending and the marker is no other's, else it changes nothing |
| GpuRuns.AbandonedOutcome | tools/chroma-studio/studio.py:151-169 | a probe whose recovery fails gives the lock back and the recovery stays pending |
| GpuRuns.MediaOutcome | workers/media-worker/media_runtime.py:182-233 | a media worker on a free slot renders and leaves everything as it was; on a marked file it releases at once |
| GpuRuns.Alternation | tools/chroma-studio/studio.py:213-315 | from the start, a job, a media render and another job follow each other without a crash |
| GpuRuns.SyncFailureSticks | tools/chroma-studio/studio.py:253-265 | a marker that was written and could not be synced stays, with no recovery pending |
| GpuRuns.StuckUntilRestart | tools/chroma-studio/studio.py:134-140 | such a marker stays over every run in which no process of its instance is started, and nobody renders |
| GpuSafety.MarkerExact | tools/chroma-studio/studio.py:129-137 | the bounded read equals the marker exactly when the whole file does |
| GpuSafety.InvPreserved | tools/chroma-studio/studio.py:142-149 | every action of Studios, media workers, crashes and operators keeps the invariant linking lock owner, file, containers and manager fields |
| GpuSafety.CreateLocal | tools/chroma-studio/studio.py:222-268 | every step of a create request, its except branch included, keeps it |
| GpuSafety.RunTailLocal | tools/chroma-studio/studio.py:291-315 | so does every step of the end of a job, with or without confirmed cleanup |
| GpuSafety.ProbeLocal | tools/chroma-studio/studio.py:151-169 | so does every step of the readiness probe and its recovery |
| GpuSafety.CloseLocal | tools/chroma-studio/studio.py:112-127 | so does every step of shutdown |
| GpuSafety.MediaLocal | workers/media-worker/media_runtime.py:182-243 | so does every step of the media worker's slot, its release under a live renderer included |
| JobHistory.InvPreserved | tools/chroma-studio/studio.py:171-181 | loading, creating, updating, finishing, closing and crashing keep the relation between memory, disk and service lock |
| JobHistory.LoadedJobsAreTerminal | tools/chroma-studio/studio.py:94-106 | every job a process has loaded is terminal until it admits one itself |
| JobMemory.MemoryOrigin | tools/chroma-studio/studio.py:94-106 | in every run each job a process holds was admitted by it, or read by it at one step: held as it was stored then if that was final, else as failed and stored so |
| JobMemory.LoadedIsStored | tools/chroma-studio/studio.py:94-106 | while history is orderly, what a process has read is what is stored, as long as it lives |
| JobMemory.ShownAsStored | tools/chroma-studio/studio.py:101-104 | a status that is final when a process starts is the one that process shows, in every orderly run |
| JobMemory.RestartRun | tools/chroma-studio/studio.py:94-106 | a restart that can read and store every record holds exactly what is then stored: final statuses as they were, all others failed, in whatever order it reads |
| JobMemory.JobLife | tools/chroma-studio/studio.py:213-315 | a job that is admitted, progresses and ends is held with its final status, and stored as far as its records could be saved |
| JobMemory.FailedRequest | tools/chroma-studio/studio.py:254-265 | a request whose thread does not start leaves at most a queued record, which the next start declares failed |
| JobMemory.ServiceFreed | tools/chroma-studio/studio.py:112-127 | shutdown and crash let the next process start, and touch nothing else |
| JobHistory.OrderlyHistory | tools/chroma-studio/studio.py:270-315 | while every shutdown outlasts its job thread, no record is lost, statuses never move backwards and a terminal record never changes, across crashes and restarts |
| JobHistory.HistoryFate | tools/chroma-studio/studio.py:112-127 | otherwise a record can move backwards if and only if some process has dropped the service lock under a live job thread |
| JobHistory.TimedOutCloseLingers | tools/chroma-studio/studio.py:112-127 | one request and a shutdown that times out reach that state |
| Utf8.ValidSplit | scripts/export_source.py:389-392 | cutting valid UTF-8 at a character start leaves two valid texts |
| Utf8.NearbyBoundary | scripts/export_source.py:389-392 | a character starts at most three octets before any position |
| ExportPaths.SafePathExact | scripts/export_source.py:158-171 | the conditions of the path rule, one by one on the parts of a POSIX path, accept exactly the nonempty components other than dots, of ordinary characters |
| ExportPaths.IsSafePath | scripts/export_source.py:158-171 | the checks in their order decide that |
| ExportPaths.SafeDescent | scripts/export_source.py:158-171 | following an accepted path leads one level down with each component and never up |
| ExportPaths.IsSafeVersion | scripts/export_source.py:174-177 | the version rule: a label of at most 64 characters that starts alphanumeric and has no two dots in a row |
| Utf8.ValidExact | scripts/export_source.py:323-326 | strict decoding accepts exactly the encodings, after section 3 of RFC 3629, of sequences of Unicode scalar values |
| ExportFormat.PartNamesDiffer | scripts/export_source.py:467-471 | parts of one export have different names |
| ExportFormat.HeaderFits | scripts/export_source.py:381-385 | the reserved header is at least as long as the header of any part |
| ExportSplit.SplitSnapshot | scripts/export_source.py:381-402 | the loop of the source, with its backing up and its search for line ends, cuts where the specification says |
| ExportSplit.CutProgress | scripts/export_source.py:389-396 | with a budget of at least four every cut of valid text progresses, falls on a character start, and is long unless it is the last |
| ExportSplit.SplitCorrect | scripts/export_source.py:381-402 | on valid text splitting fails only for a limit too small for the header or for too many parts; else the pieces are nonempty valid UTF-8 that make up the data at cumulative offsets, fit their limit with their header, and number at most ceil(len / min(budget-3, budget/2+1)) |
| ExportFraming.ReadParts | scripts/export_source.py:541-568 | all parts are read exactly when one sequence of payloads explains every part file, in order and within the limits |
| ExportFraming.ScanExact | scripts/export_source.py:583-601 | scanning frames from the start finds exactly what is acceptable frame by frame through to the end |
| ExportFraming.ParseExact | scripts/export_source.py:576-602 | the frames are parsed into payloads exactly if printing these files and payloads gives the snapshot, whatever the payloads contain |
| ExportFraming.ParseFrames | scripts/export_source.py:576-602 | the same of the loop |
| ExportCodec.LayoutOfOk | scripts/export_source.py:543-549 | part names are safe, plain sibling names, different for different parts |
| ExportCodec.CheckFiles | scripts/export_source.py:526-539 | the loop with its growing set accepts exactly the lists whose paths are pairwise neither equal nor directories of each other, case-folded, and each admissible |
| ExportCodec.VerifyExport | scripts/export_source.py:511-602 | verification accepts exactly the faithful exports and returns the snapshot and payloads they were printed from, without any assumption about the digest |
| ExportCreate.CollectInventory | scripts/export_source.py:307-352 | an inventory comes out exactly of a selectable list of candidates, holds its kept files in order with path, origin, mode and octets, and is admissible |
| ExportCreate.WriteParts | scripts/export_source.py:461-483 | every piece is written once, under its own name, with its header |
| ExportRoundTrip.LimitSuffices | scripts/export_source.py:384-387 | a part limit of at least 1024 always leaves room after the header |
| ExportRoundTrip.SnapshotBytes | scripts/export_source.py:357-367 | the snapshot is the framed printing of the files, refused beyond the total limit |
| ExportUnique.SnapshotTells | scripts/export_source.py:357-367 | one snapshot is printed from one version, inventory and list of payloads only: without any digest, two different exports never frame to the same octets, whatever the payloads contain |
| ExportRoundTrip.WrittenExports | scripts/export_source.py:461-504 | the parts and manifest that are written are a faithful export of the payloads unless the verifier's path rule refuses the files |
| ExportRoundTrip.CreateExport | scripts/export_source.py:446-508 | for every admissible inventory creation succeeds if and only if the export is creatable, and then verification returned exactly the original payloads; it fails in its own verification if and only if everything can be written and some path is a directory of another |
| ExportRoundTrip.ShadowExample | scripts/export_source.py:309-312 | distinct case-folded paths do not exclude that: the inventory of `A.py` and `a.py/a.py` is collected and admissible, and for every version and limit everything can be written and verification refuses it |
| ExportRoundTrip.ShadowTools | scripts/export_source.py:236-259 | what that example assumes of the screens and of sizes can be met |
| ExportTree.Tree.WriteRelative | scripts/export_source.py:412-434 | a file is created exactly if its place is vacant and no directory above it is a file; then only it and those directories are new |
| ExportTree.KeysClash | scripts/export_source.py:530-535 | paths that collide on a file system that folds no more than case folding have clashing folded paths |
| ExportTree.AcceptedInAnyOrder | scripts/export_source.py:527-539 | a rearranged list of acceptable files is acceptable |
| ExportTree.AnyOrder | scripts/export_source.py:605-610 | and extracting it leaves the same files and directories |
| ExportTree.WriteAll | scripts/export_source.py:605-610 | separate places are all written, and the tree holds exactly them and the directories above |
| ExportTree.ExtractExport | scripts/export_source.py:605-610 | whatever verification accepts is extracted into a new tree without a collision, completely and with nothing else |
| ReviewWorld.StampHolds | workers/code-review-worker/code_review_worker.py:456-466 | an identity seen again means the node did not change in between |
| ReviewWorld.SortCanonical | workers/code-review-worker/code_review_worker.py:518-519 | sorted names do not depend on the order of enumeration |
| ReviewTree.ReadNames | workers/code-review-worker/code_review_worker.py:507-519 | names are counted against the entries already listed, with the deadline looked at before each |
| ReviewTree.Handles.Close | workers/code-review-worker/code_review_worker.py:588-590 | a descriptor is closed at most once and is then no longer held |
| ReviewTree.WalkStack | workers/code-review-worker/code_review_worker.py:563-619 | the loop over explicit frames finds what the recursive walk finds, and fails as it fails |
| ReviewTree.GoChild | workers/code-review-worker/code_review_worker.py:592-619 | pushing a frame for a directory preserves what the stack stands for, and the walk comes closer to its end |
| ReviewTree.TreeManifest | workers/code-review-worker/code_review_worker.py:479-633 | the manifest is what the recursive walk lists; it has at most 250,000 lines, at most 65 descriptors are held, and on every exit each descriptor opened has been closed exactly once |
| ReviewSweep.Stays | workers/code-review-worker/code_review_worker.py:566-580 | a directory that was left still had its identity, and then still its name in its parent, after everything below it was seen |
| ReviewSweep.Lists | workers/code-review-worker/code_review_worker.py:563-619 | what is seen below a directory is its sorted preorder listing in every world that agrees with what was seen |
| ReviewCollect.WalkLists | workers/code-review-worker/code_review_worker.py:479-633 | the same of a whole manifest, with top-level names skipped |
| ReviewCollect.WalkEntering | workers/code-review-worker/code_review_worker.py:592-619 | metadata, opening, identity check and enumeration of a name tell what the directory holds, if it stays as it is |
| ReviewCollect.DoubleCollect | workers/code-review-worker/code_review_worker.py:1180-1192 | equal manifests are the listing of the repository at every single instant between them, although neither sweep is atomic and others edit throughout |
| ReviewCollect.RootStays | workers/code-review-worker/code_review_worker.py:619-626 | a successful walk ends with the root still what it was, through its descriptor and under its name |
| ReviewSnapshot.StillSources | workers/code-review-worker/code_review_worker.py:1152-1192 | the assumptions about system calls can be met, with two equal source manifests |
| ReviewStill.StillListing | workers/code-review-worker/code_review_worker.py:479-633 | in a repository that stays as it is the walk succeeds if and only if depth and number of entries are within the limits, the skipped names at the top included, and then finds the listing; else the error is the limit that is exceeded |
| ReviewStill.StillCapture | workers/code-review-worker/code_review_worker.py:699-798 | there a copy gives the file at its path with content and mode if it is regular, singly linked and within the limits, else the error for what it is, and takes from the budget what it gives |
| ReviewStill.CallsAnswer | workers/code-review-worker/code_review_worker.py:479-633 | for every such repository there are calls that answer so |
| ReviewCapture.OperationBudget.Consume | workers/code-review-worker/code_review_worker.py:133-139 | the cumulative budget only shrinks, by what was read, and never below zero |
| ReviewCapture.ReadContent | workers/code-review-worker/code_review_worker.py:766-777 | the reading loop and the mutable budget follow the functional specification |
| ReviewCapture.ReadContainedRegularFile | workers/code-review-worker/code_review_worker.py:699-798 | so does the whole copy, with its checks in their order |
| ReviewSnapshot.ReadWhole | workers/code-review-worker/code_review_worker.py:766-777 | of a file that stays as it is exactly its content is read, however the reads are cut |
| ReviewSnapshot.OneInstant | workers/code-review-worker/code_review_worker.py:1404-1453 | there are instants between two equal source manifests, and at every one of them at once the manifest was the listing of the Git directory and of the worktree, and every file copied from either in between had the copied content and mode and no other link, or was missing if it was found missing |
| ReviewSnapshot.ConsistentSnapshot | workers/code-review-worker/code_review_worker.py:699-798 | the same of one copy between two equal manifests of one tree, at any instant between them |
| ReviewSnapshot.SourcesCollected | workers/code-review-worker/code_review_worker.py:1152-1178 | equal namespaced manifests, with or without the worktree, mean equal manifests of each tree, each around everything in between |
| SocketSafety.InvPreserved | server/app/main.py:978-1129 | every step of endpoints and deliveries in any number of processes, crashes, candidates and cutovers keep the invariant |
| SocketTheorems.SendGoesToOwner | server/app/main.py:1084-1110 | every event goes to the durable owner, which is the connection activated last and of the current session, under the device lock |
| SocketTheorems.SupersededForever | server/app/main.py:995-1079 | once another connection of the device was activated, in any process, nothing is ever sent on an earlier one again |
| SocketTheorems.RegistryFate | server/app/main.py:3138-3170 | a registry entry disappears or is replaced only by its own tasks, by a connection activated later, or by a crash: cleanup of a stale connection never evicts a newer one |
| SocketTheorems.OwnerFate | server/app/services/auth_service.py:528-545 | the durable owner changes only by a later activation, a cutover, or a clear by its own tasks, and only under the lock |
| SocketTheorems.NewestInstalls | server/app/main.py:990-1009 | only the newest attempt of a process gets past the pending check |
| SocketRuns.InstallOutcome | server/app/main.py:995-1079 | a connection attempt that finds the lock free: an outdated one ends; the newest of the current session becomes owner and is registered, unless greeting it fails or the reply of the database is lost; every end state is given exactly |
| SocketRuns.ConnectRun | server/app/main.py:990-1079 | with a ticket of the current session and no waiting candidate a connection is always installed, whoever was connected |
| SocketRuns.DeliveryOutcome | server/app/main.py:1084-1129 | a delivery that finds the lock free sends if its connection is registered and owner, and then changes nothing if sending works; a registered one that is not owner or fails is dropped; one no longer registered is left alone |
| SocketRuns.DeliveryRun | server/app/main.py:1084-1129 | an event for a registered owner is sent, and the state is the same before and after |
| SocketRuns.MessageOutcome | server/app/main.py:3135-3156 | a message on the owner's connection changes nothing, on any other it takes out that connection alone |
| SocketRuns.BreakOutcome | server/app/main.py:3157-3172 | a peer that goes away is taken out, and nobody else |
| SocketRuns.ErrorOutcome | server/app/main.py:1116-1128 | so is a connection whose delivery meets an error of the lock or database, wherever it is, and the lock is given up |
| SocketRuns.EntryGone | server/app/main.py:995-1128 | an entry leaves the registry by a move exactly for one of five reasons, all of its own tasks: greeting undone, leaving, not current, send failed, error |
| SocketRuns.OwnerCause | server/app/services/auth_service.py:469-545 | the durable owner after any move is the activated connection, none after a clear by its own task, else as before |
| SocketRuns.CrashRecovers | server/app/main.py:995-1079 | after a crash of the process that has the lock its tasks and entries are gone, the others as before, and connections are installed |
| SocketRuns.CutoverFences | server/app/services/auth_service.py:498-524 | after a credential cutover nothing is ever sent on a connection attempted before it |
| SocketRuns.CandidateFences | server/app/services/auth_service.py:469-524 | while another credential waits no connection counts as current and none is activated |
| SocketRuns.FirstEvent | server/app/main.py:990-1129 | from the start, a connection is installed and an event sent on it |
| SocketSafety.StepLocal | server/app/services/auth_service.py:469-498 | owner and activation history change together, only under the lock and only for a current session |
| PhonemeChunks.PhonemeChunks | workers/media-worker/media_contract.py:134-166 | the work stack computes the in-order leaves of the recursive bisection with at most 2n-1 calls; segments are nonempty, spell the source, carry their own phonemes within the limit, and the joined-segments check cannot fail |
| PhonemeChunks.SplitClosest | workers/media-worker/media_contract.py:156-161 | the split point is the first of the run ends closest to the middle if there is any inside, else the middle, and nothing else is |
| PhonemeChunks.RunEndExact | workers/media-worker/media_contract.py:155 | the run ends are the ends of the matches of the pattern inside the segment |
| PhonemeChunks.LeavesGood | workers/media-worker/media_contract.py:142-162 | the leaves spell the segment and each of them fits |
| PhonemeChunks.LeavesCulprit | workers/media-worker/media_contract.py:145-155 | a failed split has a nonempty part of the source that no phonemes, too many of them, or silence for letters condemn |
| ContextProjection.Project | scripts/evaluate_personal_context.py:126-180 | the method with its loops returns the protected state alone if that exceeds the budget, else the payload of the greedy selection |
| ContextProjection.MaskObservations | scripts/evaluate_personal_context.py:138-143 | every tool message but the last one is masked |
| ContextProjection.OwnExact | scripts/evaluate_personal_context.py:129 | the project's own messages are kept, all of them and in their order |
| ContextProjection.MessagesInFront | scripts/evaluate_personal_context.py:165-173 | the payload with messages is the protected one with one more member in front |
| ContextProjection.SelectMessages | scripts/evaluate_personal_context.py:158-172 | the loop over reversed messages keeps the greedy selection |
| ContextProjection.KeptAscends | scripts/evaluate_personal_context.py:158-169 | the selection is an order-preserving subsequence |
| ContextProjection.RecentWindow | scripts/evaluate_personal_context.py:166-172 | in current_reduction it is the longest run of last messages that fits |
| ContextProjection.NoRoomLeft | scripts/evaluate_personal_context.py:158-169 | in the other modes, adding any omitted message in its place exceeds the budget |
| ContextProjection.PlaceOf | scripts/evaluate_personal_context.py:158-169 | every omitted message has such a place |
| ContextProjection.WithinBudget | scripts/evaluate_personal_context.py:147-180 | what is dispatched exceeds the budget if and only if the protected state fits and the payload with an empty message list does not; it then holds no message and is at most four tokens over |
| ContextProjection.EmptyListExceeds | scripts/evaluate_personal_context.py:131-176 | no messages, a one-letter objective and a budget of ten dispatch fourteen tokens |
| ImportVisitor.SourceImports.Visit | workers/project-worker/check_harness.py:318-391 | the visitor with its mutable guard depth records exactly the walk of the inherited-guard specification and restores its depth |
| ImportVisitor.SourceImports.VisitTry | workers/project-worker/check_harness.py:365-391 | the same of a try statement with handlers, else and finally |
| ImportVisitor.EachOnce | workers/project-worker/check_harness.py:328-345 | each absolute import of any tree is recorded exactly once, in source order, and no relative one |
| ImportVisitor.EnvExact | workers/project-worker/check_harness.py:331-345 | a walk binds exactly the names its tree binds to `typing` and to its constant, whatever guards there are |
| ImportVisitor.RequiredOutsideGuards | workers/project-worker/check_harness.py:347-391 | the required imports are exactly the absolute imports of the tree with every guarded region cut out: typing-only bodies, try bodies with an import-error handler, handlers, try-else |
| ImportVisitor.GuardCovers | workers/project-worker/check_harness.py:347-363 | below a guard everything is optional, and which names are bound does not depend on guards |
| SymbolicTransport.BoundSymbolicTransport | workers/file-worker/agent_capsule.py:375-398 | an accepted payload is returned unchanged if it fits, else without its evidence if that fits, with its canonical text; it is refused exactly if even that form is too large |
| SymbolicTransport.CanonicalText | workers/file-worker/agent_capsule.py:379-387 | that text does not depend on the order of an object's members |
| SymbolicTransport.EncodingSize | workers/file-worker/agent_capsule.py:379-387 | its octets are counted member by member, whatever their order |
| CanonicalReading.TextExact | workers/file-worker/agent_capsule.py:379-387 | two values have the same canonical text if and only if they differ at most in the order of members, at every depth |
| CanonicalReading.Reads | workers/file-worker/agent_capsule.py:379-387 | where the text of a value ends can be told from what may follow |
| SymbolicTransport.StrippedAccepted | workers/file-worker/agent_capsule.py:401-422 | the form without evidence is accepted again with the same operation arguments and binding |
| SymbolicTransport.StrippedShorter | workers/file-worker/agent_capsule.py:390-396 | and it is shorter |
| SymbolicTransport.FreeContextOk | workers/file-worker/agent_capsule.py:292-315 | an acceptable context stays acceptable without its evidence |
| SymbolicTransport.CheckJson | workers/file-worker/agent_capsule.py:84-100 | one shared counter with early stops accepts exactly the values at most eight deep, with at most 512 values in all and acceptable leaves |
| LogSplitter.ReadLogs | tools/chroma-studio/runner.py:217-238 | however the stream is read, the delivered lines match its batch split in number, each is whole or the last 4096 or more octets of a line over 65536, and the buffer stays bounded |
| LogSplitter.TakeLines | tools/chroma-studio/runner.py:230-234 | taking lines at the first of the two line ends is the octet-by-octet split |
| LogSplitter.ShortLinesExact | tools/chroma-studio/runner.py:237-238 | without overlong lines the delivered lines are the batch split |
| LogSplitter.FeedSplits | tools/chroma-studio/runner.py:231-234 | the batch split loses and moves no octet: putting the line ends back spells the stream |
| JsonPointer.DecodeEscape | scripts/validate_openapi.py:316 | two successive replacements undo the escaping of section 3 of RFC 6901 |
| JsonPointer.OrderMatters | scripts/validate_openapi.py:316 | in the other order they would not |
| JsonPointer.ResolveLocalReference | scripts/validate_openapi.py:311-320 | the loop returns the value at the decoded path, or the error the source raises |
| JsonPointer.WalkExact | scripts/validate_openapi.py:315-319 | a value is at a path exactly if a chain of members leads to it |
| JsonPointer.ResolvePointer | scripts/validate_openapi.py:311-320 | resolving the pointer printed for any nonempty path (section 4 of RFC 6901) finds the value at that path, or reports that there is none |

## Left out

- GPU slot, job history and WebSocket ownership are transition systems over values, not
  classes with methods: their point is what other tasks and processes do between the
  statements of a method, which a method contract cannot express. Aliasing of the
  manager's dictionaries is not captured.
- The Git commands, the exclusion list and the reading of files under `source_inventory`
  are inputs of `CollectInventory`; `read_regular` is not modelled.
- ExportCodec.VerifyExport: the manifest is a record; malformed JSON and missing keys are
  refused before it.
- ReviewTree.TreeManifest: paths are sequences of names instead of joined strings, and an
  error of the operating system while scanning is reported at the start of the scan.
- ReviewSnapshot.OneInstant: covers the selected files and the index; the Git
  commands that run between the manifests, and the private copies written afterwards, are
  not part of this model. Descriptors of single file copies are not counted.
- ImportVisitor.EachOnce: nodes other than imports, conditionals, try statements, handlers,
  names, attributes and tuples are one kind with children in order; rebinding of names is
  not followed by the source either.
- PhonemeChunks.PhonemeChunks: characters are Unicode scalar values.
- JobManager.status, get, cancel responses, receipts and progress parsing: single-branch
  code around the modelled steps.
- `dependency_preflight` beyond the visitor, its trimming loop, and the tail buffer of
  `node_test`: easy members.
- `LeaseProof`, `LeaseHeartbeat` and the media worker's `run_once` beyond its use of the
  slot: outcomes of an HTTP interface that is not part of this repository's logic.
- HTTP clients, TLS, browsers, models, settings validation, mobile screens.
