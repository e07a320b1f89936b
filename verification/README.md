# Verification of the agent's state layer

The agent of btrfs-nfs-csi keeps volumes and snapshots as directories with a btrfs subvolume and a
JSON metadata file each, caches the metadata in memory, and exports volumes over NFS. This project
models the concurrent parts of that agent and the two protocols built on it, and proves them in
Dafny 4.11. Run `dafny verify dfyconfig.toml`.

Concurrency is modelled as a step relation: a state holds the shared memory and, for every
goroutine, where it is; `Enabled` and `Next` give the atomic steps; `Exec` runs any interleaving.
Theorems speak of every run. Disk, btrfs, exportfs, clocks, random identifiers and server answers
are parameters of the steps, and every operation on them may fail. Code that changes state in place
and does not need interleaving is a class or a method with loops, proved against a function on
values or against the steps of the machine.

| file | part of the program |
|---|---|
| `LockPool.dfy` | the ref-counted lock per metadata path |
| `MetaStore.dfy`, `StoreCode.dfy` | read-modify-write on the metadata store: all interleavings, and the code of one call |
| `Creators.dfy`, `CreatorCode.dfy` | creators, deletes, readers and crashes around one name: all interleavings, and the code of one call |
| `TaskManager.dfy`, `TaskEndings.dfy`, `TaskRestarts.dfy` | background tasks: worker, compare-and-swap updates, clean-up; which ending a task gets; and whether a finished task survives a restart |
| `ClientPages.dfy` | following a listing: sequential loop and prefetch pipeline |
| `PageServer.dfy` | serving a listing from isolated snapshots: the handler's code, and the steps of requests and timers interleaved |
| `PageListing.dfy`, `PageExpiry.dfy` | client and server together: following the cursors, and what happens when the snapshot expires |
| `VolumeExports.dfy` | export references of a volume, publish and unpublish |
| `Reconciler.dfy`, `ExportTable.dfy` | the periodic repair of exports, and reading the kernel's table |
| `VolumeMetadata.dfy`, `UserLabels.dfy` | updates, usage passes, protected labels, a claim's user labels |
| `Collections.dfy`, `Strings.dfy`, `SortedStrings.dfy`, `LabelFilters.dfy` | shared vocabulary, and the label filters |

## What the code does not keep

Some properties one would expect are false of the code. Each is modelled as it is, with a
counterexample or the exact condition.

- A lock-free `Get` that misses the cache stores what it read from disk without the lock
  (agent/storage/meta/store.go:100-106), so a finished update can vanish from the cache:
  `LostUpdateOnUncachedPath`. Linearizability of `Update` is therefore about paths that are cached.
- When the caller's context ends, the producer may leave the prefetch pipeline without sending
  (agent/api/v1/client/client.go:563-567), and paginate returns success (client.go:592): with any
  server, callback and byte budget it may then have delivered nothing (`CancelTruncatesSilently`).
  Reported success means a complete listing in every run if and only if the caller's context cannot
  end (`SuccessIsCompleteIff`). Also, after a failed request the pipeline returns the last total it
  saw and the sequential loop returns 0 (client.go:578 against 602).
- When a snapshot has expired, a later cursor is answered like a first request
  (agent/api/v1/handler.go:121-147), so the client starts again at the first live item and gets items
  twice: `ExpiryRestarts`. On a list that does not change, it gets every item exactly once if and only
  if each of its requests finds the snapshot: `ExactlyOnceIff`.
- Removing an export filters into the array of the cached list (agent/storage/export.go:82). When
  the metadata write then fails, the cached list is damaged exactly if a removed reference stands
  before a kept one: `FailedRemovalKeepsCacheIff`.
- A usage pass whose bulk query failed says it skips usage updates, but stores usage 0 for a volume
  whose owner or mode drifted (agent/storage/usage.go:83-97): `UsageIsLostIff`.
- `UpdateVolume` checks "nocow and compression are mutually exclusive" against the volume before the
  request (agent/storage/volume.go:223-225): `NoCowMayMeetCompression` says which requests break it.
- Switching compression off with `UpdateVolume` reaches the metadata and not the subvolume
  (agent/storage/volume.go:268-273): an accepted update keeps the two in agreement exactly unless it does
  that (`UpdateAgreesIff`).
- A reference whose volume directory is missing makes the reconciler export and unexport on
  alternate passes (agent/storage/reconciler.go:57-89): `MissingDirectoryFlaps`.
- A poller that is still in its callback after the task function returned can change the progress of
  a completed task (agent/storage/task/model.go:96-110). It stays 100 in every run if and only if no
  updater with another progress is in flight and none begins: `CompletedShowsHundredIff`.
- A finished task may come back as failed. SetProgress can swap its progress in while the task runs and
  persist it only after the worker stored and persisted the final record
  (agent/storage/task/model.go:104-106, agent/storage/task/manager.go:137-138); the file then says
  `running`, and the next restart lists a completed task as failed (manager.go:292-297):
  `CompletedComesBackFailed` is such a run. A finished task keeps status, error and times through
  every run and every restart if and only if its file, when there is one, shows the end and no updater
  has yet to persist a record from before the end: `TerminalSurvivesIff`, and for the file alone
  `FileIsFinalIff`.
- `UpdateVolume` checks a request against a value it read before the lock (agent/storage/volume.go:202-230),
  so two overlapping calls can shrink a volume: `OverlappingUpdatesShrink`. A commit takes size, nocow or a
  protected label back exactly when its request would not pass the checks any more:
  `CommitGrowsIff`.

## Model

| member | source | states |
|---|---|---|
| Collections.FilterInPlace | agent/api/v1/labels.go:9-17 | the loop over `items[:0]` leaves the order-preserving filter of the old cells in front and every later cell as it was |
| LockPool.Locks.PathLockShared | agent/storage/meta/store.go:205-216 | on heap objects: a known path yields its own mutex, an unknown one a fresh unlocked mutex entered in the map; its count goes up by one and nothing else changes |
| LockPool.Locks.Drain | agent/storage/meta/store.go:231-249 | takes the token of that mutex only |
| LockPool.Locks.Refill | agent/storage/meta/store.go:222-227 | gives the token back to that mutex only |
| LockPool.Locks.DropRef | agent/storage/meta/store.go:253-260 | the count goes down by one and the path leaves the map exactly when it reaches zero |
| LockPool.LockPoolSafe | agent/storage/meta/store.go:189-260 | after any interleaving of lock, cancelled lock and release on any paths: users of a path share the mutex in the map, its count is its users, tokens plus holders is 1, at most one holder, and the map is empty once all callers are done |
| LockPool.StepKeepsInv | agent/storage/meta/store.go:205-260 | every single step keeps that invariant, distinct paths having distinct mutexes |
| LockPool.MutualExclusion | agent/storage/meta/store.go:229-249 | two holders of one path are the same goroutine |
| LockPool.RefillNeverBlocks | agent/storage/meta/store.go:218-227 | a holder's send in the release closure always finds room |
| LockPool.DroppedOnlyWhenUnused | agent/storage/meta/store.go:251-260 | the map entry goes if and only if the leaving goroutine was the last user |
| LockPool.PoolIsNeverStuck | agent/storage/meta/store.go:229-260 | while anybody is inside, some step other than a new call or a cancel is possible |
| LockPool.StepsUseUpWork | agent/storage/meta/store.go:229-260 | every step but a new call uses up work, so all goroutines inside get out |
| MetaStore.UpdateLinearizable | agent/storage/meta/store.go:137-155 | any number of concurrent updates with any write failures on a cached path: the file always holds the successful callbacks applied in lock order, the cache equals it whenever no call is between rename and cache write, and a call succeeded exactly when it was written, returning the value up to itself |
| MetaStore.RealTimeOrder | agent/storage/meta/store.go:137-155 | the lock order respects real time: a call that finished before another on the path began stands before it in the history |
| MetaStore.StepKeepsKey | agent/storage/meta/store.go:95-155 | every step, of this or another path or of a lock-free reader, keeps the invariant of a cached path |
| MetaStore.RenameCommits | agent/storage/meta/store.go:270-287 | the rename is the commit point: it moves the file to the callback's value and marks the newest acquisition of the path done |
| MetaStore.SoleHolder | agent/storage/meta/store.go:137-155 | two calls inside the critical section of one path are the same call |
| MetaStore.LostUpdateOnUncachedPath | agent/storage/meta/store.go:93-108 | on a path that only the disk has, some run ends with a successful update that the cache does not show |
| StoreCode.MetadataStore.Get | agent/storage/meta/store.go:95-108 | the cached record or else the one on disk, which is then cached |
| StoreCode.MetadataStore.WriteJsonAtomic | agent/storage/meta/store.go:270-287 | all or nothing for the metadata file; a failed write may leave a torn temporary file, a failed rename leaves none |
| StoreCode.MetadataStore.Store | agent/storage/meta/store.go:111-118 | file and cache change together or not at all |
| StoreCode.MetadataStore.Update | agent/storage/meta/store.go:139-155 | success returns the callback of the found record and leaves it in file and cache, failure leaves the file; the body takes exactly the steps the interleaving machine interleaves |
| StoreCode.MetadataStore.Delete | agent/storage/meta/store.go:158-161 | the record leaves the cache, the file stays |
| Creators.CrashAtomic | agent/storage/storage.go:129-175 | stop after any step of any run of creators, deletes, readers and earlier crashes: loadCache has the name exactly when the last commit was not followed by a deletion of its data, and then with the winner's record |
| Creators.OneCreatorWins | agent/storage/volume.go:64-156 | at most one of any number of creators of one name reports success, the disk holds its record on a subvolume prepared exactly as it asked (nocow, compression, limit), every ALREADY_EXISTS carries that record, and every call that got the lock after the commit reports ALREADY_EXISTS |
| Creators.CleanupSparesTheWinner | agent/storage/volume.go:85-92 | no step of any creator, failing or not, changes the directory, subvolume or metadata of a committed object |
| Creators.CommittedObjectStays | agent/storage/volume.go:85-102 | so in every run without deletes, crashes and restarts included, what was committed stays on disk unchanged and loadable |
| Creators.ExportedVolumeStays | agent/storage/volume.go:436-450 | no run of deletes, creators, readers and crashes touches directory, subvolume or metadata of a volume whose record lists exports |
| Creators.SomeCreatorMoves | agent/storage/volume.go:64-72 | no deadlock: while a creator is active some creator can move forward |
| Creators.BusyIffGaveUp | agent/storage/volume.go:67-71 | until the agent stops, a creator reports BUSY if and only if its context ended while it was queued |
| Creators.OthersAreOutside | agent/storage/meta/store.go:120-135 | while one creator works every other is queued or returning |
| Creators.StepKeepsInvariant | agent/storage/volume.go:64-156 | every step of creators, deletes, readers and crashes keeps the invariant behind these theorems |
| CreatorCode.Host.CreateVolume | agent/storage/volume.go:64-156 | the code's every effect is a step of the machine; a success is committed and cached on a subvolume prepared exactly as asked, ALREADY_EXISTS carries what was found, a stale subvolume is left alone, and a failure leaves no metadata and nothing cached |
| CreatorCode.Host.PrepareVolume | agent/storage/volume.go:108-130 | the attributes and the limit are set on the subvolume in the machine's order, and the first failure leads to cleanup |
| CreatorCode.CreatedIsPrepared | agent/storage/volume.go:108-123 | after every sequence of a creator's operations that ends in success the preparations are exactly those the request and the quota setting call for: nocow and compression for a new volume that asks, the limit where quotas are on, but for snapshots and clones of a snapshot without one |
| CreatorCode.FailedIff | agent/storage/volume.go:78-150 | a creator fails if and only if one of its operations failed |
| CreatorCode.CleanupIsTried | agent/storage/volume.go:85-106 | a creator that fails after it made the subvolume has tried to delete it and to remove the directory; a clone of a volume also when the making failed |
| CreatorCode.Host.CloneVolume | agent/storage/volume.go:372-421 | the same outcomes for a clone, whose failed snapshot is followed by the full cleanup |
| CreatorCode.Host.CreateClone | agent/storage/clone.go:57-123 | the same outcomes for a clone of a snapshot, with a limit only for a positive quota |
| CreatorCode.Host.CreateSnapshot | agent/storage/snapshot.go:37-94 | the same outcomes for a snapshot |
| CreatorCode.Host.Get | agent/storage/volume.go:74-76 | the lookup under the lock, with its disk fallback, is the machine's |
| CreatorCode.Host.StoreMeta | agent/storage/meta/store.go:111-118 | committing or failing without a trace |
| CreatorCode.Host.Cleanup | agent/storage/volume.go:85-92 | however far it gets, cleanup never makes metadata appear |
| CreatorCode.Remover.DeleteVolume | agent/storage/volume.go:424-463 | refused if and only if the record found, cached or else on disk, lists exports, and then nothing on disk changes; not found if and only if there is none; unchanged when the subvolume stays; once the data is gone nothing of the name can be loaded again |
| CreatorCode.Remover.DeleteSnapshot | agent/storage/snapshot.go:131-158 | the same, asking only the cache |
| TaskManager.StatusMovesForward | agent/storage/task/manager.go:82-150 | status moves only pending to running to one terminal state, or pending to cancelled, whatever updaters, cancel and timeout do; which terminal state is `EndingIsJudged` |
| TaskManager.TerminalIsFinal | agent/storage/task/manager.go:121-138 | a terminal record keeps status, error and times |
| TaskManager.CompletesWithHundred | agent/storage/task/manager.go:133-138 | a task completes with progress 100 |
| TaskEndings.EndingIsJudged | agent/storage/task/manager.go:82-138 | in every run of a task its terminal record is the one its moves call for: cancelled with neither start nor function if it never got a slot; failed with the timeout if the deadline passed before the first look at the context; cancelled if the context ended before the second; else failed with the function's error if it returned one, and completed if not; the times are those of the start and of the return or of the end of waiting |
| TaskEndings.CompletedMeansSucceeded | agent/storage/task/manager.go:119-135 | a completed record means that the function returned without an error |
| TaskEndings.UndisturbedEnding | agent/storage/task/manager.go:124-136 | unless its context ends, a task that is over failed, with an error, exactly if its function did, and else completed without one |
| TaskEndings.EndedContextDecides | agent/storage/task/manager.go:124-129 | a deadline before the first look means failed with a timeout, a cancel before it means cancelled, whatever the function returned; only an ended context cancels |
| TaskEndings.TaskFollowsItsMoves | agent/storage/task/manager.go:53-150 | in every run of the manager without a restart each task is where its own moves take it, whatever the others do |
| TaskEndings.TasksEndAsJudged | agent/storage/task/manager.go:53-150 | so every task that such a run creates ends as its moves call for |
| TaskEndings.DroppedWasOld | agent/storage/task/manager.go:225-246 | clean-up drops a task only if a pass found it terminal and completed before its cutoff |
| TaskManager.CompletedShowsHundredIff | agent/storage/task/model.go:80-110 | a completed task shows 100 in every run from then on if and only if no updater that has not yet swapped carries another progress and none may begin |
| TaskManager.StaysAtHundred | agent/storage/task/model.go:95-110 | the forward half: over any run, from any completed state at 100 without such an updater |
| TaskManager.InFlightLands | agent/storage/task/model.go:95-110 | the failing half: each such updater, loading or swapping, up to date or stale, has a run in which it takes the record off 100 |
| TaskManager.LateUpdateMovesProgress | agent/storage/task/model.go:80-110 | from every completed state a SetProgress that begins late can show any other progress |
| TaskManager.UpdatesAreNotLost | agent/storage/task/model.go:95-125 | in every run the record of an unfinished task holds the last successful progress swap and the last successful result swap, and completion time and terminal status come together |
| TaskManager.MoveKeepsTask | agent/storage/task/manager.go:82-138 | every move of worker, updater or context keeps the task's invariant |
| TaskManager.UpdaterBurnsEffort | agent/storage/task/model.go:95-125 | every step of a retry loop decreases a measure: a failed swap is paid for by another's success |
| TaskManager.RetriesAreBounded | agent/storage/task/model.go:95-125 | a finite set of writers takes a bounded number of steps between two stores of the worker |
| TaskManager.ManagerSafe | agent/storage/task/manager.go:82-306 | in every run with clean-up passes and restarts: with k workers at most k tasks run, no unfinished task is dropped, and completion time is set exactly in terminal records in memory and on disk |
| TaskManager.StepKeepsTerminal | agent/storage/task/manager.go:189-246 | no step of any task, clean-up included, moves a task's status other than forward until the next restart |
| TaskManager.TerminalForEver | agent/storage/task/manager.go:82-246 | until the next restart a finished task keeps status, error and times, whatever cancels, late updaters, other tasks and clean-up do; restarts are in TerminalSurvivesIff |
| TaskRestarts.TerminalSurvivesIff | agent/storage/task/manager.go:137-306 | a finished task keeps status, error and times in every run, restarts, clean-up and failed writes included, if and only if its file, when there is one, shows the end and no updater has yet to persist a record from before it |
| TaskRestarts.FileIsFinalIff | agent/storage/task/manager.go:248-263 | the file of a finished task shows the end in every run from then on if and only if no updater has yet to persist a record from before the end |
| TaskRestarts.EndIsOnFileFirst | agent/storage/task/manager.go:137-138 | from any moment before the worker has persisted its end: unless one of its writes fails or an updater persists, a finished record has its status, error and times on file |
| TaskRestarts.CompletedComesBackFailed | agent/storage/task/model.go:95-110 | a run from an idle manager leaves a task completed in memory and on file with its worker gone; one late write and a restart later it is failed |
| TaskRestarts.CompletedWithUpdateInFlight | agent/storage/task/model.go:80-110 | a run from a new task ends completed at progress 100 with an updater of another progress in flight |
| TaskManager.RestartEndsTasks | agent/storage/task/manager.go:269-306 | after a restart the tasks are those with a file: the interrupted ones have failed, now and because of the restart, also on file unless that write failed, and every other record is what its file said |
| TaskManager.LoadFromDisk | agent/storage/task/manager.go:269-306 | every task with a readable file is listed as its last file has it, interrupted ones as failed, and exactly the interrupted records are handed to persist, in order |
| ClientPages.EndsOnce | agent/api/v1/client/client.go:595-620 | server and callback determine how many pages the loop delivers and how it ends |
| ClientPages.PaginateSequential | agent/api/v1/client/client.go:595-620 | the loop delivers the pages of the cursor chain in order, ends as specified, and returns their concatenation and the last total |
| ClientPages.PipelineRefinesLoop | agent/api/v1/client/client.go:536-593 | in every interleaving of producer, consumer and cancel the callback gets a prefix of the loop's pages, in order and once; uncancelled, the pipeline delivers all of them and ends as the loop does |
| ClientPages.PendingIsBounded | agent/api/v1/client/client.go:542-563 | the byte counter is the bytes fetched and not consumed, and stays below the budget plus the newest page |
| ClientPages.PipelineNeverStuck | agent/api/v1/client/client.go:550-591 | the one-slot wake-up is never lost: until both sides are finished one of them can step |
| ClientPages.StepsBurnFuel | agent/api/v1/client/client.go:546-592 | every step of either side uses up fuel |
| ClientPages.PipelineTerminates | agent/api/v1/client/client.go:536-593 | over a chain of n pages no interleaving takes more than 13 n + 6 steps |
| ClientPages.CancelTruncatesSilently | agent/api/v1/client/client.go:546-592 | for every server, callback, budget and channel some run cut short by a cancel reports success with nothing delivered, which the loop never does |
| ClientPages.SuccessIsCompleteIff | agent/api/v1/client/client.go:536-593 | reported success means the whole listing was delivered, in every run, if and only if the caller's context cannot end |
| ClientPages.StepKeepsInv | agent/api/v1/client/client.go:536-593 | every step keeps the invariants of fetched pages, channel, delivery and budget |
| PageServer.CursorRoundTrip | agent/api/v1/handler.go:36-55 | a cursor the server issues is read back as identifier and offset, and is not empty |
| LabelFilters.MatchLabels | agent/api/v1/labels.go:19-37 | true exactly when every filter is satisfied, presence or value |
| LabelFilters.FilterMeans | agent/api/v1/labels.go:23-35 | the filter "k=v" is met exactly by label sets with that value, the filter "k" exactly by those that have the label |
| PageServer.Handler.FilterByLabels | agent/api/v1/labels.go:9-17 | the items satisfying all filters, in order |
| PageServer.SelectMeans | agent/api/v1/labels.go:9-37 | a listing holds exactly the items that meet every filter, each as often as the live list does |
| PageServer.Handler.PaginatedList | agent/api/v1/handler.go:84-167 | answer and snapshot store are those of the specification `Respond`, on every branch and for every cursor, a forged one included; what they are is `PageSizeIsAsked` |
| PageServer.PageSizeIsAsked | agent/api/v1/handler.go:84-167 | for every request: the page size is the requested limit, the default for a negative one, none for zero; a cursor of this list's snapshot gets the stretch from its offset, of that size, and a cursor iff items are left; any other request gets the first page of a new snapshot iff there is more than one page and room for it, and else the whole list |
| PageServer.LimitIsKept | agent/api/v1/handler.go:86-89 | no page out of a snapshot is longer than a positive limit, one with a cursor is exactly that long, and a first request with limit zero gets the whole list |
| PageServer.PageIsCut | agent/api/v1/handler.go:149-166 | a page is the stretch of the snapshot from the offset, as long as limit and snapshot allow; it has a cursor exactly when items are left, and the cursor reads back as the snapshot and the first of them |
| PageServer.Handler.DeleteSnapshot | agent/api/v1/handler.go:77-81 | the snapshot goes, and the counter goes down only if it was there |
| PageServer.RequestIsItsSteps | agent/api/v1/handler.go:104-147 | an undisturbed request is its decision, the store of its own listing and the count, and leaves exactly the memory the handler's code leaves |
| PageServer.DeleteIsItsSteps | agent/api/v1/handler.go:77-81 | deleteSnapshot is the timer's take-out and, only if that found the snapshot, the count |
| PageListing.SchedulesEvolve | agent/api/v1/handler.go:104-147 | from every reachable state of the handler and for every schedule of other requests and timers there is a run with the client's requests |
| PageListing.FirstRequestStores | agent/api/v1/handler.go:120-147 | by the time the first request is answered its own filtered list is stored under its identifier, and nothing else ever can be |
| PageListing.SnapshotStays | agent/api/v1/handler.go:104-147 | whatever other requests and timers do between any two steps, it stays as long as its own timer does not fire |
| PageListing.FollowingCursorsIsComplete | agent/api/v1/handler.go:104-167 | with a fresh identifier whose timer does not fire, following the cursors returns the filtered list of the first request exactly once and in order, with its total on every page, in every schedule, for every limit and whatever the live list does; with no limit, one page or no room for a snapshot the first page is that list |
| PageExpiry.ExpiryRestarts | agent/api/v1/handler.go:121-147 | when a request finds its snapshot expired, the client has the listing up to there followed by what a client that begins there gets |
| PageExpiry.ExactlyOnceIff | agent/api/v1/handler.go:104-147 | on a list that does not change, a client that reaches the end has every item exactly once if and only if each later request found the snapshot |
| PageExpiry.TimerLoses | agent/api/v1/handler.go:77-147 | once the timer has fired after the store, no later request finds the snapshot, whatever others do |
| PageExpiry.ExpiryHappens | agent/api/v1/handler.go:121-147 | from every reachable state there is a run in which the second request does not find the snapshot of the first |
| PageListing.CursorsEnd | agent/api/v1/handler.go:155-160 | offsets strictly increase, so beyond a first page there are at most as many pages as items |
| PageListing.FullPage | agent/api/v1/handler.go:155-160 | a page with a cursor is not empty and ends exactly where its cursor points, before the end of the listing |
| PageListing.ListAll | agent/api/v1/client/client.go:595-620 | client loop and evolving server together return the first request's list with matching total |
| PageListing.PipelineListsAll | agent/api/v1/client/client.go:536-593 | so does the pipeline in every uncancelled interleaving that returned |
| PageServer.SnapshotsAreCounted | agent/api/v1/handler.go:77-147 | in every interleaving of requests and timers, also timers reset after firing: the counter is the stored snapshots less stores not yet counted plus deletes not yet counted, and exact at rest |
| PageServer.CountedDownOnce | agent/api/v1/handler.go:77-81 | in no run is a snapshot counted down twice |
| VolumeExports.HasExportLoop | agent/storage/model.go:132-139 | finds a reference with this IP and equal labels if there is one |
| VolumeExports.AddMeans | agent/storage/export.go:34-60 | after an add some reference has exactly this IP and these labels; a list without one grows by exactly the new reference, any other stays; Export is called exactly if no reference had the IP |
| VolumeExports.RemovalMeans | agent/storage/export.go:80-98 | a reference stays exactly if it has another IP, or labels are given and it differs from one of them |
| VolumeExports.RemovalOfAddress | agent/storage/export.go:88-112 | a removal without labels leaves nothing of the IP, everything else, and calls Unexport exactly if the IP was there |
| VolumeExports.UniqueExportIps | agent/storage/model.go:111-122 | the distinct IPs, sorted, whatever the order of the map |
| VolumeExports.ExportsForIp | agent/storage/model.go:141-149 | the number of references of the IP, positive exactly when it has one |
| VolumeExports.CachedVolume.AppendRef | agent/storage/export.go:42 | an append that is not committed does not show in the cached list, whether or not the array had room |
| VolumeExports.CachedVolume.CompactRefs | agent/storage/export.go:80-96 | the in-place loop computes the filter of the old list, and the cached slice then shows it followed by its own old tail |
| VolumeExports.CachedVolume.CreateVolumeExport | agent/storage/export.go:34-60 | Export is called exactly for the first reference of an IP and after the metadata write; every failure's effect on metadata and kernel; a success is the step of the reference-counting machine |
| VolumeExports.CachedVolume.DeleteVolumeExport | agent/storage/export.go:80-116 | the list left is that of `RemovalMeans`; Unexport is called exactly when the removal takes the last reference of the IP; every failure's effect, the damaged cache included; a success is the machine's step |
| VolumeExports.CachedVolume.DeleteVolume | agent/storage/volume.go:436-445 | refused while references are left |
| VolumeExports.FailedRemovalKeepsCacheIff | agent/storage/export.go:80-105 | a removal whose write fails leaves the cached list unchanged if and only if no removed reference stands before a kept one |
| VolumeExports.StepCountsReferences | agent/storage/export.go:34-112 | each operation keeps kernel clients equal to the distinct IPs, keeps references distinct, and calls the exporter exactly on the first and the last reference |
| VolumeExports.ReferencesCounted | agent/storage/export.go:34-112 | after every serial failure-free run the kernel's clients are the distinct IPs of the metadata |
| VolumeExports.PublishIsRecognised | integrations/kubernetes/controller/publish.go:66-78 | whatever claim it names, a publish makes a reference that belongs to its node, volume, class and address |
| VolumeExports.UnpublishMatches | integrations/kubernetes/controller/publish.go:117-122 | the unpublish labels remove exactly those references |
| VolumeExports.PublishThenUnpublish | integrations/kubernetes/controller/publish.go:66-122 | no reference of the node is left, every other one stays in order even on the same IP, and the IP stays exported exactly when another reference has it |
| Reconciler.Exporter.UnexportAll | agent/storage/nfs/kernel.go:57-75 | every client of the path goes but those that fail; nothing goes when its listing fails; success means neither failed |
| Reconciler.ActualExports | agent/storage/reconciler.go:39-51 | exactly the exports under the tenant directory, by path |
| Reconciler.RemoveOrphans | agent/storage/reconciler.go:55-67 | exports of missing paths go, the others stay, one call for each such path |
| Reconciler.RestoreVolume | agent/storage/reconciler.go:75-87 | exports what the volume's references ask for and the listing lacked, and calls for nothing else |
| Reconciler.ReconcileExports | agent/storage/reconciler.go:30-89 | from any table and with any failures, of listings, removals and exports, the pass leaves the table and makes the calls of the specification, which `PassRepairs` and `OthersAreLeftAlone` pin down |
| Reconciler.PassRepairs | agent/storage/reconciler.go:30-89 | without failures and with the directories present every reference is exported, what is exported below the tenant's directory exists, and every other entry whose path exists or does not begin with that directory and a slash is as before |
| Reconciler.OthersAreLeftAlone | agent/storage/reconciler.go:43-89 | whatever fails, an entry whose path does not begin with the tenant's directory and a slash is there after a pass iff before, and no exporter call names such a path |
| Reconciler.TenantsAreApart | agent/storage/reconciler.go:31-89 | so a pass over one tenant leaves the exports of every other alone, also when one name begins with the other |
| Reconciler.SecondPassIsIdleIff | agent/storage/reconciler.go:30-89 | a second pass makes no exporter call if and only if the directories of all exported volumes exist |
| Reconciler.MissingDirectoryFlaps | agent/storage/reconciler.go:57-89 | without its directory a reference is exported and unexported on alternate passes |
| ExportTable.ParseExports | agent/storage/nfs/kernel.go:92-120 | the loop computes the fold of the line parser |
| ExportTable.ArgumentRoundTrip | agent/storage/nfs/kernel.go:29-54 | the argument passed to exportfs, with an IPv6 address in brackets and an IPv4 address bare, is read as exactly this client and this path |
| ExportTable.BracketsComeOff | agent/storage/nfs/kernel.go:31-46 | bracketing and unwrapping an IPv4 or IPv6 address gives it back |
| ExportTable.EntryParses | agent/storage/nfs/kernel.go:92-120 | one entry on one line or wrapped onto two, with blank lines, is read back whatever came before |
| ExportTable.StrayLineIsSkipped | agent/storage/nfs/kernel.go:112-118 | an indented line behind a complete entry adds nothing |
| ExportTable.ExportTableRoundTrip | agent/storage/nfs/kernel.go:92-120 | every table printed in any mix of layouts is parsed to exactly itself |
| VolumeMetadata.ProtectImmutableLabels | agent/storage/utils.go:52-77 | in any order of keys: rejected exactly when a protected label would change, else the request completed with every protected value |
| VolumeMetadata.CachedMeta.UpdateVolume | agent/storage/volume.go:211-328 | metadata, subvolume and outcome of every request under every failure on disk |
| VolumeMetadata.RejectedIff | agent/storage/volume.go:211-245 | a request is rejected exactly when it is malformed, would change a protected label, shrink the volume, or compress one without copy-on-write |
| VolumeMetadata.UpdateMeans | agent/storage/volume.go:299-324 | what an accepted update leaves, field by field: size and quota, nocow, compression, owner, group and mode as requested or else as they were, protected labels as they were, all others as requested, usage and exports untouched |
| VolumeMetadata.UpdateAgreesIff | agent/storage/volume.go:250-324 | an accepted update keeps metadata and subvolume in agreement if and only if it does not switch compression off |
| VolumeMetadata.OpGrows | agent/storage/volume.go:211-328 | each update, export change or usage pass keeps size from shrinking, nocow from coming off, and protected labels with a value as they are |
| VolumeMetadata.MetadataGrows | agent/storage/volume.go:211-328 | so over any serial run, between any two of its moments |
| VolumeMetadata.AloneIsSerial | agent/storage/volume.go:202-328 | a call that no other overlaps, checked and then committed, is the serial one |
| VolumeMetadata.CommitGrowsIff | agent/storage/volume.go:202-328 | among overlapping calls a commit keeps size, nocow and protected labels from going back exactly when its request would still pass the checks against what is stored by then |
| VolumeMetadata.FreshIsNotBehind | agent/storage/volume.go:211-226 | a request that was just admitted would |
| VolumeMetadata.OverlappingUpdatesShrink | agent/storage/volume.go:202-302 | two calls that read the same size can leave the smaller of two requests after the larger was stored |
| VolumeMetadata.NoCowMayMeetCompression | agent/storage/volume.go:218-226 | an admitted request breaks "nocow excludes compression" exactly when it turns nocow on and the volume ends up compressed |
| VolumeMetadata.UpdateOne | agent/storage/usage.go:60-127 | what a pass does to one volume, and when it writes |
| VolumeMetadata.UpdateAll | agent/storage/usage.go:49-128 | what a pass does to all volumes, in any order, and which it writes |
| VolumeMetadata.PassConverges | agent/storage/usage.go:49-128 | owner, mode and usage of each observable volume become the observed ones, owner and mode also where usage is not looked at, volumes that cannot be observed and all else stay as they are, and a second pass over the same facts finds no drift and changes nothing |
| VolumeMetadata.UsageIsLostIff | agent/storage/usage.go:72-101 | a known usage becomes 0 exactly when the directory can be read and the qgroup says 0 or, if the pass does not look at the qgroup, owner or mode drifted |
| VolumeMetadata.UpdateSnapshots | agent/storage/usage.go:135-166 | what a pass does to all snapshots and which it writes |
| VolumeMetadata.SnapshotPassConverges | agent/storage/usage.go:135-166 | snapshots converge in one pass, and a failed bulk query leaves them alone |
| SortedStrings.SortSorts | agent/storage/model.go:120 | the sort orders the list, keeps its members and keeps them distinct |
| SortedStrings.LeqIsLexicographic | integrations/kubernetes/controller/pvc.go:182 | the order is that of Go's strings: a prefix comes first, else the first difference decides |
| SortedStrings.SortedIsUnique | integrations/kubernetes/controller/pvc.go:178-182 | a sorted list without repeats is determined by its members, so the order of a map walk does not show |
| UserLabels.MergeUserLabels | integrations/kubernetes/controller/pvc.go:177-209 | the result depends on the labels only: the accepted keys are the first maxUser eligible ones in sorted order, the skipped ones the rest |
| UserLabels.EligibleMeans | config/config.go:11-12 | a label can be merged exactly if its key is not reserved, has 1 to 63 of the characters allowed for its place, and its value has at most 128 allowed ones |
| UserLabels.OwnLabelsAreReserved | integrations/kubernetes/controller/pvc.go:153-173 | no user label passes for one that publishing writes or that updates protect |
| UserLabels.MergePartitions | integrations/kubernetes/controller/pvc.go:177-209 | accepted and skipped keys, both in order, partition the input, an eligible key is skipped only for smaller accepted ones that use up the quota, and reserved keys of the destination are untouched |

## Left out

- ClientPages.PipelineRefinesLoop: after a cancel it promises the prefix only, because the code then returns success or an error depending on the interleaving; `SuccessIsCompleteIff` says so exactly.
- ClientPages.PaginateSequential: takes the end of the cursor chain as given, because a server may answer for ever; `CursorsEnd` gives it for the agent's own handler.
- MetaStore.UpdateLinearizable: only for paths that are in the cache when the run begins and without Delete, because the unlocked disk fallback of `Get` loses updates otherwise. Callbacks are functions on values; the one of DeleteVolumeExport writes through the cached slice (agent/storage/export.go:82), and after a failed write the cache then equals the file exactly under the condition of FailedRemovalKeepsCacheIff.
- Creators.OneCreatorWins: for runs in which no delete removed data, because a deleted name can be created again.
- Creators.ExportedVolumeStays: the exports of a record do not change during its runs; adding and removing them is `VolumeExports.dfy`. The preparations recorded are those whose failure the code notices.
- Creators.CrashAtomic: deletes run while no other call is active and readers do not overlap them, because `DeleteVolume` takes no lock and a reader could revive the entry; the claim is about the cache right after `loadCache`, not about later reads through the disk fallback.
- PageListing.FollowingCursorsIsComplete: the client's own request is decided in one step; its store and its count are separate steps, as are all those of others. base64 is an injective codec and is left as the identity, and random identifiers do not repeat.
- VolumeExports.ReferencesCounted: serial and failure-free, because Export and Unexport run after the metadata lock is released; under races only the reconciler's claim holds.
- VolumeMetadata.MetadataGrows: for calls that do not overlap; `CommitGrowsIff` says when overlapping ones break it.
- Task files are written atomically in the model. In the program the worker and an updater share one temporary file without a lock (agent/storage/task/manager.go:254-262), so a rename may install a mixed file, which the next start skips as unreadable.
- JSON: an injective codec; task identifiers do not repeat; a metadata file that does not decode counts as missing.
- The immutable file flag, chmod and chown at creation (logged when they fail) and time stamps other than completion times.
- Validation of names, label syntax, UID, GID, mode and client addresses, `requireImmutableLabels` and `ImmutableLabelKeys`: a predicate on requests, or easy members.
- Copying the source volume's or snapshot's properties into a clone, with the fallback when the source volume is gone: the record a creator commits is any value.
- Several tenants and the two stores share one lock pool in the program; the pool is modelled for any paths, the creators for one name at a time. A volume called `snapshots` is assumed not to exist.
- A client added behind the reconciler's back on a path that exists is never removed, and the model agrees.
- The exact text of exportfs options, the fsid, and white space outside Latin-1.
- HTTP and gRPC plumbing, authentication, the CLI, metrics, logging, device statistics and node staging: no state worth proving.
- The controller's `ListVolumes` and `ListSnapshots` across agents: their page tokens do not give a complete listing, so none is claimed.
- "Only one scrub at a time": the check and the creation are separate in the code, so it is not claimed.
