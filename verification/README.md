# otaclient, modelled in Dafny

otaclient updates a vehicle's A/B system: it downloads an image through a caching proxy, writes it to
the standby slot, switches the boot and records what came of it. This project models the parts of it
that have to hold under every interleaving, every power cut and every input, and proves what they
promise.

* **Retrying thread pool** - `RetryPool` (the pool as interleaved atomic steps), `RetryPoolFutures` and
  `RetryPoolInvariant` (what every step keeps), `RetryPoolPromises` (what ensure_tasks promises),
  `RetryPoolShutdown` (what a shutdown does to it),
  `RetryPoolProgress` (termination and no deadlock), `RetryPoolThreads` (the object the threads share,
  each method proved to be a step), `RetryTracker` (the per-entry retry counts).
* **A/B update under power cuts** - `StatusFiles` and `StatusControl` (the status files of the slots,
  one atomic write at a time), `PartitionImage` and `PartitionControl` (when the DPI is asked),
  `GrubSwitch` and `GrubControl` (saved_entry, next_entry and the trial boot).
* **The caching proxy** - `CacheStreaming` (provider, writer thread and subscriber as interleaved steps),
  `CacheStreamingInvariant`, `CacheStreamingPromises`, `CacheStreamingLimits`, `CacheStreamingFailed` (what a
  failed tracker's subscriber can still do), `CacheStreamingRaise`, `CacheTracker` (the object),
  `CacheIndex`, `CachePreload` and `CacheIndexControl` (the index, its write-behind database, the preload),
  `CacheControlHeader`.
* **Resumable download** - `Ranges` and `Downloader`.
* **Parsers, printers, tables** - `CsvLines`, `FileTables`, `ImageText`, `ManagedConfig`, `GrubDefault`, on `Text`,
  `OrderedDict` and `Prelude`.

Where the source changes things step by step, the model is a class or a method with loops, proved
against the functions that the lemmas are about. `dafny verify dfyconfig.toml` checks everything.

What turned out false of the code, or true only under a condition:

* A writer that gets an empty chunk takes it for the end (`CommittedIsComplete` has the exact condition,
  `EmptyChunkCommitsTooEarly` the run), and a subscriber that has read everything ends normally when the
  remote then raises (`SubscriberCanEndAfterRaise` is such a run, `EndsAfterFailureIff` the exact condition).
  A raise goes with a commit exactly where a chunk after the first is empty (`RaiseCommitsIff`).
* A commit queued behind a remove of its key is lost from the database exactly when both fall in one batch
  (`LostIff`, `RecommitInOneBatchIsLost`).
* A per-entry retry count starts again once enough other entries failed in between (`TrackerCountsIff`,
  `CrowdedOutStartsAgain`).
* A remove, or a commit that says something else, that starts between the two halves of a commit of its
  key can be overtaken by it, and the old row comes back (`OverlapBringsBack`); exactly without such an
  overlap the database stays a submap (`DrainedIsSubmap`, `CarefulIff`).
* A shutdown between the generator's look at the flag and its queue can be missed: the last success is
  handed out and the generator ends (`ShutdownCanBeMissed`; `EndsAfterShutdownIff` has the exact condition).
* Writers that test for room together can overfill the index by all of them but one, whatever the maximum
  (`WritersOverfill`), and by no more (`Interleave`): the maximum holds exactly with one writer.
* A start that bootstraps writes the very slot that saved_entry names (`BootstrapWritesTheDefault`,
  `StartTouchesDefaultIff`); what never happens is that it names a slot written from the other one.
* An unreadable boot id makes a startup ask the DPI in the staging boot (`StagingBootAsksIffUnreadable`).
* The GRUB switch is safe only while nothing fails after arming and an armed update is booted before the
  next (`FailureAfterArmingGoesAstray`, `UpdateWhileArmedGoesAstray`, `UpdateIsSafeIff`).
* A version string that ends like the closing marker makes a managed configuration unrecognisable, even
  if it is trimmed and of one line (`RoundTripIff`, `VersionCanCloseTheFooter`).
* store_failure_info writes FAILURE also over ROLLBACK_FAILURE; the model follows the code.

## Model

| member | source | states |
|---|---|---|
| `RetryPoolPromises.EndedMeansEnsured` | src/otaclient_common/retry_task_map.py:201-311 | in every interleaving, a generator that ends by its loop condition has seen the iterable at its end and as many items dispatched as were taken from it, every future one of the item taken at its place, every item with exactly one successful attempt, every future handed out exactly once, an item's failures before its success, and nothing left in the queue |
| `RetryPoolPromises.RunDispatches` | src/otaclient_common/retry_task_map.py:282-311 | in every state of every run item i is the i-th taken from the iterable, at most one more is in the dispatcher's hand before a shutdown, and the total is set only at the iterable's end |
| `RetryPoolPromises.NoTaskMeansEmpty` | src/otaclient_common/retry_task_map.py:201-219 | the early return happens only for an iterable that came to its end without giving an item |
| `RetryPoolPromises.RaisedMeansShut` | src/otaclient_common/retry_task_map.py:201-239 | the generator raises only once the pool is shut down, and with a cause unless the shutdown came from outside the pool |
| `RetryPoolShutdown.ShutdownIsRaised` | src/otaclient_common/retry_task_map.py:201-262 | from a shutdown on, wherever the consumer is, at most one more future is handed out, and only to a consumer between its look at the flag and the queue; it ends normally only from there, from its loop condition, or if it had ended |
| `RetryPoolShutdown.EndsAfterShutdownIff` | src/otaclient_common/retry_task_map.py:201-239 | a run that has come to a shutdown can be continued to a normal end if and only if everything was consumed at the loop condition or right behind it, or the last success is next in the queue of a consumer that has passed its look at the flag; otherwise it can only raise |
| `RetryPoolShutdown.ShutdownCanBeMissed` | src/otaclient_common/retry_task_map.py:209-235 | a concrete run, shut down with nothing consumed, that ends normally |
| `RetryPoolPromises.PermitsConserved` | src/otaclient_common/retry_task_map.py:152-199 | in every reachable state the free permits, the one in the dispatcher's hand and one per item not finished are exactly max_concurrent; an item that gave its permit back before a shutdown succeeded; no permit is released twice after one |
| `RetryPoolPromises.AttemptsBounded` | src/otaclient_common/retry_task_map.py:152-199 | attempts started never exceed items dispatched plus max_total_retry |
| `RetryPoolInvariant.RunInv` | src/otaclient_common/retry_task_map.py:152-311 | the invariant behind these (futures of an item form a chain whose tip is its last attempt, the queue and what was yielded are the stored futures in order, permits, causes) holds in every state of every run |
| `RetryPoolPromises.AllDone` | src/otaclient_common/retry_task_map.py:201-239 | counting as many consumed successes as items implies that every item is ensured and the queue is empty |
| `RetryPoolInvariant.RetryFutures` | src/otaclient_common/retry_task_map.py:152-199 | resubmitting a failed item moves its tip to a new future and leaves the chain, the stored futures and the finished items as they were |
| `RetryPoolProgress.WorkIsBounded` | src/otaclient_common/retry_task_map.py:152-311 | every run over n items does at most 19 units of work per item, 14 per retry allowed and 5 more: the runs terminate |
| `RetryPoolProgress.AlwaysWork` | src/otaclient_common/retry_task_map.py:152-311 | no deadlock: as long as the generator runs, some thread has a step that lowers the measure, or the generator's next round ends it or takes a future |
| `RetryPoolProgress.EnsuredOrRaised` | src/otaclient_common/retry_task_map.py:152-311 | both together: every run over finitely many items with a bound on the retries works boundedly often, and where nothing moves any more the generator has ended with every item taken ensured, returned since there was none, or raised after a shutdown |
| `RetryPoolThreads.ThreadPool.constructor` | src/otaclient_common/retry_task_map.py:83-133 | a new pool is in an initial state of the machine |
| `RetryPoolThreads.ThreadPool.TaskDoneCallback` | src/otaclient_common/retry_task_map.py:152-199 | each atomic piece of the done callback, as it assigns the pool's fields, is the callback step of the machine |
| `RetryPoolThreads.ThreadPool.FailedWorkItem` | src/otaclient_common/retry_task_map.py:165-199 | the same for the part that handles a failed item: retry limits, exception record, shutdown, resubmission |
| `RetryPoolThreads.ThreadPool.DispatcherThread` | src/otaclient_common/retry_task_map.py:282-311 | each atomic piece of the dispatcher thread is the dispatch step of the machine |
| `RetryPoolThreads.ThreadPool.Generator` | src/otaclient_common/retry_task_map.py:201-239 | each atomic piece of the generator is the consumer step of the machine |
| `RetryPoolThreads.ThreadPool.Others` | src/otaclient_common/retry_task_map.py:135-150 | worker threads, watchdog, shutdown and the iterable are the other steps of the machine |
| `RetryPoolThreads.ThreadPool.TryShutdownLock` | src/otaclient_common/retry_task_map.py:241-262 | the shutdown takes its lock only when it is free and never waits for it |
| `RetryPoolThreads.ThreadPool.Interleave` | src/otaclient_common/retry_task_map.py:152-311 | under any schedule the object goes through a run of the machine, so that all of the above holds of it |
| `RetryTracker.TrackerRemembersIff` | src/otaclient_common/retry_task_map.py:66-79 | after any log of registrations the tracker remembers exactly the entries with fewer than max_entries others registered since |
| `RetryTracker.TrackerCountsIff` | src/otaclient_common/retry_task_map.py:72-79 | the number a registration returns never exceeds, and equals, how often the entry was registered if and only if the entry was never crowded out |
| `RetryTracker.CrowdedOutStartsAgain` | src/otaclient_common/retry_task_map.py:72-79 | a concrete log on which the per-entry count starts again, so that a per-entry retry limit can be overrun |
| `StatusFiles.StartupConverges` | src/otaclient/boot_control/_ota_status_control.py:78-192 | however often and wherever startups on a slot are cut (force_initialize off, the finaliser repeating its answer), the one that completes leaves the status and slot_in_use that an uninterrupted first one would have left |
| `StatusFiles.StartupStates` | src/otaclient/boot_control/_ota_status_control.py:78-192 | at every cut the status and slot_in_use are the old or the settled ones, the status never before slot_in_use, and the other slot is untouched |
| `StatusFiles.SuccessIsEarned` | src/otaclient/boot_control/_ota_status_control.py:125-171 | SUCCESS on a slot that was UPDATING or ROLLBACKING appears, at any cut, only after the finaliser was asked on the recorded slot and said yes |
| `StatusFiles.FailureInfoIsBound` | src/otaclient/boot_control/_ota_status_control.py:373-430 | over every history of the methods, each cut anywhere, and of an older client's writes, the failure info returned is the reason that the last write of the status file was made for |
| `StatusFiles.ReportIsReturned` | src/otaclient/boot_control/_ota_status_control.py:373-430 | a reason recorded completely is returned as long as that status file is not rewritten and the info not dropped |
| `StatusControl.OTAStatusFilesControl.constructor` | src/otaclient/boot_control/_ota_status_control.py:51-76 | a process starts with the files it finds, and nothing issued |
| `StatusControl.OTAStatusFilesControl.LoadSlotInUseFile` | src/otaclient/boot_control/_ota_status_control.py:173-192 | issues exactly the events of its event list, as far as power lasts |
| `StatusControl.OTAStatusFilesControl.LoadStatusFile` | src/otaclient/boot_control/_ota_status_control.py:78-171 | issues exactly the events of its event list, and holds the status those events settle |
| `StatusControl.OTAStatusFilesControl.Init` | src/otaclient/boot_control/_ota_status_control.py:51-192 | wherever the power is cut, the files are a prefix of the startup's event list |
| `StatusControl.OTAStatusFilesControl.PreUpdateCurrentSlot` | src/otaclient/boot_control/_ota_status_control.py:275-281 | issues the event list of pre_update_current |
| `StatusControl.OTAStatusFilesControl.PostUpdateStandbySlot` | src/otaclient/boot_control/_ota_status_control.py:283-306 | issues the event list of post_update_standby, in its order |
| `StatusControl.OTAStatusFilesControl.OnOperationFailure` | src/otaclient/boot_control/_ota_status_control.py:360-365 | records the failure on the running slot, and on the standby where its directory exists |
| `StatusControl.OTAStatusFilesControl.StoreInfo` | src/otaclient/boot_control/_ota_status_control.py:373-395 | writes the status first and then the info bound to that very write |
| `StatusControl.OTAStatusFilesControl.LoadBootedFailureInfo` | src/otaclient/boot_control/_ota_status_control.py:397-430 | returns the info exactly where it is bound to the status file on disk and the boot was a failure |
| `StatusControl.FollowsOn` | src/otaclient/boot_control/_ota_status_control.py:78-192 | what a process decides after the power is gone changes nothing of what is on disk |
| `PartitionImage.ResumeNeverInStagingBoot` | src/otaclient/boot_control/_partition_image.py:225-260 | over all lives of a device, with every method cut anywhere, restarts and boots of either slot, the DPI is never asked to resume in the boot that staged the update |
| `PartitionImage.FirstStartOfALaterBootAsks` | src/otaclient/boot_control/_partition_image.py:169-183 | in every boot after the staging one, as long as the DPI has not been asked since, a startup asks it, whatever the status files say |
| `PartitionImage.StartAsks` | src/otaclient/boot_control/_partition_image.py:235-262 | a startup that finds a staging boot other than its own asks the DPI, through the finaliser or by itself |
| `PartitionImage.StagingBootAsksIffUnreadable` | src/otaclient/boot_control/_partition_image.py:235-251 | in the staging boot a startup asks exactly when it cannot read the boot id |
| `PartitionImage.UnreadableBootIdAsksTooEarly` | src/otaclient/boot_control/_partition_image.py:235-251 | so the first claim needs readable boot ids: from every running device, staging and restarting without one breaks it |
| `PartitionImage.StartupKeepsReasons` | src/otaclient/boot_control/_partition_image.py:137-183 | wherever a startup is cut and whatever the DPI answers, a reason bound to a failed status stays with its status and is what is loaded, a SUCCESS stays a SUCCESS, and the other slot is untouched |
| `PartitionImage.RefusalIsRecorded` | src/otaclient/boot_control/_partition_image.py:276-302 | a startup that completes after the DPI refused, on a slot that failed, leaves a bound reason |
| `PartitionImage.RefusedTrialFails` | src/otaclient/boot_control/_partition_image.py:304-313 | a switching boot that the DPI refuses is such a failure |
| `PartitionImage.ReasonsSurvive` | src/otaclient/boot_control/_partition_image.py:137-183 | over every life, boots into either slot, deaths and starts cut anywhere leave a bound reason and a success of either slot as they are |
| `PartitionImage.RefusalIsRemembered` | src/otaclient/boot_control/_partition_image.py:276-302 | a refusal recorded by a completed start is found bound by every later one until something else is written |
| `PartitionImage.LifeKept` | src/otaclient/boot_control/_partition_image.py:137-196 | the invariant behind these holds at every moment of every life |
| `PartitionImage.MoveKept` | src/otaclient/boot_control/_partition_image.py:412-432 | each method, cut anywhere, each crash and each boot keeps it |
| `PartitionControl.PartitionImageBootController.Init` | src/otaclient/boot_control/_partition_image.py:137-196 | wherever the power is cut, the files are a prefix of the startup's event list |
| `PartitionControl.PartitionImageBootController.Resume` | src/otaclient/boot_control/_partition_image.py:264-274 | asks the DPI once, remembers a refusal, and fails only where the call does |
| `PartitionControl.PartitionImageBootController.ConcludeStagingBoot` | src/otaclient/boot_control/_partition_image.py:232-262 | asks and forgets the staging boot exactly where the event list says so, in that order |
| `PartitionControl.PartitionImageBootController.RecordWhyNotCommitted` | src/otaclient/boot_control/_partition_image.py:276-302 | writes the reason where none is bound, and nothing otherwise |
| `PartitionControl.PartitionImageBootController.PreUpdate` | src/otaclient/boot_control/_partition_image.py:412-438 | the staging boot is recorded before any status is rewritten |
| `GrubSwitch.SavedEntryIsIntact` | src/otaclient/boot_control/_grub_new.py:693-722 | over every life in which nothing fails after the arming write and an armed update is booted before another starts, with power cuts anywhere and starts that find the system in any of the four setups, saved_entry names a slot that was not written from the other slot since it last ran |
| `GrubSwitch.SavedEntryIsUntouched` | src/otaclient/boot_control/_grub_new.py:783-818 | where moreover every start finds the system managed, it names a slot that nothing at all wrote since it last ran |
| `GrubSwitch.StartTouchesDefaultIff` | src/otaclient/boot_control/_grub_new.py:938-988 | a start leaves saved_entry naming a slot written since it last ran if and only if it bootstraps and got as far as its first write of the default slot, or, in a trial boot, as far as making the slot it had written the default |
| `GrubSwitch.StartIsQuietIff` | src/otaclient/boot_control/_grub_new.py:783-818 | a start keeps the default untouched at every cut if and only if it finds the system managed |
| `GrubSwitch.BootstrapWritesTheDefault` | src/otaclient/boot_control/_grub_new.py:938-988 | from every initial device, a life of one start that breaks the stronger claim |
| `GrubSwitch.TrialFallsBack` | src/otaclient/boot_control/_grub_new.py:1336-1348 | a trial boot that ends before saved_entry is rewritten is followed by a boot of the slot that staged it |
| `GrubSwitch.UpdateIsSafeIff` | src/otaclient/boot_control/_grub_new.py:1444-1538 | an update keeps saved_entry intact at every cut if and only if the running slot is the default at its start |
| `GrubSwitch.FailureAfterArmingGoesAstray` | src/otaclient/boot_control/_base.py:98-117 | the first assumption is needed: an error recorded after arming makes the trial run on without becoming the default |
| `GrubSwitch.UpdateWhileArmedGoesAstray` | src/otaclient/boot_control/_base.py:119-165 | the second is needed: an update started while a trial is armed and cut short boots its half-written slot, and stays there |
| `GrubSwitch.LifeKept` | src/otaclient/boot_control/_grub_new.py:693-722 | the invariant behind these (an armed trial is the standby with UPDATING recorded, a trial boot is on record or still the old controller's, the default was not written from the other slot) holds at every moment |
| `GrubSwitch.MoveKept` | src/otaclient/boot_control/_base.py:119-206 | each boot, each start with its migration and bootstrap, and each update, cut anywhere, keeps it |
| `GrubSwitch.StartEventsKept` | src/otaclient/boot_control/_grub_new.py:783-818 | a start, cut anywhere, keeps it, and one that completes runs from the default slot with the managed grub.cfg in place |
| `GrubControl.GrubBootController.BootstrapSteps` | src/otaclient/boot_control/_grub_new.py:938-1036 | migration, then the writes to the running slot, then the default, then grub.cfg, in that order |
| `GrubControl.GrubBootController.PreUpdateSteps` | src/otaclient/boot_control/_base.py:119-165 | issues the writes of pre_update in their order |
| `GrubControl.GrubBootController.PostUpdateSteps` | src/otaclient/boot_control/_base.py:167-218 | issues the writes of post_update in their order, arming last |
| `GrubControl.GrubBootController.RunUpdate` | src/otaclient/boot_control/_grub_new.py:1434-1538 | wherever the power is cut, the device is a prefix of the update's writes |
| `CacheStreamingPromises.CommittedIsComplete` | src/ota_proxy/cache_streaming.py:187-264 | in every interleaving, a committed entry's file holds exactly the remote's chunks up to its first empty one and the recorded size is that length; it is the whole of what the remote yielded if and only if only empty chunks follow an empty one, and where none is empty the remote did not raise |
| `CacheStreamingPromises.RaisedOrSkippedNeverCommits` | src/ota_proxy/cache_streaming.py:544-555 | where no chunk is empty, a remote that raised, or a chunk that was not teed, never leads to a commit |
| `CacheStreamingPromises.DroppedNeverCommits` | src/ota_proxy/cache_streaming.py:448-487 | a writer that the pool dropped is never committed, however the run goes on |
| `CacheStreamingPromises.SubscriberSeesPrefix` | src/ota_proxy/cache_streaming.py:335-388 | what a subscriber has emitted is at every moment a prefix of what the remote yielded |
| `CacheStreamingPromises.SubscriberEndsWithAll` | src/ota_proxy/cache_streaming.py:347-388 | a subscriber whose loop ends by its own condition has emitted all that was written: the whole body unless the tracker failed |
| `CacheStreamingLimits.EmptyChunkCommitsTooEarly` | src/ota_proxy/cache_streaming.py:233-259 | a concrete run in which an empty chunk in the middle makes a prefix the cached file |
| `CacheStreamingLimits.SubscriberCanEndAfterRaise` | src/ota_proxy/cache_streaming.py:347-388 | a concrete run in which a subscriber ends as if the file were whole although the remote raised |
| `CacheStreamingFailed.EndsAfterFailureIff` | src/ota_proxy/cache_streaming.py:347-388 | for every run and every moment at which the tracker has failed: a subscriber that reads c bytes at a time can still end by its own condition if and only if it has, or one read brings it, all that the writer will have counted, and the writer can finish without testing the failed flag again |
| `CacheStreamingRaise.RaiseCommitsIff` | src/ota_proxy/cache_streaming.py:220-264 | for every sequence of chunks: some run in which the remote yields them and then raises commits an entry if and only if a chunk after the first is empty |
| `CacheStreamingInvariant.RunInv` | src/ota_proxy/cache_streaming.py:220-264 | the invariant behind these (what is in the tee, written, flushed and counted at each phase) holds in every state of every run |
| `CacheStreamingPromises.EventsAreOneWay` | src/ota_proxy/cache_streaming.py:72-108 | over every run the events of a tracker only come on, and none without the writer having started: what a subscriber is told is for good |
| `CacheTracker.Tracker.FirstChunks` | src/ota_proxy/cache_streaming.py:510-542 | each piece of the provider before its loop is a provider step of the machine |
| `CacheTracker.Tracker.TeeLoop` | src/ota_proxy/cache_streaming.py:544-555 | each piece of the provider's loop, its except and its finally is a provider step of the machine |
| `CacheTracker.Tracker.WriterLoop` | src/ota_proxy/cache_streaming.py:236-247 | each piece of the writer's loop is a writer step of the machine |
| `CacheTracker.Tracker.WriterFinish` | src/ota_proxy/cache_streaming.py:248-260 | so is each piece after the loop: flush, size, the finished event, the commit and the link |
| `CacheTracker.Tracker.WriterStartOrOnce` | src/ota_proxy/cache_streaming.py:266-293 | and the writer's start, the one-chunk path and the abort |
| `CacheTracker.Tracker.Subscriber` | src/ota_proxy/cache_streaming.py:300-400 | each piece of a subscriber is a reader step of the machine |
| `CacheTracker.Tracker.Interleave` | src/ota_proxy/cache_streaming.py:187-555 | under any schedule the object goes through a run of the machine |
| `CacheIndex.DrainedIsSubmap` | src/ota_proxy/cache_index.py:113-178 | for every interleaving of commits, removes and the database thread and every batch split, as long as none starts while a write of its key that says something else is on its way to the queue, a drained database is a submap of the index |
| `CacheIndex.NeverRemovedIsKept` | src/ota_proxy/cache_index.py:113-178 | an entry of the index that nobody removed is in every drained database, in every run at all, and just as the index has it where its commits did not overlap |
| `CacheIndex.OverlapBringsBack` | src/ota_proxy/cache_index.py:334-367 | from every state: a remove, or a commit that says something else, that starts while a write of its key is on its way can be overtaken by it, and the database drains to what is no submap |
| `CacheIndex.CarefulIff` | src/ota_proxy/cache_index.py:334-367 | so a start is safe, however what is on its way is drained, if and only if no write of its key that says something else is on its way |
| `CacheIndex.LookupSeesLastStart` | src/ota_proxy/cache_index.py:330-367 | in every run a lookup finds what the last commit or remove of the key left, whatever the database thread does |
| `CacheIndex.RecommitInOneBatchIsLost` | src/ota_proxy/cache_index.py:139-178 | the submap can be a proper one: a remove and a later commit in one batch leave no row |
| `CacheIndexControl.LostIff` | src/ota_proxy/cache_index.py:139-178 | for every split into batches: a row that doing the operations in order would leave is missing if and only if the batch of its last write also deletes its key |
| `CachePreload.RemovedStaysRemoved` | src/ota_proxy/cache_index.py:285-316 | after a drained session and a restart, every entry that comes back was in the index, just so: a removed one never comes back |
| `CachePreload.PreloadFromDb` | src/ota_proxy/cache_index.py:285-316 | the preload splits the rows: a row stays exactly if its file is there (or it is empty) and fewer than the maximum of such rows come before it, and every other key is to be removed |
| `CachePreload.CleanupDb` | src/ota_proxy/cache_index.py:325-328 | removing in batches removes exactly the keys given |
| `CachePreload.PreloadMirrors` | src/ota_proxy/cache_index.py:239-268 | after a preload database and index have the same keys and say the same |
| `CachePreload.PreloadKeepsTheRecent` | src/ota_proxy/cache_index.py:285-316 | of the usable rows the most recently used are kept |
| `CacheIndex.InsertedAt` | src/ota_proxy/cache_index.py:139-162 | after insert-or-replace a key has its last write in the batch, or what it had |
| `CacheIndex.HeaderNamesTheFile` | src/ota_proxy/cache_index.py:58-74 | a client that reads an entry's control header finds the file and its compression named there |
| `CacheIndexControl.Session.constructor` | src/ota_proxy/cache_index.py:239-268 | a session starts with database and index alike and at most the maximum of entries |
| `CacheIndexControl.Session.RemoveEntry` | src/ota_proxy/cache_index.py:334-338 | takes the key out, present or not, before the delete is queued |
| `CacheIndexControl.Session.CommitTest` | src/ota_proxy/cache_index.py:353-360 | a commit finds room exactly when the index is not full, even for a key it has |
| `CacheIndexControl.Session.CommitInsert` | src/ota_proxy/cache_index.py:362-367 | the entry is set whatever others have set since the test, and queued next |
| `CacheIndexControl.Session.Interleave` | src/ota_proxy/cache_index.py:330-367 | under any schedule the object goes through a run of the machine, a drained database is then a submap, and the index outgrows its maximum by less than the number of writers |
| `CacheIndexControl.WritersOverfill` | src/ota_proxy/cache_index.py:353-367 | for every maximum and every number of writers some schedule leaves the index over its maximum by all the writers but one; so with Interleave it stays within it under every schedule if and only if there is one writer |
| `CacheIndexControl.Session.PutNowait` | src/ota_proxy/cache_index.py:102-108 | the second half of an operation, in whatever order the threads come |
| `CacheIndexControl.Session.GetItem` | src/ota_proxy/cache_index.py:113-131 | the database thread takes the oldest operation into its batch |
| `CacheIndexControl.Session.FlushPiece` | src/ota_proxy/cache_index.py:132-178 | a flush writes first, then deletes and clears the batch |
| `CacheIndexControl.BatchesAreAmong` | src/ota_proxy/cache_index.py:139-178 | however a sequence of operations is cut into batches, writes before deletes in each leaves only rows that doing them in order would leave |
| `CacheIndexControl.DbWriter.FlushToDb` | src/ota_proxy/cache_index.py:139-178 | all writes of the batch, then all its deletes |
| `CacheIndexControl.DbWriter.StartThread` | src/ota_proxy/cache_index.py:113-137 | the thread's loop puts every operation into one batch, in order, none over the limit, leaves only rows that doing them in order would leave, and leaves what steps of the machine drain the same queue to |
| `CacheIndexControl.BatchesAreSteps` | src/ota_proxy/cache_index.py:113-137 | flushing batches one after the other is a sequence of steps of the machine |
| `Downloader.Downloader.Download` | src/otaclient_common/downloader.py:467-556 | whatever is at the destination and whatever the server answers: the file is the part continued plus the body and is what the digest was fed; it returns if and only if the transfer began and ended well and the file has the size and digest asked for; when it is a partial download |
| `Downloader.Downloader.DownloadWithRetry` | src/otaclient_common/downloader.py:263-301 | a return means the right file; a second request is made exactly after a cut, a wrong hash or a broken decompression, with retry_caching; whatever it ends in, once its transfer begins the file is its body, behind what the first left only where that was cut and the server continues it |
| `Downloader.Downloader.Transfer` | src/otaclient_common/downloader.py:520-539 | at every turn of the loop what was fed to the digest is what is in the file |
| `Downloader.Downloader.HashExisting` | src/otaclient_common/downloader.py:579-597 | feeds the first bytes, all of them, and finds out a shorter file |
| `Downloader.Downloader.HashPart` | src/otaclient_common/downloader.py:467-487 | the part on disk is hashed before the request; a missing file raises, a short one is a partial download |
| `Downloader.Downloader.OpenDst` | src/otaclient_common/downloader.py:491-513 | the file is cut to the part continued, or to nothing, and the digest with it |
| `Downloader.RetryCompletesTheCut` | src/otaclient_common/downloader.py:247-301 | what a cut download of a file left is continued to the file by an honest server, from its length on disk |
| `Downloader.RetryAsksToCacheAnew` | src/otaclient_common/downloader.py:150-170 | the second request carries retry_caching and every other directive of the first that had a value |
| `Downloader.HonestServerCompletes` | src/otaclient_common/downloader.py:491-513 | continuing a prefix of a file with an honest server gives the file, whether or not it honours the range |
| `Downloader.ResumeFromProxy` | src/otaclient_common/downloader.py:467-556 | client and proxy together: from a prefix of a cached file the download returns with the whole file, on the small and on the streaming path |
| `Ranges.RangeStartIff` | src/ota_proxy/ota_cache.py:113-117 | the pattern of the range header matches exactly the headers of its form and gives their number |
| `Ranges.RequestIsRead` | src/ota_proxy/ota_cache.py:113-117 | the proxy reads back the offset that the client printed |
| `Ranges.AnswerIsAccepted` | src/otaclient_common/downloader.py:559-576 | the client accepts the proxy's content-range for the offset it asked for and for no other (section 14.4 of RFC 9110) |
| `Ranges.RestCompletes` | src/ota_proxy/ota_cache.py:551-594 | a prefix and the answer for its length are the whole file |
| `Ranges.RetrieveRangeByCacheLookup` | src/ota_proxy/ota_cache.py:551-594 | answers exactly where the cache holds a whole copy reaching past the start, and then with the rest of it |
| `Ranges.StreamReadFile` | src/ota_proxy/cache_streaming.py:602-626 | reading from an offset gives the rest of the file in chunks of the size at most |
| `CsvLines.EscapeRoundTrip` | src/ota_metadata/legacy2/csv_parser.py:47-49 | de_escape undoes the quoting of a path, for every text |
| `CsvLines.TrueSeparatorIff` | src/ota_metadata/legacy2/csv_parser.py:127-129 | the greedy pattern with its lookbehind finds the one true separator if and only if the link is not empty and does not end in a quote and the target is not empty and does not begin with a comma and a quote |
| `CsvLines.PairRoundTripIff` | src/ota_metadata/legacy2/csv_parser.py:132-156 | parsing a printed pair gives it back if and only if that holds |
| `CsvLines.SymlinkRoundTripIff` | src/ota_metadata/legacy2/csv_parser.py:127-156 | so for whole symlink lines, with their mode, owner and group |
| `CsvLines.RegularRoundTripIff` | src/ota_metadata/legacy2/csv_parser.py:197-251 | a regular line of one line is read back, with every form of its tail, if and only if its path is not empty |
| `CsvLines.DirectoryRoundTrip` | src/ota_metadata/legacy2/csv_parser.py:61-88 | a directory line is read back for every path |
| `CsvLines.TailRoundTrip` | src/ota_metadata/legacy2/csv_parser.py:197-251 | size, inode and compression are read back, each absent or present |
| `CsvLines.OwnerRoundTrip` | src/ota_metadata/legacy2/csv_parser.py:61-88 | octal mode, uid and gid are read back |
| `CsvLines.FindSeparator` | src/ota_metadata/legacy2/csv_parser.py:127-129 | the last place at which the separator can match |
| `FileTables.FileTable.ParseRegulars` | src/ota_metadata/legacy2/csv_parser.py:278-359 | for every batch size each regular row is inserted once and in order with its inode and resource number; resources are numbered as first seen; plain inodes consecutively; one row per hardlinked inode with its link count |
| `FileTables.FileTable.ParseDirs` | src/ota_metadata/legacy2/csv_parser.py:91-120 | for every batch size each directory is inserted once and in order with the next inode number |
| `FileTables.FileTable.ParseSymlinks` | src/ota_metadata/legacy2/csv_parser.py:159-188 | the same for symlinks |
| `FileTables.FileTable.ParseImage` | src/ota_metadata/legacy2/metadata.py:269-296 | the three files one after the other, each continuing the numbers of the last |
| `ImageText.ParseText` | src/ota_metadata/legacy2/metadata.py:269-296 | from any text: the tables are those of the rows that the lines say, and every line has to say one |
| `ImageText.PrintedImageIsRead` | src/ota_metadata/legacy2/csv_parser.py:47-251 | the lines that an image prints are read as the image |
| `ImageText.PrintAndParse` | src/ota_metadata/legacy2/metadata.py:269-296 | text to tables: printed and parsed, an image gives its own tables |
| `FileTables.FileTable.AddRow` | src/ota_metadata/legacy2/csv_parser.py:298-329 | a row keeps what is inserted or in a batch equal to what the file gave so far |
| `FileTables.FileTable.Insert` | src/ota_metadata/legacy2/csv_parser.py:331-345 | a batch inserted is neither lost nor doubled |
| `FileTables.FileTable.InsertRest` | src/ota_metadata/legacy2/csv_parser.py:342-358 | the rows left over, then the hardlinked inodes and the resources, complete the tables |
| `FileTables.SetDefault` | src/ota_metadata/legacy2/csv_parser.py:302-304 | a resource gets the number of its first occurrence, a new one the next |
| `FileTables.CountLink` | src/ota_metadata/legacy2/csv_parser.py:308-316 | a hardlinked inode is counted once per row naming it, the first giving its owner |
| `FileTables.ResourcesAreDense` | src/ota_metadata/legacy2/csv_parser.py:302-304 | resource numbers are a bijection between the distinct (digest, size) pairs and 0..n-1 |
| `FileTables.SameResourceIff` | src/ota_metadata/legacy2/csv_parser.py:302-304 | two rows share a resource number exactly if they have the same digest and size |
| `FileTables.InodeIdsUnique` | src/ota_metadata/legacy2/metadata.py:269-296 | no two inodes of the whole image share a number |
| `FileTables.LinksAreCounted` | src/ota_metadata/legacy2/csv_parser.py:308-316 | every hardlinked number named has an inode whose links_count is the number of rows naming it |
| `FileTables.PlainHasItsInode` | src/ota_metadata/legacy2/csv_parser.py:317-322 | a row that is no hardlink has an inode of its own, with its own owner |
| `ManagedConfig.RoundTripIff` | src/otaclient/boot_control/_grub_common.py:79-148 | an exported configuration is validated to itself if and only if its contents hold no marker line and its versions are not empty, trimmed, of one line and do not end like the closing marker |
| `ManagedConfig.VersionCanCloseTheFooter` | src/otaclient/boot_control/_grub_common.py:101-114 | trimmed one-line versions are not enough: a concrete configuration that is not recognised |
| `ManagedConfig.ParseFooter` | src/otaclient/boot_control/_grub_common.py:85-98 | the loop fills the dictionary of the footer's lines, or fails at the first that is no comment |
| `ManagedConfig.FooterIsRead` | src/otaclient/boot_control/_grub_common.py:101-138 | what validation reads of an exported text: the contents, and the lines up to the first closing marker |
| `ManagedConfig.ReadIsPlain` | src/otaclient/boot_control/_grub_common.py:101-138 | whatever text is validated, the versions returned are not empty, trimmed and of one line |
| `CacheControlHeader.UpdateIsOverlayIff` | src/ota_proxy/cache_control_header.py:89-96 | reading an updated header gives the header with the updates put over it, those that do not count resetting theirs, if and only if the updates have no comma and no trailing space and no directive that stays has an empty value |
| `CacheControlHeader.UpdateAt` | src/ota_proxy/cache_control_header.py:89-96 | what each directive of the updated header is, for clean updates |
| `CacheControlHeader.PrintIsRead` | src/ota_proxy/cache_control_header.py:71-86 | printed directives are read back, in their order |
| `CacheControlHeader.ReadIsClean` | src/ota_proxy/cache_control_header.py:43-68 | whatever the header, a value read has no comma and no trailing space, and no directive comes twice |
| `CacheControlHeader.ParseHeader` | src/ota_proxy/cache_control_header.py:57-68 | the loop gathers the known directives, the last of a kind winning |
| `CacheControlHeader.ExportHeader` | src/ota_proxy/cache_control_header.py:71-86 | the loop prints the known directives that count |
| `GrubDefault.UpdateIsIdempotent` | src/otaclient/boot_control/_grub_new.py:616-650 | updating an updated file changes nothing, on every input |
| `GrubDefault.UpdateOverrides` | src/otaclient/boot_control/_grub_new.py:616-650 | reading the updated file gives the required options, none forbidden, and else the last assignment of the old file |
| `GrubDefault.UpdateGrubDefault` | src/otaclient/boot_control/_grub_new.py:616-650 | the loop over the lines computes that update |
| `GrubDefault.OptionsAreLast` | src/otaclient/boot_control/_grub_new.py:627-638 | the dictionary gathered says the last assignment of each option |
| `GrubDefault.PrintIsRead` | src/otaclient/boot_control/_grub_new.py:647-650 | a printed dictionary is read back, in its order |

## Left out

- Jetson and Raspberry Pi controllers, partition detection, mounts, chroot, grub-mkconfig and menuentry rewriting: device plumbing around the same status protocol.
- The downloaded dynamic client, the legacy compatibility folder of GRUB and the version detail file: branches that add no claim.
- The DPI's processes: the DPI answers yes, no or raises; boot ids are numbered in boot order.
- Thread starts that fail: submitting work fails only after a shutdown. The order in which workers take queued work is arbitrary.
- Timeouts, backoff, fadvise, logging and metrics: a wait may end or be given up at any step.
- Durability of atomic writes: a write is on disk when it returns; every rewrite of a status file has a fresh stamp.
- The two flags that an event of the tracker sets are set in one step.
- Cancellation of a provider: a generator closed early is the explicit step CloseEarly, which runs the finally of the stream loop only; what was written then can be committed short of the remote's end.
- The upper response header is assumed to name the requested identifier, as the cache entry's key.
- Provider and subscriber choice, external and NFS caches, the HTTP server: lookups around the modelled answers.
- SQLite, hashing and zstd: a map, a function and an arbitrary stream of chunks; database errors do not occur in the index model, and the url and bucket columns are not modelled.
- CsvLines.SymlinkRoundTripIff: does not model the file type bits that are or-ed into the mode, nor digits and word characters beyond ASCII.
- CsvLines.RegularRoundTripIff: does not model bytes.fromhex of the digest beyond its case; a line that does not match raises in the source and is None here.
- ImageText.ParseText: parses each file before it fills the tables; the source parses line by line and leaves the batches before a bad line inserted.
- FileTables.FileTable.ParseRegulars: does not model the resource table kept for downloads, which ignores duplicates by digest.
- Downloader.Downloader.Download: does not model the traffic counters, retries inside the HTTP library or errors of the local disk.
- Downloader.Downloader.DownloadWithRetry: does not model the digest and the compression that a request through a proxy adds to its cache control header.
- Ranges.AnswerIsAccepted: does not model decimal digits beyond ASCII, which a header cannot carry.
- CacheControlHeader.UpdateIsOverlayIff: no updates at all return the header as it is, which is not part of the equivalence.
- GrubSwitch.StartEventsKept: the old controller's files are whatever they are at a migration, and its symlink does not come back once it is replaced.
- GrubSwitch.SavedEntryIsIntact: the finaliser either rewrites saved_entry and says yes, or raises; a grubenv that grub itself fails to write is not modelled.
- Certificates, tokens, persistent files, protobuf and shared memory wrappers, the user interface and process supervision.
