# Object syncer: tracking and garbage collection, proved in Dafny

The object syncer copies a Kubernetes object into other namespaces and removes the copies
again when their source or the ObjectSync that asked for them goes away. Kubernetes has no
cross-namespace ownership, so the controller keeps its own record of everything it creates,
in `status.destinations`, and guards deletion with finalizers. This project models that
protocol against an abstract API server and proves that it keeps its promises: no copy is
ever left behind without its ObjectSync, a skipped destination never hides drift, an
undisturbed reconcile converges and then falls silent, and the registry of sub-controllers is
exact.

## Structure

| file | contents |
|---|---|
| `Common.dfy` | options, results, error classes |
| `Apis.dfy` | the custom resource and its status updates |
| `Ordering.dfy` | the order on tracked destinations and the stable sort |
| `Targets.dfy` | expected destinations and the difference to the tracked ones |
| `ClusterModel.dfy` | the API server's state, its calls, their guards, the invariant |
| `Interference.dfy` | what others may do between two calls, and what survives it |
| `Runs.dfy` | whole runs: no orphans, no drift behind a skip, the race |
| `ApiServers.dfy` | the API server as a class that fails, loses replies and lets others act |
| `Utils.dfy` | finalizer helpers and bulk deletion |
| `Modifications.dfy` | an ObjectSync as read and as being modified |
| `Upserts.dfy` | creating and updating destinations, with retries |
| `Convergence.dfy` | where undisturbed reconciles end, and settled states |
| `ResourceControllers.dfy` | reconciling one ObjectSync for its source |
| `Removals.dfy` | deleting everything an ObjectSync has created |
| `Lookups.dfy` | reading the ObjectSyncs registered for a source |
| `Rounds.dfy` | their reconciles as rounds between points of the run |
| `SourceReconciles.dfy` | reconciling a source object for all its ObjectSyncs |
| `Registries.dfy` | reference-counted sub-controllers and their indexes |
| `ObjectSyncControllers.dfy` | finalizer, registration and deletion of an ObjectSync |
| `Systems.dfy` | restarts, users and reconciles in any order |
| `Scenarios.dfy` | runs in which the controller misses its aim, or would without an assumption |
| `Annotations.dfy` | the annotation that leads from a copy to its source |

## How the model works

The cluster is a value with objects, ObjectSyncs, the contents of every revision ever assigned, and a
clock. Each object remembers for which ObjectSyncs it was written; no controller code reads
this. A run is a sequence of user actions and controller calls. Each controller call has a guard
(`ClusterModel.Permitted`): write only what is tracked in the persisted status of a finalized ObjectSync,
drop a tracked key only if nothing live is left there, let go of the finalizer only if nothing live is
left at all. `Runs` proves that guarded runs are safe at every point. The class `ApiServer` offers the
calls the code makes; its methods have the guards as preconditions, so every method of the controller is
proved to meet them, whatever happens in between: before each call any number of others' actions
may occur, any call may fail as not-found, conflict or other, and a call that fails may still have been
carried out. A crash needs no step of its own: it is a reconcile whose remaining calls all fail without
effect, followed by a restart with an empty registry, and every state between two calls is a point of the run.

Contracts speak of a stretch of the run: whether it was *alone* (nobody else acted), *calm* (nothing failed
either) and *idle* (no call but reads was issued); whole reconciles of a source also tell which record of
the log, and which failure, belongs to which ObjectSync. Safety clauses hold for every stretch; convergence and
quiescence are stated for calm ones.

## Assumptions

The code does not enforce these; the proofs rest on them.

- Reconciles of one ObjectSync by the two controllers do not interleave, and each starts from a fresh
  read. `Runs.InterleavedReconcilesOrphan` shows what happens otherwise.
- While a reconcile runs, nobody else drops our finalizer from a registered ObjectSync: of two concurrent
  reconciles, a deletion counts as having deregistered its ObjectSync before the other one begins. From
  its deregistration on a deletion may proceed in between the calls of the other (`Systems.BeginDeletion`).
- Users do not edit an ObjectSync's status and do not strip its finalizer.
- Namespace names in the cache are distinct.
- A not-found answer to the deletion of an object is truthful; `Scenarios.FalseNotFoundOrphans` shows what happens
  otherwise. Reads may answer falsely that an object is not there.

## What was found false, and exactly when it is true

- A second reconcile of a converged state issues no call if and only if no two spec destinations resolve to the same
  namespace and name (`ResourceControllers.ReconcileSource`, `ResourceControllers.RepeatedReconcile`). Otherwise the
  repeated entry never keeps its revisions, no state is settled, and every undisturbed reconcile of destinations
  without foreign finalizers writes again; `Convergence.OverlapHappens` has such a spec.
- A move registers the source the ObjectSync names *after* its status was written, and that write answers with the
  newest spec (`Runs.StatusWriteAnswersNewestSpec`). If a user has meanwhile set the
  spec back, the new registration is the one the check's clone still stands for, and dropping the clone erases
  it: the ObjectSync stays in the table of instances but in no index, and later checks see no change
  (`Scenarios.MovedBackRegistersTheSame`, `Scenarios.MovedBackIsLost`, `Scenarios.MovingBackLoses`). A registration is
  lost if and only if a move ends where it started (`ObjectSyncControllers.Enlist`,
  `Registries.Registry.Reregister`).
- A source gets the finalizer before anything is made from it only if that call is accepted; the
  reconciles follow even if it is refused (`SourceReconciles.ReconcileLive`).
- The call for the finalizer does not only update: on a stale revision of a source that is already gone it makes an
  empty object in its place, if and only if the finalizer is missing as seen and the object absent
  in the store (`Utils.AddFinalizerIfMissing`, `SourceReconciles.SourceIsConjuredIff`, `Scenarios.StaleSourceIsConjured`).
- A deleted source is released although copies made from it live, in two cases: reading one of its ObjectSyncs failed,
  which is swallowed (`Scenarios.FailedReadLeavesCopy`), or a user has edited its spec to name another
  source and the source's deletion is reconciled first, in which nothing needs to fail
  (`Scenarios.EditedSpecLeavesCopy`). At release no live copy of a registered ObjectSync is left if and only if
  each of them was read and still named the source, or has no live copy anyway
  (`SourceReconciles.ReleaseIsCompleteIff`); undisturbed, if and only if each was so read, or has live copies only
  where one of those found tracks the same key (`SourceReconciles.UndisturbedReleaseIsCompleteIff`).

## Model

| member | source | states |
|---|---|---|
| `Runs.NoOrphansEver` | rustrial-k8s-object-syncer/src/object_sync_controller.rs:322-424 | At every point of every legal run, of any length and interleaving, a live object written for an ObjectSync has that very ObjectSync (same uid) still existing, finalized and listing the object's key in its persisted status. |
| `Runs.LegalRunIsSound` | rustrial-k8s-object-syncer/src/resource_controller.rs:393-436 | The protocol invariant (well-formed store, write-ahead tracking, truthful revision records) holds after every legal run. |
| `Runs.SkippingLeavesNoDrift` | rustrial-k8s-object-syncer/src/resource_controller.rs:249-299 | At every point of every legal run: if the tracked revisions equal the destination's current one and the given source's, the destination agrees with the source template (exactly under Replace, on all template fields under Apply). |
| `Runs.InterleavedReconcilesOrphan` | rustrial-k8s-object-syncer/src/object_sync_modifications.rs:89-100 | Why reconciles of one ObjectSync must not interleave: a concrete run in which a status written from a stale read, with the forced latest resource version, loses tracking and ends in an orphan. Of its controller calls exactly two miss their guard: that status write and, as its consequence, the final drop of the finalizer. |
| `Scenarios.FalseNotFoundOrphans` | rustrial-k8s-object-syncer/src/utils.rs:257-280 | Why not-found answers to deletions are assumed to be truthful: a concrete run in which one that is not, with no other failure and no interference, ends in an orphan; only the two calls that follow from it miss their guards. |
| `Runs.StatusWriteAnswersNewestSpec` | rustrial-k8s-object-syncer/src/object_sync_modifications.rs:89-100 | With the forced latest resource version a status write from an older read is accepted, and its reply, which replaces the ObjectSync in hand, names the newest spec. |
| `Runs.TrackedIsNotOrphaned` | rustrial-k8s-object-syncer-apis/src/lib.rs:253-259 | Write-ahead tracking implies that there are no orphans. |
| `ClusterModel.CallKeepsSound` | rustrial-k8s-object-syncer/src/resource_controller.rs:393-436 | Every controller call that meets its guard keeps the invariant. |
| `ClusterModel.UsersMay` | rustrial-k8s-object-syncer/src/object_sync_controller.rs:322-424 | What users can bring about: any contents and finalizers of an object, its deletion, and any spec of an ObjectSync. |
| `ClusterModel.UserKeepsSound` | rustrial-k8s-object-syncer/src/object_sync_controller.rs:322-424 | Nothing a user does to objects or ObjectSyncs breaks it (users leave status and our finalizer alone). |
| `ClusterModel.StatusWriteIsSafeIff` | rustrial-k8s-object-syncer/src/object_sync_modifications.rs:89-100 | An accepted status write keeps the invariant if and only if it lists every live copy and records nothing false. |
| `Interference.ToleratedKeeps` | rustrial-k8s-object-syncer/src/resource_controller.rs:393-436 | What a running reconcile relies on (status and finalizer of its ObjectSync, no new copies, revisions keep their contents) survives every action of others. |
| `Interference.OwnCallKeeps` | rustrial-k8s-object-syncer/src/resource_controller.rs:393-436 | A call made for one ObjectSync keeps what concurrent reconciles of all others rely on. |
| `Interference.PermittedIsStable` | rustrial-k8s-object-syncer/src/resource_controller.rs:397-401 | A guard once met stays met while only others act, so the check before a call is still valid when the call arrives. |
| `Interference.PersistedLists` | rustrial-k8s-object-syncer-apis/src/lib.rs:253-259 | In a sound state the persisted status lists every live copy of its ObjectSync. |
| `Systems.Operate` | rustrial-k8s-object-syncer/src/object_sync_controller.rs:427-471 | The whole controller over any sequence of restarts, user actions, reconciles of both controllers and deletions going on elsewhere: no orphans and full tracking at every point of the resulting run, each event in turn comes to what it should, and exact indexes between reconciles. |
| `Systems.ReconcileObjectSync` | rustrial-k8s-object-syncer/src/object_sync_controller.rs:427-471 | An ObjectSync reconcile keeps: every registered ObjectSync is finalized, no check clone is left, the run stays legal. Nothing happens to one that does not exist or is in no namespace to watch (none listed, its own listed, or a wildcard); one being deleted is deregistered and, undisturbed, has nothing live left; any other ends, undisturbed, registered for the resource discovered and the source its spec names. |
| `Systems.ReconcileSourceObject` | rustrial-k8s-object-syncer/src/resource_controller.rs:506-614 | A source reconcile, for any revision a watch may have delivered, keeps the same, and tells the story of a deletion or of a maintenance for exactly the ObjectSyncs registered for that source and not lost, if its namespace is to be looked at. |
| `Systems.IndexedIsRegistered` | rustrial-k8s-object-syncer/src/resource_controller.rs:479-487 | What a source looks up in its index is in the table of instances. |
| `Systems.RunIsSafe` | rustrial-k8s-object-syncer/src/object_sync_controller.rs:322-424 | A valid server state is the replay of its recorded run, and every prefix of that run is free of orphans and fully tracked. |
| `Systems.BeginDeletion` | rustrial-k8s-object-syncer/src/object_sync_controller.rs:322-326 | An ObjectSync whose deletion begins elsewhere is deregistered first; from then on its finalizer is not protected and its calls are others' actions. |
| `ApiServers.ApiServer.EveryWriteIsInformed` | rustrial-k8s-object-syncer/src/resource_controller.rs:224-310 | Compare-and-swap, for every own create or update of a destination that the run holds: the log has it, at the moment of its place in the run, directly after the read of that key which reported absence, or exactly the revision being replaced (at most a refused finalizer removal between); and if it took effect, the key was absent, or held exactly that uid and version, when it did. |
| `ApiServers.ApiServer.Get` | rustrial-k8s-object-syncer/src/resource_controller.rs:228-228 | A read after arbitrary interference, which may fail in any way; even a not-found answer may be false, and then counts as a failure. |
| `ApiServers.ApiServer.GetSync` | rustrial-k8s-object-syncer/src/resource_controller.rs:439-466 | A read of an ObjectSync, which may fail in any way. |
| `ApiServers.ApiServer.Create` | rustrial-k8s-object-syncer/src/resource_controller.rs:301-310 | Creation, allowed only for a key tracked in the persisted status of the finalized owner, right after absence was read; undisturbed it is a conflict exactly if something is there. |
| `ApiServers.ApiServer.Update` | rustrial-k8s-object-syncer/src/resource_controller.rs:253-269 | Replace or forced apply of exactly the revision read, undisturbed a conflict for any other; on success the payload agrees with the template and the finalizer is on. |
| `ApiServers.ApiServer.PatchFinalizers` | rustrial-k8s-object-syncer/src/utils.rs:181-224 | Patch of the finalizer list: nothing is revived, and a terminating object without finalizers is gone. |
| `ApiServers.ApiServer.DeleteObject` | rustrial-k8s-object-syncer/src/utils.rs:257-280 | After an accepted or not-found deletion nothing live is left at the key. |
| `ApiServers.ApiServer.ApplyFinalizer` | rustrial-k8s-object-syncer/src/utils.rs:135-179 | Server-side apply of one finalizer. |
| `ApiServers.ApiServer.WriteStatus` | rustrial-k8s-object-syncer/src/object_sync_modifications.rs:89-100 | Status replacement, allowed only if the new list covers every live copy and is truthful; undisturbed accepted exactly for the version stored; on success it is what is persisted. |
| `ApiServers.ApiServer.WriteSyncFinalizers` | rustrial-k8s-object-syncer/src/object_sync_modifications.rs:147-184 | Patch of an ObjectSync's finalizers; letting go of ours is allowed only when nothing live is left. |
| `Apis.SubmitEffect` | rustrial-k8s-object-syncer-apis/src/lib.rs:329-347 | One condition update: still one condition per type; the type then tells exactly the submitted status, reason, message and observed generation; its transition time moves exactly if one of these four differed; other types are untouched. |
| `Apis.SubmittedIsFound` | rustrial-k8s-object-syncer-apis/src/lib.rs:329-347 | The submitted status, reason, message and observed generation can be read off afterwards, even from a list with duplicates. |
| `Apis.LastSubmissionWins` | rustrial-k8s-object-syncer-apis/src/lib.rs:329-347 | Over any sequence of updates each type tells what was submitted last for it. |
| `Apis.SubmittedOnePerType` | rustrial-k8s-object-syncer-apis/src/lib.rs:329-347 | Over any sequence of updates from a duplicate-free list there is at most one condition per type. |
| `Ordering.PlaceOrder` | rustrial-k8s-object-syncer-apis/src/lib.rs:242-249 | The order by namespace, then name is total and antisymmetric on places. |
| `Ordering.PlaceTransitive` | rustrial-k8s-object-syncer-apis/src/lib.rs:242-249 | And transitive. |
| `Ordering.StableSortSpec` | rustrial-k8s-object-syncer/src/resource_controller.rs:402-403 | Sorting yields a sorted permutation in which entries at one place keep their order. |
| `Ordering.SortedInOrder` | rustrial-k8s-object-syncer-apis/src/lib.rs:242-249 | Spelled out: in the sorted list namespaces ascend, and names within a namespace, where a prefix comes first and otherwise the first characters that differ decide. |
| `Ordering.TextLeqMeans` | rustrial-k8s-object-syncer-apis/src/lib.rs:242-249 | The comparison of texts is that lexicographic order. |
| `Ordering.SortedIsDetermined` | rustrial-k8s-object-syncer/src/resource_controller.rs:402-403 | A sorted list is determined by what it holds at each place, although the order ignores all other fields. |
| `Ordering.SortDependsOnGroups` | rustrial-k8s-object-syncer/src/resource_controller.rs:402-403 | The sorted list depends only on the entries at each place. |
| `Annotations.SplitIsExact` | rustrial-k8s-object-syncer/src/resource_controller.rs:727-729 | Splitting at the first slash loses nothing and leaves no slash before it. |
| `Annotations.RoundTrip` | rustrial-k8s-object-syncer/src/resource_controller.rs:184-191 | Printing and parsing the source annotation leads back if and only if the destination is in a target namespace, the name is not empty and the namespace has no slash. |
| `Annotations.ParsedWasPrinted` | rustrial-k8s-object-syncer/src/resource_controller.rs:727-736 | Whatever is parsed is the print of what was parsed. |
| `Annotations.DestinationLeadsBack` | rustrial-k8s-object-syncer/src/resource_controller.rs:179-191 | A destination that still carries its template has the managed-by label and an annotation that leads back to its source. |
| `Targets.EnumerationIsUniformFilter` | rustrial-k8s-object-syncer/src/resource_controller.rs:138-167 | The wildcard scan and the single-namespace lookup both equal one filter over the live namespaces. |
| `Targets.AdmittedMeaning` | rustrial-k8s-object-syncer-apis/src/lib.rs:155-183 | A pair is admitted if and only if the namespace is cached and live and the entry asks for the pair: its namespace is empty, a wildcard or the pair's; the name is the entry's or, without one, the source's; the strategy is the entry's; and the pair is not the source itself, whose namespace is the ObjectSync's own unless the spec names one. |
| `Targets.ExpectedMeaning` | rustrial-k8s-object-syncer/src/resource_controller.rs:138-167 | The expected targets are exactly those in a live cached namespace that some spec entry asks for, in these terms. |
| `Targets.ExpectedIsSafe` | rustrial-k8s-object-syncer/src/resource_controller.rs:147-163 | No expected target is the source itself or lies in a terminating or unknown namespace, and some spec entry asks for it. |
| `Targets.PlannedAt` | rustrial-k8s-object-syncer/src/resource_controller.rs:365-392 | Each planned entry has its target's name, namespace and strategy and the resource's group, version and kind, and carries revisions if and only if this is the first occurrence of its place, a tracked entry has the key, and both or neither are to be replaced. |
| `Targets.PlannedKeys` | rustrial-k8s-object-syncer/src/resource_controller.rs:365-392 | The plan has exactly the expected keys. |
| `Targets.DifferenceIsPartition` | rustrial-k8s-object-syncer/src/resource_controller.rs:376-403 | Expected keys never collide with stale or remnant ones, and together they cover what was tracked. |
| `Targets.CacheOrderIndependence` | rustrial-k8s-object-syncer/src/resource_controller.rs:402-403 | For any two orders of a cache with distinct names, the stored list and the stale list are identical, even with overlapping destinations. |
| `Targets.StoredListIsFixpoint` | rustrial-k8s-object-syncer/src/resource_controller.rs:376-406 | With distinct targets the stored list, revisions filled in, is planned again unchanged and leaves nothing stale. |
| `Targets.PlannedAtPlace` | rustrial-k8s-object-syncer/src/resource_controller.rs:365-392 | The plan made for the targets of one place is the part of the whole plan at this place. |
| `Targets.AdmittedAtPlace` | rustrial-k8s-object-syncer/src/resource_controller.rs:144-151 | One spec entry contributes at most one target per place, whatever the cache order. |
| `Utils.Dropped` | rustrial-k8s-object-syncer/src/utils.rs:191-192 | Exactly the given finalizer is gone, every other one is kept as often as it was, and the list is shorter exactly if it was there. |
| `Utils.RemoveFinalizer` | rustrial-k8s-object-syncer/src/utils.rs:181-224 | No call without the finalizer; otherwise one call, not-found counts as success, and a failure is the call's and restores the object in hand. |
| `Utils.AddFinalizerIfMissing` | rustrial-k8s-object-syncer/src/utils.rs:135-179 | No call if the finalizer is there as seen; otherwise it is on the stored object after success. Undisturbed, an empty object comes into being if and only if the finalizer is missing as seen and the object is absent. |
| `Utils.DeleteDestination` | rustrial-k8s-object-syncer/src/utils.rs:230-280 | One deletion: it begins with a read, and a failed read is all of it and its failure; otherwise the log ends with the deletion, which counts exactly if accepted or not found; success means nothing live is left; undisturbed and without foreign finalizers the object is gone; at most three calls. |
| `Utils.DeleteDestinations` | rustrial-k8s-object-syncer/src/utils.rs:226-283 | An in-order subsequence of the input is returned, each with a refused deletion in the log, or the log ends with a failed read; nothing live written for the ObjectSync is left at any other input key, whatever others did; undisturbed, other keys are untouched and nothing is returned. |
| `Modifications.ObjectSyncModifications.constructor` | rustrial-k8s-object-syncer/src/object_sync_modifications.rs:38-41 | Original and modified start equal. |
| `Modifications.ObjectSyncModifications.UpdateCondition` | rustrial-k8s-object-syncer-apis/src/lib.rs:329-347 | The in-place update computes the specified submission. |
| `Modifications.ObjectSyncModifications.UpdateDestinations` | rustrial-k8s-object-syncer-apis/src/lib.rs:349-351 | The in-place update stores the list and keeps the conditions. |
| `Modifications.ObjectSyncModifications.ReplaceStatus` | rustrial-k8s-object-syncer/src/object_sync_modifications.rs:80-87 | No call without a difference; after success original, modified and persisted status agree; after failure the original is kept, the log ends with the failed read or write, and the error is that call's. |
| `Modifications.ObjectSyncModifications.StoreStatus` | rustrial-k8s-object-syncer/src/object_sync_modifications.rs:89-100 | The write carries the latest resource version and its reply replaces both copies. |
| `Modifications.ObjectSyncModifications.PatchSpec` | rustrial-k8s-object-syncer/src/object_sync_modifications.rs:102-184 | No call without a difference; otherwise the log tells: a failed read fails it, a stored object as wanted needs no patch, a stored version that has moved on makes it a conflict without a patch, and else the one patch decides; success decides whether our finalizer is on the persisted object. |
| `Modifications.ObjectSyncModifications.StoreFinalizers` | rustrial-k8s-object-syncer/src/object_sync_modifications.rs:147-184 | The patched finalizers are the persisted ones, and a terminating ObjectSync without any is gone. |
| `Upserts.MatchingRevisionsAgree` | rustrial-k8s-object-syncer/src/resource_controller.rs:249-256 | Matching revisions in a true record mean that the destination agrees with the template. |
| `Upserts.RecordedIsTrue` | rustrial-k8s-object-syncer/src/resource_controller.rs:271-278 | What a write records is true of the revision it produced. |
| `Upserts.AgreesMeans` | rustrial-k8s-object-syncer/src/resource_controller.rs:179-191 | Agreement with the template means to be a copy of the source: every field of the source other than the managed-by label and the source annotation is there with its value, these two hold the controller's name and the source's namespace and name, and under replacement there is no other field. |
| `Upserts.Overwrite` | rustrial-k8s-object-syncer/src/resource_controller.rs:256-295 | One replace or apply: success records exactly the written revision; conflict and not-found are retried, anything else gives up. |
| `Upserts.CreateAbsent` | rustrial-k8s-object-syncer/src/resource_controller.rs:301-326 | One creation: success leaves a live, agreeing, recorded destination; only a conflict is retried. |
| `Upserts.FinishOff` | rustrial-k8s-object-syncer/src/resource_controller.rs:230-248 | A terminating destination is released so that it can vanish and be created anew. |
| `Upserts.Refresh` | rustrial-k8s-object-syncer/src/resource_controller.rs:229-300 | An object that was read is finished off, skipped or overwritten; a skip writes nothing. |
| `Upserts.Follow` | rustrial-k8s-object-syncer/src/resource_controller.rs:228-333 | The skip branch never leaves drift; nothing but the destination is touched; what a calm attempt leaves. |
| `Upserts.Attempt` | rustrial-k8s-object-syncer/src/resource_controller.rs:224-333 | One attempt with its read: between one and three calls, and at least two if it asks for a retry. |
| `Upserts.UpsertDestination` | rustrial-k8s-object-syncer/src/resource_controller.rs:213-341 | At most three attempts and nine calls; success means that the entry records the source revision and a revision of the destination that held a copy of the source, a change that the destination holds one now; undisturbed it ends live and as a copy, also from a terminating destination, and writes nothing if all was up to date; every write logged is to the entry's own key and carries exactly the source's fields and the two marks, by replacement only if the entry asks for it. |
| `Upserts.UpsertMeans` | rustrial-k8s-object-syncer/src/resource_controller.rs:179-341 | That reading of an upsert, field by field. |
| `Upserts.GaveUpForAReason` | rustrial-k8s-object-syncer/src/resource_controller.rs:213-341 | An upsert gives up only with a hard failure as its last record, or after three attempts, each a read and at least one more call on the destination. |
| `Upserts.CountsAgree` | rustrial-k8s-object-syncer/src/resource_controller.rs:196-204 | Observed never exceeds expected, so the subtraction cannot underflow; they are equal if and only if every non-remnant was counted. |
| `Upserts.UpsertUnlessRemnant` | rustrial-k8s-object-syncer/src/resource_controller.rs:205-212 | Remnants are skipped without any call. |
| `Upserts.UpsertDestinations` | rustrial-k8s-object-syncer/src/resource_controller.rs:169-344 | For every failure pattern: entries keep all but their revisions, every counted one records the source revision, at most nine calls per expected destination, no object but the expected destinations is written, deleted or patched, and the log has a part for each of them in turn, whatever became of the others. |
| `Upserts.UncountedForAReason` | rustrial-k8s-object-syncer/src/resource_controller.rs:204-343 | Every expected destination that does not count was given up in its own part of the log, for a hard failure or after three attempts. |
| `Upserts.ProgressTally` | rustrial-k8s-object-syncer/src/resource_controller.rs:196-343 | The two counts returned agree exactly if every expected destination was counted. |
| `ResourceControllers.MatchTargets` | rustrial-k8s-object-syncer/src/resource_controller.rs:358-392 | The find-and-retain loop computes the plan, whose entries take name, namespace and strategy from their targets and group, version and kind from the resource, and leaves exactly the tracked entries that are at no target's place or of another kind, in order. |
| `ResourceControllers.StoredKeys` | rustrial-k8s-object-syncer/src/resource_controller.rs:402-404 | The stored list has exactly the expected and the remnant keys. |
| `ResourceControllers.PlannedIsTruthful` | rustrial-k8s-object-syncer/src/resource_controller.rs:380-386 | Carrying revisions over, also across strategy changes, keeps records true. |
| `ResourceControllers.StoredListIsSafe` | rustrial-k8s-object-syncer/src/resource_controller.rs:393-404 | Dropping stale entries loses no live copy. |
| `ResourceControllers.DeleteStale` | rustrial-k8s-object-syncer/src/resource_controller.rs:393-396 | After deleting what is stale, the list about to be stored may be stored. |
| `ResourceControllers.StoreDestinations` | rustrial-k8s-object-syncer/src/resource_controller.rs:397-406 | The list is persisted, without a call if nothing changed. |
| `ResourceControllers.PrepareStatus` | rustrial-k8s-object-syncer/src/resource_controller.rs:358-406 | First half: stale entries are deleted and the plan is persisted before anything is created. |
| `ResourceControllers.UpsertListed` | rustrial-k8s-object-syncer/src/resource_controller.rs:407-412 | The recorded revisions are taken over into the status; the result may be stored. |
| `ResourceControllers.StoreCondition` | rustrial-k8s-object-syncer/src/resource_controller.rs:430-435 | A condition is submitted and persisted. |
| `ResourceControllers.SyncDestinations` | rustrial-k8s-object-syncer/src/resource_controller.rs:407-436 | Second half: upsert, and if anything changed a fresh InSync condition with both counts. |
| `ResourceControllers.InSyncIsHonest` | rustrial-k8s-object-syncer/src/resource_controller.rs:413-420 | If the reconcile noted a change, as it has whenever the list differs from the one stored before, or deleted anything stale, InSync is True with reason Success if and only if every non-remnant destination was counted, and then records the source's revision, and False with reason Failure otherwise; its message states the two counts. |
| `ResourceControllers.DecimalIsExact` | rustrial-k8s-object-syncer/src/resource_controller.rs:413-420 | The numbers in messages are decimal numerals that stand for the counts, without leading zeros. |
| `ResourceControllers.ReconcileSource` | rustrial-k8s-object-syncer/src/resource_controller.rs:353-437 | Whatever others do: the guards of all calls are met and the finalizer stays; accounting; each destination counted records a revision that held a copy of the source as its strategy asks; it fails only with a failed call of its own, each remnant was refused, and each expected destination was attempted; every object write logged is of an expected destination, every deletion of a tracked or expected one. Undisturbed: convergence from any valid state; and from any state in which an undisturbed reconcile ends, no call at all if and only if no two expected targets coincide. |
| `ResourceControllers.CountedAreCopies` | rustrial-k8s-object-syncer/src/resource_controller.rs:179-204 | Whatever counts as in sync records the source's revision and one of its destination that held a copy of the source, field by field. |
| `ResourceControllers.RepeatedReconcile` | rustrial-k8s-object-syncer/src/resource_controller.rs:353-437 | What a reconcile's contract says about repetition: without foreign finalizers an undisturbed one issues no call if and only if it starts settled, and always issues one if two expected targets coincide; started where an undisturbed one ended, it issues none if and only if they are distinct. |
| `ResourceControllers.WritesAreSafe` | rustrial-k8s-object-syncer/src/resource_controller.rs:138-167 | What may be written lies in a live cached namespace, is of the source's kind and is not the source. |
| `Convergence.ConvergedMeans` | rustrial-k8s-object-syncer/src/resource_controller.rs:353-437 | Convergence in a user's terms: the status lists exactly the expected keys; at every target's namespace and name there is a live object, held by no foreign finalizer, with every field of the source and the two marks, and with no other field if the last target there is to be replaced; and everything else once tracked is gone. |
| `Convergence.SpecIsServed` | rustrial-k8s-object-syncer/src/resource_controller.rs:138-437 | From the spec to the cluster: after convergence, wherever a spec entry asks for a copy in a live namespace, there is a live one with every field of the source; with disjoint entries, one under Replace has nothing else. |
| `Convergence.SettledIffDistinct` | rustrial-k8s-object-syncer/src/resource_controller.rs:376-406 | A converged state is settled, that is, everything stored is what would be stored next and up to date, if and only if no two spec destinations resolve to the same namespace and name. |
| `Convergence.DistinctSettles` | rustrial-k8s-object-syncer/src/resource_controller.rs:376-406 | Distinct targets settle. |
| `Convergence.OverlapForgets` | rustrial-k8s-object-syncer/src/resource_controller.rs:376-390 | With overlapping destinations the list stored next has an entry without revisions. |
| `Convergence.OverlapNeverSettles` | rustrial-k8s-object-syncer/src/resource_controller.rs:376-390 | So no state at all is settled then. |
| `Convergence.OverlapHappens` | rustrial-k8s-object-syncer-apis/src/lib.rs:155-183 | Such a spec: one destination for a namespace and one for all of them expect the same target twice as soon as that namespace exists. |
| `Convergence.ConvergedAgain` | rustrial-k8s-object-syncer/src/resource_controller.rs:376-404 | A converged state is also where a reconcile from its own list would end: apart from revisions the stored list does not depend on what was tracked. |
| `Convergence.SettledInAnyOrder` | rustrial-k8s-object-syncer/src/resource_controller.rs:402-403 | A settled state is settled however the namespace cache enumerates. |
| `Convergence.ExpectedDependsOn` | rustrial-k8s-object-syncer/src/resource_controller.rs:138-167 | What is expected depends only on spec, the ObjectSync's namespace and the cache. |
| `Convergence.SecondReconcileIsSettled` | rustrial-k8s-object-syncer/src/resource_controller.rs:353-437 | After one undisturbed reconcile, with spec, namespaces and destinations unchanged, a fresh read finds everything settled. |
| `Removals.RemainingIsSafe` | rustrial-k8s-object-syncer/src/object_sync_controller.rs:275-302 | What could not be deleted still covers every live copy. |
| `Removals.DeleteTracked` | rustrial-k8s-object-syncer/src/object_sync_controller.rs:271-320 | Success means nothing is tracked and nothing live is left; it fails only with a failed call of its own or with what was refused still listed; undisturbed, everything tracked without foreign finalizers is gone; no object but the tracked ones is deleted or patched. |
| `Removals.RemovalMeans` | rustrial-k8s-object-syncer/src/object_sync_controller.rs:279-302 | What a removal means: among the rest, the InSync condition is True with reason Success and the number removed, or False with reason Failure and the numbers left and tracked. |
| `Removals.StoreRemaining` | rustrial-k8s-object-syncer/src/object_sync_controller.rs:279-318 | What is left is recorded, and it is an error if anything is. |
| `Lookups.GetObjectSync` | rustrial-k8s-object-syncer/src/resource_controller.rs:439-466 | One read, which is in the log with the state it answered from; any failure yields nothing. |
| `Lookups.LookupObjectSyncs` | rustrial-k8s-object-syncer/src/resource_controller.rs:468-503 | One logged read for each registered ObjectSync and no other call; found are exactly those read that still name this source, each once; without failures all are read and none is missed. |
| `Lookups.FoundWasRead` | rustrial-k8s-object-syncer/src/resource_controller.rs:488-496 | An ObjectSync is found if and only if it was read and names the source. |
| `SourceReconciles.ClearOne` | rustrial-k8s-object-syncer/src/resource_controller.rs:129-135 | Success means the ObjectSync tracks nothing and nothing live is left of it; failure has a failed call of its own. |
| `SourceReconciles.ClearAll` | rustrial-k8s-object-syncer/src/resource_controller.rs:531-543 | Every ObjectSync found has its removal, whatever becomes of the others: the rounds follow each other in run, log and failure counts without gaps from the start to the end. Each that succeeded is cleared, also at the end, and only tracked destinations are touched. |
| `SourceReconciles.ReleaseSource` | rustrial-k8s-object-syncer/src/resource_controller.rs:545-555 | May be called only in a state where every ObjectSync found is cleared; the one call it logs removes our finalizer from the source, and there is none if the source does not have it. |
| `SourceReconciles.SyncOne` | rustrial-k8s-object-syncer/src/resource_controller.rs:566-574 | One ObjectSync found is reconciled for the source, and after a success the persisted status is the one the reconcile ended with. |
| `SourceReconciles.SyncAll` | rustrial-k8s-object-syncer/src/resource_controller.rs:566-575 | Every ObjectSync found is reconciled in its turn, whatever becomes of the others: the rounds follow each other in run, log and failure counts without gaps from the start to the end, each is calm exactly if its own counts did not move, and each that fails has a failed call of its own. |
| `SourceReconciles.ReconcileDeleted` | rustrial-k8s-object-syncer/src/resource_controller.rs:531-555 | First the reads, then a removal for each ObjectSync found; a deleted source is released only if all of them succeeded, after a point of the run at which all found are cleared, and the release is all that follows in the log; it is held back only if one of them failed; without failures none is missed. |
| `SourceReconciles.ReleaseIsCompleteIff` | rustrial-k8s-object-syncer/src/resource_controller.rs:488-555 | At release no live copy of any registered ObjectSync is left if and only if each of them was read and still named the source, or has none anyway. |
| `SourceReconciles.UndisturbedReleaseIsCompleteIff` | rustrial-k8s-object-syncer/src/resource_controller.rs:488-555 | Undisturbed, the state at the start decides: if and only if each of them was read and still named the source, or has live copies only where one of those found tracks the same key. |
| `Scenarios.CopyIsExpected` | rustrial-k8s-object-syncer/src/resource_controller.rs:138-167 | The destination recorded and created in the runs below is exactly the one expected for the spec they start from. |
| `Scenarios.EditedSpecLeavesCopy` | rustrial-k8s-object-syncer/src/resource_controller.rs:488-496 | A concrete legal run (source, ObjectSync naming it, finalizers, tracked copy made from it, source deleted, spec edited to name another) after which a reconcile with no failure and no interference releases the source while the copy lives. |
| `Scenarios.FailedReadLeavesCopy` | rustrial-k8s-object-syncer/src/resource_controller.rs:454-464 | The same run without the edit, continued to a complete past of the server: the one read fails, the source is released and gone, and the copy lives. |
| `SourceReconciles.ReconcileLive` | rustrial-k8s-object-syncer/src/resource_controller.rs:556-575 | First the reads, then, if the source as seen lacks it, the call for the finalizer, which is on at that point of the run if the call was accepted; from then on, accepted or refused, the rounds of all ObjectSyncs found, each persisted if it succeeded. |
| `SourceReconciles.SourceIsConjuredIff` | rustrial-k8s-object-syncer/src/utils.rs:135-179 | A source that is gone is brought back as an empty object if and only if it lacks the finalizer as seen and is absent when the call for the finalizer is carried out. |
| `Scenarios.StaleSourceIsConjured` | rustrial-k8s-object-syncer/src/utils.rs:135-179 | A concrete legal run, and a reconcile of the revision delivered before the deletion, after which it is so. |
| `Rounds.RoundConverges` | rustrial-k8s-object-syncer/src/resource_controller.rs:566-575 | Whatever the other rounds did: a round whose own counts of interference and failures did not move succeeds and ends converged, and one left alone stays within what its ObjectSync tracks and expects. |
| `Rounds.RoundFailsByItself` | rustrial-k8s-object-syncer/src/resource_controller.rs:566-575 | A failed round ends with a failed call of its own: the read of something stale, or a read or status write of its ObjectSync. |
| `SourceReconciles.MaintainedConverges` | rustrial-k8s-object-syncer/src/resource_controller.rs:556-575 | Failures stay where they happen: with nobody else acting and no destination shared, every ObjectSync found for which nothing failed has succeeded and is converged in the end, whatever failed for the others. |
| `SourceReconciles.MaintainedIsQuietIff` | rustrial-k8s-object-syncer/src/resource_controller.rs:556-575 | Started from such an end, an ObjectSync for which nothing fails causes no call if and only if no two of its expected targets coincide. |
| `Rounds.ConvergedCarriesOver` | rustrial-k8s-object-syncer/src/resource_controller.rs:556-575 | Where a round ended converged, the next one, from a fresh read with spec and namespaces unchanged, starts converged. |
| `SourceReconciles.ReconcileUnreferenced` | rustrial-k8s-object-syncer/src/resource_controller.rs:588-613 | An unreferenced source is let go, with one call at most, but a live object with the source annotation is not touched. |
| `SourceReconciles.Reconcile` | rustrial-k8s-object-syncer/src/resource_controller.rs:506-614 | Consulted are the ObjectSyncs registered for the source, if its namespace is to be looked at: no list of namespaces, an empty one, one with it or one with a wildcard. Which of the three cases applies, and that the run and the log tell the story of that case to its end. |
| `Registries.Enrol` | rustrial-k8s-object-syncer/src/resource_controller.rs:815-830 | Registering adds exactly one pair to the index and leaves no empty set. |
| `Registries.Strike` | rustrial-k8s-object-syncer/src/resource_controller.rs:57-67 | Dropping a handle takes exactly its pair off the index and leaves no empty set. |
| `Registries.LateDropErasesIff` | rustrial-k8s-object-syncer/src/resource_controller.rs:57-67 | A drop after a new registration erases it from the index if and only if both are for the same source. |
| `Registries.CloneDropErasesIff` | rustrial-k8s-object-syncer/src/object_sync_controller.rs:372-402 | The same for the books: giving up the clone that last refers to the old handle erases the new registration if and only if it is at the same controller for the same source. |
| `Registries.DropConsistent` | rustrial-k8s-object-syncer/src/resource_controller.rs:57-67 | Giving up an instance keeps counts, indexes and weak references consistent. |
| `Registries.CloneConsistent` | rustrial-k8s-object-syncer/src/object_sync_controller.rs:372-375 | So does cloning one. |
| `Registries.StartConsistent` | rustrial-k8s-object-syncer/src/object_sync_controller.rs:236-249 | So does starting a controller where no live one serves the resource. |
| `Registries.EnrolConsistent` | rustrial-k8s-object-syncer/src/resource_controller.rs:815-841 | So does a new registration. |
| `Registries.IndexIsInverse` | rustrial-k8s-object-syncer/src/resource_controller.rs:815-841 | An ObjectSync is in the index for a source at the live controller for a resource if and only if some holder has an instance for them that is not lost; no set is empty. |
| `Registries.OneLiveController` | rustrial-k8s-object-syncer/src/object_sync_controller.rs:206-265 | At most one live controller per resource, live if and only if some instance refers to it. |
| `Registries.IndexBetweenChecks` | rustrial-k8s-object-syncer/src/object_sync_controller.rs:362-424 | Between checks the index is the exact inverse of the table of instances, lost registrations excepted, and a controller is live if and only if some entry of the table refers to it. |
| `Scenarios.MovedBackRegistersTheSame` | rustrial-k8s-object-syncer/src/object_sync_controller.rs:376-399 | A concrete legal run: registered for one source, read with a spec that names another, and taken back by the user before the status write of the move, which is accepted and answers with the former spec. So the move is decided, and it ends where it started. |
| `Scenarios.MovedBackIsLost` | rustrial-k8s-object-syncer/src/object_sync_controller.rs:376-402 | A check that found the first registration, read the edited spec and registered for what its status write answered has moved the registration and lost it. |
| `Scenarios.MovingBackLoses` | rustrial-k8s-object-syncer/src/object_sync_controller.rs:376-402 | Driven along that run, the registry ends with the instance in the table and not in the index of the source the ObjectSync names. |
| `Registries.Registry.constructor` | rustrial-k8s-object-syncer/src/object_sync_controller.rs:118-119 | The registry starts empty. |
| `Registries.Registry.Drop` | rustrial-k8s-object-syncer/src/resource_controller.rs:57-67 | One reference less; the last one takes the registration along. |
| `Registries.Registry.Remove` | rustrial-k8s-object-syncer/src/object_sync_controller.rs:206-228 | The instance leaves the table and is dropped. |
| `Registries.Registry.Start` | rustrial-k8s-object-syncer/src/resource_controller.rs:795-813 | A new controller replaces a dead weak reference, which is never used again. |
| `Registries.Registry.Serve` | rustrial-k8s-object-syncer/src/object_sync_controller.rs:235-249 | The live controller if there is one, else a new one. |
| `Registries.Registry.Register` | rustrial-k8s-object-syncer/src/resource_controller.rs:815-841 | The ObjectSync is in the index and a new handle stands for it. |
| `Registries.Registry.Add` | rustrial-k8s-object-syncer/src/object_sync_controller.rs:230-265 | The table has a new instance with a handle of its own, at a controller that was live before or is new. |
| `Registries.Registry.Enter` | rustrial-k8s-object-syncer/src/object_sync_controller.rs:253-263 | The registration and the table entry fit. |
| `Registries.Registry.Lookup` | rustrial-k8s-object-syncer/src/object_sync_controller.rs:372-375 | A clone that shares handle and controller of the instance. |
| `Registries.Registry.Release` | rustrial-k8s-object-syncer/src/object_sync_controller.rs:376-402 | Dropping the clone loses exactly the registrations it has another handle for. |
| `Registries.Registry.Leave` | rustrial-k8s-object-syncer/src/object_sync_controller.rs:322-324 | A deleted ObjectSync is out of table and index. |
| `Registries.Registry.Detach` | rustrial-k8s-object-syncer/src/object_sync_controller.rs:377-379 | A moving check keeps the old registration alive by its clone. |
| `Registries.Registry.Reregister` | rustrial-k8s-object-syncer/src/object_sync_controller.rs:379-402 | The new registration is lost if and only if it is the one the clone stands for. |
| `Registries.Registry.Forget` | rustrial-k8s-object-syncer/src/object_sync_controller.rs:379-381 | A failed move leaves neither instance nor registration. |
| `Registries.Registry.Conclude` | rustrial-k8s-object-syncer/src/object_sync_controller.rs:376-402 | The end of a move: a new registration, lost if and only if it is the one the clone stands for, or none at all. |
| `Registries.Registry.Keep` | rustrial-k8s-object-syncer/src/object_sync_controller.rs:400-402 | An unchanged registration stays. |
| `Registries.Registry.Sources` | rustrial-k8s-object-syncer/src/resource_controller.rs:480-486 | The index of the live controller. |
| `ObjectSyncControllers.AddFinalizer` | rustrial-k8s-object-syncer/src/object_sync_controller.rs:190-204 | After success the finalizer is on the persisted ObjectSync. |
| `ObjectSyncControllers.Move` | rustrial-k8s-object-syncer/src/object_sync_controller.rs:376-399 | Deregister, delete what was made, and only with nothing left of it register for the source the ObjectSync names by then. |
| `ObjectSyncControllers.Revisit` | rustrial-k8s-object-syncer/src/object_sync_controller.rs:376-402 | A registration is moved if and only if resource or source differ. |
| `ObjectSyncControllers.Enlist` | rustrial-k8s-object-syncer/src/object_sync_controller.rs:372-418 | What a check leaves registered, and exactly when that registration is lost. |
| `ObjectSyncControllers.EnlistAndReport` | rustrial-k8s-object-syncer/src/object_sync_controller.rs:372-422 | And the Ready condition says so: True, Success, and for which resource and source it was registered, or from where to where it was moved. |
| `ObjectSyncControllers.Check` | rustrial-k8s-object-syncer/src/object_sync_controller.rs:362-424 | Finalizer first, then registration: nothing is registered that is not finalized; undisturbed, the registration is for the resource discovered and the source named, and never lost by a move. |
| `ObjectSyncControllers.ReleaseSourceOf` | rustrial-k8s-object-syncer/src/object_sync_controller.rs:327-356 | Best effort on the source object, which has the name the spec gives and the namespace the spec names, or else the ObjectSync's own: it is read, and at most its finalizers are patched; it fails exactly if the last of these calls does, a missing resource or object being no error; undisturbed no object there carries our finalizer. |
| `ObjectSyncControllers.DropFinalizer` | rustrial-k8s-object-syncer/src/object_sync_controller.rs:180-188 | Callable only when nothing live is left; no call without our finalizer. |
| `ObjectSyncControllers.DeleteDestinationsAndRelease` | rustrial-k8s-object-syncer/src/object_sync_controller.rs:325-359 | Success means nothing live is left and our finalizer is gone. |
| `ObjectSyncControllers.ReleaseSourceAndDrop` | rustrial-k8s-object-syncer/src/object_sync_controller.rs:327-359 | The source is released before the ObjectSync: a failure to release it is all that happens, and after the release only the ObjectSync is read and patched. |
| `ObjectSyncControllers.Delete` | rustrial-k8s-object-syncer/src/object_sync_controller.rs:322-360 | Deregistered first; success means nothing live is left and our finalizer is gone; undisturbed, all destinations are gone, our finalizer is on no object at the source's name and namespace by the spec's fields, and with no other finalizer the ObjectSync itself is gone. |
| `ObjectSyncControllers.CheckAndReport` | rustrial-k8s-object-syncer/src/object_sync_controller.rs:443-452 | A failed check shows in the Ready condition, False with reason Failure and the error, and still fails; without failures it is reported, and only discovery can make it fail; whom it enlisted and for what is the check's. |
| `ObjectSyncControllers.Reconcile` | rustrial-k8s-object-syncer/src/object_sync_controller.rs:427-471 | An ObjectSync is watched if no namespaces are listed, its own is, or a wildcard; any other causes no call and no change of the registry. Which path is taken, what each achieves, for which resource and source a check enlists the ObjectSync, and that whatever is registered stays finalized; undisturbed, it ends registered under the resource discovered and the source in the spec's fields, in the index unless that registration was lost before. |
| `ObjectSyncControllers.EnlistedIsRegistered` | rustrial-k8s-object-syncer/src/object_sync_controller.rs:372-418 | A check that moves exactly if the binding differs ends registered under it, and the registration is lost only if it was so before. |

## Left out

- ReconcileDeleted: covers the ObjectSyncs that were read and still name the source, because the code swallows failed reads and leaves out those that name another source; `ReleaseIsCompleteIff` says when that is all of them.
- PatchFinalizers: JSON Patch and serialization are not modelled; a patch is modelled as "set the finalizer list", a difference as "the values differ"; a positional patch of a concurrently changed list is not captured.
- Update: server-side-apply field ownership is not modelled; Apply means that the template's fields are set and all other fields are arbitrary; finalizers are merged as a set.
- Resource versions other than through the calls modelled: a revision that has moved on makes `patch_spec` a conflict, because the patch carries the old version.
- API discovery and version resolution: an argument that is a resource or an error.
- Watches, mappers, requeue times, error policies, channels and locks: which events lead to which reconcile is not modelled, so there is no liveness claim; the watch mappers emit ObjectSync names rather than source names.
- Two checks of different ObjectSyncs are serialized with respect to the registry, except that instances cloned by other checks may be outstanding at every registry operation.
- Stale reads: the reflector cache is assumed fresh for ObjectSyncs; source objects may be any revision.
- InSyncIsHonest: the condition is refreshed only when something changed, as in the code; nothing is claimed for it otherwise.
- CheckAndReport: error texts of the Ready condition are fixed text per error class.
- Version numbers, uids and times are numbers and texts without structure.
- Lists passed by mutable reference are values that methods take and return; the copies of an ObjectSync made when it is looked up are made when its turn comes.
- Reference counting is explicit: controllers and handles are numbered entries with counts, and a stopped controller stays as an entry without references.
- Metrics, logging, configuration parsing, signals, charts and custom resource definitions.
