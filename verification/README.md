# A verified model of jsonnet-controller

jsonnet-controller keeps the objects of a cluster in step with manifests that it evaluates from Jsonnet. A
Konfiguration names a manifest; each run of the controller evaluates and sorts it, labels its objects with their
owner and the manifest's checksum, applies what is not up to date, deletes owned objects of earlier manifests, and
records in the status which kinds the next run will have to look through. This project models that loop in Dafny,
together with the code that decides what it does, and proves what it keeps to over whole histories of runs.

`dafny verify dfyconfig.toml` checks everything.

## The files

| file | part of the system |
|---|---|
| `json.dfy`, `mergepatch.dfy`, `diff.dfy` | projection of a live document, merge patches, drift detection |
| `contract.dfy` | drift detection on plain JSON as the contract the resource manager relies on |
| `secrets.dfy` | hiding the data of Secrets |
| `text.dfy`, `sorting.dfy`, `endpoints.dfy` | string prefixes; sorting, with and without ties; the canonical order of Endpoints |
| `build.dfy`, `paths.dfy`, `canonical.dfy` | the way from evaluated JSON to a sorted manifest; what it finds, told by paths; and when it depends on the document only |
| `objects.dfy`, `snapshot.dfy` | objects and their kinds; the kind index stored in the status |
| `cluster.dfy` | the API server: live objects, the stored status, the log of writes |
| `manager.dfy`, `applying.dfy`, `pruning.dfy` | the resource manager; what its apply and its pruning do |
| `status.dfy`, `controller.dfy` | the status patches and one run with all its exits |
| `runs.dfy`, `history.dfy`, `outcomes.dfy` | what each run keeps to write by write, what histories of runs keep, and how runs end |
| `coverage.dfy`, `steady.dfy` | when the stored snapshot alone covers all that runs may leave, and when runs touch nothing |
| `interference.dfy`, `instances.dfy` | runs with other writers between any two of their requests |
| `dependencies.dfy`, `gates.dfy`, `isolation.dfy` | several Konfigurations: the readiness gate, runs as steps through it, and calls interleaved on one cluster |
| `importer.dfy` | Jsonnet imports behind two caches |

## How runs are modelled

The server is a class whose ghost log holds every write that took effect. All that a run cannot know beforehand (how
a request ends, what the server makes of a patch, whether the build works, whether health checks pass) is a value
handed to it; a request that is reported as failed may have landed nevertheless. The methods are proved against
functions and relations over values (`ObjectOutcome`, `Pruned`, `LegalRun`), and the theorems are about those. A crash
is a log cut short: the invariants hold after every prefix of the log of every run.

Three kinds of facts about a history need to be remembered to state them, and form its `Record`: the kinds that
failed attempts may have touched, the manifests that were applied from, and the revisions with the snapshots stored
for them.

`LegalRun` takes the cluster to change by the run's own writes only. `interference.dfy` drops that: there a run is a
sequence of single requests with drift between any two of them, and its rules allow no less than what a run does
(`RunsAreInstances`).

## Assumptions

- SHA-1 of a marshalled manifest, and of a marshalled object, is a function. Theorems about checksum labels require
  that the manifests that occur in the run or history at hand do not collide under it (`NoCollision`, `Occurring`);
  nothing is required of any others. Numbers are kept as their canonical text.
- Sorting promises an order, and nothing about ties. Where two inputs are compared that differ in the order of ties,
  the sort is a stable one.
- A server-side apply that is carried out leaves a live object that embeds the applied one; it does not end a
  deletion. A delete removes an object, or only marks it, when finalizers hold it or it is being deleted already.
- While one namespace, or the cluster, is gone through for pruning, repeated requests to delete one object end alike.
- Reads are fresh and each Konfiguration has one worker. A status patch that lands stores the whole status held in
  memory. Ours is the only finalizer on a Konfiguration, so that it is gone once released.
- Between runs, in `interference.dfy` also between the requests of a run, objects may come, go, change and be marked
  for deletion, but nobody else hands out owner labels, changes the checksum label next to them, takes a pruning
  exemption back, or undoes a deletion.
- Manifests whose kinds are recorded have an apiVersion that parses and has no comma (`HasKind`).
- Merge patches are those of section 2 of RFC 7396; the libraries that compute and combine them are modelled from
  their documented behaviour.
- Metadata of the wrong JSON type is read as absent, as the typed accessors do.

## Where code and documentation differ

The model follows the code.

- `SetProgressing` is documented to reset the conditions to a single one (api/v1beta1/konfiguration_status.go:47-48);
  it sets the Ready condition and keeps the others.
- `HideSecretData` is documented to write stars (pkg/diff/diff.go:586-588); it writes plus signs.
- Internal import URLs are said to be made rooted at `/lib` (pkg/jsonnet/cache.go:108); the prefix is trimmed as a set
  of characters, so that names beginning with one of `l`, `i`, `b` lose letters (`InternalLookupExact`).
- Sorted output is documented as ordered by namespaced name (pkg/jsonnet/output.go:62-66); objects of different kinds
  can share one. Found under different keys of one map, their order in the manifest then follows the order in which the
  keys were visited, which Go leaves open (`TiedKeysShow`); found in one list, it does not (`ListsAreCanonical`).
- `Build` flattens lists, but appends the address of the loop variable, so that under Go 1.16 all items become the
  last one (`ListKeepsItemsOnlyIfEqual`).

## Model

| member | source | states |
|---|---|---|
| `History.HistoryKeeps` | controllers/konfiguration_controller.go:142-475 | over every history of runs, each cut short after any write, and of drift, in which no two manifests collide: every owned, non-exempt, non-terminating object is of a kind in the stored snapshot or in the record of failed attempts; every checksum label names a manifest the object is in; a ready status has the snapshot stored for its revision; nothing is owned before the finalizer exists |
| `History.RunKeeps` | controllers/konfiguration_controller.go:268-422 | the same for one run cut short anywhere: a failed attempt adds the kinds of its manifest to the record, storing a snapshot takes away what it covers and what it pruned |
| `History.FreshIsSound` | controllers/konfiguration_controller.go:142-169 | a Konfiguration that owns nothing satisfies all of it, with an empty record |
| `History.DriftKeeps` | pkg/resources/manager.go:427-458 | drift that leaves owner labels, checksum labels and exemptions alone breaks none of it |
| `History.Convergence` | pkg/resources/manager.go:118-271 | a run with pruning on that stores its snapshot leaves every manifest object with the new labels, and any other tracked object is of a kind that earlier failed attempts touched and the stored snapshot missed; with an empty record, exactly the manifest is left |
| `History.SurvivorInManifest` | pkg/resources/manager.go:427-443 | what a successful pruning came across and left is in the new manifest |
| `Steady.QuietExactly` | pkg/resources/manager.go:118-271 | no run of a manifest writes or deletes any object, whatever it meets, if and only if it can come to patch none, as each is found current or comes after one the diff fails on, and, where it gets past all of them, pruning from the stored snapshot comes across nothing stale that is owned and not exempt; or the Konfiguration is gone |
| `Steady.SteadyState` | controllers/konfiguration_controller.go:339-409 | so where the manifest is current and nothing else is tracked that the stored snapshot records, no write of any run touches an object |
| `Outcomes.StoredManifestIsLive` | controllers/konfiguration_controller.go:339-409 | a run that stores its snapshot leaves each object of a manifest of distinct, null-free objects live: with its own labels, annotations, metadata and the rest of its document, besides the owner, the manifest's checksum and its own |
| `Outcomes.PerformedIsLive` | controllers/konfiguration_controller.go:339-385 | the same right after the apply, or when it was skipped for an empty dry run |
| `Outcomes.ApplyByValidation` | controllers/konfiguration_controller.go:339-385 | without validation the apply is all there is, under the force flag of the spec; with it the dry run decides first, and where every object is found current nothing more is asked of the server |
| `Outcomes.StoresExactly` | controllers/konfiguration_controller.go:142-421 | a run comes to storing a snapshot if and only if the finalizer is there, it neither deletes nor is suspended, source and dependencies are there, progress was reported, the manifest was built, dry run and apply succeed, and so does pruning if it is on; it does so as an unhealthy one if and only if there are health checks that fail |
| `Outcomes.LastReportExactly` | controllers/konfiguration_controller.go:411-421 | what it reports in the end: not ready if and only if there are health checks that fail, else ready |
| `Outcomes.ReadyMeansHealthy` | controllers/konfiguration_controller.go:411-421 | no ready status is ever written while a health check fails |
| `Outcomes.GivesUpExactly` | controllers/konfiguration_controller.go:183-401 | a run gives up if and only if the source or a dependency is missing or, past them, build, dry run, apply or pruning fails; its one patch says not ready, with generation and revision, and keeps all else |
| `Outcomes.TouchesNeed` | controllers/konfiguration_controller.go:142-242 | objects are written only by a run that gets to a manifest, or by one that deletes, with pruning on and not suspended |
| `Outcomes.SuspendedRunRests` | controllers/konfiguration_controller.go:176-181 | a suspended run writes at most the finalizer |
| `Outcomes.DeletionExactly` | controllers/konfiguration_controller.go:424-475 | a deleting run asks for the release of the finalizer if and only if it need not prune or pruned without failure, and leaves the objects as pruning from the stored snapshot does, or as they were |
| `History.CarriersOutlive` | pkg/resources/manager.go:427-443 | objects carrying the new labels outlive the pruning of their run |
| `History.PerformedCarries` | controllers/konfiguration_controller.go:339-385 | after the apply, or after it was skipped for an empty dry run, every manifest object carries the current labels |
| `History.ReadyRevisionsAgree` | api/v1beta1/konfiguration_status.go:93-100 | a run that reports ready stores its snapshot and its revision as applied; that is the attempted revision if and only if it is not empty or none was attempted before |
| `History.UnhealthyRevisions` | api/v1beta1/konfiguration_status.go:83-90 | a run that ends at its health checks stores its snapshot and its revision as attempted, and leaves the applied revision as it was |
| `History.LastStatus` | api/v1beta1/konfiguration_status.go:83-112 | the status after both last patches, from the one the run began with |
| `History.StoredStatusSound` | api/v1beta1/konfiguration_status.go:83-100 | also between the two last patches, a status is ready only with the snapshot stored for its revision |
| `History.TouchesAreGuarded` | controllers/konfiguration_controller.go:161-169 | every write to an object, of an apply or of pruning, happens with the finalizer in place |
| `History.ReleasedMeansPruned` | controllers/konfiguration_controller.go:424-475 | the finalizer is only released by a deleting run; with pruning on and not suspended only after pruning without failure, so a failed pruning keeps it |
| `History.ReleaseIsClean` | controllers/konfiguration_controller.go:424-475 | when it is released then, all owned, non-exempt objects are gone or terminating, but for kinds that only failed attempts touched |
| `History.FailedApplyIsUnrecorded` | controllers/konfiguration_controller.go:366-377 | an example: when the second object of a first manifest is refused, the first is live and owned and no snapshot is stored |
| `Coverage.CoverageSurvivesExactly` | controllers/konfiguration_controller.go:343-401 | from a world that the stored snapshot covers, it covers everything tracked after every run of a manifest of distinct objects, under the diff that the controller has, whatever requests answer and wherever the run is cut short of storing, if and only if each object that a run can come to patch (it is not current, and the diff fails neither on it nor on one before it) is recorded in the snapshot, carries a pruning exemption in the manifest, or is being deleted; or the Konfiguration is gone |
| `Coverage.SafeManifestSurvives` | pkg/resources/manager.go:410-443 | for any manifest, distinct or not, it does when all objects are recorded, exempt, or being deleted |
| `Coverage.SafeSurvives` | pkg/resources/manager.go:410-443 | a run whose apply keeps to such objects leaves nothing outside the stored snapshot |
| `Coverage.WritesExposed` | pkg/resources/manager.go:308-359 | an apply of distinct objects writes those only that it can come to patch, judged by the cluster it starts in |
| `Coverage.UnsafeShows` | controllers/konfiguration_controller.go:366-377 | each object that can be patched and is none of that escapes it in some run |
| `Runs.RunObeys` | controllers/konfiguration_controller.go:142-475 | every write of every run obeys the rules: objects of the manifest are written stamped or deleted to be recreated, else only doomed ones are deleted, all with the finalizer in place; statuses move on in the order of the protocol |
| `Runs.SnapshotChangesLate` | api/v1beta1/konfiguration_status.go:83-100 | wherever a run is cut short, the stored snapshot is the old one, or the new one of a run that applied, or found current, every object and pruned without failure |
| `Runs.StoredMeansAccomplished` | controllers/konfiguration_controller.go:364-421 | a run that comes to storing a snapshot has applied without error and, with pruning on, pruned without failure |
| `Runs.StoredCut` | api/v1beta1/konfiguration_status.go:83-112 | after either of the last two patches the new snapshot is stored, and the patches touch nothing else |
| `Runs.ReadyOnlyPastTheGate` | controllers/konfiguration_controller.go:183-209 | a ready status is only written by a run that found each of its dependencies ready at its generation, after everything else it writes |
| `Controller.Reconciler.Reconcile` | controllers/konfiguration_controller.go:142-266 | what the run writes is a legal trace: its phases, exits and status patches as specified, whatever answers it meets |
| `Controller.Reconciler.ReconcileSource` | controllers/konfiguration_controller.go:220-263 | the part from the progress patch to the last patches |
| `Controller.Reconciler.ReconcileManifest` | controllers/konfiguration_controller.go:268-422 | `reconcile` with its failure exits |
| `Controller.Reconciler.Apply` | controllers/konfiguration_controller.go:339-385 | the dry run, and the apply unless that found nothing to change |
| `Controller.Reconciler.CleanUp` | controllers/konfiguration_controller.go:387-421 | pruning and health checks, and which of them end the run how |
| `Controller.Reconciler.Collect` | controllers/konfiguration_controller.go:389 | pruning from the stored snapshot, against a new one or none |
| `Controller.Reconciler.ReconcileDelete` | controllers/konfiguration_controller.go:424-475 | `reconcileDelete` |
| `Controller.Reconciler.GiveUp` | controllers/konfiguration_controller.go:349-359 | a failed run reports not ready with one patch |
| `Controller.PerformanceKeepsStatus` | controllers/konfiguration_controller.go:346-366 | a dry run writes nothing, and an apply leaves the Konfiguration itself alone |
| `StatusProtocol.Konfiguration.SetProgressing` | api/v1beta1/konfiguration_status.go:49-52 | the status in memory and the patch sent |
| `StatusProtocol.Konfiguration.SetHealthiness` | api/v1beta1/konfiguration_status.go:55-63 | the condition is removed when there are no health checks |
| `StatusProtocol.Konfiguration.SetReadiness` | api/v1beta1/konfiguration_status.go:67-74 | the generation is observed; an empty revision is not recorded as attempted |
| `StatusProtocol.Konfiguration.SetNotReady` | api/v1beta1/konfiguration_status.go:77-79 | one patch, not ready |
| `StatusProtocol.Konfiguration.SetNotReadySnapshot` | api/v1beta1/konfiguration_status.go:83-90 | two patches, the second only if the first succeeded |
| `StatusProtocol.Konfiguration.SetReady` | api/v1beta1/konfiguration_status.go:93-100 | two patches, the second only if the first succeeded |
| `StatusProtocol.Konfiguration.PatchStatus` | api/v1beta1/konfiguration_status.go:102-112 | the whole status in memory is stored |
| `Manager.Manager.ServerSideApply` | pkg/resources/manager.go:368-395 | dry runs write nothing; a forced apply deletes and retries, up to the deadline |
| `Manager.Manager.ReconcileObject` | pkg/resources/manager.go:273-366 | the result, the changes reported and the writes for one object |
| `Manager.Manager.ReconcileUnstructured` | pkg/resources/manager.go:118-155 | the objects one after the other, up to the first error |
| `Manager.StopsAtError` | pkg/resources/manager.go:149-151 | nothing follows an error |
| `Manager.Manager.PruneItem` | pkg/resources/manager.go:202-224 | one item of a listing: deleted if it is doomed, with the failure reported |
| `Manager.Manager.Sweep` | pkg/resources/manager.go:185-225 | one listing deletes exactly its doomed items whose deletion lands, and succeeds if and only if no request failed |
| `Manager.Manager.SweepKinds` | pkg/resources/manager.go:228-268 | the same for a list of kinds |
| `Manager.Manager.PruneNamespaces` | pkg/resources/manager.go:181-226 | the same for all namespaces, in any order |
| `Manager.Manager.Prune` | pkg/resources/manager.go:162-271 | the cluster afterwards, by deletions of doomed objects only, and success if and only if no list or delete request failed |
| `Pruning.PruneDeletesExactly` | pkg/resources/manager.go:181-268 | exactly the objects that are of a recorded namespace and kind, match the owner labels, are not exempt, not terminating, and stale or orphaned, and whose deletion landed, are removed or marked; all others stay as they were |
| `Pruning.SparedSurvives` | pkg/resources/manager.go:410-443 | what is not doomed stays as it was |
| `Pruning.NeverPruned` | pkg/resources/manager.go:410-443 | objects of another owner, exempt by label or annotation, terminating, of no recorded kind, or with the new checksum while the parent lives, stay as they were |
| `Pruning.StaleIsPruned` | pkg/resources/manager.go:410-443 | the converse: after a success all others are gone, or marked where finalizers hold them |
| `Pruning.EarlierManifestIsPruned` | pkg/resources/manager.go:162-271 | so are those of the kinds and namespaces of an earlier manifest, when its snapshot is pruned from |
| `Pruning.SuccessfulPruneIsComplete` | pkg/resources/manager.go:162-271 | after a success nothing doomed is left of the recorded kinds |
| `Pruning.FailureReportedExactly` | pkg/resources/manager.go:194-223 | a failure is reported if and only if a listing failed or the deletion of an object it came across did, an object deleted in its namespace not being come across again |
| `Applying.SsaWrites` | pkg/resources/manager.go:368-395 | a server-side apply touches its own object only, and without an error leaves one that embeds what was applied |
| `Applying.SsaSucceedsExactly` | pkg/resources/manager.go:368-395 | it succeeds if and only if the first patch is accepted, or, forced and of an object that was found, the first after deletions that were all acknowledged; a dry run writes nothing and counts an object to recreate as a success |
| `Applying.StampAddsFour` | pkg/resources/manager.go:280-306 | the applied copy differs from the object of the manifest in the two owner labels, the checksum label and the checksum annotation only; the latter is of the copy without it |
| `Applying.AppliedIsLive` | pkg/resources/manager.go:273-359 | after an apply without error of distinct, null-free objects each is live under its identity, with its own labels, annotations, metadata and the rest of its document |
| `Applying.SilentIsLive` | pkg/resources/manager.go:308-359 | so is every object that is left alone without a word, in dry runs too |
| `Applying.ChangeReported` | pkg/resources/manager.go:308-366 | one change is reported at most: created where the object was missing, configured where it was found, and every failure |
| `Applying.ManifestWrites` | pkg/resources/manager.go:118-155 | an apply writes objects of the manifest only, and a dry run nothing |
| `Applying.ManifestCarries` | pkg/resources/manager.go:273-359 | without an error, or with an empty dry run, every object carries owner and checksum labels |
| `Applying.SilentExactlyWhenCurrent` | pkg/resources/manager.go:308-359 | an object is left alone without a word if and only if it is found, has the checksum of what would be applied, and has not drifted |
| `Applying.SkippingIsApplying` | controllers/konfiguration_controller.go:343-365 | after an empty dry run a real apply would write and report nothing, whatever the server would answer to patches |
| `Applying.CurrentForOneManifest` | pkg/resources/manager.go:282-306 | labels are part of the object's checksum: unless its two labelled copies collide, an object is never current for two manifests |
| `Applying.ApplyIsIdempotent` | pkg/resources/manager.go:273-359 | a second apply of distinct objects without kubectl's annotation has no changes and no writes |
| `Applying.DryRunPredicts` | pkg/resources/manager.go:368-395 | a dry run reports the changes and the result of the real run, where the server's first verdicts are the same and objects to recreate can be recreated |
| `Applying.ForcedApplyIsStuck` | pkg/resources/manager.go:385-392 | where deleting only marks the object, a forced apply whose patch stays invalid deletes and retries until the deadline and never succeeds; the object stays |
| `Applying.ForcedApplyExactly` | pkg/resources/manager.go:385-392 | against a server that calls the patch invalid as long as the object exists, it succeeds if and only if deleting removes the object, the deletion is acknowledged, and there is time for a second patch; the object is created anew then |
| `Contract.JsonDiffMeetsContract` | pkg/diff/diff.go:66-90 | for kinds outside the scheme the diff is what the manager relies on: an object reported up to date has all labels, nulls in the manifest or not, and embeds a null-free object; one that embeds it, without kubectl's annotation, is reported up to date |
| `Contract.SidesEmbedded` | pkg/diff/diff.go:295-320 | what takes part in the comparison is embedded if and only if the object is, but for its creation timestamp |
| `Contract.DocumentRoundTrip` | pkg/jsonnet/builder.go:145-146 | taking a document apart into an object and back loses nothing |
| `Contract.PredictedHasLabel` | pkg/diff/diff.go:232-277 | the label part of it, in the two-way and the three-way case |
| `Contract.DroppedIsDrift` | pkg/diff/diff.go:76-84 | what kubectl applied, the manifest dropped, and is still live, is drift |
| `Objects.WrappedIsPlain` | pkg/jsonnet/builder.go:145-146 | null-free documents make null-free objects |
| `Objects.WrongTypesAreAbsent` | pkg/jsonnet/builder.go:145-146 | metadata of the wrong type is read as absent, a map of strings as soon as one value is no string |
| `Objects.KindExactly` | api/v1beta1/snapshot_types.go:76-93 | the group, version and identity that an apiVersion gives an object |
| `Objects.ParsesExactly` | api/v1beta1/snapshot_types.go:102-105 | a group and version is parsed if and only if it is a version alone or has one slash |
| `Objects.ReadsExactly` | api/v1beta1/snapshot_types.go:96-132 | entries are read up to the first comma, those without one not at all |
| `Objects.KindAsWritten` | api/v1beta1/snapshot_types.go:76-93 | examples of kinds as they are written into the status |
| `Objects.KindRoundTrip` | api/v1beta1/snapshot_types.go:76-104 | filing a kind under its string and reading it back loses nothing if and only if group and version contain neither a slash nor a comma |
| `Objects.ObjectKindClean` | api/v1beta1/snapshot_types.go:80-89 | kinds of objects contain no slash, and no comma unless their apiVersion does |
| `Snapshots.SnapshotBuilder.AddEntry` | api/v1beta1/snapshot_types.go:76-93 | the entry of the namespace is extended, or a new one appended |
| `Snapshots.NewSnapshotFromUnstructured` | api/v1beta1/snapshot_types.go:57-74 | checksum and entries of a manifest |
| `Snapshots.NamespacedKinds` | api/v1beta1/snapshot_types.go:115-132 | per namespace exactly the kinds that the last entry for it yields |
| `Snapshots.NonNamespacedKinds` | api/v1beta1/snapshot_types.go:96-112 | exactly the kinds that the entries without a namespace yield |
| `Snapshots.LaterEntryHides` | api/v1beta1/snapshot_types.go:96-132 | a further entry for a namespace hides the earlier ones, a further one without a namespace adds to them |
| `Snapshots.FiledExactly` | api/v1beta1/snapshot_types.go:76-93 | namespaces stay unique, and under each exactly the kinds of its objects are filed |
| `Snapshots.SnapshotRecordsExactly` | api/v1beta1/snapshot_types.go:57-132 | the snapshot of a manifest makes pruning list exactly the namespaces and kinds of its objects |
| `Dependencies.CheckDependencies` | controllers/konfiguration_dependencies.go:32-65 | passes if and only if each Konfiguration named, by a bare name one in the namespace of the dependent, was there, ready, and at its current generation when asked for; else names the first that was not |
| `Dependencies.OpenExactly` | controllers/konfiguration_dependencies.go:41-61 | the same of the gate that runs are modelled with |
| `Dependencies.DependsOnExactly` | controllers/konfiguration_dependencies.go:41-45 | which Konfigurations the links of a chain are between: those that are named with their namespace, or by a bare name in the dependent's |
| `Dependencies.ReadyAfterAllDependencies` | controllers/konfiguration_dependencies.go:32-65 | in every behaviour, a Konfiguration is ready only after all it depends on, directly or not, has been ready, each link of the chain at an earlier step |
| `Dependencies.CyclesNeverReady` | controllers/konfiguration_dependencies.go:32-65 | nothing on a cycle of dependencies ever becomes ready |
| `Dependencies.AlwaysVouched` | controllers/konfiguration_dependencies.go:41-61 | at every step, what a run has checked so far was ready before |
| `Gates.PassingIsStepwise` | controllers/konfiguration_dependencies.go:41-61 | a run whose requests see states of the system finds all dependencies ready if and only if each request is a step of the system |
| `Gates.GoingThroughIsAStep` | controllers/konfiguration_dependencies.go:35-64 | beginning the check, passing it and giving up are steps of the system |
| `Gates.ReportIsAStep` | api/v1beta1/konfiguration_status.go:49-112 | every status patch of a legal run is a step of the system, a ready one past the check only |
| `Gates.ReadyRunSawItsDependencies` | controllers/konfiguration_controller.go:193-209 | a run that reports ready saw each of its dependencies ready |
| `Isolation.EachCallSparesOthers` | pkg/resources/manager.go:445-458 | in every sequence of calls of Konfigurations with disjoint manifests, and of changes elsewhere, each call leaves each object labelled for another one than the caller as it was, although deletion goes by name alone |
| `Isolation.OthersLeaveItAlone` | pkg/resources/manager.go:445-458 | so while only others call, all objects of one stay as they were |
| `Isolation.InterleavingKeepsSorted` | pkg/resources/manager.go:445-458 | and each object labelled for one comes from a manifest of it |
| `Isolation.CallerKeepsToItsOwn` | pkg/resources/manager.go:194-212 | a call changes objects of the caller's manifests only |
| `Isolation.RunsMakeCalls` | pkg/resources/manager.go:162-395 | what the sequential model of a run, live or deleting, forced or not, does to objects is made of such calls |
| `Interference.MingledHistoryKeeps` | controllers/konfiguration_controller.go:142-475 | what `History.HistoryKeeps` states, also when objects drift between any two requests of a run, and pruning deletes by name what an earlier listing showed |
| `Interference.InterferenceKeeps` | controllers/konfiguration_controller.go:268-422 | the same for one such run, after each of its steps |
| `Interference.InterferenceConverges` | pkg/resources/manager.go:162-271 | when such a run comes to storing its snapshot, with pruning on, all that is tracked is its manifest and what only failed attempts touched |
| `Interference.OthersDrift` | pkg/resources/manager.go:427-458 | to one Konfiguration the calls of all others are such drift |
| `Instances.RunsAreInstances` | controllers/konfiguration_controller.go:142-475 | every legal run, cut short anywhere, is one of these without drift |
| `Build.LessByRankAndKey` | pkg/jsonnet/object_sorter.go:30-48 | `Less` is the lexicographic order on rank and key |
| `Build.LessInFull` | pkg/jsonnet/object_sorter.go:30-48 | Namespaces by name, then CustomResourceDefinitions by name, then the rest by namespace and name |
| `Build.LessOrders` | pkg/jsonnet/object_sorter.go:30-48 | it is a strict weak order |
| `Build.TieIsSameRankAndKey` | pkg/jsonnet/object_sorter.go:46-47 | objects tie if and only if rank and key agree, whatever their kinds |
| `Build.NamespacesAndCRDsFirst` | pkg/jsonnet/output.go:62-74 | sorted output has Namespaces, then CustomResourceDefinitions, then the rest |
| `Build.NamespaceBlocks` | pkg/jsonnet/object_sorter.go:46-47 | and then each namespace in one block |
| `Build.BuildOutput.Append` | pkg/jsonnet/output.go:43-45 | appends, and leaves the sorted mark alone |
| `Build.BuildOutput.SortedObjects` | pkg/jsonnet/output.go:67-74 | a permutation; in order if and only if it was not marked sorted or nothing out of order was appended since |
| `Build.JsonWalk` | pkg/jsonnet/json_walk.go:33-71 | fails if and only if something above the objects is neither a map, a list nor null; else the result is a walk of the document |
| `Build.WalkFindsTopmost` | pkg/jsonnet/json_walk.go:33-71 | every walk finds exactly the topmost objects |
| `Paths.WalkFindsByPath` | pkg/jsonnet/json_walk.go:33-71 | an object is found if and only if some path leads to it, with a kind and an apiVersion that are not null, and to nothing such on the way |
| `Paths.WalkableByPath` | pkg/jsonnet/json_walk.go:33-71 | the walk fails if and only if some path past no object leads to something else than a map, a list or null |
| `Paths.ListWalkedInOrder` | pkg/jsonnet/json_walk.go:54-67 | the objects of a list are found in their order |
| `Build.WalkMap` | pkg/jsonnet/json_walk.go:41-53 | the map case, keys in any order |
| `Build.WalkList` | pkg/jsonnet/json_walk.go:54-67 | the list case, elements in their order |
| `Build.Build` | pkg/jsonnet/builder.go:122-167 | succeeds if and only if the walk does and the API, if asked, knows the kind of every topmost object, or of its items; the output then has exactly what these stand for |
| `Build.BuildableInFull` | pkg/jsonnet/builder.go:144-164 | when it succeeds |
| `Build.BuiltInFull` | pkg/jsonnet/builder.go:221-241 | each object of the output is as its document has it, but for an empty namespace, which is filled in where the kind wants one; of a document with items it is the last item; nothing is left out |
| `Build.BuiltInOrder` | pkg/jsonnet/builder.go:144-164 | without lists the output is one object for each walked document, in the order of the walk |
| `Build.ContributedExactly` | pkg/jsonnet/builder.go:145-163 | what one walked document adds, one object or as many as it has items |
| `Build.DefaultingIsStable` | pkg/jsonnet/builder.go:221-241 | the namespace is filled in if and only if it is empty, a default exists and the kind is namespaced; nothing else changes, and doing it again changes nothing |
| `Build.AppendContributions` | pkg/jsonnet/builder.go:145-164 | the loop over the walked objects, up to the first error |
| `Build.BuildsArePermutations` | pkg/jsonnet/builder.go:122-167 | two builds of one document agree up to order |
| `Build.SortedManifestCanonical` | pkg/jsonnet/output.go:67-74 | by any sort, the sorted manifest, and so its checksum, depends only on the document when no two different objects tie |
| `Canonical.OneManifestExactly` | pkg/jsonnet/json_walk.go:41-53 | by a stable sort it does if and only if, of every map above the objects, any two fields contribute their tied objects alike in both orders |
| `Canonical.OneChecksumExactly` | api/v1beta1/snapshot_types.go:57-68 | and so does the checksum, if the manifests of the document do not collide |
| `Canonical.TiedKeysShow` | pkg/jsonnet/object_sorter.go:46-47 | two different objects that tie, under two keys of one map, give different manifests |
| `Canonical.SharedNameShows` | pkg/jsonnet/object_sorter.go:46-47 | an example: a Deployment and a Service of one name under two keys |
| `Canonical.ListsAreCanonical` | pkg/jsonnet/json_walk.go:54-67 | in lists, ties do no harm |
| `Canonical.SettledIsFixed` | pkg/jsonnet/json_walk.go:41-67 | where the fields of maps commute, every walk contributes tied objects in one order |
| `Canonical.FixedIsSettled` | pkg/jsonnet/json_walk.go:41-67 | and only there |
| `Build.ListKeepsItemsOnlyIfEqual` | pkg/jsonnet/builder.go:152-157 | a list object keeps its items if and only if all are equal to the last |
| `Sorting.SortUnique` | pkg/jsonnet/output.go:71 | without ties the sorted permutation is unique |
| `Sorting.LexFirstDifference` | pkg/util/endpoints/endpoints.go:27-39 | strings are compared at the first character in which they differ |
| `Sorting.SameSortExactly` | pkg/jsonnet/output.go:71 | two lists have the same stable sort if and only if they have the same ties in the same order |
| `Sorting.OrderNeverMattersExactly` | pkg/jsonnet/output.go:71 | all orders of a list have the same stable sort if and only if only equal elements tie |
| `Sorting.ByKeyTieFree` | pkg/util/endpoints/endpoints.go:63-87 | sorted by hash, only equal elements tie if and only if no two different ones share a hash |
| `Sorting.SortSlice` | pkg/util/endpoints/endpoints.go:43-52 | sorting in place gives a sorted permutation |
| `Endpoints.LessEndpointAddressOrders` | pkg/util/endpoints/endpoints.go:27-39 | the order of addresses is a strict weak order |
| `Endpoints.SortSubsets` | pkg/util/endpoints/endpoints.go:43-52 | the inner lists are sorted, then the subsets by the hash of the result |
| `Endpoints.SortedInFull` | pkg/util/endpoints/endpoints.go:27-85 | the outcome: the same subsets with the same contents, by hash; in each, addresses by IP, those without a target first, then by its UID, and ports by hash |
| `Endpoints.SortSubsetsCanonical` | pkg/util/endpoints/endpoints.go:43-85 | by any sort, inputs equal up to the order of subsets, and of the lists in each, give the same output, when different addresses of a list differ in IP or target and different ports of one, and different sorted subsets, in their hash |
| `Endpoints.SortSubsetsCanonicalExactly` | pkg/util/endpoints/endpoints.go:43-85 | by a stable sort, all orders of Endpoints give the same output if and only if that holds of their addresses, ports and sorted subsets |
| `Json.RemoveFields` | pkg/util/json/json.go:7-26 | computes the projection of live onto config |
| `Json.RemoveMapFields` | pkg/util/json/json.go:28-43 | the map case, in any order |
| `Json.RemoveListFields` | pkg/util/json/json.go:45-60 | the list case, with elements beyond the configured ones untouched |
| `Json.ProjectionFixesEmbedded` | pkg/util/json/json.go:7-60 | config is its own projection of live if and only if it is embedded in live |
| `Json.ProjectionEmbedded` | pkg/util/json/json.go:7-60 | the projection is embedded in live |
| `Json.ProjectionSelf` | pkg/util/json/json.go:7-60 | the projection of a document onto itself is that document |
| `Json.ProjectionIdempotent` | pkg/util/json/json.go:7-60 | projecting twice changes nothing |
| `Json.ProjectionPaths` | pkg/util/json/json.go:7-60 | exactly the paths of live that config mentions survive, with live's values |
| `MergePatch.PatchedEmbeds` | pkg/diff/diff.go:374-388 | patching live towards a null-free config gives a document that embeds it |
| `MergePatch.PatchedPath` | pkg/diff/diff.go:374-388 | with nulls in config, still every leaf of it |
| `MergePatch.PatchIsNoOpExactly` | pkg/diff/diff.go:256-275 | the three-way patch changes nothing if and only if live holds config and has nothing left that config dropped |
| `MergePatch.NoSelfDelta` | pkg/diff/diff.go:93-96 | a document differs from itself by nothing |
| `MergePatch.MergeKeepsUnmentioned` | pkg/diff/diff.go:256-262 | merging keeps live values that config does not mention |
| `Diff.TwoWayDriftExact` | pkg/diff/diff.go:66-96 | without kubectl's annotation, a live object is reported modified if and only if the normalised, null-free config is not embedded in it |
| `Diff.ThreeWayDriftExact` | pkg/diff/diff.go:76-84 | with it, if and only if live does not hold config as seen through the last applied object, or has something left that this had and config dropped |
| `Diff.ComparedInFull` | pkg/diff/diff.go:299-320 | of config and the last applied object all is compared but creation timestamp, namespace, and annotations that are null or empty |
| `Diff.NormalizedInFull` | pkg/diff/diff.go:435-442 | of the live object all but the creation timestamp |
| `Diff.DiffOfMissing` | pkg/diff/diff.go:93-110 | what is only configured is modified, what is only live is not, and of nothing there is an error |
| `Diff.PredictedEmbedsConfig` | pkg/diff/diff.go:232-277 | the predicted object embeds config, and unmodified means that it is the live one |
| `Diff.PredictedKeepsUnmentioned` | pkg/diff/diff.go:232-277 | it keeps every live value that config does not mention |
| `Diff.ThreeWayReportsMoreThanEmbedding` | pkg/diff/diff.go:76-84 | the two cases differ: any field that was last applied, is live, and is dropped from a null-free config is drift in the one and not in the other |
| `Secrets.HideSecretData` | pkg/diff/diff.go:589-659 | fails if and only if there is a key and a document whose data is not a map; else returns hidden copies and modifies neither input |
| `Secrets.HiddenTexts` | pkg/diff/diff.go:589-643 | what is shown of each key in the three documents: rows of plus signs, as long as those of an equal text before, four more for each different one, and eight for the first |
| `Secrets.HiddenInFull` | pkg/diff/diff.go:612-643 | nothing but the values of the data changes |
| `Secrets.TextsCompared` | pkg/diff/diff.go:661-671 | null counts as the empty string |
| `Secrets.HideKey` | pkg/diff/diff.go:613-643 | one key in all three documents |
| `Secrets.HideIn` | pkg/diff/diff.go:618-642 | one key in one document, in place |
| `Secrets.Assign` | pkg/diff/diff.go:631-637 | equal values share a replacement, a new value gets the next |
| `Secrets.NormalizeAll` | pkg/diff/diff.go:599-610 | the copies are normalised and their keys collected |
| `Secrets.PatternPreserved` | pkg/diff/diff.go:586-643 | the keys stay, and at each key two documents get the same replacement if and only if they had the same value |
| `Importer.UniversalImporter.Import` | pkg/jsonnet/importer.go:72-99 | the first candidate that is cached or found, an error other than not found ending the search; only what is found is cached |
| `Importer.UniversalImporter.ExpandImportToCandidateUrls` | pkg/jsonnet/importer.go:101-123 | an absolute path alone, else relative to the importing file and then to each search URL |
| `Importer.HttpCache.Get` | pkg/jsonnet/cache.go:96-149 | http URLs are served from their file if it can be read, else requested and written to it |
| `Importer.HttpCache.TryLocalCache` | pkg/jsonnet/cache.go:63-73 | what the file of a URL holds |
| `Importer.HttpCache.WriteToCache` | pkg/jsonnet/cache.go:75-94 | the file is written, if the cache is enabled and the file can be written |
| `Importer.FoundIsForever` | pkg/jsonnet/importer.go:79-89 | over any sequence of imports, whatever the remote answers, one URL always comes with the same contents |
| `Importer.SearchIsFirstMatch` | pkg/jsonnet/importer.go:72-99 | with a remote that never changes, and files shared by URLs of equal contents only, the caches are not to be noticed |
| `Importer.FirstMatchExactly` | pkg/jsonnet/importer.go:72-99 | the first candidate that is not missing decides; the import is missing if and only if all are |
| `Importer.CandidatesInOrder` | pkg/jsonnet/importer.go:101-123 | next to the importing file first, then in each search URL |
| `Importer.ServedFromDisk` | pkg/jsonnet/cache.go:96-149 | what was got over http and written is served from then on, whatever the remote answers; nothing else is |
| `Importer.InternalIsOneLine` | pkg/jsonnet/cache.go:108-118 | a URL with a line break is requested as it is |
| `Importer.InternalLookupExact` | pkg/jsonnet/cache.go:108-118 | an internal path is looked up as it is if and only if it does not begin with a slash or a letter of "lib" and is not another path to kubecfg |
| `Importer.InternalLookupMisses` | pkg/jsonnet/cache.go:114 | so a library file called base.libsonnet is missed |

## Left out

- HTTP handlers and artifact download (controllers/konfiguration_validate.go, controllers/konfiguration_source.go):
  I/O. How getting the source ends is an answer the run meets; status written by the dry-run handler is excluded.
- Kinds in the scheme: strategic merge, scheme defaulting, remarshalling and the StatefulSet workaround depend on
  struct metadata that is not part of this model. The theorems about applying assume of their diff only
  `LabelSound`, `DiffSound` and `DiffComplete`, which are proved for all other kinds.
- Normalisation of Secrets and roles beyond the creation timestamp: `HideSecretData` takes it as a function of the
  document; sorting of Endpoints is modelled by itself. A caller's own normaliser is the no-op one.
- Jsonnet, Helm and YAML evaluation, native functions, impersonation, health polling, metrics, events, the command
  line and the documentation generator: thin wrappers. Their outcomes are answers the run meets.
- `ReconcileRaw` and the list case of `ReconcileUnstructured`: a manifest built by `Build` contains no lists.
- `YAMLStream`: its cache is a field that is filled once.
- Change sets are lists of objects and verbs; message texts, `trimString`, condition reasons and times are not modelled.
- Timeouts: the answers to the patches of one object end at the deadline, other requests report it as a failure.
- `requestsForRevisionChangeOf`: one filter loop around a library's sort.
- Namespace deletion that cascades, hand-edited owner labels, and taking back a pruning exemption: they break
  coverage and are excluded by `Drift`.
- `DiffArray`, `CreateTwoWayMergePatch`: loops over, and wrappers of, what is modelled.
- `Diff` and its `Normalize` are modelled on values, where the source edits copies of its arguments in place.
- The interleaving of several Konfigurations is modelled for calls on objects (`isolation.dfy`) and for readiness
  (`dependencies.dfy`); histories are those of one Konfiguration, to which others are drift (`interference.dfy`).
- Coverage.CoverageSurvivesExactly: two objects with one identity in a manifest are excluded, as what the server makes
  of the first patch then decides whether the second object is patched; `SafeManifestSurvives` has no such condition.
- Canonical.OneManifestExactly: is about a stable sort. `sort.Sort` is not one on long slices, and which of the orders
  of tied objects it picks is not part of this model.
- Dependencies.ReadyAfterAllDependencies: specs, and so generations and dependencies, are fixed while it applies.
- Applying.AppliedIsLive: is about distinct objects without nulls; of two with one identity the later one wins, and what
  the diff makes of nulls is pinned down for labels only (`PredictedHasLabel`).
- Applying.DryRunPredicts: two objects with one identity in a manifest are excluded, as the second would be compared
  with what the first left.
