# Verified model of the Uptime Kuma operator

The operator keeps Uptime Kuma monitors in agreement with Kubernetes resources: every host of an
opted-in Ingress, HTTPRoute or Service, and every `Monitor` custom resource, has one monitor in Kuma.
This project models the reconcilers, the Kuma store and API server they share, the reconnecting client
they call through, and the translation of monitor specs to Kuma's wire form, and proves what holds of
every run: any number of resources, every interleaving of their calls, every failing or unacknowledged
call, and any change made meanwhile by users or by hand in Kuma.

## How it is built

- `store.dfy` is Kuma: monitors, tags, fresh ids. Two history fields record who created a monitor and
  which creations nobody tracks. `tracking.dfy` says what a stored id looks like.
- `host_machine.dfy` and `monitor_machine.dfy` are the two reconciles as state machines, one step per
  call to Kuma or to the API server. What a call returns, whether it fails, and which host a loop over
  a Go map visits next are data of the step, so a theorem about all steps covers all of them.
- `host_invariant.dfy` … `host_writes.dfy` and `monitor_invariant.dfy` … `monitor_writes.dfy` state
  what holds of one resource in every reachable state and prove that each of its steps, each user edit,
  and each change by others keeps it.
- `system.dfy` puts any number of resources on one Kuma and one API server; `guarantees.dfy`,
  `safety.dfy`, `quiescence.dfy`, `recording.dfy`, `generation.dfy`, `host_sync.dfy`,
  `host_correction.dfy`, `host_completion.dfy`, `monitor_completion.dfy`, `completion.dfy`,
  `host_leaving.dfy`, `monitor_leaving.dfy`, `cleanup.dfy`, `monitor_reporting.dfy`,
  `monitor_secrets.dfy`, `secret_history.dfy`, `contents.dfy` and `leaks.dfy` are the main theorems.
- `server.dfy`, `host_reconciler.dfy` and `monitor_reconciler.dfy` are the code as written: methods
  with loops that make one call after another against a class that lets others act before every call
  and allows only the call the state machine makes next. A reconcile that verifies is a run of the
  system, so every theorem about runs holds of it.
- `reconnect_machine.dfy` and `reconnecting_client.dfy` do the same for the reconnecting client;
  `reconnect_recovery.dfy` says what one of its threads achieves when no other steps in between.
- `translate.dfy`, `float64.dfy`, `wire_fields.dfy` and `wire_fidelity.dfy` are the translation layer; `derive.dfy`,
  `references.dfy`, `tags.dfy`, `annotations.dfy`, `strconv.dfy` and `fake_client.dfy` are the parts
  the reconcilers are made of. `fingerprint.dfy` shows that the assumption on the hash can be met.

`dafny verify dfyconfig.toml` checks everything.

## Assumptions

- `desiredHash` never gives the same hash to two different host sets and is never empty
  (`HostMachine.CollisionFree`); `Fingerprint.CollisionFreeIsPossible` shows such a function exists.
- The operator's annotations, finalizer and status fields are written only by the operator
  (docs/README.md:259-262). Users change everything else, at any time.
- Reconciles of one key are serialised, and a reconcile begins by reading the newest version.
- Kuma issues each monitor id once; Upsert and Delete behave as in internal/kuma/fake.go:53-77. No id
  is issued after the largest int64.
- The API server admits only Monitors that meet the validation rules of
  api/v1alpha1/monitor_types.go:140-152, counts generations from 1, and starts a new one with every
  spec change and with a deletion.
- The breml library's encode and decode lose nothing in the fields used, except that a Push payload
  has no proxy. Timeouts outside int64 convert as on amd64.

## Where the code differs from what it promises

- A monitor created by an attempt that fails before its id is recorded is leaked, and the retry creates
  another (`Leaks.RetryDuplicates`, reached by `Leaks.LeakIsReachable`); the comments at
  internal/controller/sync.go:213-216 and internal/controller/host_reconciler.go:157-160 describe the
  wish to avoid this. `Guarantees.HostOrphans` and `Guarantees.MonitorOrphans` give
  the exact condition, and `Leaks.FailedPersistOrphans` the failing calls.
- While any monitor of a type the operator does not manage exists in Kuma, made by hand or a group,
  ExistingSpecs fails (internal/kuma/translate.go:329-330), so no resource's drift check completes
  (`Translate.ExistingSpecs`); a resource that uses a group can never have one, because the group it
  resolves is such a monitor (`Translate.GroupBreaksDriftCheck`). Until it is gone no reconcile of a
  resource whose hash is recorded, or of a Monitor whose generation is synced, ever ends in sync
  (`Completion.HostNeverWhileUnlistable`, `Completion.MonitorNeverWhileUnlistable`).
- A timeout that binary64 cannot hold reads back changed and is corrected for ever
  (`WireFidelity.SettledReadsBack`, `WireFidelity.SettledMonitorReadsBack`, `Translate.RoundTrip`), and
  two timeouts that are one binary64 number are Equivalent to Kuma but not to the operator
  (`Translate.KernelFailsExactly`).
- A drift correction of a Monitor that took effect although it was reported as failed leaves the
  Monitor settled and marked SyncFailed (`MonitorReporting.LostCorrectionStaysFailed`); the drift check
  passes from then on, so no later reconcile takes the mark off (`Quiescence.MonitorStaysQuiet`).
- The in-memory client can hand out the id of a seeded tag again (`FakeClient.SeededTagIsReissued`), and
  an Upsert under an id never issued makes a later creation overwrite it
  (`FakeClient.FakeClient.Upsert` says exactly when).

## Model

| member | source | states |
|---|---|---|
| System.RunInv | internal/controller/host_reconciler.go:50-187 | in every run, over any number of resources, every state satisfies the invariant of every resource: ids canonical, injective and its own, fingerprint and generation sound, finalizer guarding what is tracked, every monitor accounted for |
| System.ApplyKeeps | internal/controller/sync.go:53-237 | that invariant survives every action of anyone, failing calls and hand edits included |
| Guarantees.Ownership | internal/controller/sync.go:53-99 | a stored id is the decimal form of an id Kuma issued to that resource, parses back to it, and is at most the last id issued |
| Guarantees.NoSharing | internal/controller/sync.go:53-99 | no id is stored in two places, of one resource or of two, of whatever kind |
| Guarantees.ExactAccounting | internal/controller/host_reconciler.go:152-184 | every monitor the operator created and that exists is tracked in exactly one place, or held by exactly one running attempt, or orphaned; never two of these |
| Guarantees.HostOrphans | internal/controller/host_reconciler.go:157-184 | exactly when and which: a step orphans what the attempt created and did not record, and the monitor of an unacknowledged creation, if it gives the attempt up before recording; otherwise nothing, so a tag failure orphans nothing |
| Guarantees.MonitorOrphans | internal/controller/monitor_controller.go:182-203 | the same for a Monitor, where an unacknowledged creation is orphaned at once and the attempt goes on to record the failure |
| Safety.HostTouchesOnlyTracked | internal/controller/sync.go:53-206 | a step changes no existing monitor but one the resource tracks; orphans and other owners' monitors never change |
| Safety.MonitorTouchesOnlyTracked | internal/controller/monitor_controller.go:59-205 | the same for a Monitor |
| Safety.HandMadeStays | internal/controller/sync.go:53-206 | in every run, other changes by hand included, a monitor made by hand keeps its configuration and tags until someone changes that very monitor by hand |
| Safety.NeverReissued | internal/kuma/fake.go:60-63 | an issued id keeps its creator through every run, so repeated deletes are harmless |
| Safety.HostFinalizerGuards | internal/controller/host_reconciler.go:60-98 | a live resource with tracked ids has the finalizer; without it no tracked monitor is left; once gone, with no attempt running, all it created is gone or orphaned |
| Safety.MonitorFinalizerGuards | internal/controller/monitor_controller.go:59-87 | the same for a Monitor |
| Safety.SkipPathSound | internal/controller/host_reconciler.go:130-161 | in every reachable state, if the recorded hash is that of d, the tracked hosts are exactly those of d |
| Safety.GenerationSound | internal/controller/monitor_controller.go:148-198 | in every reachable state, if the observed generation is the current one, what was last sent for the tracked id was sent for exactly the current spec, names and Secret references included, and converts it, however the resource was edited meanwhile |
| Quiescence.HostConverges | internal/controller/host_reconciler.go:100-187 | a reconcile that ends in sync, with nobody changing what it depends on, leaves the resource settled: desired hosts tracked, each monitor equivalent to its spec and carrying exactly the tags |
| Quiescence.HostStaysQuiet | internal/controller/host_reconciler.go:130-150 | a settled resource stays settled through any run that leaves its manifest, monitors and references alone, and all its reconciles together make no Upsert, Delete or Update |
| Quiescence.MonitorConverges | internal/controller/monitor_controller.go:89-205 | convergence of a Monitor in one reconcile: settled, and, if nobody changed its spec or labels meanwhile, its monitor carries exactly the default, explicit and label-derived tags |
| Quiescence.MonitorSettlesUnlessError | internal/controller/monitor_controller.go:59-205 | over runs: if the Monitor read is live and the attempt did not end with an error, it ended in sync and the Monitor is settled |
| Quiescence.MonitorStaysQuiet | internal/controller/monitor_controller.go:148-166 | a settled Monitor stays settled through any run that leaves its spec, Secrets, monitor and references alone, with no Upsert, Delete or Update, and its Ready condition stays what it was |
| HostQuiescence.StepCourse | internal/controller/host_reconciler.go:109-128 | every phase of an attempt pursues the plan derived from the resource as read, as long as channels and groups stay |
| HostQuiescence.SettledStep | internal/controller/host_reconciler.go:130-150 | one step of a settled resource's reconcile writes nothing, whatever fails |
| HostQuiescence.Converges | internal/controller/host_reconciler.go:152-186 | an undisturbed attempt that ended in sync leaves the resource settled |
| Quiescence.HostSettlesUnlessError | internal/controller/host_reconciler.go:60-187 | over runs: if the resource read is live and opted in and the attempt did not end with an error, it ended in sync and the resource is settled |
| HostCompletion.SuccessEndsInSync | internal/controller/host_reconciler.go:100-187 | an undisturbed attempt whose calls all succeed, with names known and ids left, never ends with an error: once over, it is in sync |
| HostCompletion.CanEndInSync | internal/kuma/client.go:144-158 | it can be brought there by calls the operator's own client can make if and only if its hash is new or Kuma holds no group and no other unmanaged monitor |
| MonitorCompletion.CanEndInSync | internal/kuma/client.go:144-158 | the same for a Monitor: if and only if its generation is not synced or Kuma's listing can be translated |
| Completion.HostSuccessEndsInSync | internal/controller/host_reconciler.go:100-187 | in every run, whatever others do to Kuma's monitors and to other resources: a reconcile whose calls all succeed never fails, and once over it is in sync |
| Completion.HostCanStillFinish | internal/controller/host_reconciler.go:100-187 | wherever such a run has got to, calls the operator's own client can make bring it to its end in sync, unless it has still to list and cannot |
| Completion.HostNeverWhileUnlistable | internal/kuma/client.go:149-156 | in every run in which Kuma holds a group or another unmanaged monitor throughout, no reconcile of a resource whose hash is recorded ever ends in sync, however often it is tried |
| Completion.MonitorSuccessEndsInSync | internal/controller/monitor_controller.go:82-205 | in every run: a reconcile of a live Monitor whose calls all succeed never fails, and once over it is in sync |
| Completion.MonitorNeverWhileUnlistable | internal/kuma/client.go:149-156 | the same converse for a Monitor at a synced generation |
| Completion.FailedUpsertIsTold | internal/controller/monitor_controller.go:182-188 | in every run: after an Upsert of a Monitor fails, a reconcile whose other calls succeed ends with an error and with the failure on the Monitor, which has not changed otherwise |
| Cleanup.HostSuccessReleases | internal/controller/host_reconciler.go:60-98 | in every run, whatever others do: a reconcile of a deleted or opted-out resource whose calls all succeed never fails; once over, nothing it tracked exists in Kuma, a deleted resource has lost the finalizer and exists only if someone else's holds it, and an opted-out one has lost ids, hash and finalizer and nothing else |
| Cleanup.HostCanStillLeave | internal/controller/host_reconciler.go:60-98 | wherever such a run has got to, some calls bring the reconcile to that end |
| Cleanup.HostVerdictsHold | internal/controller/host_reconciler.go:60-98 | in every reachable state: a cleanup that ended well means the finalizer is off, an opt-out that every mark is off, and either that nothing it tracked is left |
| Cleanup.OptedOutStaysQuiet | internal/controller/host_reconciler.go:76-85 | in every run: a resource that is not opted in and carries no mark is left alone; its reconciles make no call |
| Cleanup.MonitorSuccessReleases | internal/controller/monitor_controller.go:59-80 | the same for a deleted Monitor: its monitor and the finalizer are gone, and the Monitor too unless someone else's finalizer holds it |
| Cleanup.MonitorCanStillLeave | internal/controller/monitor_controller.go:59-80 | at most two calls bring it there |
| Cleanup.MonitorVerdictHolds | internal/controller/monitor_controller.go:59-80 | in every reachable state a cleanup of a Monitor that ended well means finalizer and monitor are gone |
| SecretHistory.SentSecrets | internal/controller/monitor_controller.go:109-146 | in every run: what was last sent for an id has, in each field the spec refers to a Secret for, a value that Secret had at some time in the run, nothing in those it does not, and is otherwise the conversion of the spec it was sent for; on the wire too |
| SecretHistory.SyncedSecrets | internal/controller/monitor_controller.go:100-198 | so at a synced generation the tracked monitor was last sent the current spec with every Secret value in its own field |
| MonitorSecrets.StepSourced | internal/controller/monitor_controller.go:109-146 | every step keeps each value read in its own field, from the read of the Secret to the Upsert |
| MonitorSecrets.ServedIsPlaced | internal/controller/monitor_controller.go:109-146 | what a Monitor asks for now has the present value of each referenced Secret in its own field |
| MonitorSecrets.SecretsOnWire | internal/kuma/translate.go:115-221 | those values arrive in the wire fields of the same name |
| Contents.SettledContents | internal/controller/host_reconciler.go:100-187 | from what the user wrote to Kuma: in a settled state every tracked host's monitor exists and has the URL, or host and port, the name, interval, options, channels and group that annotations and routing rules ask for on that host, up to Kuma's defaults for unset fields |
| Contents.SettledHosts | internal/controller/sync.go:53-99 | and the tracked hosts are exactly those of the routing rules |
| Contents.SettledMonitorContents | internal/controller/monitor_controller.go:100-166 | the same for a settled Monitor: its spec with the present Secret values in place, the named channels and group |
| Contents.PlanContents | internal/controller/host_reconciler.go:100-128 | a reconcile works towards one monitor per derived one, with the ids of exactly the named channels and group, and towards exactly the default, explicit and label-derived tags; only if opted in |
| Contents.PlanExists | internal/annotations/annotations.go:107-113 | there is something to work towards if and only if the resource is live, opted in as the operator-wide setting and the annotation say, its annotations and routes make sense, and Kuma knows the names |
| Contents.MonitorTags | internal/controller/sync.go:362-376 | a Monitor's tags are exactly the default ones, its own, and key=value of every label whose key some pattern matches |
| MonitorReporting.UnchangedIsNotWritten | internal/controller/monitor_controller.go:229-250 | the status is updated if and only if it does not say so already |
| MonitorReporting.LostCorrectionStaysFailed | internal/controller/monitor_controller.go:148-188 | a correction that took effect but was reported as failed leaves the Monitor settled and marked as failed |
| MonitorQuiescence.SettledStep | internal/controller/monitor_controller.go:148-166 | one step of a settled Monitor's reconcile writes nothing, whatever fails |
| MonitorQuiescence.Converges | internal/controller/monitor_controller.go:182-205 | an undisturbed attempt that ended in sync leaves the Monitor settled and tagged with exactly the names it asks for |
| MonitorQuiescence.StepTags | internal/controller/monitor_controller.go:159-200 | while spec and labels stay, every step keeps to the tags they ask for, which follow the Monitor as read last |
| Generation.UpsertsIffDrifted | internal/controller/monitor_controller.go:148-182 | over every step: at a synced generation an attempt comes to call Upsert if and only if it reads a listing in which the monitor is missing or not Equivalent, then under its own id or a new one |
| Generation.UpsertIsJustified | internal/controller/monitor_controller.go:148-182 | in every run: a reconcile about to call Upsert at a synced generation has read such a listing, for the very spec it sends, and decided nothing since |
| Generation.SendsOnlyWhenUpserting | internal/controller/monitor_controller.go:182 | no other step sends anything to Kuma |
| Generation.FailedUpsertKeepsStatus | internal/controller/monitor_controller.go:182-188 | in every run: from a failed Upsert until the next reconcile begins, through recording the failure and whatever others do, the tracked id and the observed generation stay |
| HostSync.FullSync | internal/controller/sync.go:53-99 | undisturbed full sync, an empty desired list included: exactly the desired hosts tracked, each with its spec, surviving ids reused, dropped monitors gone, nothing else changed, one call per host; for every order of the loops |
| HostCorrection.Correction | internal/controller/sync.go:144-183 | undisturbed drift correction: every drifted host corrected with one Upsert, edited ones under their id, missing ones under a fresh one, everything else unchanged, and the drift check passes afterwards; for every order |
| HostCorrection.DriftedIffMismatch | internal/controller/sync.go:109-183 | the drift check passes if and only if nothing would be upserted |
| HostCorrection.CorrectedMatches | internal/controller/sync.go:109-129 | after correction the drift check holds of the new ids and the new store |
| Recording.PersistsAtMostOnce | internal/controller/sync.go:217-237 | the whole call, retries included, against arbitrary concurrent writers: only the step that leaves it may commit, one version that replaces the version it was based on and differs only in the marks; at most five Updates |
| Recording.PersistTriesFive | internal/controller/sync.go:217-237 | a conflict is met by a fresh read and another try, four times; the fifth gives up, and nothing else is tried again |
| Recording.PersistTryCommits | internal/controller/sync.go:219-236 | every try is based on a fresh read: one that nobody interferes with commits, whatever conflicts came before, and changes exactly ids, hash and finalizer |
| HostWrites.NoLostUpdate | internal/controller/sync.go:219-236 | one try commits or writes nothing, is repeated only if it wrote nothing, and reports success only if the marks are recorded |
| HostWrites.StepKeeps | internal/controller/host_reconciler.go:50-207 | every step of a routed resource's reconcile keeps its invariant and changes no monitor of others |
| HostStability.ShiftKeeps | internal/controller/host_reconciler.go:50-187 | the invariant, attempts in progress included, survives everything others do to Kuma |
| HostStability.UserKeeps | internal/controller/sync.go:217-237 | the invariant survives edits, deletion and re-creation of the resource at any moment |
| Recording.ReportsAtMostOnce | internal/controller/monitor_controller.go:216-252 | the same for the status: at most one version, differing only in the status, and the Monitor is never removed by it |
| Recording.ReportTriesFive | internal/controller/monitor_controller.go:226-252 | the same five tries for the status |
| Recording.SyncedTryCommits | internal/controller/monitor_controller.go:195-250 | the same for a status: afterwards the id, the synced generation and Ready are on the Monitor and nothing else has changed |
| MonitorWrites.NoLostUpdate | internal/controller/monitor_controller.go:225-251 | one try commits exactly the edited status on the version read, or writes nothing, and is repeated only then |
| MonitorWrites.StatusOnly | internal/controller/monitor_controller.go:230-246 | a status write changes nothing but the status; a failure report keeps id and generation and puts its message on the Monitor; a success sets the id, the generation unless it is 0, and Ready |
| MonitorWrites.StepKeeps | internal/controller/monitor_controller.go:45-206 | every step of a Monitor's reconcile keeps its invariant and changes no monitor of others |
| MonitorStability.ShiftKeeps | internal/controller/monitor_controller.go:45-206 | a Monitor's invariant survives everything others do |
| MonitorStability.UserKeeps | internal/controller/monitor_controller.go:216-252 | it survives edits of the spec, the labels and the Secrets at any moment |
| Leaks.RetryDuplicates | internal/controller/monitor_controller.go:182-197 | Upsert succeeds, reading the Monitor back fails: the retry creates a second monitor with the same configuration and the first is orphaned |
| Leaks.LeakIsReachable | internal/controller/monitor_controller.go:82-182 | that situation arises for every admitted spec without references, at its first reconcile |
| Leaks.FailedPersistOrphans | internal/controller/sync.go:217-237 | exactly when recording the ids fails — the read, a refused or failed Update, the fifth conflict, a crash — everything the attempt created is orphaned and still exists |
| Leaks.RecordingFailsExactly | internal/controller/sync.go:217-237 | those are the steps that give the attempt up without recording, and no others |
| HostReconciler.Reconcile | internal/controller/host_reconciler.go:50-187 | the code as written, under every interference and failure, is a run of the system that ends with the attempt over and this verdict |
| HostReconciler.ReconcileSettles | internal/controller/host_reconciler.go:100-187 | a reconcile that returned in sync, with nobody changing what it depends on, leaves its resource settled, so every later one writes nothing |
| HostReconciler.SyncMonitors | internal/controller/sync.go:53-99 | the two loops make exactly the machine's Upserts and Deletes, in any order of the existing ids |
| HostReconciler.RemoveDropped | internal/controller/sync.go:82-98 | the delete loop visits exactly the dropped hosts with a valid id, in any order |
| HostReconciler.ReconcileDrift | internal/controller/sync.go:144-183 | the loop upserts exactly the drifted hosts, in any order |
| HostReconciler.DeleteAllMonitors | internal/controller/sync.go:187-206 | every tracked monitor is deleted, in any order, before the attempt goes on |
| HostReconciler.PersistOnce | internal/controller/sync.go:219-236 | one try reads the resource, sets the marks and updates it |
| HostReconciler.PersistMonitorIDs | internal/controller/sync.go:217-237 | tries again on a conflict, five times in all, and reports success only if the marks were recorded |
| HostReconciler.SyncTagsForHosts | internal/controller/host_reconciler.go:195-207 | every tracked monitor gets its tags, in any order, or the attempt fails |
| HostReconciler.SpecsMatchLoop | internal/controller/sync.go:109-129 | the loop decides, in any order, whether every tracked desired host has an equivalent monitor |
| HostReconciler.ByHostName | internal/controller/sync.go:110-113 | the map holds the last spec of every host |
| HostReconciler.AttachReferences | internal/controller/host_reconciler.go:119-122 | in place, every desired spec gets the resolved channels and group and changes in nothing else |
| HostReconciler.MergedTags | internal/controller/host_reconciler.go:128 | the names are exactly the default, explicit and label-derived tags |
| HostReconciler.CleanUp | internal/controller/host_reconciler.go:60-74 | a deleted resource: monitors first, the finalizer only after every delete succeeded |
| HostReconciler.OptOut | internal/controller/host_reconciler.go:76-98 | an opted-out resource: monitors deleted, then marks and finalizer cleared together |
| HostReconciler.ResolveReferences | internal/controller/sync.go:246-287 | channels then group, each asked for only if named; an unknown name ends the attempt |
| HostReconciler.VerifyUnchanged | internal/controller/host_reconciler.go:130-169 | unchanged hash: list, compare, correct only what drifted, record before tags |
| HostReconciler.Record | internal/controller/host_reconciler.go:157-184 | ids are recorded before any tag call is made |
| HostReconciler.Pursue | internal/controller/host_reconciler.go:119-186 | with everything resolved: the skip path exactly if the hash is the recorded one, otherwise full sync |
| HostReconciler.Sync | internal/controller/host_reconciler.go:100-186 | a live opted-in resource: overrides and ids parsed, monitors derived, references resolved, then the plan pursued |
| HostReconciler.DeriveMonitors | internal/controller/host_reconciler.go:109-113 | the loops of the three derivations compute the desired monitors of the resource's kind |
| MonitorReconciler.Reconcile | internal/controller/monitor_controller.go:45-206 | the code as written, under every interference and failure, is a run of the system that ends with the attempt over and this verdict |
| MonitorReconciler.UpdateOnce | internal/controller/monitor_controller.go:225-251 | one try of the status write: nothing is written if nothing changed |
| MonitorReconciler.UpdateStatus | internal/controller/monitor_controller.go:216-252 | tries again on a conflict, five times in all; "" and 0 keep the id and the generation |
| MonitorReconciler.Edited | internal/controller/monitor_controller.go:230-246 | the edited status, and a flag that is set exactly when it differs from the one read |
| MonitorReconciler.CleanUp | internal/controller/monitor_controller.go:59-80 | a deleted Monitor: its monitor first, the finalizer only after the delete succeeded |
| MonitorReconciler.AddAndSync | internal/controller/monitor_controller.go:82-87 | the finalizer is added before anything is created |
| MonitorReconciler.ResolveReferences | internal/controller/sync.go:246-287 | channels then group, each asked for only if named; an unknown name ends the attempt |
| MonitorReconciler.ReconcileSettles | internal/controller/monitor_controller.go:89-205 | a reconcile that returned in sync, with nobody changing what it depends on, leaves its Monitor settled, with exactly the tags of the Monitor if spec and labels stayed |
| MonitorReconciler.DesiredSpec | internal/controller/monitor_controller.go:100-146 | the converted spec with resolved ids and one read per Secret reference, in order |
| MonitorReconciler.VerifyUnchanged | internal/controller/monitor_controller.go:148-172 | synced generation: only a missing or drifted monitor is upserted, a missing one under a new id |
| MonitorReconciler.UpsertAndRecord | internal/controller/monitor_controller.go:174-203 | Upsert, then the status with the generation read before it, then tags; a failure is recorded too |
| MonitorReconciler.RecordSynced | internal/controller/monitor_controller.go:195-203 | the status is recorded before any tag call |
| MonitorReconciler.ExistingID | internal/controller/monitor_controller.go:89-98 | the tracked id, 0 if there is none or it does not parse |
| MonitorReconciler.MergedTags | internal/controller/monitor_controller.go:200 | the names are exactly the default, explicit and label-derived tags of the Monitor as read last |
| Server.Server.Upsert | internal/kuma/client.go:126-138 | after others acted, the call succeeds with the id Kuma issued or fails, with or without effect |
| Server.Server.Update | internal/controller/sync.go:235 | an Update succeeds, conflicts or is refused as the API server answers by version |
| Server.Server.UpdateStatus | internal/controller/monitor_controller.go:250 | the same for the status |
| ReconnectMachine.RunInv | internal/kuma/reconnect.go:24-127 | under every interleaving of callers, probes and background dials, the lock, the two fields, every connection and every thread are consistent |
| ReconnectMachine.FreeMeansConsistent | internal/kuma/reconnect.go:52-77 | whenever mu is free, a connection is held exactly when down is unset, and 1 + dials − discards is 1 or 0 accordingly |
| ReconnectMachine.OneDial | internal/kuma/reconnect.go:31-34 | at most one dial is in progress, and nobody else holds mu meanwhile |
| ReconnectMachine.DiscardIsJustified | internal/kuma/reconnect.go:104-119 | a connection leaves current only after a call on that same connection reported it lost; a late failure never removes its replacement |
| ReconnectMachine.CloseOnceAfterDiscard | internal/kuma/reconnect.go:115-126 | a connection is closed at most once, only after it was lost and left current |
| ReconnectMachine.DiscardedForEver | internal/kuma/reconnect.go:106-119 | a discarded connection never comes back |
| ReconnectMachine.ReadyMeansConnected | internal/kuma/reconnect.go:88-94 | a probe that passes while mu is free means a connection is held |
| ReconnectMachine.HolderMoves | internal/kuma/reconnect.go:52-127 | the holder of mu can always take a step: no deadlock |
| ReconnectRecovery.ProbeRecovers | internal/kuma/reconnect.go:88-102 | in every reachable state with the connection down and mu free, a readiness probe alone dials; if the dial succeeds the connection is up and mu free again, without any reconcile; if not, the failure is recorded |
| ReconnectRecovery.ProbeYields | internal/kuma/reconnect.go:88-102 | with mu held, or nothing down, a probe is over after two steps and changes nothing |
| ReconnectRecovery.CallGets | internal/kuma/reconnect.go:52-71 | a call with mu free gets the connection held, and dials exactly if none is |
| ReconnectRecovery.LossIsHandled | internal/kuma/reconnect.go:104-161 | a reported loss is checked: one of the current connection discards and closes it, so that the next call or probe dials; a loss of an old one changes nothing |
| ReconnectingClient.Client.GetLocked | internal/kuma/reconnect.go:58-71 | the connection held or a new one, current and down agreeing with what is returned |
| ReconnectingClient.Client.Get | internal/kuma/reconnect.go:52-56 | a caller gets a connection or an error, or still waits for the lock |
| ReconnectingClient.Client.Check | internal/kuma/reconnect.go:106-127 | the connection is discarded only if it is still current, and closed only after mu is released |
| ReconnectingClient.Client.Wrapper | internal/kuma/reconnect.go:153-161 | every wrapper is a run of the machine: get, call, check |
| ReconnectingClient.Client.ReadyCheck | internal/kuma/reconnect.go:88-102 | the probe never waits; alone, with mu free, it leaves the connection up, and with mu held it changes nothing |
| ReconnectingClient.Client.TryLock | internal/kuma/reconnect.go:95 | the lock is got if and only if mu is free when the probe tries |
| ReconnectingClient.MuProtects | internal/kuma/reconnect.go:31-40 | while a thread holds mu, no other thread changes current or down |
| Translate.EquivalentReflexive | internal/kuma/translate.go:345-378 | Equivalent is reflexive exactly on specs whose selected sub-spec is present |
| Translate.EquivalentSymmetric | internal/kuma/translate.go:345-378 | Equivalent is symmetric |
| Translate.EquivalentTransitive | internal/kuma/translate.go:345-378 | Equivalent is transitive |
| Translate.AcceptedIff | internal/kuma/translate.go:94-226 | a spec is accepted exactly if its sub-spec is present and, for Push, its token is not empty |
| WireFields.SentFields | internal/kuma/translate.go:94-226 | the wire monitor of a spec is exactly the one that carries the spec's own fields, with 60, GET, 200-299 and A only where interval, retry interval, verb, status codes and resolve type are unset |
| WireFields.EquivalentFields | internal/kuma/translate.go:345-378 | two specs are Equivalent if and only if every field is the same, where an unset field is the same as its default and the order of channels does not count |
| WireFields.NothingHidden | internal/kuma/translate.go:16-42 | so no default hides an edit: where both specs give a value it is the same |
| WireFields.NormalMeansSet | internal/kuma/translate.go:16-49 | a spec is its own normal form if and only if none of the five is unset |
| Translate.WireKernel | internal/kuma/translate.go:94-226 | what the wire tells apart: accepted specs send the same wire monitor, up to the order of channels, if and only if their timeouts are one binary64 number and, given the same timeout, they are Equivalent |
| Translate.EquivalentIsKernel | internal/kuma/translate.go:345-378 | accepted specs are Equivalent if and only if they send the same wire monitor and have the same timeout; with timeouts binary64 holds, if and only if they send the same wire monitor |
| Translate.KernelFailsExactly | internal/kuma/translate.go:94-226 | the two disagree exactly for different timeouts that are one binary64 number in otherwise Equivalent specs |
| Translate.KernelFailsBeyondBinary64 | internal/kuma/translate.go:94-226 | 2^53 and 2^53 + 1 are such a pair |
| Translate.RoundTrip | internal/kuma/translate.go:236-334 | what comes back from Kuma is Equivalent to the spec if and only if binary64 holds its timeout and it is no Push with a proxy; it is then its normal form with unselected sub-specs cleared |
| Translate.RoundTripUpToOrder | internal/kuma/translate.go:236-334 | whatever order Kuma returns the channels in, what comes back is Equivalent under exactly the same condition |
| Translate.EqualInt64SetsLoop | internal/kuma/translate.go:58-75 | the counting loop decides equality of multisets |
| Translate.ExistingSpecs | internal/kuma/client.go:144-158 | the listing succeeds exactly if every monitor is of a known type, and then maps each id to its translation |
| Translate.FindGroup | internal/kuma/client.go:169-180 | the group is found exactly if a group monitor has the name |
| Translate.GroupBreaksDriftCheck | internal/kuma/client.go:144-180 | while a group can be resolved, the listing every drift check needs fails |
| Float64.TimeoutSurvives | internal/kuma/translate.go:383-385 | a timeout survives int64 to binary64 and back exactly if binary64 holds it |
| Float64.TimeoutsDistinct | internal/kuma/translate.go:94-226 | representable timeouts stay distinct |
| Float64.SmallTimeoutsSurvive | internal/kuma/translate.go:383-385 | every timeout up to 2^53 in magnitude is representable |
| Float64.NearestExact | internal/kuma/translate.go:124 | a timeout becomes the nearest multiple of the spacing of binary64, the even one of two |
| Float64.SpacingExact | internal/kuma/translate.go:124 | that spacing is the one of a 53-bit significand |
| Float64.RoundExact | internal/kuma/translate.go:383-385 | reading back rounds to the nearest second, away from zero where two are equally near |
| WireFidelity.MonitorReadsBack | internal/kuma/translate.go:94-334 | every admitted Monitor's synced spec reads back Equivalent exactly if binary64 holds its timeout |
| WireFidelity.HostReadsBack | internal/derive/service.go:19-126 | the same for every derived spec: never a Push, always accepted |
| WireFidelity.SettledReadsBack | internal/controller/sync.go:109-129 | in a settled state the drift check also passes on the listing read back from the wire, exactly if binary64 holds the timeout of every tracked host |
| WireFidelity.SettledMonitorReadsBack | internal/controller/monitor_controller.go:148-172 | the same for a settled Monitor |
| Derive.DesiredAreDistinct | internal/derive/httproute.go:14-44 | always one well-formed monitor per distinct non-empty host, never two for one host |
| Derive.IngressAreDistinct | internal/derive/ingress.go:21-56 | an Ingress maps to exactly the set of its non-empty hosts |
| Derive.HTTPRouteAreDistinct | internal/derive/httproute.go:14-44 | an HTTPRoute maps to exactly the set of its non-empty hostnames |
| Derive.ServiceMonitorsWellFormed | internal/derive/service.go:19-126 | a Service maps to exactly one well-formed monitor or an error |
| Derive.IngressContent | internal/derive/ingress.go:21-56 | each host's monitor checks scheme://host/path: the scheme given, else https if and only if a tls entry lists the host; the path given, else /; name namespace/name/host unless given; everything else as the annotations say |
| Derive.HTTPRouteContent | internal/derive/httproute.go:14-44 | the same with https unless a scheme is given |
| Derive.ServiceDerives | internal/derive/service.go:19-126 | a Service derives a monitor if and only if its type is known, a port can be chosen where the type needs one, and a Gamedig check names its game |
| Derive.ServiceContent | internal/derive/service.go:19-137 | that monitor checks the in-cluster name or the host given, on the chosen port, with the options of its type |
| Derive.ResolvedPort | internal/derive/service.go:140-168 | exactly which port is checked: without an override the only one, with one the first it names by number or else by name; none in every other case |
| Derive.FirstOccurrencesExact | internal/derive/httproute.go:20-43 | the hosts kept are the non-empty ones, each once |
| Derive.FirstOccurrencesGrow | internal/derive/httproute.go:24-43 | in the order in which they first occur |
| Derive.IngressMonitors | internal/derive/ingress.go:21-56 | the loops with their two maps compute the desired monitors of the Ingress |
| Derive.HTTPRouteMonitors | internal/derive/httproute.go:14-44 | the loop with its map computes the desired monitors of the route |
| References.ResolutionIsCanonical | internal/controller/sync.go:253-271 | two name lists with the same names resolve to the identical sequence, or both fail |
| References.ChannelIDsExact | internal/controller/sync.go:258-271 | the ids are strictly increasing and exactly the image of the names |
| References.ResolveNames | internal/controller/sync.go:248-272 | the loop with dedupe and sort computes the resolution, failing exactly if a name is unknown |
| Tags.MergeTagsExact | internal/controller/sync.go:341-353 | a duplicate-free union in which no later source reorders an earlier one |
| Tags.MergeTagsLoop | internal/controller/sync.go:341-353 | the loops with the seen map compute that union |
| Tags.DeriveLabelTags | internal/controller/sync.go:362-376 | one tag per label that matches a pattern, for every order of the labels |
| Tags.TagServer.SetMonitorTags | internal/kuma/client.go:200-229 | exactly the symmetric difference is added and removed, nothing if the tags are already right, and no other monitor changes |
| Tags.TagServer.LookUpOrCreate | internal/controller/sync.go:317-331 | every missing tag is created once although the known tags are not refreshed in the loop |
| Tags.TagServer.SyncTags | internal/controller/sync.go:313-333 | the monitor carries exactly the named tags afterwards |
| Tags.TagServer.SyncTagsForHosts | internal/controller/host_reconciler.go:195-207 | all tracked monitors end with exactly the named tags, each missing tag created once in all, other monitors untouched |
| Annotations.ParseCommaList | internal/annotations/annotations.go:404-417 | the loop computes the trimmed, non-empty entries |
| Annotations.EntriesExact | internal/annotations/annotations.go:404-417 | the entries are exactly the trimmed parts that are not empty |
| Annotations.TrimSpaceExact | internal/annotations/annotations.go:411 | trimming takes exactly the white space off both ends |
| Annotations.SplitExact | internal/annotations/annotations.go:409 | splitting at commas loses nothing and leaves no comma |
| Annotations.ParsedIsClean | internal/config/config.go:125-132 | no parsed entry is empty, padded or contains a comma |
| Annotations.JoinParse | charts/uptime-kuma-operator/templates/deployment.yaml:106 | a list comes back from its comma join exactly if all its strings are non-empty, trimmed and comma-free |
| Annotations.ParseIsStable | internal/annotations/annotations.go:404-417 | parse, join, parse is parse, for every input |
| Annotations.Annotated.SetMonitorIDs | internal/annotations/annotations.go:476-484 | in place, the ids read back are those written, the empty map removes the annotation, and no other changes |
| Annotations.Annotated.SetSyncedHash | internal/annotations/annotations.go:496-503 | in place, the hash reads back as written, "" removes the annotation, and no other changes |
| Annotations.Annotated.Mark | internal/controller/sync.go:223-229 | both marks read back as written and no other annotation changes |
| Strconv.FormatParse | internal/controller/sync.go:79 | every int64 comes back from its decimal form |
| Strconv.ParseExact | internal/derive/service.go:154 | what parses is exactly an optional sign and digits, as their value by position, within the bounds |
| Strconv.FormatIsPlain | internal/controller/sync.go:79 | what is written has no plus and no leading zero |
| Strconv.ParseIsNotInjective | internal/controller/sync.go:62 | different stored strings can name one id, which is why canonical form is part of the invariant |
| Store.UpsertActs | internal/kuma/fake.go:53-66 | a creation issues an id never issued before; nothing but the one monitor changes |
| Store.DeleteActs | internal/kuma/fake.go:68-77 | the monitor is gone, nothing else changes, and its id keeps its owner |
| FakeClient.FakeClient.Upsert | internal/kuma/fake.go:53-66 | for every id, the in-memory client does what the store does and counts the call; a creation overwrites nothing as long as all ids were issued, which stays so exactly if callers pass 0 or an issued id |
| FakeClient.FakeClient.Delete | internal/kuma/fake.go:68-77 | the same for deletes; deleting what is gone changes nothing |
| FakeClient.FakeClient.ExistingSpecs | internal/kuma/fake.go:79-90 | the copying loop returns the whole store, in any order |
| FakeClient.FakeClient.CreateTag | internal/kuma/fake.go:128-137 | tags keep distinct ids exactly if no other tag already has the next number |
| FakeClient.SeededTagIsReissued | internal/kuma/fake.go:128-137 | a seeded tag of id 1 shares its id with the first created one |
| Iteration.AnyOrder | internal/controller/sync.go:82 | some enumeration of a map's keys; the loops over maps are proved for every one |
| Fingerprint.CollisionFreeIsPossible | internal/controller/sync.go:38-45 | the assumption on the fingerprint can be met |

## Left out

- Socket.IO, login, sessions, connect timeouts and the breml library: a call is an abstract operation
  that succeeds, fails, or fails after taking effect.
- toKumaSpec: a Monitor's spec is taken as converted, without ids and Secret values.
- Telemetry, the managed-monitors gauge, logging and Events: they influence no decision.
- Controller wiring, informers, work queues, requeue intervals and backoff: a next reconcile may begin
  at any later time or never.
- Parsing of the single override annotations, Secret lookup, JSON, SHA-256 and regular expressions:
  parsed overrides, Secret values, an id codec, a fingerprint and predicates on label keys are inputs.
- Termination of a whole reconcile is proved (the methods terminate); that a reconcile is ever started
  again is not.
- Groups, and the types of other monitors the operator does not manage, are separate tables of the
  store. That a listing fails because of them is a restriction on which calls the operator's own client
  can make (`Possible` in the completion modules); the other theorems hold with and without it.
- The tag calls of one monitor are one step of the machines; their single calls are in `Tags.TagServer`.
- `connectionLost` is a free choice for each call; which errors count as lost is not modelled.
- ReconnectingClient.Client.Get: a thread may wait for the lock for ever, because nothing is assumed about scheduling; a method then returns while the thread still waits.
- Store.UpsertActs: no id is issued beyond the largest int64, where the in-memory client would wrap around.
- Quiescence.HostStaysQuiet: tag calls are not counted as writes; `Tags.TagServer.SetMonitorTags` shows that they change nothing when the tags are right.
