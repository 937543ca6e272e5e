# A verified model of the QuestDB operator

The operator watches four kinds of objects in a Kubernetes namespace and moves them along through an API
server that it shares with users, other controllers and its own other workers. This project models

* the snapshot controller: the phases "" → Pending → Running → Finalizing → Succeeded/Failed, the two SQL
  jobs, the VolumeSnapshot and the finalizer that keeps a snapshot alive from before Running until its end;
* the schedule controller: cron activations, the gate on the newest child, retention, requeueing;
* the admission webhooks of all three resource kinds;
* the QuestDB controller: config map, volume claim, stateful set, service;
* the selection of secrets the controllers share.

and proves what holds of every history, not only of undisturbed ones.

## How it is built

`Lifecycle` describes one snapshot name as an atomic state machine, a *lane*: the snapshot, its two jobs, its
VolumeSnapshot and a history variable. `Planning` does the same for one schedule, `Cluster` puts any number
of both into one store whose maps are keyed by API names, and lists the legal moves of everybody. `Safety`,
`Stranding`, `ClusterSafety`, `Activations` and `Pruning` prove invariants and theorems about all histories of such moves.

`Api.ApiServer` is the store as a client sees it. Every call may be lost, may take effect although its answer
is lost, or may be refused because somebody else wrote first; `Environment` lets everybody else make any
number of legal moves. `SnapshotController` and `ScheduleController` are the reconcilers, call by call, with
such a turn before every call. Their contracts say two things. In any cluster each call makes one legal move,
so every theorem about histories holds of them. In a calm cluster, where nobody else moves and no call fails but
lookups of what is out of reach, they do exactly what `Pass` and `Passed` say; `SnapshotLaws` and `ScheduleLaws`
say what that is, with all constants written out, and `Progress`, `Wakeups` and `Exclusion` build on it. `Operator.Manager.Serve`
ties both reconcilers to the theorems for any work queue.

`Deployment` and `DatabaseController` follow the same plan for the QuestDB controller, whose objects no other
controller here touches; `DatabaseLaws` says what is deployed. `Admission` holds the resource types with their webhooks, `AdmissionLaws` what these store and let through, `Secrets`, `Retention` and
`Crontab` the algorithms.

## What the model assumes

* One worker per key at a time, and a fresh read at the start of each reconcile.
* Names of snapshots and schedules are used once, and no job or VolumeSnapshot of that name is left from before.
* Jobs only gain failed pods or become succeeded; a VolumeSnapshot only becomes ready; nobody but the
  operator deletes them while the snapshot exists. Once it is gone, what it owned may be collected.
* No admission webhook stands between a controller and the store, in the calm case neither; what the webhooks
  would refuse of a controller's own writes is in `Admission.ResendableIff`.
* Users set a deletion mark at most once, do not edit status or this operator's finalizer, and cannot add
  finalizers to an object marked for deletion; an object marked and without finalizers disappears.
* The API server refuses a job with a negative backoff limit.
* Creation times of one schedule's children strictly increase; the clock never goes back.
* The spec of a snapshot and the snapshot template of a schedule do not change (proved of the webhooks).
* Cron expressions denote functions obeying `Crontab.Lawful`: `next` is the least tick strictly later, ticks are
  whole minutes, one always follows. The parser and the timestamp format are parameters.
* The server refuses a stateful set whose template lacks a label its selector asks for, and a change of the
  selector; it takes every other write to the children.
* The server completes each field of a stateful set by itself and idempotently, labels not at all (`Deployment.Idempotent`),
  and others do not change the request or the source of a claim, though they may delete it.

## What turned out differently than one might expect

* A backoff limit of 2147483646 or 2147483647 is admitted, but `limit + 2` wraps around to a negative number and
  the job is refused. In no history does such a snapshot get a PREPARE job or beyond Pending, except by failing
  for a missing database or class (`Progress.BackoffFits`, `Stranding.StuckForEver`).
* Once PREPARE has succeeded, the database is not always completed. Over all histories, when the snapshot has come
  to its end, COMPLETE is never created exactly if one of four steps was taken (`Stranding.NeverCompletedExactly`).
  After PREPARE had succeeded, a deletion took effect while the snapshot was Pending and no finalizer held it, or a
  Pending reconcile failed it for a missing class, or one failed it for the pods PREPARE had lost; or PREPARE
  succeeded only after the snapshot had failed or gone, as its job is allowed two more attempts and is not deleted.
  `Stranding.PreparedDeleted`, `PreparedLeftBehind`, `PreparedWithLosses` and `PreparedTooLate` are whole histories
  of the four.
* A PREPARE job that succeeds after deletion was requested cannot move its snapshot on, because the finalizer
  can no longer be added (`Progress.PendingMovesOn`).
* The gate lets a second snapshot start beside one in phase "": `Exclusion.TwoInFlight` is a history that ends so.
  An undisturbed reconcile keeps all children but the newest complete, except exactly if it is due, the name is
  free, and the newest child it listed is in phase "" (`Exclusion.PassExclusiveIff`).
* The controller's own default of a missing backoff limit is refused by the webhook whenever it is needed, as is
  every other update of such an object (`Admission.ResendableIff`).
* A negative retention is admitted, and then every success is deleted (`Admission.ScheduleAdmittedIff`,
  `Retention.DoomedExact`).
* A volume size of 0 can be reached by some sequence of updates exactly if the database was created with a
  negative size, which is admitted (`Admission.ZeroSizeReachableIff`, `Admission.DatabaseAdmittedIff`).
* The project's README (line 32) promises that annotations on child objects persist. One on the stateful set does
  exactly if the spec asks for the same one or the server refuses the update; one on the config map exactly if its data was up to date
  (`DatabaseController.AnnotationsPersistIff`, `DatabaseController.ConfigAnnotationsPersistIff`).
* After a change of labels the server refuses the stateful set's update unless its selector still fits, and the
  reconcile stops there: the status and the service are not reached. Reconciles converge exactly otherwise
  (`DatabaseController.Converges`). A service never follows a change of labels (`DatabaseController.ServiceFollowsIff`).
* The jobs look up credentials under the snapshot's name and under keys (`QDB_PSQL_*`) other than those a psql
  secret must have (`QDB_PG_*`), and otherwise log in with the defaults (`Progress.JobCredentials`).

## Model

| member | source | states |
|---|---|---|
| `SnapshotController.SnapshotReconciler.Reconcile` | internal/controller/questdbsnapshot_controller.go:58-97 | Whatever others do between its calls and whichever calls fail, every call is a legal move; undisturbed, it turns the lane into `Pass` of it and touches no other snapshot |
| `SnapshotController.SnapshotReconciler.Dispatch` | internal/controller/questdbsnapshot_controller.go:71-97 | The missing backoff limit is written first, then the handler of the phase read is run |
| `SnapshotController.SnapshotReconciler.HandlePhaseEmpty` | internal/controller/questdbsnapshot_controller.go:220-243 | Fails the snapshot only if the database was seen missing; any other answer, errors included, moves it to Pending |
| `SnapshotController.SnapshotReconciler.HandlePhasePending` | internal/controller/questdbsnapshot_controller.go:245-319 | Checks the class on every pass, then prepares; undisturbed it equals `PassPending` |
| `SnapshotController.SnapshotReconciler.HandlePreparation` | internal/controller/questdbsnapshot_controller.go:281-319 | Finalizer, then phase, then failure if attempts are used up, in one call and possibly all three |
| `SnapshotController.SnapshotReconciler.AddGuard` | internal/controller/questdbsnapshot_controller.go:284-291 | Ends well exactly if the finalizer is in place, which is refused exactly if deletion came first |
| `SnapshotController.SnapshotReconciler.HandlePhaseRunning` | internal/controller/questdbsnapshot_controller.go:321-350 | Creates or fetches the VolumeSnapshot and moves on exactly if it is ready |
| `SnapshotController.SnapshotReconciler.HandlePhaseFinalizing` | internal/controller/questdbsnapshot_controller.go:352-392 | Creates or fetches the COMPLETE job; success is looked at before failure |
| `SnapshotController.SnapshotReconciler.HandlePhaseFailed` | internal/controller/questdbsnapshot_controller.go:394-406 | Removes the finalizer, and with it a deleted object |
| `SnapshotController.SnapshotReconciler.HandlePhaseSucceeded` | internal/controller/questdbsnapshot_controller.go:408-441 | Removes the finalizer, then both jobs |
| `SnapshotController.SnapshotReconciler.ObtainJob` | internal/controller/questdbsnapshot_controller.go:265-279 | The job held is the one stored, created if it was missing, with the limits and credentials `JobFor` gives |
| `SnapshotController.SnapshotReconciler.EnsureVolume` | internal/controller/questdbsnapshot_controller.go:323-335 | The VolumeSnapshot held is the one stored, created if it was missing |
| `SnapshotController.SnapshotReconciler.WriteStatus` | internal/controller/questdbsnapshot_controller.go:239-241 | A phase write justified by the last read is still justified when it lands, or does not land |
| `SnapshotController.PhaseEdgeStable` | internal/controller/questdbsnapshot_controller.go:294-301 | Nothing others may do can make a justified phase write unjustified while the version is unchanged |
| `Cluster.JobNameInjective` | internal/controller/questdbsnapshot_controller.go:108-114 | Derived job names never collide across snapshots or stages |
| `Cluster.PutLaneFrame` | internal/controller/questdbsnapshot_controller.go:141-143 | Writing the objects of one snapshot name changes nothing that belongs to another |
| `Cluster.WorkerTouchesOneLane` | internal/controller/questdbsnapshot_controller.go:422-438 | Reconciling one snapshot leaves every other snapshot, its jobs and its VolumeSnapshot alone |
| `ClusterSafety.LanesRun` | internal/controller/questdbsnapshot_controller.go:56-97 | In any history of the whole cluster each snapshot name lives a legal history of its own |
| `ClusterSafety.LanesSafe` | internal/controller/questdbsnapshot_controller.go:56-97 | The single-snapshot invariant holds of every snapshot in every reachable store |
| `Safety.InvHolds` | internal/controller/questdbsnapshot_controller.go:220-441 | The invariant on shape, order, causes, job creation and write budget holds in every state of every history |
| `Safety.PhaseEdges` | internal/controller/questdbsnapshot_controller.go:220-392 | Only the listed phase changes occur; Running fails only inside a reconcile that began in Pending |
| `Safety.FinalizerGuards` | internal/controller/questdbsnapshot_controller.go:284-301 | In Running and Finalizing the finalizer is present and PREPARE has succeeded |
| `Safety.CannotVanish` | internal/controller/questdbsnapshot_controller.go:400-420 | A snapshot once persisted as Running or Finalizing was persisted as terminal before it disappears |
| `Safety.SevenWrites` | internal/controller/questdbsnapshot_controller.go:73-79 | The controller writes one snapshot at most seven times in its life |
| `Safety.WriteSpendsBudget` | internal/controller/questdbsnapshot_controller.go:285-301 | Each of those writes strictly lowers a measure |
| `Safety.EnvKeepsBudget` | internal/controller/questdbsnapshot_controller.go:285-301 | Nothing others do raises that measure again |
| `Safety.PipelineOrder` | internal/controller/questdbsnapshot_controller.go:282-376 | A Succeeded snapshot has PREPARE success, COMPLETE create and COMPLETE success in this order; with VolumeSnapshot create and ready between them exactly if some reconcile found it in Running, which holds of every one never marked for deletion |
| `Safety.CompleteIffLate` | internal/controller/questdbsnapshot_controller.go:368-391 | A terminal snapshot has had COMPLETE run to its end exactly if some reconcile found it in Running or Finalizing |
| `Safety.FailureExplained` | internal/controller/questdbsnapshot_controller.go:226-389 | Every failure has one of four recorded causes |
| `Safety.JobsCreatedOnce` | internal/controller/questdbsnapshot_controller.go:265-366 | COMPLETE is created at most once ever; PREPARE at most once while the snapshot exists, cleanup included, and at most twice ever |
| `Progress.PendingMovesOn` | internal/controller/questdbsnapshot_controller.go:281-318 | With the class and secrets in order and the limit in range, a finished PREPARE job changes the phase, except exactly when deletion forestalled the finalizer |
| `Progress.FinalizingEnds` | internal/controller/questdbsnapshot_controller.go:368-391 | A finished COMPLETE job ends the snapshot, in success exactly if the job succeeded |
| `Progress.BuiltHolds` | internal/controller/questdbsnapshot_controller.go:139-218 | In every reachable state the jobs and the VolumeSnapshot are for the database and class of the spec, and the jobs allow two failed pods more than it |
| `Progress.FinishedJobsMoveOn` | internal/controller/questdbsnapshot_controller.go:281-391 | Both: in every state any history reaches, a finished job lets one undisturbed reconcile move the snapshot on, with the same one exception |
| `Progress.BackoffFits` | internal/controller/questdbsnapshot_controller.go:147 | A job for a positive limit is valid exactly up to 2147483645 |
| `Progress.StuckAboveRange` | internal/controller/questdbsnapshot_controller.go:147 | Above that an undisturbed reconcile leaves a Pending snapshot unchanged |
| `Stranding.StuckForEver` | internal/controller/questdbsnapshot_controller.go:147 | And in no history does such a snapshot get a PREPARE job, or beyond Pending but by failing for a missing database or class |
| `Progress.PreparedAbandoned` | internal/controller/questdbsnapshot_controller.go:248-318 | When an undisturbed Pending reconcile fails a prepared snapshot without COMPLETE, and when it leaves it in Pending |
| `Stranding.AbandonsExactly` | internal/controller/questdbsnapshot_controller.go:245-319 | The steps that end a prepared snapshot no reconcile has found past PREPARE are exactly three, by the guards of those steps |
| `Stranding.NeverCompletedExactly` | internal/controller/questdbsnapshot_controller.go:281-406 | Over all histories whose snapshot has come to its end after PREPARE succeeded or before: COMPLETE is never created exactly if such a step was taken after the success, or the success itself came after the end |
| `Stranding.PreparedLeftBehind` | internal/controller/questdbsnapshot_controller.go:253-257 | A whole history in which the class disappears after PREPARE |
| `Stranding.PreparedDeleted` | internal/controller/questdbsnapshot_controller.go:282-291 | A whole history in which deletion comes between PREPARE success and the finalizer |
| `Stranding.PreparedWithLosses` | internal/controller/questdbsnapshot_controller.go:282-316 | A whole history in which one reconcile guards a snapshot, writes Running and fails it |
| `Stranding.PreparedTooLate` | internal/controller/questdbsnapshot_controller.go:311-316 | A whole history in which the snapshot fails for a lost pod and its PREPARE job succeeds afterwards |
| `Progress.TerminalSettles` | internal/controller/questdbsnapshot_controller.go:394-441 | Terminal snapshots lose finalizer and, if successful, jobs; a second reconcile changes nothing |
| `Progress.GoldenPathToRunning` | internal/controller/questdbsnapshot_controller.go:220-309 | Three undisturbed reconciles and one PREPARE success take a fresh snapshot to Running |
| `Progress.GoldenPathToEnd` | internal/controller/questdbsnapshot_controller.go:321-441 | Five more, with the volume ready and COMPLETE successful, take it to a settled Succeeded |
| `Progress.JobCredentials` | internal/controller/questdbsnapshot_controller.go:117-137 | Which user and password the jobs get, in terms of the secrets annotated with the snapshot's name |
| `SnapshotLaws.KeptUnder` | internal/controller/questdbsnapshot_controller.go:141-203 | Under which names a snapshot's jobs and VolumeSnapshot are kept |
| `SnapshotLaws.IdentityKept` | internal/controller/questdbsnapshot_controller.go:71-79 | Whatever the phase, nothing of the spec changes but a missing limit, which becomes 5, nor the mark, the owner or the age |
| `SnapshotLaws.UnknownLeft` | internal/controller/questdbsnapshot_controller.go:94-96 | A phase nobody knows is left alone |
| `SnapshotLaws.EmptyDecides` | internal/controller/questdbsnapshot_controller.go:220-243 | A new snapshot fails exactly if its database is seen missing, and goes on to Pending even if that cannot be told |
| `SnapshotLaws.MissingClassStops` | internal/controller/questdbsnapshot_controller.go:247-260 | A missing class fails a Pending snapshot and nothing is created, whatever jobs and secrets there are |
| `SnapshotLaws.MissCreatesNothing` | internal/controller/questdbsnapshot_controller.go:226-260 | In no history does a reconcile that has found the class or the database missing create a job |
| `SnapshotLaws.DisorderWaits` | internal/controller/questdbsnapshot_controller.go:266-269 | With secrets in disorder or out of reach a Pending or Finalizing snapshot waits |
| `SnapshotLaws.PendingPrepares` | internal/controller/questdbsnapshot_controller.go:265-279 | A Pending snapshot without a PREPARE job gets exactly that, if its limit fits |
| `SnapshotLaws.PendingDecides` | internal/controller/questdbsnapshot_controller.go:281-319 | With one, phase and finalizer in terms of the job's success, its lost pods against the limit, the mark and the finalizer |
| `SnapshotLaws.RunningDecides` | internal/controller/questdbsnapshot_controller.go:321-350 | A Running snapshot, marked or not, gets its VolumeSnapshot, waits for it, and is finalized |
| `SnapshotLaws.FinalizingCompletes` | internal/controller/questdbsnapshot_controller.go:352-366 | A Finalizing snapshot without a COMPLETE job gets exactly that, if its limit fits |
| `SnapshotLaws.FinalizingDecides` | internal/controller/questdbsnapshot_controller.go:368-391 | With one, it succeeds if the job has, and else fails at the limit of lost pods |
| `SnapshotLaws.TerminalDecides` | internal/controller/questdbsnapshot_controller.go:394-441 | A terminal snapshot loses the operator's finalizer only, and goes if marked and left with none; a successful one loses its jobs |
| `Secrets.GetSecrets` | internal/secrets/secrets.go:28-68 | The loop returns what `Select` describes |
| `Secrets.ValidatePsql` | internal/secrets/secrets.go:84-117 | True exactly if both keys are present and not empty, in whatever order they are visited |
| `Secrets.SelectExact` | internal/secrets/secrets.go:40-67 | Succeeds exactly if all secrets of that name have known types, at most one of each, with valid contents; and chooses those |
| `Secrets.SelectLiterally` | internal/secrets/secrets.go:40-117 | The same with annotations, types and keys written out |
| `Secrets.SelectOrderFree` | internal/secrets/secrets.go:40-67 | Any permutation of the list gives the same success or failure and the same choice |
| `Retention.SortDescending` | internal/controller/questdbsnapshotschedule_controller.go:188-191 | Insertion with the non-strict comparison terminates in a descending permutation |
| `Retention.FilterOwned` | internal/controller/questdbsnapshotschedule_controller.go:193-197 | The loop keeps the owned items |
| `Retention.OwnedExact` | internal/controller/questdbsnapshotschedule_controller.go:193-197 | Exactly the owned ones, as often as they were listed |
| `Retention.OwnedDescending` | internal/controller/questdbsnapshotschedule_controller.go:193-199 | Filtering keeps the order |
| `Retention.DoomedExact` | internal/controller/questdbsnapshotschedule_controller.go:203-225 | Deleted are exactly the successes after the first `retention`; min(retention, total) remain, none if it is negative |
| `Retention.OnlySuccessesDoomed` | internal/controller/questdbsnapshotschedule_controller.go:209-221 | Nothing but a success is ever deleted |
| `Retention.NewestKept` | internal/controller/questdbsnapshotschedule_controller.go:209-221 | However ties were ordered, nothing kept is older than anything deleted |
| `Retention.NewcomerIgnored` | internal/controller/questdbsnapshotschedule_controller.go:131-140 | The new snapshot put in front changes nothing, even as a duplicate |
| `Retention.RetryCompletes` | internal/controller/questdbsnapshotschedule_controller.go:215-218 | After a pass some of whose deletions have left the list and others are still pending, a repetition dooms of what is listed exactly what the first pass doomed |
| `Retention.AbortedPassResumes` | internal/controller/questdbsnapshotschedule_controller.go:215-218 | In particular, a pass aborted after any number of deletions leaves exactly the rest to the next |
| `Retention.LaterPassDoomsNoMore` | internal/controller/questdbsnapshotschedule_controller.go:203-225 | A later pass over any reordering or part of the list dooms nothing that an earlier one spared |
| `Retention.SortAndFilter` | internal/controller/questdbsnapshotschedule_controller.go:187-199 | The children are the owned part of some descending permutation of the listing |
| `Retention.DoomedIsExcess` | internal/controller/questdbsnapshotschedule_controller.go:209-221 | What is deleted was listed beside at least `retention` other successes no older, however the listing was sorted |
| `Pruning.DeletesOnlyExcess` | internal/controller/questdbsnapshotschedule_controller.go:140 | Over all histories: whenever a schedule deletes a child, the reconcile went by a stored retention and had listed the child as a success beside at least that many others no older |
| `ScheduleController.ScheduleReconciler.Reconcile` | internal/controller/questdbsnapshotschedule_controller.go:56-145 | Legal moves only, whatever happens in between; the delay asked for is reckoned by the schedule that was read from an instant since the call; if success is reported, a due activation is recorded and every listed child in excess of the retention is marked or gone; undisturbed, the exact new state |
| `ScheduleController.ScheduleReconciler.DefaultRetention` | internal/controller/questdbsnapshotschedule_controller.go:71-77 | Retention 0 becomes 7 and is persisted |
| `ScheduleController.ScheduleReconciler.ListChildren` | internal/controller/questdbsnapshotschedule_controller.go:176-200 | The children are complete, distinct, descending, and their head is the newest |
| `ScheduleController.ScheduleReconciler.MirrorPhase` | internal/controller/questdbsnapshotschedule_controller.go:84-95 | Past it the mirrored phase is that of the newest child, "" if there is none |
| `ScheduleController.ScheduleReconciler.RecordActivation` | internal/controller/questdbsnapshotschedule_controller.go:108-114 | The activation is persisted before anything answers it |
| `ScheduleController.ScheduleReconciler.Activate` | internal/controller/questdbsnapshotschedule_controller.go:108-137 | A due activation is recorded, and answered exactly if the gate is open and the name unused |
| `ScheduleController.ScheduleReconciler.Answer` | internal/controller/questdbsnapshotschedule_controller.go:116-137 | Creates exactly if the gate is open and the name is free; a failure to create stops nothing |
| `ScheduleController.ScheduleReconciler.CreateChild` | internal/controller/questdbsnapshotschedule_controller.go:120-136 | At most five tries, each but the last answered by a conflict, and all five if the last was too; an existing snapshot is as good as a new one |
| `ScheduleController.ScheduleReconciler.CollectGarbage` | internal/controller/questdbsnapshotschedule_controller.go:203-225 | Deletes a prefix of `Doomed`, all of it unless a delete fails |
| `ScheduleController.GateKeepsQuiet` | internal/controller/questdbsnapshotschedule_controller.go:117 | A complete newest child in the listing means the one made last is complete now |
| `ClusterSafety.HatchExact` | internal/controller/questdbsnapshotschedule_controller.go:117-125 | Making a snapshot keeps all older children complete exactly if the newest one listed showed a phase, or the one made last is complete or gone by now |
| `Exclusion.PassExclusiveIff` | internal/controller/questdbsnapshotschedule_controller.go:84-132 | An undisturbed reconcile keeps all children but the newest complete, except exactly if it is due, the name is free, and the newest child it listed is in phase "" |
| `Exclusion.TwoInFlight` | internal/controller/questdbsnapshotschedule_controller.go:117 | A history that ends with two unfinished children |
| `ClusterSafety.OneInFlight` | internal/controller/questdbsnapshotschedule_controller.go:84-132 | If no reconcile recorded an activation after listing the newest child in phase "", at most one child is unfinished in every reachable store |
| `ClusterSafety.ExclusiveHolds` | api/v1beta1/questdbsnapshot_types.go:82-84 | Under the same condition on the listings all children but the newest are complete |
| `Activations.AtMostOncePerTick` | internal/controller/questdbsnapshotschedule_controller.go:97-137 | The snapshots a schedule ever made, deleted ones included, inject into cron ticks after its creation and not in the future; every child is one of them, named after its activation |
| `Activations.DueByNext` | internal/controller/questdbsnapshotschedule_controller.go:98-106 | Each new activation is due by the cron text stored when it is recorded |
| `Activations.OwnTicksAnswered` | internal/controller/questdbsnapshotschedule_controller.go:97-137 | While that text is not edited, every child answers its own tick of that very text |
| `Activations.RegisteredHolds` | internal/controller/questdbsnapshotschedule_controller.go:155-166 | Every child is remembered under the name made from its activation, and no remembered name is free |
| `Activations.RecordAdvances` | internal/controller/questdbsnapshotschedule_controller.go:108-114 | Each recorded activation moves the persisted time strictly forward, past every tick missed |
| `Wakeups.DueExact` | internal/controller/questdbsnapshotschedule_controller.go:98-108 | Due exactly if a tick has come since the last activation, or the creation |
| `Wakeups.WakeUpExact` | internal/controller/questdbsnapshotschedule_controller.go:142-144 | The delay is positive and ends exactly when the schedule is next due |
| `Wakeups.SameInstantQuiet` | internal/controller/questdbsnapshotschedule_controller.go:106-110 | A schedule that has fired cannot fire again at the same instant, even if edited |
| `Wakeups.MissedTicksCollapse` | internal/controller/questdbsnapshotschedule_controller.go:106-110 | After a reconcile no tick up to now is pending |
| `Wakeups.SecondPassQuiet` | internal/controller/questdbsnapshotschedule_controller.go:56-145 | A second undisturbed reconcile at the same instant fires, creates and deletes nothing |
| `Crontab.TruncKeepsNext` | internal/controller/questdbsnapshotschedule_controller.go:110-111 | Persisting a time to the second never moves the next activation |
| `ScheduleLaws.ChildMadeIff` | internal/controller/questdbsnapshotschedule_controller.go:106-125 | An undisturbed reconcile makes a child named for now exactly if a tick has come, the name is free, and there is no child or the newest is in phase "", Succeeded or Failed; and what that child is |
| `ScheduleLaws.RecordedIff` | internal/controller/questdbsnapshotschedule_controller.go:71-111 | The second of now is recorded exactly if a tick has come; a missing retention becomes 7 |
| `ScheduleLaws.MirroredIsNewest` | internal/controller/questdbsnapshotschedule_controller.go:84-95 | The phase mirrored is the newest child's, or none |
| `ScheduleLaws.AwakeAtNextTick` | internal/controller/questdbsnapshotschedule_controller.go:98-144 | The next reconcile is asked for at the first tick after now, or not at all if the text is invalid |
| `ScheduleLaws.DeletedIff` | internal/controller/questdbsnapshotschedule_controller.go:203-225 | A child is deleted exactly if it succeeded and at least as many younger ones did as the retention says; every other snapshot but the new one stays |
| `ScheduleLaws.ChildNameText` | internal/controller/questdbsnapshotschedule_controller.go:161 | A child is named after its schedule and the second |
| `ScheduleLaws.ChildNamesApart` | internal/controller/questdbsnapshotschedule_controller.go:161 | With times written at equal length, equal names mean equal schedules and times |
| `ScheduleLaws.NoNameShared` | internal/controller/questdbsnapshotschedule_controller.go:161 | Over all histories no schedule makes a snapshot under a name another one has used or would use |
| `ScheduleLaws.NameLeftFree` | internal/controller/questdbsnapshotschedule_controller.go:120-126 | So a name a schedule has not used is no other schedule's child |
| `Operator.Manager.Serve` | internal/controller/questdbsnapshotschedule_controller.go:56-145 | For any list of requests to both reconcilers and any interference, every store passed through is safe, phases move along legal edges, and schedules whose listings never showed phase "" have one child in flight |
| `Operator.HistorySafe` | internal/controller/questdbsnapshot_controller.go:56-97 | The same of every history |
| `Admission.QuestDBSnapshot.Default` | api/v1beta1/questdbsnapshot_webhook.go:47-53 | Sets a missing backoff limit to 5 and changes nothing else |
| `Admission.QuestDBSnapshotSchedule.Default` | api/v1beta1/questdbsnapshotschedule_webhook.go:48-58 | Sets a missing backoff limit and retention and changes nothing else |
| `Admission.QuestDB.Default` | api/v1beta1/questdb_webhook.go:48-58 | Sets a missing pull policy and volume group and changes nothing else |
| `Admission.SnapshotSpecFrozen` | api/v1beta1/questdbsnapshot_webhook.go:60-89 | Whatever is submitted, a stored snapshot spec is sound, with a positive limit, and never changes |
| `AdmissionLaws.SnapshotStoredAsSent` | api/v1beta1/questdbsnapshot_webhook.go:47-53 | What is set is stored as sent; a missing limit becomes 5 |
| `AdmissionLaws.ScheduleStoredAsSent` | api/v1beta1/questdbsnapshotschedule_webhook.go:48-58 | What is set is stored as sent; a missing limit becomes 5, a missing retention 7 |
| `AdmissionLaws.DatabaseStoredAsSent` | api/v1beta1/questdb_webhook.go:48-58 | What is set is stored as sent; a missing policy becomes IfNotPresent, a missing group 10001 |
| `AdmissionLaws.SnapshotCreatedIff` | api/v1beta1/questdbsnapshot_webhook.go:60-74 | When exactly a snapshot is let in |
| `AdmissionLaws.SnapshotUpdatedIff` | api/v1beta1/questdbsnapshot_webhook.go:76-89 | Only an unchanged spec is, later; a limit of 5 may be left out |
| `AdmissionLaws.ScheduleCreatedIff` | api/v1beta1/questdbsnapshotschedule_webhook.go:66-76 | When exactly a schedule is let in |
| `AdmissionLaws.ScheduleUpdatedIff` | api/v1beta1/questdbsnapshotschedule_webhook.go:79-94 | Later the cron text may change to any that parses and the retention to anything, the snapshot not |
| `AdmissionLaws.DatabaseUpdatedIff` | api/v1beta1/questdb_webhook.go:122-168 | Everything may change but the volume's source, and the size only upwards |
| `AdmissionLaws.SnapshotObjection` | api/v1beta1/questdbsnapshot_webhook.go:60-74 | The first fault is the one objected to |
| `AdmissionLaws.DatabaseObjection` | api/v1beta1/questdb_webhook.go:101-168 | Which faults of a QuestDB lead to which objection; an empty policy never does |
| `Admission.SpentMeansLost` | internal/controller/questdbsnapshot_controller.go:311-313 | With an admitted spec the failure branch is not taken before a pod has failed |
| `Progress.FailureNeedsLoss` | internal/controller/questdbsnapshot_controller.go:226-389 | In no history does a snapshot with an admitted spec fail unless its database or class was seen missing or a job lost a pod |
| `Admission.ResendableIff` | api/v1beta1/questdbsnapshot_webhook.go:76-89 | Some update of a stored spec is admitted exactly if its limit is not 0; the controller's default is not |
| `Admission.ScheduleAdmittedIff` | api/v1beta1/questdbsnapshotschedule_webhook.go:66-76 | Admission looks at the cron text and the snapshot spec only |
| `Admission.ScheduleKept` | api/v1beta1/questdbsnapshotschedule_webhook.go:66-94 | In a stored schedule the cron text parses, the retention is set, the snapshot spec is sound and constant |
| `Admission.ChildrenAdmitted` | internal/controller/questdbsnapshotschedule_controller.go:155-166 | Every snapshot built from a stored schedule passes snapshot admission unchanged |
| `Admission.EditsAsAssumed` | api/v1beta1/questdbsnapshotschedule_webhook.go:79-94 | Admitted edits are those the schedule controller's histories allow |
| `Admission.DatabaseKept` | api/v1beta1/questdb_webhook.go:101-168 | A stored database keeps everything about its volume but the size, which only grows, and never names both sources |
| `Admission.ZeroSizeIff` | api/v1beta1/questdb_webhook.go:130-132 | An update can make the size 0 exactly if it is 0 or below |
| `Admission.ZeroSizeReachableIff` | api/v1beta1/questdb_webhook.go:87-168 | Some sequence of submissions reaches size 0 exactly if the database was created with a negative size |
| `Admission.DatabaseAdmittedIff` | api/v1beta1/questdb_webhook.go:87-119 | Creation is admitted exactly if the size is not 0, the configuration is clean and the source is one |
| `Deployment.ClaimNeverShrinks` | internal/controller/questdb_controller.go:463-496 | Over every interleaving of admitted updates with the worker's calls, claims lost included, a later claim never requests less |
| `Deployment.ClaimWithinSpec` | internal/controller/questdb_controller.go:463-496 | Claim request ≤ local size ≤ stored size, and all agree on snapshot, selector, class and volume name, so comparing sizes is enough |
| `DatabaseController.DatabaseReconciler.Reconcile` | internal/controller/questdb_controller.go:62-105 | Legal steps only, whatever happens in between: each child written is the one wanted for the database and the secrets this reconcile has read; if success is reported, config map, claim, stateful set and service were each, in this order, as wanted at some moment; undisturbed it equals `DbPass` |
| `DatabaseController.DatabaseReconciler.BuildStatefulSet` | internal/controller/questdb_controller.go:123-285 | Built step by step, the stateful set is the wanted one |
| `DatabaseController.DatabaseReconciler.EnsureStatefulSet` | internal/controller/questdb_controller.go:287-341 | The stateful set is created, or written with its five compared fields overwritten if any differs; it ends well exactly if the server takes it |
| `DatabaseController.DatabaseReconciler.ReconcileStatefulSet` | internal/controller/questdb_controller.go:287-351 | And the ready replicas are copied into the status |
| `DatabaseController.DatabaseReconciler.ReconcilePvc` | internal/controller/questdb_controller.go:463-496 | Creates the claim or resizes it to the local size |
| `DatabaseController.DatabaseReconciler.ReconcileConfigMap` | internal/controller/questdb_controller.go:535-568 | Creates the config map or replaces it whole if its data differs |
| `DatabaseController.DatabaseReconciler.ReconcileService` | internal/controller/questdb_controller.go:392-414 | Creates the service, and never changes it |
| `Deployment.MountsDeclared` | internal/controller/questdb_controller.go:210-278 | Every volume the operator mounts is declared, and a secret is mounted exactly if there is an ILP secret |
| `DatabaseLaws.PathsBacked` | internal/controller/questdb_controller.go:210-267 | The database directory is the claim, the configuration directory the config map, the credentials directory the ILP secret exactly if there is one |
| `DatabaseLaws.OwnMounts` | internal/controller/questdb_controller.go:210-267 | The mounts and volumes are these and the user's |
| `DatabaseLaws.SpecDeployed` | internal/controller/questdb_controller.go:123-278 | Image, policy, environment, resources, labels and annotations are the spec's; the psql secret is the environment's source |
| `DatabaseLaws.ConfigTexts` | internal/controller/questdb_controller.go:498-527 | The three texts of the config map, with the credentials line exactly if there is an ILP secret |
| `DatabaseLaws.ClaimAsAsked` | internal/controller/questdb_controller.go:416-496 | A missing claim is made as the spec says; of an existing one only the request changes |
| `DatabaseLaws.ConfigAsAsked` | internal/controller/questdb_controller.go:535-568 | An up-to-date config map stays, any other is replaced with its labels and annotations |
| `DatabaseLaws.ServiceAsAsked` | internal/controller/questdb_controller.go:353-414 | A missing service is made with the labels as its selector, an existing one stays |
| `DatabaseLaws.StatefulSetAsAsked` | internal/controller/questdb_controller.go:308-341 | The five compared fields, one by one, are the completed wanted ones; the others of an existing set stay |
| `DatabaseLaws.StatusAsCounted` | internal/controller/questdb_controller.go:343-349 | Of the QuestDB only the count of ready replicas is written, compared in 32 bits |
| `DatabaseLaws.DisorderLeaves` | internal/controller/questdb_controller.go:73-82 | With the secrets in disorder, or no QuestDB, nothing happens |
| `DatabaseController.Converges` | internal/controller/questdb_controller.go:287-341 | One undisturbed reconcile makes config data and claim size as wanted, and every compared field the completed wanted one exactly if the labels still fit the selector; a second changes nothing in any case |
| `DatabaseController.AnnotationsPersistIff` | internal/controller/questdb_controller.go:310-313 | Through a whole reconcile an annotation on the stateful set survives exactly if the spec asks for the same one or the update is refused |
| `DatabaseController.ConfigAnnotationsPersistIff` | internal/controller/questdb_controller.go:557-565 | One on the config map survives exactly if its data was up to date |
| `DatabaseController.ServiceFollowsIff` | internal/controller/questdb_controller.go:392-414 | The service selects by the current labels exactly if it did so before, or was missing and the stateful set was not refused |

## Left out

- Errors a reconcile returns, and the retries they cause: a failed reconcile just ends; any later one may follow. The snapshot reconciler's result is not modelled at all.
- Operator.Manager.Serve: is given its requests; the watches and timers that enqueue them are not modelled.
- Manager wiring, watches, leader election, RBAC, manifests, events, logging and error texts.
- Namespaces other than one, and labels of snapshots, jobs and VolumeSnapshots.
- Kubernetes, the job controller, the CSI driver and psql, beyond the assumptions above.
- Cron parsing and calendar arithmetic; two instants whose formatted names collide are not excluded, the second creation then counts as already answered.
- Stale caches, edits of status or of the operator's finalizer by users, and reuse of names: several properties are false without these assumptions.
- Constants of pod templates: ports, probes, access modes, the mime table and the default log configuration.
- validateDbConfig: a predicate `clean` on configurations stands for it, because it rests on the token limits of a library scanner.
- Quantities other than whole bytes, and two spellings of one quantity.
- Finalizers are a set, as no operation here depends on their order.
- Retention.SortDescending: shows insertion sort, which Go's library uses up to twelve items; what it does with longer lists under a non-strict comparison is not modelled.
- ScheduleController.ScheduleReconciler.CollectGarbage: counts successes without the 32-bit bound, which takes more than two billion listed snapshots to reach.
- ClusterSafety.OneInFlight: is conditional, because the gate lets a newest child listed in phase "" pass; `ClusterSafety.HatchExact` says exactly which creation loses the exclusion, `Exclusion.PassExclusiveIff` which undisturbed reconcile does.
- Wakeups.SecondPassQuiet: is about undisturbed reconciles; what a disturbed one may do is bounded by the theorems on histories.
- Reference counts and controller flags of owner references: an owner is the schedule's name.
