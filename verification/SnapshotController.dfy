/**
 The snapshot reconciler, call by call. `Pass` is what one reconcile does when no call fails and nobody
 moves in between; `Reconcile` is proved equal to it in a calm cluster, and in any other to make only
 legal moves.
 */
module SnapshotController {
  import opened Base
  import opened Kinds
  import opened Lifecycle
  import opened Cluster
  import opened Api
  import opened Admission
  import ClusterSafety
  import Secrets

  // ---------------------------------------------------------------- what the controller builds

  const DEFAULT_USER := "admin"
  const DEFAULT_PASSWORD := "quest"

  /** The job of one stage; credentials are looked up under the snapshot's own name. */
  function JobFor(n: string, spec: SnapshotSpec, stage: Stage, chosen: Secrets.Chosen): Job {
    var data := if chosen.psql.Some? then chosen.psql.value.data else map[];
    Job(n, Command(stage), Wrap32(spec.limit + 2), spec.questdb,
        if "QDB_PSQL_USER" in data then data["QDB_PSQL_USER"] else DEFAULT_USER,
        if "QDB_PSQL_PASSWORD" in data then data["QDB_PSQL_PASSWORD"] else DEFAULT_PASSWORD,
        0, 0)
  }

  function VolumeFor(spec: SnapshotSpec): Volume {
    Volume(spec.questdb, spec.volumeClass, false)
  }

  // ---------------------------------------------------------------- one undisturbed reconcile

  function Moved(l: Lane, to: Phase): Lane
    requires l.snap.Some?
  {
    l.(snap := Some(l.snap.value.(phase := to, version := l.snap.value.version + 1)))
  }

  function Rewritten(l: Lane, spec: SnapshotSpec, finalizers: set<Finalizer>): Lane
    requires l.snap.Some?
  {
    l.(snap := Reap(l.snap.value.(spec := spec, finalizers := finalizers, version := l.snap.value.version + 1)))
  }

  /** The lane once the job of `stage` has been asked for, unless it cannot be had. */
  function Obtained(n: string, l: Lane, stage: Stage, f: Facts): Option<Lane>
    requires l.snap.Some?
  {
    var v := Secrets.Select(f.secrets, n);
    if !f.reachable || v.Err? then None
    else if l.Work(stage).Some? then Some(l)
    else
      var job := JobFor(n, l.snap.value.spec, stage, v.chosen);
      if job.backoffLimit < 0 then None else Some(l.WithWork(stage, Some(job)))
  }

  function PassEmpty(l: Lane, f: Facts): Lane
    requires l.snap.Some?
  {
    Moved(l, if f.reachable && l.snap.value.spec.questdb !in f.databases then Failed else Pending)
  }

  /** The finalizer is in place. */
  function Guarded(l: Lane): Lane
    requires l.snap.Some?
  {
    var s := l.snap.value;
    if CompleteFinalizer in s.finalizers then l
    else l.(snap := Some(s.(finalizers := s.finalizers + {CompleteFinalizer}, version := s.version + 1)))
  }

  /** Deletion came before the finalizer, which the API server now refuses. */
  predicate TooLateToGuard(s: Snapshot) {
    s.deleting && CompleteFinalizer !in s.finalizers
  }

  /** A successful PREPARE takes the snapshot, guarded, out of Pending. */
  function Advanced(l: Lane): Lane
    requires l.snap.Some?
  {
    if JobDone(l.pre) && !TooLateToGuard(l.snap.value)
    then Moved(Guarded(l), if l.snap.value.deleting then Finalizing else Running)
    else l
  }

  function PreparedPass(l: Lane): Lane
    requires l.snap.Some? && l.pre.Some?
  {
    var s := l.snap.value;
    if JobSpent(l.pre, s.spec.limit) && !(JobDone(l.pre) && TooLateToGuard(s)) then Moved(Advanced(l), Failed)
    else Advanced(l)
  }

  function PassClassFound(n: string, l: Lane, f: Facts): Lane
    requires l.snap.Some?
  {
    var w := Obtained(n, l, Prepare, f);
    if w.None? then l else PreparedPass(w.value)
  }

  function PassPending(n: string, l: Lane, f: Facts): Lane
    requires l.snap.Some?
  {
    var s := l.snap.value;
    if s.spec.volumeClass.None? then PassClassFound(n, l, f)
    else if !f.reachable then l
    else if s.spec.volumeClass.value !in f.classes then Moved(l, Failed)
    else PassClassFound(n, l, f)
  }

  function PassRunning(l: Lane): Lane
    requires l.snap.Some?
  {
    if l.vol.None? then l.(vol := Some(VolumeFor(l.snap.value.spec)))
    else if l.vol.value.ready then Moved(l, Finalizing)
    else l
  }

  function CompletedPass(l: Lane): Lane
    requires l.snap.Some?
  {
    if JobDone(l.post) then Moved(l, Succeeded)
    else if JobSpent(l.post, l.snap.value.spec.limit) then Moved(l, Failed)
    else l
  }

  function PassFinalizing(n: string, l: Lane, f: Facts): Lane
    requires l.snap.Some?
  {
    var w := Obtained(n, l, Finish, f);
    if w.None? then l else CompletedPass(w.value)
  }

  function PassFailed(l: Lane): Lane
    requires l.snap.Some?
  {
    if CompleteFinalizer in l.snap.value.finalizers
    then Rewritten(l, l.snap.value.spec, l.snap.value.finalizers - {CompleteFinalizer})
    else l
  }

  function PassSucceeded(l: Lane): Lane
    requires l.snap.Some?
  {
    PassFailed(l).(pre := None, post := None)
  }

  function WithDefault(l: Lane): Lane
    requires l.snap.Some?
  {
    var s := l.snap.value;
    if s.spec.limit == 0
    then l.(snap := Some(s.(spec := s.spec.(limit := JOB_BACKOFF_LIMIT_DEFAULT), version := s.version + 1)))
    else l
  }

  function Handled(n: string, l: Lane, f: Facts): Lane
    requires l.snap.Some?
  {
    match l.snap.value.phase
    case Empty => PassEmpty(l, f)
    case Pending => PassPending(n, l, f)
    case Running => PassRunning(l)
    case Finalizing => PassFinalizing(n, l, f)
    case Failed => PassFailed(l)
    case Succeeded => PassSucceeded(l)
    case Unknown(_) => l
  }

  /** One whole reconcile of `n`, apart from the history variable. */
  function Pass(n: string, l: Lane, f: Facts): Lane {
    if l.snap.None? then l else Handled(n, WithDefault(l), f)
  }

  predicate Same(l: Lane, l': Lane) {
    l.snap == l'.snap && l.pre == l'.pre && l.post == l'.post && l.vol == l'.vol
  }

  // ---------------------------------------------------------------- the reconciler

  /** What the worker knows from its last read `s`, whatever happened since. */
  predicate Tracks(l: Lane, s: Snapshot) {
    && l.past.born
    && l.past.worker.Busy?
    && (l.snap.Some? ==>
          var v := l.snap.value;
          && v.spec == s.spec && v.phase == s.phase
          && (CompleteFinalizer in v.finalizers <==> CompleteFinalizer in s.finalizers)
          && (s.deleting ==> v.deleting && v.finalizers <= s.finalizers)
          && s.version <= v.version
          && (v.version == s.version ==> v == s))
  }

  /** The lane as it would be if nobody had written the snapshot since it was read as `s`. */
  function As(l: Lane, s: Snapshot): Lane {
    l.(snap := Some(s))
  }

  /** A phase write that was justified when the worker looked is still justified when it lands. */
  lemma PhaseEdgeStable(l: Lane, l': Lane, s: Snapshot, to: Phase)
    requires Rely(l, l') && l.past.worker.Busy?
    requires l.snap.Some? ==> PhaseEdge(As(l, s), to)
    ensures l'.snap == Some(s) ==> PhaseEdge(l', to)
  {
  }

  lemma ObjectEdgeStable(l: Lane, l': Lane, s: Snapshot, v: Snapshot)
    requires Rely(l, l') && l.past.worker.Busy?
    requires l.snap.Some? && !Barred(As(l, s), v) ==> ObjectEdge(As(l, s), ObjectWritten(As(l, s), v))
    ensures l'.snap == Some(s) && !Barred(l', v) ==> ObjectEdge(l', ObjectWritten(l', v))
  {
  }

  lemma ClassFoundSame(n: string, l: Lane, l': Lane, f: Facts)
    requires Same(l, l') && l.snap.Some?
    ensures Same(PassClassFound(n, l, f), PassClassFound(n, l', f))
  {
    var w, w' := Obtained(n, l, Prepare, f), Obtained(n, l', Prepare, f);
    assert w.Some? <==> w'.Some?;
    if w.Some? {
      assert Same(w.value, w'.value);
      assert Same(PreparedPass(w.value), PreparedPass(w'.value));
    }
  }

  lemma PendingSame(n: string, l: Lane, l': Lane, f: Facts)
    requires Same(l, l') && l.snap.Some?
    ensures Same(PassPending(n, l, f), PassPending(n, l', f))
  {
    ClassFoundSame(n, l, l', f);
  }

  lemma CompletedSame(l: Lane, l': Lane)
    requires Same(l, l') && l.snap.Some?
    ensures Same(CompletedPass(l), CompletedPass(l'))
  {
  }

  lemma FinalizingSame(n: string, l: Lane, l': Lane, f: Facts)
    requires Same(l, l') && l.snap.Some?
    ensures Same(PassFinalizing(n, l, f), PassFinalizing(n, l', f))
  {
    var w, w' := Obtained(n, l, Finish, f), Obtained(n, l', Finish, f);
    assert w.Some? <==> w'.Some?;
    if w.Some? {
      assert Same(w.value, w'.value);
    }
  }

  /** What a handler does depends on the API state only. */
  lemma HandledSame(n: string, l: Lane, l': Lane, f: Facts)
    requires Same(l, l') && l.snap.Some?
    ensures Same(Handled(n, l, f), Handled(n, l', f))
  {
    match l.snap.value.phase
    case Pending => PendingSame(n, l, l', f);
    case Finalizing => FinalizingSame(n, l, l', f);
    case _ =>
  }

  lemma PreparedSame(l: Lane, l': Lane)
    requires Same(l, l') && l.snap.Some? && l.pre.Some?
    ensures Same(PreparedPass(l), PreparedPass(l'))
  {
  }

  lemma PassSame(n: string, l: Lane, l': Lane, f: Facts)
    requires Same(l, l')
    ensures Same(Pass(n, l, f), Pass(n, l', f))
  {
    if l.snap.Some? {
      HandledSame(n, WithDefault(l), WithDefault(l'), f);
    }
  }

  class SnapshotReconciler {
    const api: ApiServer

    constructor (api: ApiServer)
      ensures this.api == api
    {
      this.api := api;
    }

    /** A reconcile of `n` is under way and last read `s`. */
    ghost predicate Reading(n: string, s: Snapshot)
      reads this, api
    {
      api.Valid() && Tracks(api.view(n), s)
    }

    /** Nothing but the lane of `n` has changed. */
    twostate predicate Confined(n: string)
      reads this, api
    {
      OnlyLane(old(api.st), old(api.view), api.st, api.view, n)
    }

    // ------------------------------------------------ calls, each after anybody else had a turn

    method ReadDatabase(n: string, s: Snapshot) returns (r: Reply)
      requires Reading(n, s) && s.phase == Empty
      requires api.view(n).past.worker.start == Empty && api.view(n).past.worker.spec.questdb == s.spec.questdb
      modifies api
      ensures Reading(n, s) && old(api.h) <= api.h
      ensures api.view(n).past.worker.start == Empty
      ensures r == NotFound ==> api.view(n).past.worker.saw == NoDatabase
      ensures api.calm ==>
                && Same(api.view(n), old(api.view)(n)) && Confined(n)
                && var f := old(api.st).facts;
                r == if !f.reachable then Unavailable else if s.spec.questdb in f.databases then Done else NotFound
    {
      api.Environment(SnapshotWorker(n));
      r := api.GetDatabase(n, s.spec.questdb);
    }

    method ReadClass(n: string, s: Snapshot) returns (r: Reply)
      requires Reading(n, s) && s.spec.volumeClass.Some?
      requires api.view(n).past.worker.start == Pending
      requires api.view(n).past.worker.spec.volumeClass == s.spec.volumeClass
      modifies api
      ensures Reading(n, s) && old(api.h) <= api.h
      ensures api.view(n).past.worker == old(api.view)(n).past.worker.(saw := api.view(n).past.worker.saw)
      ensures r == NotFound ==> api.view(n).past.worker.saw == NoClass
      ensures r == Done ==> api.view(n).past.worker == old(api.view)(n).past.worker
      ensures api.calm ==>
                && Same(api.view(n), old(api.view)(n)) && Confined(n)
                && var f := old(api.st).facts;
                r == if !f.reachable then Unavailable
                     else if s.spec.volumeClass.value in f.classes then Done else NotFound
    {
      api.Environment(SnapshotWorker(n));
      r := api.GetClass(n, s.spec.volumeClass.value);
    }

    /** Sends the phase in `snap`, whose other fields are still those of the last read `s`. */
    method WriteStatus(n: string, snap: QuestDBSnapshot, ghost s: Snapshot) returns (r: Reply)
      requires Reading(n, s) && snap.Value() == s.(phase := snap.phase)
      requires api.view(n).snap.Some? ==> PhaseEdge(As(api.view(n), s), snap.phase)
      modifies api, snap
      ensures api.Valid() && old(api.h) <= api.h
      ensures api.view(n).past.born && api.view(n).past.worker == old(api.view)(n).past.worker
      ensures r == Done ==>
                && snap.Value() == s.(phase := old(snap.phase), version := s.version + 1)
                && api.view(n).snap == Some(snap.Value())
                && old(api.view)(n).snap.Some?
                && JobKept(old(api.view)(n).pre, api.view(n).pre, true)
      ensures api.calm && old(api.view)(n).snap == Some(s) ==>
                r == Done && Same(api.view(n), Moved(old(api.view)(n), old(snap.phase))) && Confined(n)
    {
      ghost var l := api.view(n);
      api.Environment(SnapshotWorker(n));
      PhaseEdgeStable(l, api.view(n), s, snap.phase);
      r := api.StatusUpdate(n, snap);
    }

    /** Sends spec and finalizers in `snap`, whose other fields are still those of the last read `s`. */
    method WriteObject(n: string, snap: QuestDBSnapshot, ghost s: Snapshot) returns (r: Reply)
      requires Reading(n, s) && snap.Value() == s.(spec := snap.spec, finalizers := snap.finalizers)
      requires api.view(n).snap.Some? && !Barred(As(api.view(n), s), snap.Value()) ==>
                 ObjectEdge(As(api.view(n), s), ObjectWritten(As(api.view(n), s), snap.Value()))
      modifies api, snap
      ensures api.Valid() && old(api.h) <= api.h
      ensures api.view(n).past.born && api.view(n).past.worker == old(api.view)(n).past.worker
      ensures r == Done ==>
                && snap.Value() == old(snap.Value()).(version := s.version + 1)
                && (s.deleting ==> snap.finalizers <= s.finalizers)
                && api.view(n).snap == Reap(snap.Value())
                && old(api.view)(n).snap.Some?
                && JobKept(old(api.view)(n).pre, api.view(n).pre, true)
      ensures api.calm && old(api.view)(n).snap == Some(s) ==>
                && (r == Done <==> !Barred(old(api.view)(n), old(snap.Value())))
                && Same(api.view(n), if r == Done
                                     then Rewritten(old(api.view)(n), old(snap.spec), old(snap.finalizers))
                                     else old(api.view)(n))
                && Confined(n)
    {
      ghost var l := api.view(n);
      api.Environment(SnapshotWorker(n));
      ObjectEdgeStable(l, api.view(n), s, snap.Value());
      r := api.Update(n, snap);
    }

    /** Builds the job of one stage, unless the secrets are in disorder. */
    method BuildJob(n: string, s: Snapshot, stage: Stage) returns (job: Option<Job>)
      requires Reading(n, s)
      modifies api
      ensures Reading(n, s) && old(api.h) <= api.h
      ensures api.view(n).past.worker == old(api.view)(n).past.worker
      ensures job.Some? ==>
                && job.value.command == Command(stage) && job.value.succeeded == 0 && job.value.failed == 0
                && JobFits(job.value, s.spec)
      ensures api.calm ==>
                && api.st == old(api.st) && api.view == old(api.view)
                && var (f, v) := (old(api.st).facts, Secrets.Select(old(api.st).facts.secrets, n));
                job == if f.reachable && v.Ok? then Some(JobFor(n, s.spec, stage, v.chosen)) else None
    {
      api.Environment(SnapshotWorker(n));
      var r, list := api.ListSecrets();
      if r != Done {
        return None;
      }
      var verdict := Secrets.GetSecrets(list, n);
      if verdict.Err? {
        return None;
      }
      job := Some(JobFor(n, s.spec, stage, verdict.chosen));
    }

    method TryCreateJob(n: string, s: Snapshot, stage: Stage, wanted: Job) returns (r: Reply)
      requires Reading(n, s) && s.phase == HomePhase(stage)
      requires api.view(n).past.worker.start == HomePhase(stage) && api.view(n).past.worker.Clear()
      requires wanted.command == Command(stage) && wanted.succeeded == 0 && wanted.failed == 0
      requires JobFits(wanted, s.spec)
      modifies api
      ensures Reading(n, s) && old(api.h) <= api.h
      ensures api.view(n).past.worker.start == HomePhase(stage)
      ensures r == Done ==> api.view(n).Work(stage) == Some(wanted)
      ensures api.calm ==>
                var l := old(api.view)(n);
                && (r == AlreadyExists <==> l.Work(stage).Some?)
                && (r == Done <==> l.Work(stage).None? && 0 <= wanted.backoffLimit)
                && Same(api.view(n), if r == Done then l.WithWork(stage, Some(wanted)) else l)
                && Confined(n)
    {
      api.Environment(SnapshotWorker(n));
      r := api.CreateJob(n, stage, wanted);
    }

    method FetchJob(n: string, s: Snapshot, stage: Stage) returns (r: Reply, job: Option<Job>)
      requires Reading(n, s)
      modifies api
      ensures Reading(n, s) && old(api.h) <= api.h
      ensures api.view(n).past.worker == old(api.view)(n).past.worker
      ensures r == Done ==> job.Some? && job == api.view(n).Work(stage)
      ensures api.calm ==>
                && api.st == old(api.st) && api.view == old(api.view)
                && (r == Done <==> api.view(n).Work(stage).Some?)
    {
      api.Environment(SnapshotWorker(n));
      r, job := api.GetJob(n, stage);
    }

    /** Creates a job, or fetches it if it is there already. */
    method EnsureJob(n: string, s: Snapshot, stage: Stage, wanted: Job) returns (r: Reply, job: Option<Job>)
      requires Reading(n, s) && s.phase == HomePhase(stage)
      requires api.view(n).past.worker.start == HomePhase(stage) && api.view(n).past.worker.Clear()
      requires wanted.command == Command(stage) && wanted.succeeded == 0 && wanted.failed == 0
      requires JobFits(wanted, s.spec)
      modifies api
      ensures Reading(n, s) && old(api.h) <= api.h
      ensures api.view(n).past.worker.start == HomePhase(stage)
      ensures r == Done ==> job.Some? && (api.view(n).snap.Some? ==> JobKept(job, api.view(n).Work(stage), true))
      ensures api.calm ==>
                var l := old(api.view)(n);
                && (r == Done <==> l.Work(stage).Some? || 0 <= wanted.backoffLimit)
                && Same(api.view(n), if r == Done && l.Work(stage).None? then l.WithWork(stage, Some(wanted)) else l)
                && (r == Done ==> job == api.view(n).Work(stage))
                && Confined(n)
    {
      job := Some(wanted);
      r := TryCreateJob(n, s, stage, wanted);
      if r == AlreadyExists {
        r, job := FetchJob(n, s, stage);
      }
    }

    /** The job of one stage, built and then created or fetched. */
    method ObtainJob(n: string, s: Snapshot, stage: Stage) returns (job: Option<Job>)
      requires Reading(n, s) && s.phase == HomePhase(stage)
      requires api.view(n).past.worker.start == HomePhase(stage) && api.view(n).past.worker.Clear()
      modifies api
      ensures Reading(n, s) && old(api.h) <= api.h
      ensures api.view(n).past.worker.start == HomePhase(stage)
      ensures job.Some? && api.view(n).snap.Some? ==> JobKept(job, api.view(n).Work(stage), true)
      ensures api.calm && old(api.view)(n).snap == Some(s) ==>
                var w := Obtained(n, old(api.view)(n), stage, old(api.st).facts);
                && Same(api.view(n), if w.Some? then w.value else old(api.view)(n))
                && job == (if w.Some? then w.value.Work(stage) else None)
                && Confined(n)
    {
      job := BuildJob(n, s, stage);
      if job.None? {
        return;
      }
      var r;
      r, job := EnsureJob(n, s, stage, job.value);
      if r != Done {
        job := None;
      }
    }

    /** Creates the VolumeSnapshot, or fetches it if it is there already. */
    method EnsureVolume(n: string, s: Snapshot) returns (r: Reply, vol: Option<Volume>)
      requires Reading(n, s) && s.phase == Running && api.view(n).past.worker.start == Running
      modifies api
      ensures Reading(n, s) && old(api.h) <= api.h
      ensures api.view(n).past.worker == old(api.view)(n).past.worker
      ensures r == Done ==> vol.Some?
      ensures r == Done && vol.value.ready && api.view(n).snap.Some? ==>
                api.view(n).vol.Some? && api.view(n).vol.value.ready
      ensures api.calm ==>
                var l := old(api.view)(n);
                && r == Done
                && Same(api.view(n), if l.vol.None? then l.(vol := Some(VolumeFor(s.spec))) else l)
                && vol == api.view(n).vol
                && Confined(n)
    {
      var me := SnapshotWorker(n);
      vol := Some(VolumeFor(s.spec));
      api.Environment(me);
      r := api.CreateVolume(n, vol.value);
      if r == AlreadyExists {
        api.Environment(me);
        r, vol := api.GetVolume(n);
      }
    }

    /** Deletes a job if it is there; `Done` if the cleanup goes on. */
    method RemoveJob(n: string, stage: Stage) returns (r: Reply)
      requires api.Valid() && api.view(n).past.born
      requires api.view(n).past.worker.Busy? && api.view(n).past.worker.start == Succeeded
      modifies api
      ensures api.Valid() && old(api.h) <= api.h
      ensures api.view(n).past.born && api.view(n).past.worker == old(api.view)(n).past.worker
      ensures api.calm ==>
                && r == Done
                && Same(api.view(n), old(api.view)(n).WithWork(stage, None))
                && Confined(n)
    {
      var me := SnapshotWorker(n);
      api.Environment(me);
      var job;
      r, job := api.GetJob(n, stage);
      if r == NotFound {
        return Done;
      }
      if r != Done {
        return;
      }
      api.Environment(me);
      r := api.DeleteJob(n, stage);
    }

    // ------------------------------------------------ the handlers

    /** A reconcile of `n` has just read `snap` and found it in `start`. */
    ghost predicate Ready(n: string, snap: QuestDBSnapshot, start: Phase)
      reads this, api, snap
    {
      && Reading(n, snap.Value())
      && api.view(n).past.worker.start == start && api.view(n).past.worker.Clear()
      && api.view(n).past.worker.spec.questdb == snap.spec.questdb
      && api.view(n).past.worker.spec.volumeClass == snap.spec.volumeClass
      && snap.phase == start
      && snap.spec.limit != 0
    }

    /** The reconcile is still under way, and every move so far was legal. */
    ghost predicate Under(n: string)
      reads this, api
    {
      api.Valid() && api.view(n).past.worker.Busy?
    }

    method HandlePhaseEmpty(n: string, snap: QuestDBSnapshot)
      requires Ready(n, snap, Empty)
      modifies api, snap
      ensures Under(n) && old(api.h) <= api.h
      ensures api.calm && old(api.view(n).snap == Some(snap.Value())) ==>
                Same(api.view(n), PassEmpty(old(api.view)(n), old(api.st).facts)) && Confined(n)
    {
      ghost var s := snap.Value();
      var r := ReadDatabase(n, snap.Value());
      if r == NotFound {
        snap.phase := Failed;
        r := WriteStatus(n, snap, s);
        return;
      }
      snap.phase := Pending;
      r := WriteStatus(n, snap, s);
    }

    /** Adds the finalizer that keeps a snapshot alive once it runs, unless it is there. */
    method AddGuard(n: string, snap: QuestDBSnapshot, job: Job) returns (r: Reply)
      requires Reading(n, snap.Value()) && snap.phase == Pending && snap.spec.limit != 0
      requires api.view(n).past.worker.start == Pending && job.succeeded == 1
      requires api.view(n).snap.Some? ==> JobKept(Some(job), api.view(n).pre, true)
      modifies api, snap
      ensures Under(n) && old(api.h) <= api.h && api.view(n).past.worker.start == Pending
      ensures r == Done ==>
                && Reading(n, snap.Value())
                && snap.phase == Pending && snap.spec == old(snap.spec) && snap.deleting == old(snap.deleting)
                && CompleteFinalizer in snap.finalizers
                && (api.view(n).snap.Some? ==> JobKept(Some(job), api.view(n).pre, true))
      ensures api.calm && old(api.view(n).snap == Some(snap.Value())) ==>
                && (r == Done <==> !(old(snap.deleting) && CompleteFinalizer !in old(snap.finalizers)))
                && Same(api.view(n), if r == Done then Guarded(old(api.view)(n)) else old(api.view)(n))
                && (r == Done ==> api.view(n).snap == Some(snap.Value()))
                && Confined(n)
    {
      r := Done;
      if CompleteFinalizer !in snap.finalizers {
        ghost var s := snap.Value();
        snap.finalizers := snap.finalizers + {CompleteFinalizer};
        r := WriteObject(n, snap, s);
      }
    }

    method LeavePending(n: string, snap: QuestDBSnapshot, job: Job) returns (r: Reply)
      requires Reading(n, snap.Value()) && snap.phase == Pending && snap.spec.limit != 0
      requires api.view(n).past.worker.start == Pending && job.succeeded == 1
      requires CompleteFinalizer in snap.finalizers
      requires api.view(n).snap.Some? ==> JobKept(Some(job), api.view(n).pre, true)
      modifies api, snap
      ensures Under(n) && old(api.h) <= api.h && api.view(n).past.worker.start == Pending
      ensures r == Done ==>
                && Reading(n, snap.Value())
                && (snap.phase == Running || snap.phase == Finalizing) && snap.spec == old(snap.spec)
                && (api.view(n).snap.Some? ==> JobKept(Some(job), api.view(n).pre, true))
      ensures api.calm && old(api.view(n).snap == Some(snap.Value())) ==>
                && r == Done && api.view(n).snap == Some(snap.Value())
                && Same(api.view(n), Moved(old(api.view)(n), if old(snap.deleting) then Finalizing else Running))
                && Confined(n)
    {
      ghost var s := snap.Value();
      snap.phase := if snap.deleting then Finalizing else Running;
      r := WriteStatus(n, snap, s);
    }

    /** After a successful PREPARE: finalizer, then phase. */
    method Advance(n: string, snap: QuestDBSnapshot, job: Job) returns (r: Reply)
      requires Reading(n, snap.Value()) && snap.phase == Pending && snap.spec.limit != 0
      requires api.view(n).past.worker.start == Pending && job.succeeded == 1
      requires api.view(n).snap.Some? ==> JobKept(Some(job), api.view(n).pre, true)
      modifies api, snap
      ensures Under(n) && old(api.h) <= api.h && api.view(n).past.worker.start == Pending
      ensures r == Done ==>
                && Reading(n, snap.Value())
                && (snap.phase == Running || snap.phase == Finalizing) && snap.spec == old(snap.spec)
                && (api.view(n).snap.Some? ==> JobKept(Some(job), api.view(n).pre, true))
      ensures api.calm && old(api.view(n).snap == Some(snap.Value())) && Some(job) == old(api.view)(n).pre ==>
                && (r == Done <==> !old(TooLateToGuard(snap.Value())))
                && Same(api.view(n), Advanced(old(api.view)(n)))
                && (r == Done ==> api.view(n).snap == Some(snap.Value()))
                && Confined(n)
    {
      r := AddGuard(n, snap, job);
      if r == Done {
        r := LeavePending(n, snap, job);
      }
    }

    /** Fails a snapshot whose PREPARE job has lost as many pods as it may, whatever else that job did. */
    method FailIfSpent(n: string, snap: QuestDBSnapshot, job: Job)
      requires Reading(n, snap.Value()) && snap.spec.limit != 0
      requires api.view(n).past.worker.start == Pending
      requires snap.phase == Pending || (job.succeeded == 1 && (snap.phase == Running || snap.phase == Finalizing))
      requires api.view(n).snap.Some? ==> JobKept(Some(job), api.view(n).pre, true)
      modifies api, snap
      ensures Under(n) && old(api.h) <= api.h
      ensures api.calm && old(api.view(n).snap == Some(snap.Value())) ==>
                && Same(api.view(n), if job.failed >= old(snap.spec.limit)
                                     then Moved(old(api.view)(n), Failed)
                                     else old(api.view)(n))
                && Confined(n)
    {
      if job.failed >= snap.spec.limit {
        ghost var s := snap.Value();
        snap.phase := Failed;
        var _ := WriteStatus(n, snap, s);
      }
    }

    /** The rest of the Pending handler, once it holds the PREPARE job. It may write two phases. */
    method HandlePreparation(n: string, snap: QuestDBSnapshot, job: Job)
      requires Reading(n, snap.Value()) && snap.phase == Pending && snap.spec.limit != 0
      requires api.view(n).past.worker.start == Pending
      requires api.view(n).snap.Some? ==> JobKept(Some(job), api.view(n).pre, true)
      modifies api, snap
      ensures Under(n) && old(api.h) <= api.h
      ensures api.calm && old(api.view(n).snap == Some(snap.Value())) && Some(job) == old(api.view)(n).pre ==>
                Same(api.view(n), PreparedPass(old(api.view)(n))) && Confined(n)
    {
      if job.succeeded == 1 {
        var r := Advance(n, snap, job);
        if r != Done {
          return;
        }
      }
      FailIfSpent(n, snap, job);
    }

    /** The Pending handler past the check for the volume class. */
    method HandleClassFound(n: string, snap: QuestDBSnapshot)
      requires Reading(n, snap.Value()) && snap.phase == Pending && snap.spec.limit != 0
      requires api.view(n).past.worker.start == Pending && api.view(n).past.worker.Clear()
      modifies api, snap
      ensures Under(n) && old(api.h) <= api.h
      ensures api.calm && old(api.view(n).snap == Some(snap.Value())) ==>
                Same(api.view(n), PassClassFound(n, old(api.view)(n), old(api.st).facts)) && Confined(n)
    {
      var job := ObtainJob(n, snap.Value(), Prepare);
      if job.None? {
        return;
      }
      ghost var l := api.view(n);
      HandlePreparation(n, snap, job.value);
      if api.calm && old(api.view(n).snap == Some(snap.Value())) {
        PreparedSame(l, Obtained(n, old(api.view)(n), Prepare, old(api.st).facts).value);
      }
    }

    method HandlePhasePending(n: string, snap: QuestDBSnapshot)
      requires Ready(n, snap, Pending)
      modifies api, snap
      ensures Under(n) && old(api.h) <= api.h
      ensures api.calm && old(api.view(n).snap == Some(snap.Value())) ==>
                Same(api.view(n), PassPending(n, old(api.view)(n), old(api.st).facts)) && Confined(n)
    {
      ghost var s := snap.Value();
      var r;
      if snap.spec.volumeClass.Some? {
        r := ReadClass(n, snap.Value());
        if r == NotFound {
          snap.phase := Failed;
          r := WriteStatus(n, snap, s);
          return;
        }
        if r != Done {
          return;
        }
      }
      ghost var l := api.view(n);
      HandleClassFound(n, snap);
      if api.calm && old(api.view(n).snap == Some(snap.Value())) {
        ClassFoundSame(n, l, old(api.view)(n), old(api.st).facts);
      }
    }

    method HandlePhaseRunning(n: string, snap: QuestDBSnapshot)
      requires Ready(n, snap, Running)
      modifies api, snap
      ensures Under(n) && old(api.h) <= api.h
      ensures api.calm && old(api.view(n).snap == Some(snap.Value())) ==>
                Same(api.view(n), PassRunning(old(api.view)(n))) && Confined(n)
    {
      ghost var s := snap.Value();
      var r, vol := EnsureVolume(n, snap.Value());
      if r != Done {
        return;
      }
      if vol.value.ready {
        snap.phase := Finalizing;
        r := WriteStatus(n, snap, s);
      }
    }

    /** The rest of the Finalizing handler, once it holds the COMPLETE job. */
    method HandleCompletion(n: string, snap: QuestDBSnapshot, job: Job)
      requires Reading(n, snap.Value()) && snap.phase == Finalizing && snap.spec.limit != 0
      requires api.view(n).past.worker.start == Finalizing
      requires api.view(n).snap.Some? ==> JobKept(Some(job), api.view(n).post, true)
      modifies api, snap
      ensures Under(n) && old(api.h) <= api.h
      ensures api.calm && old(api.view(n).snap == Some(snap.Value())) && Some(job) == old(api.view)(n).post ==>
                Same(api.view(n), CompletedPass(old(api.view)(n))) && Confined(n)
    {
      ghost var s := snap.Value();
      var r;
      if job.succeeded == 1 {
        snap.phase := Succeeded;
        r := WriteStatus(n, snap, s);
        return;
      }
      if job.failed >= snap.spec.limit {
        snap.phase := Failed;
        r := WriteStatus(n, snap, s);
      }
    }

    method HandlePhaseFinalizing(n: string, snap: QuestDBSnapshot)
      requires Ready(n, snap, Finalizing)
      modifies api, snap
      ensures Under(n) && old(api.h) <= api.h
      ensures api.calm && old(api.view(n).snap == Some(snap.Value())) ==>
                Same(api.view(n), PassFinalizing(n, old(api.view)(n), old(api.st).facts)) && Confined(n)
    {
      var job := ObtainJob(n, snap.Value(), Finish);
      if job.None? {
        return;
      }
      ghost var l := api.view(n);
      HandleCompletion(n, snap, job.value);
      if api.calm && old(api.view(n).snap == Some(snap.Value())) {
        CompletedSame(l, Obtained(n, old(api.view)(n), Finish, old(api.st).facts).value);
      }
    }

    method HandlePhaseFailed(n: string, snap: QuestDBSnapshot) returns (r: Reply)
      requires Reading(n, snap.Value()) && snap.phase.Complete()
      requires api.view(n).past.worker.start == snap.phase
      modifies api, snap
      ensures Under(n) && old(api.h) <= api.h
      ensures api.view(n).past.born && api.view(n).past.worker == old(api.view)(n).past.worker
      ensures api.calm && old(api.view(n).snap == Some(snap.Value())) ==>
                r == Done && Same(api.view(n), PassFailed(old(api.view)(n))) && Confined(n)
    {
      ghost var s := snap.Value();
      r := Done;
      if CompleteFinalizer in snap.finalizers {
        snap.finalizers := snap.finalizers - {CompleteFinalizer};
        r := WriteObject(n, snap, s);
      }
    }

    /** Removes the finalizer as a failed snapshot's handler does, then both jobs. */
    method HandlePhaseSucceeded(n: string, snap: QuestDBSnapshot)
      requires Ready(n, snap, Succeeded)
      modifies api, snap
      ensures Under(n) && old(api.h) <= api.h
      ensures api.calm && old(api.view(n).snap == Some(snap.Value())) ==>
                Same(api.view(n), PassSucceeded(old(api.view)(n))) && Confined(n)
    {
      var r := HandlePhaseFailed(n, snap);
      if r != Done {
        return;
      }
      r := RemoveJob(n, Prepare);
      if r != Done {
        return;
      }
      r := RemoveJob(n, Finish);
    }

    lemma PresentIsWhole(n: string)
      requires api.Valid()
      ensures api.view(n).snap.Some? ==>
                && api.view(n).past.born
                && (api.view(n).snap.value.deleting ==> api.view(n).snap.value.finalizers != {})
    {
      ClusterSafety.LanesSafe(api.cal, api.h, |api.h| - 1, n);
      assert api.view(n) == LaneOf(api.st, n);
    }

    method Handle(n: string, snap: QuestDBSnapshot)
      requires Ready(n, snap, snap.phase)
      modifies api, snap
      ensures Under(n) && old(api.h) <= api.h
      ensures api.calm && old(api.view(n).snap == Some(snap.Value())) ==>
                Same(api.view(n), Handled(n, old(api.view)(n), old(api.st).facts)) && Confined(n)
    {
      match snap.phase
      case Empty => HandlePhaseEmpty(n, snap);
      case Pending => HandlePhasePending(n, snap);
      case Running => HandlePhaseRunning(n, snap);
      case Finalizing => HandlePhaseFinalizing(n, snap);
      case Failed => var _ := HandlePhaseFailed(n, snap);
      case Succeeded => HandlePhaseSucceeded(n, snap);
      case Unknown(_) =>
    }

    /** Defaults the backoff limit if it is missing, then handles the phase read. */
    method Dispatch(n: string, snap: QuestDBSnapshot)
      requires api.Valid() && api.view(n).past.born
      requires api.view(n).snap == Some(snap.Value())
      requires api.view(n).past.worker == Busy(snap.phase, snap.spec, Nothing, false)
      requires snap.deleting ==> snap.finalizers != {}
      modifies api, snap
      ensures Under(n) && old(api.h) <= api.h
      ensures api.calm ==>
                Same(api.view(n), Pass(n, old(api.view)(n), old(api.st).facts)) && Confined(n)
    {
      if snap.spec.limit == 0 {
        ghost var s := snap.Value();
        snap.spec := snap.spec.(limit := JOB_BACKOFF_LIMIT_DEFAULT);
        var r := WriteObject(n, snap, s);
        if r != Done {
          return;
        }
      }
      ghost var l := api.view(n);
      Handle(n, snap);
      if api.calm {
        HandledSame(n, l, WithDefault(old(api.view)(n)), old(api.st).facts);
      }
    }

    // ------------------------------------------------ the reconcile loop's entry point

    /** Any number of other moves may happen before, between and after the calls this makes. */
    method Reconcile(n: string)
      requires api.Valid() && api.view(n).past.worker.Idle?
      modifies api
      ensures api.Valid() && old(api.h) <= api.h
      ensures api.calm ==>
                Same(api.view(n), Pass(n, old(api.view)(n), old(api.st).facts)) && Confined(n)
    {
      var snap := new QuestDBSnapshot();
      api.Environment(SnapshotWorker(n));
      PresentIsWhole(n);
      var r := api.GetSnapshot(n, snap);
      if r != Done {
        return;
      }
      ghost var l := api.view(n);
      Dispatch(n, snap);
      api.Rest(n);
      if api.calm {
        PassSame(n, l, old(api.view)(n), old(api.st).facts);
      }
    }
  }
}
