/**
 The life of one snapshot as an atomic state machine.

 A `Lane` is everything that belongs to one snapshot name: the snapshot object, its two jobs, its
 VolumeSnapshot, and a history variable. `EnvStep` is what the cluster and its users may do between
 any two API calls of the operator; `WorkerStep` is what one API call of the snapshot controller may
 do. The controller itself is in SnapshotController.dfy; it never reads the history.
 */
module Lifecycle {
  import opened Base
  import opened Kinds

  /** Milestones of a lane, in the order in which they happened. */
  datatype Event =
    | Began(phase: Phase)
    | Created(stage: Stage)
    | Finished(stage: Stage)
    | VolumeCreated
    | VolumeReady
    | SawNoDatabase
    | SawNoClass

  datatype Sight = Nothing | NoDatabase | NoClass

  /**
   The reconcile in progress: the phase and spec it read first, what it found missing, and whether it has
   created its job.
   */
  datatype Worker = Idle | Busy(start: Phase, spec: SnapshotSpec, saw: Sight, made: bool)
  {
    /** It has found nothing missing and created no job yet. */
    predicate Clear() {
      Busy? && saw == Nothing && !made
    }
  }

  datatype Past = Past(born: bool, worker: Worker, log: seq<Event>, writes: nat)

  const UNBORN := Past(false, Idle, [], 0)

  datatype Lane = Lane(
    snap: Option<Snapshot>, pre: Option<Job>, post: Option<Job>, vol: Option<Volume>, past: Past)
  {
    function Work(stage: Stage): Option<Job> {
      if stage.Prepare? then pre else post
    }

    function WithWork(stage: Stage, job: Option<Job>): Lane {
      if stage.Prepare? then this.(pre := job) else this.(post := job)
    }

    function Logged(e: Event): Lane {
      this.(past := past.(log := past.log + [e]))
    }

    /** The reconcile in progress has created the job of `stage`. */
    function WithJob(stage: Stage, job: Option<Job>): Lane
      requires past.worker.Busy?
    {
      WithWork(stage, job).WithWorker(past.worker.(made := true)).Logged(Created(stage))
    }

    /** A successful write of the controller to the snapshot object. */
    function Wrote(s: Option<Snapshot>): Lane {
      this.(snap := s, past := past.(writes := past.writes + 1))
    }

    function WithWorker(w: Worker): Lane {
      this.(past := past.(worker := w))
    }

    predicate Deleting() {
      snap.None? || snap.value.deleting
    }
  }

  const VOID := Lane(None, None, None, None, UNBORN)

  /** The server drops an object that is marked for deletion and has no finalizers left. */
  function Reap(s: Snapshot): (r: Option<Snapshot>)
    ensures r.Some? ==> r.value == s
    ensures r.None? <==> s.deleting && s.finalizers == {}
  {
    if s.deleting && s.finalizers == {} then None else Some(s)
  }

  // ---------------------------------------------------------------- the environment

  /** A snapshot is created under a name never used before, with nothing left over from another. */
  predicate SnapshotBorn(l: Lane, l': Lane) {
    && l == VOID
    && l'.snap.Some?
    && l'.snap.value.phase == Empty
    && CompleteFinalizer !in l'.snap.value.finalizers
    && !l'.snap.value.deleting
    && l' == Lane(l'.snap, None, None, None, UNBORN.(born := true))
  }

  predicate JobFinishes(l: Lane, l': Lane, stage: Stage) {
    && l.Work(stage).Some?
    && l.Work(stage).value.succeeded == 0
    && l' == l.WithWork(stage, Some(l.Work(stage).value.(succeeded := 1))).Logged(Finished(stage))
  }

  predicate JobLosesPod(l: Lane, l': Lane, stage: Stage) {
    && l.Work(stage).Some?
    && l.Work(stage).value.failed < MAX_INT32
    && l' == l.WithWork(stage, Some(l.Work(stage).value.(failed := l.Work(stage).value.failed + 1)))
  }

  predicate VolumeTurnsReady(l: Lane, l': Lane) {
    && l.vol.Some?
    && !l.vol.value.ready
    && l' == l.(vol := Some(l.vol.value.(ready := true))).Logged(VolumeReady)
  }

  predicate DeleteRequested(l: Lane, l': Lane) {
    && l.snap.Some?
    && !l.snap.value.deleting
    && l' == l.(snap := Reap(l.snap.value.(deleting := true, version := l.snap.value.version + 1)))
  }

  /** Others may edit metadata and their own finalizers, but add none once deletion is requested. */
  predicate MetadataEdited(l: Lane, l': Lane, finalizers: set<Finalizer>) {
    && l.snap.Some?
    && (CompleteFinalizer in finalizers <==> CompleteFinalizer in l.snap.value.finalizers)
    && (l.snap.value.deleting ==> finalizers <= l.snap.value.finalizers)
    && l' == l.(snap := Reap(l.snap.value.(finalizers := finalizers, version := l.snap.value.version + 1)))
  }

  /** Once the snapshot is gone, the garbage collector may remove what it owned. */
  predicate OrphansCollected(l: Lane, l': Lane) {
    && l.past.born
    && l.snap.None?
    && (l'.pre == l.pre || l'.pre == None)
    && (l'.post == l.post || l'.post == None)
    && (l'.vol == l.vol || l'.vol == None)
    && l' == l.(pre := l'.pre, post := l'.post, vol := l'.vol)
  }

  predicate EnvStep(l: Lane, l': Lane) {
    || SnapshotBorn(l, l')
    || JobFinishes(l, l', Prepare) || JobFinishes(l, l', Finish)
    || JobLosesPod(l, l', Prepare) || JobLosesPod(l, l', Finish)
    || VolumeTurnsReady(l, l')
    || DeleteRequested(l, l')
    || MetadataEdited(l, l', if l'.snap.Some? then l'.snap.value.finalizers else {})
    || OrphansCollected(l, l')
  }

  // ---------------------------------------------------------------- the worker

  predicate JobDone(job: Option<Job>) {
    job.Some? && job.value.succeeded == 1
  }

  predicate JobSpent(job: Option<Job>, limit: int32) {
    job.Some? && job.value.failed >= limit
  }

  /** The phase writes of the controller, each with the guard that held when it was made. */
  predicate PhaseEdge(l: Lane, to: Phase)
    requires l.snap.Some? && l.past.worker.Busy?
  {
    var s := l.snap.value;
    s.spec.limit != 0 &&
    match l.past.worker.start
    case Empty =>
      s.phase == Empty && (to == Pending || (to == Failed && l.past.worker.saw == NoDatabase))
    case Pending =>
      || (s.phase == Pending && to == Failed && l.past.worker.saw == NoClass)
      || (s.phase == Pending && to == (if s.deleting then Finalizing else Running) &&
          CompleteFinalizer in s.finalizers && JobDone(l.pre))
      || (s.phase == Pending && to == Failed && JobSpent(l.pre, s.spec.limit))
      || ((s.phase == Running || s.phase == Finalizing) && to == Failed &&
          JobDone(l.pre) && JobSpent(l.pre, s.spec.limit))
    case Running =>
      s.phase == Running && to == Finalizing && l.vol.Some? && l.vol.value.ready
    case Finalizing =>
      s.phase == Finalizing &&
      ((to == Succeeded && JobDone(l.post)) || (to == Failed && JobSpent(l.post, s.spec.limit)))
    case _ => false
  }

  predicate WorkerBegins(l: Lane, l': Lane) {
    && l.past.worker.Idle?
    && l.snap.Some?
    && l' == l.WithWorker(Busy(l.snap.value.phase, l.snap.value.spec, Nothing, false)).Logged(Began(l.snap.value.phase))
  }

  predicate WorkerEnds(l: Lane, l': Lane) {
    l.past.worker.Busy? && l' == l.WithWorker(Idle)
  }

  predicate WorkerMissesDatabase(l: Lane, l': Lane, f: Facts) {
    && l.past.worker.Busy?
    && l.past.worker.start == Empty
    && f.reachable
    && l.past.worker.spec.questdb !in f.databases
    && l' == l.WithWorker(l.past.worker.(saw := NoDatabase)).Logged(SawNoDatabase)
  }

  predicate WorkerMissesClass(l: Lane, l': Lane, f: Facts) {
    && l.past.worker.Busy?
    && l.past.worker.start == Pending
    && l.past.worker.spec.volumeClass.Some?
    && f.reachable
    && l.past.worker.spec.volumeClass.value !in f.classes
    && l' == l.WithWorker(l.past.worker.(saw := NoClass)).Logged(SawNoClass)
  }

  predicate WorkerSetsPhase(l: Lane, l': Lane, to: Phase) {
    && l.past.worker.Busy?
    && l.snap.Some?
    && PhaseEdge(l, to)
    && l' == l.Wrote(Some(l.snap.value.(phase := to, version := l.snap.value.version + 1)))
  }

  predicate WorkerDefaultsLimit(l: Lane, l': Lane) {
    && l.past.worker.Busy?
    && l.snap.Some?
    && l.snap.value.spec.limit == 0
    && l' == l.Wrote(Some(l.snap.value.(
                 spec := l.snap.value.spec.(limit := JOB_BACKOFF_LIMIT_DEFAULT),
                 version := l.snap.value.version + 1)))
  }

  predicate WorkerAddsFinalizer(l: Lane, l': Lane) {
    && l.past.worker.Busy?
    && l.past.worker.start == Pending
    && l.snap.Some?
    && l.snap.value.phase == Pending
    && !l.snap.value.deleting
    && CompleteFinalizer !in l.snap.value.finalizers
    && JobDone(l.pre)
    && l' == l.Wrote(Some(l.snap.value.(
                 finalizers := l.snap.value.finalizers + {CompleteFinalizer},
                 version := l.snap.value.version + 1)))
  }

  predicate WorkerDropsFinalizer(l: Lane, l': Lane) {
    && l.past.worker.Busy?
    && l.past.worker.start.Complete()
    && l.snap.Some?
    && l.snap.value.phase == l.past.worker.start
    && CompleteFinalizer in l.snap.value.finalizers
    && l' == l.Wrote(Reap(l.snap.value.(
                 finalizers := l.snap.value.finalizers - {CompleteFinalizer},
                 version := l.snap.value.version + 1)))
  }

  function HomePhase(stage: Stage): Phase {
    if stage.Prepare? then Pending else Finalizing
  }

  /** The job talks to the snapshot's database and may lose two pods more than the snapshot allows. */
  predicate JobFits(job: Job, spec: SnapshotSpec) {
    job.host == spec.questdb && job.backoffLimit == Wrap32(spec.limit + 2)
  }

  /** The VolumeSnapshot is taken of the database's claim with the class asked for. */
  predicate VolumeFits(vol: Volume, spec: SnapshotSpec) {
    vol.claim == spec.questdb && vol.volumeClass == spec.volumeClass
  }

  predicate WorkerCreatesJob(l: Lane, l': Lane, stage: Stage) {
    && l.past.worker.Busy?
    && l.past.worker.start == HomePhase(stage)
    && l.past.worker.Clear()
    && (l.snap.Some? ==> l.snap.value.phase == HomePhase(stage))
    && l.Work(stage).None?
    && l'.Work(stage).Some?
    && l'.Work(stage).value.command == Command(stage)
    && l'.Work(stage).value.succeeded == 0
    && l'.Work(stage).value.failed == 0
    && 0 <= l'.Work(stage).value.backoffLimit
    && (l.snap.Some? ==> JobFits(l'.Work(stage).value, l.snap.value.spec))
    && l' == l.WithJob(stage, l'.Work(stage))
  }

  predicate WorkerCreatesVolume(l: Lane, l': Lane) {
    && l.past.worker.Busy?
    && l.past.worker.start == Running
    && (l.snap.Some? ==> l.snap.value.phase == Running)
    && l.vol.None?
    && l'.vol.Some?
    && !l'.vol.value.ready
    && (l.snap.Some? ==> VolumeFits(l'.vol.value, l.snap.value.spec))
    && l' == l.(vol := l'.vol).Logged(VolumeCreated)
  }

  predicate WorkerDeletesJob(l: Lane, l': Lane, stage: Stage) {
    && l.past.worker.Busy?
    && l.past.worker.start == Succeeded
    && l.Work(stage).Some?
    && l' == l.WithWork(stage, None)
  }

  predicate WorkerWrites(l: Lane, l': Lane) {
    || (l'.snap.Some? && WorkerSetsPhase(l, l', l'.snap.value.phase))
    || WorkerDefaultsLimit(l, l')
    || WorkerAddsFinalizer(l, l')
    || WorkerDropsFinalizer(l, l')
  }

  predicate WorkerStep(l: Lane, l': Lane, f: Facts) {
    || WorkerBegins(l, l') || WorkerEnds(l, l')
    || WorkerMissesDatabase(l, l', f) || WorkerMissesClass(l, l', f)
    || WorkerWrites(l, l')
    || WorkerCreatesJob(l, l', Prepare) || WorkerCreatesJob(l, l', Finish)
    || WorkerCreatesVolume(l, l')
    || WorkerDeletesJob(l, l', Prepare) || WorkerDeletesJob(l, l', Finish)
  }

  ghost predicate LaneNext(l: Lane, l': Lane) {
    l == l' || EnvStep(l, l') || exists f: Facts :: WorkerStep(l, l', f)
  }

  /** A history of one lane from before its snapshot exists. */
  ghost predicate Run(run: seq<Lane>) {
    && |run| > 0
    && run[0] == VOID
    && forall i, j {:trigger LaneNext(run[i], run[j])} :: 0 <= i < |run| - 1 && j == i + 1 ==> LaneNext(run[i], run[j])
  }

  // ---------------------------------------------------------------- what a worker may rely on

  predicate JobKept(was: Option<Job>, now: Option<Job>, alive: bool) {
    && (now.Some? ==>
          && was.Some?
          && now.value == was.value.(succeeded := now.value.succeeded, failed := now.value.failed)
          && was.value.succeeded <= now.value.succeeded
          && (was.value.succeeded == 1 ==> now.value.succeeded == 1)
          && was.value.failed <= now.value.failed)
    && (alive && was.Some? ==> now.Some?)
  }

  /** The combined effect of any number of environment steps on a lane that already exists. */
  predicate Rely(l: Lane, l': Lane) {
    && l.past.born
    && l'.past == l.past.(log := l'.past.log)
    && (l'.snap.Some? ==>
          && l.snap.Some?
          && var (s, s') := (l.snap.value, l'.snap.value);
          && s'.spec == s.spec && s'.phase == s.phase && s'.owner == s.owner && s'.stamp == s.stamp
          && (CompleteFinalizer in s'.finalizers <==> CompleteFinalizer in s.finalizers)
          && (s.deleting ==> s'.deleting && s'.finalizers <= s.finalizers)
          && s.version <= s'.version
          && (s'.version == s.version ==> s' == s))
    && (l.snap.Some? && l'.snap.None? ==> CompleteFinalizer !in l.snap.value.finalizers)
    && JobKept(l.pre, l'.pre, l'.snap.Some?)
    && JobKept(l.post, l'.post, l'.snap.Some?)
    && (l'.vol.Some? ==>
          && l.vol.Some?
          && l'.vol.value == l.vol.value.(ready := l'.vol.value.ready)
          && (l.vol.value.ready ==> l'.vol.value.ready))
    && (l'.snap.Some? && l.vol.Some? ==> l'.vol.Some?)
  }

  lemma WorkStepIsRely(l: Lane, l': Lane)
    requires l.past.born
    requires JobFinishes(l, l', Prepare) || JobFinishes(l, l', Finish) || JobLosesPod(l, l', Prepare) ||
             JobLosesPod(l, l', Finish) || VolumeTurnsReady(l, l')
    ensures Rely(l, l')
  {
  }

  lemma ObjectStepIsRely(l: Lane, l': Lane)
    requires l.past.born
    requires DeleteRequested(l, l') || OrphansCollected(l, l') ||
             MetadataEdited(l, l', if l'.snap.Some? then l'.snap.value.finalizers else {})
    ensures Rely(l, l')
  {
  }

  lemma EnvStepIsRely(l: Lane, l': Lane)
    requires EnvStep(l, l') && l.past.born
    ensures Rely(l, l')
  {
    if DeleteRequested(l, l') || OrphansCollected(l, l') ||
       MetadataEdited(l, l', if l'.snap.Some? then l'.snap.value.finalizers else {}) {
      ObjectStepIsRely(l, l');
    } else {
      WorkStepIsRely(l, l');
    }
  }

  lemma RelyTransitive(a: Lane, b: Lane, c: Lane)
    requires Rely(a, b) && Rely(b, c)
    ensures Rely(a, c)
  {
  }
}
