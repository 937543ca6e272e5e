/** What every history of a snapshot satisfies: an inductive invariant and the theorems it yields. */
module Safety {
  import opened Kinds
  import opened Lifecycle

  // ---------------------------------------------------------------- order of milestones

  /** `at` gives strictly increasing positions at which `log` shows the events of `want`. */
  predicate Positions(at: seq<nat>, want: seq<Event>, log: seq<Event>) {
    && |at| == |want|
    && (forall i | 0 <= i < |at| :: at[i] < |log| && log[at[i]] == want[i])
    && (forall i, j | 0 <= i < j < |at| :: at[i] < at[j])
  }

  /** `want` is a subsequence of `log`. */
  ghost predicate InOrder(want: seq<Event>, log: seq<Event>) {
    exists at: seq<nat> :: Positions(at, want, log)
  }

  lemma InOrderGrow(want: seq<Event>, log: seq<Event>, e: Event)
    requires InOrder(want, log)
    ensures InOrder(want, log + [e])
    ensures InOrder(want + [e], log + [e])
  {
    var at: seq<nat> :| Positions(at, want, log);
    assert Positions(at, want, log + [e]);
    assert Positions(at + [|log|], want + [e], log + [e]);
  }

  const PREPARED := [Finished(Prepare)]
  const IMAGING := PREPARED + [VolumeCreated]
  const IMAGED := IMAGING + [VolumeReady]
  const IMAGED_RELEASING := IMAGED + [Created(Finish)]
  const PIPELINE := IMAGED_RELEASING + [Finished(Finish)]
  const RELEASING := PREPARED + [Created(Finish)]
  const RELEASED := RELEASING + [Finished(Finish)]

  // ---------------------------------------------------------------- the invariant

  predicate Active(p: Phase) {
    p == Running || p == Finalizing
  }

  /** Which persisted phases a reconcile that began in `start` can meet. */
  predicate Reachable(start: Phase, now: Phase) {
    match start
    case Empty => now == Empty || now == Pending || now == Failed
    case Pending => now == Pending || Active(now) || now == Failed
    case Running => Active(now)
    case Finalizing => now == Finalizing || now.Complete()
    case Succeeded => now == Succeeded
    case Failed => now == Failed
    case Unknown(_) => false
  }

  predicate Shaped(l: Lane) {
    && (!l.past.born ==> l == VOID)
    && (l.snap.Some? ==>
          && l.past.born
          && !l.snap.value.phase.Unknown?
          && (l.snap.value.deleting ==> l.snap.value.finalizers != {})
          && (Active(l.snap.value.phase) ==> CompleteFinalizer in l.snap.value.finalizers)
          && (l.snap.value.phase != Empty ==> l.snap.value.spec.limit != 0)
          && (l.snap.value.phase == Empty ==>
                CompleteFinalizer !in l.snap.value.finalizers && l.pre.None?))
    && (l.past.worker.Busy? ==>
          && Began(l.past.worker.start) in l.past.log
          && !l.past.worker.start.Unknown?
          && (l.snap.Some? ==> Reachable(l.past.worker.start, l.snap.value.phase))
          && (Active(l.past.worker.start) ==> l.snap.Some? && CompleteFinalizer in l.snap.value.finalizers))
  }

  ghost predicate Ordered(l: Lane) {
    var log := l.past.log;
    && (JobDone(l.pre) ==> InOrder(PREPARED, log))
    && (l.vol.Some? ==> InOrder(IMAGING, log))
    && (l.vol.Some? && l.vol.value.ready ==> InOrder(IMAGED, log))
    && (l.post.Some? ==> InOrder(RELEASING, log) && (l.Deleting() || InOrder(IMAGED_RELEASING, log)))
    && (JobDone(l.post) ==> InOrder(RELEASED, log) && (l.Deleting() || InOrder(PIPELINE, log)))
    && (l.snap.Some? ==>
          var p := l.snap.value.phase;
          && (Active(p) ==> InOrder(PREPARED, log))
          && (p == Finalizing ==> l.Deleting() || InOrder(IMAGED, log))
          && (p == Succeeded ==> InOrder(RELEASED, log) && (l.Deleting() || InOrder(PIPELINE, log))))
  }

  /** Some reconcile found the snapshot already past PREPARE. */
  predicate Late(l: Lane) {
    Began(Running) in l.past.log || Began(Finalizing) in l.past.log
  }

  predicate Explained(l: Lane) {
    && (l.past.worker.Busy? && l.past.worker.saw == NoDatabase ==> SawNoDatabase in l.past.log)
    && (l.past.worker.Busy? && l.past.worker.saw == NoClass ==> SawNoClass in l.past.log)
    && (l.post.Some? ==> Late(l))
    && (Late(l) && l.past.worker.Busy? ==> Active(l.past.worker.start) || l.past.worker.start.Complete())
    && (l.snap.Some? ==>
          var (p, limit) := (l.snap.value.phase, l.snap.value.spec.limit);
          && (Late(l) ==> Active(p) || p.Complete())
          && (Late(l) && p == Failed ==> JobSpent(l.post, limit))
          && (p == Succeeded ==> Late(l))
          && (p == Failed ==>
                || SawNoDatabase in l.past.log || SawNoClass in l.past.log
                || JobSpent(l.pre, limit) || JobSpent(l.post, limit)))
  }

  function Times(e: Event, log: seq<Event>): nat {
    multiset(log)[e]
  }

  predicate CreatedOnce(l: Lane) {
    var (p, c) := (Times(Created(Prepare), l.past.log), Times(Created(Finish), l.past.log));
    && c <= 1
    && (l.snap.Some? ==>
          && p <= 1
          && (l.snap.value.phase == Empty ==> p == 0)
          && (l.snap.value.phase == Pending && l.pre.None? ==> p == 0)
          && (l.snap.value.phase in {Empty, Pending, Running} ==> c == 0)
          && (l.snap.value.phase == Finalizing && l.post.None? ==> c == 0))
  }

  function Rank(p: Phase): nat {
    match p
    case Empty => 0
    case Pending => 1
    case Running => 2
    case Finalizing => 3
    case _ => 4
  }

  /** How many more times the controller can still write to the snapshot. */
  function Budget(l: Lane): nat {
    if l.snap.None? then 0 else
    var s := l.snap.value;
    (if s.spec.limit == 0 then 1 else 0) +
    (4 - Rank(s.phase)) +
    (if CompleteFinalizer in s.finalizers then 1 else if Rank(s.phase) < 4 then 2 else 0)
  }

  predicate Bounded(l: Lane) {
    l.past.writes + Budget(l) <= 7
  }

  ghost predicate Inv(l: Lane) {
    Shaped(l) && Ordered(l) && Explained(l) && CreatedOnce(l) && Bounded(l)
  }

  /** What was in order stays so after one more event, and that event extends what precedes it. */
  lemma LogGrows(log: seq<Event>, e: Event)
    ensures forall want | InOrder(want, log) :: InOrder(want, log + [e])
    ensures forall want | InOrder(want, log) :: InOrder(want + [e], log + [e])
    ensures InOrder([e], log + [e])
  {
    forall want | InOrder(want, log)
      ensures InOrder(want, log + [e]) && InOrder(want + [e], log + [e])
    {
      InOrderGrow(want, log, e);
    }
    assert Positions([|log|], [e], log + [e]);
  }

  /** An event that comes with no change of any object leaves the order of milestones intact. */
  lemma OrderedLogged(l: Lane, l': Lane, e: Event)
    requires Ordered(l) && l' == l.(past := l'.past) && l'.past.log == l.past.log + [e]
    ensures Ordered(l')
  {
    LogGrows(l.past.log, e);
  }

  // ---------------------------------------------------------------- one lemma per kind of step

  lemma BornKeeps(l: Lane, l': Lane)
    requires Inv(l) && SnapshotBorn(l, l')
    ensures Inv(l')
  {
  }

  lemma JobFinishesKeeps(l: Lane, l': Lane, stage: Stage)
    requires Inv(l) && JobFinishes(l, l', stage)
    ensures Inv(l')
  {
    LogGrows(l.past.log, Finished(stage));
  }

  lemma JobLosesPodKeeps(l: Lane, l': Lane, stage: Stage)
    requires Inv(l) && JobLosesPod(l, l', stage)
    ensures Inv(l')
  {
  }

  lemma VolumeTurnsReadyKeeps(l: Lane, l': Lane)
    requires Inv(l) && VolumeTurnsReady(l, l')
    ensures Inv(l')
  {
    LogGrows(l.past.log, VolumeReady);
  }

  lemma DeleteRequestedKeeps(l: Lane, l': Lane)
    requires Inv(l) && DeleteRequested(l, l')
    ensures Inv(l')
  {
  }

  lemma MetadataEditedKeeps(l: Lane, l': Lane, finalizers: set<Finalizer>)
    requires Inv(l) && MetadataEdited(l, l', finalizers)
    ensures Inv(l')
  {
  }

  lemma OrphansCollectedKeeps(l: Lane, l': Lane)
    requires Inv(l) && OrphansCollected(l, l')
    ensures Inv(l')
  {
  }

  lemma BeginsKeeps(l: Lane, l': Lane)
    requires Inv(l) && WorkerBegins(l, l')
    ensures Inv(l')
  {
    OrderedLogged(l, l', Began(l.snap.value.phase));
  }

  lemma EndsKeeps(l: Lane, l': Lane)
    requires Inv(l) && WorkerEnds(l, l')
    ensures Inv(l')
  {
  }

  lemma MissesDatabaseKeeps(l: Lane, l': Lane, f: Facts)
    requires Inv(l) && WorkerMissesDatabase(l, l', f)
    ensures Inv(l')
  {
    OrderedLogged(l, l', SawNoDatabase);
  }

  lemma MissesClassKeeps(l: Lane, l': Lane, f: Facts)
    requires Inv(l) && WorkerMissesClass(l, l', f)
    ensures Inv(l')
  {
    OrderedLogged(l, l', SawNoClass);
  }

  lemma SetsPhaseKeeps(l: Lane, l': Lane, to: Phase)
    requires Inv(l) && WorkerSetsPhase(l, l', to)
    ensures Inv(l')
  {
  }

  lemma UpdatesKeep(l: Lane, l': Lane)
    requires Inv(l)
    requires WorkerDefaultsLimit(l, l') || WorkerAddsFinalizer(l, l') || WorkerDropsFinalizer(l, l')
    ensures Inv(l')
  {
  }

  lemma CreatesPrepareKeeps(l: Lane, l': Lane)
    requires Inv(l) && WorkerCreatesJob(l, l', Prepare)
    ensures Inv(l')
  {
    LogGrows(l.past.log, Created(Prepare));
  }

  lemma CreatesFinishKeeps(l: Lane, l': Lane)
    requires Inv(l) && WorkerCreatesJob(l, l', Finish)
    ensures Inv(l')
  {
    LogGrows(l.past.log, Created(Finish));
  }

  lemma CreatesVolumeKeeps(l: Lane, l': Lane)
    requires Inv(l) && WorkerCreatesVolume(l, l')
    ensures Inv(l')
  {
    LogGrows(l.past.log, VolumeCreated);
  }

  lemma DeletesJobKeeps(l: Lane, l': Lane, stage: Stage)
    requires Inv(l) && WorkerDeletesJob(l, l', stage)
    ensures Inv(l')
  {
  }

  lemma EnvKeeps(l: Lane, l': Lane)
    requires Inv(l) && EnvStep(l, l')
    ensures Inv(l')
  {
    if SnapshotBorn(l, l') {
      BornKeeps(l, l');
    } else if stage: Stage :| JobFinishes(l, l', stage) {
      JobFinishesKeeps(l, l', stage);
    } else if stage: Stage :| JobLosesPod(l, l', stage) {
      JobLosesPodKeeps(l, l', stage);
    } else if VolumeTurnsReady(l, l') {
      VolumeTurnsReadyKeeps(l, l');
    } else if DeleteRequested(l, l') {
      DeleteRequestedKeeps(l, l');
    } else if OrphansCollected(l, l') {
      OrphansCollectedKeeps(l, l');
    } else {
      MetadataEditedKeeps(l, l', if l'.snap.Some? then l'.snap.value.finalizers else {});
    }
  }

  lemma WorkerKeeps(l: Lane, l': Lane, f: Facts)
    requires Inv(l) && WorkerStep(l, l', f)
    ensures Inv(l')
  {
    if WorkerBegins(l, l') {
      BeginsKeeps(l, l');
    } else if WorkerEnds(l, l') {
      EndsKeeps(l, l');
    } else if WorkerMissesDatabase(l, l', f) {
      MissesDatabaseKeeps(l, l', f);
    } else if WorkerMissesClass(l, l', f) {
      MissesClassKeeps(l, l', f);
    } else if WorkerDefaultsLimit(l, l') || WorkerAddsFinalizer(l, l') || WorkerDropsFinalizer(l, l') {
      UpdatesKeep(l, l');
    } else if WorkerCreatesJob(l, l', Prepare) {
      CreatesPrepareKeeps(l, l');
    } else if WorkerCreatesJob(l, l', Finish) {
      CreatesFinishKeeps(l, l');
    } else if WorkerCreatesVolume(l, l') {
      CreatesVolumeKeeps(l, l');
    } else if stage: Stage :| WorkerDeletesJob(l, l', stage) {
      DeletesJobKeeps(l, l', stage);
    } else {
      SetsPhaseKeeps(l, l', l'.snap.value.phase);
    }
  }

  lemma NextKeeps(l: Lane, l': Lane)
    requires Inv(l) && LaneNext(l, l')
    ensures Inv(l')
  {
    if EnvStep(l, l') {
      EnvKeeps(l, l');
    } else if l != l' {
      var f: Facts :| WorkerStep(l, l', f);
      WorkerKeeps(l, l', f);
    }
  }

  /** Every state of every history satisfies the invariant. */
  lemma {:induction false} InvHolds(run: seq<Lane>, i: nat)
    requires Run(run) && i < |run|
    ensures Inv(run[i])
  {
    if i == 0 {
    } else {
      InvHolds(run, i - 1);
      assert LaneNext(run[i - 1], run[i]);
      NextKeeps(run[i - 1], run[i]);
    }
  }

  // ---------------------------------------------------------------- the theorems

  /** The only phase changes a history shows. */
  predicate LegalEdge(from: Phase, to: Phase) {
    match from
    case Empty => to == Pending || to == Failed
    case Pending => to == Running || to == Finalizing || to == Failed
    case Running => to == Finalizing || to == Failed
    case Finalizing => to == Succeeded || to == Failed
    case _ => false
  }

  /**
   Phases move along `LegalEdge` only, so terminal phases are absorbing, and Running fails only inside
   a reconcile that began in Pending with its PREPARE job both succeeded and out of attempts.
   */
  lemma PhaseEdges(l: Lane, l': Lane)
    requires Inv(l) && LaneNext(l, l') && l.snap.Some? && l'.snap.Some?
    requires l'.snap.value.phase != l.snap.value.phase
    ensures LegalEdge(l.snap.value.phase, l'.snap.value.phase)
    ensures l.snap.value.phase == Running && l'.snap.value.phase == Failed ==>
              && l.past.worker.Busy? && l.past.worker.start == Pending
              && JobDone(l.pre) && JobSpent(l.pre, l.snap.value.spec.limit)
  {
    if !EnvStep(l, l') {
      var f: Facts :| WorkerStep(l, l', f);
      assert WorkerSetsPhase(l, l', l'.snap.value.phase);
    }
  }

  /**
   While the persisted phase is Running or Finalizing the finalizer is in place and PREPARE has
   succeeded.
   */
  lemma FinalizerGuards(run: seq<Lane>, i: nat)
    requires Run(run) && i < |run| && run[i].snap.Some? && Active(run[i].snap.value.phase)
    ensures CompleteFinalizer in run[i].snap.value.finalizers
    ensures Finished(Prepare) in run[i].past.log
  {
    InvHolds(run, i);
    var at: seq<nat> :| Positions(at, PREPARED, run[i].past.log);
    assert run[i].past.log[at[0]] == PREPARED[0];
  }

  /** The step in which a snapshot disappears finds it in neither Running nor Finalizing. */
  lemma VanishStep(run: seq<Lane>, j: nat)
    requires Run(run) && 0 < j < |run| && run[j - 1].snap.Some? && run[j].snap.None?
    ensures !Active(run[j - 1].snap.value.phase)
  {
    var l, l' := run[j - 1], run[j];
    InvHolds(run, j - 1);
    assert LaneNext(l, l');
    if EnvStep(l, l') {
      EnvStepIsRely(l, l');
    } else {
      var f: Facts :| WorkerStep(l, l', f);
      assert WorkerDropsFinalizer(l, l');
    }
  }

  lemma EnvStaysGone(l: Lane, l': Lane)
    requires EnvStep(l, l') && l.past.born
    ensures l'.past.born && (l.snap.None? ==> l'.snap.None?)
  {
  }

  lemma WorkerStaysGone(l: Lane, l': Lane, f: Facts)
    requires WorkerStep(l, l', f) && l.past.born
    ensures l'.past.born && (l.snap.None? ==> l'.snap.None?)
  {
  }

  /** A snapshot name is used once. */
  lemma StaysGone(l: Lane, l': Lane)
    requires LaneNext(l, l') && l.past.born
    ensures l'.past.born && (l.snap.None? ==> l'.snap.None?)
  {
    if EnvStep(l, l') {
      EnvStaysGone(l, l');
    } else if l != l' {
      var f: Facts :| WorkerStep(l, l', f);
      WorkerStaysGone(l, l', f);
    }
  }

  /** The phase stays or moves along `LegalEdge`, and what has been born is not born again. */
  predicate EdgeOf(l: Lane, l': Lane) {
    && (l.snap.Some? && l'.snap.Some? && l.snap.value.phase != l'.snap.value.phase ==>
          LegalEdge(l.snap.value.phase, l'.snap.value.phase))
    && (l.past.born ==> l'.past.born && (l.snap.None? ==> l'.snap.None?))
  }

  lemma NextIsEdge(l: Lane, l': Lane)
    requires Inv(l) && LaneNext(l, l')
    ensures EdgeOf(l, l')
  {
    if l.past.born {
      StaysGone(l, l');
    }
    if l.snap.Some? && l'.snap.Some? && l.snap.value.phase != l'.snap.value.phase {
      PhaseEdges(l, l');
    }
  }

  /** Along a history every phase change is along `LegalEdge`. */
  lemma EdgesOfRun(run: seq<Lane>, j: nat)
    requires Run(run) && 0 < j < |run|
    ensures EdgeOf(run[j - 1], run[j])
  {
    InvHolds(run, j - 1);
    assert LaneNext(run[j - 1], run[j]);
    NextIsEdge(run[j - 1], run[j]);
  }

  lemma PresentIsBorn(run: seq<Lane>, j: nat)
    requires Run(run) && j < |run|
    ensures run[j].snap.Some? ==> run[j].past.born
  {
    InvHolds(run, j);
  }

  /** From Running or Finalizing on, a present snapshot is active or terminal. */
  lemma {:induction false} ActiveStays(run: seq<Lane>, i: nat, j: nat)
    requires Run(run) && i <= j < |run|
    requires run[i].snap.Some? && Active(run[i].snap.value.phase)
    ensures run[j].past.born
    ensures run[j].snap.Some? ==> Active(run[j].snap.value.phase) || run[j].snap.value.phase.Complete()
  {
    PresentIsBorn(run, j);
    if i < j {
      ActiveStays(run, i, j - 1);
      EdgesOfRun(run, j);
    }
  }

  /** A snapshot once persisted as Running or Finalizing is still there, or has been persisted as terminal. */
  lemma {:induction false} CannotVanish(run: seq<Lane>, i: nat, j: nat) returns (k: nat)
    requires Run(run) && i <= j < |run|
    requires run[i].snap.Some? && Active(run[i].snap.value.phase)
    requires run[j].snap.None?
    ensures i < k < j && run[k].snap.Some? && run[k].snap.value.phase.Complete()
  {
    if run[j - 1].snap.None? {
      k := CannotVanish(run, i, j - 1);
    } else {
      ActiveStays(run, i, j - 1);
      VanishStep(run, j);
      k := j - 1;
    }
  }

  /** In its whole life a snapshot is written at most seven times by the controller. */
  lemma SevenWrites(run: seq<Lane>, i: nat)
    requires Run(run) && i < |run|
    ensures run[i].past.writes <= 7
  {
    InvHolds(run, i);
  }

  /** Each controller write strictly decreases the budget. */
  lemma WriteSpendsBudget(l: Lane, l': Lane)
    requires Inv(l) && WorkerWrites(l, l')
    ensures Budget(l') < Budget(l)
    ensures l'.past.writes == l.past.writes + 1
  {
  }

  /** Nothing the environment does to a living snapshot restores any budget. */
  lemma EnvKeepsBudget(l: Lane, l': Lane)
    requires EnvStep(l, l') && l.past.born
    ensures Budget(l') <= Budget(l)
    ensures l'.past.writes == l.past.writes
  {
    EnvStepIsRely(l, l');
  }

  // ---------------------------------------------------------------- the pipeline

  /** Some reconcile found the snapshot in Running. */
  predicate Ran(l: Lane) {
    Began(Running) in l.past.log
  }

  /**
   Once a reconcile has found the snapshot in Running, its VolumeSnapshot comes before its COMPLETE job,
   marked for deletion or not; and only such a reconcile creates a VolumeSnapshot.
   */
  ghost predicate Piped(l: Lane) {
    var log := l.past.log;
    && (VolumeCreated in log ==> Ran(l))
    && (l.post.Some? && Ran(l) ==> InOrder(IMAGED_RELEASING, log))
    && (JobDone(l.post) && Ran(l) ==> InOrder(PIPELINE, log))
    && (l.snap.Some? ==>
          var p := l.snap.value.phase;
          && (p == Empty || p == Pending || p == Running ==> l.post.None?)
          && (p == Finalizing && Ran(l) ==> InOrder(IMAGED, log))
          && (p == Succeeded && Ran(l) ==> InOrder(PIPELINE, log)))
  }

  /** One more event that is no reading keeps `Ran` and what is in order. */
  lemma PipedLogged(l: Lane, l': Lane, e: Event)
    requires Piped(l) && l' == l.(past := l'.past) && l'.past.log == l.past.log + [e]
    requires e != Began(Running) && e != VolumeCreated
    ensures Piped(l')
  {
    LogGrows(l.past.log, e);
  }

  lemma EnvKeepsPipedQuietly(l: Lane, l': Lane)
    requires Shaped(l) && Piped(l) && EnvStep(l, l') && l'.past.log == l.past.log
    ensures Piped(l')
  {
    if l.past.born {
      EnvStepIsRely(l, l');
    }
  }

  lemma JobKeepsPiped(l: Lane, l': Lane, stage: Stage)
    requires Piped(l) && JobFinishes(l, l', stage)
    ensures Piped(l')
  {
    LogGrows(l.past.log, Finished(stage));
  }

  lemma EnvKeepsPiped(l: Lane, l': Lane)
    requires Shaped(l) && Piped(l) && EnvStep(l, l')
    ensures Piped(l')
  {
    if stage: Stage :| JobFinishes(l, l', stage) {
      JobKeepsPiped(l, l', stage);
    } else if VolumeTurnsReady(l, l') {
      LogGrows(l.past.log, VolumeReady);
    } else {
      EnvKeepsPipedQuietly(l, l');
    }
  }

  /** A reconcile that begins in Running finds no COMPLETE job. */
  lemma BeginKeepsPiped(l: Lane, l': Lane)
    requires Piped(l) && WorkerBegins(l, l')
    ensures Piped(l')
  {
    if l.snap.value.phase != Running {
      PipedLogged(l, l', Began(l.snap.value.phase));
    }
  }

  lemma PhaseKeepsPiped(l: Lane, l': Lane, to: Phase)
    requires Shaped(l) && Ordered(l) && Explained(l) && Piped(l) && WorkerSetsPhase(l, l', to)
    ensures Piped(l')
  {
  }

  lemma WriteKeepsPiped(l: Lane, l': Lane)
    requires Piped(l)
    requires WorkerDefaultsLimit(l, l') || WorkerAddsFinalizer(l, l') || WorkerDropsFinalizer(l, l')
    ensures Piped(l')
  {
  }

  lemma PrepareKeepsPiped(l: Lane, l': Lane)
    requires Piped(l) && WorkerCreatesJob(l, l', Prepare)
    ensures Piped(l')
  {
    LogGrows(l.past.log, Created(Prepare));
  }

  lemma FinishKeepsPiped(l: Lane, l': Lane)
    requires Shaped(l) && Piped(l) && WorkerCreatesJob(l, l', Finish)
    ensures Piped(l')
  {
    LogGrows(l.past.log, Created(Finish));
  }

  lemma VolumeKeepsPiped(l: Lane, l': Lane)
    requires Shaped(l) && Piped(l) && WorkerCreatesVolume(l, l')
    ensures Piped(l')
  {
    LogGrows(l.past.log, VolumeCreated);
  }

  lemma DeletionKeepsPiped(l: Lane, l': Lane, stage: Stage)
    requires Piped(l) && WorkerDeletesJob(l, l', stage)
    ensures Piped(l')
  {
  }

  lemma WorkerKeepsPiped(l: Lane, l': Lane, f: Facts)
    requires Inv(l) && Piped(l) && WorkerStep(l, l', f)
    ensures Piped(l')
  {
    if WorkerBegins(l, l') {
      BeginKeepsPiped(l, l');
    } else if WorkerMissesDatabase(l, l', f) {
      PipedLogged(l, l', SawNoDatabase);
    } else if WorkerMissesClass(l, l', f) {
      PipedLogged(l, l', SawNoClass);
    } else if l'.snap.Some? && WorkerSetsPhase(l, l', l'.snap.value.phase) {
      PhaseKeepsPiped(l, l', l'.snap.value.phase);
    } else if WorkerWrites(l, l') {
      WriteKeepsPiped(l, l');
    } else if WorkerCreatesJob(l, l', Prepare) {
      PrepareKeepsPiped(l, l');
    } else if WorkerCreatesJob(l, l', Finish) {
      FinishKeepsPiped(l, l');
    } else if WorkerCreatesVolume(l, l') {
      VolumeKeepsPiped(l, l');
    } else if stage: Stage :| WorkerDeletesJob(l, l', stage) {
      DeletionKeepsPiped(l, l', stage);
    }
  }

  lemma PipedStep(l: Lane, l': Lane)
    requires Inv(l) && Piped(l) && LaneNext(l, l')
    ensures Piped(l')
  {
    if EnvStep(l, l') {
      EnvKeepsPiped(l, l');
    } else if l != l' {
      var f: Facts :| WorkerStep(l, l', f);
      WorkerKeepsPiped(l, l', f);
    }
  }

  lemma {:induction false} PipedHolds(run: seq<Lane>, i: nat)
    requires Run(run) && i < |run|
    ensures Piped(run[i])
  {
    if i > 0 {
      PipedHolds(run, i - 1);
      InvHolds(run, i - 1);
      assert LaneNext(run[i - 1], run[i]);
      PipedStep(run[i - 1], run[i]);
    }
  }

  /**
   Every Succeeded snapshot had PREPARE succeed, COMPLETE created and COMPLETE succeed, in this order. It went
   through the whole pipeline, the VolumeSnapshot created and ready in between, exactly if some reconcile
   found it in Running; and one never marked for deletion did.
   */
  lemma PipelineOrder(run: seq<Lane>, i: nat) returns (at: seq<nat>)
    requires Run(run) && i < |run| && run[i].snap.Some? && run[i].snap.value.phase == Succeeded
    ensures Positions(at, if Ran(run[i]) then PIPELINE else RELEASED, run[i].past.log)
    ensures InOrder(PIPELINE, run[i].past.log) <==> Ran(run[i])
    ensures !run[i].snap.value.deleting ==> Ran(run[i])
  {
    InvHolds(run, i);
    PipedHolds(run, i);
    var log := run[i].past.log;
    if InOrder(PIPELINE, log) {
      var at': seq<nat> :| Positions(at', PIPELINE, log);
      assert log[at'[1]] == PIPELINE[1];
    }
    if Ran(run[i]) {
      at :| Positions(at, PIPELINE, log);
    } else {
      at :| Positions(at, RELEASED, log);
    }
  }

  /** COMPLETE ran to its end: it succeeded, or lost as many pods as the limit allows. */
  predicate CompleteRan(l: Lane)
    requires l.snap.Some?
  {
    Finished(Finish) in l.past.log || JobSpent(l.post, l.snap.value.spec.limit)
  }

  lemma PostMeansLate(run: seq<Lane>, i: nat)
    requires Run(run) && i < |run| && run[i].post.Some?
    ensures Late(run[i])
  {
    InvHolds(run, i);
  }

  lemma EnvLogMonotone(l: Lane, l': Lane)
    requires EnvStep(l, l')
    ensures l.past.log <= l'.past.log
  {
  }

  lemma WorkerLogMonotone(l: Lane, l': Lane, f: Facts)
    requires WorkerStep(l, l', f)
    ensures l.past.log <= l'.past.log
  {
  }

  lemma LogMonotone(l: Lane, l': Lane)
    requires LaneNext(l, l')
    ensures l.past.log <= l'.past.log
  {
    if EnvStep(l, l') {
      EnvLogMonotone(l, l');
    } else if l != l' {
      var f: Facts :| WorkerStep(l, l', f);
      WorkerLogMonotone(l, l', f);
    }
  }

  lemma WorkerFinishesNothing(l: Lane, l': Lane, f: Facts)
    requires WorkerStep(l, l', f) && Finished(Finish) !in l.past.log
    ensures Finished(Finish) !in l'.past.log
  {
  }

  /** COMPLETE can only be seen to succeed once its job is there. */
  lemma FinishStep(l: Lane, l': Lane)
    requires LaneNext(l, l') && Finished(Finish) !in l.past.log && Finished(Finish) in l'.past.log
    ensures l.post.Some?
  {
    if !EnvStep(l, l') {
      var f: Facts :| WorkerStep(l, l', f);
      WorkerFinishesNothing(l, l', f);
    }
  }

  lemma {:induction false} FinishedMeansLate(run: seq<Lane>, i: nat)
    requires Run(run) && i < |run| && Finished(Finish) in run[i].past.log
    ensures Late(run[i])
  {
    if i > 0 {
      var l, l' := run[i - 1], run[i];
      assert LaneNext(l, l');
      LogMonotone(l, l');
      if Finished(Finish) in l.past.log {
        FinishedMeansLate(run, i - 1);
      } else {
        FinishStep(l, l');
        PostMeansLate(run, i - 1);
      }
    }
  }

  /**
   A terminal snapshot has had COMPLETE run exactly when some reconcile found it in Running or
   Finalizing. The others failed before, or inside the reconcile that saw PREPARE succeed.
   */
  lemma CompleteIffLate(run: seq<Lane>, i: nat)
    requires Run(run) && i < |run| && run[i].snap.Some? && run[i].snap.value.phase.Complete()
    ensures CompleteRan(run[i]) <==> Late(run[i])
  {
    InvHolds(run, i);
    var l := run[i];
    if l.snap.value.phase == Succeeded {
      var at: seq<nat> :| Positions(at, RELEASED, l.past.log);
      assert l.past.log[at[2]] == RELEASED[2];
    }
    if Finished(Finish) in l.past.log {
      FinishedMeansLate(run, i);
    }
  }

  /** No snapshot fails without one of the four recorded causes. */
  lemma FailureExplained(run: seq<Lane>, i: nat)
    requires Run(run) && i < |run| && run[i].snap.Some? && run[i].snap.value.phase == Failed
    ensures
      || SawNoDatabase in run[i].past.log
      || SawNoClass in run[i].past.log
      || JobSpent(run[i].pre, run[i].snap.value.spec.limit)
      || JobSpent(run[i].post, run[i].snap.value.spec.limit)
  {
    InvHolds(run, i);
  }

  /** Once the snapshot is gone, only a reconcile still under way can create a job, and only one. */
  predicate Sparing(l: Lane) {
    var p := Times(Created(Prepare), l.past.log);
    p <= 2 && (l.snap.None? && l.past.worker.Busy? && !l.past.worker.made ==> p <= 1)
  }

  lemma EnvKeepsSparing(l: Lane, l': Lane)
    requires Inv(l) && Sparing(l) && EnvStep(l, l')
    ensures Sparing(l')
  {
    assert l'.past.log == l.past.log || exists e :: e != Created(Prepare) && l'.past.log == l.past.log + [e];
  }

  lemma CreationKeepsSparing(l: Lane, l': Lane, stage: Stage)
    requires Inv(l) && Sparing(l) && WorkerCreatesJob(l, l', stage)
    ensures Sparing(l')
  {
  }

  /** What is logged is one event at most, and no creation of PREPARE. */
  predicate LogsOther(l: Lane, l': Lane) {
    && l.past.log <= l'.past.log
    && |l'.past.log| <= |l.past.log| + 1
    && (|l'.past.log| > |l.past.log| ==> l'.past.log[|l.past.log|] != Created(Prepare))
  }

  lemma OtherKeepsTimes(l: Lane, l': Lane)
    requires LogsOther(l, l')
    ensures Times(Created(Prepare), l'.past.log) == Times(Created(Prepare), l.past.log)
  {
    var (log, log') := (l.past.log, l'.past.log);
    assert log' == log + log'[|log|..];
  }

  lemma WritesLogNothing(l: Lane, l': Lane)
    requires WorkerWrites(l, l')
    ensures l'.past.log == l.past.log && l'.past.worker == l.past.worker
    ensures l.snap.None? ==> l'.snap.None?
  {
  }

  /** No step but the creation of its job adds that event. */
  lemma WorkLogsOther(l: Lane, l': Lane, f: Facts)
    requires WorkerStep(l, l', f) && !WorkerCreatesJob(l, l', Prepare) && !WorkerCreatesJob(l, l', Finish)
    requires !WorkerWrites(l, l')
    ensures LogsOther(l, l')
    ensures l'.snap == l.snap
    ensures l'.past.worker.Busy? && l'.snap.None? ==> l.past.worker.Busy? && l'.past.worker.made == l.past.worker.made
  {
  }

  lemma WorkKeepsSparing(l: Lane, l': Lane, f: Facts)
    requires Inv(l) && Sparing(l) && WorkerStep(l, l', f)
    requires !WorkerCreatesJob(l, l', Prepare) && !WorkerCreatesJob(l, l', Finish)
    ensures Sparing(l')
  {
    if WorkerWrites(l, l') {
      WritesLogNothing(l, l');
    } else {
      WorkLogsOther(l, l', f);
      OtherKeepsTimes(l, l');
    }
  }

  lemma SparingStep(l: Lane, l': Lane)
    requires Inv(l) && Sparing(l) && LaneNext(l, l')
    ensures Sparing(l')
  {
    if EnvStep(l, l') {
      EnvKeepsSparing(l, l');
    } else if l != l' {
      var f: Facts :| WorkerStep(l, l', f);
      if stage: Stage :| WorkerCreatesJob(l, l', stage) {
        CreationKeepsSparing(l, l', stage);
      } else {
        WorkKeepsSparing(l, l', f);
      }
    }
  }

  lemma {:induction false} SparingHolds(run: seq<Lane>, i: nat)
    requires Run(run) && i < |run|
    ensures Sparing(run[i])
  {
    if i > 0 {
      SparingHolds(run, i - 1);
      InvHolds(run, i - 1);
      assert LaneNext(run[i - 1], run[i]);
      SparingStep(run[i - 1], run[i]);
    }
  }

  /**
   COMPLETE is created at most once ever. PREPARE is created at most once while the snapshot exists, and
   at most twice ever: a reconcile that outlives the snapshot may create it again.
   */
  lemma JobsCreatedOnce(run: seq<Lane>, i: nat)
    requires Run(run) && i < |run|
    ensures multiset(run[i].past.log)[Created(Finish)] <= 1
    ensures multiset(run[i].past.log)[Created(Prepare)] <= if run[i].snap.Some? then 1 else 2
  {
    InvHolds(run, i);
    SparingHolds(run, i);
  }
}
