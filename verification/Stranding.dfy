/**
 How a snapshot can be left short of its goal: a database that was prepared and never completed, or a
 snapshot that never leaves Pending. Both are characterised over all histories.
 */
module Stranding {
  import opened Base
  import opened Kinds
  import opened Lifecycle
  import opened Safety

  // ---------------------------------------------------------------- prepared, never completed

  predicate Unfinished(l: Lane) {
    l.snap.Some? && !l.snap.value.phase.Complete()
  }

  /** The snapshot has come to its end: it is terminal, or gone. */
  predicate Ended(l: Lane) {
    l.past.born && !Unfinished(l)
  }

  /** Deletion takes effect at once, because nothing guards the Pending snapshot any more or yet. */
  predicate DeletedUnguarded(l: Lane, l': Lane) {
    && l.snap.Some?
    && l.snap.value.phase == Pending
    && ((DeleteRequested(l, l') && l.snap.value.finalizers == {}) ||
        (MetadataEdited(l, l', {}) && l.snap.value.deleting))
  }

  /** A Pending reconcile that found the volume class missing fails the snapshot. */
  predicate FailedForClass(l: Lane, l': Lane) {
    && l.past.worker.Busy? && l.past.worker.start == Pending && l.past.worker.saw == NoClass
    && WorkerSetsPhase(l, l', Failed)
    && l.snap.value.phase == Pending
  }

  /** A reconcile that began in Pending fails the snapshot for the pods PREPARE has lost. */
  predicate FailedForAttempts(l: Lane, l': Lane) {
    && l.past.worker.Busy? && l.past.worker.start == Pending
    && WorkerSetsPhase(l, l', Failed)
    && JobSpent(l.pre, l.snap.value.spec.limit)
  }

  predicate Abandons(l: Lane, l': Lane) {
    DeletedUnguarded(l, l') || FailedForClass(l, l') || FailedForAttempts(l, l')
  }

  /** COMPLETE is created only for, and always for, a snapshot some reconcile found past PREPARE. */
  predicate Accounted(l: Lane) {
    && (Created(Finish) in l.past.log ==> Late(l))
    && (Late(l) && Ended(l) ==> Created(Finish) in l.past.log)
    && (l.snap.Some? && l.snap.value.phase == Empty ==> Finished(Prepare) !in l.past.log)
  }

  lemma TerminalIsAccounted(l: Lane)
    requires Inv(l) && l.snap.Some? && l.snap.value.phase.Complete() && Late(l)
    ensures Created(Finish) in l.past.log
  {
    var log := l.past.log;
    if l.snap.value.phase == Succeeded {
      var at: seq<nat> :| Positions(at, RELEASED, log);
      assert log[at[1]] == RELEASED[1];
    } else {
      var at: seq<nat> :| Positions(at, RELEASING, log);
      assert log[at[1]] == RELEASING[1];
    }
  }

  /** The environment's own milestones are neither creations nor readings, nor PREPARE before its job. */
  lemma EnvLogs(l: Lane, l': Lane)
    requires EnvStep(l, l')
    ensures Created(Finish) in l'.past.log ==> Created(Finish) in l.past.log
    ensures Late(l') <==> Late(l)
    ensures Finished(Prepare) in l'.past.log ==> Finished(Prepare) in l.past.log || l.pre.Some?
  {
  }

  lemma EnvKeepsAccounted(l: Lane, l': Lane)
    requires Shaped(l) && Explained(l) && Accounted(l) && EnvStep(l, l')
    ensures Accounted(l')
  {
    EnvLogs(l, l');
    EnvLogMonotone(l, l');
    if l.past.born {
      EnvStepIsRely(l, l');
    }
  }

  lemma WorkerKeepsLate(l: Lane, l': Lane, f: Facts)
    requires Shaped(l) && Accounted(l) && WorkerStep(l, l', f)
    ensures Created(Finish) in l'.past.log ==> Late(l')
    ensures l'.snap.Some? && l'.snap.value.phase == Empty ==> Finished(Prepare) !in l'.past.log
  {
    WorkerLogMonotone(l, l', f);
  }

  lemma WorkerEndsNothingLate(l: Lane, l': Lane, f: Facts)
    requires Shaped(l) && Explained(l) && Accounted(l) && WorkerStep(l, l', f) && l'.snap.None? && Late(l')
    ensures Created(Finish) in l'.past.log
  {
    WorkerLogMonotone(l, l', f);
    assert Late(l);
    if l.snap.Some? {
      assert WorkerDropsFinalizer(l, l');
    }
  }

  lemma WorkerKeepsAccounted(l: Lane, l': Lane, f: Facts)
    requires Inv(l) && Inv(l') && Accounted(l) && WorkerStep(l, l', f)
    ensures Accounted(l')
  {
    WorkerKeepsLate(l, l', f);
    WorkerLogMonotone(l, l', f);
    if Late(l') && Ended(l') {
      if l'.snap.Some? {
        TerminalIsAccounted(l');
      } else {
        WorkerEndsNothingLate(l, l', f);
      }
    }
  }

  lemma AccountedStep(l: Lane, l': Lane)
    requires Inv(l) && Inv(l') && Accounted(l) && LaneNext(l, l')
    ensures Accounted(l')
  {
    if EnvStep(l, l') {
      EnvKeepsAccounted(l, l');
    } else if l != l' {
      var f: Facts :| WorkerStep(l, l', f);
      WorkerKeepsAccounted(l, l', f);
    }
  }

  lemma {:induction false} AccountedHolds(run: seq<Lane>, i: nat)
    requires Run(run) && i < |run|
    ensures Accounted(run[i])
  {
    if i > 0 {
      AccountedHolds(run, i - 1);
      InvHolds(run, i - 1);
      InvHolds(run, i);
      assert LaneNext(run[i - 1], run[i]);
      AccountedStep(run[i - 1], run[i]);
    }
  }

  /** PREPARE has succeeded, the snapshot has not ended, and no reconcile has found it past PREPARE. */
  predicate Exposed(l: Lane) {
    Unfinished(l) && Finished(Prepare) in l.past.log && !Late(l)
  }

  lemma EnvAbandonsExactly(l: Lane, l': Lane)
    requires Inv(l) && Accounted(l) && Exposed(l) && EnvStep(l, l')
    ensures Ended(l') <==> Abandons(l, l')
  {
    EnvStepIsRely(l, l');
  }

  lemma WorkerAbandonsExactly(l: Lane, l': Lane, f: Facts)
    requires Inv(l) && Accounted(l) && Exposed(l) && WorkerStep(l, l', f)
    ensures Ended(l') <==> Abandons(l, l')
  {
  }

  /** The steps that end an exposed snapshot are exactly those three. */
  lemma AbandonsExactly(l: Lane, l': Lane)
    requires Inv(l) && Accounted(l) && Exposed(l) && LaneNext(l, l')
    ensures Ended(l') <==> Abandons(l, l')
  {
    if EnvStep(l, l') {
      EnvAbandonsExactly(l, l');
    } else if l != l' {
      var f: Facts :| WorkerStep(l, l', f);
      WorkerAbandonsExactly(l, l', f);
    }
  }

  /** What has once been logged, or born, stays so. */
  lemma {:induction false} LogsGrow(run: seq<Lane>, i: nat, j: nat)
    requires Run(run) && i <= j < |run|
    ensures run[i].past.log <= run[j].past.log && (run[i].past.born ==> run[j].past.born)
  {
    if i < j {
      LogsGrow(run, i, j - 1);
      assert LaneNext(run[j - 1], run[j]);
      LogMonotone(run[j - 1], run[j]);
      EdgesOfRun(run, j);
    }
  }

  lemma WorkerLateOnlyByReading(l: Lane, l': Lane, f: Facts)
    requires WorkerStep(l, l', f) && !Late(l)
    ensures Late(l') ==> l.snap.Some? && Active(l.snap.value.phase)
  {
  }

  /** A reconcile only begins with a snapshot that is there, and an ended one is terminal. */
  lemma NotLateAfterEnd(l: Lane, l': Lane)
    requires Inv(l) && LaneNext(l, l') && Ended(l)
    ensures Late(l') ==> Late(l)
  {
    if EnvStep(l, l') {
      EnvLogs(l, l');
    } else if l != l' && !Late(l) {
      var f: Facts :| WorkerStep(l, l', f);
      WorkerLateOnlyByReading(l, l', f);
    }
  }

  lemma {:induction false} EndedStays(run: seq<Lane>, i: nat, j: nat)
    requires Run(run) && i <= j < |run| && Ended(run[i])
    ensures Ended(run[j]) && (Late(run[j]) ==> Late(run[i]))
  {
    if i < j {
      EndedStays(run, i, j - 1);
      EdgesOfRun(run, j);
      InvHolds(run, j - 1);
      assert LaneNext(run[j - 1], run[j]);
      NotLateAfterEnd(run[j - 1], run[j]);
    }
  }

  /** An abandoning step ends a snapshot that no reconcile has found past PREPARE. */
  lemma AbandonedUnnoticed(l: Lane, l': Lane)
    requires Inv(l) && LaneNext(l, l') && Abandons(l, l')
    ensures Ended(l') && !Late(l')
  {
    assert l.past.born;
    if l.past.worker.Busy? && l.past.worker.start == Pending {
      assert !Late(l);
    }
  }

  lemma LastStepAbandons(run: seq<Lane>, j: nat)
    requires Run(run) && 0 < j < |run| && Exposed(run[j - 1]) && Ended(run[j])
    ensures Abandons(run[j - 1], run[j])
  {
    InvHolds(run, j - 1);
    AccountedHolds(run, j - 1);
    assert LaneNext(run[j - 1], run[j]);
    AbandonsExactly(run[j - 1], run[j]);
  }

  lemma {:induction false} AbandoningStep(run: seq<Lane>, i: nat, j: nat) returns (k: nat)
    requires Run(run) && i <= j < |run|
    requires Unfinished(run[i]) && Finished(Prepare) in run[i].past.log && Ended(run[j]) && !Late(run[j])
    ensures i <= k < j && Abandons(run[k], run[k + 1])
  {
    LogsGrow(run, j - 1, j);
    LogsGrow(run, i, j - 1);
    PresentIsBorn(run, i);
    if Ended(run[j - 1]) {
      k := AbandoningStep(run, i, j - 1);
    } else {
      k := j - 1;
      LastStepAbandons(run, j);
    }
  }

  /** An abandoning step leaves a snapshot for which COMPLETE will never be created. */
  lemma AbandonedForEver(run: seq<Lane>, k: nat, j: nat)
    requires Run(run) && k < j < |run| && Abandons(run[k], run[k + 1])
    ensures Ended(run[j]) && Created(Finish) !in run[j].past.log
  {
    InvHolds(run, k);
    assert LaneNext(run[k], run[k + 1]);
    AbandonedUnnoticed(run[k], run[k + 1]);
    EndedStays(run, k + 1, j);
    AccountedHolds(run, j);
  }

  /** For a snapshot seen prepared before its end: COMPLETE is never created exactly if such a step was taken. */
  lemma LeftPreparedExactly(run: seq<Lane>, i: nat, j: nat)
    requires Run(run) && i <= j < |run|
    requires Unfinished(run[i]) && Finished(Prepare) in run[i].past.log && Ended(run[j])
    ensures Created(Finish) !in run[j].past.log <==> exists k | i <= k < j :: Abandons(run[k], run[k + 1])
  {
    AccountedHolds(run, j);
    if Created(Finish) !in run[j].past.log {
      var k := AbandoningStep(run, i, j);
      assert Abandons(run[k], run[k + 1]);
    }
    if k :| i <= k < j && Abandons(run[k], run[k + 1]) {
      AbandonedForEver(run, k, j);
    }
  }

  /** The PREPARE job of a snapshot that has already come to its end succeeds all the same. */
  predicate PreparedAfterEnd(l: Lane, l': Lane) {
    Ended(l) && Finished(Prepare) !in l.past.log && JobFinishes(l, l', Prepare)
  }

  /** The steps that strand a prepared database. */
  predicate Strands(l: Lane, l': Lane) {
    (Finished(Prepare) in l.past.log && Abandons(l, l')) || PreparedAfterEnd(l, l')
  }

  lemma WorkerFinishesNoPrepare(l: Lane, l': Lane, f: Facts)
    requires WorkerStep(l, l', f) && Finished(Prepare) !in l.past.log
    ensures Finished(Prepare) !in l'.past.log
  {
  }

  lemma EnvFinishesPrepare(l: Lane, l': Lane)
    requires EnvStep(l, l') && Finished(Prepare) !in l.past.log && Finished(Prepare) in l'.past.log
    ensures JobFinishes(l, l', Prepare)
  {
  }

  /** PREPARE was first seen to succeed in a step of its job. */
  lemma {:induction false} FirstFinish(run: seq<Lane>, j: nat) returns (k: nat)
    requires Run(run) && j < |run| && Finished(Prepare) in run[j].past.log
    ensures k < j && Finished(Prepare) !in run[k].past.log && JobFinishes(run[k], run[k + 1], Prepare)
    ensures Finished(Prepare) in run[k + 1].past.log
  {
    if Finished(Prepare) in run[j - 1].past.log {
      k := FirstFinish(run, j - 1);
    } else {
      k := j - 1;
      assert LaneNext(run[k], run[j]);
      if EnvStep(run[k], run[j]) {
        EnvFinishesPrepare(run[k], run[j]);
      } else {
        var f: Facts :| WorkerStep(run[k], run[j], f);
        WorkerFinishesNoPrepare(run[k], run[j], f);
      }
    }
  }

  /** No reconcile finds a snapshot past PREPARE before PREPARE has succeeded. */
  lemma {:induction false} LateIsPrepared(run: seq<Lane>, k: nat)
    requires Run(run) && k < |run| && Late(run[k])
    ensures Finished(Prepare) in run[k].past.log
  {
    var l, l' := run[k - 1], run[k];
    assert LaneNext(l, l');
    LogMonotone(l, l');
    if Late(l) {
      LateIsPrepared(run, k - 1);
    } else if EnvStep(l, l') {
      EnvLogs(l, l');
    } else {
      var f: Facts :| WorkerStep(l, l', f);
      WorkerLateOnlyByReading(l, l', f);
      FinalizerGuards(run, k - 1);
    }
  }

  lemma PreparedAfterEndForEver(run: seq<Lane>, k: nat, j: nat)
    requires Run(run) && k < j < |run| && PreparedAfterEnd(run[k], run[k + 1])
    ensures Created(Finish) !in run[j].past.log
  {
    if Late(run[k]) {
      LateIsPrepared(run, k);
    }
    EndedStays(run, k, j);
    AccountedHolds(run, j);
  }

  lemma StrandingStep(run: seq<Lane>, j: nat) returns (k: nat)
    requires Run(run) && j < |run| && Ended(run[j]) && Finished(Prepare) in run[j].past.log
    requires Created(Finish) !in run[j].past.log
    ensures k < j && Strands(run[k], run[k + 1])
  {
    var i := FirstFinish(run, j);
    InvHolds(run, i);
    if Ended(run[i]) {
      k := i;
    } else {
      AccountedHolds(run, j);
      k := AbandoningStep(run, i + 1, j);
      LogsGrow(run, i + 1, k);
    }
  }

  /**
   Over all histories: a database whose PREPARE succeeded is never completed, although its snapshot has come
   to its end, exactly if one of four steps was taken. After PREPARE had succeeded, a deletion took effect
   that nothing held back while the snapshot was Pending, or the snapshot was failed for a missing volume
   class, or for the pods PREPARE had lost; or PREPARE succeeded only after the snapshot had ended.
   */
  lemma NeverCompletedExactly(run: seq<Lane>, j: nat)
    requires Run(run) && j < |run| && Ended(run[j]) && Finished(Prepare) in run[j].past.log
    ensures Created(Finish) !in run[j].past.log <==> exists k | 0 <= k < j :: Strands(run[k], run[k + 1])
  {
    if Created(Finish) !in run[j].past.log {
      var k := StrandingStep(run, j);
      assert Strands(run[k], run[k + 1]);
    }
    if k :| 0 <= k < j && Strands(run[k], run[k + 1]) {
      if PreparedAfterEnd(run[k], run[k + 1]) {
        PreparedAfterEndForEver(run, k, j);
      } else {
        AbandonedForEver(run, k, j);
      }
    }
  }

  // ---------------------------------------------------------------- a history for each

  lemma Extended(run: seq<Lane>, l: Lane)
    requires Run(run) && LaneNext(run[|run| - 1], l)
    ensures Run(run + [l])
  {
    var run' := run + [l];
    forall i, j | 0 <= i < |run'| - 1 && j == i + 1 ensures LaneNext(run'[i], run'[j]) {
      if j < |run| {
        assert LaneNext(run[i], run[j]);
      }
    }
  }

  const NO_FACTS := Facts({}, {}, [], true)

  lemma WorkExtends(run: seq<Lane>, l: Lane)
    requires Run(run) && WorkerStep(run[|run| - 1], l, NO_FACTS)
    ensures Run(run + [l])
  {
    Extended(run, l);
  }

  /** A snapshot as it waits in Pending. */
  function Waiting(spec: SnapshotSpec): Snapshot {
    Snapshot(spec, Pending, {}, false, None, 0, 1)
  }

  lemma WaitingRun(spec: SnapshotSpec) returns (run: seq<Lane>)
    requires spec.limit > 0
    ensures Run(run) && |run| > 0
    ensures run[|run| - 1] == Lane(Some(Waiting(spec)), None, None, None, Past(true, Idle, [Began(Empty)], 1))
  {
    var s := Waiting(spec).(phase := Empty, version := 0);
    var l1 := Lane(Some(s), None, None, None, UNBORN.(born := true));
    var l2 := l1.WithWorker(Busy(Empty, spec, Nothing, false)).Logged(Began(Empty));
    var l3 := l2.Wrote(Some(Waiting(spec)));
    run := [VOID];
    assert SnapshotBorn(VOID, l1);
    Extended(run, l1);
    run := run + [l1];
    WorkExtends(run, l2);
    run := run + [l2];
    assert WorkerSetsPhase(l2, l3, Pending);
    WorkExtends(run, l3);
    run := run + [l3];
    WorkExtends(run, l3.WithWorker(Idle));
    run := run + [l3.WithWorker(Idle)];
  }

  /** The PREPARE job of such a snapshot, after it has lost so many pods and perhaps succeeded. */
  function PrepareJob(spec: SnapshotSpec, failed: int32, succeeded: int32): Job {
    Job("snap", SnapshotPrepare, Wrap32(spec.limit + 2), spec.questdb, "admin", "quest", succeeded, failed)
  }

  const PREPARING := [Began(Empty), Began(Pending), Created(Prepare)]

  /** A snapshot in Pending, its PREPARE job running, and nobody at work. */
  function PreparingLane(spec: SnapshotSpec, failed: int32): Lane {
    Lane(Some(Waiting(spec)), Some(PrepareJob(spec, failed, 0)), None, None, Past(true, Idle, PREPARING, 1))
  }

  lemma PreparingRun(spec: SnapshotSpec, failed: int32) returns (run: seq<Lane>)
    requires 0 < spec.limit <= MAX_INT32 - 2 && 0 <= failed <= 1
    ensures Run(run) && |run| > 0 && run[|run| - 1] == PreparingLane(spec, failed)
  {
    run := WaitingRun(spec);
    var l := run[|run| - 1];
    var l1 := l.WithWorker(Busy(Pending, spec, Nothing, false)).Logged(Began(Pending));
    var l2 := l1.WithJob(Prepare, Some(PrepareJob(spec, 0, 0)));
    WorkExtends(run, l1);
    run := run + [l1];
    assert WorkerCreatesJob(l1, l2, Prepare);
    WorkExtends(run, l2);
    run := run + [l2];
    WorkExtends(run, PreparingLane(spec, 0));
    run := run + [PreparingLane(spec, 0)];
    if failed == 1 {
      assert JobLosesPod(PreparingLane(spec, 0), PreparingLane(spec, 1), Prepare);
      Extended(run, PreparingLane(spec, 1));
      run := run + [PreparingLane(spec, 1)];
    }
  }

  /** The same after the job has succeeded. */
  function PreparedLane(spec: SnapshotSpec, failed: int32): Lane {
    PreparingLane(spec, failed).(pre := Some(PrepareJob(spec, failed, 1))).Logged(Finished(Prepare))
  }

  lemma PreparedRun(spec: SnapshotSpec, failed: int32) returns (run: seq<Lane>)
    requires 0 < spec.limit <= MAX_INT32 - 2 && 0 <= failed <= 1
    ensures Run(run) && |run| > 0 && run[|run| - 1] == PreparedLane(spec, failed)
  {
    run := PreparingRun(spec, failed);
    assert JobFinishes(PreparingLane(spec, failed), PreparedLane(spec, failed), Prepare);
    Extended(run, PreparedLane(spec, failed));
    run := run + [PreparedLane(spec, failed)];
  }

  /** PREPARE has succeeded and COMPLETE was never created, with nobody at work any more. */
  predicate Stranded(l: Lane) {
    Finished(Prepare) in l.past.log && Created(Finish) !in l.past.log && l.past.worker.Idle?
  }

  /** A history in which the class disappears after PREPARE: the snapshot fails and COMPLETE is never created. */
  lemma PreparedLeftBehind() returns (run: seq<Lane>)
    ensures Run(run) && Stranded(run[|run| - 1])
    ensures var l := run[|run| - 1]; l.snap.Some? && l.snap.value.phase == Failed
  {
    var spec := SnapshotSpec("db", Some("class"), 5);
    run := PreparedRun(spec, 0);
    var l := PreparedLane(spec, 0);
    var l1 := l.WithWorker(Busy(Pending, spec, Nothing, false)).Logged(Began(Pending));
    var l2 := l1.WithWorker(Busy(Pending, spec, NoClass, false)).Logged(SawNoClass);
    var l3 := l2.Wrote(Some(Waiting(spec).(phase := Failed, version := 2)));
    WorkExtends(run, l1);
    run := run + [l1];
    assert WorkerMissesClass(l1, l2, NO_FACTS);
    WorkExtends(run, l2);
    run := run + [l2];
    assert WorkerSetsPhase(l2, l3, Failed);
    WorkExtends(run, l3);
    run := run + [l3];
    WorkExtends(run, l3.WithWorker(Idle));
    run := run + [l3.WithWorker(Idle)];
    assert l.past.log[3] == Finished(Prepare) && run[|run| - 1].past.log == l.past.log + [Began(Pending), SawNoClass];
  }

  /**
   A history in which deletion is requested after PREPARE succeeded and before the finalizer is there: the
   snapshot is gone at once, with the class not in play, no pod lost, and COMPLETE never created.
   */
  lemma PreparedDeleted() returns (run: seq<Lane>)
    ensures Run(run) && Stranded(run[|run| - 1])
    ensures var l := run[|run| - 1];
            l.snap.None? && l.pre.Some? && l.pre.value.failed == 0 && SawNoClass !in l.past.log
  {
    var spec := SnapshotSpec("db", None, 5);
    run := PreparedRun(spec, 0);
    var l := PreparedLane(spec, 0);
    assert DeleteRequested(l, l.(snap := None));
    Extended(run, l.(snap := None));
    run := run + [l.(snap := None)];
    assert l.past.log[3] == Finished(Prepare);
  }

  const LOSSY := SnapshotSpec("db", None, 1)

  /** A snapshot guarded and written Running by the reconcile that saw PREPARE succeed. */
  function RunningLane(phase: Phase, version: nat, writes: nat): Lane {
    PreparedLane(LOSSY, 1).(
    snap := Some(Waiting(LOSSY).(phase := phase, finalizers := {CompleteFinalizer}, version := version)),
    past := Past(true, Busy(Pending, LOSSY, Nothing, false),
                 PREPARING + [Finished(Prepare)] + [Began(Pending)], writes))
  }

  lemma LossyRun() returns (run: seq<Lane>)
    ensures Run(run) && |run| > 0 && run[|run| - 1] == RunningLane(Running, 3, 3)
  {
    run := PreparedRun(LOSSY, 1);
    var l := PreparedLane(LOSSY, 1);
    var l1 := l.WithWorker(Busy(Pending, LOSSY, Nothing, false)).Logged(Began(Pending));
    var l2 := RunningLane(Pending, 2, 2);
    WorkExtends(run, l1);
    run := run + [l1];
    assert {} + {CompleteFinalizer} == {CompleteFinalizer};
    assert WorkerAddsFinalizer(l1, l2);
    WorkExtends(run, l2);
    run := run + [l2];
    assert WorkerSetsPhase(l2, RunningLane(Running, 3, 3), Running);
    WorkExtends(run, RunningLane(Running, 3, 3));
    run := run + [RunningLane(Running, 3, 3)];
  }

  /**
   A history in which PREPARE succeeds after losing as many pods as the limit allows: one reconcile guards
   the snapshot, writes Running, and fails it.
   */
  lemma PreparedWithLosses() returns (run: seq<Lane>)
    ensures Run(run) && Stranded(run[|run| - 1])
    ensures var l := run[|run| - 1];
            l.snap.Some? && l.snap.value.phase == Failed && SawNoClass !in l.past.log && !l.snap.value.deleting
  {
    run := LossyRun();
    var l := RunningLane(Failed, 4, 4);
    assert WorkerSetsPhase(RunningLane(Running, 3, 3), l, Failed);
    WorkExtends(run, l);
    run := run + [l];
    WorkExtends(run, l.WithWorker(Idle));
    run := run + [l.WithWorker(Idle)];
    assert l.past.log[3] == Finished(Prepare);
  }

  /** A history in which the snapshot fails for a lost pod and its PREPARE job succeeds afterwards. */
  lemma PreparedTooLate() returns (run: seq<Lane>)
    ensures Run(run) && Stranded(run[|run| - 1])
    ensures forall k | 0 <= k < |run| :: !(Unfinished(run[k]) && Finished(Prepare) in run[k].past.log)
    ensures PreparedAfterEnd(run[|run| - 2], run[|run| - 1])
  {
    var spec := SnapshotSpec("db", None, 1);
    run := PreparingRun(spec, 1);
    var l := PreparingLane(spec, 1);
    var l1 := l.WithWorker(Busy(Pending, spec, Nothing, false)).Logged(Began(Pending));
    var l2 := l1.Wrote(Some(Waiting(spec).(phase := Failed, version := 2)));
    var l3 := l2.WithWorker(Idle);
    var l4 := l3.(pre := Some(PrepareJob(spec, 1, 1))).Logged(Finished(Prepare));
    WorkExtends(run, l1);
    run := run + [l1];
    assert WorkerSetsPhase(l1, l2, Failed);
    WorkExtends(run, l2);
    run := run + [l2];
    WorkExtends(run, l3);
    run := run + [l3];
    assert l3.past.log == PREPARING + [Began(Pending)];
    forall k | 0 <= k < |run| ensures Finished(Prepare) !in run[k].past.log {
      LogsGrow(run, k, |run| - 1);
    }
    assert JobFinishes(l3, l4, Prepare);
    Extended(run, l4);
    run := run + [l4];
    assert l4.past.log[4] == Finished(Prepare);
  }

  // ---------------------------------------------------------------- stuck in Pending

  /** With a limit that does not fit there is no PREPARE job, and nothing that needs one has happened. */
  predicate StuckIfHigh(l: Lane) {
    && (l.pre.Some? ==> 0 <= l.pre.value.backoffLimit)
    && (l.snap.Some? && l.snap.value.spec.limit > MAX_INT32 - 2 ==>
          && l.pre.None?
          && (l.snap.value.phase == Empty || l.snap.value.phase == Pending ||
              (l.snap.value.phase == Failed && (SawNoDatabase in l.past.log || SawNoClass in l.past.log))))
  }

  lemma EnvKeepsStuck(l: Lane, l': Lane)
    requires Shaped(l) && StuckIfHigh(l) && EnvStep(l, l')
    ensures StuckIfHigh(l')
  {
    EnvLogMonotone(l, l');
  }

  lemma PhaseKeepsStuck(l: Lane, l': Lane, to: Phase)
    requires Shaped(l) && Explained(l) && StuckIfHigh(l) && WorkerSetsPhase(l, l', to)
    ensures StuckIfHigh(l')
  {
  }

  lemma CreationKeepsStuck(l: Lane, l': Lane, stage: Stage)
    requires StuckIfHigh(l) && WorkerCreatesJob(l, l', stage)
    ensures StuckIfHigh(l')
  {
  }

  lemma WorkerKeepsStuck(l: Lane, l': Lane, f: Facts)
    requires Shaped(l) && Explained(l) && StuckIfHigh(l) && WorkerStep(l, l', f)
    ensures StuckIfHigh(l')
  {
    WorkerLogMonotone(l, l', f);
    if l'.snap.Some? && WorkerSetsPhase(l, l', l'.snap.value.phase) {
      PhaseKeepsStuck(l, l', l'.snap.value.phase);
    } else if stage: Stage :| WorkerCreatesJob(l, l', stage) {
      CreationKeepsStuck(l, l', stage);
    }
  }

  lemma StuckStep(l: Lane, l': Lane)
    requires Inv(l) && StuckIfHigh(l) && LaneNext(l, l')
    ensures StuckIfHigh(l')
  {
    if EnvStep(l, l') {
      EnvKeepsStuck(l, l');
    } else if l != l' {
      var f: Facts :| WorkerStep(l, l', f);
      WorkerKeepsStuck(l, l', f);
    }
  }

  /**
   For ever: in no history does a snapshot with a limit of 2147483646 or more get a PREPARE job, or beyond
   Pending, except by failing because the database or the class was seen missing.
   */
  lemma {:induction false} StuckForEver(run: seq<Lane>, i: nat)
    requires Run(run) && i < |run|
    ensures StuckIfHigh(run[i])
  {
    if i > 0 {
      StuckForEver(run, i - 1);
      InvHolds(run, i - 1);
      assert LaneNext(run[i - 1], run[i]);
      StuckStep(run[i - 1], run[i]);
    }
  }
}
