/** What undisturbed reconciles achieve, and where they cannot help. */
module Progress {
  import opened Base
  import opened Kinds
  import opened Lifecycle
  import opened Safety
  import opened SnapshotController
  import Secrets
  import Admission

  /** The class, if one is named, exists, and the secrets under the snapshot's name are in order. */
  predicate Served(n: string, s: Snapshot, f: Facts) {
    && f.reachable
    && (s.spec.volumeClass.Some? ==> s.spec.volumeClass.value in f.classes)
    && Secrets.Select(f.secrets, n).Ok?
  }

  /** Kubernetes has stopped working on the job: it succeeded, or lost more pods than it may. */
  predicate JobOver(job: Job) {
    job.succeeded == 1 || job.failed > job.backoffLimit
  }

  /**
   A finished PREPARE job moves a Pending snapshot on, except in one case: the job succeeded but the
   snapshot is already being deleted without the finalizer.
   */
  lemma PendingMovesOn(n: string, l: Lane, f: Facts)
    requires l.snap.Some? && l.snap.value.phase == Pending && Served(n, l.snap.value, f)
    requires 0 < l.snap.value.spec.limit <= MAX_INT32 - 2
    requires l.pre.Some? && JobFits(l.pre.value, l.snap.value.spec) && JobOver(l.pre.value)
    ensures var l' := Pass(n, l, f);
            l'.snap.Some? &&
            (l'.snap.value.phase != Pending <==> !(JobDone(l.pre) && TooLateToGuard(l.snap.value)))
  {
  }

  /** A finished COMPLETE job always ends a Finalizing snapshot, in success exactly if the job succeeded. */
  lemma FinalizingEnds(n: string, l: Lane, f: Facts)
    requires l.snap.Some? && l.snap.value.phase == Finalizing
    requires f.reachable && Secrets.Select(f.secrets, n).Ok?
    requires 0 < l.snap.value.spec.limit <= MAX_INT32 - 2
    requires l.post.Some? && JobFits(l.post.value, l.snap.value.spec) && JobOver(l.post.value)
    ensures var l' := Pass(n, l, f);
            && l'.snap.Some?
            && l'.snap.value.phase.Complete()
            && (l'.snap.value.phase == Succeeded <==> JobDone(l.post))
  {
  }

  /** In every reachable state whatever a snapshot owns was built from the spec it now has. */
  predicate Built(l: Lane) {
    l.snap.Some? ==>
      && (l.pre.Some? ==> l.pre.value.command == SnapshotPrepare && JobFits(l.pre.value, l.snap.value.spec))
      && (l.post.Some? ==> l.post.value.command == SnapshotComplete && JobFits(l.post.value, l.snap.value.spec))
      && (l.vol.Some? ==> VolumeFits(l.vol.value, l.snap.value.spec))
      && (l.vol.Some? || l.post.Some? ==> l.snap.value.phase != Empty && l.snap.value.phase != Pending)
  }

  lemma EnvKeepsBuilt(l: Lane, l': Lane)
    requires Shaped(l) && Built(l) && EnvStep(l, l')
    ensures Built(l')
  {
    if l.past.born {
      EnvStepIsRely(l, l');
    }
  }

  lemma PhaseKeepsBuilt(l: Lane, l': Lane, to: Phase)
    requires Inv(l) && Built(l) && WorkerSetsPhase(l, l', to)
    ensures Built(l')
  {
  }

  lemma WriteKeepsBuilt(l: Lane, l': Lane)
    requires Inv(l) && Built(l)
    requires WorkerDefaultsLimit(l, l') || WorkerAddsFinalizer(l, l') || WorkerDropsFinalizer(l, l')
    ensures Built(l')
  {
  }

  lemma CreationKeepsBuilt(l: Lane, l': Lane)
    requires Inv(l) && Built(l)
    requires WorkerCreatesJob(l, l', Prepare) || WorkerCreatesJob(l, l', Finish) || WorkerCreatesVolume(l, l')
    ensures Built(l')
  {
  }

  lemma WorkerKeepsBuilt(l: Lane, l': Lane, f: Facts)
    requires Inv(l) && Built(l) && WorkerStep(l, l', f)
    ensures Built(l')
  {
    if l'.snap.Some? && WorkerSetsPhase(l, l', l'.snap.value.phase) {
      PhaseKeepsBuilt(l, l', l'.snap.value.phase);
    } else if WorkerDefaultsLimit(l, l') || WorkerAddsFinalizer(l, l') || WorkerDropsFinalizer(l, l') {
      WriteKeepsBuilt(l, l');
    } else if WorkerCreatesJob(l, l', Prepare) || WorkerCreatesJob(l, l', Finish) || WorkerCreatesVolume(l, l') {
      CreationKeepsBuilt(l, l');
    }
  }

  lemma {:induction false} BuiltHolds(run: seq<Lane>, i: nat)
    requires Run(run) && i < |run|
    ensures Built(run[i])
  {
    if i > 0 {
      BuiltHolds(run, i - 1);
      InvHolds(run, i - 1);
      var (l, l') := (run[i - 1], run[i]);
      assert LaneNext(l, l');
      if EnvStep(l, l') {
        EnvKeepsBuilt(l, l');
      } else if l != l' {
        var f: Facts :| WorkerStep(l, l', f);
        WorkerKeepsBuilt(l, l', f);
      }
    }
  }

  /**
   However the state was reached: a snapshot whose current job Kubernetes has stopped working on is moved
   to its next phase by one undisturbed reconcile, except exactly a Pending one too late to guard.
   */
  lemma FinishedJobsMoveOn(run: seq<Lane>, i: nat, n: string, f: Facts)
    requires Run(run) && i < |run| && run[i].snap.Some? && Served(n, run[i].snap.value, f)
    requires 0 < run[i].snap.value.spec.limit <= MAX_INT32 - 2
    ensures var (l, s) := (run[i], run[i].snap.value);
            && (s.phase == Pending && l.pre.Some? && JobOver(l.pre.value) ==>
                  && Pass(n, l, f).snap.Some?
                  && (Pass(n, l, f).snap.value.phase != Pending <==> !(JobDone(l.pre) && TooLateToGuard(s))))
            && (s.phase == Finalizing && l.post.Some? && JobOver(l.post.value) ==>
                  && Pass(n, l, f).snap.Some?
                  && Pass(n, l, f).snap.value.phase == (if JobDone(l.post) then Succeeded else Failed))
  {
    BuiltHolds(run, i);
    var (l, s) := (run[i], run[i].snap.value);
    if s.phase == Pending && l.pre.Some? && JobOver(l.pre.value) {
      PendingMovesOn(n, l, f);
    }
    if s.phase == Finalizing && l.post.Some? && JobOver(l.post.value) {
      FinalizingEnds(n, l, f);
    }
  }

  /**
   For a positive limit the job can be created exactly when `limit + 2` fits in 32 bits. Admission
   accepts the two limits for which it does not.
   */
  lemma BackoffFits(n: string, spec: SnapshotSpec, stage: Stage, chosen: Secrets.Chosen)
    requires 0 < spec.limit
    ensures 0 <= JobFor(n, spec, stage, chosen).backoffLimit <==> spec.limit <= MAX_INT32 - 2
  {
  }

  /** With a limit that does not fit, an undisturbed reconcile of a Pending snapshot changes nothing. */
  lemma StuckAboveRange(n: string, l: Lane, f: Facts)
    requires l.snap.Some? && l.snap.value.phase == Pending && Served(n, l.snap.value, f)
    requires l.snap.value.spec.limit > MAX_INT32 - 2 && l.pre.None?
    ensures Same(Pass(n, l, f), l)
  {
  }

  /**
   Once PREPARE has succeeded, an undisturbed Pending reconcile fails the snapshot without COMPLETE exactly
   when the volume class has gone, or the job had also lost as many pods as the limit allows and it was not
   too late to guard; then it stays in Pending. What others may do meanwhile is in Stranding.dfy.
   */
  lemma PreparedAbandoned(n: string, l: Lane, f: Facts)
    requires l.snap.Some? && l.snap.value.phase == Pending && l.snap.value.spec.limit != 0
    requires f.reachable && Secrets.Select(f.secrets, n).Ok?
    requires JobDone(l.pre) && l.post.None?
    ensures var (s, l') := (l.snap.value, Pass(n, l, f));
            var missing := s.spec.volumeClass.Some? && s.spec.volumeClass.value !in f.classes;
            && l'.snap.Some?
            && l'.post.None?
            && (l'.snap.value.phase == Failed <==>
                  missing || (l.pre.value.failed >= s.spec.limit && !TooLateToGuard(s)))
            && (l'.snap.value.phase == Pending <==> !missing && TooLateToGuard(s))
  {
  }

  /**
   No snapshot with an admitted spec fails unless its database or its class was seen missing or one of its
   jobs has lost a pod, whatever else went on.
   */
  lemma FailureNeedsLoss(run: seq<Lane>, i: nat, sent: seq<SnapshotSpec>)
    requires Run(run) && i < |run| && run[i].snap.Some? && run[i].snap.value.phase == Failed
    requires Admission.Stored(Admission.SnapshotHook(), sent) == Some(run[i].snap.value.spec)
    ensures
      || SawNoDatabase in run[i].past.log
      || SawNoClass in run[i].past.log
      || (run[i].pre.Some? && run[i].pre.value.failed > 0)
      || (run[i].post.Some? && run[i].post.value.failed > 0)
  {
    FailureExplained(run, i);
    Admission.SnapshotSpecSound(sent);
  }

  /** Terminal snapshots settle: a second reconcile finds nothing left to do. */
  lemma TerminalSettles(n: string, l: Lane, f: Facts)
    requires l.snap.Some? && l.snap.value.phase.Complete() && l.snap.value.spec.limit != 0
    ensures var l' := Pass(n, l, f);
            && Same(Pass(n, l', f), l')
            && l'.vol == l.vol
            && (l'.snap.Some? ==>
                  l'.snap.value.phase == l.snap.value.phase && CompleteFinalizer !in l'.snap.value.finalizers)
            && (l.snap.value.phase == Succeeded ==> l'.pre.None? && l'.post.None?)
  {
  }

  function JobSucceeds(l: Lane, stage: Stage): Lane
    requires l.Work(stage).Some?
  {
    l.WithWork(stage, Some(l.Work(stage).value.(succeeded := 1)))
  }

  /** From a fresh snapshot to a running one: three reconciles and one successful PREPARE. */
  lemma GoldenPathToRunning(n: string, l: Lane, f: Facts) returns (r: Lane)
    requires l.snap.Some? && l.snap.value.phase == Empty && !l.snap.value.deleting
    requires CompleteFinalizer !in l.snap.value.finalizers
    requires l.pre.None? && l.post.None? && l.vol.None?
    requires 0 < l.snap.value.spec.limit <= MAX_INT32 - 2
    requires l.snap.value.spec.questdb in f.databases && Served(n, l.snap.value, f)
    ensures var l2 := Pass(n, Pass(n, l, f), f);
            l2.pre.Some? && r == Pass(n, JobSucceeds(l2, Prepare), f)
    ensures r.snap.Some? && r.snap.value.phase == Running && !r.snap.value.deleting
    ensures r.snap.value.spec == l.snap.value.spec
    ensures r.snap.value.finalizers == l.snap.value.finalizers + {CompleteFinalizer}
    ensures r.vol.None? && r.post.None?
  {
    var l1 := Pass(n, l, f);
    var l2 := Pass(n, l1, f);
    r := Pass(n, JobSucceeds(l2, Prepare), f);
  }

  /** From a running snapshot to the end: five reconciles, the volume ready and COMPLETE successful. */
  lemma GoldenPathToEnd(n: string, l: Lane, f: Facts) returns (r: Lane)
    requires l.snap.Some? && l.snap.value.phase == Running && !l.snap.value.deleting
    requires CompleteFinalizer in l.snap.value.finalizers
    requires l.post.None? && l.vol.None?
    requires 0 < l.snap.value.spec.limit <= MAX_INT32 - 2
    requires f.reachable && Secrets.Select(f.secrets, n).Ok?
    ensures var l1 := Pass(n, l, f);
            && l1.vol == Some(VolumeFor(l.snap.value.spec))
            && var l2 := Pass(n, l1.(vol := Some(l1.vol.value.(ready := true))), f);
            && var l3 := Pass(n, l2, f);
            && l3.post.Some?
            && var l4 := Pass(n, JobSucceeds(l3, Finish), f);
            && r == Pass(n, l4, f)
    ensures r.snap.Some? && r.snap.value.phase == Succeeded
    ensures r.snap.value.finalizers == l.snap.value.finalizers - {CompleteFinalizer}
    ensures r.pre.None? && r.post.None? && r.vol == Some(VolumeFor(l.snap.value.spec).(ready := true))
    ensures Same(Pass(n, r, f), r)
  {
    var l1 := Pass(n, l, f);
    var l2 := Pass(n, l1.(vol := Some(l1.vol.value.(ready := true))), f);
    var l3 := Pass(n, l2, f);
    var l4 := Pass(n, JobSucceeds(l3, Finish), f);
    r := Pass(n, l4, f);
    TerminalSettles(n, l4, f);
  }

  // ---------------------------------------------------------------- credentials

  /**
   The jobs log in with the credentials of a psql secret annotated with the snapshot's own name, under
   keys other than those such a secret must have, and otherwise with the defaults.
   */
  lemma JobCredentials(n: string, spec: SnapshotSpec, stage: Stage, list: seq<Secret>)
    requires Secrets.Select(list, n).Ok?
    ensures var job := JobFor(n, spec, stage, Secrets.Select(list, n).chosen);
            && (forall s | s in list && Secrets.Match(s, n, Secrets.PSQL) && "QDB_PSQL_USER" in s.data ::
                  job.user == s.data["QDB_PSQL_USER"])
            && ((forall s | s in list && Secrets.Match(s, n, Secrets.PSQL) :: "QDB_PSQL_USER" !in s.data) ==>
                  job.user == "admin")
            && (forall s | s in list && Secrets.Match(s, n, Secrets.PSQL) && "QDB_PSQL_PASSWORD" in s.data ::
                  job.password == s.data["QDB_PSQL_PASSWORD"])
            && ((forall s | s in list && Secrets.Match(s, n, Secrets.PSQL) :: "QDB_PSQL_PASSWORD" !in s.data) ==>
                  job.password == "quest")
  {
    Secrets.SelectExact(list, n);
    var chosen := Secrets.Select(list, n).chosen;
    if chosen.psql.Some? {
      assert chosen.psql == Some(chosen.psql.value);
    }
  }
}
