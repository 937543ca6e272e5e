/**
 What one undisturbed reconcile of a snapshot changes and what it leaves alone, phase by phase, with every
 constant written out; and that no reconcile creates a job after it has found something missing.
 */
module SnapshotLaws {
  import opened Base
  import opened Kinds
  import opened Lifecycle
  import opened Cluster
  import opened SnapshotController
  import opened Safety
  import Secrets

  // ---------------------------------------------------------------- names

  /** Where the objects of the snapshot `n` are kept. */
  lemma KeptUnder(st: Store, n: string)
    ensures LaneOf(st, n).pre == Look(st.jobs, n + "-pre-snapshot")
    ensures LaneOf(st, n).post == Look(st.jobs, n + "-post-snapshot")
    ensures LaneOf(st, n).vol == Look(st.vols, n)
  {
  }

  // ---------------------------------------------------------------- every phase

  /** The jobs and the VolumeSnapshot are as they were. */
  predicate NoneMade(l: Lane, l': Lane) {
    l'.pre == l.pre && l'.post == l.post && l'.vol == l.vol
  }

  /** The snapshot is still there, in the given phase and with the given finalizers. */
  predicate Now(l': Lane, phase: Phase, finalizers: set<Finalizer>) {
    l'.snap.Some? && l'.snap.value.phase == phase && l'.snap.value.finalizers == finalizers
  }

  /** The backoff limit in force: 5 if none was set. */
  function Limit(s: Snapshot): int32 {
    if s.spec.limit == 0 then 5 else s.spec.limit
  }

  /** Of the snapshot at most a missing limit, the phase, the finalizers and the version have changed. */
  predicate Identity(s: Snapshot, s': Snapshot) {
    s' == s.(spec := s.spec.(limit := Limit(s)), phase := s'.phase, finalizers := s'.finalizers, version := s'.version)
  }

  lemma PendingKeepsIdentity(n: string, l: Lane, f: Facts)
    requires l.snap.Some? && l.snap.value.spec.limit != 0
    ensures PassPending(n, l, f).snap.Some? && Identity(l.snap.value, PassPending(n, l, f).snap.value)
  {
  }

  lemma FinalizingKeepsIdentity(n: string, l: Lane, f: Facts)
    requires l.snap.Some? && l.snap.value.spec.limit != 0
    ensures PassFinalizing(n, l, f).snap.Some? && Identity(l.snap.value, PassFinalizing(n, l, f).snap.value)
  {
  }

  /** Whatever the phase, nothing of the spec changes but a missing limit, nor the mark, the owner or the age. */
  lemma IdentityKept(n: string, l: Lane, f: Facts)
    requires l.snap.Some? && Pass(n, l, f).snap.Some?
    ensures Identity(l.snap.value, Pass(n, l, f).snap.value)
  {
    match l.snap.value.phase
    case Pending => PendingKeepsIdentity(n, WithDefault(l), f);
    case Finalizing => FinalizingKeepsIdentity(n, WithDefault(l), f);
    case _ =>
  }

  /** A phase nobody knows is left alone. */
  lemma UnknownLeft(n: string, l: Lane, f: Facts)
    requires l.snap.Some? && l.snap.value.phase.Unknown?
    ensures NoneMade(l, Pass(n, l, f)) && Now(Pass(n, l, f), l.snap.value.phase, l.snap.value.finalizers)
  {
  }

  /** A new snapshot fails exactly if its database is seen missing; if that cannot be told, it goes on to Pending. */
  lemma EmptyDecides(n: string, l: Lane, f: Facts)
    requires l.snap.Some? && l.snap.value.phase == Empty
    ensures var (s, l') := (l.snap.value, Pass(n, l, f));
            && NoneMade(l, l')
            && Now(l', if f.reachable && s.spec.questdb !in f.databases then Failed else Pending, s.finalizers)
  {
  }

  // ---------------------------------------------------------------- Pending

  /** The class is not seen missing: none is named, or it is there. */
  predicate ClassThere(s: Snapshot, f: Facts) {
    s.spec.volumeClass.Some? ==> s.spec.volumeClass.value in f.classes
  }

  /** A missing class stops everything: the snapshot fails and nothing is created, whatever jobs there are. */
  lemma MissingClassStops(n: string, l: Lane, f: Facts)
    requires l.snap.Some? && l.snap.value.phase == Pending
    requires f.reachable && !ClassThere(l.snap.value, f)
    ensures NoneMade(l, Pass(n, l, f)) && Now(Pass(n, l, f), Failed, l.snap.value.finalizers)
  {
  }

  /** Out of reach, or with the secrets in disorder, a Pending or Finalizing snapshot waits. */
  lemma DisorderWaits(n: string, l: Lane, f: Facts)
    requires l.snap.Some? && (l.snap.value.phase == Pending || l.snap.value.phase == Finalizing)
    requires l.snap.value.phase == Pending ==> ClassThere(l.snap.value, f) || !f.reachable
    requires !f.reachable || Secrets.Select(f.secrets, n).Err?
    ensures NoneMade(l, Pass(n, l, f)) && Now(Pass(n, l, f), l.snap.value.phase, l.snap.value.finalizers)
  {
  }

  /** Nothing keeps the reconcile from the job it needs. */
  predicate Unhindered(n: string, s: Snapshot, f: Facts) {
    f.reachable && (s.phase == Pending ==> ClassThere(s, f)) && Secrets.Select(f.secrets, n).Ok?
  }

  /** A fresh job of the snapshot, with two attempts more than it allows. */
  predicate Fresh(job: Option<Job>, n: string, s: Snapshot, command: Statement) {
    && job.Some?
    && job.value.owner == n
    && job.value.command == command
    && job.value.host == s.spec.questdb
    && job.value.backoffLimit == Limit(s) + 2
    && job.value.succeeded == 0 && job.value.failed == 0
  }

  /** Without a PREPARE job a Pending snapshot gets one, if its limit fits, and nothing else. */
  lemma PendingPrepares(n: string, l: Lane, f: Facts)
    requires l.snap.Some? && l.snap.value.phase == Pending && l.pre.None? && Unhindered(n, l.snap.value, f)
    requires 0 < Limit(l.snap.value)
    ensures var (s, l') := (l.snap.value, Pass(n, l, f));
            && (if Limit(s) <= 0x7fff_ffff - 2 then Fresh(l'.pre, n, s, SnapshotPrepare) else l'.pre.None?)
            && l'.post == l.post && l'.vol == l.vol
            && Now(l', Pending, s.finalizers)
  {
  }

  /** PREPARE has succeeded, but deletion came before the finalizer. */
  predicate Forestalled(l: Lane)
    requires l.snap.Some? && l.pre.Some?
  {
    l.pre.value.succeeded == 1 && l.snap.value.deleting && CompleteFinalizer !in l.snap.value.finalizers
  }

  lemma PreparedDecides(l: Lane)
    requires l.snap.Some? && l.snap.value.phase == Pending && l.pre.Some?
    ensures var (s, l') := (l.snap.value, PreparedPass(l));
            && NoneMade(l, l')
            && Now(l',
                   if Forestalled(l) then Pending
                   else if l.pre.value.failed >= s.spec.limit then Failed
                   else if l.pre.value.succeeded != 1 then Pending
                   else if s.deleting then Finalizing else Running,
                   if l.pre.value.succeeded == 1 && !Forestalled(l) then s.finalizers + {CompleteFinalizer}
                   else s.finalizers)
  {
    var s := l.snap.value;
    if CompleteFinalizer in s.finalizers {
      assert s.finalizers + {CompleteFinalizer} == s.finalizers;
    }
  }

  lemma PendingIsPrepared(n: string, l: Lane, f: Facts)
    requires l.snap.Some? && l.snap.value.phase == Pending && l.pre.Some? && Unhindered(n, l.snap.value, f)
    ensures Pass(n, l, f) == PreparedPass(WithDefault(l))
  {
  }

  /**
   With its PREPARE job there, a Pending snapshot fails as soon as that has lost as many pods as the limit;
   short of that it runs when the job has succeeded, or is finalized if marked for deletion. A success adds
   the finalizer, unless deletion came first: then nothing happens.
   */
  lemma PendingDecides(n: string, l: Lane, f: Facts)
    requires l.snap.Some? && l.snap.value.phase == Pending && l.pre.Some? && Unhindered(n, l.snap.value, f)
    ensures var (s, l') := (l.snap.value, Pass(n, l, f));
            && NoneMade(l, l')
            && Now(l',
                   if Forestalled(l) then Pending
                   else if l.pre.value.failed >= Limit(s) then Failed
                   else if l.pre.value.succeeded != 1 then Pending
                   else if s.deleting then Finalizing else Running,
                   if l.pre.value.succeeded == 1 && !Forestalled(l) then s.finalizers + {CompleteFinalizer}
                   else s.finalizers)
  {
    PendingIsPrepared(n, l, f);
    PreparedDecides(WithDefault(l));
  }

  // ---------------------------------------------------------------- Running and after

  /** A Running snapshot, marked or not, gets its VolumeSnapshot, then waits for it, then is finalized. */
  lemma RunningDecides(n: string, l: Lane, f: Facts)
    requires l.snap.Some? && l.snap.value.phase == Running
    ensures var (s, l') := (l.snap.value, Pass(n, l, f));
            && l'.pre == l.pre && l'.post == l.post
            && (if l.vol.None?
                then l'.vol == Some(Volume(s.spec.questdb, s.spec.volumeClass, false))
                else l'.vol == l.vol)
            && Now(l', if l.vol.Some? && l.vol.value.ready then Finalizing else Running, s.finalizers)
  {
  }

  /** Without a COMPLETE job a Finalizing snapshot gets one, if its limit fits, and nothing else. */
  lemma FinalizingCompletes(n: string, l: Lane, f: Facts)
    requires l.snap.Some? && l.snap.value.phase == Finalizing && l.post.None? && Unhindered(n, l.snap.value, f)
    requires 0 < Limit(l.snap.value)
    ensures var (s, l') := (l.snap.value, Pass(n, l, f));
            && (if Limit(s) <= 0x7fff_ffff - 2 then Fresh(l'.post, n, s, SnapshotComplete) else l'.post.None?)
            && l'.pre == l.pre && l'.vol == l.vol
            && Now(l', Finalizing, s.finalizers)
  {
  }

  /** With it there, the snapshot succeeds if the job has, and else fails as soon as it has lost its pods. */
  lemma FinalizingDecides(n: string, l: Lane, f: Facts)
    requires l.snap.Some? && l.snap.value.phase == Finalizing && l.post.Some? && Unhindered(n, l.snap.value, f)
    ensures var (s, l') := (l.snap.value, Pass(n, l, f));
            && NoneMade(l, l')
            && Now(l',
                   if l.post.value.succeeded == 1 then Succeeded
                   else if l.post.value.failed >= Limit(s) then Failed
                   else Finalizing,
                   s.finalizers)
  {
  }

  /**
   A terminal snapshot loses the one finalizer that is the operator's; marked and left with none, it goes.
   If it succeeded its jobs go as well.
   */
  lemma TerminalDecides(n: string, l: Lane, f: Facts)
    requires l.snap.Some? && l.snap.value.phase.Complete()
    requires l.snap.value.deleting ==> l.snap.value.finalizers != {}
    ensures var (s, l') := (l.snap.value, Pass(n, l, f));
            var left := s.finalizers - {CompleteFinalizer};
            && (if s.deleting && left == {} then l'.snap.None? else Now(l', s.phase, left))
            && l'.vol == l.vol
            && (if s.phase == Failed then l'.pre == l.pre && l'.post == l.post else l'.pre.None? && l'.post.None?)
  {
    var s := l.snap.value;
    if CompleteFinalizer !in s.finalizers {
      assert s.finalizers - {CompleteFinalizer} == s.finalizers;
    }
  }

  // ---------------------------------------------------------------- nothing is created after a failed look

  predicate Miss(e: Event) {
    e == SawNoClass || e == SawNoDatabase
  }

  /** After event `i` and before event `j` another reconcile began. */
  predicate BeganBetween(log: seq<Event>, i: nat, j: nat)
    requires j <= |log|
  {
    exists k | i < k < j :: log[k].Began?
  }

  /** Whatever was created after something was found missing was created by a later reconcile. */
  predicate Candid(log: seq<Event>) {
    forall i, j | 0 <= i < j < |log| && Miss(log[i]) && log[j].Created? :: BeganBetween(log, i, j)
  }

  /** Since the last reconcile began nothing was found missing. */
  predicate Unmissed(log: seq<Event>) {
    forall i | 0 <= i < |log| && Miss(log[i]) :: BeganBetween(log, i, |log|)
  }

  predicate Frank(l: Lane) {
    Candid(l.past.log) && (l.past.worker.Busy? && l.past.worker.saw == Nothing ==> Unmissed(l.past.log))
  }

  lemma BetweenGrows(log: seq<Event>, e: Event, i: nat, j: nat)
    requires j <= |log| && BeganBetween(log, i, j)
    ensures BeganBetween(log + [e], i, j) && BeganBetween(log + [e], i, j + 1)
  {
    var k :| i < k < j && log[k].Began?;
    assert (log + [e])[k].Began?;
  }

  lemma CandidGrows(log: seq<Event>, e: Event)
    requires Candid(log) && (e.Created? ==> Unmissed(log))
    ensures Candid(log + [e])
  {
    var log' := log + [e];
    forall i, j | 0 <= i < j < |log'| && Miss(log'[i]) && log'[j].Created? ensures BeganBetween(log', i, j) {
      BetweenGrows(log, e, i, j);
    }
  }

  lemma UnmissedGrows(log: seq<Event>, e: Event)
    requires (Unmissed(log) && !Miss(e)) || e.Began?
    ensures Unmissed(log + [e])
  {
    var log' := log + [e];
    forall i | 0 <= i < |log'| && Miss(log'[i]) ensures BeganBetween(log', i, |log'|) {
      if e.Began? {
        assert log'[|log|].Began?;
      } else {
        BetweenGrows(log, e, i, |log|);
      }
    }
  }

  /** What a step logs and does to the worker, as far as it matters here. */
  predicate FrankStep(l: Lane, l': Lane) {
    var (log, log', w, w') := (l.past.log, l'.past.log, l.past.worker, l'.past.worker);
    var quiet := w'.Busy? && w'.saw == Nothing ==> w.Busy? && w.saw == Nothing;
    || (log' == log && quiet)
    || (|log'| == |log| + 1 && log <= log' &&
        var e := log'[|log|];
        && (e.Created? ==> w.Busy? && w.saw == Nothing)
        && (e.Began? || (Miss(e) && w'.Busy? && w'.saw != Nothing) || (!Miss(e) && quiet)))
  }

  lemma FrankStepKeeps(l: Lane, l': Lane)
    requires Frank(l) && FrankStep(l, l')
    ensures Frank(l')
  {
    var (log, log') := (l.past.log, l'.past.log);
    if log' != log {
      var e := log'[|log|];
      assert log' == log + [e];
      CandidGrows(log, e);
      if l'.past.worker.Busy? && l'.past.worker.saw == Nothing {
        UnmissedGrows(log, e);
      }
    }
  }

  lemma EnvIsFrank(l: Lane, l': Lane)
    requires EnvStep(l, l')
    ensures FrankStep(l, l') || (l == VOID && l'.past.log == [] && l'.past.worker.Idle?)
  {
  }

  lemma WritesAreFrank(l: Lane, l': Lane)
    requires WorkerWrites(l, l')
    ensures FrankStep(l, l')
  {
  }

  lemma OthersAreFrank(l: Lane, l': Lane, f: Facts)
    requires WorkerStep(l, l', f) && !WorkerWrites(l, l')
    ensures FrankStep(l, l')
  {
  }

  lemma NextIsFrank(l: Lane, l': Lane)
    requires Frank(l) && LaneNext(l, l')
    ensures Frank(l')
  {
    if EnvStep(l, l') {
      EnvIsFrank(l, l');
      if FrankStep(l, l') {
        FrankStepKeeps(l, l');
      }
    } else if l != l' {
      var f: Facts :| WorkerStep(l, l', f);
      if WorkerWrites(l, l') {
        WritesAreFrank(l, l');
      } else {
        OthersAreFrank(l, l', f);
      }
      FrankStepKeeps(l, l');
    }
  }

  lemma {:induction false} FrankHolds(run: seq<Lane>, i: nat)
    requires Run(run) && i < |run|
    ensures Frank(run[i])
  {
    if i > 0 {
      FrankHolds(run, i - 1);
      assert LaneNext(run[i - 1], run[i]);
      NextIsFrank(run[i - 1], run[i]);
    }
  }

  /** In no history does a reconcile that has found the class or the database missing create a job. */
  lemma MissCreatesNothing(run: seq<Lane>, i: nat)
    requires Run(run) && i < |run|
    ensures Candid(run[i].past.log)
  {
    FrankHolds(run, i);
  }
}
