/**
 The API server as the operator's client sees it: every call may be lost, may take effect unheard, or
 may find that somebody else moved first. The ghost history `h` records every store there has been.
 */
module Api {
  import opened Base
  import opened Kinds
  import opened Crontab
  import opened Lifecycle
  import opened Planning
  import opened Cluster
  import opened Retention
  import opened Admission

  /** What a write to the status subresource does: only the phase changes. */
  function StatusWritten(l: Lane, s: Snapshot): Lane
    requires l.snap.Some?
  {
    l.Wrote(Some(l.snap.value.(phase := s.phase, version := l.snap.value.version + 1)))
  }

  function WrittenObject(l: Lane, s: Snapshot): Snapshot
    requires l.snap.Some?
  {
    l.snap.value.(spec := s.spec, finalizers := s.finalizers, version := l.snap.value.version + 1)
  }

  /** What a write to the object does: spec and finalizers change, the status does not. */
  function ObjectWritten(l: Lane, s: Snapshot): Lane
    requires l.snap.Some?
  {
    l.Wrote(Reap(WrittenObject(l, s)))
  }

  /** Optimistic concurrency: a write is taken only from a copy of the stored version. */
  predicate Current(l: Lane, s: Snapshot) {
    l.snap.Some? && l.snap.value.version == s.version
  }

  /** An object marked for deletion takes no new finalizers. */
  predicate Barred(l: Lane, s: Snapshot)
    requires l.snap.Some?
  {
    l.snap.value.deleting && !(s.finalizers <= l.snap.value.finalizers)
  }

  predicate ObjectEdge(l: Lane, l': Lane) {
    WorkerDefaultsLimit(l, l') || WorkerAddsFinalizer(l, l') || WorkerDropsFinalizer(l, l')
  }

  /** Nothing but the lane of `n` differs. */
  ghost predicate OnlyLane(st: Store, v: string -> Lane, st': Store, v': string -> Lane, n: string) {
    && (forall m :: m != n ==> v'(m) == v(m))
    && st'.scheds == st.scheds && st'.annals == st.annals
    && st'.facts == st.facts && st'.clock == st.clock
  }

  /** Nothing but the plan of `s` differs. */
  ghost predicate OnlyPlan(st: Store, v: string -> Lane, st': Store, v': string -> Lane, s: string) {
    && v' == v && st'.snaps == st.snaps && st'.past == st.past
    && (forall t :: t != s ==> PlanOf(st', t) == PlanOf(st, t))
    && st'.facts == st.facts && st'.clock == st.clock
  }

  /** A schedule write is taken only from a copy of the stored version. */
  predicate PlanCurrent(p: Plan, s: Schedule) {
    p.sched.Some? && p.sched.value.version == s.version
  }

  /** What is stored of a copy: a new version, and times to the second. */
  function Sent(s: Schedule): Schedule {
    s.(last := if s.last.Some? then Some(Trunc(s.last.value)) else None, version := s.version + 1)
  }

  /** A snapshot marked for deletion, unless it is already. */
  function Condemned(l: Lane): Lane {
    if l.snap.Some? && !l.snap.value.deleting then Pruned(l) else l
  }

  /** `st'` is `st` with the answer to the current activation of `s` made under the name `n`. */
  ghost predicate Born(st: Store, st': Store, s: string, n: string, spec: SnapshotSpec) {
    && LaneOf(st, n) == VOID
    && AnnalsOf(st, s).clerk.Firing?
    && n in st'.snaps
    && var snap := st'.snaps[n];
    && snap == Snapshot(spec, Empty, {}, false, Some(s), snap.stamp, 0)
    && st' == Hatched(st, s, n, snap)
  }

  method ItemsOf(snaps: map<string, Snapshot>) returns (items: seq<Item>)
    ensures Lists(items, snaps)
  {
    items := [];
    var left := snaps.Keys;
    while left != {}
      invariant left <= snaps.Keys
      invariant Lists(items, snaps - left)
      decreases left
    {
      var n :| n in left;
      ghost var before, listed := items, snaps - left;
      left := left - {n};
      items := items + [Item(n, snaps[n])];
      forall k | k in snaps - left ensures Item(k, snaps[k]) in items {
        if k != n {
          assert k in listed && Item(k, listed[k]) in before;
        }
      }
    }
    assert snaps - left == snaps;
  }

  method NewestOf(st: Store, s: string) returns (seen: Option<Phase>)
    ensures NewestIs(st, s, seen)
  {
    seen := None;
    var newest: Option<string> := None;
    var left := st.snaps.Keys;
    while left != {}
      invariant left <= st.snaps.Keys
      invariant newest.None? ==> seen.None? && forall m | m in st.snaps && m !in left :: !ChildOf(st, m, s)
      invariant newest.Some? ==>
                  && ChildOf(st, newest.value, s)
                  && seen == Some(st.snaps[newest.value].phase)
                  && forall m | m in st.snaps && m !in left && ChildOf(st, m, s) ::
                       st.snaps[m].stamp <= st.snaps[newest.value].stamp
      decreases left
    {
      var n :| n in left;
      left := left - {n};
      if ChildOf(st, n, s) && (newest.None? || st.snaps[newest.value].stamp < st.snaps[n].stamp) {
        newest, seen := Some(n), Some(st.snaps[n].phase);
      }
    }
  }

  class ApiServer {
    const cal: Calendar
    /**
     With `calm` set, nobody else moves, and no call fails but a lookup of databases, classes or secrets while
     these are out of reach.
     */
    const calm: bool
    var st: Store
    ghost var h: seq<Store>
    /** The lanes of the current store. */
    ghost var view: string -> Lane

    ghost predicate Valid()
      reads this
    {
      && History(cal, h)
      && h[|h| - 1] == st
      && forall n {:trigger LaneOf(st, n)} :: view(n) == LaneOf(st, n)
    }

    constructor (cal: Calendar, calm: bool)
      ensures Valid() && st == EMPTY_STORE
      ensures this.cal == cal && this.calm == calm
    {
      this.cal, this.calm := cal, calm;
      st := EMPTY_STORE;
      h := [EMPTY_STORE];
      view := n => VOID;
    }

    method Make(m: Move)
      requires Valid() && Legal(cal, st, m)
      modifies this
      ensures Valid() && old(h) <= h
      ensures st == Apply(cal, old(st), m)
    {
      HistoryGrows(cal, h, m);
      st := Apply(cal, st, m);
      h := h + [st];
      ghost var now := st;
      view := n => LaneOf(now, n);
    }

    method MakeLane(n: string, l: Lane)
      requires Valid() && Legal(cal, st, LaneTo(n, l))
      modifies this
      ensures Valid() && old(h) <= h
      ensures view(n) == l && OnlyLane(old(st), old(view), st, view, n)
    {
      ghost var before, v := st, view;
      Make(LaneTo(n, l));
      forall m ensures view(m) == if m == n then l else v(m) {
        PutLaneFrame(before, n, l, m);
        assert v(m) == LaneOf(before, m) && view(m) == LaneOf(st, m);
      }
    }

    lemma MindedMove(m: Move, n: string)
      requires Valid()
      requires Legal(cal, st, m) && Foreign(st, m, SnapshotWorker(n))
      ensures view(n).past.born ==> Rely(view(n), LaneOf(Apply(cal, st, m), n))
      ensures LaneOf(Apply(cal, st, m), n).past.worker == view(n).past.worker
    {
      assert view(n) == LaneOf(st, n);
      ForeignKeepsWorker(cal, st, m, n);
      if view(n).past.born {
        ForeignIsRely(cal, st, m, n);
      }
    }

    lemma PlannedMove(from: Store, m: Move, s: string)
      requires Legal(cal, st, m) && Foreign(st, m, ScheduleWorker(s))
      ensures AnnalsOf(from, s).born && PlanRely(from, st, s) ==> PlanRely(from, Apply(cal, st, m), s)
      ensures AnnalsOf(Apply(cal, st, m), s).clerk == AnnalsOf(st, s).clerk
      ensures AnnalsOf(Apply(cal, st, m), s).fires == AnnalsOf(st, s).fires
    {
      ForeignKeepsPlan(cal, st, m, s);
      if AnnalsOf(from, s).born && PlanRely(from, st, s) {
        ForeignIsPlanRely(cal, st, m, s);
        PlanRelyTransitive(from, st, Apply(cal, st, m), s);
      }
    }

    /** Any number of moves by anybody but `me`. */
    method Environment(me: Actor)
      requires Valid()
      modifies this
      ensures Valid() && old(h) <= h
      ensures calm ==> st == old(st) && view == old(view)
      ensures me.SnapshotWorker? && old(view)(me.name).past.born ==>
                Rely(old(view)(me.name), view(me.name))
      ensures me.SnapshotWorker? ==> view(me.name).past.worker == old(view)(me.name).past.worker
      ensures me.ScheduleWorker? && AnnalsOf(old(st), me.sched).born ==> PlanRely(old(st), st, me.sched)
      ensures me.ScheduleWorker? ==>
                && AnnalsOf(st, me.sched).clerk == AnnalsOf(old(st), me.sched).clerk
                && AnnalsOf(st, me.sched).fires == AnnalsOf(old(st), me.sched).fires
    {
      var turns: nat := *;
      if calm {
        turns := 0;
      }
      ghost var minding := me.SnapshotWorker? && view(me.name).past.born;
      ghost var planning := me.ScheduleWorker? && AnnalsOf(st, me.sched).born;
      while turns > 0
        invariant Valid() && old(h) <= h
        invariant calm ==> st == old(st)
        invariant calm ==> view == old(view)
        invariant minding ==> Rely(old(view)(me.name), view(me.name))
        invariant me.SnapshotWorker? ==> view(me.name).past.worker == old(view)(me.name).past.worker
        invariant planning ==> PlanRely(old(st), st, me.sched)
        invariant me.ScheduleWorker? ==>
                    && AnnalsOf(st, me.sched).clerk == AnnalsOf(old(st), me.sched).clerk
                    && AnnalsOf(st, me.sched).fires == AnnalsOf(old(st), me.sched).fires
      {
        var m: Move := *;
        ghost var was := view(if minding then me.name else "");
        if !calm && Legal(cal, st, m) && Foreign(st, m, me) {
          if me.SnapshotWorker? {
            MindedMove(m, me.name);
          } else {
            PlannedMove(old(st), m, me.sched);
          }
          Make(m);
          assert me.SnapshotWorker? ==> view(me.name) == LaneOf(st, me.name);
          if minding {
            RelyTransitive(old(view)(me.name), was, view(me.name));
          }
        }
        turns := turns - 1;
      }
    }

    // -------------------------------------------------------------- snapshots

    /** A fresh read; it opens a reconcile. */
    method GetSnapshot(n: string, snap: QuestDBSnapshot) returns (r: Reply)
      requires Valid() && view(n).past.worker.Idle?
      modifies this, snap
      ensures Valid() && old(h) <= h && OnlyLane(old(st), old(view), st, view, n)
      ensures r == Done ==>
                && WorkerBegins(old(view)(n), view(n))
                && view(n).snap == Some(snap.Value())
      ensures r != Done ==> st == old(st) && view == old(view)
      ensures calm ==> (r == Done <==> old(view)(n).snap.Some?)
      ensures calm && r != Done ==> r == NotFound
    {
      var fault := Risk(calm);
      var l := LaneOf(st, n);
      if l.snap.None? {
        return NotFound;
      }
      if fault != NoFault {
        return Unavailable;
      }
      snap.Fill(l.snap.value);
      var s := l.snap.value;
      MakeLane(n, l.WithWorker(Busy(s.phase, s.spec, Nothing, false)).Logged(Began(s.phase)));
      r := Done;
    }

    /** The reconcile is over. */
    method Rest(n: string)
      requires Valid() && view(n).past.worker.Busy?
      modifies this
      ensures Valid() && old(h) <= h && OnlyLane(old(st), old(view), st, view, n)
      ensures view(n) == old(view)(n).WithWorker(Idle)
    {
      MakeLane(n, LaneOf(st, n).WithWorker(Idle));
    }

    method StatusUpdate(n: string, snap: QuestDBSnapshot) returns (r: Reply)
      requires Valid() && view(n).past.worker.Busy?
      requires Current(view(n), snap.Value()) ==> PhaseEdge(view(n), snap.phase)
      modifies this, snap
      ensures Valid() && old(h) <= h && OnlyLane(old(st), old(view), st, view, n)
      ensures var (l, l') := (old(view)(n), view(n));
              && (r == Done ==>
                    && Current(l, old(snap.Value()))
                    && l' == StatusWritten(l, old(snap.Value()))
                    && l'.snap == Some(snap.Value()))
              && (l' != l ==> Current(l, old(snap.Value())) && l' == StatusWritten(l, old(snap.Value())))
              && (calm && Current(l, old(snap.Value())) ==> r == Done)
    {
      var fault := Risk(calm);
      var l := LaneOf(st, n);
      if l.snap.None? {
        return NotFound;
      }
      if snap.version != l.snap.value.version {
        return Conflict;
      }
      if fault == Lost {
        return Unavailable;
      }
      var l' := StatusWritten(l, snap.Value());
      MakeLane(n, l');
      if fault == Unheard {
        return Unavailable;
      }
      snap.Fill(l'.snap.value);
      r := Done;
    }

    /** Sends spec and finalizers; no admission webhook stands in between. */
    method Update(n: string, snap: QuestDBSnapshot) returns (r: Reply)
      requires Valid() && view(n).past.worker.Busy?
      requires Current(view(n), snap.Value()) && !Barred(view(n), snap.Value()) ==>
                 ObjectEdge(view(n), ObjectWritten(view(n), snap.Value()))
      modifies this, snap
      ensures Valid() && old(h) <= h && OnlyLane(old(st), old(view), st, view, n)
      ensures var (l, l', s) := (old(view)(n), view(n), old(snap.Value()));
              && (r == Done ==>
                    && Current(l, s) && !Barred(l, s)
                    && l' == ObjectWritten(l, s)
                    && snap.Value() == WrittenObject(l, s))
              && (l' != l ==> Current(l, s) && !Barred(l, s) && l' == ObjectWritten(l, s))
              && (calm && Current(l, s) ==> (r == Done <==> !Barred(l, s)) && (r != Done ==> l' == l))
    {
      var fault := Risk(calm);
      var l := LaneOf(st, n);
      if l.snap.None? {
        return NotFound;
      }
      if snap.version != l.snap.value.version {
        return Conflict;
      }
      if Barred(l, snap.Value()) {
        return Forbidden;
      }
      if fault == Lost {
        return Unavailable;
      }
      MakeLane(n, ObjectWritten(l, snap.Value()));
      if fault == Unheard {
        return Unavailable;
      }
      snap.Fill(WrittenObject(l, snap.Value()));
      r := Done;
    }

    // -------------------------------------------------------------- jobs and volumes

    method CreateJob(n: string, stage: Stage, job: Job) returns (r: Reply)
      requires Valid() && view(n).past.worker.Busy?
      requires job.command == Command(stage) && job.succeeded == 0 && job.failed == 0
      requires view(n).snap.Some? ==> JobFits(job, view(n).snap.value.spec)
      requires view(n).past.worker.start == HomePhase(stage) && view(n).past.worker.Clear()
      requires view(n).snap.Some? ==> view(n).snap.value.phase == HomePhase(stage)
      modifies this
      ensures Valid() && old(h) <= h && OnlyLane(old(st), old(view), st, view, n)
      ensures var (l, l') := (old(view)(n), view(n));
              && (r == Done ==>
                    l.Work(stage).None? && l' == l.WithJob(stage, Some(job)))
              && (l' != l ==>
                    l.Work(stage).None? && l' == l.WithJob(stage, Some(job)))
              && (r == AlreadyExists ==> l' == l && l.Work(stage).Some?)
              && (calm ==>
                    && (r == AlreadyExists <==> l.Work(stage).Some?)
                    && (r == Done <==> l.Work(stage).None? && 0 <= job.backoffLimit)
                    && (r != Done ==> l' == l))
    {
      var fault := Risk(calm);
      var l := LaneOf(st, n);
      if JobName(n, stage) in st.jobs {
        return if fault == NoFault then AlreadyExists else Unavailable;
      }
      if job.backoffLimit < 0 {
        return Invalid;
      }
      if fault == Lost {
        return Unavailable;
      }
      var l' := l.WithJob(stage, Some(job));
      assert WorkerCreatesJob(l, l', stage);
      MakeLane(n, l');
      r := if fault == Unheard then Unavailable else Done;
    }

    method GetJob(n: string, stage: Stage) returns (r: Reply, job: Option<Job>)
      requires Valid()
      ensures r == Done ==> job.Some? && job == view(n).Work(stage)
      ensures r == NotFound ==> view(n).Work(stage).None?
      ensures calm ==> (r == Done <==> view(n).Work(stage).Some?) && (r == Done || r == NotFound)
    {
      var fault := Risk(calm);
      if fault != NoFault {
        return Unavailable, None;
      }
      assert view(n) == LaneOf(st, n);
      job := Look(st.jobs, JobName(n, stage));
      r := if job.Some? then Done else NotFound;
    }

    method DeleteJob(n: string, stage: Stage) returns (r: Reply)
      requires Valid() && view(n).past.worker.Busy? && view(n).past.worker.start == Succeeded
      modifies this
      ensures Valid() && old(h) <= h && OnlyLane(old(st), old(view), st, view, n)
      ensures var (l, l') := (old(view)(n), view(n));
              && (r == Done ==> l.Work(stage).Some? && l' == l.WithWork(stage, None))
              && (l' != l ==> l.Work(stage).Some? && l' == l.WithWork(stage, None))
              && (calm && l.Work(stage).Some? ==> r == Done)
    {
      var fault := Risk(calm);
      var l := LaneOf(st, n);
      if JobName(n, stage) !in st.jobs {
        return if fault == NoFault then NotFound else Unavailable;
      }
      if fault == Lost {
        return Unavailable;
      }
      assert WorkerDeletesJob(l, l.WithWork(stage, None), stage);
      MakeLane(n, l.WithWork(stage, None));
      r := if fault == Unheard then Unavailable else Done;
    }

    method CreateVolume(n: string, vol: Volume) returns (r: Reply)
      requires Valid() && view(n).past.worker.Busy? && view(n).past.worker.start == Running
      requires view(n).snap.Some? ==> view(n).snap.value.phase == Running
      requires !vol.ready && (view(n).snap.Some? ==> VolumeFits(vol, view(n).snap.value.spec))
      modifies this
      ensures Valid() && old(h) <= h && OnlyLane(old(st), old(view), st, view, n)
      ensures var (l, l') := (old(view)(n), view(n));
              && (r == Done ==> l.vol.None? && l' == l.(vol := Some(vol)).Logged(VolumeCreated))
              && (l' != l ==> l.vol.None? && l' == l.(vol := Some(vol)).Logged(VolumeCreated))
              && (r == AlreadyExists ==> l' == l && l.vol.Some?)
              && (calm ==> (r == AlreadyExists <==> l.vol.Some?) && (r == Done <==> l.vol.None?))
    {
      var fault := Risk(calm);
      var l := LaneOf(st, n);
      if n in st.vols {
        return if fault == NoFault then AlreadyExists else Unavailable;
      }
      if fault == Lost {
        return Unavailable;
      }
      MakeLane(n, l.(vol := Some(vol)).Logged(VolumeCreated));
      r := if fault == Unheard then Unavailable else Done;
    }

    method GetVolume(n: string) returns (r: Reply, vol: Option<Volume>)
      requires Valid()
      ensures r == Done ==> vol.Some? && vol == view(n).vol
      ensures calm ==> (r == Done <==> view(n).vol.Some?)
    {
      var fault := Risk(calm);
      if fault != NoFault {
        return Unavailable, None;
      }
      assert view(n) == LaneOf(st, n);
      vol := Look(st.vols, n);
      r := if vol.Some? then Done else NotFound;
    }

    // -------------------------------------------------------------- surroundings

    /** Looks for the database the snapshot names; its absence is remembered in the history. */
    method GetDatabase(n: string, database: string) returns (r: Reply)
      requires Valid() && view(n).past.worker.Busy? && view(n).past.worker.start == Empty
      requires view(n).past.worker.spec.questdb == database
      modifies this
      ensures Valid() && old(h) <= h && OnlyLane(old(st), old(view), st, view, n)
      ensures r == NotFound ==>
                && st.facts.reachable && database !in st.facts.databases
                && var l := old(view)(n);
                view(n) == l.WithWorker(l.past.worker.(saw := NoDatabase)).Logged(SawNoDatabase)
      ensures r != NotFound ==> st == old(st) && view == old(view)
      ensures calm ==>
                r == if !st.facts.reachable then Unavailable
                     else if database in st.facts.databases then Done else NotFound
    {
      var fault := Risk(calm);
      if fault != NoFault || !st.facts.reachable {
        return Unavailable;
      }
      if database in st.facts.databases {
        return Done;
      }
      var l := LaneOf(st, n);
      MakeLane(n, l.WithWorker(l.past.worker.(saw := NoDatabase)).Logged(SawNoDatabase));
      r := NotFound;
    }

    method GetClass(n: string, volumeClass: string) returns (r: Reply)
      requires Valid() && view(n).past.worker.Busy? && view(n).past.worker.start == Pending
      requires view(n).past.worker.spec.volumeClass == Some(volumeClass)
      modifies this
      ensures Valid() && old(h) <= h && OnlyLane(old(st), old(view), st, view, n)
      ensures r == NotFound ==>
                && st.facts.reachable && volumeClass !in st.facts.classes
                && view(n) == old(view)(n).WithWorker(old(view)(n).past.worker.(saw := NoClass)).Logged(SawNoClass)
      ensures r != NotFound ==> st == old(st) && view == old(view)
      ensures calm ==>
                r == if !st.facts.reachable then Unavailable
                     else if volumeClass in st.facts.classes then Done else NotFound
    {
      var fault := Risk(calm);
      if fault != NoFault || !st.facts.reachable {
        return Unavailable;
      }
      if volumeClass in st.facts.classes {
        return Done;
      }
      var l := LaneOf(st, n);
      MakeLane(n, l.WithWorker(l.past.worker.(saw := NoClass)).Logged(SawNoClass));
      r := NotFound;
    }

    method ListSecrets() returns (r: Reply, list: seq<Secret>)
      ensures r == Done ==> list == st.facts.secrets
      ensures calm ==> r == if st.facts.reachable then Done else Unavailable
    {
      var fault := Risk(calm);
      list := st.facts.secrets;
      r := if fault == NoFault && st.facts.reachable then Done else Unavailable;
    }

    // -------------------------------------------------------------- schedules

    method MakePlan(s: string, p: Plan)
      requires Valid() && Legal(cal, st, PlanTo(s, p))
      modifies this
      ensures Valid() && old(h) <= h
      ensures PlanOf(st, s) == p && OnlyPlan(old(st), old(view), st, view, s)
    {
      ghost var before, v := st, view;
      Make(PlanTo(s, p));
      view := v;
      forall n ensures LaneOf(st, n) == LaneOf(before, n) {
      }
      assert forall n {:trigger LaneOf(st, n)} :: view(n) == LaneOf(st, n) by {
        forall n ensures view(n) == LaneOf(st, n) {
          assert v(n) == LaneOf(before, n);
        }
      }
    }

    /** A fresh read; it opens a reconcile. */
    method GetSchedule(s: string, sched: QuestDBSnapshotSchedule) returns (r: Reply)
      requires Valid() && AnnalsOf(st, s).clerk.Resting?
      modifies this, sched
      ensures Valid() && old(h) <= h && OnlyPlan(old(st), old(view), st, view, s)
      ensures r == Done ==>
                && PlanBegins(PlanOf(old(st), s), PlanOf(st, s))
                && PlanOf(st, s).sched == Some(sched.Value())
      ensures r != Done ==> st == old(st)
      ensures calm ==> r == if s in old(st).scheds then Done else NotFound
    {
      var fault := Risk(calm);
      if s !in st.scheds {
        return NotFound;
      }
      if fault != NoFault {
        return Unavailable;
      }
      sched.Fill(st.scheds[s]);
      var p := PlanOf(st, s);
      MakePlan(s, p.(annals := p.annals.(clerk := Reading, keep := sched.spec.retention)));
      r := Done;
    }

    /** The reconcile is over. */
    method RestSchedule(s: string)
      requires Valid() && !AnnalsOf(st, s).clerk.Resting?
      modifies this
      ensures Valid() && old(h) <= h && OnlyPlan(old(st), old(view), st, view, s)
      ensures PlanOf(st, s) == PlanOf(old(st), s).WithClerk(Resting)
    {
      MakePlan(s, PlanOf(st, s).WithClerk(Resting));
    }

    /** Takes a write of the copy's fields; `p'` is the plan it makes, history included. */
    method WriteSchedule(s: string, sched: QuestDBSnapshotSchedule, p': Plan) returns (r: Reply)
      requires Valid() && p'.sched == Some(Sent(sched.Value()))
      requires PlanCurrent(PlanOf(st, s), sched.Value()) ==> PlanWork(cal, st, s, p')
      modifies this, sched
      ensures Valid() && old(h) <= h && OnlyPlan(old(st), old(view), st, view, s)
      ensures r == Done ==>
                && PlanCurrent(PlanOf(old(st), s), old(sched.Value()))
                && PlanOf(st, s) == p'
                && p'.sched == Some(sched.Value())
      ensures PlanOf(st, s) == p' || PlanOf(st, s) == PlanOf(old(st), s)
      ensures calm && PlanCurrent(PlanOf(old(st), s), old(sched.Value())) ==> r == Done
    {
      var fault := Risk(calm);
      if s !in st.scheds {
        return NotFound;
      }
      if sched.version != st.scheds[s].version {
        return Conflict;
      }
      if fault == Lost {
        return Unavailable;
      }
      MakePlan(s, p');
      if fault == Unheard {
        return Unavailable;
      }
      sched.Fill(p'.sched.value);
      r := Done;
    }

    /** Every snapshot in the namespace; the history notes the phase of the newest child of `s`. */
    method ListSnapshots(s: string) returns (r: Reply, items: seq<Item>, ghost seen: Option<Phase>)
      requires Valid() && AnnalsOf(st, s).clerk.Reading?
      modifies this
      ensures Valid() && old(h) <= h && OnlyPlan(old(st), old(view), st, view, s)
      ensures r == Done ==>
                && Lists(items, st.snaps)
                && NewestIs(st, s, seen)
                && PlanOf(st, s) == PlanOf(old(st), s).(
                     annals := AnnalsOf(old(st), s).(clerk := Watching(seen), listing := items))
      ensures r != Done ==> st == old(st)
      ensures calm ==> r == Done
    {
      var fault := Risk(calm);
      items, seen := [], None;
      if fault != NoFault {
        return Unavailable, items, seen;
      }
      items := ItemsOf(st.snaps);
      var newest := NewestOf(st, s);
      seen := newest;
      var p := PlanOf(st, s);
      var p' := p.(annals := p.annals.(clerk := Watching(newest), listing := items));
      assert PlanLists(st, s, p');
      MakePlan(s, p');
      r := Done;
    }

    method Now() returns (t: int)
      ensures t == st.clock
    {
      t := st.clock;
    }

    lemma BirthFrame(s: string, n: string, snap: Snapshot)
      requires Valid() && HatchLegal(cal, st, s, n, snap)
      ensures var st' := Apply(cal, st, Hatch(s, n, snap));
              && (forall m :: m != n ==> LaneOf(st', m) == view(m))
              && LaneOf(st', n) == Lane(Some(snap), None, None, None, UNBORN.(born := true))
    {
      var newborn := Lane(Some(snap), None, None, None, UNBORN.(born := true));
      forall m ensures LaneOf(Apply(cal, st, Hatch(s, n, snap)), m) == if m == n then newborn else view(m) {
        PutLaneFrame(st, n, newborn, m);
        assert view(m) == LaneOf(st, m);
      }
    }

    /** Creates a snapshot for the activation being answered; the server picks its creation time. */
    method CreateSnapshot(s: string, n: string, spec: SnapshotSpec) returns (r: Reply)
      requires Valid() && AnnalsOf(st, s).born
      requires LaneOf(st, n) == VOID ==>
                 && AnnalsOf(st, s).clerk.Firing?
                 && n == ChildName(cal, s, AnnalsOf(st, s).clerk.fire.at)
                 && (AnnalsOf(st, s).clerk.seen == Some(Empty) || NewestQuiet(st, s))
      modifies this
      ensures Valid() && old(h) <= h
      ensures forall m :: m != n ==> view(m) == old(view)(m)
      ensures forall t :: t != s ==> PlanOf(st, t) == PlanOf(old(st), t)
      ensures st.facts == old(st).facts && st.clock == old(st).clock
      ensures r == Done ==> Born(old(st), st, s, n, spec)
      ensures r == AlreadyExists ==> n in st.snaps
      ensures st == old(st) || Born(old(st), st, s, n, spec)
      ensures calm ==>
                && (r == Done <==> LaneOf(old(st), n) == VOID)
                && (r != Done ==> st == old(st) && view == old(view) && r != Conflict)
    {
      var fault := Risk(calm);
      var rejection := *;
      if calm || rejection != Conflict {
        rejection := Unavailable;
      }
      if n in st.snaps {
        return if fault == NoFault then AlreadyExists else rejection;
      }
      if LaneOf(st, n) != VOID {
        return Unavailable;
      }
      if fault == Lost {
        return rejection;
      }
      var stamp: int := *;
      var newest := AnnalsOf(st, s).newest;
      if newest.Some? && stamp <= newest.value {
        stamp := newest.value + 1;
      }
      var snap := Snapshot(spec, Empty, {}, false, Some(s), stamp, 0);
      BirthFrame(s, n, snap);
      Make(Hatch(s, n, snap));
      assert view(n) == LaneOf(st, n);
      r := if fault == Unheard then rejection else Done;
    }

    lemma PruneFrame(s: string, n: string)
      requires Valid() && PruneLegal(st, s, n)
      ensures var st' := Apply(cal, st, Prune(s, n));
              && (forall m :: m != n ==> LaneOf(st', m) == view(m))
              && LaneOf(st', n) == Condemned(view(n))
              && st'.scheds == st.scheds && st'.annals == st.annals
              && st'.facts == st.facts && st'.clock == st.clock
    {
      assert view(n) == LaneOf(st, n);
      forall m ensures LaneOf(Apply(cal, st, Prune(s, n)), m) == if m == n then Pruned(view(n)) else view(m) {
        PutLaneFrame(st, n, Pruned(LaneOf(st, n)), m);
        assert view(m) == LaneOf(st, m);
      }
    }

    /** Asks for the deletion of a successful child; asking twice is no error. */
    method DeleteSnapshot(s: string, n: string) returns (r: Reply)
      requires Valid() && (AnnalsOf(st, s).clerk.Watching? || AnnalsOf(st, s).clerk.Firing?)
      requires n in st.snaps ==> ChildOf(st, n, s) && st.snaps[n].phase == Succeeded
      requires Excess(AnnalsOf(st, s).listing, s, n, AnnalsOf(st, s).keep)
      modifies this
      ensures Valid() && old(h) <= h
      ensures st.scheds == old(st).scheds && st.annals == old(st).annals
      ensures st.facts == old(st).facts && st.clock == old(st).clock
      ensures forall m :: m != n ==> view(m) == old(view)(m)
      ensures view(n) == old(view)(n) || (n in old(st).snaps && view(n) == Condemned(old(view)(n)))
      ensures r == Done ==> n in old(st).snaps && view(n) == Condemned(old(view)(n))
      ensures calm && n in old(st).snaps ==> r == Done
    {
      var fault := Risk(calm);
      assert view(n) == LaneOf(st, n);
      if n !in st.snaps {
        return NotFound;
      }
      if fault == Lost {
        return Unavailable;
      }
      if !st.snaps[n].deleting {
        PruneFrame(s, n);
        Make(Prune(s, n));
        assert view(n) == LaneOf(st, n);
      }
      r := if fault == Unheard then Unavailable else Done;
    }
  }
}
