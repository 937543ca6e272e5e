/**
 The shared API store and its legal moves. Objects live in maps under their API names, so that one
 snapshot's jobs are kept apart from another's only by how the operator derives names.
 */
module Cluster {
  import opened Base
  import opened Kinds
  import opened Crontab
  import opened Lifecycle
  import opened Planning
  import opened Retention

  /** `past` and `annals` are history variables; everything else is API state. */
  datatype Store = Store(
    snaps: map<string, Snapshot>, jobs: map<string, Job>, vols: map<string, Volume>, past: map<string, Past>,
    scheds: map<string, Schedule>, annals: map<string, Annals>, facts: Facts, clock: int)

  const EMPTY_STORE := Store(map[], map[], map[], map[], map[], map[], Facts({}, {}, [], true), 0)

  // ---------------------------------------------------------------- names

  function Suffix(stage: Stage): string {
    if stage.Prepare? then "-pre-snapshot" else "-post-snapshot"
  }

  function JobName(name: string, stage: Stage): string {
    name + Suffix(stage)
  }

  /** Derived job names never collide, neither across snapshots nor across stages. */
  lemma JobNameInjective(a: string, s: Stage, b: string, t: Stage)
    requires JobName(a, s) == JobName(b, t)
    ensures a == b && s == t
  {
    var x, y := JobName(a, s), JobName(b, t);
    assert x[|x| - 10] == Suffix(s)[|Suffix(s)| - 10];
    assert y[|y| - 10] == Suffix(t)[|Suffix(t)| - 10];
    assert a == x[..|a|] && b == y[..|b|];
  }

  function ChildName(cal: Calendar, sched: string, at: int): string {
    sched + "-" + cal.format(Trunc(at))
  }

  // ---------------------------------------------------------------- views

  function PastOf(st: Store, n: string): Past {
    if n in st.past then st.past[n] else UNBORN
  }

  function LaneOf(st: Store, n: string): Lane {
    Lane(Look(st.snaps, n), Look(st.jobs, JobName(n, Prepare)), Look(st.jobs, JobName(n, Finish)),
         Look(st.vols, n), PastOf(st, n))
  }

  function PutLane(st: Store, n: string, l: Lane): Store {
    st.(snaps := Place(st.snaps, n, l.snap),
        jobs := Place(Place(st.jobs, JobName(n, Prepare), l.pre), JobName(n, Finish), l.post),
        vols := Place(st.vols, n, l.vol),
        past := st.past[n := l.past])
  }

  /** Writing one lane changes that lane and no other. */
  lemma PutLaneFrame(st: Store, n: string, l: Lane, m: string)
    ensures LaneOf(PutLane(st, n, l), m) == if m == n then l else LaneOf(st, m)
  {
    if JobName(n, Prepare) == JobName(n, Finish) {
      JobNameInjective(n, Prepare, n, Finish);
    }
    forall s, t | m != n ensures JobName(m, s) != JobName(n, t) {
      if JobName(m, s) == JobName(n, t) {
        JobNameInjective(m, s, n, t);
      }
    }
  }

  function AnnalsOf(st: Store, s: string): Annals {
    if s in st.annals then st.annals[s] else BLANK
  }

  function PlanOf(st: Store, s: string): Plan {
    Plan(Look(st.scheds, s), AnnalsOf(st, s))
  }

  function PutPlan(st: Store, s: string, p: Plan): (r: Store)
    ensures forall t :: PlanOf(r, t) == if t == s then p else PlanOf(st, t)
    ensures forall n :: LaneOf(r, n) == LaneOf(st, n)
  {
    st.(scheds := Place(st.scheds, s, p.sched), annals := st.annals[s := p.annals])
  }

  predicate ChildOf(st: Store, n: string, s: string) {
    n in st.snaps && st.snaps[n].owner == Some(s)
  }

  /** `seen` is the phase of a child with the latest creation time, or absent if there is none. */
  predicate NewestIs(st: Store, s: string, seen: Option<Phase>) {
    match seen
    case None => forall n | n in st.snaps :: !ChildOf(st, n, s)
    case Some(p) => exists n | n in st.snaps ::
      && ChildOf(st, n, s)
      && st.snaps[n].phase == p
      && forall m | m in st.snaps && ChildOf(st, m, s) :: st.snaps[m].stamp <= st.snaps[n].stamp
  }

  /** The child made last, if it still exists, is complete. */
  predicate NewestQuiet(st: Store, s: string) {
    forall n | n in st.snaps && ChildOf(st, n, s) && AnnalsOf(st, s).newest == Some(st.snaps[n].stamp) ::
      st.snaps[n].phase.Complete()
  }

  // ---------------------------------------------------------------- moves

  /**
   `LaneTo` and `PlanTo` change one snapshot's or one schedule's state, `FactsTo` and `ClockTo` the
   surroundings; `Hatch` is a schedule creating a snapshot and `Prune` its deleting one.
   */
  datatype Move =
    | LaneTo(name: string, lane: Lane)
    | PlanTo(sched: string, plan: Plan)
    | FactsTo(facts: Facts)
    | ClockTo(time: int)
    | Hatch(sched: string, name: string, snap: Snapshot)
    | Prune(sched: string, name: string)

  predicate PlanLists(st: Store, s: string, p': Plan) {
    && AnnalsOf(st, s).clerk.Reading?
    && p'.annals.clerk.Watching?
    && NewestIs(st, s, p'.annals.clerk.seen)
    && Lists(p'.annals.listing, st.snaps)
    && p' == PlanOf(st, s).(annals := AnnalsOf(st, s).(clerk := p'.annals.clerk, listing := p'.annals.listing))
  }

  predicate PlanWork(cal: Calendar, st: Store, s: string, p': Plan) {
    var p := PlanOf(st, s);
    || PlanBegins(p, p') || PlanEnds(p, p') || PlanDefaults(p, p') || PlanLists(st, s, p') || PlanMirrors(p, p')
    || (p'.annals.clerk.Firing? && PlanRecords(cal, st.clock, p, p', p'.annals.clerk.fire.at))
  }

  predicate HatchLegal(cal: Calendar, st: Store, s: string, n: string, snap: Snapshot) {
    var a := AnnalsOf(st, s);
    && a.clerk.Firing?
    && n == ChildName(cal, s, a.clerk.fire.at)
    && LaneOf(st, n) == VOID
    && snap.phase == Empty
    && !snap.deleting
    && snap.finalizers == {}
    && snap.owner == Some(s)
    && (a.newest.Some? ==> a.newest.value < snap.stamp)
    && (a.clerk.seen == Some(Empty) || NewestQuiet(st, s))
  }

  predicate PruneLegal(st: Store, s: string, n: string) {
    && (AnnalsOf(st, s).clerk.Watching? || AnnalsOf(st, s).clerk.Firing?)
    && ChildOf(st, n, s)
    && st.snaps[n].phase == Phase.Succeeded
    && !st.snaps[n].deleting
    && Excess(AnnalsOf(st, s).listing, s, n, AnnalsOf(st, s).keep)
  }

  predicate Legal(cal: Calendar, st: Store, m: Move) {
    match m
    case LaneTo(n, l) =>
      && (EnvStep(LaneOf(st, n), l) || WorkerStep(LaneOf(st, n), l, st.facts))
      && (SnapshotBorn(LaneOf(st, n), l) ==> l.snap.value.owner == None)
    case PlanTo(s, p) => PlanEnv(PlanOf(st, s), p) || PlanWork(cal, st, s, p)
    case FactsTo(_) => true
    case ClockTo(t) => st.clock <= t
    case Hatch(s, n, snap) => HatchLegal(cal, st, s, n, snap)
    case Prune(s, n) => PruneLegal(st, s, n)
  }

  function Hatched(st: Store, s: string, n: string, snap: Snapshot): Store
    requires AnnalsOf(st, s).clerk.Firing?
  {
    var a := AnnalsOf(st, s);
    PutPlan(PutLane(st, n, Lane(Some(snap), None, None, None, UNBORN.(born := true))), s,
            PlanOf(st, s).(annals := a.(clerk := Watching(a.clerk.seen),
                                        made := a.made[n := a.clerk.fire],
                                        newest := Some(snap.stamp))))
  }

  function Pruned(l: Lane): Lane
    requires l.snap.Some?
  {
    l.(snap := Reap(l.snap.value.(deleting := true, version := l.snap.value.version + 1)))
  }

  function Apply(cal: Calendar, st: Store, m: Move): Store
    requires Legal(cal, st, m)
  {
    match m
    case LaneTo(n, l) => PutLane(st, n, l)
    case PlanTo(s, p) => PutPlan(st, s, p)
    case FactsTo(f) => st.(facts := f)
    case ClockTo(t) => st.(clock := t)
    case Hatch(s, n, snap) => Hatched(st, s, n, snap)
    case Prune(_, n) => PutLane(st, n, Pruned(LaneOf(st, n)))
  }

  ghost predicate Next(cal: Calendar, st: Store, st': Store) {
    exists m: Move :: Legal(cal, st, m) && st' == Apply(cal, st, m)
  }

  /** A history of the whole cluster from an empty store. */
  ghost predicate History(cal: Calendar, h: seq<Store>) {
    && |h| > 0
    && h[0] == EMPTY_STORE
    && forall i, j {:trigger Next(cal, h[i], h[j])} :: 0 <= i < |h| - 1 && j == i + 1 ==> Next(cal, h[i], h[j])
  }

  /** One more legal move makes a longer history. */
  lemma HistoryGrows(cal: Calendar, h: seq<Store>, m: Move)
    requires History(cal, h) && Legal(cal, h[|h| - 1], m)
    ensures History(cal, h + [Apply(cal, h[|h| - 1], m)])
  {
    var h' := h + [Apply(cal, h[|h| - 1], m)];
    forall i, j | 0 <= i < |h'| - 1 && j == i + 1 ensures Next(cal, h'[i], h'[j]) {
      if j < |h| {
        assert Next(cal, h[i], h[j]);
      }
    }
  }

  // ---------------------------------------------------------------- who may move

  datatype Actor = SnapshotWorker(name: string) | ScheduleWorker(sched: string)

  /** The moves of everybody but `me`: other workers, controllers and users. */
  predicate Foreign(st: Store, m: Move, me: Actor) {
    match m
    case LaneTo(n, l) => me == SnapshotWorker(n) ==> EnvStep(LaneOf(st, n), l)
    case PlanTo(s, p) => me == ScheduleWorker(s) ==> PlanEnv(PlanOf(st, s), p)
    case Hatch(s, _, _) => me != ScheduleWorker(s)
    case Prune(s, _) => me != ScheduleWorker(s)
    case _ => true
  }

  /** Every move looks, to each lane, like one step of that lane or none. */
  lemma MoveProjects(cal: Calendar, st: Store, m: Move, n: string)
    requires Legal(cal, st, m)
    ensures LaneNext(LaneOf(st, n), LaneOf(Apply(cal, st, m), n))
  {
    match m
    case LaneTo(k, l) => PutLaneFrame(st, k, l, n);
    case Hatch(s, k, snap) =>
      PutLaneFrame(st, k, Lane(Some(snap), None, None, None, UNBORN.(born := true)), n);
    case Prune(s, k) =>
      PutLaneFrame(st, k, Pruned(LaneOf(st, k)), n);
      assert DeleteRequested(LaneOf(st, k), Pruned(LaneOf(st, k)));
    case _ =>
  }

  lemma ForeignStepIsRely(cal: Calendar, st: Store, k: string, x: Lane, n: string)
    requires EnvStep(LaneOf(st, n), x) || k != n
    requires PastOf(st, n).born
    ensures Rely(LaneOf(st, n), LaneOf(PutLane(st, k, x), n))
  {
    PutLaneFrame(st, k, x, n);
    if k == n {
      EnvStepIsRely(LaneOf(st, n), x);
    }
  }

  /** Foreign moves leave a lane as its worker may rely on. */
  lemma ForeignIsRely(cal: Calendar, st: Store, m: Move, n: string)
    requires Legal(cal, st, m) && Foreign(st, m, SnapshotWorker(n)) && PastOf(st, n).born
    ensures Rely(LaneOf(st, n), LaneOf(Apply(cal, st, m), n))
  {
    match m
    case LaneTo(k, x) => ForeignStepIsRely(cal, st, k, x, n);
    case Hatch(s, k, snap) =>
      PutLaneFrame(st, k, Lane(Some(snap), None, None, None, UNBORN.(born := true)), n);
    case Prune(s, k) =>
      assert DeleteRequested(LaneOf(st, k), Pruned(LaneOf(st, k)));
      ForeignStepIsRely(cal, st, k, Pruned(LaneOf(st, k)), n);
    case _ =>
  }

  lemma EnvKeepsWorker(l: Lane, l': Lane)
    requires EnvStep(l, l')
    ensures l'.past.worker == l.past.worker
  {
  }

  lemma ForeignKeepsWorker(cal: Calendar, st: Store, m: Move, n: string)
    requires Legal(cal, st, m) && Foreign(st, m, SnapshotWorker(n))
    ensures PastOf(Apply(cal, st, m), n).worker == PastOf(st, n).worker
  {
    match m
    case LaneTo(k, x) =>
      PutLaneFrame(st, k, x, n);
      if k == n { EnvKeepsWorker(LaneOf(st, n), x); }
    case Hatch(s, k, snap) =>
      PutLaneFrame(st, k, Lane(Some(snap), None, None, None, UNBORN.(born := true)), n);
    case Prune(s, k) =>
      PutLaneFrame(st, k, Pruned(LaneOf(st, k)), n);
    case _ =>
  }

  /** The snapshot worker of `n` leaves every other snapshot alone. */
  lemma WorkerTouchesOneLane(cal: Calendar, st: Store, n: string, l: Lane, m: string)
    requires Legal(cal, st, LaneTo(n, l)) && m != n
    ensures LaneOf(Apply(cal, st, LaneTo(n, l)), m) == LaneOf(st, m)
  {
    PutLaneFrame(st, n, l, m);
  }

  // ---------------------------------------------------------------- what a schedule's worker may rely on

  /** The owner, the creation time, a deletion mark and a terminal phase stay, and only a birth makes a snapshot. */
  predicate SnapKept(l: Lane, l': Lane) {
    && (l.snap.Some? && l'.snap.Some? ==>
          && l'.snap.value.owner == l.snap.value.owner
          && l'.snap.value.stamp == l.snap.value.stamp
          && (l.snap.value.deleting ==> l'.snap.value.deleting)
          && (l.snap.value.phase.Complete() ==> l'.snap.value.phase == l.snap.value.phase))
    && (l.snap.None? && l'.snap.Some? ==> SnapshotBorn(l, l'))
    && (l.past.born ==> l'.past.born)
  }

  lemma EnvKeepsSnap(l: Lane, l': Lane)
    requires EnvStep(l, l')
    ensures SnapKept(l, l')
  {
  }

  lemma WorkerKeepsSnap(l: Lane, l': Lane, f: Facts)
    requires WorkerStep(l, l', f)
    ensures SnapKept(l, l')
  {
  }

  /** No step changes a snapshot's owner or creation time, revives it, or moves it out of a terminal phase. */
  lemma OwnerKept(l: Lane, l': Lane, f: Facts)
    requires EnvStep(l, l') || WorkerStep(l, l', f)
    ensures SnapKept(l, l')
  {
    if EnvStep(l, l') {
      EnvKeepsSnap(l, l');
    } else {
      WorkerKeepsSnap(l, l', f);
    }
  }

  /** Names are used once, owners and ages stay, and what is complete or marked for deletion stays so. */
  predicate Grown(l: Lane, l': Lane) {
    l.past.born ==>
      && l'.past.born
      && (l'.snap.Some? ==>
            && l.snap.Some?
            && l'.snap.value.owner == l.snap.value.owner
            && l'.snap.value.stamp == l.snap.value.stamp
            && (l.snap.value.deleting ==> l'.snap.value.deleting)
            && (l.snap.value.phase.Complete() ==> l'.snap.value.phase == l.snap.value.phase))
  }

  /** The combined effect of any number of moves by anybody but the worker of schedule `s`. */
  ghost predicate PlanRely(st: Store, st': Store, s: string) {
    && AnnalsOf(st', s) == AnnalsOf(st, s)
    && st.clock <= st'.clock
    && (s in st'.scheds ==>
          && s in st.scheds
          && var (p, p') := (st.scheds[s], st'.scheds[s]);
          && p'.last == p.last && p'.mirror == p.mirror && p'.stamp == p.stamp
          && p.version <= p'.version
          && (p'.version == p.version ==> p' == p))
    && (forall n :: ChildOf(st', n, s) ==> ChildOf(st, n, s))
    && (forall n {:trigger LaneOf(st', n)} :: Grown(LaneOf(st, n), LaneOf(st', n)))
  }

  lemma PlanRelyTransitive(a: Store, b: Store, c: Store, s: string)
    requires PlanRely(a, b, s) && PlanRely(b, c, s)
    ensures PlanRely(a, c, s)
  {
    forall n ensures Grown(LaneOf(a, n), LaneOf(c, n)) {
      assert Grown(LaneOf(a, n), LaneOf(b, n)) && Grown(LaneOf(b, n), LaneOf(c, n));
    }
  }

  lemma ForeignGrows(cal: Calendar, st: Store, m: Move, n: string)
    requires Legal(cal, st, m)
    ensures Grown(LaneOf(st, n), LaneOf(Apply(cal, st, m), n))
  {
    match m
    case LaneTo(k, l) =>
      PutLaneFrame(st, k, l, n);
      OwnerKept(LaneOf(st, k), l, st.facts);
    case Hatch(s, k, snap) =>
      PutLaneFrame(st, k, Lane(Some(snap), None, None, None, UNBORN.(born := true)), n);
    case Prune(s, k) =>
      PutLaneFrame(st, k, Pruned(LaneOf(st, k)), n);
    case _ =>
  }

  lemma ForeignAdoptsNone(cal: Calendar, st: Store, m: Move, s: string, n: string)
    requires Legal(cal, st, m) && Foreign(st, m, ScheduleWorker(s))
    requires ChildOf(Apply(cal, st, m), n, s)
    ensures ChildOf(st, n, s)
  {
    assert Look(Apply(cal, st, m).snaps, n).Some?;
    match m
    case LaneTo(k, l) =>
      OwnerKept(LaneOf(st, k), l, st.facts);
    case _ =>
  }

  lemma ForeignKeepsPlan(cal: Calendar, st: Store, m: Move, s: string)
    requires Legal(cal, st, m) && Foreign(st, m, ScheduleWorker(s))
    ensures var (p, p') := (PlanOf(st, s), PlanOf(Apply(cal, st, m), s)); p' == p || PlanEnv(p, p')
  {
  }

  lemma ForeignIsPlanRely(cal: Calendar, st: Store, m: Move, s: string)
    requires Legal(cal, st, m) && Foreign(st, m, ScheduleWorker(s)) && AnnalsOf(st, s).born
    ensures PlanRely(st, Apply(cal, st, m), s)
  {
    var st' := Apply(cal, st, m);
    forall n ensures Grown(LaneOf(st, n), LaneOf(st', n)) {
      ForeignGrows(cal, st, m, n);
    }
    forall n | ChildOf(st', n, s) ensures ChildOf(st, n, s) {
      ForeignAdoptsNone(cal, st, m, s, n);
    }
    ForeignKeepsPlan(cal, st, m, s);
  }
}
