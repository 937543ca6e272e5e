/**
 The operator at work: two reconcilers fed by work queues over one API server. Whatever it is asked to
 reconcile, in whatever order, and whoever else moves, every store it passes through is safe.
 */
module Operator {
  import opened Crontab
  import opened Lifecycle
  import opened Planning
  import opened Cluster
  import opened Api
  import opened SnapshotController
  import opened ScheduleController
  import Safety
  import ClusterSafety
  import Activations

  /** What holds of one store: every snapshot's invariant, every schedule's record, every family's ages. */
  ghost predicate Safe(cal: Calendar, st: Store) {
    && (forall n {:trigger LaneOf(st, n)} :: Safety.Inv(LaneOf(st, n)))
    && (forall s {:trigger PlanOf(st, s)} :: Activations.Punctual(cal, PlanOf(st, s), st.clock))
    && (forall s :: ClusterSafety.Family(st, s))
  }

  /** At most one snapshot of each schedule is unfinished. */
  predicate OneEach(st: Store, s: string) {
    forall n, m | n in st.snaps && m in st.snaps && ChildOf(st, n, s) && ChildOf(st, m, s) ::
      !st.snaps[n].phase.Complete() && !st.snaps[m].phase.Complete() ==> n == m
  }

  lemma OneEachHolds(cal: Calendar, h: seq<Store>, i: nat, s: string)
    requires History(cal, h) && i < |h| && ClusterSafety.Patient(h, s)
    ensures OneEach(h[i], s)
  {
    forall n, m | n in h[i].snaps && m in h[i].snaps && ChildOf(h[i], n, s) && ChildOf(h[i], m, s)
                  && !h[i].snaps[n].phase.Complete() && !h[i].snaps[m].phase.Complete()
      ensures n == m
    {
      ClusterSafety.OneInFlight(cal, h, i, s, n, m);
    }
  }

  lemma HistorySafe(cal: Calendar, h: seq<Store>, i: nat)
    requires LawfulCalendar(cal) && History(cal, h) && i < |h|
    ensures Safe(cal, h[i])
    ensures forall s | ClusterSafety.Patient(h, s) :: OneEach(h[i], s)
  {
    forall n ensures Safety.Inv(LaneOf(h[i], n)) {
      ClusterSafety.LanesSafe(cal, h, i, n);
    }
    forall s ensures Activations.Punctual(cal, PlanOf(h[i], s), h[i].clock) {
      Activations.PunctualHolds(cal, h, i, s);
    }
    forall s ensures ClusterSafety.Family(h[i], s) {
      ClusterSafety.FamilyHolds(cal, h, i, s);
    }
    forall s | ClusterSafety.Patient(h, s) ensures OneEach(h[i], s) {
      OneEachHolds(cal, h, i, s);
    }
  }

  /** From each store to the next every snapshot keeps its phase or moves along a legal edge. */
  ghost predicate Stepwise(h: seq<Store>) {
    forall i, j, n {:trigger LaneOf(h[i], n), LaneOf(h[j], n)} :: 0 <= i < |h| - 1 && j == i + 1 ==>
      Safety.EdgeOf(LaneOf(h[i], n), LaneOf(h[j], n))
  }

  lemma HistoryStepwise(cal: Calendar, h: seq<Store>)
    requires History(cal, h)
    ensures Stepwise(h)
  {
    forall i, j, n | 0 <= i < |h| - 1 && j == i + 1 ensures Safety.EdgeOf(LaneOf(h[i], n), LaneOf(h[j], n)) {
      ClusterSafety.LanesRun(cal, h, n);
      Safety.EdgesOfRun(ClusterSafety.Project(h, n), j);
    }
  }

  /** A key to reconcile, or a move by somebody else. */
  datatype Request = ForSnapshot(name: string) | ForSchedule(sched: string) | Other(move: Move)

  /** What users, other controllers and time may do. */
  predicate ByOthers(st: Store, m: Move) {
    match m
    case LaneTo(n, l) => EnvStep(LaneOf(st, n), l)
    case PlanTo(s, p) => PlanEnv(PlanOf(st, s), p)
    case FactsTo(_) => true
    case ClockTo(_) => true
    case _ => false
  }

  class Manager {
    const api: ApiServer
    const snapshots: SnapshotReconciler
    const schedules: ScheduleReconciler

    ghost predicate Wired() {
      snapshots.api == api && schedules.api == api
    }

    constructor (api: ApiServer)
      ensures this.api == api && Wired()
    {
      this.api := api;
      snapshots := new SnapshotReconciler(api);
      schedules := new ScheduleReconciler(api);
    }

    /** Serves the requests in turn; a key already being worked on is not handed out a second time. */
    method Serve(queue: seq<Request>)
      requires Wired() && api.Valid() && LawfulCalendar(api.cal)
      modifies api
      ensures api.Valid() && old(api.h) <= api.h
      ensures forall i | 0 <= i < |api.h| ::
                Safe(api.cal, api.h[i]) && forall s | ClusterSafety.Patient(api.h, s) :: OneEach(api.h[i], s)
      ensures Stepwise(api.h)
    {
      for k := 0 to |queue|
        invariant api.Valid() && old(api.h) <= api.h
      {
        match queue[k]
        case ForSnapshot(n) =>
          assert api.view(n) == LaneOf(api.st, n);
          if PastOf(api.st, n).worker.Idle? {
            snapshots.Reconcile(n);
          }
        case ForSchedule(s) =>
          if AnnalsOf(api.st, s).clerk.Resting? {
            var r, requeue, _, _, _ := schedules.Reconcile(s);
          }
        case Other(m) =>
          if Legal(api.cal, api.st, m) && ByOthers(api.st, m) {
            api.Make(m);
          }
      }
      HistoryStepwise(api.cal, api.h);
      forall i | 0 <= i < |api.h|
        ensures Safe(api.cal, api.h[i])
        ensures forall s | ClusterSafety.Patient(api.h, s) :: OneEach(api.h[i], s)
      {
        HistorySafe(api.cal, api.h, i);
      }
    }
  }
}
