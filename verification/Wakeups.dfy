/** When a schedule is due, and whether its controller is awake to notice. */
module Wakeups {
  import opened Base
  import opened Kinds
  import opened Crontab
  import opened Planning
  import opened Cluster
  import opened Lifecycle
  import opened Retention
  import opened Api
  import opened ScheduleController
  import ClusterSafety

  /** A schedule is due exactly if some activation has come since the last one recorded. */
  lemma DueExact(c: Cron, p: Schedule, now: int)
    requires Lawful(c)
    ensures Due(c, p, now) <==> exists t :: LastOf(p) < t <= now && IsTick(c, t)
  {
    if Due(c, p, now) {
      assert IsTick(c, c.next(LastOf(p)));
    }
  }

  /** What a reconcile at `now` leaves as the last activation. */
  function Fired(c: Cron, p: Schedule, now: int): Schedule {
    if Due(c, p, now) then p.(last := Some(Trunc(now))) else p
  }

  /**
   After a reconcile at `now` the delay it asks for is positive and ends exactly when the schedule next
   becomes due: any reconcile from then on finds it due and none before does. The one exception is a
   schedule created, by its own timestamp, at or after that activation: it is not due by then.
   */
  lemma WakeUpExact(c: Cron, p: Schedule, now: int, later: int)
    requires Lawful(c) && now <= later
    ensures now < c.next(now)
    ensures LastOf(p) < c.next(now) ==>
              (Due(c, Fired(c, p, now), later) <==> c.next(now) <= later)
    ensures LastOf(p) >= c.next(now) ==> !Due(c, Fired(c, p, now), c.next(now))
  {
    TruncKeepsNext(c, now);
    assert IsTick(c, c.next(now)) && IsTick(c, c.next(LastOf(p)));
  }

  /** However the schedule is edited meanwhile, one that has just fired cannot fire at the same instant. */
  lemma SameInstantQuiet(c: Cron, p: Schedule, now: int)
    requires Lawful(c) && p.last == Some(Trunc(now))
    ensures !Due(c, p, now)
  {
    TruncKeepsNext(c, now);
  }

  /** All ticks missed before a reconcile are answered by one activation: after it none is pending. */
  lemma MissedTicksCollapse(c: Cron, p: Schedule, now: int, t: int)
    requires Lawful(c) && IsTick(c, t) && LastOf(Fired(c, p, now)) < t
    ensures now < t
  {
    DueExact(c, p, now);
    TruncKeepsNext(c, now);
  }

  ghost predicate Reflects(v: string -> Lane, st: Store) {
    forall n {:trigger LaneOf(st, n)} :: v(n) == LaneOf(st, n)
  }

  /** A success listed after a pass was listed as one before it. */
  lemma SuccessesMetBefore(st: Store, v: string -> Lane, st1: Store, v1: string -> Lane,
                           s: string, n: string, p: Schedule, kids: seq<Item>, later: seq<Item>,
                           c: Cron, now: int, y: Item)
    requires Children(st, s, kids) && Children(st1, s, later)
    requires Reflects(v, st) && Reflects(v1, st1)
    requires Passed(st, v, st1, v1, s, n, p, kids, c, now)
    requires y in later && y.snap.phase == Succeeded
    ensures Met(kids, y) && v(y.name).snap.Some?
    ensures v1(y.name) == if y.name in Names(Doomed(kids, p.spec.retention)) then Condemned(v(y.name)) else v(y.name)
  {
    assert v(y.name) == LaneOf(st, y.name) && v1(y.name) == LaneOf(st1, y.name);
    assert ChildOf(st, y.name, s);
    assert y.name in Names(kids);
    var x :| x in kids && x.name == y.name;
    assert SameSuccess(x, y);
  }

  lemma KidsUntied(st: Store, s: string, kids: seq<Item>)
    requires Children(st, s, kids) && ClusterSafety.Family(st, s)
    ensures Untied(kids)
  {
    forall x, y | x in kids && y in kids && x.name != y.name ensures x.snap.stamp != y.snap.stamp {
      assert ChildOf(st, x.name, s) && ChildOf(st, y.name, s);
    }
  }

  lemma NothingLeftToDoom(st: Store, v: string -> Lane, st1: Store, v1: string -> Lane,
                          s: string, n: string, p: Schedule, kids: seq<Item>, later: seq<Item>, c: Cron, now: int)
    requires Children(st, s, kids) && Children(st1, s, later) && ClusterSafety.Family(st, s)
    requires Reflects(v, st) && Reflects(v1, st1)
    requires Passed(st, v, st1, v1, s, n, p, kids, c, now)
    ensures forall m | m in Names(Doomed(later, p.spec.retention)) :: Condemned(v1(m)) == v1(m)
  {
    var retention := p.spec.retention;
    KidsUntied(st, s, kids);
    forall y | y in later && y.snap.phase == Succeeded ensures Met(kids, y) {
      SuccessesMetBefore(st, v, st1, v1, s, n, p, kids, later, c, now, y);
    }
    LaterPassDoomsNoMore(kids, later, retention);
    OnlySuccessesDoomed(later, retention);
    forall m | m in Names(Doomed(later, retention)) ensures Condemned(v1(m)) == v1(m) {
      var y :| y in Doomed(later, retention) && y.name == m;
      SuccessesMetBefore(st, v, st1, v1, s, n, p, kids, later, c, now, y);
    }
  }

  /**
   Two undisturbed reconciles at the same instant: the second fires nothing, creates nothing and deletes
   nothing. `v` and `v1` are the lanes before and after the first, `v2` those after the second.
   */
  lemma SecondPassQuiet(st: Store, v: string -> Lane, st1: Store, v1: string -> Lane, st2: Store, v2: string -> Lane,
                        s: string, n: string, first: Schedule, kids: seq<Item>, later: seq<Item>, c: Cron, now: int)
    requires Lawful(c) && ClusterSafety.Family(st, s)
    requires Reflects(v, st) && Reflects(v1, st1)
    requires Children(st, s, kids) && Passed(st, v, st1, v1, s, n, Surveyed(first, kids), kids, c, now)
    requires Children(st1, s, later)
    requires Passed(st1, v1, st2, v2, s, n, Surveyed(PlanOf(st1, s).sched.value, later), later, c, now)
    ensures forall m :: v2(m) == v1(m)
    ensures AnnalsOf(st2, s).fires == AnnalsOf(st1, s).fires && AnnalsOf(st2, s).made == AnnalsOf(st1, s).made
    ensures PlanOf(st2, s).sched.value.last == PlanOf(st1, s).sched.value.last
  {
    var p, q := Surveyed(first, kids), Surveyed(PlanOf(st1, s).sched.value, later);
    assert LastOf(q) == LastOf(Fired(c, p, now));
    TruncKeepsNext(c, now);
    assert !Due(c, q, now);
    assert q.spec.retention == p.spec.retention;
    NothingLeftToDoom(st, v, st1, v1, s, n, p, kids, later, c, now);
    forall m ensures v2(m) == v1(m) {
    }
  }
}
