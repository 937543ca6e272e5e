/**
 One snapshot schedule as an atomic state machine: the schedule object and a history variable that
 remembers every recorded activation and every snapshot made.
 */
module Planning {
  import opened Base
  import opened Kinds
  import opened Crontab
  import opened Retention

  datatype ScheduleSpec = ScheduleSpec(cron: string, retention: int32, snapshot: SnapshotSpec)

  /** `last` is status.lastSnapshot, absent while it is the zero time; `mirror` is status.snapshotPhase. */
  datatype Schedule = Schedule(
    spec: ScheduleSpec, stamp: int, last: Option<int>, mirror: Phase, version: nat)

  /** An activation: the tick it answers, when it was recorded, and the cron text it was due by. */
  datatype Fire = Fire(tick: int, at: int, cron: string)

  /** The reconcile in progress; `seen` is the phase of the newest child it listed. */
  datatype Clerk =
    | Resting
    | Reading
    | Watching(seen: Option<Phase>)
    | Firing(fire: Fire, seen: Option<Phase>)

  /**
   `made` gives, for each snapshot made by the schedule, the activation it answers. `listing` is what the
   last reconcile to list found in the namespace, `keep` the retention the last one went by.
   */
  datatype Annals = Annals(
    born: bool, clerk: Clerk, fires: seq<Fire>, made: map<string, Fire>, newest: Option<int>,
    listing: seq<Item>, keep: int32)

  const BLANK := Annals(false, Resting, [], map[], None, [], 0)

  datatype Plan = Plan(sched: Option<Schedule>, annals: Annals) {
    function WithClerk(c: Clerk): Plan {
      this.(annals := annals.(clerk := c))
    }
  }

  /** The instant after which the next activation is due. */
  function LastOf(s: Schedule): int {
    if s.last.Some? then s.last.value else s.stamp
  }

  function SeenPhase(seen: Option<Phase>): Phase {
    if seen.Some? then seen.value else Empty
  }

  // ---------------------------------------------------------------- the environment

  predicate ScheduleBorn(p: Plan, p': Plan) {
    && p == Plan(None, BLANK)
    && p'.sched.Some?
    && p'.sched.value.last.None?
    && p'.sched.value.mirror == Empty
    && p' == Plan(p'.sched, BLANK.(born := true))
  }

  predicate ScheduleEdited(p: Plan, p': Plan) {
    && p.sched.Some?
    && p'.sched.Some?
    && p'.sched.value.spec.snapshot == p.sched.value.spec.snapshot
    && p' == p.(sched := Some(p.sched.value.(spec := p'.sched.value.spec, version := p.sched.value.version + 1)))
  }

  predicate ScheduleGone(p: Plan, p': Plan) {
    p.sched.Some? && p' == p.(sched := None)
  }

  predicate PlanEnv(p: Plan, p': Plan) {
    ScheduleBorn(p, p') || ScheduleEdited(p, p') || ScheduleGone(p, p')
  }

  // ---------------------------------------------------------------- the worker

  predicate PlanBegins(p: Plan, p': Plan) {
    && p.annals.clerk.Resting?
    && p.sched.Some?
    && p' == p.(annals := p.annals.(clerk := Reading, keep := p.sched.value.spec.retention))
  }

  predicate PlanEnds(p: Plan, p': Plan) {
    !p.annals.clerk.Resting? && p' == p.WithClerk(Resting)
  }

  predicate PlanDefaults(p: Plan, p': Plan) {
    && p.annals.clerk.Reading?
    && p.sched.Some?
    && p.sched.value.spec.retention == 0
    && p' == Plan(Some(p.sched.value.(
                         spec := p.sched.value.spec.(retention := SCHEDULE_RETENTION_DEFAULT),
                         version := p.sched.value.version + 1)),
                  p.annals.(keep := SCHEDULE_RETENTION_DEFAULT))
  }

  predicate PlanMirrors(p: Plan, p': Plan) {
    && p.annals.clerk.Watching?
    && p.sched.Some?
    && p' == p.(sched := Some(p.sched.value.(
                    mirror := SeenPhase(p.annals.clerk.seen),
                    version := p.sched.value.version + 1)))
  }

  /** An activation is recorded before its snapshot is made. */
  predicate PlanRecords(cal: Calendar, clock: int, p: Plan, p': Plan, at: int) {
    && p.annals.clerk.Watching?
    && p.sched.Some?
    && at <= clock
    && var text := p.sched.value.spec.cron;
    && cal.parse(text).Some?
    && var fire := Fire(cal.parse(text).value.next(LastOf(p.sched.value)), at, text);
    && fire.tick <= at
    && p' == Plan(
         Some(p.sched.value.(last := Some(Trunc(at)), version := p.sched.value.version + 1)),
         p.annals.(clerk := Firing(fire, p.annals.clerk.seen), fires := p.annals.fires + [fire]))
  }
}
