/**
 How two snapshots of one schedule come to be in flight at once, and exactly when an undisturbed reconcile
 prevents it.
 */
module Exclusion {
  import opened Base
  import opened Kinds
  import opened Crontab
  import opened Lifecycle
  import opened Planning
  import opened Cluster
  import opened Retention
  import opened ScheduleController
  import opened ClusterSafety
  import opened Wakeups
  import Activations

  // ---------------------------------------------------------------- the gate

  /** What became of a lane that is not the newborn's: the same snapshot, perhaps marked or gone. */
  lemma OldLane(st: Store, v: string -> Lane, st1: Store, v1: string -> Lane,
                s: string, n: string, p: Schedule, kids: seq<Item>, c: Cron, now: int, m: string)
    requires Reflects(v, st) && Reflects(v1, st1) && Passed(st, v, st1, v1, s, n, p, kids, c, now)
    requires m == n ==> v(n) != VOID
    ensures ChildOf(st1, m, s) ==> ChildOf(st, m, s)
    ensures ChildOf(st1, m, s) ==>
              st1.snaps[m].phase == st.snaps[m].phase && st1.snaps[m].stamp == st.snaps[m].stamp
    ensures m !in Names(Doomed(kids, p.spec.retention)) ==> LaneOf(st1, m) == LaneOf(st, m)
  {
    assert v(m) == LaneOf(st, m) && v1(m) == LaneOf(st1, m);
  }

  /** An open gate that is not open for an empty phase means that all children are complete. */
  lemma AllComplete(st: Store, s: string, kids: seq<Item>)
    requires Children(st, s, kids) && Family(st, s) && Exclusive(st, s)
    requires Gate(kids) && (kids == [] || kids[0].snap.phase != Empty)
    ensures forall m | m in st.snaps && ChildOf(st, m, s) :: st.snaps[m].phase.Complete()
  {
    forall m | m in st.snaps && ChildOf(st, m, s) ensures st.snaps[m].phase.Complete() {
      assert m in Names(kids);
      var x :| x in kids && x.name == m;
      var i :| 0 <= i < |kids| && kids[i] == x;
      assert ChildOf(st, kids[0].name, s);
      assert st.snaps[m].stamp <= kids[0].snap.stamp;
    }
  }

  lemma NoBirthKeeps(st: Store, v: string -> Lane, st1: Store, v1: string -> Lane,
                     s: string, n: string, p: Schedule, kids: seq<Item>, c: Cron, now: int)
    requires Reflects(v, st) && Reflects(v1, st1) && Exclusive(st, s)
    requires Passed(st, v, st1, v1, s, n, p, kids, c, now)
    requires !(Due(c, p, now) && Gate(kids) && v(n) == VOID)
    ensures Exclusive(st1, s)
  {
    forall m | m in st1.snaps && ChildOf(st1, m, s) && AnnalsOf(st1, s).newest != Some(st1.snaps[m].stamp)
      ensures st1.snaps[m].phase.Complete()
    {
      assert v(m) == LaneOf(st, m) && v1(m) == LaneOf(st1, m);
      assert ChildOf(st, m, s) && st1.snaps[m].stamp == st.snaps[m].stamp;
    }
  }

  /** A birth beside complete children keeps them so. */
  lemma QuietBirthKeeps(st: Store, v: string -> Lane, st1: Store, v1: string -> Lane,
                        s: string, n: string, p: Schedule, kids: seq<Item>, c: Cron, now: int)
    requires Reflects(v, st) && Reflects(v1, st1)
    requires Passed(st, v, st1, v1, s, n, p, kids, c, now)
    requires Due(c, p, now) && Gate(kids) && v(n) == VOID
    requires forall m | m in st.snaps && ChildOf(st, m, s) :: st.snaps[m].phase.Complete()
    ensures Exclusive(st1, s)
  {
    assert v1(n) == LaneOf(st1, n);
    forall m | m in st1.snaps && ChildOf(st1, m, s) && AnnalsOf(st1, s).newest != Some(st1.snaps[m].stamp)
      ensures st1.snaps[m].phase.Complete()
    {
      OldLane(st, v, st1, v1, s, n, p, kids, c, now, m);
    }
  }

  /** A birth beside a newest child still in the empty phase leaves that one behind unfinished. */
  lemma EarlyBirthBreaks(st: Store, v: string -> Lane, st1: Store, v1: string -> Lane,
                         s: string, n: string, p: Schedule, kids: seq<Item>, c: Cron, now: int)
    requires Children(st, s, kids) && Family(st1, s) && Reflects(v, st) && Reflects(v1, st1)
    requires Passed(st, v, st1, v1, s, n, p, kids, c, now)
    requires Due(c, p, now) && v(n) == VOID && kids != [] && kids[0].snap.phase == Empty
    ensures !Exclusive(st1, s)
  {
    var m := kids[0].name;
    assert v(m) == LaneOf(st, m) && v1(n) == LaneOf(st1, n);
    OnlySuccessesDoomed(kids, p.spec.retention);
    forall x | x in Doomed(kids, p.spec.retention) ensures x.name != m {
      assert st.snaps[x.name] == x.snap;
    }
    OldLane(st, v, st1, v1, s, n, p, kids, c, now, m);
    assert Look(st1.snaps, m) == Some(kids[0].snap);
    assert m in st1.snaps && ChildOf(st1, m, s) && n in st1.snaps && ChildOf(st1, n, s) && m != n;
  }

  /**
   An undisturbed reconcile keeps all children but the newest complete, except exactly if it is due, the
   name it would use is free, and the newest child it listed is still in the empty phase.
   */
  lemma PassExclusiveIff(st: Store, v: string -> Lane, st1: Store, v1: string -> Lane,
                         s: string, n: string, p: Schedule, kids: seq<Item>, c: Cron, now: int)
    requires Children(st, s, kids) && Family(st, s) && Family(st1, s) && Exclusive(st, s)
    requires Reflects(v, st) && Reflects(v1, st1)
    requires Passed(st, v, st1, v1, s, n, p, kids, c, now)
    ensures Exclusive(st1, s) <==> !(Due(c, p, now) && v(n) == VOID && kids != [] && kids[0].snap.phase == Empty)
  {
    if !(Due(c, p, now) && Gate(kids) && v(n) == VOID) {
      NoBirthKeeps(st, v, st1, v1, s, n, p, kids, c, now);
    } else if kids == [] || kids[0].snap.phase != Empty {
      AllComplete(st, s, kids);
      QuietBirthKeeps(st, v, st1, v1, s, n, p, kids, c, now);
    } else {
      EarlyBirthBreaks(st, v, st1, v1, s, n, p, kids, c, now);
    }
  }

  // ---------------------------------------------------------------- two in flight

  /** A snapshot as `s` makes it at the time `stamp`. */
  function Child(s: string, spec: SnapshotSpec, stamp: int): Snapshot {
    Snapshot(spec, Empty, {}, false, Some(s), stamp, 0)
  }

  /** A schedule that nobody works on is due, and the name of the snapshot it would make is free. */
  ghost predicate Ripe(cal: Calendar, st: Store, s: string, c: Cron, seen: Option<Phase>) {
    && s in st.scheds && AnnalsOf(st, s).clerk.Resting?
    && cal.parse(st.scheds[s].spec.cron) == Some(c) && Due(c, st.scheds[s], st.clock)
    && NewestIs(st, s, seen)
    && (AnnalsOf(st, s).newest.Some? ==> AnnalsOf(st, s).newest.value < st.clock)
    && LaneOf(st, ChildName(cal, s, st.clock)) == VOID
  }

  /** Nothing but plans differs. */
  predicate SameObjects(st: Store, st': Store) {
    st'.snaps == st.snaps && st'.jobs == st.jobs && st'.vols == st.vols && st'.past == st.past && st'.clock == st.clock
  }

  lemma PlanMoves(cal: Calendar, h: seq<Store>, s: string, p: Plan) returns (h': seq<Store>)
    requires History(cal, h) && Legal(cal, h[|h| - 1], PlanTo(s, p))
    ensures History(cal, h') && SameObjects(h[|h| - 1], h'[|h'| - 1]) && PlanOf(h'[|h'| - 1], s) == p
  {
    HistoryGrows(cal, h, PlanTo(s, p));
    h' := h + [Apply(cal, h[|h| - 1], PlanTo(s, p))];
  }

  lemma AnyListing(snaps: map<string, Snapshot>) returns (items: seq<Item>)
    ensures Lists(items, snaps)
    decreases |snaps|
  {
    if snaps == map[] {
      items := [];
    } else {
      var n :| n in snaps;
      var rest := map m | m in snaps && m != n :: snaps[m];
      assert snaps == rest[n := snaps[n]];
      items := AnyListing(rest);
      items := items + [Item(n, snaps[n])];
      forall m | m in snaps ensures Item(m, snaps[m]) in items {
        if m != n {
          assert m in rest;
        }
      }
    }
  }

  /** The history of `s` after it has listed. */
  function Listed(a: Annals, seen: Option<Phase>, items: seq<Item>): Annals {
    a.(clerk := Watching(seen), listing := items)
  }

  lemma ListingLegal(cal: Calendar, st: Store, s: string, seen: Option<Phase>, items: seq<Item>)
    requires AnnalsOf(st, s).clerk.Reading? && NewestIs(st, s, seen) && Lists(items, st.snaps)
    ensures Legal(cal, st, PlanTo(s, PlanOf(st, s).(annals := Listed(AnnalsOf(st, s), seen, items))))
  {
    assert PlanLists(st, s, PlanOf(st, s).(annals := Listed(AnnalsOf(st, s), seen, items)));
  }

  lemma RecordingLegal(cal: Calendar, st: Store, s: string, c: Cron, seen: Option<Phase>, p: Plan)
    requires s in st.scheds && AnnalsOf(st, s).clerk == Watching(seen)
    requires cal.parse(st.scheds[s].spec.cron) == Some(c) && Due(c, st.scheds[s], st.clock)
    requires p == Plan(Some(st.scheds[s].(last := Some(Trunc(st.clock)), version := st.scheds[s].version + 1)),
                       Recorded(AnnalsOf(st, s), FireOf(c, st.scheds[s], st.clock), seen))
    ensures Legal(cal, st, PlanTo(s, p))
  {
    assert PlanRecords(cal, st.clock, PlanOf(st, s), p, st.clock);
  }

  /** Reads and lists. */
  lemma ListRound(cal: Calendar, h: seq<Store>, s: string, seen: Option<Phase>)
    returns (h': seq<Store>, a: Annals)
    requires History(cal, h) && s in h[|h| - 1].scheds && AnnalsOf(h[|h| - 1], s).clerk.Resting?
    requires NewestIs(h[|h| - 1], s, seen)
    ensures History(cal, h') && SameObjects(h[|h| - 1], h'[|h'| - 1])
    ensures PlanOf(h'[|h'| - 1], s) == Plan(PlanOf(h[|h| - 1], s).sched, a)
    ensures a == AnnalsOf(h[|h| - 1], s).(clerk := Watching(seen), listing := a.listing, keep := a.keep)
  {
    var p := PlanOf(h[|h| - 1], s);
    var read := p.annals.(clerk := Reading, keep := p.sched.value.spec.retention);
    var items := AnyListing(h[|h| - 1].snaps);
    h' := PlanMoves(cal, h, s, p.(annals := read));
    a := Listed(read, seen, items);
    ListingLegal(cal, h'[|h'| - 1], s, seen, items);
    h' := PlanMoves(cal, h', s, p.(annals := a));
  }

  /** And records. */
  lemma RecordRound(cal: Calendar, h: seq<Store>, s: string, c: Cron, seen: Option<Phase>)
    returns (h': seq<Store>, a: Annals)
    requires History(cal, h) && Ripe(cal, h[|h| - 1], s, c, seen)
    ensures History(cal, h')
    ensures var (st, st') := (h[|h| - 1], h'[|h'| - 1]);
            var sched := st.scheds[s];
            && SameObjects(st, st')
            && a.newest == AnnalsOf(st, s).newest
            && PlanOf(st', s) == Plan(Some(sched.(last := Some(Trunc(st.clock)), version := sched.version + 1)),
                                      Recorded(a, FireOf(c, sched, st.clock), seen))
  {
    var st := h[|h| - 1];
    h', a := ListRound(cal, h, s, seen);
    var p := Plan(Some(st.scheds[s].(last := Some(Trunc(st.clock)), version := st.scheds[s].version + 1)),
                  Recorded(a, FireOf(c, st.scheds[s], st.clock), seen));
    RecordingLegal(cal, h'[|h'| - 1], s, c, seen, p);
    h' := PlanMoves(cal, h', s, p);
  }

  lemma BirthMoves(cal: Calendar, h: seq<Store>, s: string, n: string, snap: Snapshot) returns (h': seq<Store>)
    requires History(cal, h) && HatchLegal(cal, h[|h| - 1], s, n, snap)
    ensures History(cal, h')
    ensures var (st, st') := (h[|h| - 1], h'[|h'| - 1]);
            && st'.snaps == st.snaps[n := snap] && st'.clock == st.clock
            && (forall m | m != n :: LaneOf(st', m) == LaneOf(st, m))
            && PlanOf(st', s) == PlanOf(st, s).(annals := Activations.AfterHatch(AnnalsOf(st, s), n, snap.stamp))
  {
    var st := h[|h| - 1];
    HistoryGrows(cal, h, Hatch(s, n, snap));
    h' := h + [Hatched(st, s, n, snap)];
    HatchChildren(cal, st, s, n, snap, s);
    Activations.HatchPlans(cal, st, s, n, snap, s);
    forall m | m != n ensures LaneOf(h'[|h'| - 1], m) == LaneOf(st, m) {
      PutLaneFrame(st, n, Newborn(snap), m);
    }
  }

  /** Whenever a schedule is ripe and its newest child shows no phase, or there is none, another can be made. */
  lemma BirthRound(cal: Calendar, h: seq<Store>, s: string, c: Cron, seen: Option<Phase>) returns (h': seq<Store>)
    requires History(cal, h) && Ripe(cal, h[|h| - 1], s, c, seen) && (seen == None || seen == Some(Empty))
    ensures History(cal, h')
    ensures var (st, st') := (h[|h| - 1], h'[|h'| - 1]);
            var (n, sched) := (ChildName(cal, s, st.clock), st.scheds[s]);
            && st'.snaps == st.snaps[n := Child(s, sched.spec.snapshot, st.clock)]
            && (forall m | m != n :: LaneOf(st', m) == LaneOf(st, m))
            && st'.clock == st.clock
            && PlanOf(st', s).sched == Some(sched.(last := Some(Trunc(st.clock)), version := sched.version + 1))
            && AnnalsOf(st', s).clerk.Resting? && AnnalsOf(st', s).newest == Some(st.clock)
  {
    var st := h[|h| - 1];
    var a;
    h', a := RecordRound(cal, h, s, c, seen);
    var st1 := h'[|h'| - 1];
    var n := ChildName(cal, s, st.clock);
    assert LaneOf(st1, n) == LaneOf(st, n);
    assert AnnalsOf(st1, s).clerk == Firing(FireOf(c, st.scheds[s], st.clock), seen);
    assert seen == None ==> NewestQuiet(st1, s);
    h' := BirthMoves(cal, h', s, n, Child(s, st.scheds[s].spec.snapshot, st.clock));
    var st2 := h'[|h'| - 1];
    h' := PlanMoves(cal, h', s, PlanOf(st2, s).WithClerk(Resting));
    forall m | m != n ensures LaneOf(h'[|h'| - 1], m) == LaneOf(st, m) {
      assert LaneOf(st2, m) == LaneOf(st1, m);
    }
  }

  const EVERY_MINUTE := Cron(t => t - t % MINUTE + MINUTE)

  /** Every text means every minute, and the names of the first two minutes differ. */
  const CALENDAR := Calendar(text => Some(EVERY_MINUTE), t => if t < 2 * MINUTE then "1" else "2")

  /** A schedule created at time 0, when its first minute has come. */
  lemma FirstMinute(s: string) returns (h: seq<Store>)
    ensures History(CALENDAR, h)
    ensures var st := h[|h| - 1];
            && st.snaps == map[] && (forall n :: LaneOf(st, n) == VOID)
            && st.clock == MINUTE && s in st.scheds && LastOf(st.scheds[s]) == 0
            && AnnalsOf(st, s) == BLANK.(born := true)
  {
    var sched := Schedule(ScheduleSpec("* * * * *", 7, SnapshotSpec("db", None, 5)), 0, None, Empty, 0);
    var p := Plan(Some(sched), BLANK.(born := true));
    assert PlanOf(EMPTY_STORE, s) == Plan(None, BLANK);
    assert ScheduleBorn(PlanOf(EMPTY_STORE, s), p);
    HistoryGrows(CALENDAR, [EMPTY_STORE], PlanTo(s, p));
    var st1 := Apply(CALENDAR, EMPTY_STORE, PlanTo(s, p));
    assert PlanOf(st1, s) == p;
    HistoryGrows(CALENDAR, [EMPTY_STORE] + [st1], ClockTo(MINUTE));
    h := [EMPTY_STORE] + [st1] + [Apply(CALENDAR, st1, ClockTo(MINUTE))];
  }

  lemma NamesDiffer(s: string)
    ensures ChildName(CALENDAR, s, MINUTE) != ChildName(CALENDAR, s, 2 * MINUTE)
  {
    assert Trunc(MINUTE) == MINUTE && Trunc(2 * MINUTE) == 2 * MINUTE;
    var (a, b) := (ChildName(CALENDAR, s, MINUTE), ChildName(CALENDAR, s, 2 * MINUTE));
    assert a[|s| + 1] == '1' && b[|s| + 1] == '2';
  }

  /** A minute later, with the first snapshot not yet picked up. */
  lemma SecondMinute(s: string) returns (h: seq<Store>)
    ensures LawfulCalendar(CALENDAR) && History(CALENDAR, h)
    ensures var (st, n) := (h[|h| - 1], ChildName(CALENDAR, s, MINUTE));
            && ChildOf(st, n, s) && st.snaps[n].phase == Empty
            && Ripe(CALENDAR, st, s, EVERY_MINUTE, Some(Empty)) && st.clock == 2 * MINUTE
  {
    EveryMinuteIsLawful();
    NamesDiffer(s);
    var h0 := FirstMinute(s);
    var h1 := BirthRound(CALENDAR, h0, s, EVERY_MINUTE, None);
    var st := h1[|h1| - 1];
    var n := ChildName(CALENDAR, s, MINUTE);
    HistoryGrows(CALENDAR, h1, ClockTo(2 * MINUTE));
    var st' := Apply(CALENDAR, st, ClockTo(2 * MINUTE));
    h := h1 + [st'];
    assert ChildOf(st', n, s) && forall m :: ChildOf(st', m, s) ==> m == n;
    assert NewestIs(st', s, Some(Empty));
    assert LaneOf(st', ChildName(CALENDAR, s, 2 * MINUTE)) == LaneOf(h0[|h0| - 1], ChildName(CALENDAR, s, 2 * MINUTE));
  }

  /** A history that ends with two unfinished snapshots of one schedule. */
  lemma TwoInFlight(s: string) returns (h: seq<Store>, n: string, m: string)
    ensures LawfulCalendar(CALENDAR) && History(CALENDAR, h)
    ensures var st := h[|h| - 1];
            && n != m && ChildOf(st, n, s) && ChildOf(st, m, s)
            && !st.snaps[n].phase.Complete() && !st.snaps[m].phase.Complete()
  {
    n, m := ChildName(CALENDAR, s, MINUTE), ChildName(CALENDAR, s, 2 * MINUTE);
    NamesDiffer(s);
    var h1 := SecondMinute(s);
    h := BirthRound(CALENDAR, h1, s, EVERY_MINUTE, Some(Empty));
  }
}
