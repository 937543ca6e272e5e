/** Theorems about the activations a schedule records and the snapshots it makes to answer them. */
module Activations {
  import opened Base
  import opened Kinds
  import opened Crontab
  import opened Planning
  import opened Cluster

  // ---------------------------------------------------------------- what one plan remembers

  /** The activation answers a tick of the cron text it was due by, which had come. */
  predicate Timely(cal: Calendar, f: Fire) {
    && cal.parse(f.cron).Some?
    && IsTick(cal.parse(f.cron).value, f.tick)
    && f.tick <= Trunc(f.at)
  }

  predicate FiresInOrder(cal: Calendar, fires: seq<Fire>, clock: int) {
    && (forall i | 0 <= i < |fires| :: Timely(cal, fires[i]) && fires[i].at <= clock)
    && (forall i, j | 0 <= i < j < |fires| :: Trunc(fires[i].at) < fires[j].tick)
  }

  /** No two snapshots answer the same tick. */
  predicate OneEachTick(made: map<string, Fire>) {
    forall n, m | n in made && m in made && n != m :: made[n].tick != made[m].tick
  }

  predicate Answers(made: map<string, Fire>, fires: seq<Fire>) {
    forall n | n in made :: made[n] in fires
  }

  /** The persisted time is that of the last activation, and all of them came after the creation. */
  predicate Dated(s: Schedule, fires: seq<Fire>) {
    && s.last == (if fires == [] then None else Some(Trunc(fires[|fires| - 1].at)))
    && (forall i | 0 <= i < |fires| :: s.stamp < fires[i].tick)
  }

  /** The activation being answered is the last one, and no snapshot answers it yet. */
  predicate Open(a: Annals) {
    a.clerk.Firing? ==>
      && a.fires != []
      && a.fires[|a.fires| - 1] == a.clerk.fire
      && forall n | n in a.made :: a.made[n].tick != a.clerk.fire.tick
  }

  predicate Punctual(cal: Calendar, p: Plan, clock: int) {
    && (!p.annals.born ==> p == Plan(None, BLANK))
    && FiresInOrder(cal, p.annals.fires, clock)
    && OneEachTick(p.annals.made)
    && Answers(p.annals.made, p.annals.fires)
    && Open(p.annals)
    && (p.sched.Some? ==> Dated(p.sched.value, p.annals.fires))
  }

  // ---------------------------------------------------------------- one lemma per kind of step

  predicate Recording(cal: Calendar, clock: int, p: Plan, p': Plan) {
    p'.annals.clerk.Firing? && PlanRecords(cal, clock, p, p', p'.annals.clerk.fire.at)
  }

  /** Apart from recording an activation, nothing a plan does alone touches what was recorded. */
  predicate SameRecord(p: Plan, p': Plan) {
    && p'.annals == p.annals.(born := true, clerk := p'.annals.clerk, listing := p'.annals.listing,
                              keep := p'.annals.keep)
    && (p'.annals.clerk.Firing? ==> p'.annals.clerk == p.annals.clerk)
    && (p'.sched.Some? ==>
          if p.sched.Some?
          then p'.sched.value.last == p.sched.value.last && p'.sched.value.stamp == p.sched.value.stamp
          else p.annals == BLANK && p'.sched.value.last.None?)
  }

  lemma OtherwiseSameRecord(cal: Calendar, st: Store, s: string, p': Plan)
    requires PlanEnv(PlanOf(st, s), p') || PlanWork(cal, st, s, p')
    requires PlanOf(st, s).annals.born || PlanOf(st, s) == Plan(None, BLANK)
    ensures Recording(cal, st.clock, PlanOf(st, s), p') || SameRecord(PlanOf(st, s), p')
  {
  }

  lemma RecordIsTimely(cal: Calendar, clock: int, p: Plan, p': Plan, at: int) returns (f: Fire)
    requires LawfulCalendar(cal) && PlanRecords(cal, clock, p, p', at)
    ensures f.at == at && f.cron == p.sched.value.spec.cron
    ensures p'.annals == p.annals.(clerk := Firing(f, p.annals.clerk.seen), fires := p.annals.fires + [f])
    ensures LastOf(p.sched.value) < f.tick && Timely(cal, f)
  {
    f := p'.annals.clerk.fire;
    assert IsTick(cal.parse(f.cron).value, f.tick);
    MinuteReached(f.tick, at);
  }

  lemma FiresStayInOrder(cal: Calendar, fires: seq<Fire>, f: Fire, clock: int)
    requires FiresInOrder(cal, fires, clock) && Timely(cal, f) && f.at <= clock
    requires fires != [] ==> Trunc(fires[|fires| - 1].at) < f.tick
    ensures FiresInOrder(cal, fires + [f], clock)
    ensures forall g | g in fires :: g.tick < f.tick
  {
    forall g | g in fires ensures g.tick < f.tick {
      var i :| 0 <= i < |fires| && fires[i] == g;
      assert (fires + [f])[i] == g;
      if i < |fires| - 1 {
        assert fires[|fires| - 1].tick <= Trunc(fires[|fires| - 1].at);
      }
    }
  }

  /** No snapshot answers the new activation, as all they answer came before it. */
  lemma NewFireIsOpen(a: Annals, f: Fire, seen: Option<Phase>)
    requires Answers(a.made, a.fires) && forall g | g in a.fires :: g.tick < f.tick
    ensures Answers(a.made, a.fires + [f])
    ensures Open(a.(clerk := Firing(f, seen), fires := a.fires + [f]))
  {
  }

  lemma NewFireDates(s: Schedule, fires: seq<Fire>, f: Fire, version: nat)
    requires Dated(s, fires) && LastOf(s) < f.tick && forall g | g in fires :: g.tick < f.tick
    ensures Dated(s.(last := Some(Trunc(f.at)), version := version), fires + [f])
  {
    if fires != [] {
      assert fires[0] in fires;
    }
  }

  lemma RecordKeeps(cal: Calendar, clock: int, p: Plan, p': Plan, at: int)
    requires LawfulCalendar(cal) && Punctual(cal, p, clock) && PlanRecords(cal, clock, p, p', at)
    ensures Punctual(cal, p', clock)
  {
    var f := RecordIsTimely(cal, clock, p, p', at);
    FiresStayInOrder(cal, p.annals.fires, f, clock);
    NewFireIsOpen(p.annals, f, p.annals.clerk.seen);
    NewFireDates(p.sched.value, p.annals.fires, f, p'.sched.value.version);
  }

  lemma SameRecordKeeps(cal: Calendar, p: Plan, p': Plan, clock: int)
    requires Punctual(cal, p, clock) && SameRecord(p, p')
    ensures Punctual(cal, p', clock)
  {
  }

  lemma PlanKeepsPunctual(cal: Calendar, st: Store, s: string, p: Plan, p': Plan)
    requires LawfulCalendar(cal) && p == PlanOf(st, s) && Punctual(cal, p, st.clock)
    requires PlanEnv(p, p') || PlanWork(cal, st, s, p')
    ensures Punctual(cal, p', st.clock)
  {
    OtherwiseSameRecord(cal, st, s, p');
    if Recording(cal, st.clock, p, p') {
      RecordKeeps(cal, st.clock, p, p', p'.annals.clerk.fire.at);
    } else {
      SameRecordKeeps(cal, p, p', st.clock);
    }
  }

  function AfterHatch(a: Annals, n: string, stamp: int): Annals
    requires a.clerk.Firing?
  {
    a.(clerk := Watching(a.clerk.seen), made := a.made[n := a.clerk.fire], newest := Some(stamp))
  }

  lemma HatchKeepsPunctual(cal: Calendar, p: Plan, clock: int, n: string, stamp: int)
    requires Punctual(cal, p, clock) && p.annals.clerk.Firing?
    ensures Punctual(cal, p.(annals := AfterHatch(p.annals, n, stamp)), clock)
  {
    assert p.annals.clerk.fire in p.annals.fires;
  }

  lemma HatchPlans(cal: Calendar, st: Store, t: string, n: string, snap: Snapshot, s: string)
    requires HatchLegal(cal, st, t, n, snap)
    ensures PlanOf(Hatched(st, t, n, snap), s) ==
              if s == t then PlanOf(st, s).(annals := AfterHatch(AnnalsOf(st, s), n, snap.stamp)) else PlanOf(st, s)
  {
  }

  /** Later is no worse. */
  lemma ClockKeepsPunctual(cal: Calendar, p: Plan, clock: int, clock': int)
    requires Punctual(cal, p, clock) && clock <= clock'
    ensures Punctual(cal, p, clock')
  {
  }

  lemma PunctualStep(cal: Calendar, st: Store, m: Move, s: string)
    requires LawfulCalendar(cal) && Legal(cal, st, m) && Punctual(cal, PlanOf(st, s), st.clock)
    ensures Punctual(cal, PlanOf(Apply(cal, st, m), s), Apply(cal, st, m).clock)
  {
    match m
    case PlanTo(t, p) =>
      if t == s {
        PlanKeepsPunctual(cal, st, s, PlanOf(st, s), p);
      }
    case Hatch(t, n, snap) =>
      HatchPlans(cal, st, t, n, snap, s);
      if t == s {
        HatchKeepsPunctual(cal, PlanOf(st, s), st.clock, n, snap.stamp);
      }
    case ClockTo(t) => ClockKeepsPunctual(cal, PlanOf(st, s), st.clock, t);
    case _ => assert PlanOf(Apply(cal, st, m), s) == PlanOf(st, s);
  }

  lemma {:induction false} PunctualHolds(cal: Calendar, h: seq<Store>, i: nat, s: string)
    requires LawfulCalendar(cal) && History(cal, h) && i < |h|
    ensures Punctual(cal, PlanOf(h[i], s), h[i].clock)
  {
    if i > 0 {
      PunctualHolds(cal, h, i - 1, s);
      assert Next(cal, h[i - 1], h[i]);
      var m: Move :| Legal(cal, h[i - 1], m) && h[i] == Apply(cal, h[i - 1], m);
      PunctualStep(cal, h[i - 1], m, s);
    }
  }

  // ---------------------------------------------------------------- which snapshots there are

  /** Every child is remembered with the activation its name was made from; no remembered name is free. */
  predicate Registered(cal: Calendar, st: Store, s: string) {
    && (forall n | n in st.snaps && ChildOf(st, n, s) :: n in AnnalsOf(st, s).made)
    && (forall n | n in AnnalsOf(st, s).made ::
          PastOf(st, n).born && n == ChildName(cal, s, AnnalsOf(st, s).made[n].at))
  }

  /** A move that makes no snapshot adopts none, forgets none, and frees no name. */
  lemma OthersKeepRegistered(cal: Calendar, st: Store, st': Store, s: string)
    requires Registered(cal, st, s) && AnnalsOf(st', s).made == AnnalsOf(st, s).made
    requires forall n | ChildOf(st', n, s) :: ChildOf(st, n, s)
    requires forall n {:trigger LaneOf(st', n)} :: Grown(LaneOf(st, n), LaneOf(st', n))
    ensures Registered(cal, st', s)
  {
    forall n | n in AnnalsOf(st', s).made ensures PastOf(st', n).born {
      assert Grown(LaneOf(st, n), LaneOf(st', n));
    }
  }

  lemma HatchKeepsRegistered(cal: Calendar, st: Store, n: string, snap: Snapshot, s: string)
    requires Registered(cal, st, s) && HatchLegal(cal, st, s, n, snap)
    ensures Registered(cal, Hatched(st, s, n, snap), s)
  {
    var st' := Hatched(st, s, n, snap);
    HatchPlans(cal, st, s, n, snap, s);
    assert st'.snaps == st.snaps[n := snap];
    forall m | m in AnnalsOf(st', s).made ensures PastOf(st', m).born {
      ForeignGrows(cal, st, Hatch(s, n, snap), m);
    }
  }

  /** Only making a snapshot for `s` changes what `s` remembers having made. */
  lemma MadeKept(cal: Calendar, st: Store, m: Move, s: string)
    requires Legal(cal, st, m) && !(m.Hatch? && m.sched == s)
    requires PlanOf(st, s).annals.born || PlanOf(st, s) == Plan(None, BLANK)
    ensures AnnalsOf(Apply(cal, st, m), s).made == AnnalsOf(st, s).made
  {
    match m
    case PlanTo(t, p) =>
      if t == s {
        OtherwiseSameRecord(cal, st, s, p);
      }
    case Hatch(t, n, snap) => HatchPlans(cal, st, t, n, snap, s);
    case _ =>
  }

  lemma AdoptsNone(cal: Calendar, st: Store, m: Move, s: string, n: string)
    requires Legal(cal, st, m) && !(m.Hatch? && m.sched == s) && ChildOf(Apply(cal, st, m), n, s)
    ensures ChildOf(st, n, s)
  {
    assert Look(Apply(cal, st, m).snaps, n).Some?;
    match m
    case LaneTo(k, l) => OwnerKept(LaneOf(st, k), l, st.facts);
    case _ =>
  }

  lemma RegisteredStep(cal: Calendar, st: Store, m: Move, s: string)
    requires Legal(cal, st, m) && Registered(cal, st, s)
    requires PlanOf(st, s).annals.born || PlanOf(st, s) == Plan(None, BLANK)
    ensures Registered(cal, Apply(cal, st, m), s)
  {
    var st' := Apply(cal, st, m);
    if m.Hatch? && m.sched == s {
      HatchKeepsRegistered(cal, st, m.name, m.snap, s);
    } else {
      MadeKept(cal, st, m, s);
      forall n ensures Grown(LaneOf(st, n), LaneOf(st', n)) {
        ForeignGrows(cal, st, m, n);
      }
      forall n | ChildOf(st', n, s) ensures ChildOf(st, n, s) {
        AdoptsNone(cal, st, m, s, n);
      }
      OthersKeepRegistered(cal, st, st', s);
    }
  }

  lemma RegisteredNext(cal: Calendar, st: Store, st': Store, s: string)
    requires Next(cal, st, st') && Registered(cal, st, s) && Punctual(cal, PlanOf(st, s), st.clock)
    ensures Registered(cal, st', s)
  {
    var m: Move :| Legal(cal, st, m) && st' == Apply(cal, st, m);
    RegisteredStep(cal, st, m, s);
  }

  lemma {:induction false} RegisteredHolds(cal: Calendar, h: seq<Store>, i: nat, s: string)
    requires LawfulCalendar(cal) && History(cal, h) && i < |h|
    ensures Registered(cal, h[i], s)
  {
    if i > 0 {
      RegisteredHolds(cal, h, i - 1, s);
      PunctualHolds(cal, h, i - 1, s);
      assert Next(cal, h[i - 1], h[i]);
      RegisteredNext(cal, h[i - 1], h[i], s);
    }
  }

  // ---------------------------------------------------------------- at most once per tick

  /**
   The snapshots a schedule has ever made, deleted ones included, inject into cron ticks: each answers a
   tick of the cron text it was due by, after the schedule's creation and not in the future, and no two
   answer the same tick. Every child there is, is one of them, under the name made from its activation.
   */
  lemma AtMostOncePerTick(cal: Calendar, h: seq<Store>, i: nat, s: string)
    requires LawfulCalendar(cal) && History(cal, h) && i < |h|
    ensures var made := AnnalsOf(h[i], s).made;
            && (forall n, m | n in made && m in made && n != m :: made[n].tick != made[m].tick)
            && (forall n | n in made ::
                  && Timely(cal, made[n])
                  && made[n].at <= h[i].clock
                  && n == ChildName(cal, s, made[n].at)
                  && (s in h[i].scheds ==> h[i].scheds[s].stamp < made[n].tick))
            && (forall n | n in h[i].snaps && ChildOf(h[i], n, s) :: n in made)
  {
    PunctualHolds(cal, h, i, s);
    RegisteredHolds(cal, h, i, s);
    var a := AnnalsOf(h[i], s);
    forall n | n in a.made
      ensures Timely(cal, a.made[n]) && a.made[n].at <= h[i].clock
      ensures s in h[i].scheds ==> h[i].scheds[s].stamp < a.made[n].tick
    {
      assert a.made[n] in a.fires;
      var k :| 0 <= k < |a.fires| && a.fires[k] == a.made[n];
    }
  }

  lemma FireStep(cal: Calendar, st: Store, m: Move, s: string) returns (f: Fire)
    requires LawfulCalendar(cal) && Legal(cal, st, m)
    requires PlanOf(st, s).annals.born || PlanOf(st, s) == Plan(None, BLANK)
    requires AnnalsOf(Apply(cal, st, m), s).fires != AnnalsOf(st, s).fires
    ensures s in st.scheds && f.cron == st.scheds[s].spec.cron
    ensures AnnalsOf(Apply(cal, st, m), s).fires == AnnalsOf(st, s).fires + [f]
  {
    match m
    case PlanTo(t, p) =>
      assert t == s;
      OtherwiseSameRecord(cal, st, s, p);
      f := RecordIsTimely(cal, st.clock, PlanOf(st, s), p, p.annals.clerk.fire.at);
    case Hatch(t, n, snap) =>
      HatchPlans(cal, st, t, n, snap, s);
      assert false;
    case _ => assert false;
  }

  /** The text an activation is due by is the one stored when it is recorded. */
  lemma DueByStored(cal: Calendar, st: Store, st': Store, s: string) returns (f: Fire)
    requires LawfulCalendar(cal) && Next(cal, st, st') && Punctual(cal, PlanOf(st, s), st.clock)
    requires AnnalsOf(st', s).fires != AnnalsOf(st, s).fires
    ensures s in st.scheds && f.cron == st.scheds[s].spec.cron
    ensures AnnalsOf(st', s).fires == AnnalsOf(st, s).fires + [f]
  {
    var m: Move :| Legal(cal, st, m) && st' == Apply(cal, st, m);
    f := FireStep(cal, st, m, s);
  }

  /** The cron text of `s` was `text` whenever the schedule was there. */
  predicate Unedited(h: seq<Store>, s: string, text: string) {
    forall i | 0 <= i < |h| && s in h[i].scheds :: h[i].scheds[s].spec.cron == text
  }

  predicate DueBy(fires: seq<Fire>, text: string) {
    forall f | f in fires :: f.cron == text
  }

  /** One activation has been added, due by the text of the schedule as it was stored. */
  predicate NewFireIs(a: Annals, a': Annals, sched: Option<Schedule>) {
    && a'.fires != []
    && var f := a'.fires[|a'.fires| - 1];
    a'.fires == a.fires + [f] && sched.Some? && f.cron == sched.value.spec.cron
  }

  /** Over any history, a new activation is due by the text stored when it was recorded. */
  lemma DueByNext(cal: Calendar, h: seq<Store>, i: nat, s: string)
    requires LawfulCalendar(cal) && History(cal, h) && i < |h| - 1
    ensures || AnnalsOf(h[i + 1], s).fires == AnnalsOf(h[i], s).fires
            || NewFireIs(AnnalsOf(h[i], s), AnnalsOf(h[i + 1], s), Look(h[i].scheds, s))
  {
    PunctualHolds(cal, h, i, s);
    assert Next(cal, h[i], h[i + 1]);
    if AnnalsOf(h[i + 1], s).fires != AnnalsOf(h[i], s).fires {
      var _ := DueByStored(cal, h[i], h[i + 1], s);
    }
  }

  lemma {:induction false} DueByHolds(cal: Calendar, h: seq<Store>, i: nat, s: string, text: string)
    requires LawfulCalendar(cal) && History(cal, h) && i < |h| && Unedited(h, s, text)
    ensures DueBy(AnnalsOf(h[i], s).fires, text)
  {
    if i > 0 {
      DueByHolds(cal, h, i - 1, s, text);
      DueByNext(cal, h, i - 1, s);
    }
  }

  /** While a schedule's cron text is not edited, every activation answers a tick of that very text. */
  lemma OwnTicks(cal: Calendar, h: seq<Store>, i: nat, s: string, text: string)
    requires LawfulCalendar(cal) && History(cal, h) && i < |h| && Unedited(h, s, text)
    ensures forall f | f in AnnalsOf(h[i], s).fires ::
              f.cron == text && cal.parse(text).Some? && IsTick(cal.parse(text).value, f.tick)
  {
    DueByHolds(cal, h, i, s, text);
    PunctualHolds(cal, h, i, s);
  }

  /** So the snapshots it has made inject into the ticks of its own schedule. */
  lemma OwnTicksAnswered(cal: Calendar, h: seq<Store>, i: nat, s: string, text: string, n: string)
    requires LawfulCalendar(cal) && History(cal, h) && i < |h| && Unedited(h, s, text)
    requires n in h[i].snaps && ChildOf(h[i], n, s)
    ensures var made := AnnalsOf(h[i], s).made;
            && n in made && cal.parse(text).Some?
            && IsTick(cal.parse(text).value, made[n].tick)
            && forall m | m in made && m != n :: made[m].tick != made[n].tick
  {
    AtMostOncePerTick(cal, h, i, s);
    PunctualHolds(cal, h, i, s);
    OwnTicks(cal, h, i, s, text);
    assert AnnalsOf(h[i], s).made[n] in AnnalsOf(h[i], s).fires;
  }

  /** Each recorded activation moves the persisted time strictly forward, past every tick missed. */
  lemma RecordAdvances(cal: Calendar, h: seq<Store>, i: nat, s: string, p': Plan, at: int)
    requires LawfulCalendar(cal) && History(cal, h) && i < |h|
    requires PlanRecords(cal, h[i].clock, PlanOf(h[i], s), p', at)
    ensures LastOf(h[i].scheds[s]) < LastOf(p'.sched.value)
    ensures at < cal.parse(h[i].scheds[s].spec.cron).value.next(LastOf(p'.sched.value))
  {
    var sched := h[i].scheds[s];
    var c := cal.parse(sched.spec.cron).value;
    MinuteReached(c.next(LastOf(sched)), at);
    TruncKeepsNext(c, at);
  }
}
