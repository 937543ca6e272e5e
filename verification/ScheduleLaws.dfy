/**
 What one undisturbed reconcile of a schedule does, told from the store before and after it, with every
 constant written out and no reference to how the children were listed and sorted.
 */
module ScheduleLaws {
  import opened Base
  import opened Kinds
  import opened Crontab
  import opened Lifecycle
  import opened Planning
  import opened Cluster
  import opened Retention
  import opened Api
  import opened ScheduleController
  import opened ClusterSafety
  import opened Wakeups
  import Activations

  // ---------------------------------------------------------------- names

  /** A child is named after its schedule and the second it was due in. */
  lemma ChildNameText(cal: Calendar, s: string, at: int)
    ensures ChildName(cal, s, at) == s + "-" + cal.format(at - at % 1_000_000_000)
  {
  }

  /** With times written at equal length, equal names mean the same schedule and the same written time. */
  lemma ChildNamesApart(cal: Calendar, a: string, t: int, b: string, u: int)
    requires |cal.format(Trunc(t))| == |cal.format(Trunc(u))|
    requires ChildName(cal, a, t) == ChildName(cal, b, u)
    ensures a == b && cal.format(Trunc(t)) == cal.format(Trunc(u))
  {
    var (x, y) := (ChildName(cal, a, t), ChildName(cal, b, u));
    assert x == a + ("-" + cal.format(Trunc(t))) && y == b + ("-" + cal.format(Trunc(u)));
    assert |a| == |b|;
    assert a == x[..|a|] && b == y[..|b|];
    assert cal.format(Trunc(t)) == x[|a| + 1..] && cal.format(Trunc(u)) == y[|b| + 1..];
  }

  /** The formatter writes every time at the same length. */
  ghost predicate FixedLength(cal: Calendar) {
    forall t, u :: |cal.format(t)| == |cal.format(u)|
  }

  /** Over all histories, no schedule ever makes a snapshot under a name another one has used or would use. */
  lemma NoNameShared(cal: Calendar, h: seq<Store>, i: nat, a: string, b: string, n: string, at: int)
    requires LawfulCalendar(cal) && FixedLength(cal) && History(cal, h) && i < |h|
    requires n in AnnalsOf(h[i], a).made && (n in AnnalsOf(h[i], b).made || n == ChildName(cal, b, at))
    ensures a == b
  {
    Activations.RegisteredHolds(cal, h, i, a);
    Activations.RegisteredHolds(cal, h, i, b);
    var t := AnnalsOf(h[i], a).made[n].at;
    var u := if n in AnnalsOf(h[i], b).made then AnnalsOf(h[i], b).made[n].at else at;
    ChildNamesApart(cal, a, t, b, u);
  }

  /** A name `b` has not used is not taken by any schedule either, so two due at one instant both find theirs free. */
  lemma NameLeftFree(cal: Calendar, h: seq<Store>, i: nat, a: string, b: string, at: int)
    requires LawfulCalendar(cal) && FixedLength(cal) && History(cal, h) && i < |h|
    requires ChildName(cal, b, at) !in AnnalsOf(h[i], b).made
    ensures ChildName(cal, b, at) !in AnnalsOf(h[i], a).made && !ChildOf(h[i], ChildName(cal, b, at), a)
  {
    var n := ChildName(cal, b, at);
    Activations.RegisteredHolds(cal, h, i, a);
    if n in AnnalsOf(h[i], a).made {
      NoNameShared(cal, h, i, a, b, n, at);
    }
  }

  // ---------------------------------------------------------------- when a child is made

  /** The schedule `c` is due at `t`: it is the first activation after the instant before. */
  predicate Falls(c: Cron, t: int) {
    c.next(t - 1) == t
  }

  /** A tick of `c` has come since the last activation, or since the creation if there was none. */
  ghost predicate TickCame(c: Cron, p: Schedule, now: int) {
    exists t :: (if p.last.Some? then p.last.value else p.stamp) < t <= now && Falls(c, t)
  }

  /** `m` is the newest child of `s`. */
  predicate Newest(st: Store, s: string, m: string) {
    ChildOf(st, m, s) && forall k | k in st.snaps && ChildOf(st, k, s) :: st.snaps[k].stamp <= st.snaps[m].stamp
  }

  /** There is no child, or the newest is in no phase yet, has succeeded, or has failed. */
  predicate GateOpen(st: Store, s: string) {
    forall m | m in st.snaps && Newest(st, s, m) ::
      st.snaps[m].phase == Empty || st.snaps[m].phase == Succeeded || st.snaps[m].phase == Failed
  }

  lemma FirstIsNewest(st: Store, s: string, kids: seq<Item>)
    requires Children(st, s, kids) && Family(st, s)
    ensures kids == [] ==> forall m :: !ChildOf(st, m, s)
    ensures kids != [] ==>
              && Newest(st, s, kids[0].name) && st.snaps[kids[0].name] == kids[0].snap
              && forall m | Newest(st, s, m) :: m == kids[0].name
  {
    if kids != [] {
      assert ChildOf(st, kids[0].name, s);
      forall k | k in st.snaps && ChildOf(st, k, s) ensures st.snaps[k].stamp <= kids[0].snap.stamp {
        assert k in Names(kids);
        var x :| x in kids && x.name == k;
        var i :| 0 <= i < |kids| && kids[i] == x;
      }
    }
  }

  lemma GateIsOpen(st: Store, s: string, kids: seq<Item>)
    requires Children(st, s, kids) && Family(st, s)
    ensures Gate(kids) <==> GateOpen(st, s)
  {
    FirstIsNewest(st, s, kids);
  }

  lemma DueMeansTick(c: Cron, p: Schedule, now: int)
    requires Lawful(c)
    ensures Due(c, p, now) <==> TickCame(c, p, now)
  {
    DueExact(c, p, now);
    if Due(c, p, now) {
      var t :| LastOf(p) < t <= now && IsTick(c, t);
      assert Falls(c, t);
    }
    if TickCame(c, p, now) {
      var t :| LastOf(p) < t <= now && Falls(c, t);
      assert IsTick(c, t);
    }
  }

  lemma NamedKids(st: Store, v: string -> Lane, s: string, kids: seq<Item>)
    requires Children(st, s, kids) && Reflects(v, st)
    ensures forall x | x in kids :: v(x.name).snap == Some(x.snap)
  {
    forall x | x in kids ensures v(x.name).snap == Some(x.snap) {
      assert v(x.name) == LaneOf(st, x.name);
    }
  }

  /**
   A child named for `now` comes into being exactly if a tick has come, the name is free, and there is no
   child or the newest one is in no phase, Succeeded or Failed. It is the schedule's, in no phase, with the
   schedule's snapshot spec.
   */
  lemma ChildMadeIff(cal: Calendar, st: Store, v: string -> Lane, st': Store, v': string -> Lane,
                     s: string, first: Schedule, kids: seq<Item>, c: Cron, now: int, requeue: Option<int>)
    requires Lawful(c) && cal.parse(first.spec.cron) == Some(c)
    requires Children(st, s, kids) && Family(st, s) && Reflects(v, st)
    requires Outcome(cal, st, v, st', v', s, Surveyed(first, kids), kids, now, requeue)
    ensures var n := s + "-" + cal.format(now - now % 1_000_000_000);
            && (v(n).snap.None? && v'(n).snap.Some? <==> TickCame(c, first, now) && v(n) == VOID && GateOpen(st, s))
            && (v(n).snap.None? && v'(n).snap.Some? ==>
                  var child := v'(n).snap.value;
                  && child.owner == Some(s) && child.spec == first.spec.snapshot && child.phase == Empty
                  && child.finalizers == {} && !child.deleting
                  && v'(n).pre.None? && v'(n).post.None? && v'(n).vol.None?)
  {
    ChildNameText(cal, s, now);
    DueMeansTick(c, first, now);
    GateIsOpen(st, s, kids);
    NamedKids(st, v, s, kids);
    var n := ChildName(cal, s, now);
    OnlySuccessesDoomed(kids, Defaulted(first.spec).retention);
    if n in Names(Doomed(kids, Defaulted(first.spec).retention)) {
      assert v(n).snap.Some?;
    }
  }

  // ---------------------------------------------------------------- what the schedule keeps

  /** The time recorded is the second of `now`, exactly if a tick has come; the retention set is 7 if none was. */
  lemma RecordedIff(cal: Calendar, st: Store, v: string -> Lane, st': Store, v': string -> Lane,
                    s: string, first: Schedule, kids: seq<Item>, c: Cron, now: int, requeue: Option<int>)
    requires Lawful(c) && cal.parse(first.spec.cron) == Some(c)
    requires Outcome(cal, st, v, st', v', s, Surveyed(first, kids), kids, now, requeue)
    ensures s in st'.scheds
    ensures var after := st'.scheds[s];
            && after.last == (if TickCame(c, first, now) then Some(now - now % 1_000_000_000) else first.last)
            && after.stamp == first.stamp
            && after.spec == first.spec.(retention := if first.spec.retention == 0 then 7 else first.spec.retention)
  {
    DueMeansTick(c, first, now);
  }

  /** The phase mirrored is the newest child's, or none if there is no child; also when the cron text is invalid. */
  lemma MirroredIsNewest(cal: Calendar, st: Store, v: string -> Lane, st': Store, v': string -> Lane,
                         s: string, first: Schedule, kids: seq<Item>, now: int, requeue: Option<int>)
    requires Children(st, s, kids) && Family(st, s)
    requires Outcome(cal, st, v, st', v', s, Surveyed(first, kids), kids, now, requeue)
    ensures s in st'.scheds
    ensures forall m | m in st.snaps && Newest(st, s, m) :: st'.scheds[s].mirror == st.snaps[m].phase
    ensures (forall m | m in st.snaps :: !ChildOf(st, m, s)) ==> st'.scheds[s].mirror == Empty
  {
    FirstIsNewest(st, s, kids);
    if kids != [] {
      assert ChildOf(st, kids[0].name, s);
    }
  }

  /** The next reconcile is asked for at the first tick after `now`; with an invalid text none is. */
  lemma AwakeAtNextTick(cal: Calendar, st: Store, v: string -> Lane, st': Store, v': string -> Lane,
                        s: string, first: Schedule, kids: seq<Item>, now: int, requeue: Option<int>)
    requires LawfulCalendar(cal)
    requires Outcome(cal, st, v, st', v', s, Surveyed(first, kids), kids, now, requeue)
    ensures requeue.Some? <==> cal.parse(first.spec.cron).Some?
    ensures requeue.Some? ==>
              var c := cal.parse(first.spec.cron).value;
              && requeue.value > 0 && Falls(c, now + requeue.value)
              && forall t | now < t < now + requeue.value :: !Falls(c, t)
  {
    if requeue.Some? {
      var c := cal.parse(first.spec.cron).value;
      assert IsTick(c, c.next(now));
      forall t | now < t < c.next(now) ensures !Falls(c, t) {
        assert IsTick(c, t) ==> c.next(now) <= t;
      }
    }
  }

  // ---------------------------------------------------------------- what is deleted

  /** The successful children of `s` created after its child `m`. */
  function YoungerSuccesses(st: Store, s: string, m: string): set<string>
    requires m in st.snaps
  {
    set k | k in st.snaps && ChildOf(st, k, s) && st.snaps[k].phase == Succeeded &&
            st.snaps[m].stamp < st.snaps[k].stamp
  }

  lemma YoungerBefore(st: Store, s: string, kids: seq<Item>, all: seq<Item>, j: nat, k: string)
    requires Children(st, s, kids) && all == Successes(kids) && Descending(all) && j < |all|
    requires forall x :: x in all <==> x in kids && x.snap.phase == Succeeded
    requires all[j].name in st.snaps && k in YoungerSuccesses(st, s, all[j].name)
    ensures k in Names(all[..j])
  {
    assert k in Names(kids);
    var y :| y in kids && y.name == k;
    assert all[j] in all;
    var i :| 0 <= i < |all| && all[i] == y;
    assert i < j;
    assert all[..j][i] == y;
  }

  lemma BeforeYounger(st: Store, s: string, kids: seq<Item>, all: seq<Item>, i: nat, j: nat)
    requires Children(st, s, kids) && Family(st, s) && Descending(all) && Distinct(all) && i < j < |all|
    requires forall x | x in all :: x in kids && x.snap.phase == Succeeded
    ensures all[j].name in st.snaps && all[i].name in YoungerSuccesses(st, s, all[j].name)
  {
    var (x, y) := (all[j], all[i]);
    assert y in all && x in all;
    assert ChildOf(st, y.name, s) && ChildOf(st, x.name, s) && y.name != x.name;
  }

  /** With distinct creation times, the younger successes of one are those sorted before it. */
  lemma YoungerCome(st: Store, s: string, kids: seq<Item>, j: nat)
    requires Children(st, s, kids) && Family(st, s) && j < |Successes(kids)|
    ensures var m := Successes(kids)[j].name; m in st.snaps && |YoungerSuccesses(st, s, m)| == j
  {
    var all := Successes(kids);
    SuccessesMembers(kids);
    SuccessesDescending(kids);
    SuccessesDistinct(kids);
    assert all[j] in all;
    var younger := YoungerSuccesses(st, s, all[j].name);
    forall k | k in younger ensures k in Names(all[..j]) {
      YoungerBefore(st, s, kids, all, j, k);
    }
    forall k | k in Names(all[..j]) ensures k in younger {
      var y :| y in all[..j] && y.name == k;
      var i :| 0 <= i < j && all[i] == y;
      BeforeYounger(st, s, kids, all, i, j);
    }
    assert younger == Names(all[..j]);
    NamesCount(all[..j]);
  }

  lemma DoomedHasYounger(st: Store, s: string, kids: seq<Item>, keep: int32, m: string)
    requires Children(st, s, kids) && Family(st, s) && m in Names(Doomed(kids, keep))
    ensures m in st.snaps && st.snaps[m].phase == Succeeded && |YoungerSuccesses(st, s, m)| >= keep
  {
    DoomedExact(kids, keep);
    SuccessesMembers(kids);
    var all := Successes(kids);
    var r := Kept(|all|, keep);
    var x :| x in all[r..] && x.name == m;
    var j :| r <= j < |all| && all[j] == x;
    YoungerCome(st, s, kids, j);
  }

  lemma HasYoungerIsDoomed(st: Store, s: string, kids: seq<Item>, keep: int32, m: string)
    requires Children(st, s, kids) && Family(st, s) && ChildOf(st, m, s)
    requires st.snaps[m].phase == Succeeded && |YoungerSuccesses(st, s, m)| >= keep
    ensures m in Names(Doomed(kids, keep))
  {
    DoomedExact(kids, keep);
    SuccessesMembers(kids);
    var all := Successes(kids);
    var r := Kept(|all|, keep);
    assert m in Names(kids);
    var x :| x in kids && x.name == m;
    var j :| 0 <= j < |all| && all[j] == x;
    YoungerCome(st, s, kids, j);
    assert all[r..][j - r] == x;
  }

  lemma DoomedIff(st: Store, s: string, kids: seq<Item>, keep: int32, m: string)
    requires Children(st, s, kids) && Family(st, s) && ChildOf(st, m, s)
    ensures m in Names(Doomed(kids, keep)) <==>
              st.snaps[m].phase == Succeeded && |YoungerSuccesses(st, s, m)| >= keep
  {
    if m in Names(Doomed(kids, keep)) {
      DoomedHasYounger(st, s, kids, keep, m);
    } else if st.snaps[m].phase == Succeeded && |YoungerSuccesses(st, s, m)| >= keep {
      HasYoungerIsDoomed(st, s, kids, keep, m);
      assert false;
    }
  }

  /** `l'` is `l` once its deletion has been asked for: marked, or gone if nothing holds it; again changes nothing. */
  predicate Deleted(l: Lane, l': Lane) {
    && l.snap.Some?
    && l'.pre == l.pre && l'.post == l.post && l'.vol == l.vol && l'.past == l.past
    && (if l.snap.value.deleting then l'.snap == l.snap
        else if l.snap.value.finalizers == {} then l'.snap.None?
        else l'.snap == Some(l.snap.value.(deleting := true, version := l.snap.value.version + 1)))
  }

  /**
   A child is deleted exactly if it has succeeded and at least as many younger ones have as the schedule's
   retention says, 7 if it says nothing; all other snapshots but the new one stay as they are.
   */
  lemma DeletedIff(cal: Calendar, st: Store, v: string -> Lane, st': Store, v': string -> Lane,
                   s: string, first: Schedule, kids: seq<Item>, c: Cron, now: int, requeue: Option<int>, m: string)
    requires cal.parse(first.spec.cron) == Some(c)
    requires Children(st, s, kids) && Family(st, s) && Reflects(v, st)
    requires Outcome(cal, st, v, st', v', s, Surveyed(first, kids), kids, now, requeue)
    ensures var keep := if first.spec.retention == 0 then 7 else first.spec.retention;
            if ChildOf(st, m, s) && st.snaps[m].phase == Succeeded && |YoungerSuccesses(st, s, m)| >= keep
            then Deleted(v(m), v'(m))
            else v'(m) == v(m) || (m == ChildName(cal, s, now) && v(m) == VOID)
  {
    var keep := Defaulted(first.spec).retention;
    NamedKids(st, v, s, kids);
    assert v(m) == LaneOf(st, m);
    OnlySuccessesDoomed(kids, keep);
    if ChildOf(st, m, s) {
      DoomedIff(st, s, kids, keep, m);
    } else {
      forall x | x in Doomed(kids, keep) ensures x.name != m {
        assert st.snaps[x.name] == x.snap;
      }
    }
  }
}
