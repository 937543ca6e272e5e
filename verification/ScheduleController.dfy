/**
 The schedule reconciler, call by call: mirror the newest child's phase, record a due activation before
 answering it, answer it unless the newest child is still in progress, and collect old successes.
 */
module ScheduleController {
  import opened Base
  import opened Kinds
  import opened Crontab
  import opened Lifecycle
  import opened Planning
  import opened Cluster
  import opened Api
  import opened Admission
  import opened Retention
  import ClusterSafety
  import Activations

  /** What the worker knows of its schedule from the copy `v`, whatever happened since. */
  predicate Tracks(st: Store, s: string, v: Schedule) {
    && AnnalsOf(st, s).born
    && (s in st.scheds ==>
          var p := st.scheds[s];
          && p.last == v.last && p.mirror == v.mirror && p.stamp == v.stamp
          && v.version <= p.version
          && (p.version == v.version ==> p == v))
  }

  predicate WholeSecond(v: Schedule) {
    v.last.Some? ==> v.last.value % SECOND == 0
  }

  function WithDefault(st: Store, s: string, w: Schedule): Plan {
    Plan(Some(Sent(w)), AnnalsOf(st, s).(keep := SCHEDULE_RETENTION_DEFAULT))
  }

  /** A write of the default is legal wherever it can land. */
  lemma DefaultLegal(cal: Calendar, st: Store, s: string, v: Schedule, w: Schedule)
    requires Tracks(st, s, v) && WholeSecond(v) && AnnalsOf(st, s).clerk.Reading?
    requires v.spec.retention == 0 && w == v.(spec := v.spec.(retention := SCHEDULE_RETENTION_DEFAULT))
    ensures PlanCurrent(PlanOf(st, s), w) ==> PlanWork(cal, st, s, WithDefault(st, s, w))
  {
    if PlanCurrent(PlanOf(st, s), w) {
      assert PlanDefaults(PlanOf(st, s), WithDefault(st, s, w));
    }
  }

  /** So is a write of the phase listed. */
  lemma MirrorLegal(cal: Calendar, st: Store, s: string, v: Schedule, w: Schedule, seen: Option<Phase>)
    requires Tracks(st, s, v) && WholeSecond(v) && AnnalsOf(st, s).clerk == Watching(seen)
    requires w == v.(mirror := SeenPhase(seen))
    ensures PlanCurrent(PlanOf(st, s), w) ==> PlanWork(cal, st, s, PlanOf(st, s).(sched := Some(Sent(w))))
  {
    if PlanCurrent(PlanOf(st, s), w) {
      assert PlanMirrors(PlanOf(st, s), PlanOf(st, s).(sched := Some(Sent(w))));
    }
  }

  /** What is left of a listed child: its name is never reused, and once complete it stays so. */
  predicate Remembered(l: Lane, x: Item, s: string) {
    && l.past.born
    && (l.snap.Some? ==>
          && l.snap.value.owner == Some(s)
          && l.snap.value.stamp == x.snap.stamp
          && (x.snap.phase.Complete() ==> l.snap.value.phase == x.snap.phase))
  }

  ghost predicate KidsKnown(st: Store, s: string, kids: seq<Item>) {
    forall x {:trigger LaneOf(st, x.name)} | x in kids :: Remembered(LaneOf(st, x.name), x, s)
  }

  ghost predicate NoOthers(st: Store, s: string, kids: seq<Item>) {
    forall n | ChildOf(st, n, s) :: n in Names(kids)
  }

  /** `kids` are the children of `s` in `st`, newest first. */
  ghost predicate Children(st: Store, s: string, kids: seq<Item>) {
    && Descending(kids)
    && Distinct(kids)
    && (forall x | x in kids :: x.name in st.snaps && st.snaps[x.name] == x.snap && x.snap.owner == Some(s))
    && NoOthers(st, s, kids)
  }

  /** The first child is the only one that can be the one made last. */
  ghost predicate HeadIsNewest(a: Annals, kids: seq<Item>) {
    forall x | x in kids && a.newest == Some(x.snap.stamp) :: x == kids[0]
  }

  function Head(kids: seq<Item>): Option<Phase> {
    if kids == [] then None else Some(kids[0].snap.phase)
  }

  lemma TracksStable(st: Store, st': Store, s: string, v: Schedule)
    requires Tracks(st, s, v) && PlanRely(st, st', s)
    ensures Tracks(st', s, v)
  {
  }

  lemma KidsStable(st: Store, st': Store, s: string, kids: seq<Item>)
    requires KidsKnown(st, s, kids) && PlanRely(st, st', s)
    ensures KidsKnown(st', s, kids)
  {
    forall x | x in kids ensures Remembered(LaneOf(st', x.name), x, s) {
      assert Remembered(LaneOf(st, x.name), x, s);
      assert Grown(LaneOf(st, x.name), LaneOf(st', x.name));
    }
  }

  lemma NoOthersStable(st: Store, st': Store, s: string, kids: seq<Item>)
    requires NoOthers(st, s, kids) && PlanRely(st, st', s)
    ensures NoOthers(st', s, kids)
  {
  }

  /** The gate: a listed newest child that is complete keeps the one made last quiet. */
  lemma GateKeepsQuiet(st: Store, s: string, kids: seq<Item>)
    requires KidsKnown(st, s, kids) && NoOthers(st, s, kids) && HeadIsNewest(AnnalsOf(st, s), kids)
    requires kids == [] || kids[0].snap.phase.Complete()
    ensures NewestQuiet(st, s)
  {
    forall n | n in st.snaps && ChildOf(st, n, s) && AnnalsOf(st, s).newest == Some(st.snaps[n].stamp)
      ensures st.snaps[n].phase.Complete()
    {
      assert n in Names(kids);
      var x :| x in kids && x.name == n;
      assert Remembered(LaneOf(st, x.name), x, s);
      assert x == kids[0];
    }
  }

  lemma OnceInDistinct(items: seq<Item>, x: Item)
    requires Distinct(items) && x in items
    ensures multiset(items)[x] == 1
  {
    var i :| 0 <= i < |items| && items[i] == x;
    assert items == items[..i] + [x] + items[i + 1..];
    assert x !in items[..i] && x !in items[i + 1..];
  }

  lemma TwiceInSeq<T>(s: seq<T>, i: nat, j: nat)
    requires i < j < |s| && s[i] == s[j]
    ensures multiset(s)[s[i]] >= 2
  {
    assert s == s[..i] + [s[i]] + s[i + 1..j] + [s[j]] + s[j + 1..];
  }

  /** Sorting and filtering list no child twice. */
  lemma ListedOnce(items: seq<Item>, sorted: seq<Item>, s: string)
    requires Distinct(items) && multiset(sorted) == multiset(items)
    ensures Distinct(Owned(sorted, s))
  {
    var kids := Owned(sorted, s);
    OwnedExact(sorted, s);
    OwnedMembers(sorted, s);
    forall x | x in items ensures multiset(items)[x] == 1 {
      OnceInDistinct(items, x);
    }
    forall i, j | 0 <= i < j < |kids| ensures kids[i].name != kids[j].name {
      var x, y := kids[i], kids[j];
      assert x in multiset(items) && y in multiset(items);
      if x == y {
        TwiceInSeq(kids, i, j);
        assert false;
      }
      var p :| 0 <= p < |items| && items[p] == x;
      var q :| 0 <= q < |items| && items[q] == y;
      assert p != q;
    }
  }

  /** With distinct creation times, the first of the sorted children is the newest. */
  lemma HeadOfFamily(st: Store, s: string, kids: seq<Item>, seen: Option<Phase>)
    requires Children(st, s, kids) && NewestIs(st, s, seen) && ClusterSafety.Family(st, s)
    ensures seen == Head(kids)
    ensures HeadIsNewest(AnnalsOf(st, s), kids)
  {
    forall x | x in kids && AnnalsOf(st, s).newest == Some(x.snap.stamp) ensures x == kids[0] {
      var i :| 0 <= i < |kids| && kids[i] == x;
      assert ChildOf(st, kids[0].name, s) && ChildOf(st, x.name, s);
      assert x.snap.stamp <= kids[0].snap.stamp;
    }
    assert kids != [] ==> ChildOf(st, kids[0].name, s);
    if seen.Some? {
      var n :| n in st.snaps && ChildOf(st, n, s) && st.snaps[n].phase == seen.value
               && forall m | m in st.snaps && ChildOf(st, m, s) :: st.snaps[m].stamp <= st.snaps[n].stamp;
      assert n in Names(kids);
      var x :| x in kids && x.name == n;
      var i :| 0 <= i < |kids| && kids[i] == x;
      assert ChildOf(st, kids[0].name, s);
      assert x.snap.stamp == kids[0].snap.stamp;
    }
  }

  /** `kids` are those of the listing that belong to `s`. */
  ghost predicate Sifted(a: Annals, s: string, kids: seq<Item>) {
    forall x :: x in kids <==> x in a.listing && x.snap.owner == Some(s)
  }

  /** What the worker knows of the children it listed, whatever happened since. */
  ghost predicate Knows(st: Store, s: string, kids: seq<Item>) {
    && KidsKnown(st, s, kids) && NoOthers(st, s, kids) && HeadIsNewest(AnnalsOf(st, s), kids)
    && Sifted(AnnalsOf(st, s), s, kids)
  }

  lemma KnowsStable(st: Store, st': Store, s: string, kids: seq<Item>)
    requires Knows(st, s, kids) && PlanRely(st, st', s)
    ensures Knows(st', s, kids)
  {
    KidsStable(st, st', s, kids);
    NoOthersStable(st, st', s, kids);
  }

  lemma KnowsAlike(st: Store, st': Store, s: string, kids: seq<Item>)
    requires Knows(st, s, kids)
    requires st'.snaps == st.snaps && st'.past == st.past && AnnalsOf(st', s).newest == AnnalsOf(st, s).newest
    requires AnnalsOf(st', s).listing == AnnalsOf(st, s).listing
    ensures Knows(st', s, kids)
  {
    forall x | x in kids ensures Remembered(LaneOf(st', x.name), x, s) {
      assert Remembered(LaneOf(st, x.name), x, s);
    }
    assert KidsKnown(st', s, kids);
    forall n | ChildOf(st', n, s) ensures n in Names(kids) {
      assert ChildOf(st, n, s);
    }
    assert NoOthers(st', s, kids);
  }

  /** The gate as it reads the listing: a newest child still in no phase does not block. */
  predicate Gate(kids: seq<Item>) {
    kids == [] || kids[0].snap.phase == Empty || kids[0].snap.phase.Complete()
  }

  /** `clerk` still waits to be answered under the name `n`, unless that name has been used meanwhile. */
  ghost predicate Answering(st: Store, s: string, kids: seq<Item>, n: string, clerk: Clerk) {
    && AnnalsOf(st, s).born
    && (AnnalsOf(st, s).clerk.Watching? || AnnalsOf(st, s).clerk.Firing?)
    && KidsKnown(st, s, kids)
    && Sifted(AnnalsOf(st, s), s, kids)
    && (!PastOf(st, n).born ==> Knows(st, s, kids) && AnnalsOf(st, s).clerk == clerk)
  }

  lemma AnsweringStable(st: Store, st': Store, s: string, kids: seq<Item>, n: string, clerk: Clerk)
    requires Answering(st, s, kids, n, clerk) && PlanRely(st, st', s)
    ensures Answering(st', s, kids, n, clerk)
  {
    KidsStable(st, st', s, kids);
    assert Grown(LaneOf(st, n), LaneOf(st', n));
    if !PastOf(st', n).born {
      KnowsStable(st, st', s, kids);
    }
  }

  function Newborn(snap: Snapshot): Lane {
    Lane(Some(snap), None, None, None, UNBORN.(born := true))
  }

  /** What a snapshot is created with is known, and its birth takes nothing from the listed children. */
  lemma BirthAnswers(st: Store, st': Store, s: string, kids: seq<Item>, n: string, spec: SnapshotSpec)
    requires KidsKnown(st, s, kids) && AnnalsOf(st, s).born && Born(st, st', s, n, spec)
    ensures PastOf(st', n).born && KidsKnown(st', s, kids)
    ensures AnnalsOf(st', s) == AnnalsOf(st, s).(
              clerk := Watching(AnnalsOf(st, s).clerk.seen),
              made := AnnalsOf(st, s).made[n := AnnalsOf(st, s).clerk.fire],
              newest := Some(st'.snaps[n].stamp))
    ensures LaneOf(st', n) == Newborn(st'.snaps[n])
  {
    var snap := st'.snaps[n];
    forall m ensures LaneOf(st', m) == if m == n then Newborn(snap) else LaneOf(st, m) {
      PutLaneFrame(st, n, Newborn(snap), m);
    }
    forall x | x in kids ensures Remembered(LaneOf(st', x.name), x, s) {
      assert Remembered(LaneOf(st, x.name), x, s);
    }
  }

  function Recorded(a: Annals, fire: Fire, seen: Option<Phase>): Annals {
    a.(clerk := Firing(fire, seen), fires := a.fires + [fire])
  }

  /** The worker may still delete: it knows every child in `kids`, and `gone` are already marked or away. */
  ghost predicate Collecting(st: Store, s: string, kids: seq<Item>, gone: seq<Item>) {
    && AnnalsOf(st, s).born
    && (AnnalsOf(st, s).clerk.Watching? || AnnalsOf(st, s).clerk.Firing?)
    && KidsKnown(st, s, kids)
    && (forall x {:trigger LaneOf(st, x.name)} | x in gone ::
          LaneOf(st, x.name).past.born && LaneOf(st, x.name).Deleting())
  }

  lemma CollectingStable(st: Store, st': Store, s: string, kids: seq<Item>, gone: seq<Item>)
    requires Collecting(st, s, kids, gone) && PlanRely(st, st', s)
    ensures Collecting(st', s, kids, gone)
  {
    KidsStable(st, st', s, kids);
    forall x | x in gone ensures LaneOf(st', x.name).past.born && LaneOf(st', x.name).Deleting() {
      assert LaneOf(st, x.name).past.born;
      assert Grown(LaneOf(st, x.name), LaneOf(st', x.name));
    }
  }

  /** And everything it has yet to delete was in excess already when it was listed. */
  ghost predicate Culling(st: Store, s: string, doomed: seq<Item>, gone: seq<Item>) {
    && Collecting(st, s, doomed, gone)
    && forall x | x in doomed :: Excess(AnnalsOf(st, s).listing, s, x.name, AnnalsOf(st, s).keep)
  }

  /** All that is left to do for `s` is to collect garbage, going by the retention `keep`. */
  ghost predicate Settled(st: Store, s: string, kids: seq<Item>, keep: int32) {
    Collecting(st, s, kids, []) && Sifted(AnnalsOf(st, s), s, kids) && AnnalsOf(st, s).keep == keep
  }

  lemma CondemnedKeeps(st: Store, v: string -> Lane, st': Store, v': string -> Lane, s: string,
                       kids: seq<Item>, gone: seq<Item>, x: Item)
    requires Collecting(st, s, kids, gone) && st'.annals == st.annals && LaneOf(st, x.name).past.born
    requires forall n {:trigger LaneOf(st, n)} :: v(n) == LaneOf(st, n)
    requires forall n {:trigger LaneOf(st', n)} :: v'(n) == LaneOf(st', n)
    requires forall m :: m != x.name ==> v'(m) == v(m)
    requires v'(x.name) == v(x.name) || v'(x.name) == Condemned(v(x.name))
    ensures Collecting(st', s, kids, gone)
    ensures v'(x.name) == Condemned(v(x.name)) ==> Collecting(st', s, kids, gone + [x])
  {
    assert v(x.name) == LaneOf(st, x.name) && v'(x.name) == LaneOf(st', x.name);
    forall y | y in kids ensures Remembered(LaneOf(st', y.name), y, s) {
      assert Remembered(LaneOf(st, y.name), y, s);
      assert v(y.name) == LaneOf(st, y.name) && v'(y.name) == LaneOf(st', y.name);
    }
    forall y | y in gone ensures LaneOf(st', y.name).past.born && LaneOf(st', y.name).Deleting() {
      assert LaneOf(st, y.name).past.born;
      assert v(y.name) == LaneOf(st, y.name) && v'(y.name) == LaneOf(st', y.name);
    }
  }

  /** The listed children are in the store as they were listed. */
  ghost predicate Standing(v: string -> Lane, kids: seq<Item>) {
    forall x {:trigger v(x.name)} | x in kids :: v(x.name).snap == Some(x.snap)
  }

  /** The snapshots in `gone` have been marked for deletion and nothing else has changed. */
  ghost predicate Collected(st: Store, v: string -> Lane, st': Store, v': string -> Lane, gone: seq<Item>) {
    && (forall n :: v'(n) == if n in Names(gone) then Condemned(v(n)) else v(n))
    && st'.scheds == st.scheds && st'.annals == st.annals
    && st'.facts == st.facts && st'.clock == st.clock
  }

  lemma CollectedMore(st: Store, v: string -> Lane, st1: Store, v1: string -> Lane, st2: Store, v2: string -> Lane,
                      gone: seq<Item>, x: Item)
    requires Collected(st, v, st1, v1, gone) && OnlyLane(st1, v1, st2, v2, x.name) && x.name !in Names(gone)
    requires v2(x.name) == Condemned(v1(x.name))
    ensures Collected(st, v, st2, v2, gone + [x])
  {
    assert Names(gone + [x]) == Names(gone) + {x.name};
  }

  /** The walk has reached item `i` after `met` successes, and has deleted `gone`. */
  predicate Walked(items: seq<Item>, i: nat, met: nat, retention: int32, doomed: seq<Item>, gone: seq<Item>) {
    i <= |items| && doomed == gone + DoomedFrom(items[i..], met, retention)
  }

  /** The next item is skipped, or is one of the doomed that has not had its turn. */
  lemma WalksOn(items: seq<Item>, i: nat, met: nat, retention: int32, doomed: seq<Item>, gone: seq<Item>)
    requires Walked(items, i, met, retention, doomed, gone) && i < |items| && Distinct(doomed)
    ensures items[i].snap.phase != Succeeded ==> Walked(items, i + 1, met, retention, doomed, gone)
    ensures items[i].snap.phase == Succeeded && met + 1 <= retention ==>
              Walked(items, i + 1, met + 1, retention, doomed, gone)
    ensures items[i].snap.phase == Succeeded && met + 1 > retention ==>
              && Walked(items, i + 1, met + 1, retention, doomed, gone + [items[i]])
              && gone + [items[i]] <= doomed
              && items[i] in doomed && items[i].name !in Names(gone)
  {
    assert items[i..][1..] == items[i + 1..];
    if items[i].snap.phase == Succeeded && met + 1 > retention {
      assert doomed[|gone|] == items[i];
      forall x | x in gone ensures x.name != items[i].name {
        var k :| 0 <= k < |gone| && gone[k] == x;
        assert doomed[k] == x;
      }
    }
  }

  // ---------------------------------------------------------------- one undisturbed reconcile

  function Defaulted(spec: ScheduleSpec): ScheduleSpec {
    spec.(retention := if spec.retention == 0 then SCHEDULE_RETENTION_DEFAULT else spec.retention)
  }

  predicate Due(c: Cron, p: Schedule, now: int) {
    c.next(LastOf(p)) <= now
  }

  /** The activation of `p` that is recorded at `now`. */
  function FireOf(c: Cron, p: Schedule, now: int): Fire {
    Fire(c.next(LastOf(p)), now, p.spec.cron)
  }

  /** A fresh child of `s` with the given spec. */
  predicate ChildMade(l: Lane, s: string, spec: SnapshotSpec)
    requires l.snap.Some?
  {
    l == Newborn(Snapshot(spec, Empty, {}, false, Some(s), l.snap.value.stamp, 0))
  }

  /** The activation `fire` has been recorded, and answered by the snapshot `n` exactly if `hatch`. */
  ghost predicate Activated(st: Store, v: string -> Lane, st': Store, v': string -> Lane,
                            s: string, n: string, hatch: bool, fire: Fire, spec: SnapshotSpec) {
    var (a, a') := (AnnalsOf(st, s), AnnalsOf(st', s));
    && (forall t :: t != s ==> PlanOf(st', t) == PlanOf(st, t))
    && st'.facts == st.facts && st'.clock == st.clock
    && (forall m :: m != n ==> v'(m) == v(m))
    && (if hatch then v'(n).snap.Some? && ChildMade(v'(n), s, spec) else v'(n) == v(n))
    && a'.born == a.born
    && a'.fires == a.fires + [fire]
    && a'.made == (if hatch then a.made[n := fire] else a.made)
    && a'.newest == if hatch then Some(v'(n).snap.value.stamp) else a.newest
  }

  /** Two copies agree on everything but their version. */
  predicate Alike(p: Schedule, q: Schedule) {
    p == q.(version := p.version)
  }

  /**
   From `st`, where the schedule was as `p` and its children were `kids`: the activation at `now` has
   been recorded if it was due and answered if the gate was open, and old successes are marked for
   deletion. Nothing else has changed.
   */
  ghost predicate Passed(st: Store, v: string -> Lane, st': Store, v': string -> Lane,
                         s: string, n: string, p: Schedule, kids: seq<Item>, c: Cron, now: int) {
    var due := Due(c, p, now);
    var hatch := due && Gate(kids) && v(n) == VOID;
    var fire := FireOf(c, p, now);
    var gone := Names(Doomed(kids, p.spec.retention));
    var (a, a') := (AnnalsOf(st, s), AnnalsOf(st', s));
    && (forall t :: t != s ==> PlanOf(st', t) == PlanOf(st, t))
    && st'.facts == st.facts && st'.clock == st.clock
    && (forall m :: m != n || !hatch ==> v'(m) == if m in gone then Condemned(v(m)) else v(m))
    && (hatch ==> v'(n).snap.Some? && ChildMade(v'(n), s, p.spec.snapshot))
    && PlanOf(st', s).sched.Some?
    && Alike(PlanOf(st', s).sched.value, if due then p.(last := Some(Trunc(now))) else p)
    && a'.fires == (if due then a.fires + [fire] else a.fires)
    && a'.made == (if hatch then a.made[n := fire] else a.made)
    && a'.newest == if hatch then Some(v'(n).snap.value.stamp) else a.newest
  }

  /** And so is a write of a due activation. */
  lemma RecordLegal(cal: Calendar, st: Store, s: string, v: Schedule, w: Schedule,
                    c: Cron, now: int, seen: Option<Phase>)
    requires Tracks(st, s, v) && AnnalsOf(st, s).clerk == Watching(seen)
    requires cal.parse(v.spec.cron) == Some(c) && Due(c, v, now) && now <= st.clock
    requires w == v.(last := Some(now))
    ensures PlanCurrent(PlanOf(st, s), w) ==>
              PlanWork(cal, st, s, Plan(Some(Sent(w)), Recorded(AnnalsOf(st, s), FireOf(c, v, now), seen)))
  {
    if PlanCurrent(PlanOf(st, s), w) {
      var p' := Plan(Some(Sent(w)), Recorded(AnnalsOf(st, s), FireOf(c, v, now), seen));
      assert PlanRecords(cal, st.clock, PlanOf(st, s), p', now);
    }
  }

  lemma ChildrenAlike(st: Store, st': Store, s: string, kids: seq<Item>)
    requires Children(st, s, kids) && st'.snaps == st.snaps
    ensures Children(st', s, kids)
  {
    forall n | ChildOf(st', n, s) ensures n in Names(kids) {
      assert ChildOf(st, n, s);
    }
  }

  lemma CreationActivates(st: Store, v: string -> Lane, st1: Store, v1: string -> Lane, st2: Store, v2: string -> Lane,
                          s: string, n: string, kids: seq<Item>, hatch: bool, fire: Fire, spec: SnapshotSpec)
    requires OnlyPlan(st, v, st1, v1, s) && AnnalsOf(st1, s) == Recorded(AnnalsOf(st, s), fire, Head(kids))
    requires v1(n) == LaneOf(st1, n) && v2(n) == LaneOf(st2, n)
    requires if hatch
             then Born(st1, st2, s, n, spec) && (forall m :: m != n ==> v2(m) == v1(m))
                  && (forall t :: t != s ==> PlanOf(st2, t) == PlanOf(st1, t))
                  && st2.facts == st1.facts && st2.clock == st1.clock
             else st2 == st1 && v2 == v1
    ensures Activated(st, v, st2, v2, s, n, hatch, fire, spec)
  {
    if hatch {
      PutLaneFrame(st1, n, Newborn(st2.snaps[n]), n);
    }
  }

  lemma GarbageKnown(st: Store, s: string, kids: seq<Item>, retention: int32, made: Option<Item>)
    requires Descending(kids) && Distinct(kids) && Settled(st, s, kids, retention)
    requires made.Some? ==> made.value.snap.phase == Empty
    ensures var items := if made.Some? then [made.value] + kids else kids;
            Doomed(items, retention) == Doomed(kids, retention)
    ensures Distinct(Doomed(kids, retention)) && Culling(st, s, Doomed(kids, retention), [])
  {
    if made.Some? {
      NewcomerIgnored(made.value, kids, retention);
    }
    OnlySuccessesDoomed(kids, retention);
    DoomedExact(kids, retention);
    SuccessesDistinct(kids);
    forall x | x in Doomed(kids, retention)
      ensures Excess(AnnalsOf(st, s).listing, s, x.name, AnnalsOf(st, s).keep)
    {
      DoomedIsExcess(AnnalsOf(st, s).listing, s, kids, retention, x);
    }
  }

  /** What is doomed was listed, so it is in the store and is not the snapshot about to be made. */
  lemma DoomedStand(st: Store, v: string -> Lane, s: string, kids: seq<Item>, retention: int32)
    requires Children(st, s, kids) && forall n {:trigger LaneOf(st, n)} :: v(n) == LaneOf(st, n)
    ensures Standing(v, Doomed(kids, retention))
    ensures forall n | n in Names(Doomed(kids, retention)) :: v(n) != VOID
  {
    OnlySuccessesDoomed(kids, retention);
    forall x | x in Doomed(kids, retention) ensures v(x.name).snap == Some(x.snap) {
      assert v(x.name) == LaneOf(st, x.name);
    }
  }

  /** The schedule has been served, in a store where it was as `p`: only collecting garbage is left. */
  ghost predicate Acted(st: Store, v: string -> Lane, st1: Store, v1: string -> Lane,
                        s: string, n: string, p: Schedule, kids: seq<Item>, c: Cron, now: int) {
    && PlanOf(st1, s).sched.Some?
    && Alike(PlanOf(st1, s).sched.value, if Due(c, p, now) then p.(last := Some(Trunc(now))) else p)
    && if Due(c, p, now)
       then Activated(st, v, st1, v1, s, n, Gate(kids) && v(n) == VOID, FireOf(c, p, now), p.spec.snapshot)
       else st1 == st && v1 == v
  }

  lemma DoomedStillStand(st: Store, v: string -> Lane, st1: Store, v1: string -> Lane,
                         s: string, n: string, p: Schedule, kids: seq<Item>, c: Cron, now: int)
    requires Children(st, s, kids) && forall n {:trigger LaneOf(st, n)} :: v(n) == LaneOf(st, n)
    requires Acted(st, v, st1, v1, s, n, p, kids, c, now)
    ensures Standing(v1, Doomed(kids, p.spec.retention))
    ensures forall k | k in Names(Doomed(kids, p.spec.retention)) :: v(k) != VOID
  {
    DoomedStand(st, v, s, kids, p.spec.retention);
  }

  lemma ActThenCollect(st: Store, v: string -> Lane, st1: Store, v1: string -> Lane, st2: Store, v2: string -> Lane,
                       s: string, n: string, p: Schedule, kids: seq<Item>, c: Cron, now: int)
    requires forall k | k in Names(Doomed(kids, p.spec.retention)) :: v(k) != VOID
    requires Acted(st, v, st1, v1, s, n, p, kids, c, now)
    requires Collected(st1, v1, st2, v2, Doomed(kids, p.spec.retention))
    ensures Passed(st, v, st2, v2, s, n, p, kids, c, now)
  {
    assert forall t :: PlanOf(st2, t) == PlanOf(st1, t);
  }

  /** The schedule once its retention is defaulted and its newest child's phase mirrored. */
  function Surveyed(p: Schedule, kids: seq<Item>): Schedule {
    p.(spec := Defaulted(p.spec), mirror := SeenPhase(Head(kids)))
  }

  /** Only the plan of `s` has changed, and in its history only how far the worker is. */
  ghost predicate Unanswered(st: Store, v: string -> Lane, st': Store, v': string -> Lane, s: string) {
    && OnlyPlan(st, v, st', v', s)
    && var a' := AnnalsOf(st', s);
    a' == AnnalsOf(st, s).(clerk := a'.clerk, listing := a'.listing, keep := a'.keep)
  }

  lemma PassedBetween(st: Store, v: string -> Lane, st1: Store, v1: string -> Lane, st2: Store, v2: string -> Lane,
                      st3: Store, v3: string -> Lane,
                      s: string, n: string, p: Schedule, kids: seq<Item>, c: Cron, now: int)
    requires Unanswered(st, v, st1, v1, s) && Passed(st1, v1, st2, v2, s, n, p, kids, c, now)
    requires Unanswered(st2, v2, st3, v3, s) && PlanOf(st3, s).sched == PlanOf(st2, s).sched
    ensures Passed(st, v, st3, v3, s, n, p, kids, c, now)
  {
  }

  lemma UnansweredTransitive(st: Store, v: string -> Lane, st1: Store, v1: string -> Lane,
                             st2: Store, v2: string -> Lane, s: string)
    requires Unanswered(st, v, st1, v1, s) && Unanswered(st1, v1, st2, v2, s)
    ensures Unanswered(st, v, st2, v2, s)
  {
  }

  /** A delay from `now` to the next activation after it by the cron text `cron`. */
  predicate Awaits(cal: Calendar, cron: string, now: int, delay: int) {
    cal.parse(cron).Some? && cal.parse(cron).value.next(now) == now + delay && delay > 0
  }

  /** The schedule `s` was stored as `p` at some time since store number `from`. */
  ghost predicate WasStored(h: seq<Store>, from: nat, s: string, p: Schedule) {
    exists i | from <= i < |h| :: s in h[i].scheds && h[i].scheds[s] == p
  }

  lemma StaysStored(h: seq<Store>, h': seq<Store>, from: nat, s: string, p: Schedule)
    requires WasStored(h, from, s, p) && h <= h'
    ensures WasStored(h', from, s, p)
  {
    var i :| from <= i < |h| && s in h[i].scheds && h[i].scheds[s] == p;
    assert h'[i] == h[i];
  }

  /** It was `now` at some time since store number `from`. */
  ghost predicate WasClock(h: seq<Store>, from: nat, now: int) {
    exists i | from <= i < |h| :: h[i].clock == now
  }

  lemma LastClock(h: seq<Store>, now: int)
    requires |h| > 0 && h[|h| - 1].clock == now
    ensures WasClock(h, |h| - 1, now)
  {
  }

  lemma StaysClock(h: seq<Store>, h': seq<Store>, from: nat, from': nat, now: int)
    requires WasClock(h, from, now) && h <= h' && from' <= from
    ensures WasClock(h', from', now)
  {
    var i :| from <= i < |h| && h[i].clock == now;
    assert h'[i] == h[i];
  }

  /** What one undisturbed reconcile makes of `st`. */
  ghost predicate Outcome(cal: Calendar, st: Store, v: string -> Lane, st': Store, v': string -> Lane,
                          s: string, p: Schedule, kids: seq<Item>, now: int, requeue: Option<int>) {
    match cal.parse(p.spec.cron)
    case None =>
      && requeue.None?
      && Unanswered(st, v, st', v', s)
      && PlanOf(st', s).sched.Some? && Alike(PlanOf(st', s).sched.value, p)
    case Some(c) =>
      && requeue == Some(c.next(now) - now)
      && Passed(st, v, st', v', s, ChildName(cal, s, now), p, kids, c, now)
  }

  lemma OutcomeBetween(cal: Calendar, st: Store, v: string -> Lane, st1: Store, v1: string -> Lane,
                       st2: Store, v2: string -> Lane, st3: Store, v3: string -> Lane,
                       s: string, p: Schedule, kids: seq<Item>, now: int, requeue: Option<int>)
    requires Unanswered(st, v, st1, v1, s) && Outcome(cal, st1, v1, st2, v2, s, p, kids, now, requeue)
    requires Unanswered(st2, v2, st3, v3, s) && PlanOf(st3, s).sched == PlanOf(st2, s).sched
    ensures Outcome(cal, st, v, st3, v3, s, p, kids, now, requeue)
  {
    if cal.parse(p.spec.cron).Some? {
      var c := cal.parse(p.spec.cron).value;
      PassedBetween(st, v, st1, v1, st2, v2, st3, v3, s, ChildName(cal, s, now), p, kids, c, now);
    } else {
      UnansweredTransitive(st, v, st1, v1, st2, v2, s);
      UnansweredTransitive(st, v, st2, v2, st3, v3, s);
    }
  }

  /** The version of the schedule read first does not matter. */
  lemma OutcomeAlike(cal: Calendar, st: Store, v: string -> Lane, st': Store, v': string -> Lane,
                     s: string, p: Schedule, q: Schedule, kids: seq<Item>, now: int, requeue: Option<int>)
    requires Outcome(cal, st, v, st', v', s, p, kids, now, requeue) && Alike(p, q)
    ensures Outcome(cal, st, v, st', v', s, q, kids, now, requeue)
  {
  }

  /** What the reconcile goes by and what has been recorded are the same. */
  predicate SameRound(a: Annals, a': Annals) {
    a'.keep == a.keep && a'.listing == a.listing && a'.fires == a.fires
  }

  /** The activation of `p` at `now`, if it is due, is the only one recorded since `a`. */
  predicate Fired(a: Annals, a': Annals, c: Cron, p: Schedule, now: int) {
    a'.fires == if Due(c, p, now) then a.fires + [FireOf(c, p, now)] else a.fires
  }

  /** Every child in excess of the retention is marked for deletion or gone. */
  ghost predicate Weeded(st: Store, kids: seq<Item>, keep: int32) {
    forall x | x in Doomed(kids, keep) :: LaneOf(st, x.name).Deleting()
  }

  /**
   What a reconcile that reports success, having read the schedule as `p` at `now`, has achieved, whatever
   happened meanwhile: the activation is recorded if it was due, and of `kids`, its own part of the listing,
   those in excess of the retention are marked for deletion or gone.
   */
  ghost predicate Succeeds(a: Annals, cal: Calendar, st: Store, s: string, p: Schedule, kids: seq<Item>, now: int) {
    && cal.parse(p.spec.cron).Some?
    && Fired(a, AnnalsOf(st, s), cal.parse(p.spec.cron).value, p, now)
    && Descending(kids) && Distinct(kids) && Sifted(AnnalsOf(st, s), s, kids)
    && Weeded(st, kids, Defaulted(p.spec).retention)
  }

  /** It makes no difference that the retention has been defaulted and the phase mirrored meanwhile. */
  lemma SucceedsSurveyed(a: Annals, a': Annals, cal: Calendar, st: Store, s: string,
                         p: Schedule, q: Schedule, kids: seq<Item>, now: int)
    requires Succeeds(a', cal, st, s, q, kids, now) && a'.fires == a.fires
    requires q.spec == Defaulted(p.spec) && q.last == p.last && q.stamp == p.stamp
    ensures Succeeds(a, cal, st, s, p, kids, now)
  {
  }

  class ScheduleReconciler {
    const api: ApiServer

    constructor (api: ApiServer)
      ensures this.api == api
    {
      this.api := api;
    }

    ghost predicate Working(s: string, sched: QuestDBSnapshotSchedule)
      reads this, api, sched
    {
      && api.Valid()
      && LawfulCalendar(api.cal)
      && Tracks(api.st, s, sched.Value())
      && WholeSecond(sched.Value())
      && AnnalsOf(api.st, s).keep == sched.spec.retention
      && (api.calm ==> s in api.st.scheds && api.st.scheds[s] == sched.Value())
    }

    /** Nothing but the plan of `s` has changed. */
    twostate predicate Confined(s: string)
      reads this, api
    {
      OnlyPlan(old(api.st), old(api.view), api.st, api.view, s)
    }

    /** Retention 0 means none was set. */
    method DefaultRetention(s: string, sched: QuestDBSnapshotSchedule) returns (r: Reply)
      requires Working(s, sched) && AnnalsOf(api.st, s).clerk.Reading?
      modifies api, sched
      ensures r == Done ==> Working(s, sched)
      ensures api.Valid() && old(api.h) <= api.h
      ensures AnnalsOf(api.st, s) == AnnalsOf(old(api.st), s).(keep := AnnalsOf(api.st, s).keep)
      ensures r == Done ==>
                && sched.spec == Defaulted(old(sched.spec))
                && sched.last == old(sched.last) && sched.stamp == old(sched.stamp) && sched.mirror == old(sched.mirror)
      ensures api.calm ==> r == Done && Confined(s)
    {
      if sched.spec.retention != 0 {
        return Done;
      }
      sched.spec := sched.spec.(retention := SCHEDULE_RETENTION_DEFAULT);
      ghost var before := api.st;
      api.Environment(ScheduleWorker(s));
      TracksStable(before, api.st, s, old(sched.Value()));
      DefaultLegal(api.cal, api.st, s, old(sched.Value()), sched.Value());
      r := api.WriteSchedule(s, sched, WithDefault(api.st, s, sched.Value()));
    }

    lemma SortedChildren(s: string, items: seq<Item>, sorted: seq<Item>, kids: seq<Item>, seen: Option<Phase>)
      requires api.Valid() && Lists(items, api.st.snaps) && NewestIs(api.st, s, seen)
      requires multiset(sorted) == multiset(items) && Descending(sorted) && kids == Owned(sorted, s)
      ensures Children(api.st, s, kids) && KidsKnown(api.st, s, kids)
      ensures HeadIsNewest(AnnalsOf(api.st, s), kids)
      ensures seen == Head(kids)
      ensures forall x :: x in kids <==> x in items && x.snap.owner == Some(s)
    {
      OwnedDescending(sorted, s);
      OwnedMembers(sorted, s);
      forall x ensures x in sorted <==> x in items {
        assert x in sorted <==> x in multiset(sorted);
        assert x in items <==> x in multiset(items);
      }
      ListedOnce(items, sorted, s);
      ClusterSafety.FamilyHolds(api.cal, api.h, |api.h| - 1, s);
      forall x | x in kids ensures Remembered(LaneOf(api.st, x.name), x, s) {
        ClusterSafety.LanesSafe(api.cal, api.h, |api.h| - 1, x.name);
      }
      forall n | ChildOf(api.st, n, s) ensures n in Names(kids) {
        assert Item(n, api.st.snaps[n]) in kids;
      }
      assert Children(api.st, s, kids);
      HeadOfFamily(api.st, s, kids, seen);
    }

    /** What every client call in the middle of a reconcile may rely on and must keep. */
    ghost predicate Informed(s: string, kids: seq<Item>)
      reads this, api
    {
      api.Valid() && AnnalsOf(api.st, s).born && Knows(api.st, s, kids)
    }

    /** The children of `s`, newest first. */
    method ListChildren(s: string, sched: QuestDBSnapshotSchedule)
      returns (r: Reply, kids: seq<Item>, ghost seen: Option<Phase>)
      requires Working(s, sched) && AnnalsOf(api.st, s).clerk.Reading?
      modifies api
      ensures Working(s, sched) && old(api.h) <= api.h
      ensures r == Done ==>
                && Children(api.st, s, kids)
                && Informed(s, kids)
                && seen == Head(kids)
                && AnnalsOf(api.st, s) == AnnalsOf(old(api.st), s).(
                     clerk := Watching(seen), listing := AnnalsOf(api.st, s).listing)
      ensures r != Done ==> AnnalsOf(api.st, s) == AnnalsOf(old(api.st), s)
      ensures api.calm ==> r == Done && Confined(s)
    {
      kids := [];
      ghost var before := api.st;
      api.Environment(ScheduleWorker(s));
      TracksStable(before, api.st, s, sched.Value());
      var items;
      r, items, seen := api.ListSnapshots(s);
      if r != Done {
        return;
      }
      ghost var sorted;
      kids, sorted := SortAndFilter(items, s);
      SortedChildren(s, items, sorted, kids, seen);
    }

    /** Anybody else's turn. */
    method Yield(s: string, ghost kids: seq<Item>)
      requires Informed(s, kids)
      modifies api
      ensures Informed(s, kids) && old(api.h) <= api.h
      ensures PlanRely(old(api.st), api.st, s)
      ensures api.calm ==> api.st == old(api.st) && api.view == old(api.view)
    {
      api.Environment(ScheduleWorker(s));
      KnowsStable(old(api.st), api.st, s, kids);
    }

    /** Copies the newest child's phase into the status, unless it is there already. */
    method MirrorPhase(s: string, sched: QuestDBSnapshotSchedule, kids: seq<Item>) returns (r: Reply)
      requires Working(s, sched) && Informed(s, kids)
      requires AnnalsOf(api.st, s).clerk == Watching(Head(kids))
      modifies api, sched
      ensures Informed(s, kids) && old(api.h) <= api.h && AnnalsOf(api.st, s) == AnnalsOf(old(api.st), s)
      ensures r == Done ==>
                && Working(s, sched)
                && sched.mirror == SeenPhase(Head(kids))
                && sched.spec == old(sched.spec) && sched.last == old(sched.last) && sched.stamp == old(sched.stamp)
      ensures api.calm ==> r == Done && Confined(s)
    {
      var latest := if kids == [] then Empty else kids[0].snap.phase;
      if latest == sched.mirror {
        return Done;
      }
      sched.mirror := latest;
      ghost var before := api.st;
      Yield(s, kids);
      TracksStable(before, api.st, s, old(sched.Value()));
      ghost var turned := api.st;
      MirrorLegal(api.cal, turned, s, old(sched.Value()), sched.Value(), Head(kids));
      r := api.WriteSchedule(s, sched, PlanOf(api.st, s).(sched := Some(Sent(sched.Value()))));
      KnowsAlike(turned, api.st, s, kids);
    }

    /** Records a due activation; only then may it be answered. */
    method RecordActivation(s: string, sched: QuestDBSnapshotSchedule, kids: seq<Item>, c: Cron, now: int)
      returns (r: Reply)
      requires Working(s, sched) && Informed(s, kids)
      requires AnnalsOf(api.st, s).clerk == Watching(Head(kids))
      requires api.cal.parse(sched.spec.cron) == Some(c) && now <= api.st.clock
      requires Due(c, sched.Value(), now)
      modifies api, sched
      ensures Informed(s, kids) && old(api.h) <= api.h && !AnnalsOf(api.st, s).clerk.Resting?
      ensures r == Done ==>
                && AnnalsOf(api.st, s) ==
                   Recorded(old(AnnalsOf(api.st, s)), old(FireOf(c, sched.Value(), now)), Head(kids))
                && sched.last == Some(Trunc(now))
                && sched.spec == old(sched.spec) && sched.stamp == old(sched.stamp) && sched.mirror == old(sched.mirror)
      ensures api.calm ==> r == Done && Confined(s) && PlanOf(api.st, s).sched == Some(sched.Value())
    {
      var fire := FireOf(c, sched.Value(), now);
      sched.last := Some(now);
      ghost var before := api.st;
      Yield(s, kids);
      TracksStable(before, api.st, s, old(sched.Value()));
      ghost var turned := api.st;
      RecordLegal(api.cal, turned, s, old(sched.Value()), sched.Value(), c, now, Head(kids));
      var p := Plan(Some(Sent(sched.Value())), Recorded(AnnalsOf(api.st, s), fire, Head(kids)));
      r := api.WriteSchedule(s, sched, p);
      KnowsAlike(turned, api.st, s, kids);
    }

    /** Only the snapshot `n` and the plan of `s` have changed. */
    twostate predicate OthersKept(s: string, n: string)
      reads this, api
    {
      && (forall m :: m != n ==> api.view(m) == old(api.view)(m))
      && (forall t :: t != s ==> PlanOf(api.st, t) == PlanOf(old(api.st), t))
      && api.st.facts == old(api.st).facts && api.st.clock == old(api.st).clock
    }

    method TryCreate(s: string, kids: seq<Item>, n: string, ghost clerk: Clerk, spec: SnapshotSpec) returns (r: Reply)
      requires api.Valid() && Answering(api.st, s, kids, n, clerk) && Gate(kids)
      requires clerk.Firing? && clerk.seen == Head(kids) && n == ChildName(api.cal, s, clerk.fire.at)
      modifies api
      ensures api.Valid() && old(api.h) <= api.h && Answering(api.st, s, kids, n, clerk)
      ensures SameRound(AnnalsOf(old(api.st), s), AnnalsOf(api.st, s))
      ensures api.calm ==>
                && r != Conflict
                && if old(LaneOf(api.st, n)) == VOID
                   then r == Done && Born(old(api.st), api.st, s, n, spec) && OthersKept(s, n)
                   else api.st == old(api.st) && api.view == old(api.view)
    {
      api.Environment(ScheduleWorker(s));
      AnsweringStable(old(api.st), api.st, s, kids, n, clerk);
      ghost var turned := api.st;
      if LaneOf(api.st, n) == VOID && kids != [] && kids[0].snap.phase == Empty {
        assert clerk.seen == Some(Empty);
      } else if LaneOf(api.st, n) == VOID {
        GateKeepsQuiet(api.st, s, kids);
      }
      r := api.CreateSnapshot(s, n, spec);
      if api.st != turned {
        BirthAnswers(turned, api.st, s, kids, n, spec);
      }
      if r == AlreadyExists {
        r := Done;
      }
    }

    /** Creates the snapshot, trying again on conflicts; that it exists already is as good. */
    method CreateChild(s: string, kids: seq<Item>, now: int, spec: SnapshotSpec)
      returns (r: Reply, ghost replies: seq<Reply>)
      requires Informed(s, kids) && Gate(kids)
      requires AnnalsOf(api.st, s).clerk.Firing?
      requires AnnalsOf(api.st, s).clerk.fire.at == now && AnnalsOf(api.st, s).clerk.seen == Head(kids)
      modifies api
      ensures api.Valid() && old(api.h) <= api.h
      ensures Answering(api.st, s, kids, ChildName(api.cal, s, now), old(AnnalsOf(api.st, s).clerk))
      ensures SameRound(AnnalsOf(old(api.st), s), AnnalsOf(api.st, s))
      ensures 1 <= |replies| <= 5 && r == replies[|replies| - 1] && (r == Conflict ==> |replies| == 5)
      ensures forall i | 0 <= i < |replies| - 1 :: replies[i] == Conflict
      ensures api.calm ==>
                var n := ChildName(api.cal, s, now);
                if old(LaneOf(api.st, n)) == VOID
                then r == Done && Born(old(api.st), api.st, s, n, spec) && OthersKept(s, n)
                else api.st == old(api.st) && api.view == old(api.view)
    {
      var n := ChildName(api.cal, s, now);
      ghost var clerk := AnnalsOf(api.st, s).clerk;
      var steps := 5;
      r, replies := Conflict, [];
      while r == Conflict && steps > 0
        invariant api.Valid() && old(api.h) <= api.h
        invariant Answering(api.st, s, kids, n, clerk)
        invariant SameRound(AnnalsOf(old(api.st), s), AnnalsOf(api.st, s))
        invariant api.calm ==>
                    if r == Conflict then api.st == old(api.st) && api.view == old(api.view)
                    else if old(LaneOf(api.st, n)) == VOID
                    then r == Done && Born(old(api.st), api.st, s, n, spec) && OthersKept(s, n)
                    else api.st == old(api.st) && api.view == old(api.view)
        invariant steps == 0 ==> !api.calm || r != Conflict
        invariant 0 <= steps && |replies| + steps == 5
        invariant if replies == [] then r == Conflict else r == replies[|replies| - 1]
        invariant forall i | 0 <= i < |replies| && (i < |replies| - 1 || r == Conflict) :: replies[i] == Conflict
        decreases steps
      {
        r := TryCreate(s, kids, n, clerk, spec);
        steps, replies := steps - 1, replies + [r];
      }
    }

    /** Deletes one listed successful child. */
    method DeleteChild(s: string, ghost kids: seq<Item>, x: Item, ghost gone: seq<Item>) returns (r: Reply)
      requires api.Valid() && Culling(api.st, s, kids, gone)
      requires x in kids && x.snap.phase == Succeeded
      modifies api
      ensures AnnalsOf(api.st, s) == AnnalsOf(old(api.st), s)
      ensures api.Valid() && old(api.h) <= api.h
      ensures Culling(api.st, s, kids, if r == Done then gone + [x] else gone)
      ensures api.calm && old(api.view)(x.name).snap.Some? ==>
                && r == Done && OnlyLane(old(api.st), old(api.view), api.st, api.view, x.name)
                && api.view(x.name) == Condemned(old(api.view)(x.name))
    {
      api.Environment(ScheduleWorker(s));
      CollectingStable(old(api.st), api.st, s, kids, gone);
      assert Remembered(LaneOf(api.st, x.name), x, s);
      assert api.view(x.name) == LaneOf(api.st, x.name);
      ghost var turned, seen := api.st, api.view;
      r := api.DeleteSnapshot(s, x.name);
      if r == Done {
        CondemnedKeeps(turned, seen, api.st, api.view, s, kids, gone, x);
        assert Culling(api.st, s, kids, gone + [x]);
      } else {
        CondemnedKeeps(turned, seen, api.st, api.view, s, kids, gone, x);
      }
    }

    /** The same within a walk begun at `st0`, where everything in `gone` has had its turn. */
    method DeleteNext(s: string, ghost kids: seq<Item>, x: Item, ghost gone: seq<Item>,
                      ghost st0: Store, ghost v0: string -> Lane) returns (r: Reply)
      requires api.Valid() && Culling(api.st, s, kids, gone)
      requires x in kids && x.snap.phase == Succeeded && x.name !in Names(gone)
      modifies api
      ensures AnnalsOf(api.st, s) == AnnalsOf(old(api.st), s)
      ensures api.Valid() && old(api.h) <= api.h
      ensures Culling(api.st, s, kids, if r == Done then gone + [x] else gone)
      ensures api.calm && Standing(v0, kids) && old(Collected(st0, v0, api.st, api.view, gone)) ==>
                r == Done && Collected(st0, v0, api.st, api.view, gone + [x])
    {
      ghost var st1, v1 := api.st, api.view;
      r := DeleteChild(s, kids, x, gone);
      if api.calm && Standing(v0, kids) && Collected(st0, v0, st1, v1, gone) {
        assert v1(x.name) == v0(x.name);
        CollectedMore(st0, v0, st1, v1, api.st, api.view, gone, x);
      }
    }

    /** One item of the walk: counted if it is a success, deleted if it is one too many. */
    method CollectOne(s: string, items: seq<Item>, i: nat, met: nat, retention: int32,
                      ghost doomed: seq<Item>, ghost gone: seq<Item>, ghost st0: Store, ghost v0: string -> Lane)
      returns (r: Reply, met': nat, ghost gone': seq<Item>)
      requires i < |items| && Distinct(doomed) && forall x | x in doomed :: x.snap.phase == Succeeded
      requires api.Valid() && Culling(api.st, s, doomed, gone) && Walked(items, i, met, retention, doomed, gone)
      modifies api
      ensures AnnalsOf(api.st, s) == AnnalsOf(old(api.st), s)
      ensures api.Valid() && old(api.h) <= api.h && Culling(api.st, s, doomed, gone')
      ensures if r == Done then Walked(items, i + 1, met', retention, doomed, gone') else gone' == gone
      ensures api.calm && Standing(v0, doomed) && old(Collected(st0, v0, api.st, api.view, gone)) ==>
                r == Done && Collected(st0, v0, api.st, api.view, gone')
    {
      WalksOn(items, i, met, retention, doomed, gone);
      r, met', gone' := Done, met, gone;
      if items[i].snap.phase == Succeeded {
        met' := met + 1;
      }
      if met' > retention && items[i].snap.phase == Succeeded {
        r := DeleteNext(s, doomed, items[i], gone, st0, v0);
        if r == Done {
          gone' := gone + [items[i]];
        }
      }
    }

    /** Walks the list, newest first, and deletes each success beyond the first `retention`. */
    method CollectGarbage(s: string, items: seq<Item>, retention: int32, ghost doomed: seq<Item>)
      returns (r: Reply, ghost gone: seq<Item>)
      requires doomed == Doomed(items, retention) && Distinct(doomed)
      requires api.Valid() && Culling(api.st, s, doomed, [])
      modifies api
      ensures AnnalsOf(api.st, s) == AnnalsOf(old(api.st), s)
      ensures api.Valid() && old(api.h) <= api.h
      ensures Culling(api.st, s, doomed, gone)
      ensures gone <= doomed && (r == Done ==> gone == doomed)
      ensures api.calm && Standing(old(api.view), doomed) ==>
                r == Done && Collected(old(api.st), old(api.view), api.st, api.view, doomed)
    {
      var met: nat := 0;
      r, gone := Done, [];
      OnlySuccessesDoomed(items, retention);
      for i := 0 to |items|
        invariant AnnalsOf(api.st, s) == AnnalsOf(old(api.st), s)
        invariant api.Valid() && old(api.h) <= api.h
        invariant r == Done && Walked(items, i, met, retention, doomed, gone)
        invariant Culling(api.st, s, doomed, gone)
        invariant api.calm && Standing(old(api.view), doomed) ==>
                    Collected(old(api.st), old(api.view), api.st, api.view, gone)
      {
        r, met, gone := CollectOne(s, items, i, met, retention, doomed, gone, old(api.st), old(api.view));
        if r != Done {
          return;
        }
      }
    }

    /** Defaults, lists and mirrors: everything before the due test. */
    method Survey(s: string, sched: QuestDBSnapshotSchedule) returns (r: Reply, kids: seq<Item>)
      requires Working(s, sched) && AnnalsOf(api.st, s).clerk.Reading?
      modifies api, sched
      ensures api.Valid() && old(api.h) <= api.h && AnnalsOf(api.st, s).clerk != Resting
      ensures r == Done ==>
                && Working(s, sched) && Informed(s, kids)
                && Descending(kids) && Distinct(kids)
                && AnnalsOf(api.st, s).clerk == Watching(Head(kids))
                && sched.mirror == SeenPhase(Head(kids)) && sched.spec == Defaulted(old(sched.spec))
                && sched.last == old(sched.last) && sched.stamp == old(sched.stamp)
      ensures r == Done ==> AnnalsOf(api.st, s).fires == AnnalsOf(old(api.st), s).fires
      ensures api.calm ==>
                && r == Done && Unanswered(old(api.st), old(api.view), api.st, api.view, s)
                && Children(old(api.st), s, kids) && Children(api.st, s, kids)
    {
      r := DefaultRetention(s, sched);
      if r != Done {
        return r, [];
      }
      ghost var seen;
      r, kids, seen := ListChildren(s, sched);
      if r != Done {
        return;
      }
      ghost var listed := api.st;
      r := MirrorPhase(s, sched, kids);
      if api.calm {
        ChildrenAlike(listed, api.st, s, kids);
        ChildrenAlike(listed, old(api.st), s, kids);
      }
    }

    /** Answers the activation just recorded if the gate is open. A failure to create is only reported. */
    method Answer(s: string, sched: QuestDBSnapshotSchedule, kids: seq<Item>, now: int) returns (made: Option<Item>)
      requires Informed(s, kids) && sched.mirror == SeenPhase(Head(kids))
      requires AnnalsOf(api.st, s).clerk.Firing?
      requires AnnalsOf(api.st, s).clerk.fire.at == now && AnnalsOf(api.st, s).clerk.seen == Head(kids)
      modifies api
      ensures api.Valid() && old(api.h) <= api.h && Settled(api.st, s, kids, old(AnnalsOf(api.st, s).keep))
      ensures SameRound(AnnalsOf(old(api.st), s), AnnalsOf(api.st, s))
      ensures made.Some? ==> made.value.snap.phase == Empty
      ensures api.calm ==>
                var n := ChildName(api.cal, s, now);
                if Gate(kids) && old(LaneOf(api.st, n)) == VOID
                then Born(old(api.st), api.st, s, n, sched.spec.snapshot) && OthersKept(s, n)
                else api.st == old(api.st) && api.view == old(api.view)
    {
      made := None;
      if sched.mirror != Empty && !(kids != [] && kids[0].snap.phase.Complete()) {
        return;
      }
      var r;
      ghost var replies;
      r, replies := CreateChild(s, kids, now, sched.spec.snapshot);
      if r == Done {
        made := Some(Item(ChildName(api.cal, s, now), Snapshot(sched.spec.snapshot, Empty, {}, false, Some(s), 0, 0)));
      }
    }

    /** Records a due activation, then answers it. */
    method Activate(s: string, sched: QuestDBSnapshotSchedule, kids: seq<Item>, c: Cron, now: int)
      returns (r: Reply, made: Option<Item>)
      requires Working(s, sched) && Informed(s, kids)
      requires AnnalsOf(api.st, s).clerk == Watching(Head(kids)) && sched.mirror == SeenPhase(Head(kids))
      requires api.cal.parse(sched.spec.cron) == Some(c) && now <= api.st.clock
      requires Due(c, sched.Value(), now)
      modifies api, sched
      ensures api.Valid() && old(api.h) <= api.h && AnnalsOf(api.st, s).clerk != Resting
      ensures r == Done ==> Settled(api.st, s, kids, old(sched.spec.retention)) && sched.spec == old(sched.spec)
      ensures r == Done ==> Fired(old(AnnalsOf(api.st, s)), AnnalsOf(api.st, s), c, old(sched.Value()), now)
      ensures made.Some? ==> made.value.snap.phase == Empty
      ensures api.calm ==>
                && r == Done && PlanOf(api.st, s).sched == Some(sched.Value())
                && sched.last == Some(Trunc(now))
                && sched.stamp == old(sched.stamp) && sched.mirror == old(sched.mirror)
                && var n := ChildName(api.cal, s, now);
                   Activated(old(api.st), old(api.view), api.st, api.view, s, n,
                             Gate(kids) && old(api.view)(n) == VOID,
                             old(FireOf(c, sched.Value(), now)), old(sched.spec.snapshot))
    {
      made := None;
      ghost var fire := FireOf(c, sched.Value(), now);
      r := RecordActivation(s, sched, kids, c, now);
      if r != Done {
        return;
      }
      ghost var st1, v1, n := api.st, api.view, ChildName(api.cal, s, now);
      assert v1(n) == LaneOf(st1, n);
      made := Answer(s, sched, kids, now);
      if api.calm {
        CreationActivates(old(api.st), old(api.view), st1, v1, api.st, api.view, s, n, kids,
                          Gate(kids) && v1(n) == VOID, fire, sched.spec.snapshot);
      }
    }

    /** Collects garbage from the listed children, with the one just made in front. */
    method Collect(s: string, kids: seq<Item>, made: Option<Item>, retention: int32) returns (r: Reply)
      requires api.Valid() && Settled(api.st, s, kids, retention) && Descending(kids) && Distinct(kids)
      requires made.Some? ==> made.value.snap.phase == Empty
      modifies api
      ensures AnnalsOf(api.st, s) == AnnalsOf(old(api.st), s)
      ensures api.Valid() && old(api.h) <= api.h && AnnalsOf(api.st, s).clerk != Resting
      ensures r == Done ==> Weeded(api.st, kids, retention)
      ensures api.calm && Standing(old(api.view), Doomed(kids, retention)) ==>
                r == Done && Collected(old(api.st), old(api.view), api.st, api.view, Doomed(kids, retention))
    {
      GarbageKnown(api.st, s, kids, retention, made);
      var items := if made.Some? then [made.value] + kids else kids;
      ghost var gone;
      r, gone := CollectGarbage(s, items, retention, Doomed(kids, retention));
    }

    method ActIfDue(s: string, sched: QuestDBSnapshotSchedule, kids: seq<Item>, c: Cron, now: int)
      returns (r: Reply, made: Option<Item>)
      requires Working(s, sched) && Informed(s, kids)
      requires AnnalsOf(api.st, s).clerk == Watching(Head(kids)) && sched.mirror == SeenPhase(Head(kids))
      requires api.cal.parse(sched.spec.cron) == Some(c) && now <= api.st.clock
      modifies api, sched
      ensures api.Valid() && old(api.h) <= api.h && AnnalsOf(api.st, s).clerk != Resting
      ensures r == Done ==> Settled(api.st, s, kids, old(sched.spec.retention))
      ensures r == Done ==> Fired(old(AnnalsOf(api.st, s)), AnnalsOf(api.st, s), c, old(sched.Value()), now)
      ensures made.Some? ==> made.value.snap.phase == Empty
      ensures api.calm ==>
                && r == Done
                && Acted(old(api.st), old(api.view), api.st, api.view,
                         s, ChildName(api.cal, s, now), old(sched.Value()), kids, c, now)
    {
      r, made := Done, None;
      if c.next(LastOf(sched.Value())) <= now {
        r, made := Activate(s, sched, kids, c, now);
      }
    }

    /** Acts on a due activation, then collects garbage from the children listed before. */
    method Act(s: string, sched: QuestDBSnapshotSchedule, kids: seq<Item>, c: Cron, now: int)
      returns (r: Reply, requeue: Option<int>)
      requires Working(s, sched) && Informed(s, kids) && Descending(kids) && Distinct(kids)
      requires AnnalsOf(api.st, s).clerk == Watching(Head(kids)) && sched.mirror == SeenPhase(Head(kids))
      requires api.cal.parse(sched.spec.cron) == Some(c) && now <= api.st.clock
      modifies api, sched
      ensures api.Valid() && old(api.h) <= api.h && AnnalsOf(api.st, s).clerk != Resting
      ensures api.calm && old(Children(api.st, s, kids)) ==>
                && r == Done && requeue.Some?
                && (var n := ChildName(api.cal, s, now);
                    Passed(old(api.st), old(api.view), api.st, api.view, s, n, old(sched.Value()), kids, c, now))
      ensures r == Done ==>
                && Fired(old(AnnalsOf(api.st, s)), AnnalsOf(api.st, s), c, old(sched.Value()), now)
                && Weeded(api.st, kids, old(sched.spec.retention)) && Sifted(AnnalsOf(api.st, s), s, kids)
      ensures requeue.Some? ==> requeue.value == c.next(now) - now
    {
      requeue := None;
      ghost var p := sched.Value();
      var retention := sched.spec.retention;
      var made;
      r, made := ActIfDue(s, sched, kids, c, now);
      if r != Done {
        return;
      }
      ghost var st1, v1, n := api.st, api.view, ChildName(api.cal, s, now);
      if api.calm && old(Children(api.st, s, kids)) {
        DoomedStillStand(old(api.st), old(api.view), st1, v1, s, n, p, kids, c, now);
      }
      r := Collect(s, kids, made, retention);
      requeue := Some(c.next(now) - now);
      if api.calm && old(Children(api.st, s, kids)) {
        ActThenCollect(old(api.st), old(api.view), st1, v1, api.st, api.view, s, n, p, kids, c, now);
      }
    }

    /** History says: a stored schedule was created once, and its last activation is a whole second. */
    lemma StoredIsPunctual(s: string)
      requires api.Valid() && LawfulCalendar(api.cal)
      ensures s in api.st.scheds ==>
                && AnnalsOf(api.st, s).born
                && (api.st.scheds[s].last.Some? ==> api.st.scheds[s].last.value % SECOND == 0)
    {
      Activations.PunctualHolds(api.cal, api.h, |api.h| - 1, s);
    }

    /** Everything after the survey: the due test, the activation, the garbage, the next wake-up. */
    method Decide(s: string, sched: QuestDBSnapshotSchedule, kids: seq<Item>)
      returns (r: Reply, requeue: Option<int>, ghost now: int)
      requires Working(s, sched) && Informed(s, kids) && Descending(kids) && Distinct(kids)
      requires AnnalsOf(api.st, s).clerk == Watching(Head(kids)) && sched.mirror == SeenPhase(Head(kids))
      requires sched.spec.retention != 0
      modifies api, sched
      ensures api.Valid() && old(api.h) <= api.h && !AnnalsOf(api.st, s).clerk.Resting?
      ensures r == Done && requeue.Some? ==>
                Succeeds(old(AnnalsOf(api.st, s)), api.cal, api.st, s, old(sched.Value()), kids, now)
      ensures requeue.Some? ==> Awaits(api.cal, old(sched.spec.cron), now, requeue.value)
      ensures now == old(api.st).clock
      ensures api.calm && old(Children(api.st, s, kids)) ==>
                && r == Done
                && Outcome(api.cal, old(api.st), old(api.view), api.st, api.view,
                           s, old(sched.Value()), kids, now, requeue)
    {
      var t := api.Now();
      now := t;
      var parsed := api.cal.parse(sched.spec.cron);
      if parsed.None? {
        return Done, None, now;
      }
      r, requeue := Act(s, sched, kids, parsed.value, t);
    }

    /** Everything between the read and the end. */
    method Run(s: string, sched: QuestDBSnapshotSchedule)
      returns (r: Reply, requeue: Option<int>, ghost kids: seq<Item>, ghost now: int)
      requires Working(s, sched) && AnnalsOf(api.st, s).clerk.Reading?
      modifies api, sched
      ensures api.Valid() && old(api.h) <= api.h && !AnnalsOf(api.st, s).clerk.Resting?
      ensures r == Done && requeue.Some? ==>
                Succeeds(old(AnnalsOf(api.st, s)), api.cal, api.st, s, old(sched.Value()), kids, now)
      ensures requeue.Some? ==> Awaits(api.cal, old(sched.spec.cron), now, requeue.value)
      ensures WasClock(api.h, |old(api.h)| - 1, now)
      ensures api.calm ==>
                && r == Done && now == old(api.st).clock && Children(old(api.st), s, kids)
                && Outcome(api.cal, old(api.st), old(api.view), api.st, api.view, s,
                           Surveyed(old(sched.Value()), kids), kids, now, requeue)
    {
      now, requeue := api.st.clock, None;
      ghost var h0 := api.h;
      LastClock(h0, now);
      var listed;
      r, listed := Survey(s, sched);
      kids := listed;
      if r != Done {
        StaysClock(h0, api.h, |h0| - 1, |h0| - 1, now);
        return;
      }
      ghost var h1 := api.h;
      ghost var st1, v1, p := api.st, api.view, sched.Value();
      ghost var a1 := AnnalsOf(api.st, s);
      r, requeue, now := Decide(s, sched, listed);
      LastClock(h1, now);
      StaysClock(h1, api.h, |h1| - 1, |h0| - 1, now);
      if r == Done && requeue.Some? {
        SucceedsSurveyed(old(AnnalsOf(api.st, s)), a1, api.cal, api.st, s, old(sched.Value()), p, kids, now);
      }
      if api.calm {
        OutcomeBetween(api.cal, old(api.st), old(api.view), st1, v1, api.st, api.view, api.st, api.view,
                       s, p, kids, now, requeue);
        OutcomeAlike(api.cal, old(api.st), old(api.view), api.st, api.view,
                     s, p, Surveyed(old(sched.Value()), kids), kids, now, requeue);
      }
    }

    /** The read that opens a reconcile. */
    method Begin(s: string, sched: QuestDBSnapshotSchedule) returns (r: Reply)
      requires api.Valid() && AnnalsOf(api.st, s).clerk.Resting? && LawfulCalendar(api.cal)
      modifies api, sched
      ensures api.Valid() && old(api.h) <= api.h
      ensures AnnalsOf(api.st, s).fires == AnnalsOf(old(api.st), s).fires
      ensures if r == Done
              then Working(s, sched) && AnnalsOf(api.st, s).clerk.Reading?
                   && WasStored(api.h, |old(api.h)| - 1, s, sched.Value())
              else AnnalsOf(api.st, s).clerk.Resting?
      ensures api.calm ==> r == if s in old(api.st).scheds then Done else NotFound
      ensures api.calm && r == Done ==>
                && sched.Value() == old(api.st).scheds[s]
                && Unanswered(old(api.st), old(api.view), api.st, api.view, s)
      ensures api.calm && r != Done ==> api.st == old(api.st) && api.view == old(api.view)
    {
      api.Environment(ScheduleWorker(s));
      StoredIsPunctual(s);
      r := api.GetSchedule(s, sched);
      assert api.h[|api.h| - 1] == api.st;
    }

    /** Everything after the read, and the end. */
    method Finish(s: string, sched: QuestDBSnapshotSchedule)
      returns (r: Reply, requeue: Option<int>, ghost kids: seq<Item>, ghost now: int)
      requires Working(s, sched) && AnnalsOf(api.st, s).clerk.Reading?
      modifies api, sched
      ensures api.Valid() && old(api.h) <= api.h && AnnalsOf(api.st, s).clerk.Resting?
      ensures r == Done && requeue.Some? ==>
                Succeeds(old(AnnalsOf(api.st, s)), api.cal, api.st, s, old(sched.Value()), kids, now)
      ensures requeue.Some? ==> Awaits(api.cal, old(sched.spec.cron), now, requeue.value)
      ensures WasClock(api.h, |old(api.h)| - 1, now)
      ensures api.calm ==>
                && r == Done && now == api.st.clock && Children(old(api.st), s, kids)
                && Outcome(api.cal, old(api.st), old(api.view), api.st, api.view, s,
                           Surveyed(old(sched.Value()), kids), kids, now, requeue)
    {
      ghost var p := sched.Value();
      r, requeue, kids, now := Run(s, sched);
      ghost var h2, st2, v2 := api.h, api.st, api.view;
      api.RestSchedule(s);
      StaysClock(h2, api.h, |old(api.h)| - 1, |old(api.h)| - 1, now);
      if api.calm {
        OutcomeBetween(api.cal, old(api.st), old(api.view), old(api.st), old(api.view), st2, v2, api.st, api.view, s,
                       Surveyed(p, kids), kids, now, requeue);
      }
    }

    /**
     One reconcile of `s`, with any number of other moves before, between and after its calls. `requeue`
     is the delay until the next reconcile, absent if none is asked for; it is reckoned from `now` by the
     cron text of `read`, the schedule read. `kids` are the children listed.
     */
    method Reconcile(s: string)
      returns (r: Reply, requeue: Option<int>, ghost kids: seq<Item>, ghost now: int, ghost read: Option<Schedule>)
      requires api.Valid() && AnnalsOf(api.st, s).clerk.Resting? && LawfulCalendar(api.cal)
      modifies api
      ensures api.Valid() && old(api.h) <= api.h && AnnalsOf(api.st, s).clerk.Resting?
      ensures read.Some? ==> WasStored(api.h, |old(api.h)| - 1, s, read.value)
      ensures requeue.Some? ==>
                && read.Some?
                && Awaits(api.cal, read.value.spec.cron, now, requeue.value)
                && WasClock(api.h, |old(api.h)| - 1, now)
      ensures r == Done && requeue.Some? ==>
                Succeeds(old(AnnalsOf(api.st, s)), api.cal, api.st, s, read.value, kids, now)
      ensures api.calm ==> r == Done && now == api.st.clock
      ensures api.calm && s !in old(api.st).scheds ==>
                requeue.None? && api.st == old(api.st) && api.view == old(api.view)
      ensures api.calm && s in old(api.st).scheds ==>
                var p := Surveyed(old(api.st).scheds[s], kids);
                && Children(old(api.st), s, kids)
                && Outcome(api.cal, old(api.st), old(api.view), api.st, api.view, s, p, kids, now, requeue)
    {
      kids, read := [], None;
      var sched := new QuestDBSnapshotSchedule();
      r := Begin(s, sched);
      if r != Done {
        return if r == NotFound then Done else r, None, kids, api.st.clock, read;
      }
      read := Some(sched.Value());
      ghost var h1, st1, v1 := api.h, api.st, api.view;
      r, requeue, kids, now := Finish(s, sched);
      StaysStored(h1, api.h, |old(api.h)| - 1, s, read.value);
      StaysClock(api.h, api.h, |h1| - 1, |old(api.h)| - 1, now);
      if api.calm {
        ChildrenAlike(st1, old(api.st), s, kids);
        OutcomeBetween(api.cal, old(api.st), old(api.view), st1, v1, api.st, api.view, api.st, api.view, s,
                       Surveyed(old(api.st).scheds[s], kids), kids, now, requeue);
      }
    }
  }
}
