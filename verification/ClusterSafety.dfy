/** Theorems about whole-cluster histories: many snapshots, many schedules, everybody moving. */
module ClusterSafety {
  import opened Base
  import opened Kinds
  import opened Crontab
  import opened Lifecycle
  import opened Planning
  import opened Cluster
  import Safety

  // ---------------------------------------------------------------- lifting the lane theorems

  function Project(h: seq<Store>, n: string): seq<Lane> {
    seq(|h|, i requires 0 <= i < |h| => LaneOf(h[i], n))
  }

  lemma NextProjects(cal: Calendar, st: Store, st': Store, n: string)
    requires Next(cal, st, st')
    ensures LaneNext(LaneOf(st, n), LaneOf(st', n))
  {
    var m: Move :| Legal(cal, st, m) && st' == Apply(cal, st, m);
    MoveProjects(cal, st, m, n);
  }

  /** Whatever else goes on, each snapshot name lives a history of its own. */
  lemma LanesRun(cal: Calendar, h: seq<Store>, n: string)
    requires History(cal, h)
    ensures Run(Project(h, n))
  {
    var run := Project(h, n);
    forall i, j | 0 <= i < |h| - 1 && j == i + 1 ensures LaneNext(run[i], run[j]) {
      assert Next(cal, h[i], h[j]);
      NextProjects(cal, h[i], h[j], n);
    }
  }

  /** The single-snapshot invariant holds of every snapshot in every reachable store. */
  lemma LanesSafe(cal: Calendar, h: seq<Store>, i: nat, n: string)
    requires History(cal, h) && i < |h|
    ensures Safety.Inv(LaneOf(h[i], n))
  {
    LanesRun(cal, h, n);
    Safety.InvHolds(Project(h, n), i);
  }

  // ---------------------------------------------------------------- one snapshot in flight

  /** Children of one schedule have distinct creation times, none later than the one made last. */
  predicate Family(st: Store, s: string) {
    && (forall n | n in st.snaps && ChildOf(st, n, s) ::
          AnnalsOf(st, s).newest.Some? && st.snaps[n].stamp <= AnnalsOf(st, s).newest.value)
    && (forall n, m | n in st.snaps && m in st.snaps && ChildOf(st, n, s) && ChildOf(st, m, s) && n != m ::
          st.snaps[n].stamp != st.snaps[m].stamp)
  }

  /** All children but the one made last are complete. */
  predicate Exclusive(st: Store, s: string) {
    forall n | n in st.snaps && ChildOf(st, n, s) && AnnalsOf(st, s).newest != Some(st.snaps[n].stamp) ::
      st.snaps[n].phase.Complete()
  }

  /** How one lane move changes who is whose child: no one is adopted, nobody's times change. */
  lemma LaneMoveKeepsChildren(cal: Calendar, st: Store, n: string, l: Lane, s: string)
    requires Legal(cal, st, LaneTo(n, l))
    ensures var st' := Apply(cal, st, LaneTo(n, l));
            forall k | k in st'.snaps && ChildOf(st', k, s) ::
              && ChildOf(st, k, s)
              && st'.snaps[k].stamp == st.snaps[k].stamp
              && (st.snaps[k].phase.Complete() ==> st'.snaps[k].phase.Complete())
  {
    OwnerKept(LaneOf(st, n), l, st.facts);
    var st' := Apply(cal, st, LaneTo(n, l));
    forall k | k in st'.snaps && ChildOf(st', k, s)
      ensures ChildOf(st, k, s)
      ensures st'.snaps[k].stamp == st.snaps[k].stamp
      ensures st.snaps[k].phase.Complete() ==> st'.snaps[k].phase.Complete()
    {
      assert Look(st'.snaps, k) == if k == n then l.snap else Look(st.snaps, k);
    }
  }

  lemma PruneKeepsChildren(cal: Calendar, st: Store, t: string, n: string, s: string)
    requires Legal(cal, st, Prune(t, n))
    ensures var st' := Apply(cal, st, Prune(t, n));
            forall k | k in st'.snaps && ChildOf(st', k, s) ::
              && ChildOf(st, k, s)
              && st'.snaps[k].stamp == st.snaps[k].stamp
              && (st.snaps[k].phase.Complete() ==> st'.snaps[k].phase.Complete())
  {
    var st' := Apply(cal, st, Prune(t, n));
    forall k | k in st'.snaps && ChildOf(st', k, s)
      ensures ChildOf(st, k, s)
      ensures st'.snaps[k].stamp == st.snaps[k].stamp
      ensures st.snaps[k].phase.Complete() ==> st'.snaps[k].phase.Complete()
    {
      assert Look(st'.snaps, k) == if k == n then Pruned(LaneOf(st, n)).snap else Look(st.snaps, k);
    }
  }

  lemma HatchChildren(cal: Calendar, st: Store, s: string, n: string, snap: Snapshot, t: string)
    requires Legal(cal, st, Hatch(s, n, snap))
    ensures var st' := Apply(cal, st, Hatch(s, n, snap));
            && st'.snaps == st.snaps[n := snap]
            && AnnalsOf(st', s).newest == Some(snap.stamp)
            && (t != s ==> AnnalsOf(st', t) == AnnalsOf(st, t))
  {
  }

  /** No one joins the family, and nobody's owner, time or completion changes. */
  predicate Unjoined(st: Store, st': Store, s: string) {
    && AnnalsOf(st', s).newest == AnnalsOf(st, s).newest
    && forall k | k in st'.snaps && ChildOf(st', k, s) ::
         && ChildOf(st, k, s)
         && st'.snaps[k].stamp == st.snaps[k].stamp
         && (st.snaps[k].phase.Complete() ==> st'.snaps[k].phase.Complete())
  }

  lemma PlanMoveUnjoined(cal: Calendar, st: Store, t: string, p: Plan, s: string)
    requires Legal(cal, st, PlanTo(t, p))
    ensures Unjoined(st, Apply(cal, st, PlanTo(t, p)), s)
  {
    assert AnnalsOf(Apply(cal, st, PlanTo(t, p)), s).newest == AnnalsOf(st, s).newest;
  }

  lemma BirthElsewhereUnjoined(cal: Calendar, st: Store, t: string, n: string, snap: Snapshot, s: string)
    requires Legal(cal, st, Hatch(t, n, snap)) && t != s
    ensures Unjoined(st, Apply(cal, st, Hatch(t, n, snap)), s)
  {
    HatchChildren(cal, st, t, n, snap, s);
  }

  /** So it is with every move but a birth in this family. */
  lemma OthersUnjoined(cal: Calendar, st: Store, m: Move, s: string)
    requires Legal(cal, st, m) && !(m.Hatch? && m.sched == s)
    ensures Unjoined(st, Apply(cal, st, m), s)
  {
    match m
    case LaneTo(n, l) => LaneMoveKeepsChildren(cal, st, n, l, s);
    case Prune(t, n) => PruneKeepsChildren(cal, st, t, n, s);
    case Hatch(t, n, snap) => BirthElsewhereUnjoined(cal, st, t, n, snap, s);
    case PlanTo(t, p) => PlanMoveUnjoined(cal, st, t, p, s);
    case _ =>
  }

  lemma UnjoinedKeeps(st: Store, st': Store, s: string)
    requires Unjoined(st, st', s)
    ensures Family(st, s) ==> Family(st', s)
    ensures Exclusive(st, s) ==> Exclusive(st', s)
  {
  }

  lemma FamilyStep(cal: Calendar, st: Store, m: Move, s: string)
    requires Legal(cal, st, m) && Family(st, s)
    ensures Family(Apply(cal, st, m), s)
  {
    if m.Hatch? && m.sched == s {
      HatchChildren(cal, st, s, m.name, m.snap, s);
    } else {
      OthersUnjoined(cal, st, m, s);
      UnjoinedKeeps(st, Apply(cal, st, m), s);
    }
  }

  lemma ExclusiveStep(cal: Calendar, st: Store, m: Move, s: string)
    requires Legal(cal, st, m) && Family(st, s) && Exclusive(st, s)
    requires m.Hatch? && m.sched == s ==> NewestQuiet(st, s)
    ensures Exclusive(Apply(cal, st, m), s)
  {
    if m.Hatch? && m.sched == s {
      HatchChildren(cal, st, s, m.name, m.snap, s);
    } else {
      OthersUnjoined(cal, st, m, s);
      UnjoinedKeeps(st, Apply(cal, st, m), s);
    }
  }

  /**
   Making a snapshot keeps all older children complete exactly when the one made last is complete or gone.
   It always is when the newest child listed showed any phase, since the controller's gate then lets
   nothing through that was not complete; only one listed in the empty phase may still be unfinished.
   */
  lemma HatchExact(cal: Calendar, st: Store, s: string, n: string, snap: Snapshot)
    requires Legal(cal, st, Hatch(s, n, snap)) && Family(st, s) && Exclusive(st, s)
    ensures Exclusive(Apply(cal, st, Hatch(s, n, snap)), s) <==>
              AnnalsOf(st, s).clerk.seen != Some(Empty) || NewestQuiet(st, s)
    ensures Exclusive(Apply(cal, st, Hatch(s, n, snap)), s) <==> NewestQuiet(st, s)
  {
    var st' := Apply(cal, st, Hatch(s, n, snap));
    HatchChildren(cal, st, s, n, snap, s);
    if NewestQuiet(st, s) {
      ExclusiveStep(cal, st, Hatch(s, n, snap), s);
    } else {
      var k :| k in st.snaps && ChildOf(st, k, s) && AnnalsOf(st, s).newest == Some(st.snaps[k].stamp)
               && !st.snaps[k].phase.Complete();
      assert k in st'.snaps && ChildOf(st', k, s) && AnnalsOf(st', s).newest != Some(st'.snaps[k].stamp);
    }
  }

  /** No reconcile of `s` recorded an activation after listing its newest child in the empty phase. */
  predicate Patient(h: seq<Store>, s: string) {
    forall i | 0 <= i < |h| ::
      AnnalsOf(h[i], s).clerk.Firing? ==> AnnalsOf(h[i], s).clerk.seen != Some(Empty)
  }

  lemma {:induction false} FamilyHolds(cal: Calendar, h: seq<Store>, i: nat, s: string)
    requires History(cal, h) && i < |h|
    ensures Family(h[i], s)
  {
    if i > 0 {
      FamilyHolds(cal, h, i - 1, s);
      assert Next(cal, h[i - 1], h[i]);
      var m: Move :| Legal(cal, h[i - 1], m) && h[i] == Apply(cal, h[i - 1], m);
      FamilyStep(cal, h[i - 1], m, s);
    }
  }

  lemma ExclusiveNext(cal: Calendar, st: Store, st': Store, s: string)
    requires Next(cal, st, st') && Family(st, s) && Exclusive(st, s)
    requires AnnalsOf(st, s).clerk.Firing? ==> AnnalsOf(st, s).clerk.seen != Some(Empty)
    ensures Exclusive(st', s)
  {
    var m: Move :| Legal(cal, st, m) && st' == Apply(cal, st, m);
    ExclusiveStep(cal, st, m, s);
  }

  lemma {:induction false} ExclusiveHolds(cal: Calendar, h: seq<Store>, i: nat, s: string)
    requires History(cal, h) && i < |h| && Patient(h, s)
    ensures Exclusive(h[i], s)
  {
    if i > 0 {
      ExclusiveHolds(cal, h, i - 1, s);
      FamilyHolds(cal, h, i - 1, s);
      assert Next(cal, h[i - 1], h[i]);
      ExclusiveNext(cal, h[i - 1], h[i], s);
    }
  }

  /**
   Across both controllers, at most one snapshot of a schedule is in flight, provided no reconcile recorded
   an activation after listing the newest child in the empty phase. Exclusion.dfy has a history in which one
   did, and the condition under which an undisturbed reconcile does not.
   */
  lemma OneInFlight(cal: Calendar, h: seq<Store>, i: nat, s: string, n: string, m: string)
    requires History(cal, h) && i < |h| && Patient(h, s)
    requires ChildOf(h[i], n, s) && !h[i].snaps[n].phase.Complete()
    requires ChildOf(h[i], m, s) && !h[i].snaps[m].phase.Complete()
    ensures n == m
  {
    ExclusiveHolds(cal, h, i, s);
    FamilyHolds(cal, h, i, s);
  }
}
