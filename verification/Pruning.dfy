/** What retention means over whole histories: a schedule deletes only what its listing had in excess. */
module Pruning {
  import opened Base
  import opened Kinds
  import opened Crontab
  import opened Planning
  import opened Cluster
  import opened Retention
  import Activations

  predicate WasRead(h: seq<Store>, j: nat, s: string, keep: int32)
    requires j < |h|
  {
    s in h[j].scheds && h[j].scheds[s].spec.retention == keep
  }

  predicate WasListed(h: seq<Store>, j: nat, listing: seq<Item>)
    requires j < |h|
  {
    Lists(listing, h[j].snaps)
  }

  /** The retention a reconcile goes by was stored, and its listing was complete, in some store before. */
  predicate Grounded(h: seq<Store>, i: nat, s: string)
    requires i < |h|
  {
    var a := AnnalsOf(h[i], s);
    && (!a.clerk.Resting? ==> exists j | 0 <= j <= i :: WasRead(h, j, s, a.keep))
    && (a.clerk.Watching? || a.clerk.Firing? ==> exists j | 0 <= j <= i :: WasListed(h, j, a.listing))
  }

  /** What a reconcile goes by is as it was, or is read or listed in this very step. */
  predicate Regrounded(st: Store, st': Store, s: string) {
    var (a, a') := (AnnalsOf(st, s), AnnalsOf(st', s));
    && (!a'.clerk.Resting? ==>
          || (!a.clerk.Resting? && a'.keep == a.keep)
          || (s in st.scheds && st.scheds[s].spec.retention == a'.keep)
          || (s in st'.scheds && st'.scheds[s].spec.retention == a'.keep))
    && (a'.clerk.Watching? || a'.clerk.Firing? ==>
          || ((a.clerk.Watching? || a.clerk.Firing?) && a'.listing == a.listing)
          || Lists(a'.listing, st.snaps))
  }

  lemma PlanRegrounds(cal: Calendar, st: Store, s: string, p: Plan)
    requires PlanEnv(PlanOf(st, s), p) || PlanWork(cal, st, s, p)
    ensures Regrounded(st, PutPlan(st, s, p), s)
  {
    assert PlanOf(PutPlan(st, s, p), s) == p;
  }

  lemma MoveRegrounds(cal: Calendar, st: Store, m: Move, s: string)
    requires Legal(cal, st, m)
    ensures Regrounded(st, Apply(cal, st, m), s)
  {
    match m
    case PlanTo(t, p) =>
      if t == s {
        PlanRegrounds(cal, st, s, p);
      }
    case Hatch(t, n, snap) => Activations.HatchPlans(cal, st, t, n, snap, s);
    case _ =>
  }

  lemma NextRegrounds(cal: Calendar, st: Store, st': Store, s: string)
    requires Next(cal, st, st')
    ensures Regrounded(st, st', s)
  {
    var m: Move :| Legal(cal, st, m) && st' == Apply(cal, st, m);
    MoveRegrounds(cal, st, m, s);
  }

  lemma RegroundedAt(cal: Calendar, h: seq<Store>, i: nat, s: string)
    requires History(cal, h) && 0 < i < |h|
    ensures Regrounded(h[i - 1], h[i], s)
  {
    assert Next(cal, h[i - 1], h[i]);
    NextRegrounds(cal, h[i - 1], h[i], s);
  }

  lemma GroundedStep(h: seq<Store>, i: nat, s: string)
    requires 0 < i < |h| && Grounded(h, i - 1, s) && Regrounded(h[i - 1], h[i], s)
    ensures Grounded(h, i, s)
  {
    var a := AnnalsOf(h[i], s);
    if !a.clerk.Resting? {
      assert WasRead(h, i - 1, s, a.keep) || WasRead(h, i, s, a.keep) || a.keep == AnnalsOf(h[i - 1], s).keep;
    }
    if a.clerk.Watching? || a.clerk.Firing? {
      assert WasListed(h, i - 1, a.listing) || a.listing == AnnalsOf(h[i - 1], s).listing;
    }
  }

  lemma {:induction false} GroundedHolds(cal: Calendar, h: seq<Store>, i: nat, s: string)
    requires History(cal, h) && i < |h|
    ensures Grounded(h, i, s)
  {
    if i > 0 {
      GroundedHolds(cal, h, i - 1, s);
      RegroundedAt(cal, h, i, s);
      GroundedStep(h, i, s);
    }
  }

  /** The successful children of `s` in `st` that are no older than its child `n`, `n` left out. */
  function Younger(st: Store, s: string, n: string): set<string>
    requires n in st.snaps
  {
    set m | m in st.snaps && ChildOf(st, m, s) && st.snaps[m].phase == Succeeded &&
            st.snaps[n].stamp <= st.snaps[m].stamp && m != n
  }

  /** When `n` was seen, it was one successful child of `s` too many for the retention `keep`. */
  predicate Superfluous(st: Store, s: string, n: string, keep: int32) {
    ChildOf(st, n, s) && st.snaps[n].phase == Succeeded && |Younger(st, s, n)| >= keep
  }

  lemma ExcessIsSuperfluous(st: Store, listing: seq<Item>, s: string, n: string, keep: int32)
    requires Lists(listing, st.snaps) && Excess(listing, s, n, keep)
    ensures Superfluous(st, s, n, keep)
  {
    var x :| x in listing && x.name == n && x.snap.owner == Some(s) && x.snap.phase == Succeeded
             && |Peers(listing, s, x)| >= keep;
    forall m | m in Peers(listing, s, x) ensures m in Younger(st, s, n) {
      var y :| y in listing && y.name == m && y.snap.owner == Some(s) && y.snap.phase == Succeeded
               && x.snap.stamp <= y.snap.stamp;
    }
    Subset(Peers(listing, s, x), Younger(st, s, n));
  }

  /**
   Over all histories: whenever a schedule deletes a child, the reconcile that does so went by a retention
   that had been stored, and had listed the child as a success beside at least that many others no older.
   */
  lemma DeletesOnlyExcess(cal: Calendar, h: seq<Store>, i: nat, s: string, n: string)
    requires History(cal, h) && i < |h| && Legal(cal, h[i], Prune(s, n))
    ensures var keep := AnnalsOf(h[i], s).keep;
            && (exists j | 0 <= j <= i :: WasRead(h, j, s, keep))
            && (exists j | 0 <= j <= i :: Superfluous(h[j], s, n, keep))
  {
    var a := AnnalsOf(h[i], s);
    GroundedHolds(cal, h, i, s);
    var k :| 0 <= k <= i && WasListed(h, k, a.listing);
    ExcessIsSuperfluous(h[k], a.listing, s, n, a.keep);
  }
}
