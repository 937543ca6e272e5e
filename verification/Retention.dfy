/** Ordering a schedule's snapshots by age and choosing which successful ones to delete. */
module Retention {
  import opened Base
  import opened Kinds

  /** A listed snapshot. */
  datatype Item = Item(name: string, snap: Snapshot)

  // ---------------------------------------------------------------- order

  predicate Descending(items: seq<Item>) {
    forall i, j | 0 <= i < j < |items| :: items[j].snap.stamp <= items[i].snap.stamp
  }

  /** The comparison the schedule controller sorts by: "not before", which also holds of equals. */
  predicate NotBefore(a: Item, b: Item) {
    !(a.snap.stamp < b.snap.stamp)
  }

  method Swap(a: array<Item>, j: nat)
    requires 0 < j < a.Length
    modifies a
    ensures a[..] == old(a[..])[j := old(a[j - 1])][j - 1 := old(a[j])]
    ensures multiset(a[..]) == multiset(old(a[..]))
  {
    a[j], a[j - 1] := a[j - 1], a[j];
  }

  /** Moves element `i` towards the front past everything it is not before, equals included. */
  method Insert(a: array<Item>, i: nat)
    requires i < a.Length && Descending(a[..i])
    modifies a
    ensures Descending(a[..i + 1]) && a[i + 1..] == old(a[i + 1..])
    ensures multiset(a[..]) == multiset(old(a[..]))
  {
    var j := i;
    while j > 0 && NotBefore(a[j], a[j - 1])
      invariant 0 <= j <= i < a.Length
      invariant a[i + 1..] == old(a[i + 1..])
      invariant multiset(a[..]) == multiset(old(a[..]))
      invariant forall p, q | 0 <= p < q <= i && q != j && p != j :: a[q].snap.stamp <= a[p].snap.stamp
      invariant forall q | j < q <= i :: a[q].snap.stamp <= a[j].snap.stamp
    {
      Swap(a, j);
      j := j - 1;
    }
  }

  /** The insertion sort that short lists get; it terminates although equals compare both ways. */
  method SortDescending(a: array<Item>)
    modifies a
    ensures Descending(a[..])
    ensures multiset(a[..]) == multiset(old(a[..]))
  {
    if a.Length == 0 {
      return;
    }
    for i := 1 to a.Length
      invariant Descending(a[..i])
      invariant multiset(a[..]) == multiset(old(a[..]))
    {
      Insert(a, i);
    }
    assert a[..a.Length] == a[..];
  }

  // ---------------------------------------------------------------- ownership

  function Owned(items: seq<Item>, s: string): seq<Item> {
    if items == [] then []
    else if items[0].snap.owner == Some(s) then [items[0]] + Owned(items[1..], s)
    else Owned(items[1..], s)
  }

  lemma {:induction false} OwnedAppend(items: seq<Item>, x: Item, s: string)
    ensures Owned(items + [x], s) == if x.snap.owner == Some(s) then Owned(items, s) + [x] else Owned(items, s)
  {
    if items == [] {
      assert items + [x] == [x] && [x][1..] == [];
    } else {
      assert (items + [x])[1..] == items[1..] + [x];
      OwnedAppend(items[1..], x, s);
    }
  }

  method FilterOwned(items: seq<Item>, s: string) returns (owned: seq<Item>)
    ensures owned == Owned(items, s)
  {
    owned := [];
    for i := 0 to |items|
      invariant owned == Owned(items[..i], s)
    {
      OwnedAppend(items[..i], items[i], s);
      assert items[..i + 1] == items[..i] + [items[i]];
      if items[i].snap.owner == Some(s) {
        owned := owned + [items[i]];
      }
    }
    assert items[..|items|] == items;
  }

  /** Sorts a copy of the listing, then filters it. */
  method SortAndFilter(items: seq<Item>, s: string) returns (owned: seq<Item>, ghost sorted: seq<Item>)
    ensures multiset(sorted) == multiset(items) && Descending(sorted) && owned == Owned(sorted, s)
  {
    var a := new Item[|items|](i requires 0 <= i < |items| => items[i]);
    assert a[..] == items;
    SortDescending(a);
    sorted := a[..];
    owned := FilterOwned(a[..], s);
  }

  /** Filtering keeps exactly the owned items, as often as they were listed. */
  lemma {:induction false} OwnedExact(items: seq<Item>, s: string)
    ensures forall x :: multiset(Owned(items, s))[x] ==
                          if x.snap.owner == Some(s) then multiset(items)[x] else 0
  {
    if items != [] {
      assert items == [items[0]] + items[1..];
      OwnedExact(items[1..], s);
    }
  }

  lemma {:induction false} OwnedMembers(items: seq<Item>, s: string)
    ensures forall x :: x in Owned(items, s) <==> x in items && x.snap.owner == Some(s)
  {
    if items != [] {
      assert forall x :: x in items <==> x == items[0] || x in items[1..];
      OwnedMembers(items[1..], s);
    }
  }

  lemma DescendingCons(x: Item, rest: seq<Item>)
    requires Descending(rest) && forall y | y in rest :: y.snap.stamp <= x.snap.stamp
    ensures Descending([x] + rest)
  {
  }

  /** Filtering keeps the order. */
  lemma {:induction false} OwnedDescending(items: seq<Item>, s: string)
    requires Descending(items)
    ensures Descending(Owned(items, s))
  {
    if items != [] {
      var x, rest := items[0], Owned(items[1..], s);
      OwnedDescending(items[1..], s);
      OwnedMembers(items[1..], s);
      forall y | y in rest ensures y.snap.stamp <= x.snap.stamp {
        var i :| 0 <= i < |items[1..]| && items[1..][i] == y;
        assert items[i + 1] == y;
      }
      DescendingCons(x, rest);
    }
  }

  predicate Distinct(items: seq<Item>) {
    forall i, j | 0 <= i < j < |items| :: items[i].name != items[j].name
  }

  // ---------------------------------------------------------------- what gets deleted

  /** The walk of the garbage collector, with the number of successes met before. */
  function DoomedFrom(items: seq<Item>, met: nat, retention: int32): seq<Item> {
    if items == [] then []
    else if items[0].snap.phase != Succeeded then DoomedFrom(items[1..], met, retention)
    else if met + 1 > retention then [items[0]] + DoomedFrom(items[1..], met + 1, retention)
    else DoomedFrom(items[1..], met + 1, retention)
  }

  function Doomed(items: seq<Item>, retention: int32): seq<Item> {
    DoomedFrom(items, 0, retention)
  }

  function Successes(items: seq<Item>): seq<Item> {
    if items == [] then []
    else if items[0].snap.phase == Succeeded then [items[0]] + Successes(items[1..])
    else Successes(items[1..])
  }

  function Kept(total: nat, retention: int32): nat {
    if retention < 0 then 0 else if retention < total then retention else total
  }

  lemma {:induction false} AllDoomedFrom(items: seq<Item>, met: nat, retention: int32)
    requires met >= retention
    ensures DoomedFrom(items, met, retention) == Successes(items)
  {
    if items != [] {
      AllDoomedFrom(items[1..], if items[0].snap.phase == Succeeded then met + 1 else met, retention);
    }
  }

  /** With room left for `room` more successes, these are spared. */
  lemma {:induction false} RoomSpares(items: seq<Item>, met: nat, retention: int32, room: nat)
    requires met + room == retention
    ensures DoomedFrom(items, met, retention) ==
              if |Successes(items)| <= room then [] else Successes(items)[room..]
  {
    if room == 0 {
      AllDoomedFrom(items, met, retention);
    } else if items != [] {
      var tail := Successes(items[1..]);
      if items[0].snap.phase != Succeeded {
        RoomSpares(items[1..], met, retention, room);
      } else {
        RoomSpares(items[1..], met + 1, retention, room - 1);
        assert |tail| >= room ==> ([items[0]] + tail)[room..] == tail[room - 1..];
      }
    }
  }

  /**
   The collector deletes exactly the successes after the first `retention` of them, so that
   min(retention, total) remain; a negative retention keeps none.
   */
  lemma DoomedExact(items: seq<Item>, retention: int32)
    ensures Doomed(items, retention) == Successes(items)[Kept(|Successes(items)|, retention)..]
  {
    if retention <= 0 {
      AllDoomedFrom(items, 0, retention);
    } else {
      RoomSpares(items, 0, retention, retention);
    }
  }

  lemma {:induction false} SuccessesMembers(items: seq<Item>)
    ensures forall x :: x in Successes(items) <==> x in items && x.snap.phase == Succeeded
  {
    if items != [] {
      assert forall x :: x in items <==> x == items[0] || x in items[1..];
      SuccessesMembers(items[1..]);
    }
  }

  lemma {:induction false} SuccessesDescending(items: seq<Item>)
    requires Descending(items)
    ensures Descending(Successes(items))
  {
    if items != [] {
      var x, rest := items[0], Successes(items[1..]);
      SuccessesDescending(items[1..]);
      SuccessesMembers(items[1..]);
      forall y | y in rest ensures y.snap.stamp <= x.snap.stamp {
        var i :| 0 <= i < |items[1..]| && items[1..][i] == y;
        assert items[i + 1] == y;
      }
      DescendingCons(x, rest);
    }
  }

  /** However ties were ordered, nothing that is kept is older than anything that is deleted. */
  lemma NewestKept(items: seq<Item>, retention: int32, i: nat, j: nat)
    requires Descending(items)
    requires i < Kept(|Successes(items)|, retention) && j < |Doomed(items, retention)|
    ensures Doomed(items, retention)[j].snap.stamp <= Successes(items)[i].snap.stamp
  {
    DoomedExact(items, retention);
    SuccessesDescending(items);
  }

  /** Only successes are ever deleted. */
  lemma OnlySuccessesDoomed(items: seq<Item>, retention: int32)
    ensures forall x | x in Doomed(items, retention) :: x in items && x.snap.phase == Succeeded
  {
    DoomedExact(items, retention);
    SuccessesMembers(items);
  }

  /** The snapshot just made is put in front before collecting; still in no phase, it changes nothing. */
  lemma NewcomerIgnored(x: Item, items: seq<Item>, retention: int32)
    requires x.snap.phase != Succeeded
    ensures Doomed([x] + items, retention) == Doomed(items, retention)
  {
    assert ([x] + items)[1..] == items;
  }

  // ---------------------------------------------------------------- listings

  /** `items` lists every stored snapshot once. */
  predicate Lists(items: seq<Item>, snaps: map<string, Snapshot>) {
    && Distinct(items)
    && (forall x | x in items :: x.name in snaps && snaps[x.name] == x.snap)
    && (forall n | n in snaps :: Item(n, snaps[n]) in items)
  }

  /** The listed successes of `s` that are no older than `x`, itself left out. */
  function Peers(items: seq<Item>, s: string, x: Item): set<string> {
    set y | y in items && y.snap.owner == Some(s) && y.snap.phase == Succeeded &&
            x.snap.stamp <= y.snap.stamp && y.name != x.name :: y.name
  }

  /** `n` is listed as a success of `s` beside at least `keep` others that are no older. */
  predicate Excess(items: seq<Item>, s: string, n: string, keep: int32) {
    exists x | x in items ::
      x.name == n && x.snap.owner == Some(s) && x.snap.phase == Succeeded && |Peers(items, s, x)| >= keep
  }

  lemma Subset<T>(a: set<T>, b: set<T>)
    requires a <= b
    ensures |a| <= |b|
  {
    if a != {} {
      var x :| x in a;
      Subset(a - {x}, b - {x});
    }
  }

  function Names(items: seq<Item>): set<string> {
    set x | x in items :: x.name
  }

  lemma {:induction false} NamesCount(items: seq<Item>)
    ensures |Names(items)| <= |items|
    ensures Distinct(items) ==> |Names(items)| == |items|
  {
    if items == [] {
      assert Names(items) == {};
    } else {
      var front, x := items[..|items| - 1], items[|items| - 1];
      NamesCount(front);
      assert items == front + [x];
      assert Names(items) == Names(front) + {x.name};
      if Distinct(items) {
        forall y | y in front ensures y.name != x.name {
          var i :| 0 <= i < |front| && front[i] == y;
          assert items[i] == y;
        }
      }
    }
  }

  lemma {:induction false} SuccessesDistinct(items: seq<Item>)
    requires Distinct(items)
    ensures Distinct(Successes(items))
  {
    if items != [] {
      var x, rest := items[0], items[1..];
      SuccessesDistinct(rest);
      SuccessesMembers(rest);
      forall y | y in Successes(rest) ensures y.name != x.name {
        assert y in rest;
        var i :| 0 <= i < |rest| && rest[i] == y;
        assert items[i + 1] == y;
      }
    }
  }

  /** What precedes a success among the sorted successes is its peer. */
  lemma FrontIsPeers(items: seq<Item>, s: string, all: seq<Item>, r: nat, j: nat)
    requires Descending(all) && Distinct(all) && r <= j < |all|
    requires forall y | y in all :: y in items && y.snap.owner == Some(s) && y.snap.phase == Succeeded
    ensures |Peers(items, s, all[j])| >= r
  {
    var front := all[..r];
    NamesCount(front);
    forall n | n in Names(front) ensures n in Peers(items, s, all[j]) {
      var y :| y in front && y.name == n;
      var i :| 0 <= i < r && all[i] == y;
      assert y in all;
    }
    Subset(Names(front), Peers(items, s, all[j]));
  }

  /** What the collector deletes was in excess of the retention already in the listing, however it was sorted. */
  lemma DoomedIsExcess(items: seq<Item>, s: string, kids: seq<Item>, keep: int32, x: Item)
    requires Descending(kids) && Distinct(kids) && x in Doomed(kids, keep)
    requires forall y :: y in kids <==> y in items && y.snap.owner == Some(s)
    ensures Excess(items, s, x.name, keep)
  {
    DoomedExact(kids, keep);
    SuccessesMembers(kids);
    SuccessesDescending(kids);
    SuccessesDistinct(kids);
    var all := Successes(kids);
    var r := Kept(|all|, keep);
    var j :| r <= j < |all| && all[j] == x;
    FrontIsPeers(items, s, all, r, j);
  }

  // ---------------------------------------------------------------- interrupted passes

  function Without(items: seq<Item>, gone: set<string>): seq<Item> {
    if items == [] then []
    else if items[0].name in gone then Without(items[1..], gone)
    else [items[0]] + Without(items[1..], gone)
  }

  lemma SuccessesConcat(a: seq<Item>, b: seq<Item>)
    requires |a| <= 1
    ensures Successes(a + b) == Successes(a) + Successes(b)
  {
    if a == [] {
      assert a + b == b;
    } else {
      assert (a + b)[1..] == b;
    }
  }

  lemma {:induction false} WithoutConcat(a: seq<Item>, b: seq<Item>, gone: set<string>)
    ensures Without(a + b, gone) == Without(a, gone) + Without(b, gone)
  {
    if a == [] {
      assert a + b == b;
    } else {
      assert (a + b)[1..] == a[1..] + b;
      WithoutConcat(a[1..], b, gone);
    }
  }

  lemma {:induction false} SuccessesWithout(items: seq<Item>, gone: set<string>)
    ensures Successes(Without(items, gone)) == Without(Successes(items), gone)
  {
    if items != [] {
      SuccessesWithout(items[1..], gone);
      var x, rest := items[0], items[1..];
      SuccessesConcat(if x.name in gone then [] else [x], Without(rest, gone));
      WithoutConcat(if x.snap.phase == Succeeded then [x] else [], Successes(rest), gone);
    }
  }

  lemma {:induction false} WithoutNone(items: seq<Item>, gone: set<string>)
    requires forall x | x in items :: x.name !in gone
    ensures Without(items, gone) == items
  {
    if items != [] {
      WithoutNone(items[1..], gone);
    }
  }

  lemma {:induction false} WithoutAll(items: seq<Item>, gone: set<string>)
    requires forall x | x in items :: x.name in gone
    ensures Without(items, gone) == []
  {
    if items != [] {
      WithoutAll(items[1..], gone);
    }
  }

  lemma Apart(a: seq<Item>, b: seq<Item>)
    requires Distinct(a + b)
    ensures forall x | x in a :: x.name !in Names(b)
    ensures forall x | x in b :: x.name !in Names(a)
  {
    forall i, j | 0 <= i < |a| && 0 <= j < |b| ensures a[i].name != b[j].name {
      assert (a + b)[i] == a[i] && (a + b)[|a| + j] == b[j];
    }
  }

  lemma {:induction false} NoneWithoutNone(items: seq<Item>, gone: set<string>)
    ensures |Without(items, gone)| <= |items|
  {
    if items != [] {
      NoneWithoutNone(items[1..], gone);
    }
  }

  /**
   A pass that got through some of its deletions, of which some have left the list and others are still
   listed as pending, and is then repeated, dooms of what is listed exactly what the first pass doomed:
   together they delete what one uninterrupted pass would have, and spare what it would have.
   */
  lemma RetryCompletes(items: seq<Item>, retention: int32, gone: set<string>)
    requires Distinct(items) && gone <= Names(Doomed(items, retention))
    ensures Doomed(Without(items, gone), retention) == Without(Doomed(items, retention), gone)
  {
    var all := Successes(items);
    var r := Kept(|all|, retention);
    var (front, back) := (all[..r], all[r..]);
    DoomedExact(items, retention);
    SuccessesDistinct(items);
    assert all == front + back;
    Apart(front, back);
    WithoutNone(front, gone);
    WithoutConcat(front, back, gone);
    SuccessesWithout(items, gone);
    DoomedExact(Without(items, gone), retention);
    NoneWithoutNone(back, gone);
    assert Successes(Without(items, gone)) == front + Without(back, gone);
  }

  /** In particular, a pass aborted at its first failing deletion leaves exactly the rest to the next. */
  lemma AbortedPassResumes(items: seq<Item>, retention: int32, k: nat)
    requires Distinct(items) && k <= |Doomed(items, retention)|
    ensures var done := Doomed(items, retention)[..k];
            Doomed(Without(items, Names(done)), retention) == Doomed(items, retention)[k..]
  {
    var all := Doomed(items, retention);
    var (done, rest) := (all[..k], all[k..]);
    DoomedExact(items, retention);
    SuccessesDistinct(items);
    assert all == done + rest;
    RetryCompletes(items, retention, Names(done));
    WithoutConcat(done, rest, Names(done));
    WithoutAll(done, Names(done));
    Apart(done, rest);
    WithoutNone(rest, Names(done));
  }

  // ---------------------------------------------------------------- repeated passes

  /** No two items were created in the same instant. */
  predicate Untied(items: seq<Item>) {
    forall x, y | x in items && y in items && x.name != y.name :: x.snap.stamp != y.snap.stamp
  }

  predicate SameSuccess(x: Item, y: Item) {
    x.name == y.name && x.snap.stamp == y.snap.stamp && x.snap.phase == Succeeded
  }

  /** `y` was listed as a success, under the same name and with the same creation time, in `items`. */
  predicate Met(items: seq<Item>, y: Item) {
    exists i | 0 <= i < |items| :: SameSuccess(items[i], y)
  }

  /** Whatever precedes the item in the later list preceded it in the earlier one. */
  lemma NewerAreNewer(items: seq<Item>, all: seq<Item>, all': seq<Item>, j: nat, k: nat)
    requires Untied(items) && Descending(all) && Descending(all') && Distinct(all')
    requires forall x | x in all :: x in items
    requires forall x | x in items && x.snap.phase == Succeeded :: x in all
    requires forall y | y in all' :: Met(items, y)
    requires j < |all'| && k < |all| && SameSuccess(all[k], all'[j])
    ensures Names(all'[..j]) <= Names(all[..k])
  {
    forall i | 0 <= i < j ensures all'[i].name in Names(all[..k]) {
      assert Met(items, all'[i]);
      var x :| x in items && SameSuccess(x, all'[i]);
      var h :| 0 <= h < |all| && all[h] == x;
      assert all[k] in items && x.snap.stamp > all[k].snap.stamp;
      assert h < k;
      assert all[..k][h] == x;
    }
  }

  /** In the later list a success stands no further back than it did in the earlier one. */
  lemma NoEarlier(items: seq<Item>, later: seq<Item>, j: nat) returns (k: nat)
    requires Descending(items) && Distinct(items) && Untied(items)
    requires Descending(later) && Distinct(later)
    requires forall y | y in later && y.snap.phase == Succeeded :: Met(items, y)
    requires j < |Successes(later)|
    ensures j <= k < |Successes(items)| && SameSuccess(Successes(items)[k], Successes(later)[j])
  {
    var (all, all') := (Successes(items), Successes(later));
    SuccessesMembers(items);
    SuccessesMembers(later);
    SuccessesDescending(items);
    SuccessesDescending(later);
    SuccessesDistinct(later);
    assert all'[j] in later;
    var x :| x in items && SameSuccess(x, all'[j]);
    k :| 0 <= k < |all| && all[k] == x;
    NewerAreNewer(items, all, all', j, k);
    NamesCount(all'[..j]);
    NamesCount(all[..k]);
    Subset(Names(all'[..j]), Names(all[..k]));
  }

  /**
   A later pass dooms nothing that an earlier one spared, as long as it lists no new successes and no
   two snapshots share a creation time: repeating a pass, aborted or not, never deletes more.
   */
  lemma LaterPassDoomsNoMore(items: seq<Item>, later: seq<Item>, retention: int32)
    requires Descending(items) && Distinct(items) && Untied(items)
    requires Descending(later) && Distinct(later)
    requires forall y | y in later && y.snap.phase == Succeeded :: Met(items, y)
    ensures Names(Doomed(later, retention)) <= Names(Doomed(items, retention))
  {
    DoomedExact(items, retention);
    DoomedExact(later, retention);
    var (all, all') := (Successes(items), Successes(later));
    var (r, r') := (Kept(|all|, retention), Kept(|all'|, retention));
    forall y | y in all'[r'..] ensures y.name in Names(all[r..]) {
      var j :| r' <= j < |all'| && all'[j] == y;
      var k := NoEarlier(items, later, j);
      assert r <= k && all[r..][k - r] == all[k];
    }
  }
}
