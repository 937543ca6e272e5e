/** Finding the credentials annotated for one database among the secrets of a namespace. */
module Secrets {
  import opened Base
  import opened Kinds

  const ANNOTATION_NAME := "questdb.crd.questdb.io/name"
  const ANNOTATION_TYPE := "questdb.crd.questdb.io/secret-type"
  const ILP := "ilp"
  const PSQL := "psql"

  datatype Chosen = Chosen(ilp: Option<Secret>, psql: Option<Secret>)

  datatype SecretError = MultipleIlp | MultiplePsql | UnknownType(text: string) | InvalidIlp | InvalidPsql

  datatype Selection = Ok(chosen: Chosen) | Err(error: SecretError)

  /** A missing key reads as the empty string. */
  function Text(m: map<string, string>, k: string): string {
    if k in m then m[k] else ""
  }

  predicate Ours(s: Secret, name: string) {
    Text(s.annotations, ANNOTATION_NAME) == name
  }

  function TypeOf(s: Secret): string {
    Text(s.annotations, ANNOTATION_TYPE)
  }

  predicate ValidIlp(s: Secret) {
    Text(s.data, "auth.json") != ""
  }

  predicate ValidPsql(s: Secret) {
    Text(s.data, "QDB_PG_USER") != "" && Text(s.data, "QDB_PG_PASSWORD") != ""
  }

  /** One pass over the list in order, stopping at the first conflict. */
  function Scan(list: seq<Secret>, name: string, acc: Chosen): Selection {
    if list == [] then Ok(acc)
    else if !Ours(list[0], name) then Scan(list[1..], name, acc)
    else if TypeOf(list[0]) == ILP then
      if acc.ilp.Some? then Err(MultipleIlp) else Scan(list[1..], name, acc.(ilp := Some(list[0])))
    else if TypeOf(list[0]) == PSQL then
      if acc.psql.Some? then Err(MultiplePsql) else Scan(list[1..], name, acc.(psql := Some(list[0])))
    else Err(UnknownType(TypeOf(list[0])))
  }

  function Checked(c: Chosen): Selection {
    if c.ilp.Some? && !ValidIlp(c.ilp.value) then Err(InvalidIlp)
    else if c.psql.Some? && !ValidPsql(c.psql.value) then Err(InvalidPsql)
    else Ok(c)
  }

  function Select(list: seq<Secret>, name: string): Selection {
    var v := Scan(list, name, Chosen(None, None));
    if v.Ok? then Checked(v.chosen) else v
  }

  /** The pgwire credentials must both be present; the keys are visited in no particular order. */
  method ValidatePsql(s: Secret) returns (ok: bool)
    ensures ok <==> ValidPsql(s)
  {
    var expected := map["QDB_PG_USER" := false, "QDB_PG_PASSWORD" := false];
    var left := expected.Keys;
    while left != {}
      invariant left <= expected.Keys == {"QDB_PG_USER", "QDB_PG_PASSWORD"}
      invariant forall k :: k in expected.Keys - left ==> (expected[k] <==> Text(s.data, k) != "")
      invariant forall k :: k in left ==> !expected[k]
      decreases left
    {
      var k :| k in left;
      left := left - {k};
      if k in s.data && s.data[k] != "" {
        expected := expected[k := true];
      }
    }
    assert "QDB_PG_USER" in expected && "QDB_PG_PASSWORD" in expected;
    ok := forall k | k in expected :: expected[k];
  }

  method GetSecrets(list: seq<Secret>, name: string) returns (v: Selection)
    ensures v == Select(list, name)
  {
    var chosen := Chosen(None, None);
    for i := 0 to |list|
      invariant Scan(list, name, Chosen(None, None)) == Scan(list[i..], name, chosen)
    {
      var s := list[i];
      assert list[i..][1..] == list[i + 1..];
      if Ours(s, name) {
        if TypeOf(s) == ILP {
          if chosen.ilp.Some? {
            return Err(MultipleIlp);
          }
          chosen := chosen.(ilp := Some(s));
        } else if TypeOf(s) == PSQL {
          if chosen.psql.Some? {
            return Err(MultiplePsql);
          }
          chosen := chosen.(psql := Some(s));
        } else {
          return Err(UnknownType(TypeOf(s)));
        }
      }
    }
    if chosen.ilp.Some? && !ValidIlp(chosen.ilp.value) {
      return Err(InvalidIlp);
    }
    if chosen.psql.Some? {
      var ok := ValidatePsql(chosen.psql.value);
      if !ok {
        return Err(InvalidPsql);
      }
    }
    return Ok(chosen);
  }

  // ---------------------------------------------------------------- what selection means

  predicate Match(s: Secret, name: string, kind: string) {
    Ours(s, name) && TypeOf(s) == kind
  }

  function Matches(list: seq<Secret>, name: string, kind: string): seq<Secret> {
    if list == [] then []
    else (if Match(list[0], name, kind) then [list[0]] else []) + Matches(list[1..], name, kind)
  }

  predicate KnownTypes(list: seq<Secret>, name: string) {
    forall s | s in list && Ours(s, name) :: TypeOf(s) == ILP || TypeOf(s) == PSQL
  }

  /** At most one secret of each known type, no other type, and valid contents. */
  predicate Acceptable(list: seq<Secret>, name: string) {
    && KnownTypes(list, name)
    && |Matches(list, name, ILP)| <= 1
    && |Matches(list, name, PSQL)| <= 1
    && (forall s | s in list && Match(s, name, ILP) :: ValidIlp(s))
    && (forall s | s in list && Match(s, name, PSQL) :: ValidPsql(s))
  }

  function First(list: seq<Secret>): Option<Secret> {
    if list == [] then None else Some(list[0])
  }

  lemma {:induction false} ScanExact(list: seq<Secret>, name: string, acc: Chosen)
    ensures Scan(list, name, acc).Ok? <==>
              && KnownTypes(list, name)
              && |Matches(list, name, ILP)| + (if acc.ilp.Some? then 1 else 0) <= 1
              && |Matches(list, name, PSQL)| + (if acc.psql.Some? then 1 else 0) <= 1
    ensures Scan(list, name, acc).Ok? ==>
              Scan(list, name, acc).chosen ==
                Chosen(if acc.ilp.Some? then acc.ilp else First(Matches(list, name, ILP)),
                       if acc.psql.Some? then acc.psql else First(Matches(list, name, PSQL)))
  {
    if list != [] {
      var s, rest := list[0], list[1..];
      assert forall x :: x in list <==> x == s || x in rest;
      ScanExact(rest, name, acc);
      ScanExact(rest, name, acc.(ilp := Some(s)));
      ScanExact(rest, name, acc.(psql := Some(s)));
    }
  }

  lemma {:induction false} MatchesMembers(list: seq<Secret>, name: string, kind: string)
    ensures forall s :: s in Matches(list, name, kind) <==> s in list && Match(s, name, kind)
    ensures forall s :: multiset(Matches(list, name, kind))[s] ==
                          if Match(s, name, kind) then multiset(list)[s] else 0
  {
    if list != [] {
      MatchesMembers(list[1..], name, kind);
      assert list == [list[0]] + list[1..];
    }
  }

  lemma OneMember(list: seq<Secret>)
    ensures |list| <= 1 ==> forall s :: First(list) == Some(s) <==> s in list
  {
  }

  /**
   Selection succeeds exactly on acceptable lists, and then yields of each type the secret annotated
   for that name, if there is one.
   */
  lemma SelectExact(list: seq<Secret>, name: string)
    ensures Select(list, name).Ok? <==> Acceptable(list, name)
    ensures Select(list, name).Ok? ==>
              forall s ::
                && (Select(list, name).chosen.ilp == Some(s) <==> s in list && Match(s, name, ILP))
                && (Select(list, name).chosen.psql == Some(s) <==> s in list && Match(s, name, PSQL))
  {
    ScanExact(list, name, Chosen(None, None));
    MatchesMembers(list, name, ILP);
    MatchesMembers(list, name, PSQL);
    OneMember(Matches(list, name, ILP));
    OneMember(Matches(list, name, PSQL));
  }

  lemma SameChoice(a: Option<Secret>, b: Option<Secret>)
    requires forall s :: a == Some(s) <==> b == Some(s)
    ensures a == b
  {
    if a.Some? { assert b == Some(a.value); }
    if b.Some? { assert a == Some(b.value); }
  }

  lemma SameMatches(list: seq<Secret>, list': seq<Secret>, name: string, kind: string)
    requires multiset(list) == multiset(list')
    ensures |Matches(list, name, kind)| == |Matches(list', name, kind)|
  {
    MatchesMembers(list, name, kind);
    MatchesMembers(list', name, kind);
    var a, b := multiset(Matches(list, name, kind)), multiset(Matches(list', name, kind));
    forall s ensures a[s] == b[s] {
    }
    assert a == b;
    assert |a| == |Matches(list, name, kind)| && |b| == |Matches(list', name, kind)|;
  }

  /** The order in which the API lists secrets does not matter. */
  lemma SelectOrderFree(list: seq<Secret>, list': seq<Secret>, name: string)
    requires multiset(list) == multiset(list')
    ensures Select(list, name).Ok? <==> Select(list', name).Ok?
    ensures Select(list, name).Ok? ==> Select(list, name) == Select(list', name)
  {
    SelectExact(list, name);
    SelectExact(list', name);
    forall s ensures s in list <==> s in list' {
      assert s in list <==> s in multiset(list);
      assert s in list' <==> s in multiset(list');
    }
    SameMatches(list, list', name, ILP);
    SameMatches(list, list', name, PSQL);
    if Select(list, name).Ok? {
      SameChoice(Select(list, name).chosen.ilp, Select(list', name).chosen.ilp);
      SameChoice(Select(list, name).chosen.psql, Select(list', name).chosen.psql);
    }
  }

  /** The value under a key, or the empty string if there is none. */
  function Read(m: map<string, string>, k: string): string {
    if k in m then m[k] else ""
  }

  /** Annotated for `name` as a secret of the given type. */
  predicate Typed(s: Secret, name: string, kind: string) {
    && Read(s.annotations, "questdb.crd.questdb.io/name") == name
    && Read(s.annotations, "questdb.crd.questdb.io/secret-type") == kind
  }

  lemma {:induction false} MatchOnce(list: seq<Secret>, name: string, kind: string) returns (i: nat)
    requires Matches(list, name, kind) != []
    ensures i < |list| && Match(list[i], name, kind)
  {
    if Match(list[0], name, kind) {
      i := 0;
    } else {
      i := MatchOnce(list[1..], name, kind);
      i := i + 1;
    }
  }

  lemma {:induction false} MatchTwice(list: seq<Secret>, name: string, kind: string) returns (i: nat, j: nat)
    requires |Matches(list, name, kind)| > 1
    ensures i < j < |list| && Match(list[i], name, kind) && Match(list[j], name, kind)
  {
    if Match(list[0], name, kind) {
      i := 0;
      j := MatchOnce(list[1..], name, kind);
      j := j + 1;
    } else {
      i, j := MatchTwice(list[1..], name, kind);
      i, j := i + 1, j + 1;
    }
  }

  lemma {:induction false} MatchCounts(list: seq<Secret>, name: string, kind: string, i: nat)
    requires i < |list| && Match(list[i], name, kind)
    ensures Matches(list, name, kind) != []
  {
    if i > 0 {
      MatchCounts(list[1..], name, kind, i - 1);
    }
  }

  lemma {:induction false} MatchCountsTwice(list: seq<Secret>, name: string, kind: string, i: nat, j: nat)
    requires i < j < |list| && Match(list[i], name, kind) && Match(list[j], name, kind)
    ensures |Matches(list, name, kind)| > 1
  {
    if i == 0 {
      MatchCounts(list[1..], name, kind, j - 1);
    } else {
      MatchCountsTwice(list[1..], name, kind, i - 1, j - 1);
    }
  }

  lemma OneMatch(list: seq<Secret>, name: string, kind: string)
    ensures |Matches(list, name, kind)| <= 1 <==>
              forall i, j | 0 <= i < j < |list| :: !(Match(list[i], name, kind) && Match(list[j], name, kind))
  {
    if |Matches(list, name, kind)| > 1 {
      var i, j := MatchTwice(list, name, kind);
    } else {
      forall i, j | 0 <= i < j < |list| ensures !(Match(list[i], name, kind) && Match(list[j], name, kind)) {
        if Match(list[i], name, kind) && Match(list[j], name, kind) {
          MatchCountsTwice(list, name, kind, i, j);
          assert false;
        }
      }
    }
  }

  /**
   The same with everything written out: every secret annotated for the name is of type "ilp" or "psql",
   no two are of the same type, an "ilp" one has an auth.json and a "psql" one a user and a password.
   */
  lemma SelectLiterally(list: seq<Secret>, name: string)
    ensures Select(list, name).Ok? <==>
              && (forall s | s in list && Read(s.annotations, "questdb.crd.questdb.io/name") == name ::
                    Typed(s, name, "ilp") || Typed(s, name, "psql"))
              && (forall i, j | 0 <= i < j < |list| :: !(Typed(list[i], name, "ilp") && Typed(list[j], name, "ilp")))
              && (forall i, j | 0 <= i < j < |list| :: !(Typed(list[i], name, "psql") && Typed(list[j], name, "psql")))
              && (forall s | s in list && Typed(s, name, "ilp") :: Read(s.data, "auth.json") != "")
              && (forall s | s in list && Typed(s, name, "psql") ::
                    Read(s.data, "QDB_PG_USER") != "" && Read(s.data, "QDB_PG_PASSWORD") != "")
    ensures Select(list, name).Ok? ==>
              forall s ::
                && (Select(list, name).chosen.ilp == Some(s) <==> s in list && Typed(s, name, "ilp"))
                && (Select(list, name).chosen.psql == Some(s) <==> s in list && Typed(s, name, "psql"))
  {
    SelectExact(list, name);
    OneMatch(list, name, ILP);
    OneMatch(list, name, PSQL);
    assert forall s :: Match(s, name, "ilp") <==> Typed(s, name, "ilp");
    assert forall s :: Match(s, name, "psql") <==> Typed(s, name, "psql");
  }
}
