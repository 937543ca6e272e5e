/**
 The QuestDB reconciler: it builds the children it wants, creates what is missing and overwrites the
 fields it compares. `DbPass` is one undisturbed reconcile.
 */
module DatabaseController {
  import opened Base
  import opened Kinds
  import opened Admission
  import opened Deployment
  import Secrets

  // ---------------------------------------------------------------- one undisturbed reconcile

  function Overwritten(s: StatefulSet, want: StatefulSet): StatefulSet {
    s.(annotations := want.annotations, template := want.template, containers := want.containers,
       volumes := want.volumes, security := want.security)
  }

  /** A write that changes nothing leaves the version alone. */
  function Put(c: Completion, was: StatefulSet, s: StatefulSet): StatefulSet {
    var t := Completed(c, s);
    if t == was then was else t.(version := was.version + 1)
  }

  /** Absent if the server refuses it. */
  function PassStatefulSet(c: Completion, s: Option<StatefulSet>, want: StatefulSet): Option<StatefulSet> {
    if s.None? then
      if Fits(Completed(c, want)) then Some(Completed(c, want)) else None
    else if Agrees(s.value, want) then s
    else if Fits(Completed(c, Overwritten(s.value, want))) then Some(Put(c, s.value, Overwritten(s.value, want)))
    else None
  }

  function PassConfigMap(m: Option<ConfigMap>, want: ConfigMap): ConfigMap {
    if m.None? then want
    else if m.value.data == want.data then m.value
    else want.(version := m.value.version + 1)
  }

  function PassClaim(m: Option<Claim>, want: Claim): Claim {
    if m.None? then want
    else if m.value.request == want.request then m.value
    else m.value.(request := want.request, version := m.value.version + 1)
  }

  function PassService(s: Option<Service>, want: Service): Service {
    if s.None? then want else s.value
  }

  function PassReady(d: Database, s: StatefulSet): Database {
    if s.ready == Wrap32(d.ready) then d else d.(ready := s.ready, version := d.version + 1)
  }

  /** The four children a reconcile wants. */
  datatype Wants = Wants(cm: ConfigMap, claim: Claim, sts: StatefulSet, svc: Service)

  function WantsOf(w: World, d: Database, chosen: Secrets.Chosen): Wants {
    Wants(WantedConfigMap(w.texts, d, chosen), WantedClaim(d), WantedStatefulSet(w.name, d, chosen), WantedService(d))
  }

  /** A refused StatefulSet ends the reconcile before the status and the service. */
  function PassWith(c: Completion, want: Wants, st: DbState): DbState
    requires st.qdb.Some?
  {
    var sts := PassStatefulSet(c, st.sts, want.sts);
    var st1 := st.(cm := Some(PassConfigMap(st.cm, want.cm)), claim := Some(PassClaim(st.claim, want.claim)));
    if sts.None? then st1
    else st1.(sts := sts, svc := Some(PassService(st.svc, want.svc)), qdb := Some(PassReady(st.qdb.value, sts.value)))
  }

  function DbPass(w: World, st: DbState): DbState {
    if st.qdb.None? then st
    else
      var v := Secrets.Select(st.secrets, w.name);
      if v.Err? then st else PassWith(w.completion, WantsOf(w, st.qdb.value, v.chosen), st)
  }

  /** The stored StatefulSet, if any, is as the server completes it, and one it would take. */
  predicate Complete(c: Completion, st: DbState) {
    st.sts.Some? ==> Completed(c, st.sts.value) == st.sts.value && Fits(st.sts.value)
  }

  /** There is no StatefulSet yet, or the present labels are still all that its selector asks for. */
  predicate Selected(st: DbState)
    requires st.qdb.Some?
  {
    st.sts.None? || Covers(st.qdb.value.labels, st.sts.value.selector)
  }

  predicate InOrder(w: World, st: DbState) {
    st.qdb.Some? && Secrets.Select(st.secrets, w.name).Ok?
  }

  lemma StatefulSetConverges(c: Completion, s: Option<StatefulSet>, want: StatefulSet)
    requires Idempotent(c) && (s.Some? ==> Completed(c, s.value) == s.value && Fits(s.value))
    requires want.selector == want.template.labels
    ensures var s' := PassStatefulSet(c, s, want);
            && (s'.Some? <==> s.None? || Covers(want.template.labels, s.value.selector))
            && (s'.Some? ==>
                  && Agrees(s'.value, Completed(c, want))
                  && Completed(c, s'.value) == s'.value && Fits(s'.value)
                  && PassStatefulSet(c, s', want) == s'
                  && (s.Some? ==> s'.value == Overwritten(s.value, s'.value).(version := s'.value.version)))
    ensures s.Some? && !Covers(want.template.labels, s.value.selector) ==> !Agrees(s.value, Completed(c, want))
  {
    var s' := PassStatefulSet(c, s, want);
    if s'.Some? {
      assert c.extras(s'.value.extras) == s'.value.extras;
      assert Completed(c, s'.value) == s'.value;
      if !Agrees(s'.value, want) {
        assert Completed(c, Overwritten(s'.value, want)) == s'.value;
      }
    }
  }

  /** What is wanted does not depend on the status. */
  lemma WantedSame(w: World, d: Database, d': Database, chosen: Secrets.Chosen)
    requires d'.spec == d.spec && d'.labels == d.labels
    ensures WantedStatefulSet(w.name, d', chosen) == WantedStatefulSet(w.name, d, chosen)
    ensures WantedConfigMap(w.texts, d', chosen) == WantedConfigMap(w.texts, d, chosen)
    ensures WantedClaim(d') == WantedClaim(d) && WantedService(d') == WantedService(d)
  {
  }

  function Chosen(w: World, st: DbState): Secrets.Chosen
    requires InOrder(w, st)
  {
    Secrets.Select(st.secrets, w.name).chosen
  }

  function Wanted(w: World, st: DbState): StatefulSet
    requires InOrder(w, st)
  {
    WantedStatefulSet(w.name, st.qdb.value, Chosen(w, st))
  }

  lemma PassWithSettles(c: Completion, want: Wants, st: DbState)
    requires Idempotent(c) && Complete(c, st) && st.qdb.Some? && want.sts.selector == want.sts.template.labels
    ensures PassWith(c, want, PassWith(c, want, st)) == PassWith(c, want, st)
    ensures Complete(c, PassWith(c, want, st))
  {
    StatefulSetConverges(c, st.sts, want.sts);
  }

  lemma SettlesAtOnce(w: World, st: DbState)
    requires Idempotent(w.completion) && Complete(w.completion, st) && InOrder(w, st)
    ensures DbPass(w, DbPass(w, st)) == DbPass(w, st) && Complete(w.completion, DbPass(w, st))
  {
    var (d, chosen) := (st.qdb.value, Chosen(w, st));
    PassWithSettles(w.completion, WantsOf(w, d, chosen), st);
    WantedSame(w, d, DbPass(w, st).qdb.value, chosen);
  }

  lemma PassWithConverges(c: Completion, want: Wants, st: DbState)
    requires Idempotent(c) && Complete(c, st) && st.qdb.Some? && want.sts.selector == want.sts.template.labels
    requires want.sts.selector == st.qdb.value.labels
    ensures var (d, st') := (st.qdb.value, PassWith(c, want, st));
            && st'.cm.Some? && st'.cm.value.data == want.cm.data
            && st'.claim.Some? && st'.claim.value.request == want.claim.request
            && st'.qdb.Some?
            && (st'.sts.Some? && Agrees(st'.sts.value, Completed(c, want.sts)) <==> Selected(st))
            && (Selected(st) ==>
                  && st'.svc.Some?
                  && st'.qdb.value == d.(ready := st'.qdb.value.ready, version := st'.qdb.value.version)
                  && Wrap32(st'.qdb.value.ready) == st'.sts.value.ready)
            && (!Selected(st) ==> st'.sts == st.sts && st'.svc == st.svc && st'.qdb == st.qdb)
  {
    StatefulSetConverges(c, st.sts, want.sts);
  }

  /**
   One undisturbed reconcile makes the config map's data and the claim's request as wanted, and every
   compared field of the StatefulSet what the server makes of the wanted one exactly if the labels still
   fit its selector. If they do not, neither it nor the status nor the service changes. In any case a
   second reconcile changes nothing at all.
   */
  lemma Converges(w: World, st: DbState)
    requires Idempotent(w.completion) && Complete(w.completion, st) && InOrder(w, st)
    ensures var (d, st') := (st.qdb.value, DbPass(w, st));
            && st'.cm.value.data == WantedConfigMap(w.texts, d, Chosen(w, st)).data
            && st'.claim.value.request == d.spec.volume.size
            && (st'.sts.Some? && Agrees(st'.sts.value, Completed(w.completion, Wanted(w, st))) <==> Selected(st))
            && (Selected(st) ==>
                  && st'.svc.Some?
                  && st'.qdb.value == d.(ready := st'.qdb.value.ready, version := st'.qdb.value.version)
                  && Wrap32(st'.qdb.value.ready) == st'.sts.value.ready)
            && (!Selected(st) ==> st'.sts == st.sts && st'.svc == st.svc && st'.qdb == st.qdb)
            && Complete(w.completion, st')
    ensures DbPass(w, DbPass(w, st)) == DbPass(w, st)
  {
    PassWithConverges(w.completion, WantsOf(w, st.qdb.value, Chosen(w, st)), st);
    SettlesAtOnce(w, st);
  }

  predicate Survives(was: map<string, string>, now: map<string, string>, k: string)
    requires k in was
  {
    k in now && now[k] == was[k]
  }

  /**
   An annotation somebody else put on the StatefulSet survives a reconcile exactly if the spec asks for the
   same one, or the server refuses the update; the project's README says it always does.
   */
  lemma AnnotationsPersistIff(w: World, st: DbState, k: string)
    requires Idempotent(w.completion) && Complete(w.completion, st) && InOrder(w, st)
    requires st.sts.Some? && k in st.sts.value.annotations
    ensures DbPass(w, st).sts.Some?
    ensures Survives(st.sts.value.annotations, DbPass(w, st).sts.value.annotations, k) <==>
              !Selected(st) || Survives(st.sts.value.annotations, st.qdb.value.spec.statefulSetAnnotations, k)
  {
    Converges(w, st);
  }

  /** One on the ConfigMap survives exactly if the data there was up to date. */
  lemma ConfigAnnotationsPersistIff(w: World, st: DbState, k: string)
    requires InOrder(w, st) && st.cm.Some? && k in st.cm.value.annotations
    ensures Survives(st.cm.value.annotations, DbPass(w, st).cm.value.annotations, k) <==>
              st.cm.value.data == WantedConfigMap(w.texts, st.qdb.value, Chosen(w, st)).data
  {
  }

  /**
   A service is never updated: after a reconcile it follows the labels exactly if it did so before, or was
   missing and the StatefulSet was not refused.
   */
  lemma ServiceFollowsIff(w: World, st: DbState)
    requires Idempotent(w.completion) && Complete(w.completion, st) && InOrder(w, st)
    ensures DbPass(w, st).svc.Some? && DbPass(w, st).svc.value.selector == st.qdb.value.labels <==>
              if st.svc.None? then Selected(st) else st.svc.value.selector == st.qdb.value.labels
  {
    StatefulSetConverges(w.completion, st.sts, Wanted(w, st));
  }

  // ---------------------------------------------------------------- the API server

  class DatabaseServer {
    const world: World
    /** With `calm` set, nobody else moves and no call fails. */
    const calm: bool
    var st: DbState
    ghost var h: seq<DbState>

    ghost predicate Valid()
      reads this
    {
      DbRun(world, h) && h[|h| - 1] == st
    }

    constructor (world: World, calm: bool)
      ensures Valid() && st == NOTHING
      ensures this.world == world && this.calm == calm
    {
      this.world, this.calm := world, calm;
      st := NOTHING;
      h := [NOTHING];
    }

    method Make(st': DbState)
      requires Valid() && DbNext(world, st, st')
      modifies this
      ensures Valid() && old(h) <= h && st == st'
    {
      st := st';
      h := h + [st];
    }

    /** What the reconcile in progress has read. */
    ghost function Read(): (Option<Database>, Option<Secrets.Chosen>)
      reads this
    {
      (st.past.local, st.past.chosen)
    }

    /** Any number of steps by anybody but the worker. */
    method Environment()
      requires Valid()
      modifies this
      ensures Valid() && old(h) <= h
      ensures calm ==> st == old(st)
      ensures Read() == old(Read())
    {
      var turns: nat := *;
      if calm {
        turns := 0;
      }
      while turns > 0
        invariant Valid() && old(h) <= h
        invariant calm ==> st == old(st)
        invariant Read() == old(Read())
      {
        var st': DbState := *;
        if !calm && DbEnv(world.clean, st, st') {
          Make(st');
        }
        turns := turns - 1;
      }
    }

    /** A fresh read; it opens a reconcile. */
    method GetDatabase(q: QuestDB) returns (r: Reply)
      requires Valid() && st.past.local.None?
      modifies this, q
      ensures Valid() && old(h) <= h
      ensures r == Done ==>
                && st == old(st).(past := old(st).past.(local := Some(q.Value()), chosen := None))
                && st.qdb == Some(q.Value())
      ensures r != Done ==> st == old(st)
      ensures calm ==> r == if old(st).qdb.Some? then Done else NotFound
      ensures r == NotFound ==> old(st).qdb.None? && h == old(h)
    {
      var fault := Risk(calm);
      if st.qdb.None? {
        return NotFound;
      }
      if fault != NoFault {
        return Unavailable;
      }
      q.Fill(st.qdb.value);
      Make(st.(past := st.past.(local := st.qdb, chosen := None)));
      r := Done;
    }

    method Rest()
      requires Valid() && st.past.local.Some?
      modifies this
      ensures Valid() && old(h) <= h
      ensures st == old(st).(past := old(st).past.(local := None, chosen := None))
    {
      Make(st.(past := st.past.(local := None, chosen := None)));
    }

    /** Every secret in the namespace; the history notes which ones are to be used. */
    method ListSecrets() returns (r: Reply, list: seq<Secret>)
      requires Valid() && st.past.local.Some?
      modifies this
      ensures Valid() && old(h) <= h
      ensures st == old(st).(past := st.past) && st.past.local == old(st).past.local
      ensures r == Done ==>
                && list == st.secrets
                && (Secrets.Select(list, world.name).Ok? ==>
                      st.past.chosen == Some(Secrets.Select(list, world.name).chosen))
      ensures calm ==> r == Done
    {
      var fault := Risk(calm);
      list := st.secrets;
      if fault != NoFault {
        return Unavailable, list;
      }
      var v := Secrets.Select(list, world.name);
      if v.Ok? {
        Make(st.(past := st.past.(chosen := Some(v.chosen))));
      }
      r := Done;
    }

    /** Looks up a child object. */
    method Fetch<T>(child: Option<T>) returns (r: Reply, found: Option<T>)
      ensures r == Done ==> found.Some? && found == child
      ensures calm ==> r == if child.Some? then Done else NotFound
    {
      var fault := Risk(calm);
      if fault != NoFault {
        return Unavailable, None;
      }
      found := child;
      r := if child.Some? then Done else NotFound;
    }

    /** Sends a write that makes `st'` unless the server has to answer otherwise. */
    method Write(st': DbState, outcome: Reply) returns (r: Reply)
      requires Valid() && (outcome == Done ==> DbNext(world, st, st'))
      requires st'.past.local == st.past.local && st'.past.chosen == st.past.chosen
      modifies this
      ensures Valid() && old(h) <= h && Read() == old(Read())
      ensures calm ==> r == outcome && st == if outcome == Done then st' else old(st)
      ensures r == Done ==> outcome == Done && st == st'
    {
      var fault := Risk(calm);
      if outcome != Done {
        return outcome;
      }
      if fault == Lost {
        return Unavailable;
      }
      Make(st');
      r := if fault == Unheard then Unavailable else Done;
    }

    method CreateClaim(c: Claim) returns (r: Reply)
      requires Valid() && st.past.local.Some? && c == WantedClaim(st.past.local.value)
      modifies this
      ensures Valid() && old(h) <= h && Read() == old(Read())
      ensures calm && old(st).claim.None? ==> r == Done && st == old(st).(claim := Some(c), past := st.past)
      ensures r == Done ==> st.claim == Some(c)
    {
      r := Write(st.(claim := Some(c), past := st.past.(floor := Some(c.request))),
                 if st.claim.Some? then AlreadyExists else Done);
    }

    /** Changes the request of a claim last read as `c`. */
    method ResizeClaim(c: Claim, size: int) returns (r: Reply)
      requires Valid() && st.past.local.Some? && st.past.local.value.spec.volume.size == size
      modifies this
      ensures Valid() && old(h) <= h && Read() == old(Read())
      ensures calm && old(st).claim == Some(c) ==>
                && r == Done
                && st == old(st).(claim := Some(c.(request := size, version := c.version + 1)), past := st.past)
      ensures r == Done ==> st.claim.Some? && st.claim.value.request == size
    {
      if st.claim.None? || st.claim.value.version != c.version {
        r := Write(st, if st.claim.None? then NotFound else Conflict);
        return;
      }
      r := Write(st.(claim := Some(st.claim.value.(request := size, version := st.claim.value.version + 1)),
                     past := st.past.(floor := Some(size))), Done);
    }

    /** The compared fields of `s` are those wanted for what this reconcile has read. */
    ghost predicate Wanted(s: StatefulSet)
      reads this
    {
      && st.past.local.Some? && st.past.chosen.Some?
      && Agrees(s, WantedStatefulSet(world.name, st.past.local.value, st.past.chosen.value))
    }

    method CreateStatefulSet(s: StatefulSet) returns (r: Reply, stored: StatefulSet)
      requires Valid() && Wanted(s)
      modifies this
      ensures Valid() && old(h) <= h && Read() == old(Read())
      ensures calm && old(st).sts.None? ==>
                var t := Completed(world.completion, s);
                if Fits(t)
                then r == Done && stored == t && st == old(st).(sts := Some(t))
                else r == Invalid && st == old(st)
      ensures r == Done ==> stored == Completed(world.completion, s) && st.sts == Some(stored)
    {
      stored := Completed(world.completion, s);
      r := Write(st.(sts := Some(stored)),
                 if st.sts.Some? then AlreadyExists else if Fits(stored) then Done else Invalid);
    }

    method UpdateStatefulSet(s: StatefulSet) returns (r: Reply, stored: StatefulSet)
      requires Valid() && Wanted(s)
      modifies this
      ensures Valid() && old(h) <= h && Read() == old(Read())
      ensures calm && old(st).sts.Some? && old(st).sts.value == s.(annotations := old(st).sts.value.annotations,
                  template := old(st).sts.value.template, containers := old(st).sts.value.containers,
                  volumes := old(st).sts.value.volumes, security := old(st).sts.value.security) ==>
                if Fits(Completed(world.completion, s))
                then r == Done && stored == Put(world.completion, old(st).sts.value, s)
                     && st == old(st).(sts := Some(stored))
                else r == Invalid && st == old(st)
      ensures r == Done ==> Agrees(stored, Completed(world.completion, s)) && st.sts == Some(stored)
    {
      if st.sts.None? || st.sts.value.version != s.version {
        stored := s;
        r := Write(st, if st.sts.None? then NotFound else Conflict);
        return;
      }
      stored := Put(world.completion, st.sts.value, s.(ready := st.sts.value.ready));
      if s.selector != st.sts.value.selector || !Fits(Completed(world.completion, s)) {
        r := Write(st, Invalid);
        return;
      }
      assert StatefulSetWritten(world, st, st.(sts := Some(stored)));
      r := Write(st.(sts := Some(stored)), Done);
    }

    /** `m` is the config map wanted for what this reconcile has read. */
    ghost predicate WantedMap(m: ConfigMap)
      reads this
    {
      && st.past.local.Some? && st.past.chosen.Some?
      && m == WantedConfigMap(world.texts, st.past.local.value, st.past.chosen.value)
    }

    method CreateConfigMap(m: ConfigMap) returns (r: Reply)
      requires Valid() && WantedMap(m)
      modifies this
      ensures Valid() && old(h) <= h && Read() == old(Read())
      ensures calm && old(st).cm.None? ==> r == Done && st == old(st).(cm := Some(m))
      ensures r == Done ==> st.cm == Some(m)
    {
      r := Write(st.(cm := Some(m)), if st.cm.Some? then AlreadyExists else Done);
    }

    /** A copy that was not read from the server carries no version and replaces whatever is there. */
    method ReplaceConfigMap(m: ConfigMap) returns (r: Reply)
      requires Valid() && WantedMap(m)
      modifies this
      ensures Valid() && old(h) <= h && Read() == old(Read())
      ensures calm && old(st).cm.Some? ==>
                r == Done && st == old(st).(cm := Some(m.(version := old(st).cm.value.version + 1)))
      ensures r == Done ==> st.cm.Some? && st.cm.value.data == m.data
    {
      var version := if st.cm.Some? then st.cm.value.version + 1 else 0;
      r := Write(st.(cm := Some(m.(version := version))), if st.cm.None? then NotFound else Done);
    }

    method CreateService(s: Service) returns (r: Reply)
      requires Valid() && st.past.local.Some? && s == WantedService(st.past.local.value)
      modifies this
      ensures Valid() && old(h) <= h && Read() == old(Read())
      ensures calm && old(st).svc.None? ==> r == Done && st == old(st).(svc := Some(s))
      ensures r == Done ==> st.svc == Some(s)
    {
      r := Write(st.(svc := Some(s)), if st.svc.Some? then AlreadyExists else Done);
    }

    method UpdateStatus(q: QuestDB) returns (r: Reply)
      requires Valid() && st.past.local.Some?
      modifies this
      ensures Valid() && old(h) <= h && Read() == old(Read())
      ensures calm && old(st).qdb.Some? && old(st).qdb.value.version == q.version ==>
                && r == Done
                && st == old(st).(qdb := Some(old(st).qdb.value.(ready := q.ready, version := q.version + 1)))
    {
      if st.qdb.None? || st.qdb.value.version != q.version {
        r := Write(st, if st.qdb.None? then NotFound else Conflict);
        return;
      }
      r := Write(st.(qdb := Some(st.qdb.value.(ready := q.ready, version := q.version + 1))), Done);
    }
  }

  // ---------------------------------------------------------------- the reconciler

  predicate ConfigServed(w: World, st: DbState, d: Database, chosen: Secrets.Chosen) {
    st.cm.Some? && st.cm.value.data == WantedConfigMap(w.texts, d, chosen).data
  }

  predicate ClaimServed(st: DbState, d: Database) {
    st.claim.Some? && st.claim.value.request == d.spec.volume.size
  }

  /** The compared fields are as wanted, as sent or as the server completes them. */
  predicate StatefulSetServed(w: World, st: DbState, d: Database, chosen: Secrets.Chosen) {
    && st.sts.Some?
    && var want := WantedStatefulSet(w.name, d, chosen);
    Agrees(st.sts.value, want) || Agrees(st.sts.value, Completed(w.completion, want))
  }

  /** From state number `from` on, each child in its turn was as wanted at some moment, the service at least there. */
  predicate ServedInTurn(w: World, h: seq<DbState>, from: nat, d: Database, chosen: Secrets.Chosen, at: seq<nat>) {
    && |at| == 4
    && from <= at[0] <= at[1] <= at[2] <= at[3] < |h|
    && ConfigServed(w, h[at[0]], d, chosen)
    && ClaimServed(h[at[1]], d)
    && StatefulSetServed(w, h[at[2]], d, chosen)
    && h[at[3]].svc.Some?
  }

  class DatabaseReconciler {
    const api: DatabaseServer

    constructor (api: DatabaseServer)
      ensures this.api == api
    {
      this.api := api;
    }

    /** A reconcile is under way that has read `d`, up to its status, and chosen these secrets. */
    ghost predicate Reading(d: Database, chosen: Secrets.Chosen)
      reads this, api
    {
      && api.Valid()
      && api.st.past.local.Some?
      && api.st.past.local.value.spec == d.spec && api.st.past.local.value.labels == d.labels
      && api.st.past.chosen == Some(chosen)
    }

    method BuildStatefulSet(d: Database, chosen: Secrets.Chosen) returns (s: StatefulSet)
      ensures s == WantedStatefulSet(api.world.name, d, chosen)
    {
      var policy := d.spec.pullPolicy;
      if policy == "" {
        policy := PULL_IF_NOT_PRESENT;
      }
      var box := Container(d.spec.image, policy, d.spec.extraEnv, [], d.spec.resources,
                           [Mount(DATA, DATA_PATH), Mount(CONFIG, CONFIG_PATH)] + Extra(d.spec.extraMounts));
      var volumes := [PodVolume(DATA, ClaimSource(api.world.name)), PodVolume(CONFIG, ConfigSource(api.world.name))] +
                     ExtraVolumes(d.spec.extraVolumes);
      if chosen.ilp.Some? {
        box := box.(mounts := box.mounts + [Mount(Secrets.ILP, AUTH_PATH)]);
        volumes := volumes + [PodVolume(Secrets.ILP, SecretSource(chosen.ilp.value.name))];
      }
      if chosen.psql.Some? {
        box := box.(envFrom := box.envFrom + [chosen.psql.value.name]);
      }
      ghost var want := WantedContainer(d, chosen);
      assert box.mounts == want.mounts;
      assert box.envFrom == want.envFrom;
      assert volumes == WantedVolumes(api.world.name, d, chosen);
      s := StatefulSet(d.labels, d.labels, d.spec.statefulSetAnnotations,
                       Meta(api.world.name, d.labels, d.spec.podAnnotations),
                       [box], volumes, d.spec.security, d.spec.extras, 0, 0);
    }

    method ReconcileConfigMap(q: QuestDB, chosen: Secrets.Chosen) returns (r: Reply, ghost at: nat)
      requires Reading(q.Value(), chosen)
      modifies api
      ensures Reading(q.Value(), chosen) && old(api.h) <= api.h
      ensures r == Done ==> |old(api.h)| - 1 <= at < |api.h| && ConfigServed(api.world, api.h[at], q.Value(), chosen)
      ensures api.calm ==>
                && r == Done
                && var want := WantedConfigMap(api.world.texts, q.Value(), chosen);
                api.st == old(api.st).(cm := Some(PassConfigMap(old(api.st).cm, want)))
    {
      var desired := WantedConfigMap(api.world.texts, q.Value(), chosen);
      api.Environment();
      var actual;
      r, actual := api.Fetch(api.st.cm);
      at := |api.h| - 1;
      if r == NotFound {
        api.Environment();
        r := api.CreateConfigMap(desired);
        actual := Some(desired);
        at := |api.h| - 1;
      }
      if r != Done {
        return;
      }
      if actual.value.data != desired.data {
        api.Environment();
        r := api.ReplaceConfigMap(desired);
        at := |api.h| - 1;
      }
    }

    method ReconcilePvc(q: QuestDB, ghost chosen: Secrets.Chosen) returns (r: Reply, ghost at: nat)
      requires Reading(q.Value(), chosen)
      modifies api
      ensures Reading(q.Value(), chosen) && old(api.h) <= api.h
      ensures r == Done ==> |old(api.h)| - 1 <= at < |api.h| && ClaimServed(api.h[at], q.Value())
      ensures api.calm ==>
                && r == Done
                && var claim := PassClaim(old(api.st).claim, WantedClaim(q.Value()));
                api.st == old(api.st).(claim := Some(claim), past := api.st.past)
    {
      api.Environment();
      var actual;
      r, actual := api.Fetch(api.st.claim);
      at := |api.h| - 1;
      if r == NotFound {
        var desired := WantedClaim(q.Value());
        api.Environment();
        r := api.CreateClaim(desired);
        actual := Some(desired);
        at := |api.h| - 1;
      }
      if r != Done {
        return;
      }
      if actual.value.request != q.spec.volume.size {
        api.Environment();
        r := api.ResizeClaim(actual.value, q.spec.volume.size);
        at := |api.h| - 1;
      }
    }

    /** Overwrites what differs, field by field, and tells whether anything did. */
    method Amend(found: StatefulSet, desired: StatefulSet) returns (actual: StatefulSet, needsUpdate: bool)
      ensures actual == Overwritten(found, desired)
      ensures needsUpdate <==> !Agrees(found, desired)
    {
      actual, needsUpdate := found, false;
      if actual.annotations != desired.annotations {
        actual, needsUpdate := actual.(annotations := desired.annotations), true;
      }
      if actual.template != desired.template {
        actual, needsUpdate := actual.(template := desired.template), true;
      }
      if actual.containers != desired.containers {
        actual, needsUpdate := actual.(containers := desired.containers), true;
      }
      if actual.volumes != desired.volumes {
        actual, needsUpdate := actual.(volumes := desired.volumes), true;
      }
      if actual.security != desired.security {
        actual, needsUpdate := actual.(security := desired.security), true;
      }
    }

    /** Writes a StatefulSet read as `found` if anything in it differs. */
    method SendStatefulSet(found: StatefulSet, desired: StatefulSet) returns (r: Reply, actual: StatefulSet)
      requires api.Valid() && api.Wanted(desired)
      modifies api
      ensures api.Valid() && old(api.h) <= api.h && api.Read() == old(api.Read())
      ensures r == Done ==>
                if Agrees(found, desired) then actual == found && api.st == old(api.st)
                else Agrees(actual, Completed(api.world.completion, desired)) && api.st.sts == Some(actual)
      ensures api.calm && old(api.st).sts == Some(found) ==>
                var s := PassStatefulSet(api.world.completion, Some(found), desired);
                && (r == Done <==> s.Some?)
                && (r == Done ==> s == Some(actual))
                && api.st == old(api.st).(sts := if r == Done then s else old(api.st).sts)
    {
      var needsUpdate;
      r := Done;
      actual, needsUpdate := Amend(found, desired);
      if needsUpdate {
        api.Environment();
        r, actual := api.UpdateStatefulSet(actual);
      }
    }

    /** Creates the StatefulSet, or writes it if anything differed. */
    method EnsureStatefulSet(d: Database, chosen: Secrets.Chosen)
      returns (r: Reply, actual: StatefulSet, ghost at: nat)
      requires Reading(d, chosen)
      modifies api
      ensures Reading(d, chosen) && old(api.h) <= api.h
      ensures r == Done ==> |old(api.h)| - 1 <= at < |api.h| && StatefulSetServed(api.world, api.h[at], d, chosen)
      ensures api.calm ==>
                var want := WantedStatefulSet(api.world.name, d, chosen);
                var s := PassStatefulSet(api.world.completion, old(api.st).sts, want);
                && (r == Done <==> s.Some?)
                && (r == Done ==> s == Some(actual))
                && api.st == old(api.st).(sts := if r == Done then s else old(api.st).sts)
    {
      var desired := BuildStatefulSet(d, chosen);
      api.Environment();
      var found;
      r, found := api.Fetch(api.st.sts);
      at := |api.h| - 1;
      if r == NotFound {
        api.Environment();
        r, actual := api.CreateStatefulSet(desired);
        at := |api.h| - 1;
        return;
      }
      if r != Done {
        actual := desired;
        return;
      }
      r, actual := SendStatefulSet(found.value, desired);
      if !Agrees(found.value, desired) {
        at := |api.h| - 1;
      }
    }

    method ReconcileStatefulSet(q: QuestDB, chosen: Secrets.Chosen) returns (r: Reply, ghost at: nat)
      requires Reading(q.Value(), chosen)
      modifies api, q
      ensures Reading(q.Value(), chosen) && old(api.h) <= api.h
      ensures q.spec == old(q.spec) && q.labels == old(q.labels)
      ensures r == Done ==>
                |old(api.h)| - 1 <= at < |api.h| && StatefulSetServed(api.world, api.h[at], q.Value(), chosen)
      ensures api.calm && old(api.st.qdb == Some(q.Value())) ==>
                var d := old(q.Value());
                var want := WantedStatefulSet(api.world.name, d, chosen);
                var s := PassStatefulSet(api.world.completion, old(api.st).sts, want);
                && (r == Done <==> s.Some?)
                && api.st == if s.Some?
                             then old(api.st).(sts := s, qdb := Some(PassReady(d, s.value)))
                             else old(api.st)
    {
      var actual;
      r, actual, at := EnsureStatefulSet(q.Value(), chosen);
      WantedSame(api.world, old(q.Value()), q.Value(), chosen);
      if r != Done {
        return;
      }
      if actual.ready != Wrap32(q.ready) {
        q.ready := actual.ready;
        WantedSame(api.world, old(q.Value()), q.Value(), chosen);
        api.Environment();
        r := api.UpdateStatus(q);
      }
    }

    method ReconcileService(q: QuestDB, ghost chosen: Secrets.Chosen) returns (r: Reply, ghost at: nat)
      requires Reading(q.Value(), chosen)
      modifies api
      ensures Reading(q.Value(), chosen) && old(api.h) <= api.h
      ensures r == Done ==> |old(api.h)| - 1 <= at < |api.h| && api.h[at].svc.Some?
      ensures api.calm ==>
                r == Done && api.st == old(api.st).(svc := Some(PassService(old(api.st).svc, WantedService(q.Value()))))
    {
      api.Environment();
      var actual;
      r, actual := api.Fetch(api.st.svc);
      at := |api.h| - 1;
      if r == NotFound {
        api.Environment();
        r := api.CreateService(WantedService(q.Value()));
        at := |api.h| - 1;
      }
    }

    method ReconcileChildren(q: QuestDB, chosen: Secrets.Chosen) returns (r: Reply, ghost at: seq<nat>)
      requires Reading(q.Value(), chosen)
      modifies api, q
      ensures Reading(q.Value(), chosen) && old(api.h) <= api.h
      ensures r == Done ==> ServedInTurn(api.world, api.h, |old(api.h)| - 1, old(q.Value()), chosen, at)
      ensures && api.calm && old(api.st.qdb == Some(q.Value()))
              && Secrets.Select(old(api.st).secrets, api.world.name) == Secrets.Ok(chosen) ==>
                api.st == DbPass(api.world, old(api.st)).(past := api.st.past)
    {
      ghost var d := q.Value();
      at := [];
      ghost var i, j, k, l;
      r, i := ReconcileConfigMap(q, chosen);
      if r != Done {
        return;
      }
      r, j := ReconcilePvc(q, chosen);
      if r != Done {
        return;
      }
      r, k := ReconcileStatefulSet(q, chosen);
      if r != Done {
        return;
      }
      WantedSame(api.world, d, q.Value(), chosen);
      r, l := ReconcileService(q, chosen);
      at := [i, j, k, l];
    }

    /** Everything after the read: secrets first, then the children. */
    method Serve(q: QuestDB) returns (r: Reply, ghost chosen: Secrets.Chosen, ghost at: seq<nat>)
      requires api.Valid() && api.st.past.local == Some(q.Value())
      modifies api, q
      ensures api.Valid() && api.st.past.local.Some? && old(api.h) <= api.h
      ensures r == Done ==> ServedInTurn(api.world, api.h, |old(api.h)| - 1, old(q.Value()), chosen, at)
      ensures api.calm && old(api.st.qdb == Some(q.Value())) ==>
                api.st == DbPass(api.world, old(api.st)).(past := api.st.past)
    {
      chosen, at := Secrets.Chosen(None, None), [];
      api.Environment();
      var list;
      r, list := api.ListSecrets();
      if r != Done {
        return;
      }
      var v := Secrets.GetSecrets(list, api.world.name);
      if v.Err? {
        return Invalid, chosen, at;
      }
      chosen := v.chosen;
      r, at := ReconcileChildren(q, v.chosen);
    }

    /**
     Any number of other steps may come before, between and after the calls this makes. If it reports success,
     there was no QuestDB, or each child in its turn was as wanted for the one read, `read`, at some moment.
     */
    method Reconcile()
      returns (r: Reply, ghost read: Option<Database>, ghost chosen: Secrets.Chosen, ghost at: seq<nat>)
      requires api.Valid() && api.st.past.local.None?
      modifies api
      ensures api.Valid() && api.st.past.local.None? && old(api.h) <= api.h
      ensures r == Done && read.Some? ==>
                ServedInTurn(api.world, api.h, |old(api.h)| - 1, read.value, chosen, at)
      ensures r == Done && read.None? ==> exists i | |old(api.h)| - 1 <= i < |api.h| :: api.h[i].qdb.None?
      ensures api.calm ==> api.st == DbPass(api.world, old(api.st)).(past := api.st.past)
    {
      read, chosen, at := None, Secrets.Chosen(None, None), [];
      var q := new QuestDB();
      api.Environment();
      assert api.h[|api.h| - 1] == api.st;
      r := api.GetDatabase(q);
      if r != Done {
        return if r == NotFound then Done else r, read, chosen, at;
      }
      read := Some(q.Value());
      r, chosen, at := Serve(q);
      api.Rest();
    }
  }
}
