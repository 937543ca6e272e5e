/**
 What the QuestDB controller deploys and what one undisturbed reconcile of it changes, with every name
 written out.
 */
module DatabaseLaws {
  import opened Base
  import opened Kinds
  import opened Admission
  import opened Deployment
  import opened DatabaseController
  import Secrets

  // ---------------------------------------------------------------- the pod

  /** What `s` mounts at `path` is `source` and nothing else. */
  predicate Backed(s: StatefulSet, path: string, source: Source)
    requires |s.containers| == 1
  {
    var mounts := s.containers[0].mounts;
    && (exists m | m in mounts :: m.Mount? && m.path == path)
    && forall m | m in mounts && m.Mount? && m.path == path ::
         && PodVolume(m.name, source) in s.volumes
         && forall v | v in s.volumes && v.PodVolume? && v.name == m.name :: v.source == source
  }

  lemma PathsDiffer()
    ensures "/var/lib/questdb/db" != "/var/lib/questdb/conf"
    ensures "/var/lib/questdb/db" != "/var/lib/questdb/auth"
    ensures "/var/lib/questdb/conf" != "/var/lib/questdb/auth"
  {
    assert "/var/lib/questdb/db"[17] == 'd' && "/var/lib/questdb/conf"[17] == 'c' && "/var/lib/questdb/auth"[17] == 'a';
  }

  lemma ExtraMembers(texts: seq<string>)
    ensures forall m :: m in Extra(texts) <==> m.ExtraMount? && m.text in texts
  {
    forall m: Mount | m.ExtraMount? && m.text in texts ensures m in Extra(texts) {
      var i :| 0 <= i < |texts| && texts[i] == m.text;
      assert Extra(texts)[i] == m;
    }
  }

  lemma ExtraVolumeMembers(texts: seq<string>)
    ensures forall v :: v in ExtraVolumes(texts) <==> v.ExtraVolume? && v.text in texts
  {
    forall v: PodVolume | v.ExtraVolume? && v.text in texts ensures v in ExtraVolumes(texts) {
      var i :| 0 <= i < |texts| && texts[i] == v.text;
      assert ExtraVolumes(texts)[i] == v;
    }
  }

  /** The operator's own mounts and volumes, in whatever order; the rest are the user's. */
  lemma OwnMounts(n: string, d: Database, chosen: Secrets.Chosen)
    ensures var s := WantedStatefulSet(n, d, chosen);
            && |s.containers| == 1
            && (forall m :: m in s.containers[0].mounts <==>
                  || m == Mount("data", "/var/lib/questdb/db") || m == Mount("config", "/var/lib/questdb/conf")
                  || (m.ExtraMount? && m.text in d.spec.extraMounts)
                  || (chosen.ilp.Some? && m == Mount("ilp", "/var/lib/questdb/auth")))
            && (forall v :: v in s.volumes <==>
                  || v == PodVolume("data", ClaimSource(n)) || v == PodVolume("config", ConfigSource(n))
                  || (v.ExtraVolume? && v.text in d.spec.extraVolumes)
                  || (chosen.ilp.Some? && v == PodVolume("ilp", SecretSource(chosen.ilp.value.name))))
  {
    ExtraMembers(d.spec.extraMounts);
    ExtraVolumeMembers(d.spec.extraVolumes);
  }

  lemma NamesDiffer()
    ensures "data" != "config" && "data" != "ilp" && "config" != "ilp"
  {
    assert "data"[0] == 'd' && "config"[0] == 'c' && "ilp"[0] == 'i';
  }

  lemma DatabasePath(n: string, d: Database, chosen: Secrets.Chosen)
    ensures |WantedStatefulSet(n, d, chosen).containers| == 1
    ensures Backed(WantedStatefulSet(n, d, chosen), "/var/lib/questdb/db", ClaimSource(n))
  {
    OwnMounts(n, d, chosen);
    PathsDiffer();
    NamesDiffer();
    assert Mount("data", "/var/lib/questdb/db") in WantedStatefulSet(n, d, chosen).containers[0].mounts;
  }

  lemma ConfigPath(n: string, d: Database, chosen: Secrets.Chosen)
    ensures |WantedStatefulSet(n, d, chosen).containers| == 1
    ensures Backed(WantedStatefulSet(n, d, chosen), "/var/lib/questdb/conf", ConfigSource(n))
  {
    OwnMounts(n, d, chosen);
    PathsDiffer();
    NamesDiffer();
    assert Mount("config", "/var/lib/questdb/conf") in WantedStatefulSet(n, d, chosen).containers[0].mounts;
  }

  lemma AuthPath(n: string, d: Database, chosen: Secrets.Chosen)
    ensures var s := WantedStatefulSet(n, d, chosen);
            && |s.containers| == 1
            && if chosen.ilp.Some?
               then Backed(s, "/var/lib/questdb/auth", SecretSource(chosen.ilp.value.name))
               else forall m | m in s.containers[0].mounts && m.Mount? :: m.path != "/var/lib/questdb/auth"
  {
    OwnMounts(n, d, chosen);
    PathsDiffer();
    NamesDiffer();
    if chosen.ilp.Some? {
      assert Mount("ilp", "/var/lib/questdb/auth") in WantedStatefulSet(n, d, chosen).containers[0].mounts;
    }
  }

  /**
   The database directory is the claim named like the QuestDB, the configuration directory the config map
   of that name, and the credentials directory the ILP secret, which is there exactly if there is one.
   */
  lemma PathsBacked(n: string, d: Database, chosen: Secrets.Chosen)
    ensures var s := WantedStatefulSet(n, d, chosen);
            && |s.containers| == 1
            && Backed(s, "/var/lib/questdb/db", ClaimSource(n))
            && Backed(s, "/var/lib/questdb/conf", ConfigSource(n))
            && (if chosen.ilp.Some?
                then Backed(s, "/var/lib/questdb/auth", SecretSource(chosen.ilp.value.name))
                else forall m | m in s.containers[0].mounts && m.Mount? :: m.path != "/var/lib/questdb/auth")
  {
    DatabasePath(n, d, chosen);
    ConfigPath(n, d, chosen);
    AuthPath(n, d, chosen);
  }

  /** Everything else of the StatefulSet is as the spec says; the psql secret is the container's environment. */
  lemma SpecDeployed(n: string, d: Database, chosen: Secrets.Chosen)
    ensures var s := WantedStatefulSet(n, d, chosen);
            && |s.containers| == 1
            && var box := s.containers[0];
            && box.image == d.spec.image
            && box.pullPolicy == (if d.spec.pullPolicy == "" then "IfNotPresent" else d.spec.pullPolicy)
            && box.env == d.spec.extraEnv && box.resources == d.spec.resources
            && box.envFrom == (if chosen.psql.Some? then [chosen.psql.value.name] else [])
            && s.selector == d.labels && s.labels == d.labels && s.annotations == d.spec.statefulSetAnnotations
            && s.template == Meta(n, d.labels, d.spec.podAnnotations)
            && s.security == d.spec.security && s.extras == d.spec.extras
  {
  }

  // ---------------------------------------------------------------- the config map

  /**
   The server configuration is the user's followed by the reserved settings, with the credentials file
   exactly if there is an ILP secret; the log configuration is the user's, or the default.
   */
  lemma ConfigTexts(texts: Texts, d: Database, chosen: Secrets.Chosen)
    ensures var data := WantedConfigMap(texts, d, chosen).data;
            && data.Keys == {"server.conf", "log.conf", "mime.types"}
            && data["server.conf"] ==
                 d.spec.config.serverConfig + "\n### Reserved values -- set by the operator ###\n" +
                 (if chosen.ilp.Some? then "ilp.auth.file=/var/lib/questdb/auth/auth.json\n" else "")
            && data["log.conf"] == (if d.spec.config.logConfig == "" then texts.logConfig else d.spec.config.logConfig)
            && data["mime.types"] == texts.mimeTypes
  {
    assert "server.conf"[0] == 's' && "log.conf"[0] == 'l' && "mime.types"[0] == 'm';
    var own := d.spec.config.serverConfig;
    assert own + (RESERVED + ILP_AUTH) == own + RESERVED + ILP_AUTH;
    assert own + (RESERVED + "") == own + RESERVED + "";
  }

  // ---------------------------------------------------------------- one undisturbed reconcile

  /** A missing claim is made as the spec describes the volume; of an existing one only the request changes. */
  lemma ClaimAsAsked(w: World, st: DbState)
    requires InOrder(w, st)
    ensures var (v, st') := (st.qdb.value.spec.volume, DbPass(w, st));
            && st'.claim.Some?
            && var c := st'.claim.value;
            && c.request == v.size
            && (st.claim.None? ==>
                  && c.labels == st.qdb.value.labels && c.selector == v.selector && c.volumeName == v.volumeName
                  && c.storageClass == v.storageClass && c.snapshotName == v.snapshotName)
            && (st.claim.Some? ==> c == st.claim.value.(request := c.request, version := c.version))
  {
  }

  /** A config map whose data is up to date stays; any other is replaced, its labels and annotations too. */
  lemma ConfigAsAsked(w: World, st: DbState)
    requires InOrder(w, st)
    ensures var (want, st') := (WantedConfigMap(w.texts, st.qdb.value, Chosen(w, st)), DbPass(w, st));
            && st'.cm.Some?
            && (if st.cm.Some? && st.cm.value.data == want.data then st'.cm == st.cm
                else st'.cm.value.data == want.data && st'.cm.value.labels == st.qdb.value.labels
                     && st'.cm.value.annotations == map[])
  {
  }

  /** A missing service is made with the labels, also as its selector; an existing one stays. */
  lemma ServiceAsAsked(w: World, st: DbState)
    requires Idempotent(w.completion) && Complete(w.completion, st) && InOrder(w, st) && Selected(st)
    ensures var st' := DbPass(w, st);
            && st'.svc.Some?
            && (if st.svc.Some? then st'.svc == st.svc
                else st'.svc.value.labels == st.qdb.value.labels && st'.svc.value.selector == st.qdb.value.labels)
  {
    StatefulSetConverges(w.completion, st.sts, Wanted(w, st));
  }

  /** The five compared fields are what the server makes of the wanted ones; the others of an existing set stay. */
  lemma StatefulSetAsAsked(w: World, st: DbState)
    requires Idempotent(w.completion) && Complete(w.completion, st) && InOrder(w, st) && Selected(st)
    ensures var (want, c, st') := (Wanted(w, st), w.completion, DbPass(w, st));
            && st'.sts.Some?
            && var s := st'.sts.value;
            && s.annotations == want.annotations
            && s.template == c.template(want.template)
            && s.containers == c.containers(want.containers)
            && s.volumes == c.volumes(want.volumes)
            && s.security == c.security(want.security)
            && (if st.sts.None?
                then s.selector == want.selector && s.labels == want.labels && s.extras == c.extras(want.extras)
                else s.selector == st.sts.value.selector && s.labels == st.sts.value.labels
                     && s.extras == st.sts.value.extras && s.ready == st.sts.value.ready)
  {
    StatefulSetConverges(w.completion, st.sts, Wanted(w, st));
  }

  lemma CountedInFull(x: int, r: int32)
    ensures r == Wrap32(x) <==> (x - r) % 0x1_0000_0000 == 0
  {
  }

  /** Of the QuestDB itself only the count of ready replicas is written, as the StatefulSet has it in 32 bits. */
  lemma StatusAsCounted(w: World, st: DbState)
    requires Idempotent(w.completion) && Complete(w.completion, st) && InOrder(w, st) && Selected(st)
    ensures var (d, st') := (st.qdb.value, DbPass(w, st));
            && st'.qdb.Some? && st'.sts.Some?
            && st'.qdb.value.spec == d.spec && st'.qdb.value.labels == d.labels
            && st'.qdb.value.ready ==
                 (if (d.ready - st'.sts.value.ready) % 0x1_0000_0000 == 0 then d.ready else st'.sts.value.ready)
  {
    StatefulSetConverges(w.completion, st.sts, Wanted(w, st));
    CountedInFull(st.qdb.value.ready, DbPass(w, st).sts.value.ready);
  }

  /** With the secrets in disorder, or no QuestDB, nothing happens. */
  lemma DisorderLeaves(w: World, st: DbState)
    requires !InOrder(w, st)
    ensures DbPass(w, st) == st
  {
  }
}
