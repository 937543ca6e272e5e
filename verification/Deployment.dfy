/**
 What the operator deploys for one QuestDB, and the steps its API objects can take. `DbState` is
 everything that belongs to one QuestDB name; `past` is a history variable.
 */
module Deployment {
  import opened Base
  import opened Kinds
  import opened Admission
  import Secrets

  // ---------------------------------------------------------------- the child objects

  datatype Mount = Mount(name: string, path: string) | ExtraMount(text: string)

  datatype Source =
    | ClaimSource(claim: string)
    | ConfigSource(config: string)
    | SecretSource(secret: string)

  datatype PodVolume = PodVolume(name: string, source: Source) | ExtraVolume(text: string)

  datatype Container = Container(
    image: string, pullPolicy: string, env: seq<string>, envFrom: seq<string>, resources: string, mounts: seq<Mount>)

  datatype Meta = Meta(name: string, labels: map<string, string>, annotations: map<string, string>)

  /** `selector` gives the labels a pod must have to belong to the set. */
  datatype StatefulSet = StatefulSet(
    selector: map<string, string>, labels: map<string, string>, annotations: map<string, string>,
    template: Meta, containers: seq<Container>, volumes: seq<PodVolume>, security: Security, extras: PodExtras,
    ready: int32, version: nat)

  datatype ConfigMap = ConfigMap(
    labels: map<string, string>, annotations: map<string, string>, data: map<string, string>, version: nat)

  datatype Service = Service(labels: map<string, string>, selector: map<string, string>, version: nat)

  /** A PersistentVolumeClaim: where its contents and its volume come from, and how much it requests. */
  datatype Claim = Claim(
    labels: map<string, string>, selector: Option<string>, volumeName: string, storageClass: Option<string>,
    snapshotName: string, request: int, version: nat)
  {
    function AsVolume(): VolumeSpec {
      VolumeSpec(selector, request, volumeName, storageClass, snapshotName)
    }
  }

  // ---------------------------------------------------------------- what the server makes of a write

  /** How the API server completes the fields of a StatefulSet, each by itself. */
  datatype Completion = Completion(
    template: Meta -> Meta, containers: seq<Container> -> seq<Container>,
    volumes: seq<PodVolume> -> seq<PodVolume>, security: Security -> Security, extras: PodExtras -> PodExtras)

  /** `labels` are all that `selector` asks for. */
  predicate Covers(labels: map<string, string>, selector: map<string, string>) {
    forall k | k in selector :: k in labels && labels[k] == selector[k]
  }

  /** The template's labels are all that the selector asks for; the server takes no other StatefulSet. */
  predicate Fits(s: StatefulSet) {
    Covers(s.template.labels, s.selector)
  }

  /** Completing twice is completing once, and labels are left as they are. */
  ghost predicate Idempotent(c: Completion) {
    && (forall x :: c.template(c.template(x)) == c.template(x) && c.template(x).labels == x.labels)
    && (forall x :: c.containers(c.containers(x)) == c.containers(x))
    && (forall x :: c.volumes(c.volumes(x)) == c.volumes(x))
    && (forall x :: c.security(c.security(x)) == c.security(x))
    && (forall x :: c.extras(c.extras(x)) == c.extras(x))
  }

  function Completed(c: Completion, s: StatefulSet): StatefulSet {
    s.(template := c.template(s.template), containers := c.containers(s.containers),
       volumes := c.volumes(s.volumes), security := c.security(s.security), extras := c.extras(s.extras))
  }

  // ---------------------------------------------------------------- what the operator wants

  /** Texts the operator ships: the mime table and the default log configuration. */
  datatype Texts = Texts(mimeTypes: string, logConfig: string)

  const DATA := "data"
  const CONFIG := "config"
  const SERVER_CONF := "server.conf"
  const LOG_CONF := "log.conf"
  const MIME_TYPES := "mime.types"
  const DATA_PATH := "/var/lib/questdb/db"
  const CONFIG_PATH := "/var/lib/questdb/conf"
  const AUTH_PATH := "/var/lib/questdb/auth"
  const RESERVED := "\n### Reserved values -- set by the operator ###\n"
  const ILP_AUTH := "ilp.auth.file=/var/lib/questdb/auth/auth.json\n"

  function Extra(mounts: seq<string>): seq<Mount> {
    seq(|mounts|, i requires 0 <= i < |mounts| => ExtraMount(mounts[i]))
  }

  function ExtraVolumes(volumes: seq<string>): seq<PodVolume> {
    seq(|volumes|, i requires 0 <= i < |volumes| => ExtraVolume(volumes[i]))
  }

  function WantedContainer(d: Database, chosen: Secrets.Chosen): Container {
    Container(d.spec.image, if d.spec.pullPolicy == "" then PULL_IF_NOT_PRESENT else d.spec.pullPolicy,
              d.spec.extraEnv, if chosen.psql.Some? then [chosen.psql.value.name] else [], d.spec.resources,
              [Mount(DATA, DATA_PATH), Mount(CONFIG, CONFIG_PATH)] + Extra(d.spec.extraMounts) +
              (if chosen.ilp.Some? then [Mount(Secrets.ILP, AUTH_PATH)] else []))
  }

  function WantedVolumes(n: string, d: Database, chosen: Secrets.Chosen): seq<PodVolume> {
    [PodVolume(DATA, ClaimSource(n)), PodVolume(CONFIG, ConfigSource(n))] + ExtraVolumes(d.spec.extraVolumes) +
    (if chosen.ilp.Some? then [PodVolume(Secrets.ILP, SecretSource(chosen.ilp.value.name))] else [])
  }

  function WantedStatefulSet(n: string, d: Database, chosen: Secrets.Chosen): StatefulSet {
    StatefulSet(d.labels, d.labels, d.spec.statefulSetAnnotations, Meta(n, d.labels, d.spec.podAnnotations),
                [WantedContainer(d, chosen)], WantedVolumes(n, d, chosen), d.spec.security, d.spec.extras, 0, 0)
  }

  /** Every volume the operator itself mounts is declared, and the ILP secret is mounted if there is one. */
  lemma MountsDeclared(n: string, d: Database, chosen: Secrets.Chosen)
    ensures var s := WantedStatefulSet(n, d, chosen);
            && (forall m | m in s.containers[0].mounts && m.Mount? ::
                  exists v :: v in s.volumes && v.PodVolume? && v.name == m.name)
            && ((exists v :: v in s.volumes && v.PodVolume? && v.source.SecretSource?) <==> chosen.ilp.Some?)
  {
    var s := WantedStatefulSet(n, d, chosen);
    assert s.volumes[0].name == DATA && s.volumes[1].name == CONFIG;
    if chosen.ilp.Some? {
      assert s.volumes[|s.volumes| - 1] == PodVolume(Secrets.ILP, SecretSource(chosen.ilp.value.name));
    }
  }

  function WantedConfigMap(texts: Texts, d: Database, chosen: Secrets.Chosen): ConfigMap {
    var suffix := RESERVED + if chosen.ilp.Some? then ILP_AUTH else "";
    ConfigMap(d.labels, map[],
              map[SERVER_CONF := d.spec.config.serverConfig + suffix,
                  LOG_CONF := if d.spec.config.logConfig == "" then texts.logConfig else d.spec.config.logConfig,
                  MIME_TYPES := texts.mimeTypes], 0)
  }

  function WantedService(d: Database): Service {
    Service(d.labels, d.labels, 0)
  }

  function WantedClaim(d: Database): Claim {
    var v := d.spec.volume;
    Claim(d.labels, v.selector, v.volumeName, v.storageClass, v.snapshotName, v.size, 0)
  }

  /** The fields the reconciler compares are as in `want`. */
  predicate Agrees(s: StatefulSet, want: StatefulSet) {
    && s.annotations == want.annotations
    && s.template == want.template
    && s.containers == want.containers
    && s.volumes == want.volumes
    && s.security == want.security
  }

  /** What one reconciler goes by: the rules of the server it talks to, its texts, and its key. */
  datatype World = World(clean: string -> bool, completion: Completion, texts: Texts, name: string)

  // ---------------------------------------------------------------- the state and its steps

  /**
   `local` and `chosen` are the database and the secrets the reconcile in progress has read, `floor` is the
   latest claim's request.
   */
  datatype DbPast = DbPast(born: bool, local: Option<Database>, chosen: Option<Secrets.Chosen>, floor: Option<int>)

  datatype DbState = DbState(
    qdb: Option<Database>, sts: Option<StatefulSet>, cm: Option<ConfigMap>, svc: Option<Service>,
    claim: Option<Claim>, secrets: seq<Secret>, past: DbPast)

  const NOTHING := DbState(None, None, None, None, None, [], DbPast(false, None, None, None))

  predicate DbCreated(clean: string -> bool, st: DbState, st': DbState) {
    && st == NOTHING.(secrets := st.secrets)
    && st'.qdb.Some?
    && st'.qdb.value.spec == DatabaseDefaulted(st'.qdb.value.spec)
    && DatabaseCreate(clean, st'.qdb.value.spec).Admitted?
    && st' == st.(qdb := st'.qdb, past := st.past.(born := true))
  }

  predicate DbEdited(clean: string -> bool, st: DbState, st': DbState) {
    && st.qdb.Some? && st'.qdb.Some?
    && var (d, d') := (st.qdb.value, st'.qdb.value);
    && d'.spec == DatabaseDefaulted(d'.spec)
    && DatabaseUpdate(clean, d.spec, d'.spec).Admitted?
    && d'.ready == d.ready && d'.version == d.version + 1
    && st' == st.(qdb := st'.qdb)
  }

  predicate DbGone(st: DbState, st': DbState) {
    st.past.born && st' == st.(qdb := None)
  }

  /** Anybody may edit or delete the children, but of a claim only its labels may change. */
  predicate ChildrenTouched(st: DbState, st': DbState) {
    && st.past.born
    && (st.sts.Some? && st'.sts.Some? ==> st.sts.value.version < st'.sts.value.version || st'.sts == st.sts)
    && (st.cm.Some? && st'.cm.Some? ==> st.cm.value.version < st'.cm.value.version || st'.cm == st.cm)
    && (st'.claim.Some? ==> st.claim.Some? && st'.claim.value.AsVolume() == st.claim.value.AsVolume())
    && st' == st.(sts := st'.sts, cm := st'.cm, svc := st'.svc, claim := st'.claim)
  }

  predicate SecretsChanged(st: DbState, st': DbState) {
    st' == st.(secrets := st'.secrets)
  }

  predicate DbEnv(clean: string -> bool, st: DbState, st': DbState) {
    || DbCreated(clean, st, st') || DbEdited(clean, st, st') || DbGone(st, st')
    || ChildrenTouched(st, st') || SecretsChanged(st, st')
  }

  predicate DbBegins(st: DbState, st': DbState) {
    && st.past.local.None? && st.qdb.Some?
    && st' == st.(past := st.past.(local := st.qdb, chosen := None))
  }

  predicate DbEnds(st: DbState, st': DbState) {
    st.past.local.Some? && st' == st.(past := st.past.(local := None, chosen := None))
  }

  predicate SecretsChosen(w: World, st: DbState, st': DbState) {
    && st.past.local.Some?
    && Secrets.Select(st.secrets, w.name).Ok?
    && st' == st.(past := st.past.(chosen := Some(Secrets.Select(st.secrets, w.name).chosen)))
  }

  /** The claim is made as the worker's own copy of the database describes it. */
  predicate ClaimCreated(st: DbState, st': DbState) {
    && st.past.local.Some? && st.claim.None?
    && var claim := WantedClaim(st.past.local.value);
    st' == st.(claim := Some(claim), past := st.past.(floor := Some(claim.request)))
  }

  predicate ClaimResized(st: DbState, st': DbState) {
    && st.past.local.Some? && st.claim.Some?
    && var size := st.past.local.value.spec.volume.size;
    && st' == st.(claim := Some(st.claim.value.(request := size, version := st.claim.value.version + 1)),
                  past := st.past.(floor := Some(size)))
  }

  /** Every compared field is what the server makes of the one wanted for what this reconcile has read. */
  predicate StatefulSetWritten(w: World, st: DbState, st': DbState) {
    && st.past.local.Some? && st.past.chosen.Some? && st'.sts.Some?
    && var want := WantedStatefulSet(w.name, st.past.local.value, st.past.chosen.value);
    && Agrees(st'.sts.value, Completed(w.completion, want))
    && Fits(st'.sts.value)
    && (st.sts.Some? ==> st'.sts.value.ready == st.sts.value.ready && st'.sts.value.selector == st.sts.value.selector)
    && st' == st.(sts := st'.sts)
  }

  predicate ConfigMapWritten(w: World, st: DbState, st': DbState) {
    && st.past.local.Some? && st.past.chosen.Some? && st'.cm.Some?
    && var want := WantedConfigMap(w.texts, st.past.local.value, st.past.chosen.value);
    && st'.cm.value == want.(version := st'.cm.value.version)
    && st' == st.(cm := st'.cm)
  }

  predicate ServiceCreated(st: DbState, st': DbState) {
    st.past.local.Some? && st.svc.None? && st' == st.(svc := Some(WantedService(st.past.local.value)))
  }

  predicate ReadyCounted(st: DbState, st': DbState) {
    && st.past.local.Some? && st.qdb.Some? && st'.qdb.Some?
    && st' == st.(qdb := Some(st.qdb.value.(ready := st'.qdb.value.ready, version := st.qdb.value.version + 1)))
  }

  predicate DbWork(w: World, st: DbState, st': DbState) {
    || DbBegins(st, st') || DbEnds(st, st') || SecretsChosen(w, st, st')
    || ClaimCreated(st, st') || ClaimResized(st, st')
    || StatefulSetWritten(w, st, st') || ConfigMapWritten(w, st, st') || ServiceCreated(st, st')
    || ReadyCounted(st, st')
  }

  predicate DbNext(w: World, st: DbState, st': DbState) {
    st == st' || DbEnv(w.clean, st, st') || DbWork(w, st, st')
  }

  ghost predicate DbRun(w: World, h: seq<DbState>) {
    && |h| > 0
    && h[0] == NOTHING
    && forall i, j {:trigger DbNext(w, h[i], h[j])} :: 0 <= i < |h| - 1 && j == i + 1 ==> DbNext(w, h[i], h[j])
  }

  // ---------------------------------------------------------------- the claim never shrinks

  /** `v` describes the same volume as `w`, no larger. */
  predicate Within(v: VolumeSpec, w: VolumeSpec) {
    SameSource(v, w) && v.size <= w.size
  }

  /** Neither the claim nor any that came before requests more than `v`, and the claim is for `v`. */
  predicate Capped(st: DbState, v: VolumeSpec) {
    && (st.past.floor.Some? ==> st.past.floor.value <= v.size)
    && (st.claim.Some? ==> SameSource(st.claim.value.AsVolume(), v))
  }

  /**
   The claim's request is at most the worker's local size, which is at most the stored size, and all
   three agree on everything else about the volume.
   */
  predicate DbInv(st: DbState) {
    && (!st.past.born ==> st == NOTHING.(secrets := st.secrets))
    && (st.qdb.Some? ==> SoundDatabase(st.qdb.value.spec))
    && (st.claim.Some? ==> st.past.floor == Some(st.claim.value.request))
    && (st.past.local.Some? ==> Capped(st, st.past.local.value.spec.volume))
    && (st.qdb.Some? ==> Capped(st, st.qdb.value.spec.volume))
    && (st.past.local.Some? && st.qdb.Some? ==> Within(st.past.local.value.spec.volume, st.qdb.value.spec.volume))
  }

  /** The largest request made so far only grows. */
  predicate FloorKept(st: DbState, st': DbState) {
    st.past.floor.Some? ==> st'.past.floor.Some? && st.past.floor.value <= st'.past.floor.value
  }

  lemma EnvKeepsDbInv(w: World, st: DbState, st': DbState)
    requires DbInv(st) && DbEnv(w.clean, st, st')
    ensures DbInv(st') && FloorKept(st, st')
  {
  }

  lemma WorkKeepsDbInv(w: World, st: DbState, st': DbState)
    requires DbInv(st) && DbWork(w, st, st')
    ensures DbInv(st') && FloorKept(st, st')
  {
  }

  lemma DbInvStep(w: World, st: DbState, st': DbState)
    requires DbInv(st) && DbNext(w, st, st')
    ensures DbInv(st') && FloorKept(st, st')
  {
    if DbEnv(w.clean, st, st') {
      EnvKeepsDbInv(w, st, st');
    } else {
      WorkKeepsDbInv(w, st, st');
    }
  }

  lemma {:induction false} DbInvHolds(w: World, h: seq<DbState>, i: nat)
    requires DbRun(w, h) && i < |h|
    ensures DbInv(h[i])
  {
    if i > 0 {
      DbInvHolds(w, h, i - 1);
      assert DbNext(w, h[i - 1], h[i]);
      DbInvStep(w, h[i - 1], h[i]);
    }
  }

  /**
   Over every interleaving of admitted updates with the worker's calls, lost claims included: a later
   claim never requests less than an earlier one did.
   */
  lemma {:induction false} ClaimNeverShrinks(w: World, h: seq<DbState>, i: nat, j: nat)
    requires DbRun(w, h) && i <= j < |h| && h[i].claim.Some?
    ensures h[j].past.floor.Some? && h[i].claim.value.request <= h[j].past.floor.value
    ensures h[j].claim.Some? ==> h[i].claim.value.request <= h[j].claim.value.request
  {
    DbInvHolds(w, h, j);
    if i < j {
      ClaimNeverShrinks(w, h, i, j - 1);
      DbInvHolds(w, h, j - 1);
      assert DbNext(w, h[j - 1], h[j]);
      DbInvStep(w, h[j - 1], h[j]);
    }
  }

  /** The claim's request ≤ the worker's local size ≤ the stored size, for one and the same volume. */
  lemma ClaimWithinSpec(w: World, h: seq<DbState>, i: nat)
    requires DbRun(w, h) && i < |h|
    ensures h[i].claim.Some? && h[i].past.local.Some? ==>
              Within(h[i].claim.value.AsVolume(), h[i].past.local.value.spec.volume)
    ensures h[i].past.local.Some? && h[i].qdb.Some? ==>
              Within(h[i].past.local.value.spec.volume, h[i].qdb.value.spec.volume)
    ensures h[i].claim.Some? && h[i].qdb.Some? ==> Within(h[i].claim.value.AsVolume(), h[i].qdb.value.spec.volume)
  {
    DbInvHolds(w, h, i);
  }
}
