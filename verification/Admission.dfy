/**
 The custom resources as the admission webhooks see them: `Default` edits an object in place before it
 is stored, the validators compare it with what is stored already.
 */
module Admission {
  import opened Base
  import opened Kinds
  import opened Crontab
  import opened Planning

  datatype Verdict = Admitted | Rejected(objection: Objection)

  datatype Objection =
    | NameMissing | LimitNotPositive | ClassEmpty | SpecChanged
    | CronInvalid
    | SizeZero | SizeShrunk | ConfigReserved | SourceAmbiguous | VolumeChanged | PolicyEmpty

  // ---------------------------------------------------------------- snapshots

  function LimitDefaulted(spec: SnapshotSpec): SnapshotSpec {
    spec.(limit := if spec.limit == 0 then JOB_BACKOFF_LIMIT_DEFAULT else spec.limit)
  }

  function SnapshotCreate(spec: SnapshotSpec): Verdict {
    if spec.questdb == "" then Rejected(NameMissing)
    else if spec.limit <= 0 then Rejected(LimitNotPositive)
    else if spec.volumeClass == Some("") then Rejected(ClassEmpty)
    else Admitted
  }

  function SnapshotUpdate(was: SnapshotSpec, spec: SnapshotSpec): Verdict {
    if spec.questdb != was.questdb then Rejected(SpecChanged)
    else if spec.volumeClass != was.volumeClass then Rejected(SpecChanged)
    else if spec.limit != was.limit then Rejected(SpecChanged)
    else Admitted
  }

  /** A snapshot object, as held by the webhook or as the local copy of a controller. */
  class QuestDBSnapshot {
    var spec: SnapshotSpec
    var phase: Phase
    var finalizers: set<Finalizer>
    var deleting: bool
    var owner: Option<string>
    var stamp: int
    var version: nat

    constructor ()
    {
      spec, phase, finalizers := SnapshotSpec("", None, 0), Empty, {};
      deleting, owner, stamp, version := false, None, 0, 0;
    }

    function Value(): Snapshot
      reads this
    {
      Snapshot(spec, phase, finalizers, deleting, owner, stamp, version)
    }

    method Fill(s: Snapshot)
      modifies this
      ensures Value() == s
    {
      spec, phase, finalizers, deleting := s.spec, s.phase, s.finalizers, s.deleting;
      owner, stamp, version := s.owner, s.stamp, s.version;
    }

    method Default()
      modifies this
      ensures Value() == old(Value()).(spec := LimitDefaulted(old(spec)))
    {
      if spec.limit == 0 {
        spec := spec.(limit := JOB_BACKOFF_LIMIT_DEFAULT);
      }
    }
  }

  // ---------------------------------------------------------------- schedules

  function ScheduleDefaulted(spec: ScheduleSpec): ScheduleSpec {
    spec.(snapshot := LimitDefaulted(spec.snapshot),
          retention := if spec.retention == 0 then SCHEDULE_RETENTION_DEFAULT else spec.retention)
  }

  function ScheduleCreate(cal: Calendar, spec: ScheduleSpec): Verdict {
    if cal.parse(spec.cron).None? then Rejected(CronInvalid) else SnapshotCreate(spec.snapshot)
  }

  function ScheduleUpdate(cal: Calendar, was: ScheduleSpec, spec: ScheduleSpec): Verdict {
    if cal.parse(spec.cron).None? then Rejected(CronInvalid) else SnapshotUpdate(was.snapshot, spec.snapshot)
  }

  /** A schedule object, as held by the webhook or as the local copy of the controller. */
  class QuestDBSnapshotSchedule {
    var spec: ScheduleSpec
    var stamp: int
    var last: Option<int>
    var mirror: Phase
    var version: nat

    constructor ()
    {
      spec := ScheduleSpec("", 0, SnapshotSpec("", None, 0));
      stamp, last, mirror, version := 0, None, Empty, 0;
    }

    function Value(): Schedule
      reads this
    {
      Schedule(spec, stamp, last, mirror, version)
    }

    method Fill(s: Schedule)
      modifies this
      ensures Value() == s
    {
      spec, stamp, last, mirror, version := s.spec, s.stamp, s.last, s.mirror, s.version;
    }

    method Default()
      modifies this
      ensures Value() == old(Value()).(spec := ScheduleDefaulted(old(spec)))
    {
      if spec.snapshot.limit == 0 {
        spec := spec.(snapshot := spec.snapshot.(limit := JOB_BACKOFF_LIMIT_DEFAULT));
      }
      if spec.retention == 0 {
        spec := spec.(retention := SCHEDULE_RETENTION_DEFAULT);
      }
    }
  }

  // ---------------------------------------------------------------- databases

  /** Sizes are whole bytes; a selector is known by its text. */
  datatype VolumeSpec = VolumeSpec(
    selector: Option<string>, size: int, volumeName: string, storageClass: Option<string>, snapshotName: string)

  datatype ConfigSpec = ConfigSpec(serverConfig: string, logConfig: string)

  /** Pod security: the group that owns the volume, and the rest. */
  datatype Security = Security(fsGroup: Option<int>, rest: string)

  /** Pod settings that are handed through; each is known by its text. */
  datatype PodExtras = PodExtras(affinity: string, nodeSelector: string, tolerations: string, pullSecrets: string)

  datatype QuestDBSpec = QuestDBSpec(
    volume: VolumeSpec, config: ConfigSpec, image: string, pullPolicy: string,
    extraEnv: seq<string>, extraMounts: seq<string>, extraVolumes: seq<string>, resources: string,
    podAnnotations: map<string, string>, statefulSetAnnotations: map<string, string>,
    security: Security, extras: PodExtras)

  const PULL_IF_NOT_PRESENT := "IfNotPresent"
  const FS_GROUP_DEFAULT: int := 10001

  function DatabaseDefaulted(spec: QuestDBSpec): QuestDBSpec {
    spec.(pullPolicy := if spec.pullPolicy == "" then PULL_IF_NOT_PRESENT else spec.pullPolicy,
          security := if spec.security.fsGroup.None?
                      then spec.security.(fsGroup := Some(FS_GROUP_DEFAULT))
                      else spec.security)
  }

  function VolumeCreate(v: VolumeSpec): Verdict {
    if v.size == 0 then Rejected(SizeZero)
    else if v.snapshotName != "" && v.selector.Some? then Rejected(SourceAmbiguous)
    else Admitted
  }

  /** `clean` tells which server configurations set no reserved key. */
  function DatabaseCreate(clean: string -> bool, spec: QuestDBSpec): Verdict {
    if spec.volume.size == 0 then Rejected(SizeZero)
    else if spec.config.serverConfig != "" && !clean(spec.config.serverConfig) then Rejected(ConfigReserved)
    else VolumeCreate(spec.volume)
  }

  function DatabaseUpdate(clean: string -> bool, was: QuestDBSpec, spec: QuestDBSpec): Verdict {
    var (v, w) := (spec.volume, was.volume);
    if v.size < w.size then Rejected(SizeShrunk)
    else if spec.config.serverConfig != "" && !clean(spec.config.serverConfig) then Rejected(ConfigReserved)
    else if v.snapshotName != w.snapshotName then Rejected(VolumeChanged)
    else if v.selector != w.selector then Rejected(VolumeChanged)
    else if v.volumeName != w.volumeName then Rejected(VolumeChanged)
    else if v.storageClass != w.storageClass then Rejected(VolumeChanged)
    else if spec.pullPolicy == "" then Rejected(PolicyEmpty)
    else Admitted
  }

  datatype Database = Database(spec: QuestDBSpec, labels: map<string, string>, ready: int, version: nat)

  /** A QuestDB object, as held by the webhook or as the local copy of the controller. */
  class QuestDB {
    var spec: QuestDBSpec
    var labels: map<string, string>
    var ready: int
    var version: nat

    constructor ()
    {
    }

    function Value(): Database
      reads this
    {
      Database(spec, labels, ready, version)
    }

    method Fill(d: Database)
      modifies this
      ensures Value() == d
    {
      spec, labels, ready, version := d.spec, d.labels, d.ready, d.version;
    }

    method Default()
      modifies this
      ensures Value() == old(Value()).(spec := DatabaseDefaulted(old(spec)))
    {
      if spec.pullPolicy == "" {
        spec := spec.(pullPolicy := PULL_IF_NOT_PRESENT);
      }
      if spec.security.fsGroup.None? {
        spec := spec.(security := spec.security.(fsGroup := Some(FS_GROUP_DEFAULT)));
      }
    }
  }

  // ---------------------------------------------------------------- submissions

  /** How one kind of object is defaulted and judged. */
  datatype Webhook<!T> = Webhook(default: T -> T, create: T -> Verdict, update: (T, T) -> Verdict)

  function SnapshotHook(): Webhook<SnapshotSpec> {
    Webhook(LimitDefaulted, SnapshotCreate, SnapshotUpdate)
  }

  function ScheduleHook(cal: Calendar): Webhook<ScheduleSpec> {
    Webhook(ScheduleDefaulted, s => ScheduleCreate(cal, s), (w, s) => ScheduleUpdate(cal, w, s))
  }

  function DatabaseHook(clean: string -> bool): Webhook<QuestDBSpec> {
    Webhook(DatabaseDefaulted, s => DatabaseCreate(clean, s), (w, s) => DatabaseUpdate(clean, w, s))
  }

  /** What is judged and stored when `x` is sent while `was` is stored: a creation or an update. */
  function Judge<T>(hook: Webhook<T>, was: Option<T>, x: T): Verdict {
    if was.None? then hook.create(hook.default(x)) else hook.update(was.value, hook.default(x))
  }

  function Submit<T>(hook: Webhook<T>, was: Option<T>, x: T): Option<T> {
    if Judge(hook, was, x).Admitted? then Some(hook.default(x)) else was
  }

  /** What is stored after everything in `sent` has been submitted in turn. */
  function Stored<T>(hook: Webhook<T>, sent: seq<T>): Option<T> {
    if sent == [] then None else Submit(hook, Stored(hook, sent[..|sent| - 1]), sent[|sent| - 1])
  }

  // ---------------------------------------------------------------- what submissions keep

  predicate SoundSnapshot(spec: SnapshotSpec) {
    spec.questdb != "" && spec.limit > 0 && spec.volumeClass != Some("")
  }

  lemma {:induction false} SnapshotSpecSound(sent: seq<SnapshotSpec>)
    ensures Stored(SnapshotHook(), sent).Some? ==> SoundSnapshot(Stored(SnapshotHook(), sent).value)
  {
    if sent != [] {
      SnapshotSpecSound(sent[..|sent| - 1]);
    }
  }

  /** Whatever is submitted, a stored snapshot spec is sound and never changes again. */
  lemma {:induction false} SnapshotSpecFrozen(sent: seq<SnapshotSpec>, i: nat)
    requires i <= |sent| && Stored(SnapshotHook(), sent[..i]).Some?
    ensures Stored(SnapshotHook(), sent) == Stored(SnapshotHook(), sent[..i])
    ensures SoundSnapshot(Stored(SnapshotHook(), sent).value)
  {
    SnapshotSpecSound(sent);
    if i < |sent| {
      var front := sent[..|sent| - 1];
      assert front[..i] == sent[..i];
      SnapshotSpecFrozen(front, i);
    } else {
      assert sent[..i] == sent;
    }
  }

  /** With such a spec a job has spent its attempts only after losing a pod. */
  lemma SpentMeansLost(sent: seq<SnapshotSpec>, job: Job)
    requires Stored(SnapshotHook(), sent).Some?
    requires job.failed >= Stored(SnapshotHook(), sent).value.limit
    ensures job.failed > 0
  {
    SnapshotSpecSound(sent);
  }

  /**
   A stored spec can be sent back, as the controller does to edit finalizers, exactly if its limit is not
   0; with limit 0, left from before the webhook, no update whatever is admitted, the controller's own
   default included.
   */
  lemma ResendableIff(was: SnapshotSpec)
    ensures (exists x :: Judge(SnapshotHook(), Some(was), x).Admitted?) <==> was.limit != 0
    ensures Judge(SnapshotHook(), Some(was), was).Admitted? <==> was.limit != 0
    ensures was.limit == 0 ==>
              !Judge(SnapshotHook(), Some(was), was.(limit := JOB_BACKOFF_LIMIT_DEFAULT)).Admitted?
  {
    assert was.limit != 0 ==> Judge(SnapshotHook(), Some(was), was).Admitted?;
  }

  /** A schedule is admitted for its cron text and its snapshot spec only: any retention will do, below zero too. */
  lemma ScheduleAdmittedIff(cal: Calendar, x: ScheduleSpec)
    ensures Judge(ScheduleHook(cal), None, x).Admitted? <==>
              cal.parse(x.cron).Some? && SoundSnapshot(LimitDefaulted(x.snapshot))
  {
  }

  /**
   In a stored schedule the cron text parses, the retention is set, the snapshot spec is sound and never
   changes.
   */
  lemma {:induction false} ScheduleKept(cal: Calendar, sent: seq<ScheduleSpec>, i: nat)
    requires i <= |sent| && Stored(ScheduleHook(cal), sent[..i]).Some?
    ensures var now := Stored(ScheduleHook(cal), sent);
            && now.Some?
            && now.value.snapshot == Stored(ScheduleHook(cal), sent[..i]).value.snapshot
            && cal.parse(now.value.cron).Some?
            && now.value.retention != 0
            && SoundSnapshot(now.value.snapshot)
  {
    if i < |sent| {
      var front := sent[..|sent| - 1];
      assert front[..i] == sent[..i];
      ScheduleKept(cal, front, i);
    } else {
      assert sent[..i] == sent;
      var front := sent[..|sent| - 1];
      if Stored(ScheduleHook(cal), front).Some? {
        assert front[..|front|] == front;
        ScheduleKept(cal, front, |front|);
      }
    }
  }

  /** Every snapshot built from a stored schedule passes snapshot admission unchanged. */
  lemma ChildrenAdmitted(cal: Calendar, sent: seq<ScheduleSpec>)
    requires Stored(ScheduleHook(cal), sent).Some?
    ensures var spec := Stored(ScheduleHook(cal), sent).value.snapshot;
            Submit(SnapshotHook(), None, spec) == Some(spec)
  {
    assert sent[..|sent|] == sent;
    ScheduleKept(cal, sent, |sent|);
  }

  /** An admitted edit of a stored schedule is what the schedule controller assumes edits to be. */
  lemma EditsAsAssumed(cal: Calendar, p: Plan, x: ScheduleSpec)
    requires p.sched.Some?
    requires Judge(ScheduleHook(cal), Some(p.sched.value.spec), x).Admitted?
    ensures ScheduleEdited(p, p.(sched := Some(p.sched.value.(
                                      spec := ScheduleDefaulted(x), version := p.sched.value.version + 1))))
  {
  }

  predicate SameSource(v: VolumeSpec, w: VolumeSpec) {
    v == w.(size := v.size)
  }

  predicate SoundDatabase(spec: QuestDBSpec) {
    && !(spec.volume.snapshotName != "" && spec.volume.selector.Some?)
    && spec.pullPolicy != ""
    && spec.security.fsGroup.Some?
  }

  /**
   A stored database keeps everything about its volume but the size, which only grows; it never names
   both a snapshot and a selector, and its pull policy and volume group are always set.
   */
  lemma {:induction false} DatabaseKept(clean: string -> bool, sent: seq<QuestDBSpec>, i: nat)
    requires i <= |sent| && Stored(DatabaseHook(clean), sent[..i]).Some?
    ensures var (was, now) := (Stored(DatabaseHook(clean), sent[..i]), Stored(DatabaseHook(clean), sent));
            && now.Some?
            && SameSource(now.value.volume, was.value.volume)
            && was.value.volume.size <= now.value.volume.size
            && SoundDatabase(now.value)
            && (now.value.config.serverConfig != "" ==> clean(now.value.config.serverConfig))
  {
    if i < |sent| {
      var front := sent[..|sent| - 1];
      assert front[..i] == sent[..i];
      DatabaseKept(clean, front, i);
    } else {
      assert sent[..i] == sent;
      var front := sent[..|sent| - 1];
      if Stored(DatabaseHook(clean), front).Some? {
        assert front[..|front|] == front;
        DatabaseKept(clean, front, |front|);
      }
    }
  }

  /**
   Size 0 is refused at creation, but not when growing: an update can make the size 0 exactly if the
   stored size is 0 or below.
   */
  lemma ZeroSizeIff(clean: string -> bool, was: QuestDBSpec)
    ensures (exists x: QuestDBSpec :: x.volume.size == 0 && Judge(DatabaseHook(clean), Some(was), x).Admitted?) <==>
              was.volume.size <= 0
  {
    if was.volume.size <= 0 {
      var x := was.(volume := was.volume.(size := 0), config := was.config.(serverConfig := ""));
      assert x.volume.size == 0 && Judge(DatabaseHook(clean), Some(was), x).Admitted?;
    }
  }

  /** A database is admitted for its size not being 0, its configuration, and its one source: no more. */
  lemma DatabaseAdmittedIff(clean: string -> bool, x: QuestDBSpec)
    ensures Judge(DatabaseHook(clean), None, x).Admitted? <==>
              && x.volume.size != 0
              && !(x.volume.snapshotName != "" && x.volume.selector.Some?)
              && (x.config.serverConfig != "" ==> clean(x.config.serverConfig))
  {
  }

  /** The stored size after `x` has been created and then everything in `more` submitted. */
  function SizeAfter(clean: string -> bool, x: QuestDBSpec, more: seq<QuestDBSpec>): int {
    var stored := Stored(DatabaseHook(clean), [x] + more);
    if stored.Some? then stored.value.volume.size else 0
  }

  lemma FirstStays(clean: string -> bool, x: QuestDBSpec, more: seq<QuestDBSpec>)
    requires Judge(DatabaseHook(clean), None, x).Admitted?
    ensures Stored(DatabaseHook(clean), [x] + more).Some?
    ensures SizeAfter(clean, x, more) >= x.volume.size
  {
    var sent := [x] + more;
    assert sent[..1] == [x] && [x][..0] == [];
    DatabaseKept(clean, sent, 1);
  }

  /**
   A database once created can reach size 0 by some sequence of submissions exactly if it was created
   with a negative size, which creation lets through.
   */
  lemma ZeroSizeReachableIff(clean: string -> bool, x: QuestDBSpec)
    requires Judge(DatabaseHook(clean), None, x).Admitted?
    ensures (exists more :: SizeAfter(clean, x, more) == 0) <==> x.volume.size < 0
  {
    if x.volume.size < 0 {
      var y := x.(volume := x.volume.(size := 0), config := x.config.(serverConfig := ""));
      var sent := [x] + [y];
      assert sent[..1] == [x] && [x][..0] == [];
      assert Stored(DatabaseHook(clean), [x]) == Some(DatabaseDefaulted(x));
      assert Stored(DatabaseHook(clean), sent) == Some(DatabaseDefaulted(y));
      assert SizeAfter(clean, x, [y]) == 0;
    }
    forall more ensures SizeAfter(clean, x, more) >= x.volume.size {
      FirstStays(clean, x, more);
    }
  }
}
