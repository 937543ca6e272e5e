/** What the webhooks store and what they let through, with every default and every condition written out. */
module AdmissionLaws {
  import opened Base
  import opened Kinds
  import opened Crontab
  import opened Planning
  import opened Admission

  // ---------------------------------------------------------------- what is stored is what was sent

  /** Of a snapshot everything set is stored as sent; a missing backoff limit becomes 5. */
  lemma SnapshotStoredAsSent(was: Option<SnapshotSpec>, x: SnapshotSpec)
    requires Judge(SnapshotHook(), was, x).Admitted?
    ensures Submit(SnapshotHook(), was, x).Some?
    ensures var stored := Submit(SnapshotHook(), was, x).value;
            && stored.questdb == x.questdb && stored.volumeClass == x.volumeClass
            && (if x.limit == 0 then stored.limit == 5 else stored.limit == x.limit)
  {
  }

  /** Of a schedule too; a missing retention becomes 7. */
  lemma ScheduleStoredAsSent(cal: Calendar, was: Option<ScheduleSpec>, x: ScheduleSpec)
    requires Judge(ScheduleHook(cal), was, x).Admitted?
    ensures Submit(ScheduleHook(cal), was, x).Some?
    ensures var stored := Submit(ScheduleHook(cal), was, x).value;
            && stored.cron == x.cron
            && (if x.retention == 0 then stored.retention == 7 else stored.retention == x.retention)
            && stored.snapshot.questdb == x.snapshot.questdb
            && stored.snapshot.volumeClass == x.snapshot.volumeClass
            && (if x.snapshot.limit == 0 then stored.snapshot.limit == 5
                else stored.snapshot.limit == x.snapshot.limit)
  {
  }

  /** Of a QuestDB too; a missing pull policy becomes IfNotPresent, a missing volume group 10001. */
  lemma DatabaseStoredAsSent(clean: string -> bool, was: Option<QuestDBSpec>, x: QuestDBSpec)
    requires Judge(DatabaseHook(clean), was, x).Admitted?
    ensures Submit(DatabaseHook(clean), was, x).Some?
    ensures var stored := Submit(DatabaseHook(clean), was, x).value;
            && stored == x.(pullPolicy := stored.pullPolicy, security := stored.security)
            && (if x.pullPolicy == "" then stored.pullPolicy == "IfNotPresent" else stored.pullPolicy == x.pullPolicy)
            && stored.security.rest == x.security.rest
            && (if x.security.fsGroup.None? then stored.security.fsGroup == Some(10001)
                else stored.security.fsGroup == x.security.fsGroup)
  {
  }

  /** What is refused changes nothing. */
  lemma RefusedLeaves<T(!new)>(hook: Webhook<T>, was: Option<T>, x: T)
    requires !Judge(hook, was, x).Admitted?
    ensures Submit(hook, was, x) == was
  {
  }

  // ---------------------------------------------------------------- what is let through

  /** A new snapshot needs a database, a limit that is not negative, and a class that is not the empty name. */
  lemma SnapshotCreatedIff(x: SnapshotSpec)
    ensures Judge(SnapshotHook(), None, x).Admitted? <==>
              x.questdb != "" && x.limit >= 0 && x.volumeClass != Some("")
  {
  }

  /** A stored one can only be sent again as it is; its limit may be left out if it is 5. */
  lemma SnapshotUpdatedIff(was: SnapshotSpec, x: SnapshotSpec)
    ensures Judge(SnapshotHook(), Some(was), x).Admitted? <==>
              && x.questdb == was.questdb && x.volumeClass == was.volumeClass
              && (x.limit == was.limit != 0 || (x.limit == 0 && was.limit == 5))
  {
  }

  /** A new schedule needs a cron text that parses and an acceptable snapshot. */
  lemma ScheduleCreatedIff(cal: Calendar, x: ScheduleSpec)
    ensures Judge(ScheduleHook(cal), None, x).Admitted? <==>
              && cal.parse(x.cron).Some?
              && x.snapshot.questdb != "" && x.snapshot.limit >= 0 && x.snapshot.volumeClass != Some("")
  {
  }

  /** Of a stored one the cron text may change to any that parses, and the retention to anything. */
  lemma ScheduleUpdatedIff(cal: Calendar, was: ScheduleSpec, x: ScheduleSpec)
    ensures Judge(ScheduleHook(cal), Some(was), x).Admitted? <==>
              && cal.parse(x.cron).Some?
              && x.snapshot.questdb == was.snapshot.questdb && x.snapshot.volumeClass == was.snapshot.volumeClass
              && (x.snapshot.limit == was.snapshot.limit != 0 || (x.snapshot.limit == 0 && was.snapshot.limit == 5))
  {
  }

  /** Of a stored QuestDB everything may change but where its volume comes from, and the size may only grow. */
  lemma DatabaseUpdatedIff(clean: string -> bool, was: QuestDBSpec, x: QuestDBSpec)
    ensures Judge(DatabaseHook(clean), Some(was), x).Admitted? <==>
              && was.volume.size <= x.volume.size
              && x.volume.snapshotName == was.volume.snapshotName && x.volume.selector == was.volume.selector
              && x.volume.volumeName == was.volume.volumeName && x.volume.storageClass == was.volume.storageClass
              && (x.config.serverConfig != "" ==> clean(x.config.serverConfig))
  {
  }

  // ---------------------------------------------------------------- objections

  /** A new snapshot is refused for the first of its faults: the name, then the limit, then the class. */
  lemma SnapshotObjection(x: SnapshotSpec)
    ensures var v := Judge(SnapshotHook(), None, x);
            && (v == Rejected(NameMissing) <==> x.questdb == "")
            && (v == Rejected(LimitNotPositive) <==> x.questdb != "" && x.limit < 0)
            && (v == Rejected(ClassEmpty) <==> x.questdb != "" && x.limit >= 0 && x.volumeClass == Some(""))
  {
  }

  /** An update of a QuestDB is refused as shrinking exactly if the size is smaller, whatever else is wrong. */
  lemma DatabaseObjection(clean: string -> bool, was: Option<QuestDBSpec>, x: QuestDBSpec)
    ensures var v := Judge(DatabaseHook(clean), was, x);
            && (v == Rejected(SizeShrunk) <==> was.Some? && x.volume.size < was.value.volume.size)
            && (v == Rejected(SizeZero) <==> was.None? && x.volume.size == 0)
            && v != Rejected(PolicyEmpty)
            && (v == Rejected(SourceAmbiguous) ==>
                  was.None? && x.volume.snapshotName != "" && x.volume.selector.Some?)
            && (v == Rejected(ConfigReserved) ==> x.config.serverConfig != "" && !clean(x.config.serverConfig))
  {
  }
}
