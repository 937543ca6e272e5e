/** The API objects the controllers read and write, as stored values. */
module Kinds {
  import opened Base

  /** status.phase; `Unknown` stands for any other text found there. */
  datatype Phase =
    | Empty | Pending | Running | Finalizing | Succeeded | Failed
    | Unknown(text: string)
  {
    predicate Complete() {
      Succeeded? || Failed?
    }
  }

  datatype SnapshotSpec = SnapshotSpec(questdb: string, volumeClass: Option<string>, limit: int32)

  /** The operator's own finalizer keeps a snapshot alive from before Running on; others are somebody else's. */
  datatype Finalizer = CompleteFinalizer | ForeignFinalizer(name: string)

  /** `stamp` is the creation time, `version` the resourceVersion, `deleting` a set deletionTimestamp. */
  datatype Snapshot = Snapshot(
    spec: SnapshotSpec, phase: Phase, finalizers: set<Finalizer>, deleting: bool,
    owner: Option<string>, stamp: int, version: nat)

  datatype Stage = Prepare | Finish

  /** `SNAPSHOT PREPARE;` or `SNAPSHOT COMPLETE;`. */
  datatype Statement = SnapshotPrepare | SnapshotComplete

  /** The SQL statement each job runs against the database. */
  function Command(stage: Stage): Statement {
    if stage.Prepare? then SnapshotPrepare else SnapshotComplete
  }

  datatype Job = Job(
    owner: string, command: Statement, backoffLimit: int32,
    host: string, user: string, password: string,
    succeeded: int32, failed: int32)

  datatype Volume = Volume(claim: string, volumeClass: Option<string>, ready: bool)

  datatype Secret = Secret(name: string, annotations: map<string, string>, data: map<string, string>)

  /** The cluster objects the snapshot controller consults but does not own, and whether it can look them up. */
  datatype Facts = Facts(databases: set<string>, classes: set<string>, secrets: seq<Secret>, reachable: bool)

  const JOB_BACKOFF_LIMIT_DEFAULT: int32 := 5
  const SCHEDULE_RETENTION_DEFAULT: int32 := 7

  /** What an API call reported; a failed call may still have taken effect. */
  datatype Reply = Done | NotFound | AlreadyExists | Conflict | Forbidden | Invalid | Unavailable

  /** A call can be lost before it takes effect, or its answer can be lost after. */
  datatype Fault = NoFault | Lost | Unheard

  /** What becomes of the next call. */
  method Risk(calm: bool) returns (fault: Fault)
    ensures calm ==> fault == NoFault
  {
    fault := *;
    if calm {
      fault := NoFault;
    }
  }
}
