/** External job references: their statuses, keys and lifecycle rules. */
module Jobs {
  import opened Prelude
  import opened Ledger

  type Time = nat

  datatype JobStatus =
    | Queued | Submitted | Running
    | Completed | PartiallyCompleted | Failed | Cancelled | Expired
    | Timeout

  datatype JobType = ContentGeneration | ReportGeneration | MediaKitGeneration | OtherType(name: string)

  datatype EntityKind = PackRequestKind | ReportKind | MediaKitKind | OtherKind(name: string)

  datatype EntityRef = NoEntity | Entity(kind: EntityKind, id: nat)

  /** Submission keys; `For` is the "<job type>:<entity id>" form, whoever wrote it. That text
      leaves the entity's kind out: two entities are taken never to share an id. */
  datatype JobKey = Blank | For(jobType: JobType, entity: EntityRef) | Text(text: string)

  datatype MetaValue = MetaText(text: string) | JobLink(job: nat)

  type Meta = map<string, MetaValue>

  const RETRIED_FROM := "retried_from"

  datatype Job = Job(
    workspace: WorkspaceId, jobType: JobType, entity: EntityRef, status: JobStatus,
    key: JobKey, retryCount: nat, metadata: Meta, errorMessage: string,
    submittedAt: Option<Time>, startedAt: Option<Time>, completedAt: Option<Time>,
    failedAt: Option<Time>, callbackReceivedAt: Option<Time>)

  /** Timeout is deliberately not terminal. */
  predicate Terminal(s: JobStatus) {
    s.Completed? || s.PartiallyCompleted? || s.Failed? || s.Cancelled? || s.Expired?
  }

  predicate Retryable(s: JobStatus) {
    s.Failed? || s.Timeout? || s.Cancelled? || s.Expired?
  }

  /** Statuses a product handler treats as a failure. */
  predicate Failure(s: JobStatus) {
    s.Failed? || s.Timeout? || s.Expired?
  }

  function NewJob(ws: WorkspaceId, t: JobType, e: EntityRef, key: JobKey, retryCount: nat, meta: Meta): Job {
    Job(ws, t, e, Queued, key, retryCount, meta, "", None, None, None, None, None)
  }

  function DefaultKey(t: JobType, e: EntityRef): JobKey {
    For(t, e)
  }

  /** The newest non-terminal job of the workspace under a non-blank key. */
  function FindActive(jobs: seq<Job>, ws: WorkspaceId, key: JobKey): (r: Option<nat>)
    ensures r.Some? ==> r.value < |jobs| && key != Blank && jobs[r.value].workspace == ws
                        && jobs[r.value].key == key && !Terminal(jobs[r.value].status)
                        && forall i :: r.value < i < |jobs| && jobs[i].workspace == ws && jobs[i].key == key ==>
                             Terminal(jobs[i].status)
    ensures r.None? && key != Blank ==>
      forall i :: 0 <= i < |jobs| && jobs[i].workspace == ws && jobs[i].key == key ==> Terminal(jobs[i].status)
  {
    if key == Blank || jobs == [] then None
    else
      var last := jobs[|jobs| - 1];
      if last.workspace == ws && last.key == key && !Terminal(last.status) then Some(|jobs| - 1)
      else FindActive(jobs[..|jobs| - 1], ws, key)
  }

  function Nonempty(preferred: string, fallback: string): string {
    if preferred != "" then preferred else fallback
  }

  /** The callback's transition of the job row itself. */
  function Transitioned(job: Job, status: JobStatus, message: string, meta: Meta, now: Time): Job {
    var moved := job.(status := status, metadata := job.metadata + meta);
    match status
    case Running => if job.startedAt.None? then moved.(startedAt := Some(now)) else moved
    case Completed | PartiallyCompleted => moved.(completedAt := Some(now))
    case Failed | Timeout | Expired =>
      moved.(failedAt := Some(now), errorMessage := Nonempty(message, job.errorMessage))
    case _ => moved
  }

  // ---------------------------------------------------------------- what the tables say

  /** The three classes of statuses, one by one. */
  lemma StatusTable(s: JobStatus)
    ensures Terminal(s) <==> s in {Completed, PartiallyCompleted, Failed, Cancelled, Expired}
    ensures Retryable(s) <==> s in {Failed, Timeout, Cancelled, Expired}
    ensures Failure(s) <==> s in {Failed, Timeout, Expired}
  {
  }

  /** Which columns of the row a status stamps. */
  predicate Stamped(before: Job, after: Job, status: JobStatus, message: string, now: Time) {
    && after.status == status
    && after.startedAt == (if status == Running && before.startedAt.None? then Some(now) else before.startedAt)
    && after.completedAt == (if status in {Completed, PartiallyCompleted} then Some(now) else before.completedAt)
    && after.failedAt == (if status in {Failed, Timeout, Expired} then Some(now) else before.failedAt)
    && after.errorMessage
    == if status in {Failed, Timeout, Expired} && message != "" then message else before.errorMessage
  }

  lemma TransitionStamps(job: Job, status: JobStatus, message: string, meta: Meta, now: Time)
    ensures var after := Transitioned(job, status, message, meta, now);
      && Stamped(job, after, status, message, now)
      && after.metadata == job.metadata + meta && after.callbackReceivedAt == job.callbackReceivedAt
      && after.submittedAt == job.submittedAt && after.workspace == job.workspace && after.jobType == job.jobType
      && after.entity == job.entity && after.key == job.key && after.retryCount == job.retryCount
  {
  }
}
