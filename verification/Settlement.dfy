/** The job and credit settlement protocol as a state machine: the whole store as one value
    and every serialised step on it. The classes in Billing and Backend perform these steps;
    the theorems are stated about runs of them. */
module Settlement {
  import opened Prelude
  import opened Ledger
  import opened Usage
  import opened Jobs
  import opened Decimals
  import Outputs

  // ---------------------------------------------------------------- the store

  datatype Pack = Pack(workspace: Option<WorkspaceId>, active: bool, cost: int, links: map<string, nat>)

  datatype RequestStatus = RequestQueued | RequestPartial | RequestCompleted | RequestFailed

  datatype Request = Request(
    workspace: WorkspaceId, pack: nat, usageEvent: nat, status: RequestStatus,
    completedAt: Option<Time>, failedAt: Option<Time>, errorMessage: string, job: Option<nat>)

  datatype DocumentStatus = ReportQueued | ReportCompleted | ReportFailed | KitDraft | KitGenerated

  /** A report or a media kit: both own at most one stored asset. */
  datatype Document = Document(
    workspace: WorkspaceId, status: DocumentStatus, asset: Option<nat>,
    metadata: map<string, string>, job: Option<nat>)

  datatype Event = PackReady | PackFailed | ReportReady | ReportFailure | KitReady | KitFailure

  datatype Notice = Notice(workspace: WorkspaceId, entity: EntityRef, event: Event)

  datatype Store = Store(
    entries: seq<Entry>, usage: seq<UsageEvent>, limits: Limits,
    packs: seq<Pack>, catalogue: Outputs.Catalogue,
    jobs: seq<Job>, requests: seq<Request>, reports: seq<Document>, kits: seq<Document>,
    shelf: Outputs.Shelf, notices: seq<Notice>)

  function EmptyStore(catalogue: Outputs.Catalogue): Store {
    Store([], [], map[], [], catalogue, [], [], [], [], Outputs.Shelf([], []), [])
  }

  // ---------------------------------------------------------------- messages

  datatype Clock = Clock(now: Time, period: nat)

  datatype AssetBlock = NoBlock | EmptyBlock | Block(data: Outputs.AssetData)

  /** A callback's `result`. `own` is the result object itself read as an asset block, None
      when the object is empty. */
  datatype CallbackResult = CallbackResult(
    outputs: seq<Outputs.OutputData>, asset: AssetBlock, own: Option<Outputs.AssetData>,
    metadata: Option<map<string, string>>)

  const EMPTY_RESULT := CallbackResult([], NoBlock, None, None)

  datatype Callback = Callback(
    job: nat, workspace: WorkspaceId, entityKind: Option<EntityKind>, entityId: Option<nat>,
    status: JobStatus, result: CallbackResult, message: string, metadata: Meta)

  datatype Response = NotFound | BadRequest | NoOp | Conflict | Processed | ServerError

  /** What happened to the submission call. */
  datatype Submission = Disabled | DryRun | NotConfigured(message: string)
                      | TimedOut(message: string) | Rejected(message: string) | Accepted

  /** Where, if anywhere, the submission machinery raised an unexpected exception: before the
      job row was stored, or once the submission's outcome was written to it, by the audit write
      that follows. An exception between the two leaves the job queued, as a disabled one is. */
  datatype Breakage = Whole | BeforeRow | AfterOutcome

  /** A submission and, for a failing one, whether telling the product entity succeeded. */
  datatype Attempt = Attempt(submission: Submission, propagates: bool, clock: Clock, breaks: Breakage)

  /** A failing submission that broke off after its outcome never tells. */
  predicate Told(a: Attempt) {
    a.propagates && a.breaks.Whole?
  }

  datatype CreateError = PackUnavailable | OverQuota | NoCredits

  // ---------------------------------------------------------------- small effects

  function NotifyOnce(ns: seq<Notice>, n: Notice): seq<Notice> {
    if n in ns then ns else ns + [n]
  }

  predicate AnyCompleted(ds: seq<Outputs.OutputData>) {
    exists i :: 0 <= i < |ds| && ds[i].status == Some("completed")
  }

  function RequiredOnes(ds: seq<Outputs.OutputData>): seq<Outputs.OutputData> {
    if ds == [] then []
    else RequiredOnes(ds[..|ds| - 1]) + if ds[|ds| - 1].required then [ds[|ds| - 1]] else []
  }

  /** Does a non-failure callback keep the reserved credits (true) or give them back? */
  predicate ShouldConsume(status: JobStatus, ds: seq<Outputs.OutputData>) {
    status.Completed? || AnyCompleted(if RequiredOnes(ds) != [] then RequiredOnes(ds) else ds)
  }

  /** The ledger after settling request r at its content pack's current price. */
  function Settle(es: seq<Entry>, ws: WorkspaceId, r: nat, cost: int, consume: bool): seq<Entry> {
    if cost <= 0 then es
    else if consume then Apply(es, Op(Consume, ws, cost, true, PackConsume(r)))
    else Apply(es, Op(Release, ws, cost, false, PackRelease(r)))
  }

  function FailRows(rows: seq<Outputs.Output>, r: nat): (t: seq<Outputs.Output>)
    ensures |t| == |rows|
    ensures forall i :: 0 <= i < |rows| ==>
      t[i] == if rows[i].request == r then rows[i].(status := Outputs.Failed) else rows[i]
  {
    if rows == [] then []
    else
      var last := rows[|rows| - 1];
      FailRows(rows[..|rows| - 1], r) + [if last.request == r then last.(status := Outputs.Failed) else last]
  }

  function Transition(s: Store, j: nat, status: JobStatus, message: string, meta: Meta, now: Time): Store
    requires j < |s.jobs|
  {
    s.(jobs := s.jobs[j := Transitioned(s.jobs[j], status, message, meta, now)])
  }

  // ---------------------------------------------------------------- content packs

  function OwnerOf(s: Store, r: nat): Outputs.Owner
    requires r < |s.requests|
  {
    var req := s.requests[r];
    Outputs.Owner(r, req.workspace, if req.pack < |s.packs| then s.packs[req.pack].links else map[])
  }

  function CostOf(s: Store, r: nat): int
    requires r < |s.requests|
  {
    var p := s.requests[r].pack;
    if p < |s.packs| then s.packs[p].cost else 0
  }

  function PackSucceeded(s: Store, j: nat, r: nat, status: JobStatus, ds: seq<Outputs.OutputData>,
                         meta: Meta, clock: Clock): Store
    requires j < |s.jobs| && r < |s.requests|
  {
    var req := s.requests[r];
    var produced := Outputs.CompletedCount(s.shelf, s.catalogue, OwnerOf(s, r), ds) > 0;
    var s1 := s.(
      shelf := Outputs.UpsertAll(s.shelf, s.catalogue, OwnerOf(s, r), ds),
      entries := Settle(s.entries, req.workspace, r, CostOf(s, r), ShouldConsume(status, ds)),
      usage := if produced then
                 Record(s.usage, UsageEvent(req.workspace, ContentPackGenerated, r, 0, clock.period))
               else s.usage,
      requests := s.requests[r := req.(
        status := if status.PartiallyCompleted? then RequestPartial else RequestCompleted,
        completedAt := Some(clock.now))],
      notices := NotifyOnce(s.notices, Notice(req.workspace, Entity(PackRequestKind, r),
                                              if produced then PackReady else PackFailed)));
    Transition(s1, j, status, "", meta, clock.now)
  }

  function PackFailedWith(s: Store, j: nat, r: nat, status: JobStatus, message: string,
                          meta: Meta, clock: Clock): Store
    requires j < |s.jobs| && r < |s.requests|
  {
    var req := s.requests[r];
    var s1 := s.(
      shelf := s.shelf.(outputs := FailRows(s.shelf.outputs, r)),
      entries := Settle(s.entries, req.workspace, r, CostOf(s, r), false),
      requests := s.requests[r := req.(status := RequestFailed, failedAt := Some(clock.now),
                                       errorMessage := Nonempty(message, req.errorMessage))],
      notices := NotifyOnce(s.notices, Notice(req.workspace, Entity(PackRequestKind, r), PackFailed)));
    Transition(s1, j, status, message, meta, clock.now)
  }

  // ---------------------------------------------------------------- reports and media kits

  function AssetOf(result: CallbackResult): Option<Outputs.AssetData> {
    match result.asset
    case Block(data) => Some(data)
    case EmptyBlock => None
    case NoBlock => result.own
  }

  function Attached(doc: Document, status: DocumentStatus, result: CallbackResult, assetId: nat): Document {
    doc.(status := status,
         asset := if doc.asset.None? && AssetOf(result).Some? then Some(assetId) else doc.asset,
         metadata := doc.metadata + result.metadata.GetOr(map[]))
  }

  function AssetsWith(assets: seq<Outputs.Asset>, doc: Document, kind: Outputs.AssetKind,
                      result: CallbackResult): seq<Outputs.Asset> {
    if doc.asset.None? && AssetOf(result).Some? then
      assets + [Outputs.Asset(doc.workspace, kind, AssetOf(result).value)]
    else assets
  }

  function ReportSucceeded(s: Store, j: nat, e: nat, status: JobStatus, result: CallbackResult,
                           meta: Meta, clock: Clock): Store
    requires j < |s.jobs| && e < |s.reports|
  {
    var doc := s.reports[e];
    var s1 := s.(
      reports := s.reports[e := Attached(doc, ReportCompleted, result, |s.shelf.assets|)],
      shelf := s.shelf.(assets := AssetsWith(s.shelf.assets, doc, Outputs.ReportPdf, result)),
      notices := NotifyOnce(s.notices, Notice(doc.workspace, Entity(ReportKind, e), ReportReady)));
    Transition(s1, j, status, "", meta, clock.now)
  }

  function ReportFailedWith(s: Store, j: nat, e: nat, status: JobStatus, message: string,
                            meta: Meta, clock: Clock): Store
    requires j < |s.jobs| && e < |s.reports|
  {
    var doc := s.reports[e];
    var s1 := s.(
      reports := s.reports[e := doc.(status := ReportFailed, metadata := doc.metadata["error" := message])],
      notices := NotifyOnce(s.notices, Notice(doc.workspace, Entity(ReportKind, e), ReportFailure)));
    Transition(s1, j, status, message, meta, clock.now)
  }

  function KitSucceeded(s: Store, j: nat, e: nat, status: JobStatus, result: CallbackResult,
                        meta: Meta, clock: Clock): Store
    requires j < |s.jobs| && e < |s.kits|
  {
    var doc := s.kits[e];
    var s1 := s.(
      kits := s.kits[e := Attached(doc, KitGenerated, result, |s.shelf.assets|)],
      shelf := s.shelf.(assets := AssetsWith(s.shelf.assets, doc, Outputs.MediaKitAsset, result)),
      notices := NotifyOnce(s.notices, Notice(doc.workspace, Entity(MediaKitKind, e), KitReady)));
    Transition(s1, j, status, "", meta, clock.now)
  }

  /** A media kit has no failed status: the failure is noted in its metadata. */
  function KitFailedWith(s: Store, j: nat, e: nat, status: JobStatus, message: string,
                         meta: Meta, clock: Clock): Store
    requires j < |s.jobs| && e < |s.kits|
  {
    var doc := s.kits[e];
    var s1 := s.(
      kits := s.kits[e := doc.(metadata := doc.metadata["generation_status" := "failed"]["error" := message])],
      notices := NotifyOnce(s.notices, Notice(doc.workspace, Entity(MediaKitKind, e), KitFailure)));
    Transition(s1, j, status, message, meta, clock.now)
  }

  // ---------------------------------------------------------------- callbacks

  /** Which product row, if any, a job's callbacks act on. */
  datatype Subject = PackSubject(request: nat) | ReportSubject(report: nat) | KitSubject(kit: nat) | NoSubject

  function SubjectOf(s: Store, j: nat): (r: Subject)
    requires j < |s.jobs|
    ensures r.PackSubject? ==> r.request < |s.requests|
    ensures r.ReportSubject? ==> r.report < |s.reports|
    ensures r.KitSubject? ==> r.kit < |s.kits|
  {
    var job := s.jobs[j];
    if job.entity.NoEntity? then NoSubject
    else if job.jobType.ContentGeneration? && job.entity.kind.PackRequestKind? && job.entity.id < |s.requests| then
      PackSubject(job.entity.id)
    else if job.jobType.ReportGeneration? && job.entity.kind.ReportKind? && job.entity.id < |s.reports| then
      ReportSubject(job.entity.id)
    else if job.jobType.MediaKitGeneration? && job.entity.kind.MediaKitKind? && job.entity.id < |s.kits| then
      KitSubject(job.entity.id)
    else NoSubject
  }

  function Dispatch(s: Store, j: nat, status: JobStatus, result: CallbackResult, message: string,
                    meta: Meta, clock: Clock): Store
    requires j < |s.jobs|
  {
    match SubjectOf(s, j)
    case PackSubject(r) =>
      if Failure(status) then PackFailedWith(s, j, r, status, message, meta, clock)
      else PackSucceeded(s, j, r, status, result.outputs, meta, clock)
    case ReportSubject(e) =>
      if Failure(status) then ReportFailedWith(s, j, e, status, message, meta, clock)
      else ReportSucceeded(s, j, e, status, result, meta, clock)
    case KitSubject(e) =>
      if Failure(status) then KitFailedWith(s, j, e, status, message, meta, clock)
      else KitSucceeded(s, j, e, status, result, meta, clock)
    case NoSubject => Transition(s, j, status, message, meta, clock.now)
  }

  /** What the gate answers; Processed is the only answer that reaches a handler. */
  function Gate(s: Store, cb: Callback): Response {
    if cb.job >= |s.jobs| then NotFound
    else
      var job := s.jobs[cb.job];
      if cb.workspace != job.workspace then BadRequest
      else if job.entity.Entity? && cb.entityKind.Some? && cb.entityKind.value != job.entity.kind then BadRequest
      else if job.entity.Entity? && cb.entityId.Some? && cb.entityId.value != job.entity.id then BadRequest
      else if job.status == cb.status then NoOp
      else if Terminal(job.status) then Conflict
      else Processed
  }

  function Received(s: Store, j: nat, now: Time): Store
    requires j < |s.jobs|
  {
    s.(jobs := s.jobs[j := s.jobs[j].(callbackReceivedAt := Some(now))])
  }

  /** One delivery. If the handler raises, its transaction is rolled back: only the receipt
      stays. */
  function Deliver(s: Store, cb: Callback, raises: bool, clock: Clock): Store {
    if Gate(s, cb) != Processed then s
    else
      var s1 := Received(s, cb.job, clock.now);
      if raises then s1
      else Dispatch(s1, cb.job, cb.status, cb.result, cb.message, cb.metadata, clock)
  }

  function Answer(s: Store, cb: Callback, raises: bool): Response {
    if Gate(s, cb) == Processed && raises then ServerError else Gate(s, cb)
  }

  // ---------------------------------------------------------------- submission

  /** Tell the product entity about a submission that failed; other job types have none. */
  function Propagate(s: Store, j: nat, message: string, clock: Clock): Store
    requires j < |s.jobs|
  {
    match s.jobs[j].jobType
    case OtherType(_) => s
    case _ => Dispatch(s, j, s.jobs[j].status, EMPTY_RESULT, message, map[], clock)
  }

  function MarkSubmissionFailed(s: Store, j: nat, status: JobStatus, message: string, a: Attempt): Store
    requires j < |s.jobs|
  {
    var s1 := s.(jobs := s.jobs[j := s.jobs[j].(status := status, failedAt := Some(a.clock.now),
                                                errorMessage := message)]);
    if Told(a) then Propagate(s1, j, message, a.clock) else s1
  }

  function Submit(s: Store, j: nat, a: Attempt): Store
    requires j < |s.jobs|
  {
    match a.submission
    case Disabled => s
    case DryRun | Accepted =>
      s.(jobs := s.jobs[j := s.jobs[j].(status := Submitted, submittedAt := Some(a.clock.now))])
    case NotConfigured(m) => MarkSubmissionFailed(s, j, Failed, m, a)
    case Rejected(m) => MarkSubmissionFailed(s, j, Failed, m, a)
    case TimedOut(m) => MarkSubmissionFailed(s, j, Timeout, m, a)
  }

  /** A job to open, before its key is defaulted. */
  datatype Draft = Draft(workspace: WorkspaceId, jobType: JobType, entity: EntityRef, key: JobKey,
                         retryCount: nat, metadata: Meta)

  function EffectiveKey(d: Draft): JobKey {
    if d.key == Blank then DefaultKey(d.jobType, d.entity) else d.key
  }

  function JobFrom(d: Draft): Job {
    NewJob(d.workspace, d.jobType, d.entity, EffectiveKey(d), d.retryCount, d.metadata)
  }

  /** The id of the job that serves the draft: the active one, or a new one. No job does when
      opening breaks before the row is stored. */
  function ServingJob(s: Store, d: Draft): nat {
    FindActive(s.jobs, d.workspace, EffectiveKey(d)).GetOr(|s.jobs|)
  }

  function Open(s: Store, d: Draft, a: Attempt): Store {
    if FindActive(s.jobs, d.workspace, EffectiveKey(d)).Some? || a.breaks.BeforeRow? then s
    else Submit(s.(jobs := s.jobs + [JobFrom(d)]), |s.jobs|, a)
  }

  function RetryDraft(job: Job, j: nat): Draft {
    Draft(job.workspace, job.jobType, job.entity, job.key, job.retryCount + 1,
          job.metadata[RETRIED_FROM := JobLink(j)])
  }

  predicate CanRetry(s: Store, j: nat) {
    j < |s.jobs| && Retryable(s.jobs[j].status)
  }

  function Retry(s: Store, j: nat, a: Attempt): Store {
    if CanRetry(s, j) then Open(s, RetryDraft(s.jobs[j], j), a) else s
  }

  function CancelOne(job: Job, now: Time): Job {
    if Terminal(job.status) then job else job.(status := Cancelled, failedAt := Some(now))
  }

  /** The admin action on a selection of jobs; terminal ones are skipped. */
  function CancelJobs(jobs: seq<Job>, selection: set<nat>, now: Time): (t: seq<Job>)
    ensures |t| == |jobs|
    ensures forall i :: 0 <= i < |jobs| ==> t[i] == if i in selection then CancelOne(jobs[i], now) else jobs[i]
  {
    if jobs == [] then []
    else
      var n := |jobs| - 1;
      CancelJobs(jobs[..n], selection, now) + [if n in selection then CancelOne(jobs[n], now) else jobs[n]]
  }

  // ---------------------------------------------------------------- creating entities

  function PackRequestDraft(ws: WorkspaceId, r: nat): Draft {
    Draft(ws, ContentGeneration, Entity(PackRequestKind, r), For(ContentGeneration, Entity(PackRequestKind, r)),
          0, map["content_pack_request_id" := MetaText(Decimal(r))])
  }

  /** The atomic part of creating a request: the request, its usage event and its reservation. */
  function WithRequest(s: Store, ws: WorkspaceId, p: nat, period: nat): Store
    requires p < |s.packs|
  {
    var r, cost := |s.requests|, s.packs[p].cost;
    var event := UsageEvent(ws, ContentPackRequested, r, cost, period);
    s.(usage := Record(s.usage, event),
       requests := s.requests + [Request(ws, p, FindEvent(s.usage, event).GetOr(|s.usage|),
                                         RequestQueued, None, None, "", None)],
       entries := if cost > 0 then Apply(s.entries, Op(Reserve, ws, cost, false, PackReserve(r)))
                  else s.entries)
  }

  /** The reservation of a priced pack would be refused. */
  predicate Unaffordable(s: Store, ws: WorkspaceId, p: nat)
    requires p < |s.packs|
  {
    s.packs[p].cost > 0
    && Refusal(s.entries, Op(Reserve, ws, s.packs[p].cost, false, PackReserve(|s.requests|))).Some?
  }

  function CreateRefusal(s: Store, ws: WorkspaceId, p: nat, period: nat): Option<CreateError> {
    if p >= |s.packs| || !s.packs[p].active || (s.packs[p].workspace.Some? && s.packs[p].workspace.value != ws) then
      Some(PackUnavailable)
    else if QuotaExceeded(s.usage, s.limits, ws, ContentPackRequested, period) then Some(OverQuota)
    else if Unaffordable(s, ws, p) then Some(NoCredits)
    else None
  }

  function CreateRequest(s: Store, ws: WorkspaceId, p: nat, a: Attempt): Store {
    if CreateRefusal(s, ws, p, a.clock.period).Some? then s
    else
      var r := |s.requests|;
      var s1 := WithRequest(s, ws, p, a.clock.period);
      var d := PackRequestDraft(ws, r);
      var s2 := Open(s1, d, a);
      if r < |s2.requests| && a.breaks.Whole? then
        s2.(requests := s2.requests[r := s2.requests[r].(job := Some(ServingJob(s1, d)))])
      else s2
  }

  function ReportDraft(ws: WorkspaceId, e: nat): Draft {
    Draft(ws, ReportGeneration, Entity(ReportKind, e), For(ReportGeneration, Entity(ReportKind, e)),
          0, map["report_id" := MetaText(Decimal(e))])
  }

  function CreateReport(s: Store, ws: WorkspaceId, a: Attempt): Store {
    if QuotaExceeded(s.usage, s.limits, ws, ReportGenerated, a.clock.period) then s
    else
      var e := |s.reports|;
      var s1 := s.(reports := s.reports + [Document(ws, ReportQueued, None, map[], None)],
                   usage := Record(s.usage, UsageEvent(ws, ReportGenerated, e, 0, a.clock.period)));
      var d := ReportDraft(ws, e);
      var s2 := Open(s1, d, a);
      if e < |s2.reports| && a.breaks.Whole? then
        s2.(reports := s2.reports[e := s2.reports[e].(job := Some(ServingJob(s1, d)))])
      else s2
  }

  function KitDraftOf(ws: WorkspaceId, e: nat): Draft {
    Draft(ws, MediaKitGeneration, Entity(MediaKitKind, e), For(MediaKitGeneration, Entity(MediaKitKind, e)),
          0, map["media_kit_id" := MetaText(Decimal(e))])
  }

  function CreateKit(s: Store, ws: WorkspaceId, a: Attempt): Store {
    var e := |s.kits|;
    var s1 := s.(kits := s.kits + [Document(ws, KitDraft, None, map[], None)],
                 usage := Record(s.usage, UsageEvent(ws, MediaKitGenerated, e, 0, a.clock.period)));
    var d := KitDraftOf(ws, e);
    var s2 := Open(s1, d, a);
    if e < |s2.kits| && a.breaks.Whole? then
      s2.(kits := s2.kits[e := s2.kits[e].(job := Some(ServingJob(s1, d)))])
    else s2
  }

  // ---------------------------------------------------------------- runs

  datatype Step =
    | Bill(op: Op)
    | SetLimit(workspace: WorkspaceId, eventType: EventType, limit: Option<nat>)
    | AddPack(pack: Pack)
    | EditPack(packId: nat, newPack: Pack)
    | RequestPack(workspace: WorkspaceId, packId: nat, attempt: Attempt)
    | RequestReport(workspace: WorkspaceId, attempt: Attempt)
    | RequestKit(workspace: WorkspaceId, attempt: Attempt)
    | OpenJob(draft: Draft, attempt: Attempt)
    | AddReference(draft: Draft)
    | RetryJob(job: nat, attempt: Attempt)
    | Cancel(selection: set<nat>, now: Time)
    | Post(callback: Callback, raises: bool, clock: Clock)

  /** Callers of the credit operations do not use the settlement's own keys. */
  predicate CallerOp(op: Op) {
    op.key.NoKey? || op.key.Caller?
  }

  function Next(s: Store, step: Step): Store {
    match step
    case Bill(op) => if CallerOp(op) then s.(entries := Apply(s.entries, op)) else s
    case SetLimit(ws, t, limit) =>
      s.(limits := if limit.Some? then s.limits[(ws, t) := limit.value] else s.limits - {(ws, t)})
    case AddPack(pack) => s.(packs := s.packs + [pack])
    case EditPack(p, pack) => if p < |s.packs| then s.(packs := s.packs[p := pack]) else s
    case RequestPack(ws, p, a) => CreateRequest(s, ws, p, a)
    case RequestReport(ws, a) => CreateReport(s, ws, a)
    case RequestKit(ws, a) => CreateKit(s, ws, a)
    case OpenJob(d, a) => Open(s, d.(retryCount := 0), a)
    case AddReference(d) => s.(jobs := s.jobs + [JobFrom(d).(key := Blank, retryCount := 0)])
    case RetryJob(j, a) => Retry(s, j, a)
    case Cancel(sel, now) => s.(jobs := CancelJobs(s.jobs, sel, now))
    case Post(cb, raises, clock) => Deliver(s, cb, raises, clock)
  }

  function RunSteps(s: Store, steps: seq<Step>): Store {
    if steps == [] then s else Next(RunSteps(s, steps[..|steps| - 1]), steps[|steps| - 1])
  }

  lemma OneMore(s: Store, steps: seq<Step>, last: Step)
    ensures RunSteps(s, steps + [last]) == Next(RunSteps(s, steps), last)
  {
    assert (steps + [last])[..|steps + [last]| - 1] == steps;
  }

  lemma {:induction false} RunStepsConcat(s: Store, a: seq<Step>, b: seq<Step>)
    ensures RunSteps(s, a + b) == RunSteps(RunSteps(s, a), b)
  {
    if b == [] {
      assert a + b == a;
    } else {
      assert (a + b)[..|a + b| - 1] == a + b[..|b| - 1];
      RunStepsConcat(s, a, b[..|b| - 1]);
    }
  }

  lemma SplitRun(s: Store, steps: seq<Step>, n: nat)
    requires n <= |steps|
    ensures RunSteps(s, steps) == RunSteps(RunSteps(s, steps[..n]), steps[n..])
  {
    assert steps[..n] + steps[n..] == steps;
    RunStepsConcat(s, steps[..n], steps[n..]);
  }
}
