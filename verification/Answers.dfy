/** What the endpoints answer and what becomes of the job, said of the messages and the stored
    rows themselves. */
module Answers {
  import opened Prelude
  import opened Ledger
  import opened Jobs
  import opened Settlement
  import opened Invariants
  import opened Delivery
  import opened Usage
  import opened Quotas
  import opened Decimals
  import Outputs

  // ---------------------------------------------------------------- the callback endpoint

  /** Every answer, and what it means: an unknown job, a callback that contradicts its job's
      workspace or entity, a repeated status, a terminal job, a crash, and only then success. */
  predicate AnswerFits(s: Store, cb: Callback, raises: bool, answer: Response) {
    var known := cb.job < |s.jobs|;
    && (answer == NotFound <==> !known)
    && (answer == BadRequest <==> known && !WellFormed(s, cb, cb.job))
    && (answer == NoOp <==> WellFormed(s, cb, cb.job) && s.jobs[cb.job].status == cb.status)
    && (answer == Conflict <==> WellFormed(s, cb, cb.job) && s.jobs[cb.job].status != cb.status
                                && Terminal(s.jobs[cb.job].status))
    && (answer == ServerError <==> Fresh(s, cb) && raises)
    && (answer == Processed <==> Fresh(s, cb) && !raises)
  }

  /** Each delivery is answered so; unless it is fresh nothing at all is stored, and if its
      handler raises only the receipt is. */
  lemma AnswerMeans(s: Store, cb: Callback, raises: bool, clock: Clock)
    ensures AnswerFits(s, cb, raises, Answer(s, cb, raises))
    ensures !Fresh(s, cb) ==> Deliver(s, cb, raises, clock) == s
    ensures Fresh(s, cb) && raises ==> Deliver(s, cb, raises, clock) == Received(s, cb.job, clock.now)
  {
  }

  /** A well-formed callback with a new status for a job that is not over. */
  predicate Fresh(s: Store, cb: Callback) {
    WellFormed(s, cb, cb.job) && s.jobs[cb.job].status != cb.status && !Terminal(s.jobs[cb.job].status)
  }

  /** A handled callback moves its job, and no other: status, receipt and metadata are the
      callback's; running keeps the first start, completion and failure stamp their time, and a
      failure takes the callback's message if it has one. */
  lemma HandledJob(s: Store, cb: Callback, clock: Clock)
    requires Fresh(s, cb)
    ensures var t := Deliver(s, cb, false, clock);
      && |t.jobs| == |s.jobs| && (forall i :: 0 <= i < |s.jobs| && i != cb.job ==> t.jobs[i] == s.jobs[i])
      && t.jobs[cb.job].callbackReceivedAt == Some(clock.now)
      && t.jobs[cb.job].metadata == s.jobs[cb.job].metadata + cb.metadata
      && SameIdentity(s.jobs[cb.job], t.jobs[cb.job]) && t.jobs[cb.job].submittedAt == s.jobs[cb.job].submittedAt
      && Stamped(s.jobs[cb.job], t.jobs[cb.job], cb.status, cb.message, clock.now)
  {
    var s1 := Received(s, cb.job, clock.now);
    MovedJob(s1, cb.job, cb.status, cb.result, cb.message, cb.metadata, clock);
    TransitionStamps(s1.jobs[cb.job], cb.status, cb.message, cb.metadata, clock.now);
  }

  lemma PackMoves(s: Store, j: nat, r: nat, status: JobStatus, ds: seq<Outputs.OutputData>, message: string,
                  meta: Meta, clock: Clock)
    requires j < |s.jobs| && r < |s.requests|
    ensures PackSucceeded(s, j, r, status, ds, meta, clock).jobs
         == s.jobs[j := Transitioned(s.jobs[j], status, "", meta, clock.now)]
    ensures PackFailedWith(s, j, r, status, message, meta, clock).jobs
         == s.jobs[j := Transitioned(s.jobs[j], status, message, meta, clock.now)]
  {
  }

  lemma DocumentMoves(s: Store, j: nat, e: nat, status: JobStatus, result: CallbackResult, message: string,
                      meta: Meta, clock: Clock)
    requires j < |s.jobs|
    ensures e < |s.reports| ==>
      && ReportSucceeded(s, j, e, status, result, meta, clock).jobs
         == s.jobs[j := Transitioned(s.jobs[j], status, "", meta, clock.now)]
      && ReportFailedWith(s, j, e, status, message, meta, clock).jobs
         == s.jobs[j := Transitioned(s.jobs[j], status, message, meta, clock.now)]
    ensures e < |s.kits| ==>
      && KitSucceeded(s, j, e, status, result, meta, clock).jobs
         == s.jobs[j := Transitioned(s.jobs[j], status, "", meta, clock.now)]
      && KitFailedWith(s, j, e, status, message, meta, clock).jobs
         == s.jobs[j := Transitioned(s.jobs[j], status, message, meta, clock.now)]
  {
  }

  lemma MovedJob(s: Store, j: nat, status: JobStatus, result: CallbackResult, message: string,
                 meta: Meta, clock: Clock)
    requires j < |s.jobs|
    ensures Dispatch(s, j, status, result, message, meta, clock).jobs
         == s.jobs[j := Transitioned(s.jobs[j], status, message, meta, clock.now)]
  {
    assert Failure(status) || Transitioned(s.jobs[j], status, "", meta, clock.now)
                              == Transitioned(s.jobs[j], status, message, meta, clock.now);
    match SubjectOf(s, j) {
      case PackSubject(r) => PackMoves(s, j, r, status, result.outputs, message, meta, clock);
      case ReportSubject(e) => DocumentMoves(s, j, e, status, result, message, meta, clock);
      case KitSubject(e) => DocumentMoves(s, j, e, status, result, message, meta, clock);
      case NoSubject =>
    }
  }

  /** A job's callbacks act on the product row its type and entity name, if that row exists. */
  lemma SubjectMeans(s: Store, j: nat)
    requires j < |s.jobs|
    ensures forall r: nat :: SubjectOf(s, j) == PackSubject(r) <==>
      s.jobs[j].jobType == ContentGeneration && s.jobs[j].entity == Entity(PackRequestKind, r) && r < |s.requests|
    ensures forall e: nat :: SubjectOf(s, j) == ReportSubject(e) <==>
      s.jobs[j].jobType == ReportGeneration && s.jobs[j].entity == Entity(ReportKind, e) && e < |s.reports|
    ensures forall e: nat :: SubjectOf(s, j) == KitSubject(e) <==>
      s.jobs[j].jobType == MediaKitGeneration && s.jobs[j].entity == Entity(MediaKitKind, e) && e < |s.kits|
  {
  }

  // ---------------------------------------------------------------- submission, retry, cancellation

  /** The job row after a submission: waiting if nothing was sent, submitted now if it was or was
      simulated, timed out or failed now with the reason otherwise. */
  lemma SubmittedJob(s: Store, j: nat, a: Attempt)
    requires j < |s.jobs|
    ensures var job, after := s.jobs[j], Submit(s, j, a).jobs;
      && |after| == |s.jobs| && (forall i :: 0 <= i < |s.jobs| && i != j ==> after[i] == s.jobs[i])
      && match a.submission
         case Disabled => after[j] == job
         case DryRun => after[j] == job.(status := Submitted, submittedAt := Some(a.clock.now))
         case Accepted => after[j] == job.(status := Submitted, submittedAt := Some(a.clock.now))
         case NotConfigured(m) => FailedNow(job, after[j], Failed, m, a.clock.now)
         case Rejected(m) => FailedNow(job, after[j], Failed, m, a.clock.now)
         case TimedOut(m) => FailedNow(job, after[j], Timeout, m, a.clock.now)
  {
    match a.submission {
      case NotConfigured(m) => MarkedJob(s, j, Failed, m, a);
      case Rejected(m) => MarkedJob(s, j, Failed, m, a);
      case TimedOut(m) => MarkedJob(s, j, Timeout, m, a);
      case _ =>
    }
  }

  predicate FailedNow(job: Job, after: Job, status: JobStatus, message: string, now: Time) {
    after == job.(status := status, failedAt := Some(now), errorMessage := message)
  }

  lemma MarkedJob(s: Store, j: nat, status: JobStatus, message: string, a: Attempt)
    requires j < |s.jobs| && (status == Failed || status == Timeout)
    ensures var after := MarkSubmissionFailed(s, j, status, message, a).jobs;
      && |after| == |s.jobs| && (forall i :: 0 <= i < |s.jobs| && i != j ==> after[i] == s.jobs[i])
      && FailedNow(s.jobs[j], after[j], status, message, a.clock.now)
  {
    var job := s.jobs[j].(status := status, failedAt := Some(a.clock.now), errorMessage := message);
    MovedJob(s.(jobs := s.jobs[j := job]), j, status, EMPTY_RESULT, message, map[], a.clock);
    assert job.metadata + map[] == job.metadata;
  }

  /** Opening a job when none is open under its key stores one: the draft's workspace, type,
      entity, retry count and metadata, queued, under the draft's key or the one its type and
      entity make; and then submits it. */
  lemma OpenedJob(s: Store, d: Draft, a: Attempt)
    requires FindActive(s.jobs, d.workspace, EffectiveKey(d)).None? && !a.breaks.BeforeRow?
    ensures ServingJob(s, d) == |s.jobs|
    ensures var job := JobFrom(d);
      && Open(s, d, a) == Submit(s.(jobs := s.jobs + [job]), |s.jobs|, a)
      && job.workspace == d.workspace && job.jobType == d.jobType && job.entity == d.entity
      && job.status == Queued && job.retryCount == d.retryCount && job.metadata == d.metadata
      && job.errorMessage == "" && job.submittedAt.None? && job.startedAt.None? && job.completedAt.None?
      && job.failedAt.None? && job.callbackReceivedAt.None?
      && job.key == (if d.key == Blank then For(d.jobType, d.entity) else d.key)
  {
  }

  /** The entity is linked to a job under its own key: the one still active under it, or else a
      new one of its type, for it, with its id in the metadata and no retries. */
  ghost predicate ServedBy(before: seq<Job>, after: seq<Job>, job: Option<nat>, ws: WorkspaceId, t: JobType,
                           e: EntityRef, meta: Meta)
  {
    && job.Some? && job.value < |after|
    && var row := after[job.value];
       && row.workspace == ws && row.key == For(t, e)
       && if job.value < |before| then after == before && row.status in {Queued, Submitted, Running, Timeout}
          else
            && job.value == |before| && |after| == |before| + 1 && after[..|before|] == before
            && row.jobType == t && row.entity == e && row.retryCount == 0 && row.metadata == meta
  }

  lemma OpenServes(s: Store, d: Draft, a: Attempt)
    requires d.key == For(d.jobType, d.entity) && d.retryCount == 0 && !a.breaks.BeforeRow?
    ensures ServedBy(s.jobs, Open(s, d, a).jobs, Some(ServingJob(s, d)), d.workspace, d.jobType, d.entity, d.metadata)
  {
    if FindActive(s.jobs, d.workspace, d.key).None? {
      OpenedJob(s, d, a);
      SubmittedJob(s.(jobs := s.jobs + [JobFrom(d)]), |s.jobs|, a);
    }
  }

  /** A created request, report or media kit is linked to such a job, unless submitting raised. */
  lemma CreatedRequestIsServed(s: Store, ws: WorkspaceId, p: nat, a: Attempt)
    requires Inv(s) && Admitted(s, ws, p, a.clock.period) && a.breaks.Whole?
    ensures var t, r := CreateRequest(s, ws, p, a), |s.requests|;
      r < |t.requests| && ServedBy(s.jobs, t.jobs, t.requests[r].job, ws, ContentGeneration, Entity(PackRequestKind, r),
                                   map["content_pack_request_id" := MetaText(Decimal(r))])
  {
    RefusalMeans(s, ws, p, a.clock.period);
    OpeningKeepsRequests(s, ws, p, a);
    OpenServes(WithRequest(s, ws, p, a.clock.period), PackRequestDraft(ws, |s.requests|), a);
  }

  lemma CreatedReportIsServed(s: Store, ws: WorkspaceId, a: Attempt)
    requires WithinQuota(s, ws, ReportGenerated, a.clock.period) && a.breaks.Whole?
    ensures var t, e := CreateReport(s, ws, a), |s.reports|;
      e < |t.reports| && ServedBy(s.jobs, t.jobs, t.reports[e].job, ws, ReportGeneration, Entity(ReportKind, e),
                                  map["report_id" := MetaText(Decimal(e))])
  {
    ReportCreatedIffWithinQuota(s, ws, a);
    CountIsCardinality(s.usage, ws, ReportGenerated, a.clock.period);
    var e := |s.reports|;
    var s1 := s.(reports := s.reports + [Document(ws, ReportQueued, None, map[], None)],
                 usage := Record(s.usage, UsageEvent(ws, ReportGenerated, e, 0, a.clock.period)));
    OpenDocuments(s1, ReportDraft(ws, e), a);
    OpenServes(s1, ReportDraft(ws, e), a);
  }

  lemma DispatchUsage(s: Store, j: nat, status: JobStatus, result: CallbackResult, message: string,
                      meta: Meta, clock: Clock)
    requires j < |s.jobs| && Failure(status)
    ensures Dispatch(s, j, status, result, message, meta, clock).usage == s.usage
  {
  }

  lemma MarkFailedUsage(s: Store, j: nat, status: JobStatus, message: string, a: Attempt)
    requires j < |s.jobs| && Failure(status)
    ensures MarkSubmissionFailed(s, j, status, message, a).usage == s.usage
  {
    var job := s.jobs[j].(status := status, failedAt := Some(a.clock.now), errorMessage := message);
    DispatchUsage(s.(jobs := s.jobs[j := job]), j, status, EMPTY_RESULT, message, map[], a.clock);
  }

  /** Opening a job meters nothing. */
  lemma OpenUsage(s: Store, d: Draft, a: Attempt)
    ensures Open(s, d, a).usage == s.usage
  {
    var s1 := s.(jobs := s.jobs + [JobFrom(d)]);
    match a.submission {
      case NotConfigured(m) => MarkFailedUsage(s1, |s.jobs|, Failed, m, a);
      case Rejected(m) => MarkFailedUsage(s1, |s.jobs|, Failed, m, a);
      case TimedOut(m) => MarkFailedUsage(s1, |s.jobs|, Timeout, m, a);
      case _ =>
    }
  }

  /** The meter after a document's creation: an event of its type and id, the one already there
      or else one more, free, in this period. */
  ghost predicate Metered(before: seq<UsageEvent>, after: seq<UsageEvent>, ws: WorkspaceId, t: EventType, id: nat,
                          period: nat)
  {
    if exists i :: 0 <= i < |before| && before[i].workspace == ws && before[i].eventType == t && before[i].entity == id
    then after == before
    else after == before + [UsageEvent(ws, t, id, 0, period)]
  }

  lemma CreatedDocumentIsMetered(s: Store, ws: WorkspaceId, a: Attempt)
    ensures WithinQuota(s, ws, ReportGenerated, a.clock.period) ==>
      Metered(s.usage, CreateReport(s, ws, a).usage, ws, ReportGenerated, |s.reports|, a.clock.period)
    ensures Metered(s.usage, CreateKit(s, ws, a).usage, ws, MediaKitGenerated, |s.kits|, a.clock.period)
  {
    CountIsCardinality(s.usage, ws, ReportGenerated, a.clock.period);
    var e, k := |s.reports|, |s.kits|;
    var s1 := s.(reports := s.reports + [Document(ws, ReportQueued, None, map[], None)],
                 usage := Record(s.usage, UsageEvent(ws, ReportGenerated, e, 0, a.clock.period)));
    OpenUsage(s1, ReportDraft(ws, e), a);
    var s2 := s.(kits := s.kits + [Document(ws, KitDraft, None, map[], None)],
                 usage := Record(s.usage, UsageEvent(ws, MediaKitGenerated, k, 0, a.clock.period)));
    OpenUsage(s2, KitDraftOf(ws, k), a);
  }

  lemma CreatedKitIsServed(s: Store, ws: WorkspaceId, a: Attempt)
    requires a.breaks.Whole?
    ensures var t, e := CreateKit(s, ws, a), |s.kits|;
      && |t.kits| == e + 1
      && ServedBy(s.jobs, t.jobs, t.kits[e].job, ws, MediaKitGeneration, Entity(MediaKitKind, e),
                  map["media_kit_id" := MetaText(Decimal(e))])
  {
    var e := |s.kits|;
    var s1 := s.(kits := s.kits + [Document(ws, KitDraft, None, map[], None)],
                 usage := Record(s.usage, UsageEvent(ws, MediaKitGenerated, e, 0, a.clock.period)));
    OpenDocuments(s1, KitDraftOf(ws, e), a);
    OpenServes(s1, KitDraftOf(ws, e), a);
  }

  /** A retry opens, under the old job's key, a job for the same work with one retry more. */
  lemma RetryOpens(s: Store, j: nat, a: Attempt)
    requires j < |s.jobs|
    ensures var d, job := RetryDraft(s.jobs[j], j), s.jobs[j];
      && Retry(s, j, a) == (if job.status in {Failed, Timeout, Cancelled, Expired} then Open(s, d, a) else s)
      && d.workspace == job.workspace && d.jobType == job.jobType && d.entity == job.entity && d.key == job.key
      && d.retryCount == job.retryCount + 1 && d.metadata == job.metadata[RETRIED_FROM := JobLink(j)]
  {
  }

  /** The admin action cancels the selected jobs that are not over, and touches nothing else. */
  lemma CancelledJobs(s: Store, selection: set<nat>, now: Time, i: nat)
    requires i < |s.jobs|
    ensures var t := Next(s, Cancel(selection, now));
      && t == s.(jobs := t.jobs) && |t.jobs| == |s.jobs|
      && t.jobs[i] ==
         if i in selection && s.jobs[i].status in {Queued, Submitted, Running, Timeout} then
           s.jobs[i].(status := Cancelled, failedAt := Some(now))
         else s.jobs[i]
  {
  }
}
