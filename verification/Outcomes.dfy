/** What a handled callback leaves of the product: the request or document row, the one notice,
    and the usage event, said of the callback's items. */
module Outcomes {
  import opened Prelude
  import opened Ledger
  import opened Usage
  import opened Jobs
  import opened Settlement
  import opened Invariants
  import opened Delivery
  import opened Quotas
  import opened Answers
  import opened OutputRows
  import Outputs
  import RenderJob

  // ---------------------------------------------------------------- notices

  /** The notice is there afterwards, and it is the only one that may be new. */
  ghost predicate NoticeGiven(before: seq<Notice>, after: seq<Notice>, n: Notice) {
    before <= after && n in after && forall x :: x in after ==> x in before || x == n
  }

  lemma NoticeIsGiven(ns: seq<Notice>, n: Notice)
    ensures NoticeGiven(ns, Settlement.NotifyOnce(ns, n), n)
  {
  }

  // ---------------------------------------------------------------- content packs

  /** Some item of the callback leaves a completed output. */
  ghost predicate Produces(s: Store, r: nat, ds: seq<Outputs.OutputData>)
    requires r < |s.requests|
  {
    SomeCompleted(s.shelf, s.catalogue, OwnerOf(s, r), ds, |ds|)
  }

  /** The generated event is recorded, once, or the meter is as it was. */
  ghost predicate GeneratedRecorded(before: seq<UsageEvent>, after: seq<UsageEvent>, ws: WorkspaceId, r: nat,
                                    period: nat, produced: bool)
  {
    if !produced then after == before
    else
      var e := UsageEvent(ws, ContentPackGenerated, r, 0, period);
      && (exists i :: 0 <= i < |after| && SameKey(after[i], e))
      && (after == before || after == before + [e])
      && ((exists i :: 0 <= i < |before| && SameKey(before[i], e)) <==> after == before)
  }

  lemma EventIsRecorded(us: seq<UsageEvent>, ws: WorkspaceId, r: nat, period: nat)
    ensures GeneratedRecorded(us, Record(us, UsageEvent(ws, ContentPackGenerated, r, 0, period)), ws, r, period, true)
  {
    var e := UsageEvent(ws, ContentPackGenerated, r, 0, period);
    var f := FindEvent(us, e);
    if f.Some? { assert SameKey(us[f.value], e); }
    else { assert SameKey((us + [e])[|us|], e); }
  }

  /** The request after a success: partial exactly for partially_completed, completed for every
      other such status, at this moment; its failure columns untouched. */
  predicate Closed(before: Request, after: Request, status: JobStatus, now: Time) {
    && (after.status == RequestPartial <==> status == PartiallyCompleted)
    && (after.status == RequestCompleted <==> status != PartiallyCompleted)
    && after.completedAt == Some(now) && after.failedAt == before.failedAt
    && after.errorMessage == before.errorMessage
    && after.workspace == before.workspace && after.pack == before.pack
    && after.usageEvent == before.usageEvent && after.job == before.job
  }

  lemma PackSuccess(s: Store, j: nat, r: nat, status: JobStatus, ds: seq<Outputs.OutputData>, meta: Meta, clock: Clock)
    requires j < |s.jobs| && r < |s.requests|
    ensures var t, ws := PackSucceeded(s, j, r, status, ds, meta, clock), s.requests[r].workspace;
      && |t.requests| == |s.requests| && Closed(s.requests[r], t.requests[r], status, clock.now)
      && (forall q :: 0 <= q < |s.requests| && q != r ==> t.requests[q] == s.requests[q])
      && NoticeGiven(s.notices, t.notices,
                     Notice(ws, Entity(PackRequestKind, r), if Produces(s, r, ds) then PackReady else PackFailed))
      && GeneratedRecorded(s.usage, t.usage, ws, r, clock.period, Produces(s, r, ds))
      && t.shelf == Outputs.UpsertAll(s.shelf, s.catalogue, OwnerOf(s, r), ds)
  {
    CompletedIff(s.shelf, s.catalogue, OwnerOf(s, r), ds, |ds|);
    assert ds[..|ds|] == ds;
    EventIsRecorded(s.usage, s.requests[r].workspace, r, clock.period);
  }

  /** A handled callback on a content pack's job whose status is no failure: the request is
      closed as the status says, the customer is told that the content is ready exactly when an
      item left a completed output and that it failed otherwise, and one generated event is
      recorded exactly in the first case. */
  lemma SuccessMeans(s: Store, cb: Callback, clock: Clock, r: nat)
    requires Fresh(s, cb) && cb.status !in {Failed, Timeout, Expired}
    requires s.jobs[cb.job].jobType == ContentGeneration && s.jobs[cb.job].entity == Entity(PackRequestKind, r)
    requires r < |s.requests|
    ensures var t, ws := Deliver(s, cb, false, clock), s.requests[r].workspace;
      && |t.requests| == |s.requests| && Closed(s.requests[r], t.requests[r], cb.status, clock.now)
      && (forall q :: 0 <= q < |s.requests| && q != r ==> t.requests[q] == s.requests[q])
      && NoticeGiven(s.notices, t.notices, Notice(ws, Entity(PackRequestKind, r),
                                                  if Produces(s, r, cb.result.outputs) then PackReady else PackFailed))
      && GeneratedRecorded(s.usage, t.usage, ws, r, clock.period, Produces(s, r, cb.result.outputs))
      && t.shelf == Outputs.UpsertAll(s.shelf, s.catalogue, OwnerOf(s, r), cb.result.outputs)
  {
    AnswerMeans(s, cb, false, clock);
    var s1 := Received(s, cb.job, clock.now);
    SubjectMeans(s1, cb.job);
    PackSuccess(s1, cb.job, r, cb.status, cb.result.outputs, cb.metadata, clock);
  }

  /** A request after a failure: failed at this moment, with the callback's message if it has
      one. */
  predicate FailedAt(before: Request, after: Request, message: string, now: Time) {
    after == before.(status := RequestFailed, failedAt := Some(now),
                     errorMessage := if message == "" then before.errorMessage else message)
  }

  lemma PackFailure(s: Store, j: nat, r: nat, status: JobStatus, message: string, meta: Meta, clock: Clock)
    requires j < |s.jobs| && r < |s.requests|
    ensures var t, ws := PackFailedWith(s, j, r, status, message, meta, clock), s.requests[r].workspace;
      && |t.requests| == |s.requests| && FailedAt(s.requests[r], t.requests[r], message, clock.now)
      && NoticeGiven(s.notices, t.notices, Notice(ws, Entity(PackRequestKind, r), PackFailed))
      && t.usage == s.usage && t.shelf.assets == s.shelf.assets
      && |t.shelf.outputs| == |s.shelf.outputs|
      && forall i :: 0 <= i < |s.shelf.outputs| ==>
           t.shelf.outputs[i] == if s.shelf.outputs[i].request == r then s.shelf.outputs[i].(status := Outputs.Failed)
                                 else s.shelf.outputs[i]
  {
  }

  /** A handled failure callback on a content pack's job fails the request and all its outputs,
      tells the customer, and records nothing. */
  lemma FailureMeans(s: Store, cb: Callback, clock: Clock, r: nat)
    requires Fresh(s, cb) && cb.status in {Failed, Timeout, Expired}
    requires s.jobs[cb.job].jobType == ContentGeneration && s.jobs[cb.job].entity == Entity(PackRequestKind, r)
    requires r < |s.requests|
    ensures var t, ws := Deliver(s, cb, false, clock), s.requests[r].workspace;
      && |t.requests| == |s.requests| && FailedAt(s.requests[r], t.requests[r], cb.message, clock.now)
      && NoticeGiven(s.notices, t.notices, Notice(ws, Entity(PackRequestKind, r), PackFailed))
      && t.usage == s.usage && t.shelf.assets == s.shelf.assets
      && |t.shelf.outputs| == |s.shelf.outputs|
      && forall i :: 0 <= i < |s.shelf.outputs| ==>
           t.shelf.outputs[i] == if s.shelf.outputs[i].request == r then s.shelf.outputs[i].(status := Outputs.Failed)
                                 else s.shelf.outputs[i]
  {
    AnswerMeans(s, cb, false, clock);
    var s1 := Received(s, cb.job, clock.now);
    SubjectMeans(s1, cb.job);
    PackFailure(s1, cb.job, r, cb.status, cb.message, cb.metadata, clock);
  }

  // ---------------------------------------------------------------- reports and media kits

  /** A document after a success: the new status, its metadata overlaid by the result's. */
  ghost predicate Finished(before: Document, after: Document, status: DocumentStatus, result: CallbackResult) {
    && after.status == status && after.workspace == before.workspace && after.job == before.job
    && (result.metadata.None? ==> after.metadata == before.metadata)
    && (result.metadata.Some? ==> after.metadata == before.metadata + result.metadata.value)
  }

  /** The asset after a success: a linked one stays; a document without one gets the result's
      asset block or, when there is no block, the result object itself; an empty one links none. */
  ghost predicate AssetTakenFrom(before: Document, after: Document, assets: seq<Outputs.Asset>,
                                 stored: seq<Outputs.Asset>, kind: Outputs.AssetKind, result: CallbackResult)
  {
    var offered := match result.asset
                   case Block(data) => Some(data)
                   case EmptyBlock => None
                   case NoBlock => result.own;
    if before.asset.Some? || offered.None? then after.asset == before.asset && stored == assets
    else after.asset == Some(|assets|) && stored == assets + [Outputs.Asset(before.workspace, kind, offered.value)]
  }

  lemma ReportHandled(s: Store, cb: Callback, clock: Clock, e: nat)
    requires Fresh(s, cb) && e < |s.reports|
    requires s.jobs[cb.job].jobType == ReportGeneration && s.jobs[cb.job].entity == Entity(ReportKind, e)
    ensures var t := Deliver(s, cb, false, clock);
      var failed := cb.status in {Failed, Timeout, Expired};
      && |t.reports| == |s.reports|
      && (failed ==> t.reports[e] == s.reports[e].(status := ReportFailed,
                                                  metadata := s.reports[e].metadata["error" := cb.message])
                      && t.shelf == s.shelf)
      && (!failed ==> Finished(s.reports[e], t.reports[e], ReportCompleted, cb.result)
                      && AssetTakenFrom(s.reports[e], t.reports[e], s.shelf.assets, t.shelf.assets,
                                        Outputs.ReportPdf, cb.result))
      && NoticeGiven(s.notices, t.notices, Notice(s.reports[e].workspace, Entity(ReportKind, e),
                                                  if failed then ReportFailure else ReportReady))
  {
    AnswerMeans(s, cb, false, clock);
    var s1 := Received(s, cb.job, clock.now);
    SubjectMeans(s1, cb.job);
    assert s.reports[e].metadata + map[] == s.reports[e].metadata;
  }

  /** A media kit has no failed status: a failure keeps its status and is noted in its metadata. */
  lemma KitHandled(s: Store, cb: Callback, clock: Clock, e: nat)
    requires Fresh(s, cb) && e < |s.kits|
    requires s.jobs[cb.job].jobType == MediaKitGeneration && s.jobs[cb.job].entity == Entity(MediaKitKind, e)
    ensures var t := Deliver(s, cb, false, clock);
      var failed := cb.status in {Failed, Timeout, Expired};
      && |t.kits| == |s.kits|
      && (failed ==> t.kits[e] == s.kits[e].(metadata := t.kits[e].metadata) && t.shelf == s.shelf)
      && (failed ==>
            t.kits[e].metadata == s.kits[e].metadata["generation_status" := "failed"]["error" := cb.message])
      && (!failed ==> Finished(s.kits[e], t.kits[e], KitGenerated, cb.result)
                      && AssetTakenFrom(s.kits[e], t.kits[e], s.shelf.assets, t.shelf.assets,
                                        Outputs.MediaKitAsset, cb.result))
      && NoticeGiven(s.notices, t.notices, Notice(s.kits[e].workspace, Entity(MediaKitKind, e),
                                                  if failed then KitFailure else KitReady))
  {
    AnswerMeans(s, cb, false, clock);
    var s1 := Received(s, cb.job, clock.now);
    SubjectMeans(s1, cb.job);
    assert s.kits[e].metadata + map[] == s.kits[e].metadata;
  }

  // ---------------------------------------------------------------- failing submissions

  /** A submission that failed, with its reason. */
  predicate FailedBecause(a: Attempt, message: string) {
    match a.submission
    case NotConfigured(m) => m == message
    case Rejected(m) => m == message
    case TimedOut(m) => m == message
    case Disabled => false
    case DryRun => false
    case Accepted => false
  }

  /** The store once the failure is written to the job, before the product is told. */
  function Marked(s: Store, j: nat, message: string, a: Attempt): Store
    requires j < |s.jobs|
  {
    var status := if a.submission.TimedOut? then Timeout else JobStatus.Failed;
    s.(jobs := s.jobs[j := s.jobs[j].(status := status, failedAt := Some(a.clock.now), errorMessage := message)])
  }

  lemma ToldSubmission(s: Store, j: nat, message: string, a: Attempt)
    requires j < |s.jobs| && FailedBecause(a, message) && a.propagates && a.breaks.Whole?
    requires !s.jobs[j].jobType.OtherType?
    ensures var s1 := Marked(s, j, message, a);
      Submit(s, j, a) == Dispatch(s1, j, s1.jobs[j].status, EMPTY_RESULT, message, map[], a.clock)
  {
  }

  /** A failing submission that is told fails the request with its reason, tells the customer, and
      records nothing. */
  lemma ToldRequest(s: Store, j: nat, r: nat, message: string, a: Attempt)
    requires j < |s.jobs| && FailedBecause(a, message) && a.propagates && a.breaks.Whole?
    requires s.jobs[j].jobType == ContentGeneration && s.jobs[j].entity == Entity(PackRequestKind, r)
    requires r < |s.requests|
    ensures var t, ws := Submit(s, j, a), s.requests[r].workspace;
      && |t.requests| == |s.requests| && FailedAt(s.requests[r], t.requests[r], message, a.clock.now)
      && NoticeGiven(s.notices, t.notices, Notice(ws, Entity(PackRequestKind, r), PackFailed))
      && t.usage == s.usage
  {
    var s1 := Marked(s, j, message, a);
    ToldSubmission(s, j, message, a);
    SubjectMeans(s1, j);
    PackFailure(s1, j, r, s1.jobs[j].status, message, map[], a.clock);
  }

  /** So does one for a report or media kit. */
  lemma ToldDocument(s: Store, j: nat, e: nat, message: string, a: Attempt)
    requires j < |s.jobs| && FailedBecause(a, message) && a.propagates && a.breaks.Whole?
    requires s.jobs[j].jobType in {ReportGeneration, MediaKitGeneration}
    ensures var t := Submit(s, j, a);
      && (s.jobs[j].jobType == ReportGeneration && s.jobs[j].entity == Entity(ReportKind, e) && e < |s.reports| ==>
            && |t.reports| == |s.reports| && t.reports[e].status == ReportFailed
            && t.reports[e].metadata == s.reports[e].metadata["error" := message]
            && NoticeGiven(s.notices, t.notices, Notice(s.reports[e].workspace, Entity(ReportKind, e), ReportFailure)))
      && (s.jobs[j].jobType == MediaKitGeneration && s.jobs[j].entity == Entity(MediaKitKind, e) && e < |s.kits| ==>
            && |t.kits| == |s.kits| && t.kits[e].status == s.kits[e].status
            && t.kits[e].metadata == s.kits[e].metadata["generation_status" := "failed"]["error" := message]
            && NoticeGiven(s.notices, t.notices, Notice(s.kits[e].workspace, Entity(MediaKitKind, e), KitFailure)))
  {
    ToldSubmission(s, j, message, a);
    SubjectMeans(Marked(s, j, message, a), j);
  }

  /** One that is not told, and one that does not fail, touch nothing but the job. */
  lemma UntoldSubmission(s: Store, j: nat, a: Attempt)
    requires j < |s.jobs|
    requires (forall m :: !FailedBecause(a, m)) || !a.propagates || !a.breaks.Whole?
    ensures Submit(s, j, a) == s.(jobs := Submit(s, j, a).jobs)
  {
    match a.submission {
      case NotConfigured(m) => assert FailedBecause(a, m);
      case Rejected(m) => assert FailedBecause(a, m);
      case TimedOut(m) => assert FailedBecause(a, m);
      case _ =>
    }
  }

  lemma QuietOpen(s: Store, d: Draft, a: Attempt)
    requires a.submission in {Disabled, DryRun, Accepted}
    ensures Open(s, d, a) == s.(jobs := Open(s, d, a).jobs)
  {
  }

  /** A submission that was accepted, simulated or switched off leaves the created row as it
      starts: queued, or a draft kit, without files, texts or times. */
  lemma CreatedRows(s: Store, ws: WorkspaceId, a: Attempt)
    requires a.breaks.Whole? && a.submission in {Disabled, DryRun, Accepted}
    ensures WithinQuota(s, ws, ReportGenerated, a.clock.period) ==>
      var t := CreateReport(s, ws, a);
      |t.reports| == |s.reports| + 1 && t.reports[..|s.reports|] == s.reports
      && t.reports[|s.reports|] == Document(ws, ReportQueued, None, map[], t.reports[|s.reports|].job)
    ensures var t := CreateKit(s, ws, a);
      && |t.kits| == |s.kits| + 1 && t.kits[..|s.kits|] == s.kits
      && t.kits[|s.kits|] == Document(ws, KitDraft, None, map[], t.kits[|s.kits|].job)
  {
    CountIsCardinality(s.usage, ws, ReportGenerated, a.clock.period);
    var s1 := s.(reports := s.reports + [Document(ws, ReportQueued, None, map[], None)],
                 usage := Record(s.usage, UsageEvent(ws, ReportGenerated, |s.reports|, 0, a.clock.period)));
    QuietOpen(s1, ReportDraft(ws, |s.reports|), a);
    var s2 := s.(kits := s.kits + [Document(ws, KitDraft, None, map[], None)],
                 usage := Record(s.usage, UsageEvent(ws, MediaKitGenerated, |s.kits|, 0, a.clock.period)));
    QuietOpen(s2, KitDraftOf(ws, |s.kits|), a);
  }

  lemma CreatedRequestRow(s: Store, ws: WorkspaceId, p: nat, a: Attempt)
    requires Inv(s) && Admitted(s, ws, p, a.clock.period)
    requires a.breaks.Whole? && a.submission in {Disabled, DryRun, Accepted}
    ensures var t, r := CreateRequest(s, ws, p, a), |s.requests|;
      && |t.requests| == r + 1 && t.requests[..r] == s.requests
      && t.requests[r] == Request(ws, p, |s.usage|, RequestQueued, None, None, "", t.requests[r].job)
      && t.usage == s.usage + [UsageEvent(ws, ContentPackRequested, r, s.packs[p].cost, a.clock.period)]
  {
    RefusalMeans(s, ws, p, a.clock.period);
    WithRequestWrites(s, ws, p, a.clock.period);
    QuietOpen(WithRequest(s, ws, p, a.clock.period), PackRequestDraft(ws, |s.requests|), a);
  }

  // ---------------------------------------------------------------- from the renderer to the row

  /** The stored row of a rendered output: its own type, format, texts and outcome, and its file
      if it was completed with one. */
  predicate RowOf(row: Outputs.Output, o: RenderJob.RenderOutput, r: nat) {
    && row.request == r && row.outputType == o.outputType && row.format == o.format
    && (o.title.Some? ==> row.title == o.title.value)
    && (o.caption.Some? ==> row.caption == o.caption.value)
    && (o.cta.Some? ==> row.cta == o.cta.value)
    && row.status == (if o.completed then Outputs.Completed else Outputs.Failed)
    && (o.completed && o.asset.Some? ==> row.asset.Some?)
  }

  /** A file linked for the first time is the output's own, in the request's workspace. */
  ghost predicate OwnFile(s: Store, t: Store, row: Outputs.Output, o: RenderJob.RenderOutput, ws: WorkspaceId) {
    row.asset.Some? && row.asset.value >= |s.shelf.assets| ==>
      && o.asset.Some? && row.asset.value < |t.shelf.assets|
      && t.shelf.assets[row.asset.value] == Outputs.Asset(ws, Outputs.GeneratedOutput, Outputs.File(o.asset.value))
  }

  /** A template is named by id, by key, or linked to the output's type by the request's content
      pack. */
  predicate HasTemplate(s: Store, o: RenderJob.RenderOutput, r: nat)
    requires r < |s.requests|
  {
    var p := s.requests[r].pack;
    || (o.templateId.Some? && o.templateId.value != "" && o.templateId.value in s.catalogue.byId)
    || (o.templateKey.Some? && o.templateKey.value != "" && o.templateKey.value in s.catalogue.byKey)
    || (p < |s.packs| && o.outputType != "" && o.outputType in s.packs[p].links)
  }

  /** The template of a new row: the one named by id, else by key, else the one the request's
      content pack links to the output's type. */
  predicate TemplateChosen(s: Store, template: nat, o: RenderJob.RenderOutput, r: nat)
    requires r < |s.requests|
  {
    var named := o.templateId.Some? && o.templateId.value != "" && o.templateId.value in s.catalogue.byId;
    var keyed := o.templateKey.Some? && o.templateKey.value != "" && o.templateKey.value in s.catalogue.byKey;
    var p := s.requests[r].pack;
    if named then template == s.catalogue.byId[o.templateId.value]
    else if keyed then template == s.catalogue.byKey[o.templateKey.value]
    else p < |s.packs| && o.outputType in s.packs[p].links && template == s.packs[p].links[o.outputType]
  }

  lemma SentItems(e: RenderJob.Envelope, v: RenderJob.RenderResult)
    requires e.jobType == ContentGeneration && !v.status.Broken?
    ensures var cb := RenderJob.Payload(e, v);
      && cb.result.outputs == RenderJob.Items(v.outputs) && Outputs.DistinctKeys(cb.result.outputs)
      && cb.status == (if v.status.Done? then JobStatus.Completed else PartiallyCompleted)
  {
    var ds := RenderJob.Items(v.outputs);
    forall i, j | 0 <= i < j < |ds| ensures Outputs.OutputKey(ds[i], i) != Outputs.OutputKey(ds[j], j) {
      assert ds[i] == RenderJob.Item(v.outputs[i]) && ds[j] == RenderJob.Item(v.outputs[j]);
      if Outputs.OutputKey(ds[i], i) == Outputs.OutputKey(ds[j], j) { Outputs.GeneratedKeysDiffer(ds[i], i, ds[j], j); }
    }
  }

  /** After the renderer's callback for a content pack is handled, each of its outputs whose
      template resolves, or which had a row, has a row that carries it. */
  lemma RenderedRow(s: Store, e: RenderJob.Envelope, v: RenderJob.RenderResult, clock: Clock, r: nat, i: nat)
    requires e.jobType == ContentGeneration && !v.status.Broken? && i < |v.outputs| && r < |s.requests|
    requires Fresh(s, RenderJob.Payload(e, v)) && s.jobs[e.job].jobType == ContentGeneration
    requires s.jobs[e.job].entity == Entity(PackRequestKind, r)
    requires ShelfInOrder(s)
    requires || HasTemplate(s, v.outputs[i], r)
             || RowUnder(s.shelf.outputs, r, Outputs.OutputKey(RenderJob.Item(v.outputs[i]), i)).Some?
    ensures var t := Deliver(s, RenderJob.Payload(e, v), false, clock);
      var row := RowUnder(t.shelf.outputs, r, Outputs.OutputKey(RenderJob.Item(v.outputs[i]), i));
      && row.Some? && RowOf(row.value, v.outputs[i], r)
      && OwnFile(s, t, row.value, v.outputs[i], s.requests[r].workspace)
      && (RowUnder(s.shelf.outputs, r, Outputs.OutputKey(RenderJob.Item(v.outputs[i]), i)).None? ==>
            TemplateChosen(s, row.value.template, v.outputs[i], r))
  {
    var cb := RenderJob.Payload(e, v);
    var ds := RenderJob.Items(v.outputs);
    SentItems(e, v);
    SuccessMeans(s, cb, clock, r);
    assert ds[i] == RenderJob.Item(v.outputs[i]);
    MergedListRow(s.shelf, s.catalogue, OwnerOf(s, r), ds, i);
    RowFromItem(s, Deliver(s, cb, false, clock), v.outputs[i], r, i);
  }

  lemma RowFromItem(s: Store, t: Store, o: RenderJob.RenderOutput, r: nat, i: nat)
    requires r < |s.requests| && ShelfInOrder(s)
    requires ItemTaken(s.shelf, t.shelf, s.catalogue, OwnerOf(s, r), RenderJob.Item(o),
                       Outputs.OutputKey(RenderJob.Item(o), i))
    requires || Resolvable(s.catalogue, OwnerOf(s, r), RenderJob.Item(o))
             || Outputs.Find(s.shelf.outputs, r, Outputs.OutputKey(RenderJob.Item(o), i)).Some?
    ensures var row := RowUnder(t.shelf.outputs, r, Outputs.OutputKey(RenderJob.Item(o), i));
      && row.Some? && RowOf(row.value, o, r)
      && OwnFile(s, t, row.value, o, s.requests[r].workspace)
      && (RowUnder(s.shelf.outputs, r, Outputs.OutputKey(RenderJob.Item(o), i)).None? ==>
            TemplateChosen(s, row.value.template, o, r))
  {
    assert Some("completed") != Some("failed") by { assert "completed"[0] != "failed"[0]; }
    assert "completed" != "processing" && "completed" != "rendering" && "completed" != "queued" by {
      assert "completed"[0] != "processing"[0] && "completed"[0] != "rendering"[0] && "completed"[0] != "queued"[0];
    }
    assert "failed" != "processing" && "failed" != "rendering" && "failed" != "queued" by {
      assert "failed"[0] != "processing"[0] && "failed"[0] != "rendering"[0] && "failed"[0] != "queued"[0];
    }
  }
}
