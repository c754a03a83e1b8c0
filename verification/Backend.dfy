/** The Django side of the protocol in the form the program has it: objects whose fields the
    services update. Every method performs exactly the step of Settlement it is named after. */
module Backend {
  import opened Prelude
  import opened Ledger
  import opened Usage
  import opened Jobs
  import opened Settlement
  import opened Billing
  import Outputs
  import Invariants
  import Quotas
  import Answers

  class BackendCore {
    const billing: BillingService
    const catalogue: Outputs.Catalogue
    var packs: seq<Pack>
    var jobs: seq<Job>
    var requests: seq<Request>
    var reports: seq<Document>
    var kits: seq<Document>
    var outputs: seq<Outputs.Output>
    var assets: seq<Outputs.Asset>
    var notices: seq<Notice>

    /** The whole store as a value. */
    ghost function View(): Store
      reads this, billing
    {
      Store(billing.entries, billing.usage, billing.limits, packs, catalogue, jobs, requests, reports, kits,
            Outputs.Shelf(outputs, assets), notices)
    }

    constructor (catalogue: Outputs.Catalogue)
      ensures View() == EmptyStore(catalogue) && Invariants.Inv(View())
      ensures fresh(billing)
    {
      var b := new BillingService();
      billing := b;
      this.catalogue := catalogue;
      packs, jobs, requests, reports, kits := [], [], [], [], [];
      outputs, assets, notices := [], [], [];
    }

    // -------------------------------------------------------------- small effects

    method NotifyOnce(n: Notice)
      modifies this`notices
      ensures notices == Settlement.NotifyOnce(old(notices), n)
    {
      for i := 0 to |notices|
        invariant n !in notices[..i]
      {
        if notices[i] == n { return; }
      }
      assert notices[..|notices|] == notices;
      notices := notices + [n];
    }

    method ApplyJobCallback(j: nat, status: JobStatus, message: string, meta: Meta, now: Time)
      requires j < |jobs|
      modifies this`jobs
      ensures View() == old(Transition(View(), j, status, message, meta, now))
    {
      var job := jobs[j].(status := status);
      if status == Running && job.startedAt.None? {
        job := job.(startedAt := Some(now));
      } else if status in {Completed, PartiallyCompleted} {
        job := job.(completedAt := Some(now));
      } else if status in {Failed, Timeout, Expired} {
        job := job.(failedAt := Some(now));
        if message != "" { job := job.(errorMessage := message); }
      }
      job := job.(metadata := job.metadata + meta);
      jobs := jobs[j := job];
    }

    // -------------------------------------------------------------- merging outputs

    /** The dictionary the program builds: external output key to row, the oldest row winning. */
    method ExistingOutputsByKey(r: nat) returns (byKey: map<string, nat>)
      ensures Mirrors(byKey, outputs, r)
    {
      byKey := map[];
      var i := |outputs|;
      while i > 0
        invariant 0 <= i <= |outputs|
        invariant forall k :: k in byKey ==> OldestFrom(outputs, i, r, k, byKey[k])
        invariant KeyedFrom(outputs, i, r, byKey)
      {
        i := i - 1;
        var o := outputs[i];
        if o.request == r && Outputs.KEY_FIELD in o.metadata && o.metadata[Outputs.KEY_FIELD] != "" {
          byKey := byKey[o.metadata[Outputs.KEY_FIELD] := i];
        }
      }
      AllKeyed(outputs, r, byKey);
    }

    /** Create or update one row; None when the item is skipped. */
    method UpsertOutput(owner: Outputs.Owner, d: Outputs.OutputData, index: nat, byKey: map<string, nat>)
      returns (row: Option<nat>, byKey': map<string, nat>)
      requires Mirrors(byKey, outputs, owner.request)
      modifies this`outputs, this`assets
      ensures Outputs.Shelf(outputs, assets)
           == Outputs.Upsert(old(Outputs.Shelf(outputs, assets)), catalogue, owner, d, index)
      ensures row == Outputs.Target(old(Outputs.Shelf(outputs, assets)), catalogue, owner, d, index)
      ensures row.Some? ==> row.value < |outputs| && outputs[row.value].status == Outputs.StatusOf(d.status)
      ensures Mirrors(byKey', outputs, owner.request)
    {
      var key := Outputs.OutputKey(d, index);
      Outputs.KeyNotEmpty(d, index);
      var template := Outputs.ResolveTemplate(catalogue, owner, d);
      if key !in byKey && template.None? { return None, byKey; }
      var p := if key in byKey then byKey[key] else |outputs|;
      var output := if key in byKey then outputs[p] else Outputs.BlankRow(owner, template.value);
      output := Outputs.Revise(output, d, key);
      if d.asset.Some? && output.status == Outputs.Completed && output.asset.None? {
        output := output.(asset := Some(|assets|));
        assets := assets + [Outputs.Asset(owner.workspace, Outputs.GeneratedOutput, d.asset.value)];
      }
      ghost var before := outputs;
      outputs := if p < |outputs| then outputs[p := output] else outputs + [output];
      row, byKey' := Some(p), byKey[key := p];
      MirrorsAfter(byKey, before, owner.request, key, p, output);
    }

    // -------------------------------------------------------------- content packs

    method CurrentOwner(r: nat) returns (owner: Outputs.Owner, cost: int)
      requires r < |requests|
      ensures owner == OwnerOf(View(), r) && cost == CostOf(View(), r)
    {
      var request := requests[r];
      if request.pack < |packs| {
        return Outputs.Owner(r, request.workspace, packs[request.pack].links), packs[request.pack].cost;
      }
      return Outputs.Owner(r, request.workspace, map[]), 0;
    }

    method SettleCredits(r: nat, ws: WorkspaceId, cost: int, consume: bool)
      modifies billing`entries
      ensures billing.entries == Settle(old(billing.entries), ws, r, cost, consume)
    {
      if cost > 0 {
        if consume {
          var _ := billing.ConsumeCredits(ws, cost, true, PackConsume(r));
        } else {
          var _ := billing.ReleaseReservedCredits(ws, cost, PackRelease(r));
        }
      }
    }

    /** The loop over `result.outputs`, with its counters. */
    method MergeOutputs(owner: Outputs.Owner, ds: seq<Outputs.OutputData>)
      returns (completed: nat, failed: nat, skipped: nat)
      modifies this`outputs, this`assets
      ensures Outputs.Shelf(outputs, assets)
           == Outputs.UpsertAll(old(Outputs.Shelf(outputs, assets)), catalogue, owner, ds)
      ensures Outputs.Counts(old(Outputs.Shelf(outputs, assets)), catalogue, owner, ds, completed, failed, skipped)
      ensures completed == Outputs.CompletedCount(old(Outputs.Shelf(outputs, assets)), catalogue, owner, ds)
    {
      ghost var shelf := Outputs.Shelf(outputs, assets);
      var byKey := ExistingOutputsByKey(owner.request);
      completed, failed, skipped := 0, 0, 0;
      for index := 0 to |ds|
        invariant Outputs.Shelf(outputs, assets) == Outputs.UpsertAll(shelf, catalogue, owner, ds[..index])
        invariant Mirrors(byKey, outputs, owner.request)
        invariant Outputs.Counts(shelf, catalogue, owner, ds[..index], completed, failed, skipped)
      {
        Outputs.UpsertAllStep(shelf, catalogue, owner, ds, index);
        Outputs.CountsStep(shelf, catalogue, owner, ds, index, completed, failed, skipped);
        var row;
        row, byKey := UpsertOutput(owner, ds[index], index, byKey);
        if row.None? {
          skipped := skipped + 1;
        } else if outputs[row.value].status == Outputs.Completed {
          completed := completed + 1;
        } else if outputs[row.value].status == Outputs.Failed {
          failed := failed + 1;
        }
      }
      assert ds[..|ds|] == ds;
    }

    method MeterGenerated(r: nat, ws: WorkspaceId, produced: bool, period: nat)
      modifies billing`usage
      ensures billing.usage == if produced then
                                 Record(old(billing.usage), UsageEvent(ws, ContentPackGenerated, r, 0, period))
                               else old(billing.usage)
    {
      if produced {
        var _, _ := billing.RecordUsageEvent(UsageEvent(ws, ContentPackGenerated, r, 0, period));
      }
    }

    method HandleSuccess(j: nat, r: nat, status: JobStatus, ds: seq<Outputs.OutputData>, meta: Meta, clock: Clock)
      requires j < |jobs| && r < |requests|
      modifies this, billing
      ensures View() == old(PackSucceeded(View(), j, r, status, ds, meta, clock))
    {
      var owner, cost := CurrentOwner(r);
      var completed, failed, skipped := MergeOutputs(owner, ds);
      var produced := completed > 0;
      var request := requests[r];
      SettleCredits(r, request.workspace, cost, ShouldConsume(status, ds));
      MeterGenerated(r, request.workspace, produced, clock.period);
      CloseRequest(j, r, status, produced, meta, clock);
    }

    /** The request, the notice and the job after a callback that did not fail. */
    method CloseRequest(j: nat, r: nat, status: JobStatus, produced: bool, meta: Meta, clock: Clock)
      requires j < |jobs| && r < |requests|
      modifies this`requests, this`notices, this`jobs
      ensures jobs == old(jobs[j := Transitioned(jobs[j], status, "", meta, clock.now)])
      ensures requests == old(requests[r := requests[r].(
                status := if status.PartiallyCompleted? then RequestPartial else RequestCompleted,
                completedAt := Some(clock.now))])
      ensures notices == Settlement.NotifyOnce(old(notices), Notice(old(requests[r].workspace),
                Entity(PackRequestKind, r), if produced then PackReady else PackFailed))
    {
      var request := requests[r];
      request := request.(status := if status == PartiallyCompleted then RequestPartial else RequestCompleted,
                          completedAt := Some(clock.now));
      requests := requests[r := request];
      NotifyOnce(Notice(request.workspace, Entity(PackRequestKind, r), if produced then PackReady else PackFailed));
      ApplyJobCallback(j, status, "", meta, clock.now);
    }

    method HandleFailed(j: nat, r: nat, status: JobStatus, message: string, meta: Meta, clock: Clock)
      requires j < |jobs| && r < |requests|
      modifies this, billing
      ensures View() == old(PackFailedWith(View(), j, r, status, message, meta, clock))
    {
      var owner, cost := CurrentOwner(r);
      FailOutputs(r);
      var request := requests[r];
      SettleCredits(r, request.workspace, cost, false);
      request := request.(status := RequestFailed, failedAt := Some(clock.now));
      if message != "" { request := request.(errorMessage := message); }
      requests := requests[r := request];
      NotifyOnce(Notice(request.workspace, Entity(PackRequestKind, r), PackFailed));
      ApplyJobCallback(j, status, message, meta, clock.now);
    }

    /** Mark every output of the request as failed. */
    method FailOutputs(r: nat)
      modifies this`outputs
      ensures outputs == FailRows(old(outputs), r)
    {
      ghost var before := outputs;
      for i := 0 to |outputs|
        invariant |outputs| == |before|
        invariant forall m :: 0 <= m < i ==>
          outputs[m] == if before[m].request == r then before[m].(status := Outputs.Failed) else before[m]
        invariant outputs[i..] == before[i..]
      {
        assert outputs[i] == before[i];
        if outputs[i].request == r {
          outputs := outputs[i := outputs[i].(status := Outputs.Failed)];
        }
      }
    }

    // -------------------------------------------------------------- reports and media kits

    /** Create the asset of a document that has none yet, if the result brings one. */
    method LinkAssetOnce(doc: Document, kind: Outputs.AssetKind, result: CallbackResult, status: DocumentStatus)
      returns (doc': Document)
      modifies this`assets
      ensures doc' == Attached(doc, status, result, old(|assets|))
      ensures assets == AssetsWith(old(assets), doc, kind, result)
    {
      doc' := doc;
      var data := AssetOf(result);
      if doc.asset.None? && data.Some? {
        doc' := doc'.(asset := Some(|assets|));
        assets := assets + [Outputs.Asset(doc.workspace, kind, data.value)];
      }
      doc' := doc'.(status := status);
      if result.metadata.Some? { doc' := doc'.(metadata := doc'.metadata + result.metadata.value); }
      else { assert doc.metadata + map[] == doc.metadata; }
    }

    method CompleteReport(j: nat, e: nat, status: JobStatus, result: CallbackResult, meta: Meta, clock: Clock)
      requires j < |jobs| && e < |reports|
      modifies this
      ensures View() == old(ReportSucceeded(View(), j, e, status, result, meta, clock))
    {
      var doc := LinkAssetOnce(reports[e], Outputs.ReportPdf, result, ReportCompleted);
      reports := reports[e := doc];
      NotifyOnce(Notice(doc.workspace, Entity(ReportKind, e), ReportReady));
      ApplyJobCallback(j, status, "", meta, clock.now);
    }

    method FailReport(j: nat, e: nat, status: JobStatus, message: string, meta: Meta, clock: Clock)
      requires j < |jobs| && e < |reports|
      modifies this
      ensures View() == old(ReportFailedWith(View(), j, e, status, message, meta, clock))
    {
      var doc := reports[e];
      reports := reports[e := doc.(status := ReportFailed, metadata := doc.metadata["error" := message])];
      NotifyOnce(Notice(doc.workspace, Entity(ReportKind, e), ReportFailure));
      ApplyJobCallback(j, status, message, meta, clock.now);
    }

    method CompleteMediaKit(j: nat, e: nat, status: JobStatus, result: CallbackResult, meta: Meta, clock: Clock)
      requires j < |jobs| && e < |kits|
      modifies this
      ensures View() == old(KitSucceeded(View(), j, e, status, result, meta, clock))
    {
      var doc := LinkAssetOnce(kits[e], Outputs.MediaKitAsset, result, KitGenerated);
      kits := kits[e := doc];
      NotifyOnce(Notice(doc.workspace, Entity(MediaKitKind, e), KitReady));
      ApplyJobCallback(j, status, "", meta, clock.now);
    }

    method FailMediaKit(j: nat, e: nat, status: JobStatus, message: string, meta: Meta, clock: Clock)
      requires j < |jobs| && e < |kits|
      modifies this
      ensures View() == old(KitFailedWith(View(), j, e, status, message, meta, clock))
    {
      var doc := kits[e];
      doc := doc.(metadata := doc.metadata["generation_status" := "failed"]["error" := message]);
      kits := kits[e := doc];
      NotifyOnce(Notice(doc.workspace, Entity(MediaKitKind, e), KitFailure));
      ApplyJobCallback(j, status, message, meta, clock.now);
    }

    // -------------------------------------------------------------- the callback endpoint

    method ApplyContentGenerationCallback(j: nat, status: JobStatus, result: CallbackResult, message: string,
                                          meta: Meta, clock: Clock)
      requires j < |jobs| && jobs[j].jobType == ContentGeneration
      modifies this, billing
      ensures View() == old(Dispatch(View(), j, status, result, message, meta, clock))
    {
      var entity := jobs[j].entity;
      if entity.NoEntity? || entity.kind != PackRequestKind || entity.id >= |requests| {
        assert SubjectOf(View(), j) == NoSubject;
        ApplyJobCallback(j, status, message, meta, clock.now);
        return;
      }
      assert SubjectOf(View(), j) == PackSubject(entity.id);
      if Failure(status) {
        HandleFailed(j, entity.id, status, message, meta, clock);
      } else {
        HandleSuccess(j, entity.id, status, result.outputs, meta, clock);
      }
    }

    method ApplyReportGenerationCallback(j: nat, status: JobStatus, result: CallbackResult, message: string,
                                         meta: Meta, clock: Clock)
      requires j < |jobs| && jobs[j].jobType == ReportGeneration
      modifies this, billing
      ensures View() == old(Dispatch(View(), j, status, result, message, meta, clock))
    {
      var entity := jobs[j].entity;
      if entity.NoEntity? || entity.kind != ReportKind || entity.id >= |reports| {
        assert SubjectOf(View(), j) == NoSubject;
        ApplyJobCallback(j, status, message, meta, clock.now);
        return;
      }
      assert SubjectOf(View(), j) == ReportSubject(entity.id);
      if Failure(status) {
        FailReport(j, entity.id, status, message, meta, clock);
      } else {
        CompleteReport(j, entity.id, status, result, meta, clock);
      }
    }

    method ApplyMediaKitGenerationCallback(j: nat, status: JobStatus, result: CallbackResult, message: string,
                                           meta: Meta, clock: Clock)
      requires j < |jobs| && jobs[j].jobType == MediaKitGeneration
      modifies this, billing
      ensures View() == old(Dispatch(View(), j, status, result, message, meta, clock))
    {
      var entity := jobs[j].entity;
      if entity.NoEntity? || entity.kind != MediaKitKind || entity.id >= |kits| {
        assert SubjectOf(View(), j) == NoSubject;
        ApplyJobCallback(j, status, message, meta, clock.now);
        return;
      }
      assert SubjectOf(View(), j) == KitSubject(entity.id);
      if Failure(status) {
        FailMediaKit(j, entity.id, status, message, meta, clock);
      } else {
        CompleteMediaKit(j, entity.id, status, result, meta, clock);
      }
    }

    method CallbackDispatcher(j: nat, status: JobStatus, result: CallbackResult, message: string,
                              meta: Meta, clock: Clock)
      requires j < |jobs|
      modifies this, billing
      ensures View() == old(Dispatch(View(), j, status, result, message, meta, clock))
    {
      match jobs[j].jobType {
        case ContentGeneration => ApplyContentGenerationCallback(j, status, result, message, meta, clock);
        case ReportGeneration => ApplyReportGenerationCallback(j, status, result, message, meta, clock);
        case MediaKitGeneration => ApplyMediaKitGenerationCallback(j, status, result, message, meta, clock);
        case OtherType(_) => ApplyJobCallback(j, status, message, meta, clock.now);
      }
    }

    /** One delivery of a callback. `raises` says whether the handler fails and rolls back. */
    method PostCallback(cb: Callback, raises: bool, clock: Clock) returns (answer: Response)
      modifies this, billing
      ensures View() == old(Deliver(View(), cb, raises, clock))
      ensures answer == old(Answer(View(), cb, raises))
      ensures old(Answers.Fresh(View(), cb)) || View() == old(View())
      ensures Answers.AnswerFits(old(View()), cb, raises, answer)
      ensures old(Invariants.Inv(View())) ==> Invariants.Inv(View())
    {
      ghost var s := View();
      Answers.AnswerMeans(s, cb, raises, clock);
      if Invariants.Inv(s) { Invariants.DeliverKeeps(s, cb, raises, clock); }
      if cb.job >= |jobs| { return NotFound; }
      var job := jobs[cb.job];
      if cb.workspace != job.workspace { return BadRequest; }
      if job.entity.Entity? {
        if cb.entityKind.Some? && cb.entityKind.value != job.entity.kind { return BadRequest; }
        if cb.entityId.Some? && cb.entityId.value != job.entity.id { return BadRequest; }
      }
      if job.status == cb.status { return NoOp; }
      if Terminal(job.status) { return Conflict; }
      jobs := jobs[cb.job := job.(callbackReceivedAt := Some(clock.now))];
      if raises { return ServerError; }
      CallbackDispatcher(cb.job, cb.status, cb.result, cb.message, cb.metadata, clock);
      return Processed;
    }

    // -------------------------------------------------------------- submission

    method MarkSubmissionFailed(j: nat, status: JobStatus, message: string, a: Attempt)
      requires j < |jobs|
      modifies this, billing
      ensures View() == old(Settlement.MarkSubmissionFailed(View(), j, status, message, a))
    {
      jobs := jobs[j := jobs[j].(status := status, failedAt := Some(a.clock.now), errorMessage := message)];
      if Told(a) && !jobs[j].jobType.OtherType? {
        CallbackDispatcher(j, jobs[j].status, EMPTY_RESULT, message, map[], a.clock);
      }
    }

    method SubmitJob(j: nat, a: Attempt)
      requires j < |jobs|
      modifies this, billing
      ensures View() == old(Submit(View(), j, a))
    {
      match a.submission {
        case Disabled =>
        case DryRun =>
          jobs := jobs[j := jobs[j].(status := Submitted, submittedAt := Some(a.clock.now))];
        case NotConfigured(m) => MarkSubmissionFailed(j, Failed, m, a);
        case TimedOut(m) => MarkSubmissionFailed(j, Timeout, m, a);
        case Rejected(m) => MarkSubmissionFailed(j, Failed, m, a);
        case Accepted =>
          jobs := jobs[j := jobs[j].(status := Submitted, submittedAt := Some(a.clock.now))];
      }
    }

    method FindActiveJob(ws: WorkspaceId, key: JobKey) returns (found: Option<nat>)
      ensures found == FindActive(jobs, ws, key)
    {
      if key == Blank { return None; }
      var i := |jobs|;
      assert jobs[..i] == jobs;
      while i > 0
        invariant 0 <= i <= |jobs|
        invariant FindActive(jobs, ws, key) == FindActive(jobs[..i], ws, key)
      {
        assert jobs[..i][..i - 1] == jobs[..i - 1];
        i := i - 1;
        if jobs[i].workspace == ws && jobs[i].key == key && !Terminal(jobs[i].status) { return Some(i); }
      }
      return None;
    }

    /** Reuse the active job of the draft's key, or persist a new one and submit it. None when
        the submission machinery raised. */
    method CreateAndSubmit(d: Draft, a: Attempt) returns (served: Option<nat>)
      modifies this, billing
      ensures View() == old(Open(View(), d, a))
      ensures served == if !a.breaks.Whole? then None else Some(old(ServingJob(View(), d)))
      ensures old(Invariants.Inv(View())) ==> Invariants.Inv(View())
    {
      ghost var s := View();
      if Invariants.Inv(s) { Invariants.OpenKeeps(s, d, a); }
      var key := if d.key != Blank then d.key else DefaultKey(d.jobType, d.entity);
      var existing := FindActiveJob(d.workspace, key);
      if existing.Some? { return if a.breaks.Whole? then existing else None; }
      if a.breaks.BeforeRow? { return None; }
      var j := |jobs|;
      jobs := jobs + [NewJob(d.workspace, d.jobType, d.entity, key, d.retryCount, d.metadata)];
      SubmitJob(j, a);
      return if a.breaks.Whole? then Some(j) else None;
    }

    /** Retry from a retryable status; not allowed from any other. */
    method RetryExternalJob(j: nat, a: Attempt) returns (allowed: bool, served: Option<nat>)
      requires j < |jobs|
      modifies this, billing
      ensures View() == old(Retry(View(), j, a))
      ensures allowed == old(CanRetry(View(), j))
      ensures served == if !allowed || !a.breaks.Whole? then None
                        else Some(old(ServingJob(View(), RetryDraft(jobs[j], j))))
      ensures old(Invariants.Inv(View())) ==> Invariants.Inv(View())
    {
      if !Retryable(jobs[j].status) { return false, None; }
      allowed := true;
      served := CreateAndSubmit(RetryDraft(jobs[j], j), a);
    }

    /** The admin action: cancel the selected jobs that are not terminal. */
    method MarkCancelled(selection: set<nat>, now: Time)
      modifies this`jobs
      ensures View() == old(View().(jobs := CancelJobs(jobs, selection, now)))
      ensures old(Invariants.Inv(View())) ==> Invariants.Inv(View())
    {
      ghost var s := View();
      if Invariants.Inv(s) { Invariants.CancelKeeps(s, selection, now); }
      ghost var before := jobs;
      for i := 0 to |jobs|
        invariant |jobs| == |before|
        invariant forall m :: 0 <= m < i ==> jobs[m] == if m in selection then CancelOne(before[m], now) else before[m]
        invariant forall m :: i <= m < |jobs| ==> jobs[m] == before[m]
      {
        if i in selection && !Terminal(jobs[i].status) {
          jobs := jobs[i := jobs[i].(status := Cancelled, failedAt := Some(now))];
        }
      }
    }

    // -------------------------------------------------------------- creating entities

    /** The transaction of a creation: request, usage event and reservation, or none of them. */
    method CreateRequestRows(ws: WorkspaceId, p: nat, period: nat) returns (created: bool)
      requires p < |packs|
      modifies this`requests, billing`usage, billing`entries
      ensures created == !old(Unaffordable(View(), ws, p))
      ensures View() == if created then old(WithRequest(View(), ws, p, period)) else old(View())
    {
      var savedRequests, savedUsage, savedEntries := requests, billing.usage, billing.entries;
      var id, cost := |requests|, packs[p].cost;
      var event, _ := billing.RecordUsageEvent(UsageEvent(ws, ContentPackRequested, id, cost, period));
      requests := requests + [Request(ws, p, event, RequestQueued, None, None, "", None)];
      if cost > 0 {
        var reserved := billing.ReserveCredits(ws, cost, PackReserve(id));
        if reserved.Err? {
          requests, billing.usage, billing.entries := savedRequests, savedUsage, savedEntries;
          return false;
        }
      }
      return true;
    }

    /** Create a request with its usage event and reservation, or roll all of it back; then
        open and submit its job outside the transaction. */
    method CreateContentPackRequest(ws: WorkspaceId, p: nat, a: Attempt) returns (r: Result<nat, CreateError>)
      modifies this, billing
      ensures View() == old(CreateRequest(View(), ws, p, a))
      ensures match old(CreateRefusal(View(), ws, p, a.clock.period))
              case Some(e) => r == Err(e)
              case None => r == Ok(old(|requests|))
      ensures old(Invariants.Inv(View())) ==>
        (r.Ok? <==> old(Quotas.Admitted(View(), ws, p, a.clock.period))) && Invariants.Inv(View())
    {
      ghost var s := View();
      if Invariants.Inv(s) {
        Invariants.CreateRequestKeeps(s, ws, p, a);
        Quotas.RefusalMeans(s, ws, p, a.clock.period);
      }
      if p >= |packs| { return Err(PackUnavailable); }
      if packs[p].workspace.Some? && packs[p].workspace.value != ws { return Err(PackUnavailable); }
      if !packs[p].active { return Err(PackUnavailable); }
      var exceeded := billing.CheckWorkspaceLimit(ws, ContentPackRequested, a.clock.period);
      if exceeded { return Err(OverQuota); }
      var id := |requests|;
      var created := CreateRequestRows(ws, p, a.clock.period);
      if !created { return Err(NoCredits); }
      var served := CreateAndSubmit(PackRequestDraft(ws, id), a);
      if served.Some? && id < |requests| {
        requests := requests[id := requests[id].(job := served)];
      }
      return Ok(id);
    }

    method SubmitReport(ws: WorkspaceId, a: Attempt) returns (r: Result<nat, CreateError>)
      modifies this, billing
      ensures View() == old(CreateReport(View(), ws, a))
      ensures r == if old(QuotaExceeded(billing.usage, billing.limits, ws, ReportGenerated, a.clock.period))
                   then Err(OverQuota) else Ok(old(|reports|))
      ensures r.Ok? <==> old(Quotas.WithinQuota(View(), ws, ReportGenerated, a.clock.period))
      ensures old(Invariants.Inv(View())) ==> Invariants.Inv(View())
    {
      ghost var s := View();
      if Invariants.Inv(s) { Invariants.CreateReportKeeps(s, ws, a); }
      CountIsCardinality(s.usage, ws, ReportGenerated, a.clock.period);
      var exceeded := billing.CheckWorkspaceLimit(ws, ReportGenerated, a.clock.period);
      if exceeded { return Err(OverQuota); }
      var id := |reports|;
      reports := reports + [Document(ws, ReportQueued, None, map[], None)];
      var _, _ := billing.RecordUsageEvent(UsageEvent(ws, ReportGenerated, id, 0, a.clock.period));
      var served := CreateAndSubmit(ReportDraft(ws, id), a);
      if served.Some? && id < |reports| { reports := reports[id := reports[id].(job := served)]; }
      return Ok(id);
    }

    method SubmitMediaKit(ws: WorkspaceId, a: Attempt) returns (id: nat)
      modifies this, billing
      ensures View() == old(CreateKit(View(), ws, a))
      ensures id == old(|kits|)
      ensures old(Invariants.Inv(View())) ==> Invariants.Inv(View())
    {
      ghost var s := View();
      if Invariants.Inv(s) { Invariants.CreateKitKeeps(s, ws, a); }
      id := |kits|;
      kits := kits + [Document(ws, KitDraft, None, map[], None)];
      var _, _ := billing.RecordUsageEvent(UsageEvent(ws, MediaKitGenerated, id, 0, a.clock.period));
      var served := CreateAndSubmit(KitDraftOf(ws, id), a);
      if served.Some? && id < |kits| { kits := kits[id := kits[id].(job := served)]; }
    }
  }

  // ---------------------------------------------------------------- the key dictionary

  /** The dictionary answers every non-empty key as Find does. */
  ghost predicate Mirrors(byKey: map<string, nat>, rows: seq<Outputs.Output>, r: nat) {
    forall k :: (k in byKey <==> k != "" && Outputs.Find(rows, r, k).Some?)
                && (k in byKey ==> Outputs.Find(rows, r, k) == Some(byKey[k]))
  }

  /** p is the first row from i on that bears the (non-empty) key. */
  ghost predicate OldestFrom(rows: seq<Outputs.Output>, i: nat, r: nat, key: string, p: nat) {
    && key != "" && i <= p < |rows| && Outputs.Bears(rows[p], r, key)
    && forall m :: i <= m < p ==> !Outputs.Bears(rows[m], r, key)
  }

  /** The dictionary has the key of every row of the request from i on that bears one. */
  ghost predicate KeyedFrom(rows: seq<Outputs.Output>, i: nat, r: nat, byKey: map<string, nat>) {
    forall m :: i <= m < |rows| && rows[m].request == r && Outputs.KEY_FIELD in rows[m].metadata ==>
      rows[m].metadata[Outputs.KEY_FIELD] == "" || rows[m].metadata[Outputs.KEY_FIELD] in byKey
  }

  lemma AllKeyed(rows: seq<Outputs.Output>, r: nat, byKey: map<string, nat>)
    requires KeyedFrom(rows, 0, r, byKey) && forall k :: k in byKey ==> OldestFrom(rows, 0, r, k, byKey[k])
    ensures Mirrors(byKey, rows, r)
  {
  }

  lemma MirrorsAfter(byKey: map<string, nat>, rows: seq<Outputs.Output>, r: nat, key: string, p: nat,
                     row: Outputs.Output)
    requires Mirrors(byKey, rows, r) && key != "" && Outputs.Bears(row, r, key)
    requires p == if key in byKey then byKey[key] else |rows|
    ensures Mirrors(byKey[key := p], if p < |rows| then rows[p := row] else rows + [row], r)
  {
    var rows' := if p < |rows| then rows[p := row] else rows + [row];
    forall k ensures (k in byKey[key := p] <==> k != "" && Outputs.Find(rows', r, k).Some?)
                     && (k in byKey[key := p] ==> Outputs.Find(rows', r, k) == Some(byKey[key := p][k]))
    {
      var f := Outputs.Find(rows, r, k);
      var f' := Outputs.Find(rows', r, k);
      assert f'.Some? ==> Outputs.Bears(rows'[f'.value], r, k);
      if k == key {
        assert Outputs.Bears(rows'[p], r, k);
      } else if f.Some? {
        assert rows'[f.value] == rows[f.value];
      }
    }
  }
}
