/** Both sides of the protocol together: one render, any number of deliveries among any other
    steps, one settlement. */
module EndToEnd {
  import opened Prelude
  import opened Ledger
  import opened Usage
  import opened Jobs
  import opened Settlement
  import opened Invariants
  import opened Receipts
  import opened Delivery
  import opened ExactSettlement
  import opened Conservation
  import RenderJob
  import Outputs

  /** The envelope names the job, its workspace, its type and its entity, as the submission
      writes it. */
  ghost predicate EnvelopeOf(e: RenderJob.Envelope, s: Store, j: nat) {
    && j < |s.jobs| && e.job == j && e.workspace == s.jobs[j].workspace && e.jobType == s.jobs[j].jobType
    && s.jobs[j].entity == Entity(e.entityKind, e.entityId)
  }

  ghost predicate DecisiveAt(os: seq<RenderJob.RenderOutput>, i: nat) {
    i < |os| && os[i].completed && (os[i].required || forall k :: 0 <= k < |os| ==> !os[k].required)
  }

  /** The renderer produced something worth paying for: a completed required output, or any
      completed output when none is required. */
  ghost predicate Worthwhile(os: seq<RenderJob.RenderOutput>) {
    exists i: nat :: DecisiveAt(os, i)
  }

  /** Whether a rendering is charged for. */
  ghost predicate Charged(r: RenderJob.Rendering) {
    r.Some? && (r.value.status.Done? || (r.value.status.Partial? && Worthwhile(r.value.outputs)))
  }

  lemma {:induction false} RequiredMembers(ds: seq<Outputs.OutputData>)
    ensures forall d :: d in RequiredOnes(ds) <==> d in ds && d.required
  {
    if ds != [] {
      RequiredMembers(ds[..|ds| - 1]);
      assert ds == ds[..|ds| - 1] + [ds[|ds| - 1]];
    }
  }

  lemma CompletedMember(ds: seq<Outputs.OutputData>)
    ensures AnyCompleted(ds) <==> exists d :: d in ds && d.status == Some("completed")
  {
  }

  /** A completed item decides: a required one, or any if none is required. */
  ghost predicate Decisive(ds: seq<Outputs.OutputData>, d: Outputs.OutputData) {
    d in ds && d.status == Some("completed") && (d.required || forall x :: x in ds ==> !x.required)
  }

  lemma PartialConsumesIff(ds: seq<Outputs.OutputData>)
    ensures ShouldConsume(PartiallyCompleted, ds) <==> exists d :: Decisive(ds, d)
  {
    var required := RequiredOnes(ds);
    RequiredMembers(ds);
    CompletedMember(required);
    CompletedMember(ds);
    if required != [] {
      assert required[0] in ds && required[0].required;
      if d :| d in required && d.status == Some("completed") { assert Decisive(ds, d); }
      if d :| Decisive(ds, d) { assert d in required; }
    } else {
      if d :| d in ds && d.status == Some("completed") { assert Decisive(ds, d); }
    }
  }

  lemma ItemDecides(os: seq<RenderJob.RenderOutput>, i: nat)
    requires i < |os|
    ensures DecisiveAt(os, i) <==> Decisive(RenderJob.Items(os), RenderJob.Item(os[i]))
  {
    var ds := RenderJob.Items(os);
    assert ds[i] == RenderJob.Item(os[i]);
    assert "failed"[0] != "completed"[0];
    if forall k :: 0 <= k < |os| ==> !os[k].required {
      forall x | x in ds ensures !x.required {
        var k :| 0 <= k < |ds| && ds[k] == x;
      }
    } else {
      var k :| 0 <= k < |os| && os[k].required;
      assert ds[k] in ds;
    }
  }

  /** What Django decides from the callback's items is what the renderer's outputs say. */
  lemma ChargeAgrees(os: seq<RenderJob.RenderOutput>)
    ensures ShouldConsume(PartiallyCompleted, RenderJob.Items(os)) <==> Worthwhile(os)
  {
    var ds := RenderJob.Items(os);
    PartialConsumesIff(ds);
    if d :| Decisive(ds, d) {
      var i :| 0 <= i < |ds| && ds[i] == d;
      ItemDecides(os, i);
    }
    if i: nat :| DecisiveAt(os, i) { ItemDecides(os, i); }
  }

  lemma PayloadKeeps(e: RenderJob.Envelope, v: RenderJob.RenderResult)
    requires e.jobType == ContentGeneration
    ensures Keeps(RenderJob.Payload(e, v).status, RenderJob.Payload(e, v).result) <==> Charged(Some(v))
  {
    match v.status {
      case Partial =>
        var cb := RenderJob.Payload(e, v);
        assert cb.status == PartiallyCompleted && cb.result.outputs == RenderJob.Items(v.outputs);
        ChargeAgrees(v.outputs);
      case _ =>
    }
  }

  lemma CallbackKeeps(e: RenderJob.Envelope, r: RenderJob.Rendering)
    requires e.jobType == ContentGeneration
    ensures var cb := RenderJob.TheCallback(e, r);
      Keeps(cb.status, cb.result) <==> Charged(r)
  {
    match r {
      case Some(v) => PayloadKeeps(e, v);
      case None => PayloadKeeps(e, RenderJob.FailedResult(e.jobType));
    }
  }

  // ---------------------------------------------------------------- what a step leaves alone

  lemma PostPacks(s: Store, cb: Callback, raises: bool, clock: Clock)
    ensures Deliver(s, cb, raises, clock).packs == s.packs
  {
    if Gate(s, cb) == Processed {
      DispatchFair(Received(s, cb.job, clock.now), cb.job, cb.status, cb.result, cb.message, cb.metadata, clock);
    }
  }

  lemma RequestPacks(s: Store, ws: nat, p: nat, a: Attempt)
    ensures CreateRequest(s, ws, p, a).packs == s.packs
  {
    if CreateRefusal(s, ws, p, a.clock.period).None? {
      OpenFair(WithRequest(s, ws, p, a.clock.period), PackRequestDraft(ws, |s.requests|), a);
    }
  }

  lemma RetryPacks(s: Store, j: nat, a: Attempt)
    ensures Retry(s, j, a).packs == s.packs
  {
    if CanRetry(s, j) { OpenFair(s, RetryDraft(s.jobs[j], j), a); }
  }

  lemma NextPacks(s: Store, step: Step)
    requires !step.AddPack? && !step.EditPack?
    ensures Next(s, step).packs == s.packs
  {
    match step {
      case RequestPack(ws, p, a) => RequestPacks(s, ws, p, a);
      case RequestReport(ws, a) => ReportPacks(s, ws, a);
      case RequestKit(ws, a) => KitPacks(s, ws, a);
      case OpenJob(d, a) => OpenFair(s, d.(retryCount := 0), a);
      case RetryJob(j, a) => RetryPacks(s, j, a);
      case Post(cb, raises, clock) => PostPacks(s, cb, raises, clock);
      case _ =>
    }
  }

  lemma ReportPacks(s: Store, ws: nat, a: Attempt)
    ensures CreateReport(s, ws, a).packs == s.packs
  {
    var e := |s.reports|;
    OpenFair(s.(reports := s.reports + [Document(ws, ReportQueued, None, map[], None)],
                usage := Record(s.usage, UsageEvent(ws, ReportGenerated, e, 0, a.clock.period))),
             ReportDraft(ws, e), a);
  }

  lemma KitPacks(s: Store, ws: nat, a: Attempt)
    ensures CreateKit(s, ws, a).packs == s.packs
  {
    var e := |s.kits|;
    OpenFair(s.(kits := s.kits + [Document(ws, KitDraft, None, map[], None)],
                usage := Record(s.usage, UsageEvent(ws, MediaKitGenerated, e, 0, a.clock.period))),
             KitDraftOf(ws, e), a);
  }

  lemma PlainKeepsCost(s: Store, step: Step, r: nat)
    requires Inv(s) && r < |s.requests| && PlainFor(s, step, r)
    ensures r < |Next(s, step).requests| && CostOf(Next(s, step), r) == CostOf(s, r)
  {
    NextKeeps(s, step);
    assert RequestMetered(s, r);
    if !step.AddPack? && !step.EditPack? { NextPacks(s, step); }
  }

  /** Only a handled callback or a cancellation changes an existing job's status. */
  lemma StatusStays(s: Store, step: Step, j: nat)
    requires Inv(s) && j < |s.jobs|
    requires step.Post? && step.callback.job == j ==> step.raises
    ensures var t := Next(s, step);
      j < |t.jobs| && (t.jobs[j].status == s.jobs[j].status || t.jobs[j].status == Cancelled)
  {
    match step {
      case RequestPack(ws, p, a) => RequestStatuses(s, ws, p, a, j);
      case RequestReport(ws, a) => ReportStatuses(s, ws, a, j);
      case RequestKit(ws, a) => KitStatuses(s, ws, a, j);
      case OpenJob(d, a) => OpenStatuses(s, d.(retryCount := 0), a, j);
      case RetryJob(i, a) => RetryStatuses(s, i, a, j);
      case Post(cb, raises, clock) => PostStatuses(s, cb, raises, clock, j);
      case _ =>
    }
  }

  lemma OpenStatuses(s: Store, d: Draft, a: Attempt, j: nat)
    requires Inv(s) && j < |s.jobs|
    ensures var t := Open(s, d, a); j < |t.jobs| && t.jobs[j].status == s.jobs[j].status
  {
    OpenKeeps(s, d, a);
  }

  lemma RetryStatuses(s: Store, i: nat, a: Attempt, j: nat)
    requires Inv(s) && j < |s.jobs|
    ensures var t := Retry(s, i, a); j < |t.jobs| && t.jobs[j].status == s.jobs[j].status
  {
    if CanRetry(s, i) { OpenStatuses(s, RetryDraft(s.jobs[i], i), a, j); }
  }

  lemma RequestStatuses(s: Store, ws: nat, p: nat, a: Attempt, j: nat)
    requires Inv(s) && j < |s.jobs|
    ensures var t := CreateRequest(s, ws, p, a); j < |t.jobs| && t.jobs[j].status == s.jobs[j].status
  {
    if CreateRefusal(s, ws, p, a.clock.period).None? {
      WithRequestKeeps(s, ws, p, a.clock.period);
      OpenStatuses(WithRequest(s, ws, p, a.clock.period), PackRequestDraft(ws, |s.requests|), a, j);
    }
  }

  lemma PostStatuses(s: Store, cb: Callback, raises: bool, clock: Clock, j: nat)
    requires j < |s.jobs| && (cb.job == j ==> raises)
    ensures var t := Deliver(s, cb, raises, clock);
      j < |t.jobs| && t.jobs[j].status == s.jobs[j].status
  {
    if Gate(s, cb) == Processed {
      DispatchJobs(Received(s, cb.job, clock.now), cb.job, cb.status, cb.result, cb.message, cb.metadata, clock);
    }
  }

  lemma ReportStatuses(s: Store, ws: nat, a: Attempt, j: nat)
    requires Inv(s) && j < |s.jobs|
    ensures var t := CreateReport(s, ws, a); j < |t.jobs| && t.jobs[j].status == s.jobs[j].status
  {
    var e := |s.reports|;
    var event := UsageEvent(ws, ReportGenerated, e, 0, a.clock.period);
    var reports := s.reports + [Document(ws, ReportQueued, None, map[], None)];
    DocumentRowKeeps(s, reports, s.kits, event);
    OpenStatuses(s.(reports := reports, usage := Record(s.usage, event)), ReportDraft(ws, e), a, j);
  }

  lemma KitStatuses(s: Store, ws: nat, a: Attempt, j: nat)
    requires Inv(s) && j < |s.jobs|
    ensures var t := CreateKit(s, ws, a); j < |t.jobs| && t.jobs[j].status == s.jobs[j].status
  {
    var e := |s.kits|;
    var event := UsageEvent(ws, MediaKitGenerated, e, 0, a.clock.period);
    var kits := s.kits + [Document(ws, KitDraft, None, map[], None)];
    DocumentRowKeeps(s, s.reports, kits, event);
    OpenStatuses(s.(kits := kits, usage := Record(s.usage, event)), KitDraftOf(ws, e), a, j);
  }

  // ---------------------------------------------------------------- waiting and answered

  /** The callback still fits the only job of the priced request r. */
  ghost predicate Fits(s: Store, r: nat, cb: Callback) {
    && r < |s.requests| && CostOf(s, r) > 0 && Tidy(s, r)
    && JobOf(s, cb.job, r) && WellFormed(s, cb, cb.job)
  }

  predicate Waiting(s: Store, cb: Callback)
    requires cb.job < |s.jobs|
  {
    !Terminal(s.jobs[cb.job].status) || s.jobs[cb.job].status == Cancelled
  }

  /** The job was cancelled and its reservation stands, or the callback decided it. */
  predicate Answered(s: Store, r: nat, cb: Callback)
    requires r < |s.requests| && cb.job < |s.jobs|
  {
    if s.jobs[cb.job].status == Cancelled then Unsettled(s, r)
    else
      && s.jobs[cb.job].status == cb.status
      && (Consumed(s, r) <==> Keeps(cb.status, cb.result))
      && (Released(s, r) <==> !Consumed(s, r))
  }

  lemma FitsOn(s: Store, step: Step, r: nat, cb: Callback)
    requires Inv(s) && Fits(s, r, cb) && PlainFor(s, step, r)
    ensures Inv(Next(s, step)) && Fits(Next(s, step), r, cb)
  {
    NextKeeps(s, step);
    NextTidy(s, step, r);
    PlainKeepsCost(s, step, r);
    WellFormedStays(s, Next(s, step), cb, cb.job);
  }

  lemma CancelledIsUnsettled(s: Store, r: nat, cb: Callback)
    requires Fits(s, r, cb) && s.jobs[cb.job].status == Cancelled
    ensures Unsettled(s, r)
  {
    assert SettledBy(s, r, cb.job);
  }

  /** What was answered stays so. */
  lemma AnsweredStays(s: Store, step: Step, r: nat, cb: Callback)
    requires Inv(s) && Fits(s, r, cb) && PlainFor(s, step, r) && Terminal(cb.status) && Answered(s, r, cb)
    ensures var t := Next(s, step); Fits(t, r, cb) && Answered(t, r, cb)
  {
    var t := Next(s, step);
    FitsOn(s, step, r, cb);
    NextKeeps(s, step);
    assert t.jobs[cb.job] == s.jobs[cb.job];
    if t.jobs[cb.job].status == Cancelled {
      CancelledIsUnsettled(t, r, cb);
    } else {
      TidyMeans(t, r);
      RowsStay(s, t, r);
    }
  }

  lemma RowsStay(s: Store, t: Store, r: nat)
    requires Evolves(s, t) && r < |s.requests|
    ensures Consumed(s, r) ==> Consumed(t, r)
    ensures Released(s, r) ==> Released(t, r)
  {
    if Consumed(s, r) { RecordedInPrefix(s.entries, t.entries, WorkspaceOf(s, r), PackConsume(r)); }
    if Released(s, r) { RecordedInPrefix(s.entries, t.entries, WorkspaceOf(s, r), PackRelease(r)); }
  }

  lemma GateIsOpen(s: Store, cb: Callback)
    requires WellFormed(s, cb, cb.job) && Terminal(cb.status) && !Terminal(s.jobs[cb.job].status)
    ensures Gate(s, cb) == Processed
  {
  }

  lemma SubjectIsRequest(s: Store, r: nat, cb: Callback)
    requires Fits(s, r, cb)
    ensures SubjectOf(s, cb.job) == PackSubject(r)
  {
    assert SettledBy(s, r, cb.job);
  }

  /** The first handled delivery answers. */
  lemma DeliveryAnswers(s: Store, r: nat, cb: Callback, clock: Clock)
    requires Fits(s, r, cb) && cb.status in {Completed, PartiallyCompleted, Failed} && Waiting(s, cb)
    ensures var t := Deliver(s, cb, false, clock);
      r < |t.requests| && cb.job < |t.jobs| && Answered(t, r, cb)
  {
    if s.jobs[cb.job].status == Cancelled {
      CancelledIsUnsettled(s, r, cb);
    } else {
      GateIsOpen(s, cb);
      SubjectIsRequest(s, r, cb);
      DecidingDelivery(s, r, cb, clock);
      DeliverySettles(s, cb, clock, r);
    }
  }

  /** Nothing but the render's own callback is delivered to its job from step k on. */
  ghost predicate OnlyItsCallback(steps: seq<Step>, k: nat, cb: Callback) {
    forall i :: k <= i < |steps| && steps[i].Post? && steps[i].callback.job == cb.job ==> steps[i].callback == cb
  }

  lemma StepAnswers(s: Store, step: Step, r: nat, cb: Callback, handled: bool)
    requires Inv(s) && Fits(s, r, cb) && PlainFor(s, step, r)
    requires cb.status in {Completed, PartiallyCompleted, Failed}
    requires step.Post? && step.callback.job == cb.job ==> step.callback == cb
    requires if handled then Answered(s, r, cb) else Waiting(s, cb)
    ensures var t := Next(s, step);
      && Fits(t, r, cb)
      && if handled || (IsPostOf(step, cb) && !step.raises) then Answered(t, r, cb) else Waiting(t, cb)
  {
    FitsOn(s, step, r, cb);
    if handled { AnsweredStays(s, step, r, cb); }
    else if IsPostOf(step, cb) && !step.raises { DeliveryAnswers(s, r, cb, step.clock); }
    else { StatusStays(s, step, cb.job); }
  }

  lemma {:induction false} PlainPrefix(s: Store, steps: seq<Step>, r: nat, n: nat)
    requires PlainRun(s, steps, r) && n <= |steps|
    ensures PlainRun(s, steps[..n], r)
    ensures n < |steps| ==> PlainFor(RunSteps(s, steps[..n]), steps[n], r)
    decreases |steps|
  {
    if n == |steps| {
      assert steps[..n] == steps;
    } else {
      var front := steps[..|steps| - 1];
      PlainPrefix(s, front, r, n);
      assert front[..n] == steps[..n];
    }
  }

  lemma HandlesNext(steps: seq<Step>, k: nat, n: nat, cb: Callback)
    requires k < n <= |steps|
    ensures Handles(steps[k..n], cb)
       <==> Handles(steps[k..n - 1], cb) || (IsPostOf(steps[n - 1], cb) && !steps[n - 1].raises)
  {
    assert steps[k..n][..n - k - 1] == steps[k..n - 1];
    HandlesFront(steps[k..n], cb);
  }

  /** Up to step n the request waits for its callback, or has been answered by it. */
  lemma {:induction false} RunAnswers(s: Store, steps: seq<Step>, r: nat, k: nat, n: nat, cb: Callback)
    requires Inv(s) && PlainRun(s, steps, r) && k <= n <= |steps| && OnlyItsCallback(steps, k, cb)
    requires cb.status in {Completed, PartiallyCompleted, Failed}
    requires Fits(RunSteps(s, steps[..k]), r, cb) && Waiting(RunSteps(s, steps[..k]), cb)
    ensures var t := RunSteps(s, steps[..n]);
      && Fits(t, r, cb)
      && if Handles(steps[k..n], cb) then Answered(t, r, cb) else Waiting(t, cb)
    decreases n
  {
    if n > k {
      RunAnswers(s, steps, r, k, n - 1, cb);
      PlainPrefix(s, steps, r, n - 1);
      RunKeeps(s, steps[..n - 1]);
      OneStepOn(s, steps, n - 1);
      HandlesNext(steps, k, n, cb);
      StepAnswers(RunSteps(s, steps[..n - 1]), steps[n - 1], r, cb, Handles(steps[k..n - 1], cb));
    }
  }

  lemma OneStepOn(s: Store, steps: seq<Step>, n: nat)
    requires n < |steps|
    ensures RunSteps(s, steps[..n + 1]) == Next(RunSteps(s, steps[..n]), steps[n])
  {
    assert steps[..n + 1] == steps[..n] + [steps[n]];
    OneMore(s, steps[..n], steps[n]);
  }

  // ---------------------------------------------------------------- end to end

  /** The renderer's own callback fits the open job its envelope was made for. */
  lemma CallbackFits(s: Store, r: nat, e: RenderJob.Envelope, rendering: RenderJob.Rendering)
    requires r < |s.requests| && CostOf(s, r) > 0 && Tidy(s, r) && JobOf(s, e.job, r) && EnvelopeOf(e, s, e.job)
    ensures var cb := RenderJob.TheCallback(e, rendering);
      && Fits(s, r, cb) && cb.job == e.job && cb.status in {Completed, PartiallyCompleted, Failed}
      && (Keeps(cb.status, cb.result) <==> Charged(rendering))
  {
    assert SettledBy(s, r, e.job);
    CallbackKeeps(e, rendering);
    RenderJob.OneCallbackPerAcceptedJob(e, rendering, RenderJob.Acknowledged);
    RenderJob.PayloadsAreOrderly(e, rendering, RenderJob.Acknowledged, {}, 0);
  }

  lemma RunAnswered(s: Store, steps: seq<Step>, k: nat, r: nat, cb: Callback)
    requires Inv(s) && PlainRun(s, steps, r) && k <= |steps|
    requires var mid := RunSteps(s, steps[..k]);
      Fits(mid, r, cb) && !Terminal(mid.jobs[cb.job].status)
    requires cb.status in {Completed, PartiallyCompleted, Failed}
    requires OnlyItsCallback(steps, k, cb) && Handles(steps[k..], cb)
    ensures var mid, t := RunSteps(s, steps[..k]), RunSteps(s, steps);
      && r < |t.requests| && cb.job < |t.jobs| && Answered(t, r, cb)
      && Alike(RunSteps(mid, OnceOnly(steps[k..], cb)), t)
  {
    RunAnswers(s, steps, r, k, |steps|, cb);
    assert steps[..|steps|] == steps && steps[k..|steps|] == steps[k..];
    SplitRun(s, steps, k);
    RunKeeps(s, steps[..k]);
    InterleavedIsExactlyOnce(RunSteps(s, steps[..k]), steps[k..], cb);
  }

  /** Job e.job is open and the only one of the priced request r, and e is its envelope. */
  ghost predicate OpenFor(s: Store, r: nat, e: RenderJob.Envelope) {
    && r < |s.requests| && CostOf(s, r) > 0 && JobOf(s, e.job, r)
    && EnvelopeOf(e, s, e.job) && !Terminal(s.jobs[e.job].status)
  }

  /** The job was cancelled and the reservation stands, or it is settled as the rendering was. */
  ghost predicate SettledAsRendered(t: Store, r: nat, e: RenderJob.Envelope, rendering: RenderJob.Rendering) {
    && r < |t.requests| && e.job < |t.jobs|
    && if t.jobs[e.job].status == Cancelled then Unsettled(t, r)
       else
         && t.jobs[e.job].status == RenderJob.TheCallback(e, rendering).status
         && (Consumed(t, r) <==> Charged(rendering)) && (Released(t, r) <==> !Charged(rendering))
  }

  /** The steps come, up to receipt times, to those with one delivery of the callback. */
  ghost predicate AsIfOnce(s: Store, steps: seq<Step>, cb: Callback) {
    Alike(RunSteps(s, OnceOnly(steps, cb)), RunSteps(s, steps)) && CountPosts(OnceOnly(steps, cb), cb) == 1
  }

  /** A job of a priced content pack is open after step k, the renderer renders it once and its
      one callback is delivered, lost, repeated or crashed in any pattern among any other plain
      steps. Once one delivery was handled, the run's store is up to receipt times that of one
      delivery, and unless the job was cancelled before it, the reservation is settled exactly
      once: consumed if the rendering is charged for, released otherwise. A cancelled job
      leaves the reservation standing. */
  lemma RenderedOnceSettledOnce(c: Outputs.Catalogue, steps: seq<Step>, k: nat, r: nat, e: RenderJob.Envelope,
                                rendering: RenderJob.Rendering, end: RenderJob.SendEnd)
    requires PlainRun(EmptyStore(c), steps, r) && k <= |steps|
    requires OpenFor(RunSteps(EmptyStore(c), steps[..k]), r, e)
    requires OnlyItsCallback(steps, k, RenderJob.TheCallback(e, rendering))
    requires Handles(steps[k..], RenderJob.TheCallback(e, rendering))
    ensures RenderJob.Sends(e, rendering, end, {}) == [RenderJob.TheCallback(e, rendering)]
    ensures AsIfOnce(RunSteps(EmptyStore(c), steps[..k]), steps[k..], RenderJob.TheCallback(e, rendering))
    ensures SettledAsRendered(RunSteps(EmptyStore(c), steps), r, e, rendering)
  {
    var s, cb := RunSteps(EmptyStore(c), steps[..k]), RenderJob.TheCallback(e, rendering);
    PlainPrefix(EmptyStore(c), steps, r, k);
    RunTidy(EmptyStore(c), steps[..k], r);
    CallbackFits(s, r, e, rendering);
    RenderJob.OneCallbackPerAcceptedJob(e, rendering, end);
    RunAnswered(EmptyStore(c), steps, k, r, cb);
    SplitRun(EmptyStore(c), steps, k);
    OnceOnlyCounts(steps[k..], cb);
  }
}
