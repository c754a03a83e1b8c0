/** Stores that differ only in when their jobs' callbacks were last received: no step reads that
    time, so such stores go on alike. */
module Receipts {
  import opened Prelude
  import opened Ledger
  import opened Usage
  import opened Jobs
  import opened Settlement
  import Outputs

  ghost predicate AlikeJobs(a: seq<Job>, b: seq<Job>) {
    |a| == |b| && forall i :: 0 <= i < |a| ==> b[i] == a[i].(callbackReceivedAt := b[i].callbackReceivedAt)
  }

  /** The same store up to receipt times. */
  ghost predicate Alike(s: Store, t: Store) {
    t == s.(jobs := t.jobs) && AlikeJobs(s.jobs, t.jobs)
  }

  // ---------------------------------------------------------------- jobs

  lemma SameActive(a: seq<Job>, b: seq<Job>, ws: WorkspaceId, key: JobKey)
    requires AlikeJobs(a, b)
    ensures FindActive(a, ws, key) == FindActive(b, ws, key)
  {
    var f, g := FindActive(a, ws, key), FindActive(b, ws, key);
    if f.Some? { assert b[f.value].key == key && !Terminal(b[f.value].status); }
    if g.Some? { assert a[g.value].key == key && !Terminal(a[g.value].status); }
  }

  lemma UpdateAlike(a: seq<Job>, b: seq<Job>, j: nat, x: Job, y: Job)
    requires AlikeJobs(a, b) && j < |a| && y == x.(callbackReceivedAt := y.callbackReceivedAt)
    ensures AlikeJobs(a[j := x], b[j := y])
  {
  }

  lemma TransitionAlike(s: Store, t: Store, j: nat, status: JobStatus, message: string, meta: Meta, now: Time)
    requires Alike(s, t) && j < |s.jobs|
    ensures Alike(Transition(s, j, status, message, meta, now), Transition(t, j, status, message, meta, now))
  {
    UpdateAlike(s.jobs, t.jobs, j, Transitioned(s.jobs[j], status, message, meta, now),
                Transitioned(t.jobs[j], status, message, meta, now));
  }

  lemma ReceivedAlike(s: Store, t: Store, j: nat, now: Time)
    requires Alike(s, t) && j < |s.jobs|
    ensures Alike(Received(s, j, now), Received(t, j, now)) && Alike(s, Received(t, j, now))
  {
  }

  // ---------------------------------------------------------------- one lemma per handler

  lemma PackSucceededAlike(s: Store, t: Store, j: nat, r: nat, status: JobStatus,
                           ds: seq<Outputs.OutputData>, meta: Meta, clock: Clock)
    requires Alike(s, t) && j < |s.jobs| && r < |s.requests|
    ensures Alike(PackSucceeded(s, j, r, status, ds, meta, clock), PackSucceeded(t, j, r, status, ds, meta, clock))
  {
    var u := PackSucceeded(s, j, r, status, ds, meta, clock).(jobs := s.jobs);
    TransitionAlike(u, u.(jobs := t.jobs), j, status, "", meta, clock.now);
  }

  lemma PackFailedAlike(s: Store, t: Store, j: nat, r: nat, status: JobStatus, message: string,
                        meta: Meta, clock: Clock)
    requires Alike(s, t) && j < |s.jobs| && r < |s.requests|
    ensures Alike(PackFailedWith(s, j, r, status, message, meta, clock),
                  PackFailedWith(t, j, r, status, message, meta, clock))
  {
    var u := PackFailedWith(s, j, r, status, message, meta, clock).(jobs := s.jobs);
    TransitionAlike(u, u.(jobs := t.jobs), j, status, message, meta, clock.now);
  }

  lemma ReportSucceededAlike(s: Store, t: Store, j: nat, e: nat, status: JobStatus, result: CallbackResult,
                             meta: Meta, clock: Clock)
    requires Alike(s, t) && j < |s.jobs| && e < |s.reports|
    ensures Alike(ReportSucceeded(s, j, e, status, result, meta, clock),
                  ReportSucceeded(t, j, e, status, result, meta, clock))
  {
    var u := ReportSucceeded(s, j, e, status, result, meta, clock).(jobs := s.jobs);
    TransitionAlike(u, u.(jobs := t.jobs), j, status, "", meta, clock.now);
  }

  lemma ReportFailedAlike(s: Store, t: Store, j: nat, e: nat, status: JobStatus, message: string,
                          meta: Meta, clock: Clock)
    requires Alike(s, t) && j < |s.jobs| && e < |s.reports|
    ensures Alike(ReportFailedWith(s, j, e, status, message, meta, clock),
                  ReportFailedWith(t, j, e, status, message, meta, clock))
  {
    var u := ReportFailedWith(s, j, e, status, message, meta, clock).(jobs := s.jobs);
    TransitionAlike(u, u.(jobs := t.jobs), j, status, message, meta, clock.now);
  }

  lemma KitSucceededAlike(s: Store, t: Store, j: nat, e: nat, status: JobStatus, result: CallbackResult,
                          meta: Meta, clock: Clock)
    requires Alike(s, t) && j < |s.jobs| && e < |s.kits|
    ensures Alike(KitSucceeded(s, j, e, status, result, meta, clock),
                  KitSucceeded(t, j, e, status, result, meta, clock))
  {
    var u := KitSucceeded(s, j, e, status, result, meta, clock).(jobs := s.jobs);
    TransitionAlike(u, u.(jobs := t.jobs), j, status, "", meta, clock.now);
  }

  lemma KitFailedAlike(s: Store, t: Store, j: nat, e: nat, status: JobStatus, message: string,
                       meta: Meta, clock: Clock)
    requires Alike(s, t) && j < |s.jobs| && e < |s.kits|
    ensures Alike(KitFailedWith(s, j, e, status, message, meta, clock),
                  KitFailedWith(t, j, e, status, message, meta, clock))
  {
    var u := KitFailedWith(s, j, e, status, message, meta, clock).(jobs := s.jobs);
    TransitionAlike(u, u.(jobs := t.jobs), j, status, message, meta, clock.now);
  }

  lemma DispatchAlike(s: Store, t: Store, j: nat, status: JobStatus, result: CallbackResult, message: string,
                      meta: Meta, clock: Clock)
    requires Alike(s, t) && j < |s.jobs|
    ensures Alike(Dispatch(s, j, status, result, message, meta, clock),
                  Dispatch(t, j, status, result, message, meta, clock))
  {
    assert SubjectOf(t, j) == SubjectOf(s, j);
    match SubjectOf(s, j) {
      case PackSubject(r) =>
        if Failure(status) { PackFailedAlike(s, t, j, r, status, message, meta, clock); }
        else { PackSucceededAlike(s, t, j, r, status, result.outputs, meta, clock); }
      case ReportSubject(e) =>
        if Failure(status) { ReportFailedAlike(s, t, j, e, status, message, meta, clock); }
        else { ReportSucceededAlike(s, t, j, e, status, result, meta, clock); }
      case KitSubject(e) =>
        if Failure(status) { KitFailedAlike(s, t, j, e, status, message, meta, clock); }
        else { KitSucceededAlike(s, t, j, e, status, result, meta, clock); }
      case NoSubject => TransitionAlike(s, t, j, status, message, meta, clock.now);
    }
  }

  // ---------------------------------------------------------------- opening and creating

  lemma MarkFailedAlike(s: Store, t: Store, j: nat, status: JobStatus, message: string, a: Attempt)
    requires Alike(s, t) && j < |s.jobs|
    ensures Alike(MarkSubmissionFailed(s, j, status, message, a), MarkSubmissionFailed(t, j, status, message, a))
  {
    var x := s.jobs[j].(status := status, failedAt := Some(a.clock.now), errorMessage := message);
    var y := t.jobs[j].(status := status, failedAt := Some(a.clock.now), errorMessage := message);
    var s1, t1 := s.(jobs := s.jobs[j := x]), t.(jobs := t.jobs[j := y]);
    UpdateAlike(s.jobs, t.jobs, j, x, y);
    DispatchAlike(s1, t1, j, status, EMPTY_RESULT, message, map[], a.clock);
  }

  lemma SubmitAlike(s: Store, t: Store, j: nat, a: Attempt)
    requires Alike(s, t) && j < |s.jobs|
    ensures Alike(Submit(s, j, a), Submit(t, j, a))
  {
    match a.submission {
      case NotConfigured(m) => MarkFailedAlike(s, t, j, Failed, m, a);
      case Rejected(m) => MarkFailedAlike(s, t, j, Failed, m, a);
      case TimedOut(m) => MarkFailedAlike(s, t, j, Timeout, m, a);
      case _ =>
    }
  }

  lemma OpenAlike(s: Store, t: Store, d: Draft, a: Attempt)
    requires Alike(s, t)
    ensures Alike(Open(s, d, a), Open(t, d, a)) && ServingJob(s, d) == ServingJob(t, d)
  {
    SameActive(s.jobs, t.jobs, d.workspace, EffectiveKey(d));
    SubmitAlike(s.(jobs := s.jobs + [JobFrom(d)]), t.(jobs := t.jobs + [JobFrom(d)]), |s.jobs|, a);
  }

  lemma SameRetry(a: Job, b: Job, j: nat)
    requires b == a.(callbackReceivedAt := b.callbackReceivedAt)
    ensures RetryDraft(b, j) == RetryDraft(a, j) && b.status == a.status
  {
  }

  lemma RetryAlike(s: Store, t: Store, j: nat, a: Attempt)
    requires Alike(s, t)
    ensures Alike(Retry(s, j, a), Retry(t, j, a))
  {
    if j < |s.jobs| {
      SameRetry(s.jobs[j], t.jobs[j], j);
      if CanRetry(s, j) { OpenAlike(s, t, RetryDraft(s.jobs[j], j), a); }
    }
  }

  lemma CreateRequestAlike(s: Store, t: Store, ws: WorkspaceId, p: nat, a: Attempt)
    requires Alike(s, t)
    ensures Alike(CreateRequest(s, ws, p, a), CreateRequest(t, ws, p, a))
  {
    if CreateRefusal(s, ws, p, a.clock.period).None? {
      OpenAlike(WithRequest(s, ws, p, a.clock.period), WithRequest(t, ws, p, a.clock.period),
                PackRequestDraft(ws, |s.requests|), a);
    }
  }

  lemma CreateReportAlike(s: Store, t: Store, ws: WorkspaceId, a: Attempt)
    requires Alike(s, t)
    ensures Alike(CreateReport(s, ws, a), CreateReport(t, ws, a))
  {
    var e := |s.reports|;
    var reports := s.reports + [Document(ws, ReportQueued, None, map[], None)];
    var usage := Record(s.usage, UsageEvent(ws, ReportGenerated, e, 0, a.clock.period));
    OpenAlike(s.(reports := reports, usage := usage), t.(reports := reports, usage := usage), ReportDraft(ws, e), a);
  }

  lemma CreateKitAlike(s: Store, t: Store, ws: WorkspaceId, a: Attempt)
    requires Alike(s, t)
    ensures Alike(CreateKit(s, ws, a), CreateKit(t, ws, a))
  {
    var e := |s.kits|;
    var kits := s.kits + [Document(ws, KitDraft, None, map[], None)];
    var usage := Record(s.usage, UsageEvent(ws, MediaKitGenerated, e, 0, a.clock.period));
    OpenAlike(s.(kits := kits, usage := usage), t.(kits := kits, usage := usage), KitDraftOf(ws, e), a);
  }

  // ---------------------------------------------------------------- delivering

  lemma SameGate(s: Store, t: Store, cb: Callback)
    requires Alike(s, t)
    ensures Gate(s, cb) == Gate(t, cb)
  {
  }

  lemma DeliverAlike(s: Store, t: Store, cb: Callback, raises: bool, clock: Clock)
    requires Alike(s, t)
    ensures Alike(Deliver(s, cb, raises, clock), Deliver(t, cb, raises, clock))
  {
    SameGate(s, t, cb);
    if Gate(s, cb) == Processed {
      ReceivedAlike(s, t, cb.job, clock.now);
      DispatchAlike(Received(s, cb.job, clock.now), Received(t, cb.job, clock.now), cb.job, cb.status, cb.result,
                    cb.message, cb.metadata, clock);
    }
  }

  lemma CrashAlike(s: Store, t: Store, cb: Callback, clock: Clock)
    requires Alike(s, t)
    ensures Alike(s, Deliver(t, cb, true, clock)) && Alike(Deliver(t, cb, true, clock), s)
  {
    SameGate(s, t, cb);
    if Gate(t, cb) == Processed { ReceivedAlike(s, t, cb.job, clock.now); }
  }

  // ---------------------------------------------------------------- every step, every run

  /** Every step takes alike stores to alike stores. */
  lemma NextAlike(s: Store, t: Store, step: Step)
    requires Alike(s, t)
    ensures Alike(Next(s, step), Next(t, step))
  {
    match step {
      case RequestPack(ws, p, a) => CreateRequestAlike(s, t, ws, p, a);
      case RequestReport(ws, a) => CreateReportAlike(s, t, ws, a);
      case RequestKit(ws, a) => CreateKitAlike(s, t, ws, a);
      case OpenJob(d, a) => OpenAlike(s, t, d.(retryCount := 0), a);
      case RetryJob(j, a) => RetryAlike(s, t, j, a);
      case Post(cb, raises, clock) => DeliverAlike(s, t, cb, raises, clock);
      case _ => PlainAlike(s, t, step);
    }
  }

  /** Billing, configuration, references and cancellations. */
  lemma PlainAlike(s: Store, t: Store, step: Step)
    requires Alike(s, t)
    requires step.Bill? || step.SetLimit? || step.AddPack? || step.EditPack? || step.AddReference? || step.Cancel?
    ensures Alike(Next(s, step), Next(t, step))
  {
  }

  /** The run without the deliveries whose handler crashed. */
  function WithoutCrashes(steps: seq<Step>): seq<Step> {
    if steps == [] then []
    else
      var last := steps[|steps| - 1];
      WithoutCrashes(steps[..|steps| - 1]) + if last.Post? && last.raises then [] else [last]
  }

  /** Crashed deliveries leave nothing but receipt times, wherever in a run they fall. */
  lemma {:induction false} CrashesLeaveReceiptsOnly(s: Store, steps: seq<Step>)
    ensures Alike(RunSteps(s, WithoutCrashes(steps)), RunSteps(s, steps))
  {
    if steps != [] {
      var front, last := steps[..|steps| - 1], steps[|steps| - 1];
      var w := WithoutCrashes(front);
      CrashesLeaveReceiptsOnly(s, front);
      if last.Post? && last.raises {
        CrashAlike(RunSteps(s, w), RunSteps(s, front), last.callback, last.clock);
        assert w + [] == w;
      } else {
        NextAlike(RunSteps(s, w), RunSteps(s, front), last);
        OneMore(s, w, last);
      }
    }
  }
}
