/** Retries: what a retry leaves alone, and the chain that `retried_from` builds. */
module RetryChain {
  import opened Prelude
  import opened Jobs
  import opened Settlement
  import opened Invariants
  import Usage
  import Outputs

  /** The job this one was retried from, as its metadata says. */
  function Predecessor(jobs: seq<Job>, j: nat): (r: Option<nat>)
    requires j < |jobs|
    ensures r.Some? ==> r.value < j
  {
    if RETRIED_FROM in jobs[j].metadata && jobs[j].metadata[RETRIED_FROM].JobLink?
       && jobs[j].metadata[RETRIED_FROM].job < j then
      Some(jobs[j].metadata[RETRIED_FROM].job)
    else None
  }

  function ChainLength(jobs: seq<Job>, j: nat): nat
    requires j < |jobs|
    decreases j
  {
    match Predecessor(jobs, j)
    case None => 0
    case Some(i) => 1 + ChainLength(jobs, i)
  }

  ghost predicate Linked(jobs: seq<Job>, j: nat)
    requires j < |jobs|
  {
    if jobs[j].retryCount == 0 then RETRIED_FROM !in jobs[j].metadata
    else
      && Predecessor(jobs, j).Some?
      && var before := jobs[Predecessor(jobs, j).value];
         before.retryCount + 1 == jobs[j].retryCount && before.workspace == jobs[j].workspace
         && before.jobType == jobs[j].jobType && before.entity == jobs[j].entity
  }

  ghost predicate Chained(jobs: seq<Job>) {
    forall j :: 0 <= j < |jobs| ==> Linked(jobs, j)
  }

  lemma {:induction false} ChainCountsRetries(jobs: seq<Job>, j: nat)
    requires Chained(jobs) && j < |jobs|
    ensures ChainLength(jobs, j) == jobs[j].retryCount
    decreases j
  {
    assert Linked(jobs, j);
    if jobs[j].retryCount > 0 { ChainCountsRetries(jobs, Predecessor(jobs, j).value); }
  }

  // ---------------------------------------------------------------- retry itself

  lemma SubmitTouchesOneJob(s: Store, j: nat, a: Attempt)
    requires j < |s.jobs|
    ensures var t := Submit(s, j, a);
      |t.jobs| == |s.jobs| && forall i :: 0 <= i < |s.jobs| && i != j ==> t.jobs[i] == s.jobs[i]
  {
    if a.submission.NotConfigured? || a.submission.Rejected? || a.submission.TimedOut? {
      var status := if a.submission.TimedOut? then Timeout else Failed;
      var s1 := s.(jobs := s.jobs[j := s.jobs[j].(status := status, failedAt := Some(a.clock.now),
                                                  errorMessage := a.submission.message)]);
      DispatchJobs(s1, j, status, EMPTY_RESULT, a.submission.message, map[], a.clock);
    }
  }

  /** Retrying changes no existing job: the old one is preserved as it was. */
  lemma RetryLeavesOldJobs(s: Store, j: nat, a: Attempt)
    ensures s.jobs <= Retry(s, j, a).jobs
    ensures CanRetry(s, j) && !a.breaks.BeforeRow? ==>
      var d := RetryDraft(s.jobs[j], j);
      ServingJob(s, d) < |Retry(s, j, a).jobs|
  {
    if CanRetry(s, j) {
      var d := RetryDraft(s.jobs[j], j);
      SubmitTouchesOneJob(s.(jobs := s.jobs + [JobFrom(d)]), |s.jobs|, a);
    }
  }

  lemma ActiveIsUnique(jobs: seq<Job>, i: nat, j: nat)
    requires OneActiveJobPerKey(jobs) && i < |jobs| && j < |jobs| && jobs[i].key != Blank
    requires jobs[i].key == jobs[j].key && jobs[i].workspace == jobs[j].workspace
    requires !Terminal(jobs[i].status) && !Terminal(jobs[j].status)
    ensures i == j
  {
  }

  /** A timed-out job is not terminal, so a retry finds that same job active, returns it and
      changes nothing at all. */
  lemma RetryOfTimedOutReturnsIt(s: Store, j: nat, a: Attempt)
    requires Inv(s) && j < |s.jobs| && s.jobs[j].status == Timeout && s.jobs[j].key != Blank
    ensures Retry(s, j, a) == s && ServingJob(s, RetryDraft(s.jobs[j], j)) == j
  {
    var f := FindActive(s.jobs, s.jobs[j].workspace, s.jobs[j].key);
    ActiveIsUnique(s.jobs, f.value, j);
  }

  // ---------------------------------------------------------------- all runs

  /** No caller and no callback writes the `retried_from` field. */
  predicate LeavesLink(step: Step) {
    match step
    case OpenJob(d, _) => RETRIED_FROM !in d.metadata
    case AddReference(d) => RETRIED_FROM !in d.metadata
    case Post(cb, _, _) => RETRIED_FROM !in cb.metadata
    case _ => true
  }

  predicate SameLink(a: Job, b: Job) {
    SameIdentity(a, b)
    && (RETRIED_FROM in a.metadata <==> RETRIED_FROM in b.metadata)
    && (RETRIED_FROM in a.metadata ==> b.metadata[RETRIED_FROM] == a.metadata[RETRIED_FROM])
  }

  ghost predicate LinksKept(a: seq<Job>, b: seq<Job>) {
    |a| <= |b| && forall i :: 0 <= i < |a| ==> SameLink(a[i], b[i])
  }

  lemma ChainedFrame(a: seq<Job>, b: seq<Job>)
    requires Chained(a) && LinksKept(a, b)
    requires forall j :: |a| <= j < |b| ==> Linked(b, j)
    ensures Chained(b)
  {
    forall j | 0 <= j < |b| ensures Linked(b, j) {
      if j < |a| { assert Linked(a, j); }
    }
  }

  lemma DispatchLinks(s: Store, j: nat, status: JobStatus, result: CallbackResult, message: string,
                      meta: Meta, clock: Clock)
    requires j < |s.jobs| && RETRIED_FROM !in meta
    ensures LinksKept(s.jobs, Dispatch(s, j, status, result, message, meta, clock).jobs)
    ensures |Dispatch(s, j, status, result, message, meta, clock).jobs| == |s.jobs|
  {
    DispatchJobs(s, j, status, result, message, meta, clock);
    var m :| Dispatch(s, j, status, result, message, meta, clock).jobs
             == s.jobs[j := Transitioned(s.jobs[j], status, m, meta, clock.now)];
    TransitionLinks(s.jobs, j, status, m, meta, clock.now);
  }

  lemma TransitionLinks(jobs: seq<Job>, j: nat, status: JobStatus, message: string, meta: Meta, now: Time)
    requires j < |jobs| && RETRIED_FROM !in meta
    ensures LinksKept(jobs, jobs[j := Transitioned(jobs[j], status, message, meta, now)])
  {
  }

  lemma MarkFailedLinks(s: Store, j: nat, status: JobStatus, message: string, a: Attempt)
    requires j < |s.jobs|
    ensures var t := MarkSubmissionFailed(s, j, status, message, a);
      LinksKept(s.jobs, t.jobs) && |t.jobs| == |s.jobs|
  {
    var s1 := s.(jobs := s.jobs[j := s.jobs[j].(status := status, failedAt := Some(a.clock.now),
                                                errorMessage := message)]);
    DispatchLinks(s1, j, status, EMPTY_RESULT, message, map[], a.clock);
  }

  lemma OpenLinks(s: Store, d: Draft, a: Attempt)
    ensures var t := Open(s, d, a);
      && LinksKept(s.jobs, t.jobs)
      && forall j :: |s.jobs| <= j < |t.jobs| ==> j == |s.jobs| && SameLink(JobFrom(d), t.jobs[j])
  {
    if FindActive(s.jobs, d.workspace, EffectiveKey(d)).None? {
      var s1 := s.(jobs := s.jobs + [JobFrom(d)]);
      match a.submission {
        case NotConfigured(m) => MarkFailedLinks(s1, |s.jobs|, Failed, m, a);
        case Rejected(m) => MarkFailedLinks(s1, |s.jobs|, Failed, m, a);
        case TimedOut(m) => MarkFailedLinks(s1, |s.jobs|, Timeout, m, a);
        case _ =>
      }
    }
  }

  lemma OpenChained(s: Store, d: Draft, a: Attempt)
    requires Chained(s.jobs)
    requires if d.retryCount == 0 then RETRIED_FROM !in d.metadata
             else exists i :: 0 <= i < |s.jobs| && d == RetryDraft(s.jobs[i], i)
    ensures Chained(Open(s, d, a).jobs)
  {
    OpenLinks(s, d, a);
    var t := Open(s, d, a);
    forall j | |s.jobs| <= j < |t.jobs| ensures Linked(t.jobs, j) {
      assert SameLink(JobFrom(d), t.jobs[j]);
      if d.retryCount > 0 {
        var i :| 0 <= i < |s.jobs| && d == RetryDraft(s.jobs[i], i);
        assert SameLink(s.jobs[i], t.jobs[i]);
        assert Predecessor(t.jobs, j) == Some(i);
      }
    }
    ChainedFrame(s.jobs, t.jobs);
  }

  lemma NextChained(s: Store, step: Step)
    requires Chained(s.jobs) && LeavesLink(step)
    ensures Chained(Next(s, step).jobs)
  {
    match step {
      case RequestPack(ws, p, a) =>
        if CreateRefusal(s, ws, p, a.clock.period).None? {
          OpenChained(WithRequest(s, ws, p, a.clock.period), PackRequestDraft(ws, |s.requests|), a);
        }
      case RequestReport(ws, a) => ReportChained(s, ws, a);
      case RequestKit(ws, a) => KitChained(s, ws, a);
      case OpenJob(d, a) => OpenChained(s, d.(retryCount := 0), a);
      case AddReference(d) => ChainedFrame(s.jobs, Next(s, step).jobs);
      case RetryJob(j, a) => if CanRetry(s, j) { OpenChained(s, RetryDraft(s.jobs[j], j), a); }
      case Cancel(sel, now) => ChainedFrame(s.jobs, Next(s, step).jobs);
      case Post(cb, raises, clock) =>
        if Gate(s, cb) == Processed {
          var s1 := Received(s, cb.job, clock.now);
          ChainedFrame(s.jobs, s1.jobs);
          DispatchLinks(s1, cb.job, cb.status, cb.result, cb.message, cb.metadata, clock);
          if !raises { ChainedFrame(s1.jobs, Next(s, step).jobs); }
        }
      case _ =>
    }
  }

  lemma ReportChained(s: Store, ws: nat, a: Attempt)
    requires Chained(s.jobs)
    ensures Chained(CreateReport(s, ws, a).jobs)
  {
    var e := |s.reports|;
    var s1 := s.(reports := s.reports + [Document(ws, ReportQueued, None, map[], None)],
                 usage := Usage.Record(s.usage, Usage.UsageEvent(ws, Usage.ReportGenerated, e, 0, a.clock.period)));
    OpenChained(s1, ReportDraft(ws, e), a);
  }

  lemma KitChained(s: Store, ws: nat, a: Attempt)
    requires Chained(s.jobs)
    ensures Chained(CreateKit(s, ws, a).jobs)
  {
    var e := |s.kits|;
    var s1 := s.(kits := s.kits + [Document(ws, KitDraft, None, map[], None)],
                 usage := Usage.Record(s.usage, Usage.UsageEvent(ws, Usage.MediaKitGenerated, e, 0, a.clock.period)));
    OpenChained(s1, KitDraftOf(ws, e), a);
  }

  lemma {:induction false} RunChained(s: Store, steps: seq<Step>)
    requires Chained(s.jobs) && forall k :: 0 <= k < |steps| ==> LeavesLink(steps[k])
    ensures Chained(RunSteps(s, steps).jobs)
  {
    if steps != [] {
      RunChained(s, steps[..|steps| - 1]);
      NextChained(RunSteps(s, steps[..|steps| - 1]), steps[|steps| - 1]);
    }
  }

  /** In every reachable store, exactly the retried jobs carry `retried_from`; it names an older
      job of the same entity and one retry less, and following it ends after exactly
      `retry_count` links, as long as nobody else writes that metadata field. */
  lemma RetryChains(c: Outputs.Catalogue, steps: seq<Step>, j: nat)
    requires forall k :: 0 <= k < |steps| ==> LeavesLink(steps[k])
    requires j < |RunSteps(EmptyStore(c), steps).jobs|
    ensures var jobs := RunSteps(EmptyStore(c), steps).jobs;
      && ChainLength(jobs, j) == jobs[j].retryCount
      && (RETRIED_FROM in jobs[j].metadata <==> jobs[j].retryCount > 0)
      && (jobs[j].retryCount > 0 ==> GoodLink(jobs, j, jobs[j].metadata[RETRIED_FROM]))
  {
    RunChained(EmptyStore(c), steps);
    ChainCountsRetries(RunSteps(EmptyStore(c), steps).jobs, j);
    assert Linked(RunSteps(EmptyStore(c), steps).jobs, j);
  }

  /** A link to an older job of the same workspace, type and entity with one retry less. */
  predicate GoodLink(jobs: seq<Job>, j: nat, link: MetaValue)
    requires j < |jobs|
  {
    && link.JobLink? && link.job < j
    && var before := jobs[link.job];
       before.retryCount + 1 == jobs[j].retryCount && before.workspace == jobs[j].workspace
       && before.jobType == jobs[j].jobType && before.entity == jobs[j].entity
  }

  lemma LinkedIff(jobs: seq<Job>, j: nat)
    requires j < |jobs|
    ensures Linked(jobs, j) <==>
      if RETRIED_FROM in jobs[j].metadata then GoodLink(jobs, j, jobs[j].metadata[RETRIED_FROM])
      else jobs[j].retryCount == 0
  {
  }

  /** A callback may write the field: its metadata is merged over the job's. The chains stay
      whole exactly when it does not, or writes a good link over a retried job's. */
  lemma CallbackKeepsChainIff(s: Store, cb: Callback, clock: Clock)
    requires Gate(s, cb) == Processed && Chained(s.jobs)
    ensures Chained(Deliver(s, cb, false, clock).jobs) <==>
      RETRIED_FROM in cb.metadata ==> GoodLink(s.jobs, cb.job, cb.metadata[RETRIED_FROM])
  {
    DeliveredMetadata(s, cb, clock);
    MetadataWritten(s.jobs, Deliver(s, cb, false, clock).jobs, cb.job, cb.metadata);
  }

  lemma DeliveredMetadata(s: Store, cb: Callback, clock: Clock)
    requires Gate(s, cb) == Processed
    ensures var b := Deliver(s, cb, false, clock).jobs;
      && |b| == |s.jobs|
      && (forall i :: 0 <= i < |s.jobs| ==> SameIdentity(s.jobs[i], b[i]))
      && forall i :: 0 <= i < |s.jobs| ==>
           b[i].metadata == if i == cb.job then s.jobs[i].metadata + cb.metadata else s.jobs[i].metadata
  {
    var s1 := Received(s, cb.job, clock.now);
    DispatchJobs(s1, cb.job, cb.status, cb.result, cb.message, cb.metadata, clock);
    var m :| Deliver(s, cb, false, clock).jobs
             == s1.jobs[cb.job := Transitioned(s1.jobs[cb.job], cb.status, m, cb.metadata, clock.now)];
    TransitionedMetadata(s1.jobs[cb.job], cb.status, m, cb.metadata, clock.now);
  }

  lemma TransitionedMetadata(job: Job, status: JobStatus, message: string, meta: Meta, now: Time)
    ensures var b := Transitioned(job, status, message, meta, now);
      SameIdentity(job, b) && b.metadata == job.metadata + meta
  {
  }

  lemma MetadataWritten(a: seq<Job>, b: seq<Job>, j: nat, meta: Meta)
    requires j < |a| == |b| && Chained(a)
    requires forall i :: 0 <= i < |a| ==> SameIdentity(a[i], b[i])
    requires forall i :: 0 <= i < |a| ==> b[i].metadata == if i == j then a[i].metadata + meta else a[i].metadata
    ensures Chained(b) <==> RETRIED_FROM in meta ==> GoodLink(a, j, meta[RETRIED_FROM])
  {
    forall i | 0 <= i < |b| && i != j ensures Linked(b, i) {
      assert Linked(a, i);
      LinkedIff(a, i);
      LinkedIff(b, i);
    }
    assert Linked(a, j);
    LinkedIff(a, j);
    LinkedIff(b, j);
  }
}
