/** Once every job of a request is over, only opening or retrying a job for it can disturb what
    it was delivered and charged. */
module StandingCharge {
  import opened Prelude
  import opened Ledger
  import opened Usage
  import opened Jobs
  import opened Settlement
  import opened Invariants
  import opened Conservation
  import opened ExactSettlement
  import Outputs

  ghost predicate AllJobsOver(s: Store, r: nat) {
    forall j: nat :: JobOf(s, j, r) ==> Terminal(s.jobs[j].status)
  }

  /** The step opens and retries no job of request r. */
  predicate OpensNone(s: Store, step: Step, r: nat) {
    match step
    case OpenJob(d, _) => d.entity != PackEntity(r)
    case AddReference(d) => d.entity != PackEntity(r)
    case RetryJob(j, _) => j < |s.jobs| ==> s.jobs[j].entity != PackEntity(r)
    case _ => true
  }

  ghost predicate RunOpensNone(s: Store, steps: seq<Step>, r: nat) {
    steps == [] ||
    (RunOpensNone(s, steps[..|steps| - 1], r) && OpensNone(RunSteps(s, steps[..|steps| - 1]), steps[|steps| - 1], r))
  }

  lemma ElsewhereTransitive(s: Store, t: Store, u: Store, r: nat)
    requires Elsewhere(s, t, r) && Elsewhere(t, u, r) && r < |s.requests|
    ensures Elsewhere(s, u, r)
  {
  }

  lemma StillOver(s: Store, t: Store, r: nat)
    requires AllJobsOver(s, r) && Elsewhere(s, t, r)
    ensures AllJobsOver(t, r)
  {
    forall j: nat | JobOf(t, j, r) ensures Terminal(t.jobs[j].status) { JobElsewhere(s, t, r, j); }
  }

  // ---------------------------------------------------------------- the steps

  lemma RequestStepElsewhere(s: Store, ws: WorkspaceId, p: nat, a: Attempt, r: nat)
    requires r < |s.requests|
    ensures Elsewhere(s, CreateRequest(s, ws, p, a), r)
  {
    if CreateRefusal(s, ws, p, a.clock.period).None? {
      var s1, d := WithRequest(s, ws, p, a.clock.period), PackRequestDraft(ws, |s.requests|);
      assert Elsewhere(s, s1, r);
      OpenElsewhere(s1, d, a, r);
      ElsewhereTransitive(s, s1, Open(s1, d, a), r);
    }
  }

  lemma ReportStepElsewhere(s: Store, ws: WorkspaceId, a: Attempt, r: nat)
    requires r < |s.requests|
    ensures Elsewhere(s, CreateReport(s, ws, a), r)
  {
    var e := |s.reports|;
    OpenElsewhere(s.(reports := s.reports + [Document(ws, ReportQueued, None, map[], None)],
                     usage := Record(s.usage, UsageEvent(ws, ReportGenerated, e, 0, a.clock.period))),
                  ReportDraft(ws, e), a, r);
  }

  lemma KitStepElsewhere(s: Store, ws: WorkspaceId, a: Attempt, r: nat)
    requires r < |s.requests|
    ensures Elsewhere(s, CreateKit(s, ws, a), r)
  {
    var e := |s.kits|;
    OpenElsewhere(s.(kits := s.kits + [Document(ws, KitDraft, None, map[], None)],
                     usage := Record(s.usage, UsageEvent(ws, MediaKitGenerated, e, 0, a.clock.period))),
                  KitDraftOf(ws, e), a, r);
  }

  lemma RetryStepElsewhere(s: Store, j: nat, a: Attempt, r: nat)
    requires r < |s.requests| && (j < |s.jobs| ==> s.jobs[j].entity != PackEntity(r))
    ensures Elsewhere(s, Retry(s, j, a), r)
  {
    if CanRetry(s, j) { OpenElsewhere(s, RetryDraft(s.jobs[j], j), a, r); }
  }

  lemma PostStepElsewhere(s: Store, cb: Callback, raises: bool, clock: Clock, r: nat)
    requires r < |s.requests| && AllJobsOver(s, r)
    ensures Elsewhere(s, Deliver(s, cb, raises, clock), r)
  {
    if Gate(s, cb) == Processed {
      assert !JobOf(s, cb.job, r);
      var s1 := Received(s, cb.job, clock.now);
      DispatchElsewhere(s1, cb.job, cb.status, cb.result, cb.message, cb.metadata, clock, r);
    }
  }

  lemma CancelStepElsewhere(s: Store, selection: set<nat>, now: Time, r: nat)
    requires r < |s.requests| && AllJobsOver(s, r)
    ensures Elsewhere(s, s.(jobs := CancelJobs(s.jobs, selection, now)), r)
  {
    forall i | 0 <= i < |s.jobs| && s.jobs[i].entity == PackEntity(r) ensures Terminal(s.jobs[i].status) {
      assert JobOf(s, i, r);
    }
  }

  lemma NextElsewhere(s: Store, step: Step, r: nat)
    requires r < |s.requests| && AllJobsOver(s, r) && OpensNone(s, step, r)
    ensures Elsewhere(s, Next(s, step), r)
  {
    match step {
      case RequestPack(ws, p, a) => RequestStepElsewhere(s, ws, p, a, r);
      case RequestReport(ws, a) => ReportStepElsewhere(s, ws, a, r);
      case RequestKit(ws, a) => KitStepElsewhere(s, ws, a, r);
      case OpenJob(d, a) => OpenElsewhere(s, d.(retryCount := 0), a, r);
      case RetryJob(j, a) => RetryStepElsewhere(s, j, a, r);
      case Cancel(selection, now) => CancelStepElsewhere(s, selection, now, r);
      case Post(cb, raises, clock) => PostStepElsewhere(s, cb, raises, clock, r);
      case _ =>
    }
  }

  lemma {:induction false} RunElsewhere(s: Store, steps: seq<Step>, r: nat)
    requires r < |s.requests| && AllJobsOver(s, r) && RunOpensNone(s, steps, r)
    ensures Elsewhere(s, RunSteps(s, steps), r)
  {
    if steps != [] {
      var mid := RunSteps(s, steps[..|steps| - 1]);
      RunElsewhere(s, steps[..|steps| - 1], r);
      StillOver(s, mid, r);
      NextElsewhere(mid, steps[|steps| - 1], r);
      ElsewhereTransitive(s, mid, RunSteps(s, steps), r);
    }
  }

  /** Once all its jobs are over, no run that opens and retries none changes a request's row, its
      outputs or whether it was consumed and released: a delivered and charged request stays
      delivered and charged. */
  lemma SettledRequestStands(s: Store, steps: seq<Step>, r: nat)
    requires r < |s.requests| && AllJobsOver(s, r) && RunOpensNone(s, steps, r)
    ensures var t := RunSteps(s, steps);
      && r < |t.requests| && t.requests[r] == s.requests[r]
      && Outputs.RowsElsewhere(s.shelf.outputs, t.shelf.outputs, r)
      && (Consumed(t, r) <==> Consumed(s, r)) && (Released(t, r) <==> Released(s, r))
      && AllJobsOver(t, r)
  {
    var t := RunSteps(s, steps);
    RunElsewhere(s, steps, r);
    StillOver(s, t, r);
    RecordedElsewhere(s.entries, t.entries, r, WorkspaceOf(s, r), PackConsume(r));
    RecordedElsewhere(s.entries, t.entries, r, WorkspaceOf(s, r), PackRelease(r));
  }
}
