/** When a request's reservation is settled, and how: exactly once, by the callback or failed
    submission that ends its only job; and how this breaks outside those circumstances. */
module ExactSettlement {
  import opened Prelude
  import opened Ledger
  import opened Usage
  import opened Jobs
  import opened Settlement
  import opened Invariants
  import opened Conservation
  import Outputs

  function PackEntity(r: nat): EntityRef {
    Entity(PackRequestKind, r)
  }

  function PackKey(r: nat): JobKey {
    For(ContentGeneration, PackEntity(r))
  }

  predicate Consumed(s: Store, r: nat)
    requires r < |s.requests|
  {
    Recorded(s.entries, WorkspaceOf(s, r), PackConsume(r))
  }

  // ---------------------------------------------------------------- one callback

  /** What a processed callback adds: a consume entry when it keeps the credits, a release
      entry otherwise, on top of what was already there. */
  lemma SettlementAdds(es: seq<Entry>, ws: WorkspaceId, r: nat, cost: int, consume: bool)
    requires cost > 0
    ensures var t := Settle(es, ws, r, cost, consume);
      && (Recorded(t, ws, PackConsume(r)) <==> Recorded(es, ws, PackConsume(r)) || consume)
      && (Recorded(t, ws, PackRelease(r)) <==> Recorded(es, ws, PackRelease(r)) || !consume)
  {
    var t := Settle(es, ws, r, cost, consume);
    if t != es {
      assert t[..|t| - 1] == es;
    }
  }

  /** After settling, exactly one of the two entries exists if and only if the
      other kind did not exist before it. */
  lemma ExactlyOneIff(es: seq<Entry>, ws: WorkspaceId, r: nat, cost: int, consume: bool)
    requires cost > 0
    ensures var t := Settle(es, ws, r, cost, consume);
      (Recorded(t, ws, PackConsume(r)) != Recorded(t, ws, PackRelease(r)))
      <==> !Recorded(es, ws, if consume then PackRelease(r) else PackConsume(r))
  {
    SettlementAdds(es, ws, r, cost, consume);
  }

  // ---------------------------------------------------------------- the disciplined runs

  /** No settlement row exists. */
  predicate Unsettled(s: Store, r: nat)
    requires r < |s.requests|
  {
    !Consumed(s, r) && !Released(s, r)
  }

  predicate JobOf(s: Store, j: nat, r: nat) {
    j < |s.jobs| && s.jobs[j].entity == PackEntity(r)
  }

  /** The request is queued exactly as long as it is unsettled. */
  predicate QueuedWhileUnsettled(s: Store, r: nat)
    requires r < |s.requests|
  {
    s.requests[r].status == RequestQueued <==> Unsettled(s, r)
  }

  /** The ledger says what the status of the request's job says. */
  predicate SettledBy(s: Store, r: nat, j: nat)
    requires r < |s.requests|
  {
    && JobOf(s, j, r) && s.jobs[j].jobType == ContentGeneration
    && match s.jobs[j].status
       case Queued | Submitted | Cancelled => Unsettled(s, r)
       case Completed => Consumed(s, r) && !Released(s, r)
       case PartiallyCompleted => Consumed(s, r) != Released(s, r)
       case Expired => Released(s, r) && !Consumed(s, r)
       case Failed => !Consumed(s, r)
       case _ => false
  }

  /** A priced request has at most one job, and its ledger rows follow that job's status. */
  ghost predicate OneJobSettles(s: Store, r: nat)
    requires r < |s.requests|
  {
    && QueuedWhileUnsettled(s, r)
    && (forall i, j :: JobOf(s, i, r) && JobOf(s, j, r) ==> i == j)
    && (forall j :: JobOf(s, j, r) ==> SettledBy(s, r, j))
    && ((forall j :: 0 <= j < |s.jobs| ==> !JobOf(s, j, r)) ==> Unsettled(s, r))
  }

  ghost predicate NoTraceOf(jobs: seq<Job>, r: nat) {
    forall i :: 0 <= i < |jobs| ==> jobs[i].entity != PackEntity(r) && jobs[i].key != PackKey(r)
  }

  ghost predicate Tidy(s: Store, r: nat) {
    if r < |s.requests| then CostOf(s, r) > 0 ==> OneJobSettles(s, r) else NoTraceOf(s.jobs, r)
  }

  /** The step leaves its content pack's price alone, gives request r no second job, does not
      time out submitting its first, and delivers to it only callbacks that end a job. Failed
      submissions, told to the request or not, and cancellations are allowed. */
  ghost predicate PlainFor(s: Store, step: Step, r: nat) {
    match step
    case EditPack(p, pack) =>
      p < |s.packs| && r < |s.requests| && s.requests[r].pack == p ==> pack.cost == s.packs[p].cost
    case RequestPack(_, _, a) => |s.requests| == r ==> !a.submission.TimedOut?
    case OpenJob(d, _) => d.entity != PackEntity(r) && EffectiveKey(d) != PackKey(r)
    case AddReference(d) => d.entity != PackEntity(r)
    case RetryJob(j, _) => j < |s.jobs| ==> s.jobs[j].entity != PackEntity(r)
    case Post(cb, _, _) => JobOf(s, cb.job, r) ==> cb.status in {Completed, PartiallyCompleted, Failed, Expired}
    case _ => true
  }

  ghost predicate PlainRun(s: Store, steps: seq<Step>, r: nat) {
    steps == [] ||
    (PlainRun(s, steps[..|steps| - 1], r) && PlainFor(RunSteps(s, steps[..|steps| - 1]), steps[|steps| - 1], r))
  }

  // ---------------------------------------------------------------- steps elsewhere

  ghost predicate JobsElsewhere(a: seq<Job>, b: seq<Job>, r: nat) {
    && |a| <= |b|
    && (forall i :: 0 <= i < |a| ==> SameIdentity(a[i], b[i]) && (a[i].entity == PackEntity(r) ==> b[i] == a[i]))
    && (forall i :: |a| <= i < |b| ==> b[i].entity != PackEntity(r))
  }

  ghost predicate EntriesElsewhere(a: seq<Entry>, b: seq<Entry>, r: nat) {
    a <= b && forall i :: |a| <= i < |b| ==> RequestOf(b[i].key) != Some(r)
  }

  ghost predicate RequestElsewhere(a: seq<Request>, b: seq<Request>, r: nat) {
    |a| <= |b| && (r < |a| ==> b[r] == a[r])
  }

  /** The step from s to t does not concern request r: its row, its jobs, its outputs and its
      ledger rows are as they were. */
  ghost predicate Elsewhere(s: Store, t: Store, r: nat) {
    && JobsElsewhere(s.jobs, t.jobs, r) && EntriesElsewhere(s.entries, t.entries, r)
    && RequestElsewhere(s.requests, t.requests, r)
    && Outputs.RowsElsewhere(s.shelf.outputs, t.shelf.outputs, r)
  }

  lemma RecordedElsewhere(a: seq<Entry>, b: seq<Entry>, r: nat, ws: WorkspaceId, key: Key)
    requires EntriesElsewhere(a, b, r) && RequestOf(key) == Some(r)
    ensures Recorded(a, ws, key) <==> Recorded(b, ws, key)
  {
    if Recorded(a, ws, key) { RecordedInPrefix(a, b, ws, key); }
    if Recorded(b, ws, key) {
      var i := Lookup(b, ws, key).value;
      assert a[i] == b[i];
    }
  }

  lemma JobElsewhere(a: Store, b: Store, r: nat, j: nat)
    requires JobsElsewhere(a.jobs, b.jobs, r)
    ensures JobOf(a, j, r) <==> JobOf(b, j, r)
    ensures JobOf(a, j, r) ==> b.jobs[j] == a.jobs[j]
  {
  }

  lemma TidyElsewhere(s: Store, t: Store, r: nat)
    requires Tidy(s, r) && Elsewhere(s, t, r)
    requires r < |s.requests| ==> CostOf(t, r) == CostOf(s, r)
    requires r >= |s.requests| ==> r >= |t.requests|
    requires r >= |s.requests| ==> forall i :: |s.jobs| <= i < |t.jobs| ==> t.jobs[i].key != PackKey(r)
    ensures Tidy(t, r)
  {
    if r < |s.requests| {
      RecordedElsewhere(s.entries, t.entries, r, WorkspaceOf(s, r), PackConsume(r));
      RecordedElsewhere(s.entries, t.entries, r, WorkspaceOf(s, r), PackRelease(r));
      forall j: nat ensures JobOf(s, j, r) <==> JobOf(t, j, r) { JobElsewhere(s, t, r, j); }
      if CostOf(t, r) > 0 {
        forall j | JobOf(t, j, r) ensures SettledBy(t, r, j) { JobElsewhere(s, t, r, j); }
      }
    }
  }

  /** Elsewhere, with the same number of jobs and requests and the same packs. */
  ghost predicate QuietlyElsewhere(s: Store, t: Store, r: nat) {
    Elsewhere(s, t, r) && |t.jobs| == |s.jobs| && |t.requests| == |s.requests| && t.packs == s.packs
  }

  lemma SettleElsewhere(es: seq<Entry>, ws: WorkspaceId, q: nat, cost: int, consume: bool, r: nat)
    requires q != r
    ensures EntriesElsewhere(es, Settle(es, ws, q, cost, consume), r)
  {
  }

  /** Enough to be elsewhere: another entity's job row, no entry and no column of r. */
  lemma ElsewhereByParts(s: Store, t: Store, j: nat, job: Job, r: nat)
    requires j < |s.jobs| && s.jobs[j].entity != PackEntity(r) && SameIdentity(s.jobs[j], job)
    requires t.jobs == s.jobs[j := job] && t.packs == s.packs && |t.requests| == |s.requests|
    requires EntriesElsewhere(s.entries, t.entries, r) && RequestElsewhere(s.requests, t.requests, r)
    requires Outputs.RowsElsewhere(s.shelf.outputs, t.shelf.outputs, r)
    ensures QuietlyElsewhere(s, t, r)
  {
  }

  lemma PackSuccessElsewhere(s: Store, j: nat, q: nat, status: JobStatus, ds: seq<Outputs.OutputData>,
                             meta: Meta, clock: Clock, r: nat)
    requires j < |s.jobs| && s.jobs[j].entity != PackEntity(r) && q < |s.requests| && q != r
    ensures QuietlyElsewhere(s, PackSucceeded(s, j, q, status, ds, meta, clock), r)
  {
    var t := PackSucceeded(s, j, q, status, ds, meta, clock);
    SettleElsewhere(s.entries, WorkspaceOf(s, q), q, CostOf(s, q), ShouldConsume(status, ds), r);
    Outputs.UpsertAllElsewhere(s.shelf, s.catalogue, OwnerOf(s, q), ds, r);
    ElsewhereByParts(s, t, j, Transitioned(s.jobs[j], status, "", meta, clock.now), r);
  }

  lemma PackFailureElsewhere(s: Store, j: nat, q: nat, status: JobStatus, message: string,
                             meta: Meta, clock: Clock, r: nat)
    requires j < |s.jobs| && s.jobs[j].entity != PackEntity(r) && q < |s.requests| && q != r
    ensures QuietlyElsewhere(s, PackFailedWith(s, j, q, status, message, meta, clock), r)
  {
    var t := PackFailedWith(s, j, q, status, message, meta, clock);
    SettleElsewhere(s.entries, WorkspaceOf(s, q), q, CostOf(s, q), false, r);
    ElsewhereByParts(s, t, j, Transitioned(s.jobs[j], status, message, meta, clock.now), r);
  }

  lemma ReportElsewhere(s: Store, j: nat, e: nat, status: JobStatus, result: CallbackResult, message: string,
                        meta: Meta, clock: Clock, r: nat)
    requires j < |s.jobs| && s.jobs[j].entity != PackEntity(r) && e < |s.reports|
    ensures QuietlyElsewhere(s, ReportSucceeded(s, j, e, status, result, meta, clock), r)
    ensures QuietlyElsewhere(s, ReportFailedWith(s, j, e, status, message, meta, clock), r)
  {
    ElsewhereByParts(s, ReportSucceeded(s, j, e, status, result, meta, clock), j,
                     Transitioned(s.jobs[j], status, "", meta, clock.now), r);
    ElsewhereByParts(s, ReportFailedWith(s, j, e, status, message, meta, clock), j,
                     Transitioned(s.jobs[j], status, message, meta, clock.now), r);
  }

  lemma KitElsewhere(s: Store, j: nat, e: nat, status: JobStatus, result: CallbackResult, message: string,
                     meta: Meta, clock: Clock, r: nat)
    requires j < |s.jobs| && s.jobs[j].entity != PackEntity(r) && e < |s.kits|
    ensures QuietlyElsewhere(s, KitSucceeded(s, j, e, status, result, meta, clock), r)
    ensures QuietlyElsewhere(s, KitFailedWith(s, j, e, status, message, meta, clock), r)
  {
    ElsewhereByParts(s, KitSucceeded(s, j, e, status, result, meta, clock), j,
                     Transitioned(s.jobs[j], status, "", meta, clock.now), r);
    ElsewhereByParts(s, KitFailedWith(s, j, e, status, message, meta, clock), j,
                     Transitioned(s.jobs[j], status, message, meta, clock.now), r);
  }

  lemma PackDispatchElsewhere(s: Store, j: nat, status: JobStatus, result: CallbackResult, message: string,
                              meta: Meta, clock: Clock, r: nat)
    requires j < |s.jobs| && s.jobs[j].entity != PackEntity(r) && SubjectOf(s, j).PackSubject?
    ensures QuietlyElsewhere(s, Dispatch(s, j, status, result, message, meta, clock), r)
  {
    var q := SubjectOf(s, j).request;
    if Failure(status) { PackFailureElsewhere(s, j, q, status, message, meta, clock, r); }
    else { PackSuccessElsewhere(s, j, q, status, result.outputs, meta, clock, r); }
  }

  lemma ReportDispatchElsewhere(s: Store, j: nat, status: JobStatus, result: CallbackResult, message: string,
                                meta: Meta, clock: Clock, r: nat)
    requires j < |s.jobs| && s.jobs[j].entity != PackEntity(r) && SubjectOf(s, j).ReportSubject?
    ensures QuietlyElsewhere(s, Dispatch(s, j, status, result, message, meta, clock), r)
  {
    ReportElsewhere(s, j, SubjectOf(s, j).report, status, result, message, meta, clock, r);
  }

  lemma KitDispatchElsewhere(s: Store, j: nat, status: JobStatus, result: CallbackResult, message: string,
                             meta: Meta, clock: Clock, r: nat)
    requires j < |s.jobs| && s.jobs[j].entity != PackEntity(r) && SubjectOf(s, j).KitSubject?
    ensures QuietlyElsewhere(s, Dispatch(s, j, status, result, message, meta, clock), r)
  {
    KitElsewhere(s, j, SubjectOf(s, j).kit, status, result, message, meta, clock, r);
  }

  lemma DispatchElsewhere(s: Store, j: nat, status: JobStatus, result: CallbackResult, message: string,
                          meta: Meta, clock: Clock, r: nat)
    requires j < |s.jobs| && s.jobs[j].entity != PackEntity(r)
    ensures QuietlyElsewhere(s, Dispatch(s, j, status, result, message, meta, clock), r)
  {
    match SubjectOf(s, j) {
      case PackSubject(_) => PackDispatchElsewhere(s, j, status, result, message, meta, clock, r);
      case ReportSubject(_) => ReportDispatchElsewhere(s, j, status, result, message, meta, clock, r);
      case KitSubject(_) => KitDispatchElsewhere(s, j, status, result, message, meta, clock, r);
      case NoSubject =>
        ElsewhereByParts(s, Dispatch(s, j, status, result, message, meta, clock), j,
                         Transitioned(s.jobs[j], status, message, meta, clock.now), r);
    }
  }

  lemma MarkFailedElsewhere(s: Store, j: nat, status: JobStatus, message: string, a: Attempt, r: nat)
    requires j < |s.jobs| && s.jobs[j].entity != PackEntity(r)
    ensures QuietlyElsewhere(s, MarkSubmissionFailed(s, j, status, message, a), r)
  {
    var s1 := s.(jobs := s.jobs[j := s.jobs[j].(status := status, failedAt := Some(a.clock.now),
                                                errorMessage := message)]);
    DispatchElsewhere(s1, j, status, EMPTY_RESULT, message, map[], a.clock, r);
  }

  lemma SubmitElsewhere(s: Store, j: nat, a: Attempt, r: nat)
    requires j < |s.jobs| && s.jobs[j].entity != PackEntity(r)
    ensures QuietlyElsewhere(s, Submit(s, j, a), r)
  {
    match a.submission {
      case NotConfigured(m) => MarkFailedElsewhere(s, j, Failed, m, a, r);
      case Rejected(m) => MarkFailedElsewhere(s, j, Failed, m, a, r);
      case TimedOut(m) => MarkFailedElsewhere(s, j, Timeout, m, a, r);
      case _ =>
    }
  }

  lemma OpenElsewhere(s: Store, d: Draft, a: Attempt, r: nat)
    requires d.entity != PackEntity(r)
    ensures var t := Open(s, d, a);
      && Elsewhere(s, t, r) && |t.requests| == |s.requests| && t.packs == s.packs
      && forall i :: |s.jobs| <= i < |t.jobs| ==> t.jobs[i].key == EffectiveKey(d)
  {
    if FindActive(s.jobs, d.workspace, EffectiveKey(d)).None? {
      SubmitElsewhere(s.(jobs := s.jobs + [JobFrom(d)]), |s.jobs|, a, r);
    }
  }

  lemma CreateElsewhere(s: Store, ws: WorkspaceId, p: nat, a: Attempt, r: nat)
    requires Tidy(s, r) && r != |s.requests|
    ensures Tidy(CreateRequest(s, ws, p, a), r)
  {
    if CreateRefusal(s, ws, p, a.clock.period).None? {
      var s1 := WithRequest(s, ws, p, a.clock.period);
      TidyElsewhere(s, s1, r);
      var d := PackRequestDraft(ws, |s.requests|);
      OpenElsewhere(s1, d, a, r);
      TidyElsewhere(s1, CreateRequest(s, ws, p, a), r);
    }
  }

  // ---------------------------------------------------------------- steps on r itself

  predicate Keeps(status: JobStatus, result: CallbackResult) {
    !Failure(status) && ShouldConsume(status, result.outputs)
  }

  /** A callback on a pack job settles its request in the ledger and moves its job. */
  lemma DispatchPack(s: Store, j: nat, r: nat, status: JobStatus, result: CallbackResult, message: string,
                     meta: Meta, clock: Clock)
    requires j < |s.jobs| && SubjectOf(s, j) == PackSubject(r)
    ensures var t := Dispatch(s, j, status, result, message, meta, clock);
      && t.entries == Settle(s.entries, WorkspaceOf(s, r), r, CostOf(s, r), Keeps(status, result))
      && |t.requests| == |s.requests| && t.requests[r].status != RequestQueued
      && (status == Completed || status == Running ==> t.requests[r].status == RequestCompleted)
      && WorkspaceOf(t, r) == WorkspaceOf(s, r)
      && t.jobs == s.jobs[j := t.jobs[j]] && SameIdentity(s.jobs[j], t.jobs[j]) && t.jobs[j].status == status
  {
    var t := Dispatch(s, j, status, result, message, meta, clock);
    if Failure(status) { assert t == PackFailedWith(s, j, r, status, message, meta, clock); }
    else { assert t == PackSucceeded(s, j, r, status, result.outputs, meta, clock); }
  }

  lemma DispatchSettles(s: Store, j: nat, r: nat, status: JobStatus, result: CallbackResult, message: string,
                        meta: Meta, clock: Clock)
    requires j < |s.jobs| && SubjectOf(s, j) == PackSubject(r) && CostOf(s, r) > 0
    requires !Consumed(s, r) && !Released(s, r)
    ensures var t := Dispatch(s, j, status, result, message, meta, clock);
      && |t.requests| == |s.requests| && t.requests[r].status != RequestQueued
      && t.jobs == s.jobs[j := t.jobs[j]] && SameIdentity(s.jobs[j], t.jobs[j]) && t.jobs[j].status == status
      && (Consumed(t, r) <==> Keeps(status, result))
      && (Released(t, r) <==> !Consumed(t, r))
  {
    DispatchPack(s, j, r, status, result, message, meta, clock);
    SettlementAdds(s.entries, WorkspaceOf(s, r), r, CostOf(s, r), Keeps(status, result));
  }

  lemma DeliverElsewhere(s: Store, cb: Callback, raises: bool, clock: Clock, r: nat)
    requires Tidy(s, r) && Gate(s, cb) == Processed && s.jobs[cb.job].entity != PackEntity(r)
    ensures Tidy(Deliver(s, cb, raises, clock), r)
  {
    var s1 := Received(s, cb.job, clock.now);
    TidyElsewhere(s, s1, r);
    if !raises {
      DispatchElsewhere(s1, cb.job, cb.status, cb.result, cb.message, cb.metadata, clock, r);
      TidyElsewhere(s1, Deliver(s, cb, raises, clock), r);
    }
  }

  lemma DispatchStill(s: Store, j: nat, status: JobStatus, result: CallbackResult, message: string,
                      meta: Meta, clock: Clock)
    requires j < |s.jobs|
    ensures var t := Dispatch(s, j, status, result, message, meta, clock);
      FairAndStill(s, t) && forall q :: 0 <= q < |s.requests| ==> CostOf(t, q) == CostOf(s, q)
  {
    DispatchFair(s, j, status, result, message, meta, clock);
  }

  lemma DeliverTidy(s: Store, cb: Callback, raises: bool, clock: Clock, r: nat)
    requires Tidy(s, r) && PlainFor(s, Post(cb, raises, clock), r)
    ensures Tidy(Deliver(s, cb, raises, clock), r)
  {
    if Gate(s, cb) == Processed {
      if s.jobs[cb.job].entity != PackEntity(r) {
        DeliverElsewhere(s, cb, raises, clock, r);
      } else {
        DeliverHere(s, cb, raises, clock, r);
      }
    }
  }

  /** The only job of an unsettled request takes a status that settles it so. */
  lemma JobEnds(s: Store, t: Store, r: nat, j: nat)
    requires r < |s.requests| && OneJobSettles(s, r) && JobOf(s, j, r) && |t.requests| == |s.requests|
    requires |t.jobs| == |s.jobs| && t.jobs == s.jobs[j := t.jobs[j]] && SameIdentity(s.jobs[j], t.jobs[j])
    requires QueuedWhileUnsettled(t, r) && SettledBy(t, r, j)
    ensures OneJobSettles(t, r)
  {
    forall i: nat ensures JobOf(t, i, r) <==> JobOf(s, i, r) { }
  }

  lemma DispatchEnds(s: Store, j: nat, r: nat, status: JobStatus, result: CallbackResult, message: string,
                     meta: Meta, clock: Clock)
    requires r < |s.requests| && CostOf(s, r) > 0 && OneJobSettles(s, r)
    requires JobOf(s, j, r) && !Terminal(s.jobs[j].status)
    requires status in {Completed, PartiallyCompleted, Failed, Expired}
    ensures var t := Dispatch(s, j, status, result, message, meta, clock);
      |t.requests| == |s.requests| && OneJobSettles(t, r)
  {
    assert SettledBy(s, r, j) && SubjectOf(s, j) == PackSubject(r);
    DispatchSettles(s, j, r, status, result, message, meta, clock);
    JobEnds(s, Dispatch(s, j, status, result, message, meta, clock), r, j);
  }

  lemma ReceivedTidy(s: Store, j: nat, now: Time, r: nat)
    requires Tidy(s, r) && j < |s.jobs|
    ensures Tidy(Received(s, j, now), r)
  {
    var t := Received(s, j, now);
    if r < |s.requests| && CostOf(s, r) > 0 {
      forall i: nat ensures JobOf(t, i, r) <==> JobOf(s, i, r) { }
      forall i | JobOf(t, i, r) ensures SettledBy(t, r, i) { assert SettledBy(s, r, i); }
    }
  }

  lemma DeliverHere(s: Store, cb: Callback, raises: bool, clock: Clock, r: nat)
    requires Tidy(s, r) && PlainFor(s, Post(cb, raises, clock), r)
    requires Gate(s, cb) == Processed && s.jobs[cb.job].entity == PackEntity(r)
    ensures Tidy(Deliver(s, cb, raises, clock), r)
  {
    var s1 := Received(s, cb.job, clock.now);
    ReceivedTidy(s, cb.job, clock.now, r);
    if !raises {
      DispatchStill(s1, cb.job, cb.status, cb.result, cb.message, cb.metadata, clock);
      if r < |s1.requests| && CostOf(s1, r) > 0 {
        DispatchEnds(s1, cb.job, r, cb.status, cb.result, cb.message, cb.metadata, clock);
      }
    }
  }

  lemma NoRowsYet(s: Store, r: nat, ws: WorkspaceId)
    requires Inv(s) && r >= |s.requests|
    ensures !Recorded(s.entries, ws, PackConsume(r)) && !Recorded(s.entries, ws, PackRelease(r))
  {
    forall i | 0 <= i < |s.entries| ensures RequestOf(s.entries[i].key) != Some(r) {
      assert RequestOf(s.entries[i].key) == Some(r) ==> SettlementRow(s, s.entries[i], r);
    }
  }

  predicate Failing(a: Attempt) {
    a.submission.NotConfigured? || a.submission.Rejected? || a.submission.TimedOut?
  }

  /** The job row after a failing submission, before the request is told. */
  function MarkedFailed(s: Store, j: nat, a: Attempt): Store
    requires j < |s.jobs| && Failing(a)
  {
    s.(jobs := s.jobs[j := s.jobs[j].(
      status := if a.submission.TimedOut? then Timeout else Failed, failedAt := Some(a.clock.now),
      errorMessage := a.submission.message)])
  }

  lemma FailingSubmission(s: Store, j: nat, r: nat, a: Attempt)
    requires j < |s.jobs| && SubjectOf(s, j) == PackSubject(r) && Failing(a)
    ensures var s1 := MarkedFailed(s, j, a);
      && SubjectOf(s1, j) == PackSubject(r)
      && Submit(s, j, a) == if Told(a) then
           Dispatch(s1, j, s1.jobs[j].status, EMPTY_RESULT, a.submission.message, map[], a.clock)
         else s1
  {
  }

  /** A failing submission settles its unsettled request exactly when telling the request
      succeeds: the reservation is then released, and is left standing otherwise. */
  lemma SubmissionSettlesIffTold(s: Store, j: nat, r: nat, a: Attempt)
    requires j < |s.jobs| && SubjectOf(s, j) == PackSubject(r) && CostOf(s, r) > 0 && Unsettled(s, r)
    requires Failing(a)
    ensures var t := Submit(s, j, a);
      && |t.requests| == |s.requests| && |t.jobs| == |s.jobs| && !Consumed(t, r)
      && (Released(t, r) <==> Told(a))
      && (Consumed(t, r) != Released(t, r) <==> Told(a))
      && (t.requests[r].status == s.requests[r].status || Told(a))
      && (Told(a) ==> t.requests[r].status != RequestQueued)
      && t.jobs == s.jobs[j := t.jobs[j]] && SameIdentity(s.jobs[j], t.jobs[j])
      && t.jobs[j].status == if a.submission.TimedOut? then Timeout else Failed
  {
    FailingSubmission(s, j, r, a);
    var s1 := MarkedFailed(s, j, a);
    if Told(a) {
      DispatchSettles(s1, j, r, s1.jobs[j].status, EMPTY_RESULT, a.submission.message, map[], a.clock);
    }
  }

  /** What a failing submission does to its request, in any store: if it is told, it settles it
      as a failure, whatever happened to it before; if not, it leaves it alone. */
  lemma SubmissionSettles(s: Store, j: nat, r: nat, a: Attempt)
    requires j < |s.jobs| && SubjectOf(s, j) == PackSubject(r) && Failing(a)
    ensures var t := Submit(s, j, a);
      && |t.requests| == |s.requests| && WorkspaceOf(t, r) == WorkspaceOf(s, r)
      && t.entries == (if Told(a) then Settle(s.entries, WorkspaceOf(s, r), r, CostOf(s, r), false) else s.entries)
      && t.requests[r].status == (if Told(a) then RequestFailed else s.requests[r].status)
      && t.shelf.outputs == if Told(a) then FailRows(s.shelf.outputs, r) else s.shelf.outputs
  {
    FailingSubmission(s, j, r, a);
    if Told(a) {
      var s1 := MarkedFailed(s, j, a);
      var status := s1.jobs[j].status;
      assert Dispatch(s1, j, status, EMPTY_RESULT, a.submission.message, map[], a.clock)
          == PackFailedWith(s1, j, r, status, a.submission.message, map[], a.clock);
    }
  }

  /** In any store whatever, a failing submission on a priced request leaves exactly one of the
      two rows if and only if it is told and the request was not consumed, or it is not told and
      exactly one was there already. */
  lemma SubmissionLeavesOneIff(s: Store, j: nat, r: nat, a: Attempt)
    requires j < |s.jobs| && SubjectOf(s, j) == PackSubject(r) && CostOf(s, r) > 0 && Failing(a)
    ensures var t := Submit(s, j, a);
      && r < |t.requests|
      && (Consumed(t, r) != Released(t, r) <==>
            if Told(a) then !Consumed(s, r) else Consumed(s, r) != Released(s, r))
  {
    SubmissionSettles(s, j, r, a);
    ExactlyOneIff(s.entries, WorkspaceOf(s, r), r, CostOf(s, r), false);
  }

  lemma SubmitPacks(s: Store, j: nat, a: Attempt)
    requires j < |s.jobs|
    ensures Submit(s, j, a).packs == s.packs
  {
    SubmitFair(s, j, a);
  }

  lemma SubmitTidy(s: Store, j: nat, r: nat, a: Attempt)
    requires r < |s.requests| && CostOf(s, r) > 0 && OneJobSettles(s, r) && JobOf(s, j, r)
    requires s.jobs[j].status == Queued && !a.submission.TimedOut?
    ensures var t := Submit(s, j, a);
      r < |t.requests| && OneJobSettles(t, r)
  {
    var t := Submit(s, j, a);
    assert SettledBy(s, r, j) && SubjectOf(s, j) == PackSubject(r);
    if Failing(a) {
      SubmissionSettlesIffTold(s, j, r, a);
      JobEnds(s, t, r, j);
    } else if t != s {
      JobEnds(s, t, r, j);
    }
  }

  lemma OpenTidy(s: Store, r: nat, a: Attempt)
    requires r < |s.requests| && CostOf(s, r) > 0 && Unsettled(s, r) && s.requests[r].status == RequestQueued
    requires NoTraceOf(s.jobs, r) && !a.submission.TimedOut?
    ensures var t := Open(s, PackRequestDraft(WorkspaceOf(s, r), r), a);
      r < |t.requests| && OneJobSettles(t, r) && t.packs == s.packs
  {
    var d, j := PackRequestDraft(WorkspaceOf(s, r), r), |s.jobs|;
    assert FindActive(s.jobs, d.workspace, EffectiveKey(d)).None?;
    if a.breaks.BeforeRow? {
      assert forall i :: 0 <= i < |s.jobs| ==> !JobOf(s, i, r);
    } else {
      var s1 := s.(jobs := s.jobs + [JobFrom(d)]);
      assert JobOf(s1, j, r) && forall i :: JobOf(s1, i, r) ==> i == j;
      SubmitTidy(s1, j, r, a);
      SubmitPacks(s1, j, a);
    }
  }

  lemma CreateTidy(s: Store, ws: WorkspaceId, p: nat, a: Attempt)
    requires Inv(s) && Tidy(s, |s.requests|) && PlainFor(s, RequestPack(ws, p, a), |s.requests|)
    ensures Tidy(CreateRequest(s, ws, p, a), |s.requests|)
  {
    var r := |s.requests|;
    if CreateRefusal(s, ws, p, a.clock.period).None? {
      var s1 := WithRequest(s, ws, p, a.clock.period);
      NewRequestUnsettled(s, ws, p, a.clock.period);
      if s.packs[p].cost > 0 {
        OpenTidy(s1, r, a);
        SameTidy(Open(s1, PackRequestDraft(ws, r), a), CreateRequest(s, ws, p, a), r);
      } else {
        OpenFair(s1, PackRequestDraft(ws, r), a);
      }
    }
  }

  lemma NewRequestUnsettled(s: Store, ws: WorkspaceId, p: nat, period: nat)
    requires Inv(s) && CreateRefusal(s, ws, p, period).None?
    ensures var t, r := WithRequest(s, ws, p, period), |s.requests|;
      && |t.requests| == r + 1 && WorkspaceOf(t, r) == ws && t.requests[r].pack == p && t.packs == s.packs
      && Unsettled(t, r) && t.requests[r].status == RequestQueued && t.jobs == s.jobs
  {
    var t := WithRequest(s, ws, p, period);
    NoRowsYet(s, |s.requests|, ws);
    if t.entries != s.entries { assert t.entries[..|t.entries| - 1] == s.entries; }
  }

  /** Creating a priced request whose submission fails leaves it released exactly when telling
      the request succeeded; otherwise it stays queued, its reservation standing. */
  lemma FailedCreationSettlesIffTold(s: Store, ws: WorkspaceId, p: nat, a: Attempt)
    requires Inv(s) && Tidy(s, |s.requests|) && CreateRefusal(s, ws, p, a.clock.period).None?
    requires s.packs[p].cost > 0 && Failing(a)
    ensures var t, r := CreateRequest(s, ws, p, a), |s.requests|;
      && r < |t.requests| && !Consumed(t, r) && (Released(t, r) <==> Told(a))
      && (t.requests[r].status == RequestQueued <==> !Told(a))
  {
    var r, d := |s.requests|, PackRequestDraft(ws, |s.requests|);
    var s1 := WithRequest(s, ws, p, a.clock.period);
    NewRequestUnsettled(s, ws, p, a.clock.period);
    assert FindActive(s1.jobs, d.workspace, EffectiveKey(d)).None?;
    var s2 := s1.(jobs := s1.jobs + [JobFrom(d)]);
    assert SubjectOf(s2, |s.jobs|) == PackSubject(r);
    SubmissionSettlesIffTold(s2, |s.jobs|, r, a);
  }

  lemma OpenStepTidy(s: Store, d: Draft, a: Attempt, r: nat)
    requires Tidy(s, r) && d.entity != PackEntity(r)
    requires r >= |s.requests| ==> EffectiveKey(d) != PackKey(r)
    ensures Tidy(Open(s, d, a), r)
  {
    OpenElsewhere(s, d, a, r);
    TidyElsewhere(s, Open(s, d, a), r);
  }

  /** Tidiness reads jobs, ledger, content packs and three columns of the request only. */
  lemma SameTidy(s: Store, t: Store, r: nat)
    requires Tidy(s, r) && t.jobs == s.jobs && t.entries == s.entries && t.packs == s.packs
    requires |t.requests| == |s.requests|
    requires r < |s.requests| ==> t.requests[r] == s.requests[r].(job := t.requests[r].job)
    ensures Tidy(t, r)
  {
    if r < |s.requests| && CostOf(s, r) > 0 {
      forall j: nat ensures JobOf(t, j, r) <==> JobOf(s, j, r) { }
      forall j | JobOf(t, j, r) ensures SettledBy(t, r, j) { assert SettledBy(s, r, j); }
    }
  }

  lemma ReportTidy(s: Store, ws: WorkspaceId, a: Attempt, r: nat)
    requires Tidy(s, r)
    ensures Tidy(CreateReport(s, ws, a), r)
  {
    var e := |s.reports|;
    var s1 := s.(reports := s.reports + [Document(ws, ReportQueued, None, map[], None)],
                 usage := Record(s.usage, UsageEvent(ws, ReportGenerated, e, 0, a.clock.period)));
    SameTidy(s, s1, r);
    OpenStepTidy(s1, ReportDraft(ws, e), a, r);
    if CreateReport(s, ws, a) != s { SameTidy(Open(s1, ReportDraft(ws, e), a), CreateReport(s, ws, a), r); }
  }

  lemma KitTidy(s: Store, ws: WorkspaceId, a: Attempt, r: nat)
    requires Tidy(s, r)
    ensures Tidy(CreateKit(s, ws, a), r)
  {
    var e := |s.kits|;
    var s1 := s.(kits := s.kits + [Document(ws, KitDraft, None, map[], None)],
                 usage := Record(s.usage, UsageEvent(ws, MediaKitGenerated, e, 0, a.clock.period)));
    SameTidy(s, s1, r);
    OpenStepTidy(s1, KitDraftOf(ws, e), a, r);
    SameTidy(Open(s1, KitDraftOf(ws, e), a), CreateKit(s, ws, a), r);
  }

  /** Cancelling writes no ledger row: the reservation of a cancelled job keeps standing. */
  lemma CancelTidy(s: Store, selection: set<nat>, now: Time, r: nat)
    requires Tidy(s, r)
    ensures Tidy(s.(jobs := CancelJobs(s.jobs, selection, now)), r)
  {
    var t := s.(jobs := CancelJobs(s.jobs, selection, now));
    forall i: nat ensures JobOf(t, i, r) <==> JobOf(s, i, r) { }
    if r < |s.requests| && CostOf(s, r) > 0 {
      assert forall j :: 0 <= j < |t.jobs| && !JobOf(t, j, r) ==> !JobOf(s, j, r);
      forall j | JobOf(t, j, r) ensures SettledBy(t, r, j) { assert SettledBy(s, r, j); }
    }
  }

  /** Billing, configuration and references elsewhere. */
  lemma PlainStepElsewhere(s: Store, step: Step, r: nat)
    requires Inv(s) && Tidy(s, r) && PlainFor(s, step, r)
    requires step.Bill? || step.SetLimit? || step.AddPack? || step.EditPack? || step.AddReference?
    ensures Tidy(Next(s, step), r)
  {
    if r < |s.requests| { assert RequestMetered(s, r); }
    TidyElsewhere(s, Next(s, step), r);
  }

  lemma NextTidy(s: Store, step: Step, r: nat)
    requires Inv(s) && Tidy(s, r) && PlainFor(s, step, r)
    ensures Tidy(Next(s, step), r)
  {
    match step {
      case RequestPack(ws, p, a) =>
        if r == |s.requests| { CreateTidy(s, ws, p, a); } else { CreateElsewhere(s, ws, p, a, r); }
      case RequestReport(ws, a) => ReportTidy(s, ws, a, r);
      case RequestKit(ws, a) => KitTidy(s, ws, a, r);
      case OpenJob(d, a) => OpenStepTidy(s, d.(retryCount := 0), a, r);
      case RetryJob(j, a) =>
        if CanRetry(s, j) { RetryTidy(s, j, a, r); }
      case Cancel(sel, now) => CancelTidy(s, sel, now, r);
      case Post(cb, raises, clock) => DeliverTidy(s, cb, raises, clock, r);
      case _ => PlainStepElsewhere(s, step, r);
    }
  }

  lemma RetryTidy(s: Store, j: nat, a: Attempt, r: nat)
    requires Tidy(s, r) && CanRetry(s, j) && s.jobs[j].entity != PackEntity(r)
    ensures Tidy(Open(s, RetryDraft(s.jobs[j], j), a), r)
  {
    OpenStepTidy(s, RetryDraft(s.jobs[j], j), a, r);
  }

  lemma {:induction false} RunTidy(s: Store, steps: seq<Step>, r: nat)
    requires Inv(s) && Tidy(s, r) && PlainRun(s, steps, r)
    ensures Tidy(RunSteps(s, steps), r)
  {
    if steps != [] {
      RunTidy(s, steps[..|steps| - 1], r);
      RunKeeps(s, steps[..|steps| - 1]);
      NextTidy(RunSteps(s, steps[..|steps| - 1]), steps[|steps| - 1], r);
    }
  }

  /** Consume and release never both exist, and one of them exists exactly when the request is
      no longer queued. */
  predicate SettledOnce(s: Store, r: nat)
    requires r < |s.requests|
  {
    && !(Consumed(s, r) && Released(s, r))
    && (Consumed(s, r) != Released(s, r) <==> s.requests[r].status != RequestQueued)
  }

  /** While the job is open or once it is cancelled neither row exists; a completed job
      consumed, an expired one released, a partial one did one of the two, and a failed one
      released unless the request was never told. */
  predicate SettledAsJobSays(s: Store, r: nat, j: nat)
    requires r < |s.requests| && j < |s.jobs|
  {
    var status := s.jobs[j].status;
    && (!Terminal(status) || status == Cancelled ==> Unsettled(s, r))
    && (status == Completed ==> Consumed(s, r))
    && (status == PartiallyCompleted ==> Consumed(s, r) != Released(s, r))
    && (status == Expired ==> Released(s, r))
    && (status == Failed ==> (Released(s, r) <==> s.requests[r].status != RequestQueued))
  }

  lemma TidyMeans(s: Store, r: nat)
    requires r < |s.requests| && OneJobSettles(s, r)
    ensures SettledOnce(s, r)
    ensures forall j: nat :: JobOf(s, j, r) ==> SettledAsJobSays(s, r, j)
  {
    if exists j: nat :: JobOf(s, j, r) {
      var j: nat :| JobOf(s, j, r);
      assert SettledBy(s, r, j);
    }
    forall j: nat | JobOf(s, j, r) ensures SettledAsJobSays(s, r, j) {
      assert SettledBy(s, r, j);
    }
  }

  /** Exact settlement, along every plain run, failed submissions and cancellations included. */
  lemma ExactlyOneSettlement(c: Outputs.Catalogue, steps: seq<Step>, r: nat)
    requires PlainRun(EmptyStore(c), steps, r)
    requires r < |RunSteps(EmptyStore(c), steps).requests| && CostOf(RunSteps(EmptyStore(c), steps), r) > 0
    ensures var s := RunSteps(EmptyStore(c), steps);
      SettledOnce(s, r) && forall j: nat :: JobOf(s, j, r) ==> SettledAsJobSays(s, r, j)
  {
    RunTidy(EmptyStore(c), steps, r);
    TidyMeans(RunSteps(EmptyStore(c), steps), r);
  }

  /** The deciding callback of such a run consumes exactly when it keeps the credits. */
  lemma DecidingCallback(c: Outputs.Catalogue, steps: seq<Step>, r: nat, cb: Callback, clock: Clock)
    requires PlainRun(EmptyStore(c), steps, r)
    requires var s := RunSteps(EmptyStore(c), steps);
      r < |s.requests| && CostOf(s, r) > 0 && JobOf(s, cb.job, r) && Gate(s, cb) == Processed
    ensures var s := RunSteps(EmptyStore(c), steps);
      var t := Deliver(s, cb, false, clock);
      && r < |t.requests|
      && (Consumed(t, r) <==> Keeps(cb.status, cb.result))
      && (Released(t, r) <==> !Consumed(t, r))
  {
    RunTidy(EmptyStore(c), steps, r);
    DecidingDelivery(RunSteps(EmptyStore(c), steps), r, cb, clock);
  }

  lemma DecidingDelivery(s: Store, r: nat, cb: Callback, clock: Clock)
    requires r < |s.requests| && OneJobSettles(s, r)
    requires CostOf(s, r) > 0 && JobOf(s, cb.job, r) && Gate(s, cb) == Processed
    ensures var t := Deliver(s, cb, false, clock);
      && r < |t.requests|
      && (Consumed(t, r) <==> Keeps(cb.status, cb.result))
      && (Released(t, r) <==> !Consumed(t, r))
  {
    var s1 := Received(s, cb.job, clock.now);
    assert SettledBy(s, r, cb.job);
    assert SubjectOf(s1, cb.job) == PackSubject(r);
    DispatchSettles(s1, cb.job, r, cb.status, cb.result, cb.message, cb.metadata, clock);
  }

  // ---------------------------------------------------------------- outside them

  /** In any store whatever, a processed callback on a priced request leaves exactly one of the
      two rows if and only if the other kind did not exist before it. */
  lemma DeliveryLeavesOneIff(s: Store, cb: Callback, clock: Clock, r: nat)
    requires Gate(s, cb) == Processed && SubjectOf(s, cb.job) == PackSubject(r) && CostOf(s, r) > 0
    ensures var t := Deliver(s, cb, false, clock);
      && r < |t.requests|
      && (Consumed(t, r) != Released(t, r) <==>
            if Keeps(cb.status, cb.result) then !Released(s, r) else !Consumed(s, r))
  {
    DeliverySettles(s, cb, clock, r);
    ExactlyOneIff(s.entries, WorkspaceOf(s, r), r, CostOf(s, r), Keeps(cb.status, cb.result));
  }

  lemma DeliverySettles(s: Store, cb: Callback, clock: Clock, r: nat)
    requires Gate(s, cb) == Processed && SubjectOf(s, cb.job) == PackSubject(r)
    ensures var t := Deliver(s, cb, false, clock);
      && |t.requests| == |s.requests| && WorkspaceOf(t, r) == WorkspaceOf(s, r)
      && t.entries == Settle(s.entries, WorkspaceOf(s, r), r, CostOf(s, r), Keeps(cb.status, cb.result))
      && (cb.status == Completed || cb.status == Running ==> t.requests[r].status == RequestCompleted)
      && t.jobs == s.jobs[cb.job := t.jobs[cb.job]] && t.jobs[cb.job].status == cb.status
      && SameIdentity(s.jobs[cb.job], t.jobs[cb.job])
  {
    var s1 := Received(s, cb.job, clock.now);
    assert SubjectOf(s1, cb.job) == PackSubject(r);
    DispatchPack(s1, cb.job, r, cb.status, cb.result, cb.message, cb.metadata, clock);
  }

  lemma CompletionConsumes(s: Store, cb: Callback, clock: Clock, r: nat)
    requires Gate(s, cb) == Processed && SubjectOf(s, cb.job) == PackSubject(r)
    requires CostOf(s, r) > 0 && Released(s, r) && cb.status == Completed
    ensures var t := Deliver(s, cb, false, clock);
      r < |t.requests| && t.requests[r].status == RequestCompleted && Consumed(t, r) && Released(t, r)
  {
    DeliverySettles(s, cb, clock, r);
    SettlementAdds(s.entries, WorkspaceOf(s, r), r, CostOf(s, r), true);
  }

  lemma FailedSubmissionReleases(s: Store, j: nat, r: nat, a: Attempt)
    requires j < |s.jobs| && SubjectOf(s, j) == PackSubject(r) && CostOf(s, r) > 0 && Failing(a) && Told(a)
    ensures var t := Submit(s, j, a);
      && r < |t.requests| && Released(t, r) && (Consumed(t, r) <==> Consumed(s, r))
      && t.requests[r].status == RequestFailed && t.shelf.outputs == FailRows(s.shelf.outputs, r)
  {
    SubmissionSettles(s, j, r, a);
    SettlementAdds(s.entries, WorkspaceOf(s, r), r, CostOf(s, r), false);
  }

  /** A retry can undo a charge: if a job of a request that was delivered and charged is still
      retryable, say because it was cancelled before another one completed, and its retry's
      submission fails and is told, the request is failed, its outputs are marked failed, and
      the release beside the consume row leaves it with a net of zero. */
  lemma FailedRetryUndoesCharge(s: Store, j: nat, r: nat, a: Attempt)
    requires Inv(s) && Fair(s) && CanRetry(s, j) && SubjectOf(s, j) == PackSubject(r) && CostOf(s, r) > 0
    requires FindActive(s.jobs, s.jobs[j].workspace, EffectiveKey(RetryDraft(s.jobs[j], j))).None?
    requires Consumed(s, r) && Failing(a) && Told(a)
    ensures var t := Retry(s, j, a);
      && r < |t.requests| && Consumed(t, r) && Released(t, r)
      && t.requests[r].status == RequestFailed && t.shelf.outputs == FailRows(s.shelf.outputs, r)
      && NetOf(t.entries, WorkspaceOf(t, r), r) == 0
  {
    var d := RetryDraft(s.jobs[j], j);
    var s1 := s.(jobs := s.jobs + [JobFrom(d)]);
    assert SubjectOf(s1, |s.jobs|) == PackSubject(r);
    FailedSubmissionReleases(s1, |s.jobs|, r, a);
    OpenKeeps(s, d, a);
    OpenKeepsFair(s, d, a);
    ReleasedNetsNothing(Retry(s, j, a), r);
  }

  // ---------------------------------------------------------------- prices

  /** A handled callback that releases leaves the request with a positive net, credits from
      nowhere, exactly when its content pack has become dearer than it was at creation. */
  lemma DeliveryMintsIffDearer(s: Store, cb: Callback, clock: Clock, r: nat)
    requires Inv(s) && Gate(s, cb) == Processed && SubjectOf(s, cb.job) == PackSubject(r)
    requires !Keeps(cb.status, cb.result) && !Released(s, r)
    ensures var t := Deliver(s, cb, false, clock);
      && r < |t.requests| && RequestMetered(s, r)
      && (NetOf(t.entries, WorkspaceOf(t, r), r) > 0
          <==> CostOf(s, r) > PriceAtCreation(s, r) && CostOf(s, r) > 0)
  {
    DeliverySettles(s, cb, clock, r);
    ReleaseMintsIffDearer(s, s.(entries := Deliver(s, cb, false, clock).entries), r);
  }

  /** So does a failing submission that is told. */
  lemma SubmissionMintsIffDearer(s: Store, j: nat, r: nat, a: Attempt)
    requires Inv(s) && j < |s.jobs| && !Terminal(s.jobs[j].status) && SubjectOf(s, j) == PackSubject(r)
    requires Failing(a) && Told(a) && !Released(s, r)
    ensures var t := Submit(s, j, a);
      && r < |t.requests| && RequestMetered(s, r)
      && (NetOf(t.entries, WorkspaceOf(t, r), r) > 0
          <==> CostOf(s, r) > PriceAtCreation(s, r) && CostOf(s, r) > 0)
  {
    SubmissionSettles(s, j, r, a);
    ReleaseMintsIffDearer(s, s.(entries := Submit(s, j, a).entries), r);
  }

  // ---------------------------------------------------------------- completing after a release

  /** Whatever released a request before, a submission that timed out, a failed job since
      retried or a callback that did not end the job, a later completion costs nothing: the
      request is completed, both rows exist, and their sum with the reservation is zero. */
  lemma CompletionAfterReleaseIsFree(s: Store, cb: Callback, clock: Clock, r: nat)
    requires Inv(s) && Fair(s) && Gate(s, cb) == Processed && SubjectOf(s, cb.job) == PackSubject(r)
    requires CostOf(s, r) > 0 && Released(s, r) && cb.status == Completed
    ensures var t := Deliver(s, cb, false, clock);
      && r < |t.requests| && t.requests[r].status == RequestCompleted && Consumed(t, r) && Released(t, r)
      && NetOf(t.entries, WorkspaceOf(t, r), r) == 0
  {
    CompletionConsumes(s, cb, clock, r);
    DeliverKeeps(s, cb, false, clock);
    DeliverFair(s, cb, false, clock);
    ReleasedNetsNothing(Deliver(s, cb, false, clock), r);
  }

  lemma ReleasedNetsNothing(s: Store, r: nat)
    requires Inv(s) && Fair(s) && r < |s.requests| && Released(s, r)
    ensures NetOf(s.entries, WorkspaceOf(s, r), r) == 0
  {
    RequestNetsItsCharge(s, r);
  }

  lemma RunningReleases(s: Store, running: Callback, r: nat, clock: Clock)
    requires Gate(s, running) == Processed && SubjectOf(s, running.job) == PackSubject(r)
    requires CostOf(s, r) > 0 && Unsettled(s, r) && running.status == Running && running.result == EMPTY_RESULT
    ensures var t := Deliver(s, running, false, clock);
      r < |t.requests| && t.requests[r].status == RequestCompleted && Released(t, r) && !Consumed(t, r)
  {
    DeliverySettles(s, running, clock, r);
    SettlementAdds(s.entries, WorkspaceOf(s, r), r, CostOf(s, r), false);
  }

  /** A job that is running may still be completed, at the same cost. */
  lemma RunningLeavesOpen(s: Store, running: Callback, r: nat, clock: Clock)
    requires Gate(s, running) == Processed && SubjectOf(s, running.job) == PackSubject(r) && running.status == Running
    ensures var t := Deliver(s, running, false, clock);
      && running.job < |t.jobs| && SubjectOf(t, running.job) == PackSubject(r) && CostOf(t, r) == CostOf(s, r)
      && Gate(t, running.(status := Completed)) == Processed
  {
    DeliverySettles(s, running, clock, r);
    DispatchStill(Received(s, running.job, clock.now), running.job, Running, running.result, running.message,
                  running.metadata, clock);
  }

  /** A callback that does not end the job, such as `running` with no outputs, still reaches
      the success handler: it releases the reservation and marks the request completed. A
      later `completed` then adds a consume entry beside the release: the content was free. */
  lemma RunningThenCompletedIsFree(s: Store, running: Callback, r: nat, clock: Clock)
    requires Inv(s) && Fair(s) && Gate(s, running) == Processed && SubjectOf(s, running.job) == PackSubject(r)
    requires CostOf(s, r) > 0 && Unsettled(s, r) && running.status == Running && running.result == EMPTY_RESULT
    ensures var s1 := Deliver(s, running, false, clock);
      var s2 := Deliver(s1, running.(status := Completed), false, clock);
      && r < |s1.requests| && s1.requests[r].status == RequestCompleted && Released(s1, r) && !Consumed(s1, r)
      && r < |s2.requests| && Released(s2, r) && Consumed(s2, r)
      && NetOf(s2.entries, WorkspaceOf(s2, r), r) == 0
  {
    RunningReleases(s, running, r, clock);
    RunningLeavesOpen(s, running, r, clock);
    DeliverKeeps(s, running, false, clock);
    DeliverFair(s, running, false, clock);
    CompletionAfterReleaseIsFree(Deliver(s, running, false, clock), running.(status := Completed), clock, r);
  }
}
