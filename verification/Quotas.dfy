/** Request creation: all or nothing, one usage event per request, and the monthly quota. */
module Quotas {
  import opened Prelude
  import opened Ledger
  import opened Usage
  import opened Jobs
  import opened Settlement
  import opened Invariants
  import opened Conservation
  import Outputs

  /** The atomic part of an accepted creation adds exactly one request, one usage event and,
      for a priced pack, one reservation of the price. */
  lemma CreationAddsOneOfEach(s: Store, ws: WorkspaceId, p: nat, period: nat)
    requires Inv(s) && CreateRefusal(s, ws, p, period).None?
    ensures var t := WithRequest(s, ws, p, period);
      var r, cost := |s.requests|, s.packs[p].cost;
      && |t.requests| == r + 1 && t.requests[r].workspace == ws && t.requests[r].pack == p
      && t.usage == s.usage + [UsageEvent(ws, ContentPackRequested, r, cost, period)]
      && t.requests[r].usageEvent == |s.usage|
      && t.entries == if cost > 0 then
           s.entries + [Entry(ws, Reserve, -cost, Balance(s.entries, ws) - cost, PackReserve(r))]
         else s.entries
  {
    var r := |s.requests|;
    assert FindEvent(s.usage, UsageEvent(ws, ContentPackRequested, r, s.packs[p].cost, period)).None?;
    NotReservedYet(s, ws, |s.requests|);
  }

  lemma OpeningKeepsRequests(s: Store, ws: WorkspaceId, p: nat, a: Attempt)
    requires Inv(s) && CreateRefusal(s, ws, p, a.clock.period).None?
    ensures var s1, t := WithRequest(s, ws, p, a.clock.period), CreateRequest(s, ws, p, a);
      && |t.requests| == |s1.requests| && RequestsEvolve(s1.requests, t.requests) && s1.usage <= t.usage
  {
    var s1 := WithRequest(s, ws, p, a.clock.period);
    WithRequestKeeps(s, ws, p, a.clock.period);
    OpenFair(s1, PackRequestDraft(ws, |s.requests|), a);
    OpenKeeps(s1, PackRequestDraft(ws, |s.requests|), a);
  }

  /** A creation either is refused and changes nothing, or leaves one more request, which is
      reserved exactly when it is priced. */
  lemma CreationIsAllOrNothing(s: Store, ws: WorkspaceId, p: nat, a: Attempt)
    requires Inv(s)
    ensures var t := CreateRequest(s, ws, p, a);
      if CreateRefusal(s, ws, p, a.clock.period).Some? then t == s
      else
        && |t.requests| == |s.requests| + 1
        && t.requests[|s.requests|].workspace == ws && t.requests[|s.requests|].pack == p
        && (Recorded(t.entries, ws, PackReserve(|s.requests|)) <==> s.packs[p].cost > 0)
  {
    if CreateRefusal(s, ws, p, a.clock.period).None? {
      var t, r := CreateRequest(s, ws, p, a), |s.requests|;
      CreationAddsOneOfEach(s, ws, p, a.clock.period);
      OpeningKeepsRequests(s, ws, p, a);
      CreateRequestKeeps(s, ws, p, a);
      ReservedIffPriced(t, r);
    }
  }

  lemma ReservedIffPriced(s: Store, r: nat)
    requires Inv(s) && r < |s.requests|
    ensures s.requests[r].usageEvent < |s.usage|
    ensures Recorded(s.entries, WorkspaceOf(s, r), PackReserve(r)) <==> PriceAtCreation(s, r) > 0
  {
    RequestNet(s, r);
  }

  /** Credits missing for a priced pack refuse the request: nothing is charged or queued. */
  lemma TooPoorIsRefused(s: Store, ws: WorkspaceId, p: nat, a: Attempt)
    requires Inv(s) && p < |s.packs| && s.packs[p].cost > Balance(s.entries, ws)
    ensures CreateRequest(s, ws, p, a) == s
  {
    SoundBalance(s.entries, ws);
    NotReservedYet(s, ws, |s.requests|);
  }

  // ---------------------------------------------------------------- who may create

  /** The content pack exists, is active, and is global or the workspace's own. */
  predicate Offered(s: Store, ws: WorkspaceId, p: nat) {
    && p < |s.packs| && s.packs[p].active
    && match s.packs[p].workspace
       case None => true
       case Some(owner) => owner == ws
  }

  /** One more event of the type stays within the workspace's limit, if it has one. */
  ghost predicate WithinQuota(s: Store, ws: WorkspaceId, t: EventType, period: nat) {
    (ws, t) in s.limits ==> |EventsOf(s.usage, ws, t, period)| < s.limits[(ws, t)]
  }

  predicate Affordable(s: Store, ws: WorkspaceId, p: nat)
    requires p < |s.packs|
  {
    s.packs[p].cost <= 0 || s.packs[p].cost <= Balance(s.entries, ws)
  }

  ghost predicate Admitted(s: Store, ws: WorkspaceId, p: nat, period: nat) {
    Offered(s, ws, p) && WithinQuota(s, ws, ContentPackRequested, period) && Affordable(s, ws, p)
  }

  /** What the answer to a creation is, in the order of the checks. */
  lemma RefusalMeans(s: Store, ws: WorkspaceId, p: nat, period: nat)
    requires Inv(s)
    ensures var refusal := CreateRefusal(s, ws, p, period);
      && (refusal == Some(PackUnavailable) <==> !Offered(s, ws, p))
      && (refusal == Some(OverQuota) <==> Offered(s, ws, p) && !WithinQuota(s, ws, ContentPackRequested, period))
      && (refusal == Some(NoCredits) <==>
            Offered(s, ws, p) && WithinQuota(s, ws, ContentPackRequested, period) && !Affordable(s, ws, p))
      && (refusal == None <==> Admitted(s, ws, p, period))
  {
    CountIsCardinality(s.usage, ws, ContentPackRequested, period);
    NotReservedYet(s, ws, |s.requests|);
  }

  /** A creation adds one request, exactly when the content pack is offered, the quota not used
      up and the price covered; otherwise it changes nothing. */
  lemma CreatedIffAllowed(s: Store, ws: WorkspaceId, p: nat, a: Attempt)
    requires Inv(s)
    ensures var t := CreateRequest(s, ws, p, a);
      if Admitted(s, ws, p, a.clock.period) then |t.requests| == |s.requests| + 1 else t == s
  {
    RefusalMeans(s, ws, p, a.clock.period);
    CreationIsAllOrNothing(s, ws, p, a);
  }

  ghost predicate SameDocuments(s: Store, t: Store) {
    |t.reports| == |s.reports| && |t.kits| == |s.kits|
  }

  lemma PackDocuments(s: Store, j: nat, r: nat, status: JobStatus, ds: seq<Outputs.OutputData>, message: string,
                      meta: Meta, clock: Clock)
    requires j < |s.jobs| && r < |s.requests|
    ensures SameDocuments(s, PackSucceeded(s, j, r, status, ds, meta, clock))
    ensures SameDocuments(s, PackFailedWith(s, j, r, status, message, meta, clock))
  {
  }

  lemma DispatchDocuments(s: Store, j: nat, status: JobStatus, result: CallbackResult, message: string,
                          meta: Meta, clock: Clock)
    requires j < |s.jobs|
    ensures SameDocuments(s, Dispatch(s, j, status, result, message, meta, clock))
  {
    if SubjectOf(s, j).PackSubject? {
      PackDocuments(s, j, SubjectOf(s, j).request, status, result.outputs, message, meta, clock);
    }
  }

  lemma MarkFailedDocuments(s: Store, j: nat, status: JobStatus, message: string, a: Attempt)
    requires j < |s.jobs|
    ensures SameDocuments(s, MarkSubmissionFailed(s, j, status, message, a))
  {
    var s1 := s.(jobs := s.jobs[j := s.jobs[j].(status := status, failedAt := Some(a.clock.now),
                                                errorMessage := message)]);
    DispatchDocuments(s1, j, status, EMPTY_RESULT, message, map[], a.clock);
  }

  lemma OpenDocuments(s: Store, d: Draft, a: Attempt)
    ensures SameDocuments(s, Open(s, d, a))
  {
    var s1 := s.(jobs := s.jobs + [JobFrom(d)]);
    match a.submission {
      case NotConfigured(m) => MarkFailedDocuments(s1, |s.jobs|, Failed, m, a);
      case Rejected(m) => MarkFailedDocuments(s1, |s.jobs|, Failed, m, a);
      case TimedOut(m) => MarkFailedDocuments(s1, |s.jobs|, Timeout, m, a);
      case _ =>
    }
  }

  /** A report is created exactly when the quota is not used up. */
  lemma ReportCreatedIffWithinQuota(s: Store, ws: WorkspaceId, a: Attempt)
    ensures var t := CreateReport(s, ws, a);
      if WithinQuota(s, ws, ReportGenerated, a.clock.period) then |t.reports| == |s.reports| + 1
      else t == s
  {
    CountIsCardinality(s.usage, ws, ReportGenerated, a.clock.period);
    var e := |s.reports|;
    var s1 := s.(reports := s.reports + [Document(ws, ReportQueued, None, map[], None)],
                 usage := Record(s.usage, UsageEvent(ws, ReportGenerated, e, 0, a.clock.period)));
    OpenDocuments(s1, ReportDraft(ws, e), a);
  }

  /** In every reachable store, "its usage event" pairs the requests one to one with the
      `content_pack_requested` events. */
  lemma RequestsAndEventsPairUp(c: Outputs.Catalogue, steps: seq<Step>)
    ensures var s := RunSteps(EmptyStore(c), steps);
      && (forall r :: 0 <= r < |s.requests| ==>
            s.requests[r].usageEvent < |s.usage|
            && s.usage[s.requests[r].usageEvent].eventType == ContentPackRequested
            && s.usage[s.requests[r].usageEvent].entity == r)
      && (forall i :: 0 <= i < |s.usage| && s.usage[i].eventType == ContentPackRequested ==>
            s.usage[i].entity < |s.requests| && s.requests[s.usage[i].entity].usageEvent == i)
  {
    ReachableInv(c, steps);
    var s := RunSteps(EmptyStore(c), steps);
    forall r | 0 <= r < |s.requests|
      ensures s.requests[r].usageEvent < |s.usage|
            && s.usage[s.requests[r].usageEvent].eventType == ContentPackRequested
            && s.usage[s.requests[r].usageEvent].entity == r
    {
      assert RequestMetered(s, r);
    }
  }

  // ---------------------------------------------------------------- quota

  /** The workspace's limit for the event type is n throughout the run. */
  ghost predicate LimitFixed(s: Store, steps: seq<Step>, ws: WorkspaceId, t: EventType, n: nat) {
    && (ws, t) in s.limits && s.limits[(ws, t)] == n
    && forall k :: 0 <= k < |steps| && steps[k].SetLimit? ==> (steps[k].workspace, steps[k].eventType) != (ws, t)
  }

  /** No events of type t were appended. */
  ghost predicate NoneAdded(a: seq<UsageEvent>, b: seq<UsageEvent>, t: EventType) {
    a == b || (a <= b && |b| == |a| + 1 && b[|a|].eventType != t)
  }

  lemma CountKept(a: seq<UsageEvent>, b: seq<UsageEvent>, ws: WorkspaceId, t: EventType, period: nat)
    requires NoneAdded(a, b, t)
    ensures CountInPeriod(b, ws, t, period) == CountInPeriod(a, ws, t, period)
  {
    if a != b { assert b[..|b| - 1] == a; }
  }

  predicate Metering(t: EventType) {
    t == ContentPackRequested || t == ReportGenerated
  }

  /** Neither metered events nor limits change. */
  ghost predicate Unmetered(s: Store, t: Store, e: EventType) {
    NoneAdded(s.usage, t.usage, e) && t.limits == s.limits
  }

  lemma PackMeters(s: Store, j: nat, r: nat, status: JobStatus, ds: seq<Outputs.OutputData>, message: string,
                   meta: Meta, clock: Clock, t: EventType)
    requires j < |s.jobs| && r < |s.requests| && Metering(t)
    ensures Unmetered(s, PackSucceeded(s, j, r, status, ds, meta, clock), t)
    ensures Unmetered(s, PackFailedWith(s, j, r, status, message, meta, clock), t)
  {
  }

  lemma ReportMeters(s: Store, j: nat, e: nat, status: JobStatus, result: CallbackResult, message: string,
                     meta: Meta, clock: Clock, t: EventType)
    requires j < |s.jobs| && e < |s.reports|
    ensures Unmetered(s, ReportSucceeded(s, j, e, status, result, meta, clock), t)
    ensures Unmetered(s, ReportFailedWith(s, j, e, status, message, meta, clock), t)
  {
  }

  lemma KitMeters(s: Store, j: nat, e: nat, status: JobStatus, result: CallbackResult, message: string,
                  meta: Meta, clock: Clock, t: EventType)
    requires j < |s.jobs| && e < |s.kits|
    ensures Unmetered(s, KitSucceeded(s, j, e, status, result, meta, clock), t)
    ensures Unmetered(s, KitFailedWith(s, j, e, status, message, meta, clock), t)
  {
  }

  lemma DispatchMeters(s: Store, j: nat, status: JobStatus, result: CallbackResult, message: string,
                       meta: Meta, clock: Clock, t: EventType)
    requires j < |s.jobs| && Metering(t)
    ensures Unmetered(s, Dispatch(s, j, status, result, message, meta, clock), t)
  {
    match SubjectOf(s, j) {
      case PackSubject(r) => PackMeters(s, j, r, status, result.outputs, message, meta, clock, t);
      case ReportSubject(e) => ReportMeters(s, j, e, status, result, message, meta, clock, t);
      case KitSubject(e) => KitMeters(s, j, e, status, result, message, meta, clock, t);
      case NoSubject =>
    }
  }

  lemma OpenMeters(s: Store, d: Draft, a: Attempt, t: EventType)
    requires Metering(t)
    ensures NoneAdded(s.usage, Open(s, d, a).usage, t) && Open(s, d, a).limits == s.limits
  {
    if FindActive(s.jobs, d.workspace, EffectiveKey(d)).None? {
      var j, s1 := |s.jobs|, s.(jobs := s.jobs + [JobFrom(d)]);
      var status := if a.submission.TimedOut? then Timeout else Failed;
      if a.submission.NotConfigured? || a.submission.Rejected? || a.submission.TimedOut? {
        var m := a.submission.message;
        DispatchMeters(s1.(jobs := s1.jobs[j := s1.jobs[j].(status := status, failedAt := Some(a.clock.now),
                                                            errorMessage := m)]),
                       j, status, EMPTY_RESULT, m, map[], a.clock, t);
      }
    }
  }

  lemma RecordCounts(us: seq<UsageEvent>, e: UsageEvent, ws: WorkspaceId, t: EventType, period: nat)
    ensures CountInPeriod(Record(us, e), ws, t, period) <=
      CountInPeriod(us, ws, t, period) + if e.workspace == ws && e.eventType == t && e.period == period then 1 else 0
  {
    if Record(us, e) != us { assert Record(us, e)[..|us|] == us; }
  }

  lemma CreationWithinQuota(s: Store, w: WorkspaceId, p: nat, a: Attempt,
                            ws: WorkspaceId, t: EventType, period: nat, n: nat)
    requires Metering(t) && (ws, t) in s.limits && s.limits[(ws, t)] == n && CountInPeriod(s.usage, ws, t, period) <= n
    ensures var u := CreateRequest(s, w, p, a);
      CountInPeriod(u.usage, ws, t, period) <= n && u.limits == s.limits
  {
    if CreateRefusal(s, w, p, a.clock.period).None? {
      var s1 := WithRequest(s, w, p, a.clock.period);
      RecordCounts(s.usage, UsageEvent(w, ContentPackRequested, |s.requests|, s.packs[p].cost, a.clock.period),
                   ws, t, period);
      OpenMeters(s1, PackRequestDraft(w, |s.requests|), a, t);
      CountKept(s1.usage, CreateRequest(s, w, p, a).usage, ws, t, period);
    }
  }

  lemma ReportWithinQuota(s: Store, w: WorkspaceId, a: Attempt, ws: WorkspaceId, t: EventType, period: nat, n: nat)
    requires Metering(t) && (ws, t) in s.limits && s.limits[(ws, t)] == n && CountInPeriod(s.usage, ws, t, period) <= n
    ensures var u := CreateReport(s, w, a);
      CountInPeriod(u.usage, ws, t, period) <= n && u.limits == s.limits
  {
    if !QuotaExceeded(s.usage, s.limits, w, ReportGenerated, a.clock.period) {
      var e := |s.reports|;
      var event := UsageEvent(w, ReportGenerated, e, 0, a.clock.period);
      var s1 := s.(reports := s.reports + [Document(w, ReportQueued, None, map[], None)],
                   usage := Record(s.usage, event));
      RecordCounts(s.usage, event, ws, t, period);
      OpenMeters(s1, ReportDraft(w, e), a, t);
      CountKept(s1.usage, CreateReport(s, w, a).usage, ws, t, period);
    }
  }

  lemma KitWithinQuota(s: Store, w: WorkspaceId, a: Attempt, ws: WorkspaceId, t: EventType, period: nat)
    requires Metering(t)
    ensures var u := CreateKit(s, w, a);
      CountInPeriod(u.usage, ws, t, period) <= CountInPeriod(s.usage, ws, t, period) && u.limits == s.limits
  {
    var e := |s.kits|;
    var event := UsageEvent(w, MediaKitGenerated, e, 0, a.clock.period);
    var s1 := s.(kits := s.kits + [Document(w, KitDraft, None, map[], None)], usage := Record(s.usage, event));
    RecordCounts(s.usage, event, ws, t, period);
    OpenMeters(s1, KitDraftOf(w, e), a, t);
    CountKept(s1.usage, CreateKit(s, w, a).usage, ws, t, period);
  }

  lemma DeliveryMeters(s: Store, cb: Callback, raises: bool, clock: Clock, t: EventType)
    requires Metering(t)
    ensures Unmetered(s, Deliver(s, cb, raises, clock), t)
  {
    if Gate(s, cb) == Processed && !raises {
      DispatchMeters(Received(s, cb.job, clock.now), cb.job, cb.status, cb.result, cb.message, cb.metadata, clock, t);
    }
  }

  lemma NextWithinQuota(s: Store, step: Step, ws: WorkspaceId, t: EventType, period: nat, n: nat)
    requires Metering(t) && (ws, t) in s.limits && s.limits[(ws, t)] == n
    requires step.SetLimit? ==> (step.workspace, step.eventType) != (ws, t)
    requires CountInPeriod(s.usage, ws, t, period) <= n
    ensures CountInPeriod(Next(s, step).usage, ws, t, period) <= n
    ensures (ws, t) in Next(s, step).limits && Next(s, step).limits[(ws, t)] == n
  {
    match step {
      case RequestPack(w, p, a) => CreationWithinQuota(s, w, p, a, ws, t, period, n);
      case RequestReport(w, a) => ReportWithinQuota(s, w, a, ws, t, period, n);
      case RequestKit(w, a) => KitWithinQuota(s, w, a, ws, t, period);
      case OpenJob(d, a) =>
        OpenMeters(s, d.(retryCount := 0), a, t);
        CountKept(s.usage, Next(s, step).usage, ws, t, period);
      case RetryJob(j, a) =>
        if CanRetry(s, j) { OpenMeters(s, RetryDraft(s.jobs[j], j), a, t); }
        CountKept(s.usage, Next(s, step).usage, ws, t, period);
      case Post(cb, raises, clock) =>
        DeliveryMeters(s, cb, raises, clock, t);
        CountKept(s.usage, Next(s, step).usage, ws, t, period);
      case _ =>
    }
  }

  /** While a workspace's numeric limit on pack requests (or reports) stays n, no billing
      period's count ever passes n. */
  lemma {:induction false} QuotaHolds(s: Store, steps: seq<Step>, ws: WorkspaceId, t: EventType, period: nat, n: nat)
    requires Metering(t) && LimitFixed(s, steps, ws, t, n)
    requires CountInPeriod(s.usage, ws, t, period) <= n
    ensures CountInPeriod(RunSteps(s, steps).usage, ws, t, period) <= n
    ensures (ws, t) in RunSteps(s, steps).limits && RunSteps(s, steps).limits[(ws, t)] == n
  {
    if steps != [] {
      QuotaHolds(s, steps[..|steps| - 1], ws, t, period, n);
      NextWithinQuota(RunSteps(s, steps[..|steps| - 1]), steps[|steps| - 1], ws, t, period, n);
    }
  }
}
