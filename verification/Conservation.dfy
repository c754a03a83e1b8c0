/** Credit conservation: what the ledger entries of a request add up to, in every run. */
module Conservation {
  import opened Prelude
  import opened Ledger
  import opened Usage
  import opened Jobs
  import opened Settlement
  import opened Invariants
  import Outputs

  // ---------------------------------------------------------------- sums

  /** Credits moved by callers' own operations: grants, purchases and the like. */
  function Direct(es: seq<Entry>, ws: WorkspaceId): int {
    if es == [] then 0
    else
      var e := es[|es| - 1];
      Direct(es[..|es| - 1], ws) + if e.workspace == ws && RequestOf(e.key).None? then e.amount else 0
  }

  /** Net effect of request r on the workspace's balance. */
  function NetOf(es: seq<Entry>, ws: WorkspaceId, r: nat): int {
    if es == [] then 0
    else
      var e := es[|es| - 1];
      NetOf(es[..|es| - 1], ws, r) + if e.workspace == ws && RequestOf(e.key) == Some(r) then e.amount else 0
  }

  function NetsBelow(es: seq<Entry>, ws: WorkspaceId, n: nat): int {
    if n == 0 then 0 else NetsBelow(es, ws, n - 1) + NetOf(es, ws, n - 1)
  }

  lemma {:induction false} NetsOfNothing(ws: WorkspaceId, n: nat)
    ensures NetsBelow([], ws, n) == 0
  {
    if n > 0 { NetsOfNothing(ws, n - 1); }
  }

  lemma {:induction false} NetsGrow(es: seq<Entry>, ws: WorkspaceId, n: nat)
    requires es != []
    ensures var e := es[|es| - 1];
      NetsBelow(es, ws, n) == NetsBelow(es[..|es| - 1], ws, n)
        + if e.workspace == ws && RequestOf(e.key).Some? && RequestOf(e.key).value < n then e.amount else 0
  {
    if n > 0 { NetsGrow(es, ws, n - 1); }
  }

  /** A workspace's balance splits into direct movements and the nets of its requests. */
  lemma {:induction false} BalanceSplits(es: seq<Entry>, ws: WorkspaceId, n: nat)
    requires forall i :: 0 <= i < |es| && RequestOf(es[i].key).Some? ==> RequestOf(es[i].key).value < n
    ensures Balance(es, ws) == Direct(es, ws) + NetsBelow(es, ws, n)
  {
    if es == [] { NetsOfNothing(ws, n); }
    else {
      BalanceSplits(es[..|es| - 1], ws, n);
      NetsGrow(es, ws, n);
    }
  }

  /** The amount under a key, zero if it was never recorded. */
  function AmountUnder(es: seq<Entry>, ws: WorkspaceId, key: Key): int {
    match Lookup(es, ws, key)
    case Some(i) => es[i].amount
    case None => 0
  }

  lemma AmountUnderGrows(es: seq<Entry>, ws: WorkspaceId, key: Key)
    requires es != [] && UniqueKeys(es) && key != NoKey
    ensures var e := es[|es| - 1];
      AmountUnder(es, ws, key) == AmountUnder(es[..|es| - 1], ws, key)
        + if e.workspace == ws && e.key == key then e.amount else 0
  {
    var front, e := es[..|es| - 1], es[|es| - 1];
    if e.workspace == ws && e.key == key {
      assert forall i :: 0 <= i < |front| ==> !(front[i].workspace == ws && front[i].key == key);
    }
  }

  lemma {:induction false} NetIsThreeAmounts(es: seq<Entry>, ws: WorkspaceId, r: nat)
    requires UniqueKeys(es)
    ensures NetOf(es, ws, r) == AmountUnder(es, ws, PackReserve(r)) + AmountUnder(es, ws, PackConsume(r))
                              + AmountUnder(es, ws, PackRelease(r))
  {
    if es != [] {
      NetIsThreeAmounts(es[..|es| - 1], ws, r);
      AmountUnderGrows(es, ws, PackReserve(r));
      AmountUnderGrows(es, ws, PackConsume(r));
      AmountUnderGrows(es, ws, PackRelease(r));
    }
  }

  // ---------------------------------------------------------------- one request

  function WorkspaceOf(s: Store, r: nat): WorkspaceId
    requires r < |s.requests|
  {
    s.requests[r].workspace
  }

  function ReleasedAmount(s: Store, r: nat): int
    requires r < |s.requests|
  {
    AmountUnder(s.entries, WorkspaceOf(s, r), PackRelease(r))
  }

  function ReservedAmount(s: Store, r: nat): nat
    requires r < |s.requests| && s.requests[r].usageEvent < |s.usage|
  {
    if PriceAtCreation(s, r) > 0 then PriceAtCreation(s, r) else 0
  }

  /** In every reachable store a request nets minus its creation price plus what was released;
      it was reserved exactly once if priced, and consuming moves nothing. */
  lemma RequestNet(s: Store, r: nat)
    requires Inv(s) && r < |s.requests|
    ensures RequestMetered(s, r)
    ensures NetOf(s.entries, WorkspaceOf(s, r), r) == ReleasedAmount(s, r) - ReservedAmount(s, r)
    ensures Recorded(s.entries, WorkspaceOf(s, r), PackReserve(r)) <==> PriceAtCreation(s, r) > 0
    ensures ReleasedAmount(s, r) >= 0
  {
    var ws := WorkspaceOf(s, r);
    assert RequestMetered(s, r);
    NetIsThreeAmounts(s.entries, ws, r);
    SettlementRowAt(s, r, PackReserve(r));
    SettlementRowAt(s, r, PackConsume(r));
    SettlementRowAt(s, r, PackRelease(r));
  }

  lemma SettlementRowAt(s: Store, r: nat, key: Key)
    requires Inv(s) && r < |s.requests| && RequestOf(key) == Some(r)
    ensures var f := Lookup(s.entries, WorkspaceOf(s, r), key);
      f.Some? ==> SettlementRow(s, s.entries[f.value], r)
  {
    var f := Lookup(s.entries, WorkspaceOf(s, r), key);
    if f.Some? { assert RequestOf(s.entries[f.value].key) == Some(r); }
  }

  lemma ReleasedNow(es: seq<Entry>, ws: WorkspaceId, r: nat, cost: int)
    requires !Recorded(es, ws, PackRelease(r))
    ensures AmountUnder(Settle(es, ws, r, cost, false), ws, PackRelease(r)) == if cost > 0 then cost else 0
  {
  }

  /** The price is read again when the request is settled. A release mints credits exactly
      when its content pack has become dearer than it was when the request was created. */
  lemma ReleaseMintsIffDearer(s: Store, t: Store, r: nat)
    requires Inv(s) && r < |s.requests|
    requires t == s.(entries := Settle(s.entries, WorkspaceOf(s, r), r, CostOf(s, r), false))
    requires !Recorded(s.entries, WorkspaceOf(s, r), PackRelease(r))
    ensures RequestMetered(s, r)
    ensures NetOf(t.entries, WorkspaceOf(t, r), r) > 0
       <==> CostOf(s, r) > PriceAtCreation(s, r) && CostOf(s, r) > 0
  {
    SettleKeeps(s, r, false);
    ReleasedNow(s.entries, WorkspaceOf(s, r), r, CostOf(s, r));
    assert RequestMetered(s, r);
    RequestNet(t, r);
  }

  // ---------------------------------------------------------------- runs at fixed prices

  /** No step of the run changes the price of a content pack that has been requested. */
  ghost predicate PricesFixed(s: Store, steps: seq<Step>) {
    steps == [] ||
    (PricesFixed(s, steps[..|steps| - 1])
     && KeepsPrices(RunSteps(s, steps[..|steps| - 1]), steps[|steps| - 1]))
  }

  ghost predicate KeepsPrices(s: Store, step: Step) {
    step.EditPack? ==>
      forall r :: 0 <= r < |s.requests| && s.requests[r].pack == step.packId < |s.packs| ==>
        step.newPack.cost == CostOf(s, r)
  }

  ghost predicate SameCosts(s: Store, t: Store) {
    |s.requests| <= |t.requests| && forall r :: 0 <= r < |s.requests| ==> CostOf(t, r) == CostOf(s, r)
  }

  /** Every release appended between s and t was made at the request's price in s. */
  ghost predicate FairlyReleased(s: Store, t: Store) {
    s.entries <= t.entries && forall i :: |s.entries| <= i < |t.entries| && t.entries[i].key.PackRelease? ==>
      t.entries[i].key.request < |s.requests| && t.entries[i].amount == CostOf(s, t.entries[i].key.request)
  }

  ghost predicate PricesAgree(s: Store, r: nat)
    requires r < |s.requests|
  {
    && s.requests[r].usageEvent < |s.usage| && s.requests[r].pack < |s.packs|
    && PriceAtCreation(s, r) == CostOf(s, r)
    && forall i :: 0 <= i < |s.entries| && s.entries[i].key == PackRelease(r) ==> s.entries[i].amount == CostOf(s, r)
  }

  ghost predicate Fair(s: Store) {
    forall r :: 0 <= r < |s.requests| ==> PricesAgree(s, r)
  }

  lemma FairStep(s: Store, t: Store)
    requires Inv(s) && Fair(s) && Inv(t) && Evolves(s, t)
    requires SameCosts(s, t) && FairlyReleased(s, t)
    requires forall r :: |s.requests| <= r < |t.requests| ==>
               t.requests[r].usageEvent < |t.usage| && PriceAtCreation(t, r) == CostOf(t, r)
    ensures Fair(t)
  {
    forall r | 0 <= r < |t.requests| ensures PricesAgree(t, r) {
      assert RequestMetered(t, r);
      if r < |s.requests| {
        assert PricesAgree(s, r);
        assert PriceAtCreation(t, r) == PriceAtCreation(s, r);
      }
      forall i | 0 <= i < |t.entries| && t.entries[i].key == PackRelease(r)
        ensures t.entries[i].amount == CostOf(t, r)
      {
        if i < |s.entries| {
          assert SettlementRow(s, s.entries[i], r);
        }
      }
    }
  }

  lemma SettleFair(s: Store, r: nat, consume: bool)
    requires r < |s.requests|
    ensures var es := Settle(s.entries, WorkspaceOf(s, r), r, CostOf(s, r), consume);
      FairlyReleased(s, s.(entries := es))
  {
  }

  lemma PackFair(s: Store, j: nat, r: nat, status: JobStatus, ds: seq<Outputs.OutputData>, message: string,
                 meta: Meta, clock: Clock)
    requires j < |s.jobs| && r < |s.requests|
    ensures FairAndStill(s, PackSucceeded(s, j, r, status, ds, meta, clock))
    ensures FairAndStill(s, PackFailedWith(s, j, r, status, message, meta, clock))
  {
    SettleFair(s, r, ShouldConsume(status, ds));
    SettleFair(s, r, false);
  }

  /** Fair releases, the same packs and the same requests. */
  ghost predicate FairAndStill(s: Store, t: Store) {
    FairlyReleased(s, t) && t.packs == s.packs && |t.requests| == |s.requests|
    && RequestsEvolve(s.requests, t.requests)
  }

  lemma PackDispatchFair(s: Store, j: nat, status: JobStatus, result: CallbackResult, message: string,
                         meta: Meta, clock: Clock)
    requires j < |s.jobs| && SubjectOf(s, j).PackSubject?
    ensures FairAndStill(s, Dispatch(s, j, status, result, message, meta, clock))
  {
    PackFair(s, j, SubjectOf(s, j).request, status, result.outputs, message, meta, clock);
  }

  lemma ReportDispatchFair(s: Store, j: nat, status: JobStatus, result: CallbackResult, message: string,
                           meta: Meta, clock: Clock)
    requires j < |s.jobs| && SubjectOf(s, j).ReportSubject?
    ensures FairAndStill(s, Dispatch(s, j, status, result, message, meta, clock))
  {
  }

  lemma KitDispatchFair(s: Store, j: nat, status: JobStatus, result: CallbackResult, message: string,
                        meta: Meta, clock: Clock)
    requires j < |s.jobs| && SubjectOf(s, j).KitSubject?
    ensures FairAndStill(s, Dispatch(s, j, status, result, message, meta, clock))
  {
  }

  lemma DispatchFair(s: Store, j: nat, status: JobStatus, result: CallbackResult, message: string,
                     meta: Meta, clock: Clock)
    requires j < |s.jobs|
    ensures FairAndStill(s, Dispatch(s, j, status, result, message, meta, clock))
  {
    match SubjectOf(s, j) {
      case PackSubject(_) => PackDispatchFair(s, j, status, result, message, meta, clock);
      case ReportSubject(_) => ReportDispatchFair(s, j, status, result, message, meta, clock);
      case KitSubject(_) => KitDispatchFair(s, j, status, result, message, meta, clock);
      case NoSubject =>
    }
  }

  lemma SubmitFair(s: Store, j: nat, a: Attempt)
    requires j < |s.jobs|
    ensures FairAndStill(s, Submit(s, j, a))
  {
    match a.submission {
      case NotConfigured(m) => MarkFailedFair(s, j, Failed, m, a);
      case Rejected(m) => MarkFailedFair(s, j, Failed, m, a);
      case TimedOut(m) => MarkFailedFair(s, j, Timeout, m, a);
      case _ =>
    }
  }

  lemma MarkFailedFair(s: Store, j: nat, status: JobStatus, message: string, a: Attempt)
    requires j < |s.jobs|
    ensures FairAndStill(s, MarkSubmissionFailed(s, j, status, message, a))
  {
    var s1 := s.(jobs := s.jobs[j := s.jobs[j].(status := status, failedAt := Some(a.clock.now),
                                                errorMessage := message)]);
    DispatchFair(s1, j, status, EMPTY_RESULT, message, map[], a.clock);
  }

  lemma OpenFair(s: Store, d: Draft, a: Attempt)
    ensures FairAndStill(s, Open(s, d, a))
  {
    if FindActive(s.jobs, d.workspace, EffectiveKey(d)).None? {
      SubmitFair(s.(jobs := s.jobs + [JobFrom(d)]), |s.jobs|, a);
    }
  }

  lemma WithRequestFair(s: Store, ws: WorkspaceId, p: nat, period: nat)
    requires Inv(s) && Fair(s) && CreateRefusal(s, ws, p, period).None?
    ensures Fair(WithRequest(s, ws, p, period))
  {
    var t := WithRequest(s, ws, p, period);
    WithRequestKeeps(s, ws, p, period);
    assert FindEvent(s.usage, UsageEvent(ws, ContentPackRequested, |s.requests|, s.packs[p].cost, period)).None?;
    FairStep(s, t);
  }

  lemma OpenKeepsFair(s: Store, d: Draft, a: Attempt)
    requires Inv(s) && Fair(s)
    ensures Fair(Open(s, d, a))
  {
    OpenKeeps(s, d, a);
    OpenFair(s, d, a);
    FairStep(s, Open(s, d, a));
  }

  lemma LinkingKeepsFair(s: Store, t: Store)
    requires Fair(s) && t.entries == s.entries && t.usage == s.usage && t.packs == s.packs
    requires |t.requests| == |s.requests| && RequestsEvolve(s.requests, t.requests)
    ensures Fair(t)
  {
    forall r | 0 <= r < |t.requests| ensures PricesAgree(t, r) { assert PricesAgree(s, r); }
  }

  lemma CreateFair(s: Store, ws: WorkspaceId, p: nat, a: Attempt)
    requires Inv(s) && Fair(s)
    ensures Fair(CreateRequest(s, ws, p, a))
  {
    if CreateRefusal(s, ws, p, a.clock.period).None? {
      var s1, d := WithRequest(s, ws, p, a.clock.period), PackRequestDraft(ws, |s.requests|);
      WithRequestKeeps(s, ws, p, a.clock.period);
      WithRequestFair(s, ws, p, a.clock.period);
      OpenKeepsFair(s1, d, a);
      LinkingKeepsFair(Open(s1, d, a), CreateRequest(s, ws, p, a));
    }
  }

  lemma DocumentCreationFair(s: Store, s1: Store, d: Draft, a: Attempt, t: Store)
    requires Inv(s) && Fair(s) && Inv(s1) && Evolves(s, s1) && Inv(t) && Evolves(s, t)
    requires s1.entries == s.entries && s1.packs == s.packs && s1.requests == s.requests
    requires var s2 := Open(s1, d, a);
      t.entries == s2.entries && t.packs == s2.packs && t.requests == s2.requests
    ensures Fair(t)
  {
    OpenFair(s1, d, a);
    assert SameCosts(s, s1);
    FairStep(s, t);
  }

  lemma ReportFair(s: Store, ws: WorkspaceId, a: Attempt)
    requires Inv(s) && Fair(s)
    ensures Fair(CreateReport(s, ws, a))
  {
    CreateReportKeeps(s, ws, a);
    if !QuotaExceeded(s.usage, s.limits, ws, ReportGenerated, a.clock.period) {
      var event := UsageEvent(ws, ReportGenerated, |s.reports|, 0, a.clock.period);
      var reports := s.reports + [Document(ws, ReportQueued, None, map[], None)];
      DocumentRowKeeps(s, reports, s.kits, event);
      DocumentCreationFair(s, s.(reports := reports, usage := Record(s.usage, event)),
                           ReportDraft(ws, |s.reports|), a, CreateReport(s, ws, a));
    }
  }

  lemma KitFair(s: Store, ws: WorkspaceId, a: Attempt)
    requires Inv(s) && Fair(s)
    ensures Fair(CreateKit(s, ws, a))
  {
    CreateKitKeeps(s, ws, a);
    var event := UsageEvent(ws, MediaKitGenerated, |s.kits|, 0, a.clock.period);
    var kits := s.kits + [Document(ws, KitDraft, None, map[], None)];
    DocumentRowKeeps(s, s.reports, kits, event);
    DocumentCreationFair(s, s.(kits := kits, usage := Record(s.usage, event)),
                         KitDraftOf(ws, |s.kits|), a, CreateKit(s, ws, a));
  }

  lemma DeliverFair(s: Store, cb: Callback, raises: bool, clock: Clock)
    requires Inv(s) && Fair(s)
    ensures Fair(Deliver(s, cb, raises, clock))
  {
    DeliverKeeps(s, cb, raises, clock);
    if Gate(s, cb) == Processed && !raises {
      DispatchFair(Received(s, cb.job, clock.now), cb.job, cb.status, cb.result, cb.message, cb.metadata, clock);
    }
    FairStep(s, Deliver(s, cb, raises, clock));
  }

  /** Billing, configuration, references and cancellations. */
  lemma PlainStepFair(s: Store, step: Step)
    requires Inv(s) && Fair(s) && KeepsPrices(s, step)
    requires step.Bill? || step.SetLimit? || step.AddPack? || step.EditPack? || step.AddReference? || step.Cancel?
    ensures Fair(Next(s, step))
  {
    var t := Next(s, step);
    NextKeeps(s, step);
    forall r | 0 <= r < |s.requests| ensures CostOf(t, r) == CostOf(s, r) {
      assert RequestMetered(s, r);
    }
    FairStep(s, t);
  }

  lemma NextFair(s: Store, step: Step)
    requires Inv(s) && Fair(s) && KeepsPrices(s, step)
    ensures Fair(Next(s, step))
  {
    match step {
      case RequestPack(ws, p, a) => CreateFair(s, ws, p, a);
      case RequestReport(ws, a) => ReportFair(s, ws, a);
      case RequestKit(ws, a) => KitFair(s, ws, a);
      case OpenJob(d, a) => OpenKeepsFair(s, d.(retryCount := 0), a);
      case RetryJob(j, a) => if CanRetry(s, j) { OpenKeepsFair(s, RetryDraft(s.jobs[j], j), a); }
      case Post(cb, raises, clock) => DeliverFair(s, cb, raises, clock);
      case _ => PlainStepFair(s, step);
    }
  }

  lemma {:induction false} RunFair(s: Store, steps: seq<Step>)
    requires Inv(s) && Fair(s) && PricesFixed(s, steps)
    ensures Fair(RunSteps(s, steps))
  {
    if steps != [] {
      RunFair(s, steps[..|steps| - 1]);
      RunKeeps(s, steps[..|steps| - 1]);
      NextFair(RunSteps(s, steps[..|steps| - 1]), steps[|steps| - 1]);
    }
  }

  // ---------------------------------------------------------------- the conservation law

  predicate Released(s: Store, r: nat)
    requires r < |s.requests|
  {
    Recorded(s.entries, WorkspaceOf(s, r), PackRelease(r))
  }

  /** What request r still holds or has spent. */
  function Charge(s: Store, r: nat): nat
    requires r < |s.requests|
  {
    if CostOf(s, r) > 0 && !Released(s, r) then CostOf(s, r) else 0
  }

  /** Costs of the workspace's unreleased requests among the first n. */
  function Outstanding(s: Store, ws: WorkspaceId, n: nat): nat
    requires n <= |s.requests|
  {
    if n == 0 then 0
    else Outstanding(s, ws, n - 1) + if WorkspaceOf(s, n - 1) == ws then Charge(s, n - 1) else 0
  }

  /** A request's entries sum to minus its cost or to nothing, and to nothing exactly when it
      was released or is free. */
  lemma RequestNetsItsCharge(s: Store, r: nat)
    requires Inv(s) && Fair(s) && r < |s.requests|
    ensures NetOf(s.entries, WorkspaceOf(s, r), r) == -(Charge(s, r) as int)
  {
    RequestNet(s, r);
    assert PricesAgree(s, r);
    SettlementRowAt(s, r, PackRelease(r));
  }

  lemma {:induction false} ForeignNet(es: seq<Entry>, ws: WorkspaceId, r: nat)
    requires forall i :: 0 <= i < |es| && RequestOf(es[i].key) == Some(r) ==> es[i].workspace != ws
    ensures NetOf(es, ws, r) == 0
  {
    if es != [] { ForeignNet(es[..|es| - 1], ws, r); }
  }

  /** What settlements moved on the workspace's balance: for each of the first n requests what
      was released minus what was reserved. */
  function Moved(s: Store, ws: WorkspaceId, n: nat): int
    requires n <= |s.requests| && forall r :: 0 <= r < n ==> s.requests[r].usageEvent < |s.usage|
  {
    if n == 0 then 0
    else
      Moved(s, ws, n - 1)
      + if WorkspaceOf(s, n - 1) == ws then ReleasedAmount(s, n - 1) - ReservedAmount(s, n - 1) else 0
  }

  lemma EventsExist(s: Store)
    requires Inv(s)
    ensures forall r :: 0 <= r < |s.requests| ==> s.requests[r].usageEvent < |s.usage|
  {
    forall r | 0 <= r < |s.requests| ensures s.requests[r].usageEvent < |s.usage| {
      assert RequestMetered(s, r);
    }
  }

  lemma {:induction false} NetsAreMoved(s: Store, ws: WorkspaceId, n: nat)
    requires Inv(s) && n <= |s.requests| && forall r :: 0 <= r < n ==> s.requests[r].usageEvent < |s.usage|
    ensures NetsBelow(s.entries, ws, n) == Moved(s, ws, n)
  {
    if n > 0 {
      NetsAreMoved(s, ws, n - 1);
      if WorkspaceOf(s, n - 1) == ws {
        RequestNet(s, n - 1);
      } else {
        forall i | 0 <= i < |s.entries| && RequestOf(s.entries[i].key) == Some(n - 1)
          ensures s.entries[i].workspace != ws
        {
          assert SettlementRow(s, s.entries[i], n - 1);
        }
        ForeignNet(s.entries, ws, n - 1);
      }
    }
  }

  lemma {:induction false} MovedIsOutstanding(s: Store, ws: WorkspaceId, n: nat)
    requires Inv(s) && Fair(s) && n <= |s.requests| && forall r :: 0 <= r < n ==> s.requests[r].usageEvent < |s.usage|
    ensures Moved(s, ws, n) == -(Outstanding(s, ws, n) as int)
  {
    if n > 0 {
      MovedIsOutstanding(s, ws, n - 1);
      RequestNet(s, n - 1);
      RequestNetsItsCharge(s, n - 1);
    }
  }

  /** Over every run whatsoever, price changes included: the balance is what callers added plus
      what was released to the workspace's requests minus what was reserved for them. */
  lemma BalanceInEveryRun(c: Outputs.Catalogue, steps: seq<Step>, ws: WorkspaceId)
    ensures var s := RunSteps(EmptyStore(c), steps);
      && (forall r :: 0 <= r < |s.requests| ==> s.requests[r].usageEvent < |s.usage|)
      && Balance(s.entries, ws) == Direct(s.entries, ws) + Moved(s, ws, |s.requests|)
      && Balance(s.entries, ws) >= 0
  {
    ReachableInv(c, steps);
    BalanceOfStore(RunSteps(EmptyStore(c), steps), ws);
  }

  lemma BalanceOfStore(s: Store, ws: WorkspaceId)
    requires Inv(s)
    ensures forall r :: 0 <= r < |s.requests| ==> s.requests[r].usageEvent < |s.usage|
    ensures Balance(s.entries, ws) == Direct(s.entries, ws) + Moved(s, ws, |s.requests|) >= 0
  {
    EventsExist(s);
    forall i | 0 <= i < |s.entries| && RequestOf(s.entries[i].key).Some?
      ensures RequestOf(s.entries[i].key).value < |s.requests|
    {
      assert SettlementRow(s, s.entries[i], RequestOf(s.entries[i].key).value);
    }
    BalanceSplits(s.entries, ws, |s.requests|);
    NetsAreMoved(s, ws, |s.requests|);
    SoundBalance(s.entries, ws);
  }

  /** Over every run in which the prices of requested content packs stay fixed, timeouts, late
      callbacks, retries and cancellations included: the balance is what callers added minus
      the costs of the requests not released, never negative, and no run mints credits. */
  lemma CreditsConserved(c: Outputs.Catalogue, steps: seq<Step>, ws: WorkspaceId)
    requires PricesFixed(EmptyStore(c), steps)
    ensures var s := RunSteps(EmptyStore(c), steps);
      && Balance(s.entries, ws) == Direct(s.entries, ws) - Outstanding(s, ws, |s.requests|)
      && 0 <= Balance(s.entries, ws) <= Direct(s.entries, ws)
      && forall r :: 0 <= r < |s.requests| ==>
           NetOf(s.entries, WorkspaceOf(s, r), r) == -(Charge(s, r) as int)
  {
    var s := RunSteps(EmptyStore(c), steps);
    ReachableInv(c, steps);
    RunFair(EmptyStore(c), steps);
    BalanceOfStore(s, ws);
    MovedIsOutstanding(s, ws, |s.requests|);
    forall r | 0 <= r < |s.requests|
      ensures NetOf(s.entries, WorkspaceOf(s, r), r) == -(Charge(s, r) as int)
    {
      RequestNetsItsCharge(s, r);
    }
  }

  // ---------------------------------------------------------------- after a release

  /** A release is for good: in every run at fixed prices that follows, later callbacks,
      retries and completions included, the request stays released and nets nothing. */
  lemma ReleasedStaysFree(s: Store, steps: seq<Step>, r: nat)
    requires Inv(s) && Fair(s) && r < |s.requests| && Released(s, r) && PricesFixed(s, steps)
    ensures var t := RunSteps(s, steps);
      r < |t.requests| && Released(t, r) && NetOf(t.entries, WorkspaceOf(t, r), r) == 0
  {
    var t := RunSteps(s, steps);
    RunKeeps(s, steps);
    RunFair(s, steps);
    RecordedInPrefix(s.entries, t.entries, WorkspaceOf(s, r), PackRelease(r));
    RequestNetsItsCharge(t, r);
  }
}
