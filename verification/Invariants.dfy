/** What every step of the settlement protocol keeps, and what it may never undo. */
module Invariants {
  import opened Prelude
  import opened Ledger
  import opened Usage
  import opened Jobs
  import opened Settlement
  import Outputs

  // ---------------------------------------------------------------- the invariant

  ghost predicate OneActiveJobPerKey(jobs: seq<Job>) {
    forall i, j :: 0 <= i < j < |jobs| && jobs[i].key != Blank
      && jobs[i].workspace == jobs[j].workspace && jobs[i].key == jobs[j].key
      ==> Terminal(jobs[i].status) || Terminal(jobs[j].status)
  }

  /** The price the request was created at, as its usage event recorded it. */
  function PriceAtCreation(s: Store, r: nat): int
    requires r < |s.requests| && s.requests[r].usageEvent < |s.usage|
  {
    s.usage[s.requests[r].usageEvent].costUnits
  }

  ghost predicate RequestMetered(s: Store, r: nat)
    requires r < |s.requests|
  {
    var req := s.requests[r];
    && req.pack < |s.packs|
    && req.usageEvent < |s.usage|
    && var e := s.usage[req.usageEvent];
       && e.workspace == req.workspace && e.eventType == ContentPackRequested && e.entity == r
       && (e.costUnits > 0 ==> Recorded(s.entries, req.workspace, PackReserve(r)))
  }

  /** A settlement row belongs to an existing request of its workspace and moves credits the
      way its kind says: minus the creation price, nothing, or plus something. */
  ghost predicate SettlementRow(s: Store, e: Entry, r: nat) {
    && r < |s.requests| && s.requests[r].usageEvent < |s.usage|
    && e.workspace == s.requests[r].workspace
    && match e.key
       case PackReserve(_) => e.kind == Reserve && e.amount == -PriceAtCreation(s, r) < 0
       case PackConsume(_) => e.kind == Consume && e.amount == 0
       case PackRelease(_) => e.kind == Release && e.amount > 0
       case _ => true
  }

  function RequestOf(k: Key): Option<nat> {
    match k
    case PackReserve(r) => Some(r)
    case PackConsume(r) => Some(r)
    case PackRelease(r) => Some(r)
    case _ => None
  }

  ghost predicate Metered(s: Store) {
    && (forall r :: 0 <= r < |s.requests| ==> RequestMetered(s, r))
    && (forall i :: 0 <= i < |s.usage| && s.usage[i].eventType == ContentPackRequested ==>
          s.usage[i].entity < |s.requests| && s.requests[s.usage[i].entity].usageEvent == i)
    && (forall i :: 0 <= i < |s.entries| && RequestOf(s.entries[i].key).Some? ==>
          SettlementRow(s, s.entries[i], RequestOf(s.entries[i].key).value))
  }

  /** Every row belongs to one of the first n requests and its asset exists. */
  ghost predicate RowsOwned(sh: Outputs.Shelf, n: nat) {
    forall i :: 0 <= i < |sh.outputs| ==>
      (sh.outputs[i].request < n && (sh.outputs[i].asset.Some? ==> sh.outputs[i].asset.value < |sh.assets|))
  }

  ghost predicate ShelfInOrder(s: Store) {
    Outputs.OneRowPerKey(s.shelf.outputs) && RowsOwned(s.shelf, |s.requests|)
  }

  ghost predicate NoDuplicateNotices(ns: seq<Notice>) {
    forall i, j :: 0 <= i < j < |ns| ==> ns[i] != ns[j]
  }

  ghost predicate Inv(s: Store) {
    Sound(s.entries) && Metered(s) && OneActiveJobPerKey(s.jobs) && ShelfInOrder(s)
    && NoDuplicateNotices(s.notices)
  }

  // ---------------------------------------------------------------- irreversibility

  predicate SameIdentity(a: Job, b: Job) {
    a.workspace == b.workspace && a.jobType == b.jobType && a.entity == b.entity && a.key == b.key
    && a.retryCount == b.retryCount
  }

  /** Jobs keep their identity, and terminal ones (but job `free`) keep their whole row. */
  ghost predicate JobsEvolve(a: seq<Job>, b: seq<Job>, free: int) {
    |a| <= |b| && forall i :: 0 <= i < |a| ==>
      SameIdentity(a[i], b[i]) && (i != free && Terminal(a[i].status) ==> b[i] == a[i])
  }

  ghost predicate RequestsEvolve(a: seq<Request>, b: seq<Request>) {
    |a| <= |b| && forall i :: 0 <= i < |a| ==>
      b[i].workspace == a[i].workspace && b[i].pack == a[i].pack && b[i].usageEvent == a[i].usageEvent
  }

  ghost predicate DocumentsEvolve(a: seq<Document>, b: seq<Document>) {
    |a| <= |b| && forall i :: 0 <= i < |a| ==>
      b[i].workspace == a[i].workspace && (a[i].asset.Some? ==> b[i].asset == a[i].asset)
  }

  ghost predicate EvolvesBut(s: Store, t: Store, free: int) {
    && s.entries <= t.entries && s.usage <= t.usage && s.notices <= t.notices
    && |s.packs| <= |t.packs|
    && RequestsEvolve(s.requests, t.requests)
    && DocumentsEvolve(s.reports, t.reports) && DocumentsEvolve(s.kits, t.kits)
    && Outputs.Grows(s.shelf, t.shelf)
    && JobsEvolve(s.jobs, t.jobs, free)
  }

  /** Nothing recorded is lost: ledger, usage and notices only grow, assets once linked stay
      linked, terminal jobs are frozen. */
  ghost predicate Evolves(s: Store, t: Store) {
    EvolvesBut(s, t, -1)
  }

  lemma EvolvesTransitive(s: Store, t: Store, u: Store, free: int)
    requires EvolvesBut(s, t, free) && EvolvesBut(t, u, free)
    ensures EvolvesBut(s, u, free)
  {
  }

  // ---------------------------------------------------------------- effects of the parts

  lemma MeteredGrows(s: Store, t: Store)
    requires Metered(s)
    requires s.usage == t.usage && RequestsEvolve(s.requests, t.requests) && |s.requests| == |t.requests|
    requires s.entries == t.entries && |s.packs| <= |t.packs|
    ensures Metered(t)
  {
    forall r | 0 <= r < |t.requests| ensures RequestMetered(t, r) { assert RequestMetered(s, r); }
    forall i | 0 <= i < |t.entries| && RequestOf(t.entries[i].key).Some?
      ensures SettlementRow(t, t.entries[i], RequestOf(t.entries[i].key).value)
    {
      assert SettlementRow(s, s.entries[i], RequestOf(s.entries[i].key).value);
    }
  }

  /** Ledger rows appended in good order keep the billing invariant. */
  lemma LedgerGrowthKeepsMetered(s: Store, es: seq<Entry>)
    requires Metered(s) && s.entries <= es
    requires forall i :: |s.entries| <= i < |es| && RequestOf(es[i].key).Some? ==>
               SettlementRow(s, es[i], RequestOf(es[i].key).value)
    ensures Metered(s.(entries := es))
  {
    var t := s.(entries := es);
    forall q | 0 <= q < |t.requests| ensures RequestMetered(t, q) {
      assert RequestMetered(s, q);
      if PriceAtCreation(s, q) > 0 {
        RecordedInPrefix(s.entries, es, s.requests[q].workspace, PackReserve(q));
      }
    }
    forall i | 0 <= i < |es| && RequestOf(es[i].key).Some?
      ensures SettlementRow(t, es[i], RequestOf(es[i].key).value)
    {
      assert SettlementRow(s, es[i], RequestOf(es[i].key).value);
    }
  }

  /** Settling keeps the ledger sound and appends at most one row, of the kind it settles. */
  lemma SettleAppends(es: seq<Entry>, ws: WorkspaceId, r: nat, cost: int, consume: bool)
    requires Sound(es)
    ensures var t := Settle(es, ws, r, cost, consume);
      && Sound(t) && es <= t
      && forall i :: |es| <= i < |t| ==>
           t[i].workspace == ws
           && if consume then t[i].key == PackConsume(r) && t[i].kind == Consume && t[i].amount == 0
              else t[i].key == PackRelease(r) && t[i].kind == Release && t[i].amount == cost > 0
  {
    if cost > 0 {
      ApplySound(es, if consume then Op(Consume, ws, cost, true, PackConsume(r))
                     else Op(Release, ws, cost, false, PackRelease(r)));
    }
  }

  lemma SettleKeeps(s: Store, r: nat, consume: bool)
    requires Sound(s.entries) && Metered(s) && r < |s.requests|
    ensures var es := Settle(s.entries, s.requests[r].workspace, r, CostOf(s, r), consume);
      Sound(es) && Metered(s.(entries := es)) && s.entries <= es
  {
    var ws, cost := s.requests[r].workspace, CostOf(s, r);
    assert RequestMetered(s, r);
    SettleAppends(s.entries, ws, r, cost, consume);
    LedgerGrowthKeepsMetered(s, Settle(s.entries, ws, r, cost, consume));
  }

  lemma RecordedInPrefix(a: seq<Entry>, b: seq<Entry>, ws: WorkspaceId, key: Key)
    requires a <= b && Recorded(a, ws, key)
    ensures Recorded(b, ws, key)
  {
    var i := Lookup(a, ws, key).value;
    assert b[i] == a[i];
  }

  lemma UpdateKeepsOneActive(jobs: seq<Job>, j: nat, job: Job)
    requires OneActiveJobPerKey(jobs) && j < |jobs| && SameIdentity(jobs[j], job)
    requires !Terminal(jobs[j].status) || Terminal(job.status)
    ensures OneActiveJobPerKey(jobs[j := job])
  {
  }

  lemma OtherUsageKeepsMetered(s: Store, e: UsageEvent)
    requires Metered(s) && e.eventType != ContentPackRequested
    ensures Metered(s.(usage := Record(s.usage, e)))
  {
    var t := s.(usage := Record(s.usage, e));
    forall r | 0 <= r < |t.requests| ensures RequestMetered(t, r) { assert RequestMetered(s, r); }
    forall i | 0 <= i < |t.entries| && RequestOf(t.entries[i].key).Some?
      ensures SettlementRow(t, t.entries[i], RequestOf(t.entries[i].key).value)
    {
      assert SettlementRow(s, s.entries[i], RequestOf(s.entries[i].key).value);
    }
  }

  lemma {:induction false} RowsStayOwned(sh: Outputs.Shelf, c: Outputs.Catalogue, owner: Outputs.Owner,
                                         ds: seq<Outputs.OutputData>, n: nat)
    requires owner.request < n && RowsOwned(sh, n)
    ensures RowsOwned(Outputs.UpsertAll(sh, c, owner, ds), n)
  {
    if ds != [] {
      RowsStayOwned(sh, c, owner, ds[..|ds| - 1], n);
      RowStaysOwned(Outputs.UpsertAll(sh, c, owner, ds[..|ds| - 1]), c, owner, ds[|ds| - 1], |ds| - 1, n);
    }
  }

  lemma RowStaysOwned(sh: Outputs.Shelf, c: Outputs.Catalogue, owner: Outputs.Owner,
                      d: Outputs.OutputData, index: nat, n: nat)
    requires owner.request < n && RowsOwned(sh, n)
    ensures RowsOwned(Outputs.Upsert(sh, c, owner, d, index), n)
  {
  }

  // ---------------------------------------------------------------- Dispatch

  /** The billing side of a successful pack callback, before the request row changes. */
  lemma PackSuccessMeters(s: Store, r: nat, consume: bool, produced: bool, period: nat)
    requires Inv(s) && r < |s.requests|
    ensures var ws := s.requests[r].workspace;
      var t := s.(entries := Settle(s.entries, ws, r, CostOf(s, r), consume),
                  usage := if produced then Record(s.usage, UsageEvent(ws, ContentPackGenerated, r, 0, period))
                           else s.usage);
      Sound(t.entries) && Metered(t) && s.entries <= t.entries && s.usage <= t.usage
  {
    SettleKeeps(s, r, consume);
    OtherUsageKeepsMetered(
      s.(entries := Settle(s.entries, s.requests[r].workspace, r, CostOf(s, r), consume)),
      UsageEvent(s.requests[r].workspace, ContentPackGenerated, r, 0, period));
  }

  /** Pack callbacks touch one job, one request, the ledger, the meter, the shelf and the
      notices; good order of each part is good order of the whole. */
  lemma PackKeeps(s: Store, t: Store, j: nat, n: Notice)
    requires Inv(s) && j < |s.jobs| && |t.jobs| == |s.jobs|
    requires SameIdentity(s.jobs[j], t.jobs[j]) && t.jobs == s.jobs[j := t.jobs[j]]
    requires !Terminal(s.jobs[j].status) || Terminal(t.jobs[j].status)
    requires Sound(t.entries) && Metered(s.(entries := t.entries, usage := t.usage))
    requires s.entries <= t.entries && s.usage <= t.usage && t.packs == s.packs
    requires |t.requests| == |s.requests| && RequestsEvolve(s.requests, t.requests)
    requires Outputs.OneRowPerKey(t.shelf.outputs) && RowsOwned(t.shelf, |s.requests|)
    requires Outputs.Grows(s.shelf, t.shelf)
    requires t.reports == s.reports && t.kits == s.kits && t.notices == NotifyOnce(s.notices, n)
    ensures Inv(t) && EvolvesBut(s, t, j)
  {
    MeteredGrows(s.(entries := t.entries, usage := t.usage), t);
    UpdateKeepsOneActive(s.jobs, j, t.jobs[j]);
  }

  lemma PackSuccessShelves(s: Store, owner: Outputs.Owner, ds: seq<Outputs.OutputData>)
    requires ShelfInOrder(s) && owner.request < |s.requests|
    ensures ShelfInOrder(s.(shelf := Outputs.UpsertAll(s.shelf, s.catalogue, owner, ds)))
    ensures Outputs.Grows(s.shelf, Outputs.UpsertAll(s.shelf, s.catalogue, owner, ds))
  {
    Outputs.UpsertAllKeepsKeys(s.shelf, s.catalogue, owner, ds);
    RowsStayOwned(s.shelf, s.catalogue, owner, ds, |s.requests|);
  }

  lemma PackSucceededKeeps(s: Store, j: nat, r: nat, status: JobStatus, ds: seq<Outputs.OutputData>,
                           meta: Meta, clock: Clock)
    requires Inv(s) && j < |s.jobs| && r < |s.requests|
    requires !Terminal(s.jobs[j].status) || Terminal(status)
    ensures Inv(PackSucceeded(s, j, r, status, ds, meta, clock))
    ensures EvolvesBut(s, PackSucceeded(s, j, r, status, ds, meta, clock), j)
  {
    var produced := Outputs.CompletedCount(s.shelf, s.catalogue, OwnerOf(s, r), ds) > 0;
    PackSuccessShelves(s, OwnerOf(s, r), ds);
    PackSuccessMeters(s, r, ShouldConsume(status, ds), produced, clock.period);
    PackKeeps(s, PackSucceeded(s, j, r, status, ds, meta, clock), j,
              Notice(s.requests[r].workspace, Entity(PackRequestKind, r), if produced then PackReady else PackFailed));
  }

  lemma PackFailedKeeps(s: Store, j: nat, r: nat, status: JobStatus, message: string, meta: Meta, clock: Clock)
    requires Inv(s) && j < |s.jobs| && r < |s.requests|
    requires !Terminal(s.jobs[j].status) || Terminal(status)
    ensures Inv(PackFailedWith(s, j, r, status, message, meta, clock))
    ensures EvolvesBut(s, PackFailedWith(s, j, r, status, message, meta, clock), j)
  {
    SettleKeeps(s, r, false);
    PackKeeps(s, PackFailedWith(s, j, r, status, message, meta, clock), j,
              Notice(s.requests[r].workspace, Entity(PackRequestKind, r), PackFailed));
  }

  /** Report and media-kit callbacks touch their document, the asset table, the notices and
      the job row only. */
  lemma DocumentKeeps(s: Store, t: Store, j: nat, n: Notice)
    requires Inv(s) && j < |s.jobs| && |t.jobs| == |s.jobs|
    requires SameIdentity(s.jobs[j], t.jobs[j]) && t.jobs == s.jobs[j := t.jobs[j]]
    requires !Terminal(s.jobs[j].status) || Terminal(t.jobs[j].status)
    requires t.entries == s.entries && t.usage == s.usage && t.packs == s.packs && t.requests == s.requests
    requires t.shelf.outputs == s.shelf.outputs && s.shelf.assets <= t.shelf.assets
    requires DocumentsEvolve(s.reports, t.reports) && DocumentsEvolve(s.kits, t.kits)
    requires t.notices == NotifyOnce(s.notices, n) || t.notices == s.notices
    ensures Inv(t) && EvolvesBut(s, t, j)
  {
    MeteredGrows(s, t);
    UpdateKeepsOneActive(s.jobs, j, t.jobs[j]);
  }

  /** A second result for a document that has its asset, even another one, stores nothing. */
  lemma AssetStoredOnce(doc: Document, kind: Outputs.AssetKind, first: CallbackResult, second: CallbackResult,
                        status: DocumentStatus, assets: seq<Outputs.Asset>)
    ensures var doc1, assets1 := Attached(doc, status, first, |assets|), AssetsWith(assets, doc, kind, first);
      var doc2, assets2 := Attached(doc1, status, second, |assets1|), AssetsWith(assets1, doc1, kind, second);
      && (doc.asset.Some? ==> doc2.asset == doc.asset && assets2 == assets)
      && (doc1.asset.Some? ==> doc2.asset == doc1.asset && assets2 == assets1)
      && |assets2| <= |assets| + 1
      && (doc2.asset.Some? <==> doc.asset.Some? || AssetOf(first).Some? || AssetOf(second).Some?)
  {
  }

  lemma ReportSucceededKeeps(s: Store, j: nat, e: nat, status: JobStatus, result: CallbackResult,
                             meta: Meta, clock: Clock)
    requires Inv(s) && j < |s.jobs| && e < |s.reports|
    requires !Terminal(s.jobs[j].status) || Terminal(status)
    ensures var t := ReportSucceeded(s, j, e, status, result, meta, clock); Inv(t) && EvolvesBut(s, t, j)
  {
    DocumentKeeps(s, ReportSucceeded(s, j, e, status, result, meta, clock), j,
                  Notice(s.reports[e].workspace, Entity(ReportKind, e), ReportReady));
  }

  lemma ReportFailedKeeps(s: Store, j: nat, e: nat, status: JobStatus, message: string, meta: Meta, clock: Clock)
    requires Inv(s) && j < |s.jobs| && e < |s.reports|
    requires !Terminal(s.jobs[j].status) || Terminal(status)
    ensures var t := ReportFailedWith(s, j, e, status, message, meta, clock); Inv(t) && EvolvesBut(s, t, j)
  {
    DocumentKeeps(s, ReportFailedWith(s, j, e, status, message, meta, clock), j,
                  Notice(s.reports[e].workspace, Entity(ReportKind, e), ReportFailure));
  }

  lemma KitSucceededKeeps(s: Store, j: nat, e: nat, status: JobStatus, result: CallbackResult, meta: Meta, clock: Clock)
    requires Inv(s) && j < |s.jobs| && e < |s.kits|
    requires !Terminal(s.jobs[j].status) || Terminal(status)
    ensures var t := KitSucceeded(s, j, e, status, result, meta, clock); Inv(t) && EvolvesBut(s, t, j)
  {
    DocumentKeeps(s, KitSucceeded(s, j, e, status, result, meta, clock), j,
                  Notice(s.kits[e].workspace, Entity(MediaKitKind, e), KitReady));
  }

  lemma KitFailedKeeps(s: Store, j: nat, e: nat, status: JobStatus, message: string, meta: Meta, clock: Clock)
    requires Inv(s) && j < |s.jobs| && e < |s.kits|
    requires !Terminal(s.jobs[j].status) || Terminal(status)
    ensures var t := KitFailedWith(s, j, e, status, message, meta, clock); Inv(t) && EvolvesBut(s, t, j)
  {
    DocumentKeeps(s, KitFailedWith(s, j, e, status, message, meta, clock), j,
                  Notice(s.kits[e].workspace, Entity(MediaKitKind, e), KitFailure));
  }

  lemma DispatchJobs(s: Store, j: nat, status: JobStatus, result: CallbackResult, message: string,
                     meta: Meta, clock: Clock)
    requires j < |s.jobs|
    ensures exists m :: Dispatch(s, j, status, result, message, meta, clock).jobs
                     == s.jobs[j := Transitioned(s.jobs[j], status, m, meta, clock.now)]
  {
    var t := Dispatch(s, j, status, result, message, meta, clock);
    assert t.jobs == s.jobs[j := Transitioned(s.jobs[j], status, message, meta, clock.now)]
        || t.jobs == s.jobs[j := Transitioned(s.jobs[j], status, "", meta, clock.now)];
  }

  lemma PackDispatchKeeps(s: Store, j: nat, status: JobStatus, result: CallbackResult, message: string,
                          meta: Meta, clock: Clock)
    requires Inv(s) && j < |s.jobs| && SubjectOf(s, j).PackSubject?
    requires !Terminal(s.jobs[j].status) || Terminal(status)
    ensures Inv(Dispatch(s, j, status, result, message, meta, clock))
    ensures EvolvesBut(s, Dispatch(s, j, status, result, message, meta, clock), j)
  {
    var r := SubjectOf(s, j).request;
    if Failure(status) { PackFailedKeeps(s, j, r, status, message, meta, clock); }
    else { PackSucceededKeeps(s, j, r, status, result.outputs, meta, clock); }
  }

  lemma ReportDispatchKeeps(s: Store, j: nat, status: JobStatus, result: CallbackResult, message: string,
                           meta: Meta, clock: Clock)
    requires Inv(s) && j < |s.jobs| && SubjectOf(s, j).ReportSubject?
    requires !Terminal(s.jobs[j].status) || Terminal(status)
    ensures Inv(Dispatch(s, j, status, result, message, meta, clock))
    ensures EvolvesBut(s, Dispatch(s, j, status, result, message, meta, clock), j)
  {
    var e := SubjectOf(s, j).report;
    if Failure(status) { ReportFailedKeeps(s, j, e, status, message, meta, clock); }
    else { ReportSucceededKeeps(s, j, e, status, result, meta, clock); }
  }

  lemma KitDispatchKeeps(s: Store, j: nat, status: JobStatus, result: CallbackResult, message: string,
                           meta: Meta, clock: Clock)
    requires Inv(s) && j < |s.jobs| && SubjectOf(s, j).KitSubject?
    requires !Terminal(s.jobs[j].status) || Terminal(status)
    ensures Inv(Dispatch(s, j, status, result, message, meta, clock))
    ensures EvolvesBut(s, Dispatch(s, j, status, result, message, meta, clock), j)
  {
    var e := SubjectOf(s, j).kit;
    if Failure(status) { KitFailedKeeps(s, j, e, status, message, meta, clock); }
    else { KitSucceededKeeps(s, j, e, status, result, meta, clock); }
  }

  lemma DispatchKeeps(s: Store, j: nat, status: JobStatus, result: CallbackResult, message: string,
                      meta: Meta, clock: Clock)
    requires Inv(s) && j < |s.jobs|
    requires !Terminal(s.jobs[j].status) || Terminal(status)
    ensures Inv(Dispatch(s, j, status, result, message, meta, clock))
    ensures EvolvesBut(s, Dispatch(s, j, status, result, message, meta, clock), j)
  {
    match SubjectOf(s, j) {
      case PackSubject(_) => PackDispatchKeeps(s, j, status, result, message, meta, clock);
      case ReportSubject(_) => ReportDispatchKeeps(s, j, status, result, message, meta, clock);
      case KitSubject(_) => KitDispatchKeeps(s, j, status, result, message, meta, clock);
      case NoSubject => JobRowKeeps(s, j, Transitioned(s.jobs[j], status, message, meta, clock.now));
    }
  }

  // ---------------------------------------------------------------- Deliver, Submit, Open

  lemma JobRowKeeps(s: Store, j: nat, job: Job)
    requires Inv(s) && j < |s.jobs| && SameIdentity(s.jobs[j], job)
    requires !Terminal(s.jobs[j].status) || Terminal(job.status)
    ensures Inv(s.(jobs := s.jobs[j := job])) && EvolvesBut(s, s.(jobs := s.jobs[j := job]), j)
  {
    var t := s.(jobs := s.jobs[j := job]);
    MeteredGrows(s, t);
    UpdateKeepsOneActive(s.jobs, j, job);
  }

  lemma DeliverKeeps(s: Store, cb: Callback, raises: bool, clock: Clock)
    requires Inv(s)
    ensures Inv(Deliver(s, cb, raises, clock)) && Evolves(s, Deliver(s, cb, raises, clock))
  {
    if Gate(s, cb) == Processed {
      var s1 := Received(s, cb.job, clock.now);
      JobRowKeeps(s, cb.job, s1.jobs[cb.job]);
      if !raises {
        DispatchKeeps(s1, cb.job, cb.status, cb.result, cb.message, cb.metadata, clock);
        EvolvesTransitive(s, s1, Deliver(s, cb, raises, clock), cb.job);
      }
    }
  }

  lemma SubmitKeeps(s: Store, j: nat, a: Attempt)
    requires Inv(s) && j < |s.jobs| && !Terminal(s.jobs[j].status)
    ensures Inv(Submit(s, j, a)) && EvolvesBut(s, Submit(s, j, a), j)
    ensures |Submit(s, j, a).jobs| == |s.jobs|
    ensures forall i :: 0 <= i < |s.jobs| && i != j ==> Submit(s, j, a).jobs[i] == s.jobs[i]
  {
    match a.submission {
      case Disabled =>
      case DryRun => JobRowKeeps(s, j, Submit(s, j, a).jobs[j]);
      case Accepted => JobRowKeeps(s, j, Submit(s, j, a).jobs[j]);
      case NotConfigured(m) => MarkFailedKeeps(s, j, Failed, m, a);
      case Rejected(m) => MarkFailedKeeps(s, j, Failed, m, a);
      case TimedOut(m) => MarkFailedKeeps(s, j, Timeout, m, a);
    }
  }

  lemma MarkFailedKeeps(s: Store, j: nat, status: JobStatus, message: string, a: Attempt)
    requires Inv(s) && j < |s.jobs| && !Terminal(s.jobs[j].status)
    ensures var t := MarkSubmissionFailed(s, j, status, message, a);
      Inv(t) && EvolvesBut(s, t, j) && |t.jobs| == |s.jobs|
      && forall i :: 0 <= i < |s.jobs| && i != j ==> t.jobs[i] == s.jobs[i]
  {
    var job := s.jobs[j].(status := status, failedAt := Some(a.clock.now), errorMessage := message);
    var s1 := s.(jobs := s.jobs[j := job]);
    JobRowKeeps(s, j, job);
    if Told(a) && !job.jobType.OtherType? {
      DispatchKeeps(s1, j, status, EMPTY_RESULT, message, map[], a.clock);
      DispatchJobs(s1, j, status, EMPTY_RESULT, message, map[], a.clock);
      EvolvesTransitive(s, s1, MarkSubmissionFailed(s, j, status, message, a), j);
    }
  }

  /** A new job may join when it brings no second active job under its key. */
  lemma NewJobKeeps(s: Store, job: Job)
    requires Inv(s)
    requires job.key == Blank || FindActive(s.jobs, job.workspace, job.key).None?
    ensures Inv(s.(jobs := s.jobs + [job])) && Evolves(s, s.(jobs := s.jobs + [job]))
  {
    MeteredGrows(s, s.(jobs := s.jobs + [job]));
  }

  lemma OpenKeeps(s: Store, d: Draft, a: Attempt)
    requires Inv(s)
    ensures Inv(Open(s, d, a)) && Evolves(s, Open(s, d, a))
    ensures !a.breaks.BeforeRow? ==> ServingJob(s, d) < |Open(s, d, a).jobs|
    ensures forall i :: 0 <= i < |s.jobs| ==> Open(s, d, a).jobs[i] == s.jobs[i]
  {
    if FindActive(s.jobs, d.workspace, EffectiveKey(d)).None? && !a.breaks.BeforeRow? {
      var s1 := s.(jobs := s.jobs + [JobFrom(d)]);
      NewJobKeeps(s, JobFrom(d));
      SubmitKeeps(s1, |s.jobs|, a);
      EvolvesTransitive(s, s1, Open(s, d, a), |s.jobs|);
    }
  }

  // ---------------------------------------------------------------- creation

  /** A new request with its event and, when priced, its reservation keeps the books. */
  lemma RequestJoins(s: Store, t: Store, req: Request, event: UsageEvent, rows: seq<Entry>)
    requires Metered(s) && t.packs == s.packs
    requires t.requests == s.requests + [req] && t.usage == s.usage + [event] && t.entries == s.entries + rows
    requires req.pack < |s.packs| && req.usageEvent == |s.usage|
    requires event.workspace == req.workspace && event.eventType == ContentPackRequested
    requires event.entity == |s.requests|
    requires if event.costUnits > 0 then
               |rows| == 1 && rows[0].workspace == req.workspace && rows[0].key == PackReserve(|s.requests|)
               && rows[0].kind == Reserve && rows[0].amount == -event.costUnits
             else rows == []
    ensures Metered(t)
  {
    forall q | 0 <= q < |t.requests| ensures RequestMetered(t, q) {
      if q < |s.requests| {
        assert RequestMetered(s, q);
        if PriceAtCreation(s, q) > 0 {
          RecordedInPrefix(s.entries, t.entries, s.requests[q].workspace, PackReserve(q));
        }
      } else if event.costUnits > 0 {
        assert t.entries[|s.entries|] == rows[0];
      }
    }
    forall i | 0 <= i < |t.entries| && RequestOf(t.entries[i].key).Some?
      ensures SettlementRow(t, t.entries[i], RequestOf(t.entries[i].key).value)
    {
      if i < |s.entries| { assert SettlementRow(s, s.entries[i], RequestOf(t.entries[i].key).value); }
    }
  }

  lemma NotReservedYet(s: Store, ws: WorkspaceId, r: nat)
    requires Metered(s) && r >= |s.requests|
    ensures !Recorded(s.entries, ws, PackReserve(r))
  {
    forall i | 0 <= i < |s.entries| ensures s.entries[i].key != PackReserve(r) {
      assert RequestOf(s.entries[i].key) == Some(r) ==> SettlementRow(s, s.entries[i], r);
    }
  }

  /** A reservation that is not refused and not recorded appends one row. */
  lemma ReserveAppends(es: seq<Entry>, ws: WorkspaceId, cost: int, r: nat)
    requires Sound(es) && !Recorded(es, ws, PackReserve(r))
    requires Refusal(es, Op(Reserve, ws, cost, false, PackReserve(r))).None?
    ensures var t := Apply(es, Op(Reserve, ws, cost, false, PackReserve(r)));
      && Sound(t) && |t| == |es| + 1 && es <= t
      && t[|es|].workspace == ws && t[|es|].key == PackReserve(r)
      && t[|es|].kind == Reserve && t[|es|].amount == -cost
  {
    ApplySound(es, Op(Reserve, ws, cost, false, PackReserve(r)));
  }

  lemma NotMeteredYet(s: Store, event: UsageEvent)
    requires Metered(s) && event.eventType == ContentPackRequested && event.entity >= |s.requests|
    ensures FindEvent(s.usage, event).None?
  {
  }

  /** What an accepted creation writes: one request, one event, and a row if it is priced. */
  lemma WithRequestWrites(s: Store, ws: WorkspaceId, p: nat, period: nat)
    requires Inv(s) && CreateRefusal(s, ws, p, period).None?
    ensures var t, r, cost := WithRequest(s, ws, p, period), |s.requests|, s.packs[p].cost;
      && t == s.(usage := t.usage, requests := t.requests, entries := t.entries)
      && t.usage == s.usage + [UsageEvent(ws, ContentPackRequested, r, cost, period)]
      && t.requests == s.requests + [Request(ws, p, |s.usage|, RequestQueued, None, None, "", None)]
      && Sound(t.entries) && s.entries <= t.entries
      && if cost > 0 then
           && |t.entries| == |s.entries| + 1
           && var row := t.entries[|s.entries|];
              row.workspace == ws && row.key == PackReserve(r) && row.kind == Reserve && row.amount == -cost
         else t.entries == s.entries
  {
    var r, cost := |s.requests|, s.packs[p].cost;
    NotMeteredYet(s, UsageEvent(ws, ContentPackRequested, r, cost, period));
    NotReservedYet(s, ws, r);
    if cost > 0 { ReserveAppends(s.entries, ws, cost, r); }
  }

  lemma WithRequestKeeps(s: Store, ws: WorkspaceId, p: nat, period: nat)
    requires Inv(s) && CreateRefusal(s, ws, p, period).None?
    ensures Inv(WithRequest(s, ws, p, period)) && Evolves(s, WithRequest(s, ws, p, period))
  {
    var t := WithRequest(s, ws, p, period);
    var r, cost := |s.requests|, s.packs[p].cost;
    var event := UsageEvent(ws, ContentPackRequested, r, cost, period);
    WithRequestWrites(s, ws, p, period);
    assert t.entries == s.entries + t.entries[|s.entries|..];
    RequestJoins(s, t, t.requests[r], event, t.entries[|s.entries|..]);
  }

  lemma CreateRequestKeeps(s: Store, ws: WorkspaceId, p: nat, a: Attempt)
    requires Inv(s)
    ensures Inv(CreateRequest(s, ws, p, a)) && Evolves(s, CreateRequest(s, ws, p, a))
  {
    if CreateRefusal(s, ws, p, a.clock.period).None? {
      var s1 := WithRequest(s, ws, p, a.clock.period);
      WithRequestKeeps(s, ws, p, a.clock.period);
      var d := PackRequestDraft(ws, |s.requests|);
      OpenKeeps(s1, d, a);
      var s2, t := Open(s1, d, a), CreateRequest(s, ws, p, a);
      EvolvesTransitive(s, s1, s2, -1);
      LinkingJobKeeps(s2, |s.requests|, ServingJob(s1, d));
      EvolvesTransitive(s, s2, t, -1);
    }
  }

  /** Noting the job on its request. */
  lemma LinkingJobKeeps(s: Store, r: nat, j: nat)
    requires Inv(s) && r < |s.requests|
    ensures var t := s.(requests := s.requests[r := s.requests[r].(job := Some(j))]);
      Inv(t) && Evolves(s, t)
  {
    MeteredGrows(s, s.(requests := s.requests[r := s.requests[r].(job := Some(j))]));
  }

  /** A document row with its usage event, before its job is opened. */
  lemma DocumentRowKeeps(s: Store, reports: seq<Document>, kits: seq<Document>, event: UsageEvent)
    requires Inv(s) && s.reports <= reports && s.kits <= kits && event.eventType != ContentPackRequested
    ensures var t := s.(reports := reports, kits := kits, usage := Record(s.usage, event));
      Inv(t) && Evolves(s, t)
  {
    OtherUsageKeepsMetered(s, event);
    MeteredGrows(s.(usage := Record(s.usage, event)),
                 s.(reports := reports, kits := kits, usage := Record(s.usage, event)));
  }

  /** Noting the job on its report or media kit. */
  lemma LinkingDocumentKeeps(s: Store, t: Store)
    requires Inv(s) && t == s.(reports := t.reports, kits := t.kits)
    requires DocumentsEvolve(s.reports, t.reports) && DocumentsEvolve(s.kits, t.kits)
    ensures Inv(t) && Evolves(s, t)
  {
    MeteredGrows(s, t);
  }

  lemma CreateReportKeeps(s: Store, ws: WorkspaceId, a: Attempt)
    requires Inv(s)
    ensures Inv(CreateReport(s, ws, a)) && Evolves(s, CreateReport(s, ws, a))
  {
    if !QuotaExceeded(s.usage, s.limits, ws, ReportGenerated, a.clock.period) {
      var e := |s.reports|;
      var event := UsageEvent(ws, ReportGenerated, e, 0, a.clock.period);
      var reports := s.reports + [Document(ws, ReportQueued, None, map[], None)];
      var s1 := s.(reports := reports, usage := Record(s.usage, event));
      DocumentRowKeeps(s, reports, s.kits, event);
      OpenKeeps(s1, ReportDraft(ws, e), a);
      var s2, t := Open(s1, ReportDraft(ws, e), a), CreateReport(s, ws, a);
      EvolvesTransitive(s, s1, s2, -1);
      LinkingDocumentKeeps(s2, t);
      EvolvesTransitive(s, s2, t, -1);
    }
  }

  lemma CreateKitKeeps(s: Store, ws: WorkspaceId, a: Attempt)
    requires Inv(s)
    ensures Inv(CreateKit(s, ws, a)) && Evolves(s, CreateKit(s, ws, a))
  {
    var e := |s.kits|;
    var event := UsageEvent(ws, MediaKitGenerated, e, 0, a.clock.period);
    var kits := s.kits + [Document(ws, KitDraft, None, map[], None)];
    var s1 := s.(kits := kits, usage := Record(s.usage, event));
    DocumentRowKeeps(s, s.reports, kits, event);
    OpenKeeps(s1, KitDraftOf(ws, e), a);
    var s2, t := Open(s1, KitDraftOf(ws, e), a), CreateKit(s, ws, a);
    EvolvesTransitive(s, s1, s2, -1);
    LinkingDocumentKeeps(s2, t);
    EvolvesTransitive(s, s2, t, -1);
  }

  // ---------------------------------------------------------------- every step, every run

  lemma BillKeeps(s: Store, op: Op)
    requires Inv(s) && CallerOp(op)
    ensures Inv(s.(entries := Apply(s.entries, op))) && s.entries <= Apply(s.entries, op)
  {
    ApplySound(s.entries, op);
    LedgerGrowthKeepsMetered(s, Apply(s.entries, op));
  }

  lemma ConfigurationKeeps(s: Store, t: Store)
    requires Inv(s) && |s.packs| <= |t.packs| && t == s.(limits := t.limits, packs := t.packs)
    ensures Inv(t) && Evolves(s, t)
  {
    MeteredGrows(s, t);
  }

  lemma CancelKeeps(s: Store, selection: set<nat>, now: Time)
    requires Inv(s)
    ensures var t := s.(jobs := CancelJobs(s.jobs, selection, now)); Inv(t) && Evolves(s, t)
  {
    MeteredGrows(s, s.(jobs := CancelJobs(s.jobs, selection, now)));
  }

  lemma CreationStepKeeps(s: Store, step: Step)
    requires Inv(s) && (step.RequestPack? || step.RequestReport? || step.RequestKit?)
    ensures Inv(Next(s, step)) && Evolves(s, Next(s, step))
  {
    match step {
      case RequestPack(ws, p, a) => CreateRequestKeeps(s, ws, p, a);
      case RequestReport(ws, a) => CreateReportKeeps(s, ws, a);
      case RequestKit(ws, a) => CreateKitKeeps(s, ws, a);
    }
  }

  lemma OpenStepKeeps(s: Store, step: Step)
    requires Inv(s) && step.OpenJob?
    ensures Inv(Next(s, step)) && Evolves(s, Next(s, step))
  {
    OpenKeeps(s, step.draft.(retryCount := 0), step.attempt);
  }

  lemma ReferenceStepKeeps(s: Store, step: Step)
    requires Inv(s) && step.AddReference?
    ensures Inv(Next(s, step)) && Evolves(s, Next(s, step))
  {
    NewJobKeeps(s, JobFrom(step.draft).(key := Blank, retryCount := 0));
  }

  lemma RetryStepKeeps(s: Store, step: Step)
    requires Inv(s) && step.RetryJob?
    ensures Inv(Next(s, step)) && Evolves(s, Next(s, step))
  {
    if CanRetry(s, step.job) { OpenKeeps(s, RetryDraft(s.jobs[step.job], step.job), step.attempt); }
  }

  lemma CancelStepKeeps(s: Store, step: Step)
    requires Inv(s) && step.Cancel?
    ensures Inv(Next(s, step)) && Evolves(s, Next(s, step))
  {
    CancelKeeps(s, step.selection, step.now);
  }

  lemma PostStepKeeps(s: Store, step: Step)
    requires Inv(s) && step.Post?
    ensures Inv(Next(s, step)) && Evolves(s, Next(s, step))
  {
    DeliverKeeps(s, step.callback, step.raises, step.clock);
  }

  /** The inductive invariant is kept, and nothing recorded is lost, by every step. */
  lemma NextKeeps(s: Store, step: Step)
    requires Inv(s)
    ensures Inv(Next(s, step)) && Evolves(s, Next(s, step))
  {
    match step {
      case Bill(op) => if CallerOp(op) { BillKeeps(s, op); }
      case SetLimit(_, _, _) => ConfigurationKeeps(s, Next(s, step));
      case AddPack(_) => ConfigurationKeeps(s, Next(s, step));
      case EditPack(_, _) => ConfigurationKeeps(s, Next(s, step));
      case RequestPack(_, _, _) => CreationStepKeeps(s, step);
      case RequestReport(_, _) => CreationStepKeeps(s, step);
      case RequestKit(_, _) => CreationStepKeeps(s, step);
      case OpenJob(_, _) => OpenStepKeeps(s, step);
      case AddReference(_) => ReferenceStepKeeps(s, step);
      case RetryJob(_, _) => RetryStepKeeps(s, step);
      case Cancel(_, _) => CancelStepKeeps(s, step);
      case Post(_, _, _) => PostStepKeeps(s, step);
    }
  }

  lemma {:induction false} RunKeeps(s: Store, steps: seq<Step>)
    requires Inv(s)
    ensures Inv(RunSteps(s, steps)) && Evolves(s, RunSteps(s, steps))
  {
    if steps != [] {
      var front := RunSteps(s, steps[..|steps| - 1]);
      RunKeeps(s, steps[..|steps| - 1]);
      NextKeeps(front, steps[|steps| - 1]);
      EvolvesTransitive(s, front, RunSteps(s, steps), -1);
    }
  }

  /** Every store reachable from the empty one satisfies the invariant. */
  lemma ReachableInv(c: Outputs.Catalogue, steps: seq<Step>)
    ensures Inv(RunSteps(EmptyStore(c), steps))
  {
    RunKeeps(EmptyStore(c), steps);
  }

  /** In every reachable store a workspace has at most one non-terminal job per non-blank key. */
  lemma OneActiveJobEverywhere(c: Outputs.Catalogue, steps: seq<Step>, i: nat, j: nat)
    requires var jobs := RunSteps(EmptyStore(c), steps).jobs;
      i < |jobs| && j < |jobs| && i != j && jobs[i].key != Blank
      && jobs[i].key == jobs[j].key && jobs[i].workspace == jobs[j].workspace
    ensures var jobs := RunSteps(EmptyStore(c), steps).jobs;
      Terminal(jobs[i].status) || Terminal(jobs[j].status)
  {
    ReachableInv(c, steps);
    if j < i { assert OneActiveJobPerKey(RunSteps(EmptyStore(c), steps).jobs); }
  }
}
