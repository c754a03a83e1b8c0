/** Content outputs and their assets: how one callback's output list is merged into the rows
    of a content-pack request. */
module Outputs {
  import opened Prelude
  import opened Decimals

  datatype OutputStatus = Completed | Failed | Processing | Rendering | Queued

  /** An asset block: the description of a file, or one that names none. */
  datatype AssetData = BlankFile | File(details: string)

  datatype AssetKind = GeneratedOutput | ReportPdf | MediaKitAsset

  datatype Asset = Asset(workspace: nat, kind: AssetKind, data: AssetData)

  /** One element of `result.outputs`; None is an absent field. */
  datatype OutputData = OutputData(
    id: Option<string>, outputType: Option<string>, format: Option<string>, status: Option<string>,
    title: Option<string>, caption: Option<string>, cta: Option<string>, required: bool,
    templateId: Option<string>, templateKey: Option<string>,
    asset: Option<AssetData>, metadata: map<string, string>)

  /** A stored ContentOutput row. */
  datatype Output = Output(
    request: nat, template: nat, outputType: string, format: string, status: OutputStatus,
    title: string, caption: string, cta: string, asset: Option<nat>, metadata: map<string, string>)

  datatype Shelf = Shelf(outputs: seq<Output>, assets: seq<Asset>)

  /** What a request contributes to the rows created for it. */
  datatype Owner = Owner(request: nat, workspace: nat, packLinks: map<string, nat>)

  datatype Catalogue = Catalogue(byId: map<string, nat>, byKey: map<string, nat>)

  const KEY_FIELD := "external_output_key"

  // ---------------------------------------------------------------- reading a callback item

  function OutputKey(d: OutputData, index: nat): string {
    if d.id.GetOr("") != "" then d.id.value
    else d.outputType.GetOr("") + "|" + d.templateKey.GetOr("") + "|" + Decimal(index)
  }

  /** An item always has a key. */
  lemma KeyNotEmpty(d: OutputData, index: nat)
    ensures OutputKey(d, index) != ""
  {
  }

  function StatusOf(s: Option<string>): OutputStatus {
    match s.GetOr("completed")
    case "failed" => Failed
    case "processing" => Processing
    case "rendering" => Rendering
    case "queued" => Queued
    case _ => Completed
  }

  function ResolveTemplate(c: Catalogue, owner: Owner, d: OutputData): Option<nat> {
    if d.templateId.GetOr("") != "" && d.templateId.value in c.byId then Some(c.byId[d.templateId.value])
    else if d.templateKey.GetOr("") != "" && d.templateKey.value in c.byKey then Some(c.byKey[d.templateKey.value])
    else if d.outputType.GetOr("") != "" && d.outputType.value in owner.packLinks then
      Some(owner.packLinks[d.outputType.value])
    else None
  }

  // ---------------------------------------------------------------- merging it

  predicate Bears(o: Output, request: nat, key: string) {
    o.request == request && KEY_FIELD in o.metadata && o.metadata[KEY_FIELD] == key
  }

  /** The oldest row of the request that bears the key. */
  function Find(rows: seq<Output>, request: nat, key: string): (r: Option<nat>)
    ensures r.Some? ==> r.value < |rows| && Bears(rows[r.value], request, key)
                        && forall i :: 0 <= i < r.value ==> !Bears(rows[i], request, key)
    ensures r.None? ==> forall i :: 0 <= i < |rows| ==> !Bears(rows[i], request, key)
  {
    if rows == [] then None
    else
      var earlier := Find(rows[..|rows| - 1], request, key);
      if earlier.Some? then earlier
      else if Bears(rows[|rows| - 1], request, key) then Some(|rows| - 1) else None
  }

  function BlankRow(owner: Owner, template: nat): Output {
    Output(owner.request, template, "", "", Queued, "", "", "", None, map[])
  }

  function Revise(o: Output, d: OutputData, key: string): Output {
    o.(outputType := d.outputType.GetOr(o.outputType), format := d.format.GetOr(o.format),
       status := StatusOf(d.status), title := d.title.GetOr(o.title),
       caption := d.caption.GetOr(o.caption), cta := d.cta.GetOr(o.cta),
       metadata := o.metadata + d.metadata + map[KEY_FIELD := key])
  }

  predicate NeedsAsset(o: Output, d: OutputData) {
    d.asset.Some? && o.status == Completed && o.asset.None?
  }

  /** None when the item is skipped: no row bears its key and no template resolves. */
  function Target(s: Shelf, c: Catalogue, owner: Owner, d: OutputData, index: nat): Option<nat> {
    match Find(s.outputs, owner.request, OutputKey(d, index))
    case Some(p) => Some(p)
    case None => if ResolveTemplate(c, owner, d).Some? then Some(|s.outputs|) else None
  }

  function Upsert(s: Shelf, c: Catalogue, owner: Owner, d: OutputData, index: nat): Shelf {
    var key := OutputKey(d, index);
    match Target(s, c, owner, d, index)
    case None => s
    case Some(p) =>
      var row0 := if p < |s.outputs| then s.outputs[p] else BlankRow(owner, ResolveTemplate(c, owner, d).value);
      var row1 := Revise(row0, d, key);
      var attach := NeedsAsset(row1, d);
      var row2 := if attach then row1.(asset := Some(|s.assets|)) else row1;
      Shelf(if p < |s.outputs| then s.outputs[p := row2] else s.outputs + [row2],
            if attach then s.assets + [Asset(owner.workspace, GeneratedOutput, d.asset.value)] else s.assets)
  }

  function UpsertAll(s: Shelf, c: Catalogue, owner: Owner, ds: seq<OutputData>): Shelf {
    if ds == [] then s
    else Upsert(UpsertAll(s, c, owner, ds[..|ds| - 1]), c, owner, ds[|ds| - 1], |ds| - 1)
  }

  /** What becomes of an item: None when it is skipped, else the status its row then has. */
  function Outcome(s: Shelf, c: Catalogue, owner: Owner, d: OutputData, index: nat): Option<OutputStatus> {
    if Target(s, c, owner, d, index).Some? then Some(StatusOf(d.status)) else None
  }

  /** How many items have the given outcome when the list is merged in order. */
  function Tally(s: Shelf, c: Catalogue, owner: Owner, ds: seq<OutputData>, what: Option<OutputStatus>): nat {
    if ds == [] then 0
    else
      var front := ds[..|ds| - 1];
      Tally(s, c, owner, front, what)
      + if Outcome(UpsertAll(s, c, owner, front), c, owner, ds[|ds| - 1], |ds| - 1) == what then 1 else 0
  }

  /** The callback's `completed` count. */
  function CompletedCount(s: Shelf, c: Catalogue, owner: Owner, ds: seq<OutputData>): nat {
    Tally(s, c, owner, ds, Some(Completed))
  }

  // ---------------------------------------------------------------- laws

  /** At most one row per (request, external output key), and every row has its key. */
  ghost predicate OneRowPerKey(rows: seq<Output>) {
    (forall i :: 0 <= i < |rows| ==> KEY_FIELD in rows[i].metadata)
    && forall i, j :: 0 <= i < j < |rows| && rows[i].request == rows[j].request
         ==> rows[i].metadata[KEY_FIELD] != rows[j].metadata[KEY_FIELD]
  }

  /** Rows and assets are never removed; an asset once linked stays linked; a row keeps its
      request, template and key. */
  ghost predicate Grows(s: Shelf, t: Shelf) {
    |s.outputs| <= |t.outputs| && s.assets <= t.assets
    && forall i :: 0 <= i < |s.outputs| ==>
         && t.outputs[i].request == s.outputs[i].request
         && t.outputs[i].template == s.outputs[i].template
         && (KEY_FIELD in s.outputs[i].metadata ==>
               KEY_FIELD in t.outputs[i].metadata
               && t.outputs[i].metadata[KEY_FIELD] == s.outputs[i].metadata[KEY_FIELD])
         && (s.outputs[i].asset.Some? ==> t.outputs[i].asset == s.outputs[i].asset)
  }

  lemma UpsertKeepsKeys(s: Shelf, c: Catalogue, owner: Owner, d: OutputData, index: nat)
    requires OneRowPerKey(s.outputs)
    ensures OneRowPerKey(Upsert(s, c, owner, d, index).outputs)
    ensures Grows(s, Upsert(s, c, owner, d, index))
  {
    var key := OutputKey(d, index);
    var f := Find(s.outputs, owner.request, key);
    var t := Upsert(s, c, owner, d, index);
    if t != s {
      var p := Target(s, c, owner, d, index).value;
      assert Bears(t.outputs[p], owner.request, key);
      forall i, j | 0 <= i < j < |t.outputs| && t.outputs[i].request == t.outputs[j].request
        ensures t.outputs[i].metadata[KEY_FIELD] != t.outputs[j].metadata[KEY_FIELD]
      {
        if i == p && f.Some? { assert s.outputs[p].metadata[KEY_FIELD] == key; }
        if j == p {
          if f.None? { assert !Bears(s.outputs[i], owner.request, key); }
          else { assert s.outputs[p].metadata[KEY_FIELD] == key; }
        }
      }
    }
  }

  lemma {:induction false} UpsertAllKeepsKeys(s: Shelf, c: Catalogue, owner: Owner, ds: seq<OutputData>)
    requires OneRowPerKey(s.outputs)
    ensures OneRowPerKey(UpsertAll(s, c, owner, ds).outputs)
    ensures Grows(s, UpsertAll(s, c, owner, ds))
  {
    if ds != [] {
      UpsertAllKeepsKeys(s, c, owner, ds[..|ds| - 1]);
      UpsertKeepsKeys(UpsertAll(s, c, owner, ds[..|ds| - 1]), c, owner, ds[|ds| - 1], |ds| - 1);
    }
  }

  /** The item has already left its mark: it is skipped, or its row is a fixed point of it. */
  ghost predicate Absorbed(s: Shelf, c: Catalogue, owner: Owner, d: OutputData, index: nat) {
    var key := OutputKey(d, index);
    match Find(s.outputs, owner.request, key)
    case None => ResolveTemplate(c, owner, d).None?
    case Some(p) => Revise(s.outputs[p], d, key) == s.outputs[p] && !NeedsAsset(s.outputs[p], d)
  }

  lemma AbsorbedIsUnchanged(s: Shelf, c: Catalogue, owner: Owner, d: OutputData, index: nat)
    requires Absorbed(s, c, owner, d, index)
    ensures Upsert(s, c, owner, d, index) == s
  {
    var f := Find(s.outputs, owner.request, OutputKey(d, index));
    if f.Some? {
      assert s.outputs[f.value := s.outputs[f.value]] == s.outputs;
    }
  }

  lemma FoundWhereBorne(rows: seq<Output>, request: nat, key: string, p: nat)
    requires OneRowPerKey(rows) && p < |rows| && Bears(rows[p], request, key)
    ensures Find(rows, request, key) == Some(p)
  {
    assert Find(rows, request, key).Some?;
  }

  /** Revising a row twice by the same item is revising it once. */
  lemma ReviseTwice(o: Output, d: OutputData, key: string, asset: Option<nat>)
    ensures Revise(Revise(o, d, key).(asset := asset), d, key) == Revise(o, d, key).(asset := asset)
  {
    var m := o.metadata + d.metadata + map[KEY_FIELD := key];
    assert m + d.metadata + map[KEY_FIELD := key] == m;
  }

  lemma UpsertAbsorbs(s: Shelf, c: Catalogue, owner: Owner, d: OutputData, index: nat)
    requires OneRowPerKey(s.outputs)
    ensures Absorbed(Upsert(s, c, owner, d, index), c, owner, d, index)
  {
    var key := OutputKey(d, index);
    var t := Upsert(s, c, owner, d, index);
    UpsertKeepsKeys(s, c, owner, d, index);
    var target := Target(s, c, owner, d, index);
    if target.Some? {
      var p := target.value;
      var row0 := if p < |s.outputs| then s.outputs[p] else BlankRow(owner, ResolveTemplate(c, owner, d).value);
      FoundWhereBorne(t.outputs, owner.request, key, p);
      ReviseTwice(row0, d, key, t.outputs[p].asset);
    }
  }

  /** Writing or adding a row that does not bear the key, over none that does, hides nothing. */
  lemma FindIgnores(rows: seq<Output>, p: nat, row: Output, request: nat, key: string)
    requires p <= |rows| && !Bears(row, request, key)
    requires p < |rows| ==> !Bears(rows[p], request, key)
    ensures Find(if p < |rows| then rows[p := row] else rows + [row], request, key) == Find(rows, request, key)
  {
    var rows' := if p < |rows| then rows[p := row] else rows + [row];
    var f, f' := Find(rows, request, key), Find(rows', request, key);
    if f.Some? { assert rows'[f.value] == rows[f.value]; }
    if f'.Some? { assert f'.value < |rows| && rows[f'.value] == rows'[f'.value]; }
  }

  /** Merging an item leaves every row with another key where and as it was, and adds none. */
  lemma UpsertTouchesItsKeyOnly(s: Shelf, c: Catalogue, owner: Owner, e: OutputData, j: nat, key: string)
    requires key != OutputKey(e, j)
    ensures var t := Upsert(s, c, owner, e, j);
      var f := Find(s.outputs, owner.request, key);
      && Find(t.outputs, owner.request, key) == f
      && (f.Some? ==> f.value < |t.outputs| && t.outputs[f.value] == s.outputs[f.value])
  {
    var t := Upsert(s, c, owner, e, j);
    var target := Target(s, c, owner, e, j);
    if target.Some? {
      FindIgnores(s.outputs, target.value, t.outputs[target.value], owner.request, key);
    }
  }

  lemma OtherKeysStayAbsorbed(s: Shelf, c: Catalogue, owner: Owner, d: OutputData, i: nat, e: OutputData, j: nat)
    requires OutputKey(d, i) != OutputKey(e, j)
    requires Absorbed(s, c, owner, d, i)
    ensures Absorbed(Upsert(s, c, owner, e, j), c, owner, d, i)
  {
    UpsertTouchesItsKeyOnly(s, c, owner, e, j, OutputKey(d, i));
  }

  /** The rows of the request stay as they are and no row joins them. */
  ghost predicate RowsElsewhere(a: seq<Output>, b: seq<Output>, request: nat) {
    && |a| <= |b|
    && (forall i :: 0 <= i < |a| ==> b[i].request == a[i].request && (a[i].request == request ==> b[i] == a[i]))
    && (forall i :: |a| <= i < |b| ==> b[i].request != request)
  }

  lemma UpsertElsewhere(s: Shelf, c: Catalogue, owner: Owner, d: OutputData, index: nat, request: nat)
    requires owner.request != request
    ensures RowsElsewhere(s.outputs, Upsert(s, c, owner, d, index).outputs, request)
  {
  }

  /** Merging one request's items leaves every other request's rows alone. */
  lemma {:induction false} UpsertAllElsewhere(s: Shelf, c: Catalogue, owner: Owner, ds: seq<OutputData>, request: nat)
    requires owner.request != request
    ensures RowsElsewhere(s.outputs, UpsertAll(s, c, owner, ds).outputs, request)
  {
    if ds != [] {
      UpsertAllElsewhere(s, c, owner, ds[..|ds| - 1], request);
      UpsertElsewhere(UpsertAll(s, c, owner, ds[..|ds| - 1]), c, owner, ds[|ds| - 1], |ds| - 1, request);
    }
  }

  ghost predicate DistinctKeys(ds: seq<OutputData>) {
    forall i, j :: 0 <= i < j < |ds| ==> OutputKey(ds[i], i) != OutputKey(ds[j], j)
  }

  /** The items merged so far, seen one at a time. */
  lemma UpsertAllStep(s: Shelf, c: Catalogue, owner: Owner, ds: seq<OutputData>, n: nat)
    requires n < |ds|
    ensures UpsertAll(s, c, owner, ds[..n + 1]) == Upsert(UpsertAll(s, c, owner, ds[..n]), c, owner, ds[n], n)
  {
    assert ds[..n + 1][..n] == ds[..n];
  }

  /** The counters of the merging loop. */
  ghost predicate Counts(s: Shelf, c: Catalogue, owner: Owner, ds: seq<OutputData>,
                         completed: nat, failed: nat, skipped: nat) {
    && completed == Tally(s, c, owner, ds, Some(Completed))
    && failed == Tally(s, c, owner, ds, Some(Failed))
    && skipped == Tally(s, c, owner, ds, None)
  }

  lemma CountsStep(s: Shelf, c: Catalogue, owner: Owner, ds: seq<OutputData>, n: nat,
                   completed: nat, failed: nat, skipped: nat)
    requires n < |ds| && Counts(s, c, owner, ds[..n], completed, failed, skipped)
    ensures var o := Outcome(UpsertAll(s, c, owner, ds[..n]), c, owner, ds[n], n);
      Counts(s, c, owner, ds[..n + 1], completed + (if o == Some(Completed) then 1 else 0),
             failed + (if o == Some(Failed) then 1 else 0), skipped + (if o == None then 1 else 0))
  {
    assert ds[..n + 1][..n] == ds[..n];
  }

  lemma {:induction false} AllAbsorbed(s: Shelf, c: Catalogue, owner: Owner, ds: seq<OutputData>, n: nat, i: nat)
    requires OneRowPerKey(s.outputs) && DistinctKeys(ds) && i < n <= |ds|
    ensures Absorbed(UpsertAll(s, c, owner, ds[..n]), c, owner, ds[i], i)
    decreases n
  {
    var mid := UpsertAll(s, c, owner, ds[..n - 1]);
    UpsertAllKeepsKeys(s, c, owner, ds[..n - 1]);
    UpsertAllStep(s, c, owner, ds, n - 1);
    if i == n - 1 {
      UpsertAbsorbs(mid, c, owner, ds[i], i);
    } else {
      AllAbsorbed(s, c, owner, ds, n - 1, i);
      OtherKeysStayAbsorbed(mid, c, owner, ds[i], i, ds[n - 1], n - 1);
    }
  }

  lemma {:induction false} AbsorbedListIsIdentity(s: Shelf, c: Catalogue, owner: Owner, ds: seq<OutputData>)
    requires forall i :: 0 <= i < |ds| ==> Absorbed(s, c, owner, ds[i], i)
    ensures UpsertAll(s, c, owner, ds) == s
  {
    if ds != [] {
      AbsorbedListIsIdentity(s, c, owner, ds[..|ds| - 1]);
      AbsorbedIsUnchanged(s, c, owner, ds[|ds| - 1], |ds| - 1);
    }
  }

  /** Re-applying a callback whose keys are pairwise distinct changes no output row and
      creates no asset, whatever rows were there before the first time. */
  lemma ReapplyingIsIdentity(s: Shelf, c: Catalogue, owner: Owner, ds: seq<OutputData>)
    requires OneRowPerKey(s.outputs) && DistinctKeys(ds)
    ensures var once := UpsertAll(s, c, owner, ds);
      UpsertAll(once, c, owner, ds) == once
  {
    assert ds[..|ds|] == ds;
    forall i | 0 <= i < |ds| ensures Absorbed(UpsertAll(s, c, owner, ds), c, owner, ds[i], i) {
      AllAbsorbed(s, c, owner, ds, |ds|, i);
    }
    AbsorbedListIsIdentity(UpsertAll(s, c, owner, ds), c, owner, ds);
  }

  /** Keys built without an explicit id never collide for different indices, even when the
      output type or template key contain the separator. */
  lemma GeneratedKeysDiffer(d: OutputData, i: nat, e: OutputData, j: nat)
    requires d.id.GetOr("") == "" && e.id.GetOr("") == "" && i != j
    ensures OutputKey(d, i) != OutputKey(e, j)
  {
    var a := d.outputType.GetOr("") + "|" + d.templateKey.GetOr("");
    var b := e.outputType.GetOr("") + "|" + e.templateKey.GetOr("");
    assert OutputKey(d, i) == a + "|" + Decimal(i);
    assert OutputKey(e, j) == b + "|" + Decimal(j);
    if OutputKey(d, i) == OutputKey(e, j) { NumberingIsInjective(a, '|', i, b, j); }
  }

  /** So every list of outputs without explicit ids (the renderer never sends one) can be
      re-applied safely. */
  lemma RendererListsReapplySafely(s: Shelf, c: Catalogue, owner: Owner, ds: seq<OutputData>)
    requires OneRowPerKey(s.outputs)
    requires forall i :: 0 <= i < |ds| ==> ds[i].id.GetOr("") == ""
    ensures var once := UpsertAll(s, c, owner, ds);
      UpsertAll(once, c, owner, ds) == once
  {
    forall i, j | 0 <= i < j < |ds| ensures OutputKey(ds[i], i) != OutputKey(ds[j], j) {
      GeneratedKeysDiffer(ds[i], i, ds[j], j);
    }
    ReapplyingIsIdentity(s, c, owner, ds);
  }
}
