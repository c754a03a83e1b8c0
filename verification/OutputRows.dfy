/** What a merged output row holds, field by field, said of the callback's items themselves. */
module OutputRows {
  import opened Prelude
  import opened Outputs

  // ---------------------------------------------------------------- one item

  /** A text field: the item's if present, else what the old row had, else empty. */
  predicate FieldTaken(field: string, item: Option<string>, prior: Option<string>) {
    match item
    case Some(x) => field == x
    case None => field == (match prior case Some(y) => y case None => "")
  }

  /** The status column for the item's status text; anything unknown or absent is completed. */
  predicate StatusTaken(status: OutputStatus, text: Option<string>) {
    && (status == Failed <==> text == Some("failed"))
    && (status == Processing <==> text == Some("processing"))
    && (status == Rendering <==> text == Some("rendering"))
    && (status == Queued <==> text == Some("queued"))
  }

  /** The item's metadata over the old row's, and the key over both. */
  ghost predicate MetadataTaken(m: map<string, string>, d: OutputData, prior: map<string, string>, key: string) {
    && KEY_FIELD in m && m[KEY_FIELD] == key
    && (forall k :: k != KEY_FIELD ==> (k in m <==> k in d.metadata || k in prior))
    && (forall k :: k != KEY_FIELD && k in d.metadata ==> k in m && m[k] == d.metadata[k])
    && (forall k :: k != KEY_FIELD && k in prior && k !in d.metadata ==> k in m && m[k] == prior[k])
  }

  predicate ById(c: Catalogue, d: OutputData) {
    d.templateId.Some? && d.templateId.value != "" && d.templateId.value in c.byId
  }

  predicate ByKey(c: Catalogue, d: OutputData) {
    d.templateKey.Some? && d.templateKey.value != "" && d.templateKey.value in c.byKey
  }

  predicate ByLink(owner: Owner, d: OutputData) {
    d.outputType.Some? && d.outputType.value != "" && d.outputType.value in owner.packLinks
  }

  predicate Resolvable(c: Catalogue, owner: Owner, d: OutputData) {
    ById(c, d) || ByKey(c, d) || ByLink(owner, d)
  }

  /** The template named by id, else by key, else linked to the output type. */
  predicate TemplateTaken(template: nat, c: Catalogue, owner: Owner, d: OutputData) {
    && (ById(c, d) ==> template == c.byId[d.templateId.value])
    && (!ById(c, d) && ByKey(c, d) ==> template == c.byKey[d.templateKey.value])
    && (!ById(c, d) && !ByKey(c, d) && ByLink(owner, d) ==> template == owner.packLinks[d.outputType.value])
  }

  /** The row as the item and the old row under its key, if any, make it. */
  ghost predicate Carries(row: Output, c: Catalogue, owner: Owner, d: OutputData, prior: Option<Output>, key: string) {
    && row.request == owner.request
    && FieldTaken(row.outputType, d.outputType, if prior.Some? then Some(prior.value.outputType) else None)
    && FieldTaken(row.format, d.format, if prior.Some? then Some(prior.value.format) else None)
    && FieldTaken(row.title, d.title, if prior.Some? then Some(prior.value.title) else None)
    && FieldTaken(row.caption, d.caption, if prior.Some? then Some(prior.value.caption) else None)
    && FieldTaken(row.cta, d.cta, if prior.Some? then Some(prior.value.cta) else None)
    && StatusTaken(row.status, d.status)
    && MetadataTaken(row.metadata, d, if prior.Some? then prior.value.metadata else map[], key)
    && (prior.Some? ==> row.template == prior.value.template)
    && (prior.None? ==> TemplateTaken(row.template, c, owner, d))
  }

  /** The asset: the old row's if it has one; else, for a completed item that brings one, a new
      asset of the owner's workspace holding just that; else none. */
  ghost predicate AssetTaken(row: Output, assets: seq<Asset>, since: nat, owner: Owner, d: OutputData,
                             prior: Option<Output>) {
    if prior.Some? && prior.value.asset.Some? then row.asset == prior.value.asset
    else if d.asset.Some? && row.status == Completed then
      && row.asset.Some? && since <= row.asset.value < |assets|
      && assets[row.asset.value] == Asset(owner.workspace, GeneratedOutput, d.asset.value)
    else row.asset.None?
  }

  function RowUnder(rows: seq<Output>, request: nat, key: string): Option<Output> {
    var f := Find(rows, request, key);
    if f.Some? then Some(rows[f.value]) else None
  }

  lemma StatusTable(text: Option<string>)
    ensures StatusTaken(StatusOf(text), text)
  {
  }

  lemma Resolves(c: Catalogue, owner: Owner, d: OutputData)
    ensures ResolveTemplate(c, owner, d).Some? <==> Resolvable(c, owner, d)
    ensures Resolvable(c, owner, d) ==> TemplateTaken(ResolveTemplate(c, owner, d).value, c, owner, d)
  {
  }

  lemma RevisedFields(o: Output, d: OutputData, key: string)
    ensures var row := Revise(o, d, key);
      && FieldTaken(row.outputType, d.outputType, Some(o.outputType))
      && FieldTaken(row.format, d.format, Some(o.format)) && FieldTaken(row.title, d.title, Some(o.title))
      && FieldTaken(row.caption, d.caption, Some(o.caption)) && FieldTaken(row.cta, d.cta, Some(o.cta))
      && StatusTaken(row.status, d.status) && MetadataTaken(row.metadata, d, o.metadata, key)
      && row.request == o.request && row.template == o.template && row.asset == o.asset
  {
    StatusTable(d.status);
  }

  lemma FoundFirst(rows: seq<Output>, request: nat, key: string, p: nat)
    requires p < |rows| && Bears(rows[p], request, key) && forall i :: 0 <= i < p ==> !Bears(rows[i], request, key)
    ensures Find(rows, request, key) == Some(p)
  {
    assert Find(rows, request, key).Some?;
  }

  lemma WrittenTo(rows: seq<Output>, request: nat, key: string, row: Output)
    requires Bears(row, request, key)
    ensures var f := Find(rows, request, key);
      Find(if f.Some? then rows[f.value := row] else rows + [row], request, key) == Some(f.GetOr(|rows|))
  {
    var f := Find(rows, request, key);
    var p := f.GetOr(|rows|);
    var after := if f.Some? then rows[f.value := row] else rows + [row];
    assert forall i :: 0 <= i < p ==> after[i] == rows[i];
    FoundFirst(after, request, key, p);
  }

  /** The row an item is written to: the one under its key, or a new last one. */
  lemma WrittenRow(s: Shelf, c: Catalogue, owner: Owner, d: OutputData, index: nat)
    requires Find(s.outputs, owner.request, OutputKey(d, index)).Some? || Resolvable(c, owner, d)
    ensures var key := OutputKey(d, index);
      var t, p := Upsert(s, c, owner, d, index), Find(s.outputs, owner.request, key).GetOr(|s.outputs|);
      && p < |t.outputs| && Find(t.outputs, owner.request, key) == Some(p)
  {
    Resolves(c, owner, d);
    var key := OutputKey(d, index);
    var t, p := Upsert(s, c, owner, d, index), Find(s.outputs, owner.request, key).GetOr(|s.outputs|);
    WrittenTo(s.outputs, owner.request, key, t.outputs[p]);
  }

  /** What is written there. */
  lemma WrittenContents(s: Shelf, c: Catalogue, owner: Owner, d: OutputData, index: nat)
    requires Find(s.outputs, owner.request, OutputKey(d, index)).Some? || Resolvable(c, owner, d)
    ensures ResolveTemplate(c, owner, d).Some? || Find(s.outputs, owner.request, OutputKey(d, index)).Some?
    ensures var key := OutputKey(d, index);
      var t, f := Upsert(s, c, owner, d, index), Find(s.outputs, owner.request, key);
      var start := if f.Some? then s.outputs[f.value] else BlankRow(owner, ResolveTemplate(c, owner, d).value);
      var row := RowUnder(t.outputs, owner.request, key);
      && row.Some? && row.value == Revise(start, d, key).(asset := row.value.asset)
      && AssetTaken(row.value, t.assets, |s.assets|, owner, d, RowUnder(s.outputs, owner.request, key))
  {
    WrittenRow(s, c, owner, d, index);
    Resolves(c, owner, d);
  }

  lemma MergedRow(s: Shelf, c: Catalogue, owner: Owner, d: OutputData, index: nat)
    requires Find(s.outputs, owner.request, OutputKey(d, index)).Some? || Resolvable(c, owner, d)
    ensures ItemTaken(s, Upsert(s, c, owner, d, index), c, owner, d, OutputKey(d, index))
  {
    WrittenContents(s, c, owner, d, index);
    Resolves(c, owner, d);
    var key := OutputKey(d, index);
    var f := Find(s.outputs, owner.request, key);
    RevisedFields(if f.Some? then s.outputs[f.value] else BlankRow(owner, ResolveTemplate(c, owner, d).value), d, key);
  }

  // ---------------------------------------------------------------- the whole list

  // `st` holds the shelf before the first item, between any two, and after the last.

  ghost predicate StageAt(st: seq<Shelf>, c: Catalogue, owner: Owner, ds: seq<OutputData>, n: nat)
    requires n < |ds| && |st| == |ds| + 1
  {
    st[n + 1] == Upsert(st[n], c, owner, ds[n], n)
  }

  ghost predicate Stages(st: seq<Shelf>, c: Catalogue, owner: Owner, ds: seq<OutputData>) {
    |st| == |ds| + 1 && forall n :: 0 <= n < |ds| ==> StageAt(st, c, owner, ds, n)
  }

  lemma StagesOf(s: Shelf, c: Catalogue, owner: Owner, ds: seq<OutputData>) returns (st: seq<Shelf>)
    ensures Stages(st, c, owner, ds) && st[0] == s && st[|ds|] == UpsertAll(s, c, owner, ds)
    ensures forall n :: 0 <= n <= |ds| ==> st[n] == UpsertAll(s, c, owner, ds[..n])
  {
    st := seq(|ds| + 1, n requires 0 <= n <= |ds| => UpsertAll(s, c, owner, ds[..n]));
    forall n | 0 <= n < |ds| ensures StageAt(st, c, owner, ds, n) { UpsertAllStep(s, c, owner, ds, n); }
    assert ds[..0] == [] && ds[..|ds|] == ds;
  }

  lemma OtherKeyUntouched(s: Shelf, c: Catalogue, owner: Owner, d: OutputData, j: nat, key: string)
    requires OutputKey(d, j) != key
    ensures var t := Upsert(s, c, owner, d, j);
      RowUnder(t.outputs, owner.request, key) == RowUnder(s.outputs, owner.request, key) && s.assets <= t.assets
  {
    UpsertTouchesItsKeyOnly(s, c, owner, d, j, key);
  }

  /** Items with other keys leave the row under this one as it is. */
  lemma {:induction false} KeyUntouched(st: seq<Shelf>, c: Catalogue, owner: Owner, ds: seq<OutputData>, m: nat, n: nat,
                                        key: string)
    requires Stages(st, c, owner, ds) && m <= n <= |ds|
    requires forall j :: m <= j < n ==> OutputKey(ds[j], j) != key
    ensures RowUnder(st[n].outputs, owner.request, key) == RowUnder(st[m].outputs, owner.request, key)
    ensures st[m].assets <= st[n].assets
    decreases n
  {
    if m < n {
      KeyUntouched(st, c, owner, ds, m, n - 1, key);
      assert StageAt(st, c, owner, ds, n - 1);
      OtherKeyUntouched(st[n - 1], c, owner, ds[n - 1], n - 1, key);
    }
  }

  ghost predicate ItemTaken(s: Shelf, t: Shelf, c: Catalogue, owner: Owner, d: OutputData, key: string) {
    var prior, row := RowUnder(s.outputs, owner.request, key), RowUnder(t.outputs, owner.request, key);
    && row.Some? && Carries(row.value, c, owner, d, prior, key)
    && AssetTaken(row.value, t.assets, |s.assets|, owner, d, prior)
  }

  lemma TakenAmong(s: Shelf, before: Shelf, after: Shelf, t: Shelf, c: Catalogue, owner: Owner, d: OutputData,
                   key: string)
    requires ItemTaken(before, after, c, owner, d, key)
    requires RowUnder(before.outputs, owner.request, key) == RowUnder(s.outputs, owner.request, key)
    requires RowUnder(t.outputs, owner.request, key) == RowUnder(after.outputs, owner.request, key)
    requires s.assets <= before.assets && after.assets <= t.assets
    ensures ItemTaken(s, t, c, owner, d, key)
  {
  }

  lemma RowOrTemplate(a: Shelf, b: Shelf, request: nat, key: string)
    requires RowUnder(a.outputs, request, key) == RowUnder(b.outputs, request, key)
    ensures Find(a.outputs, request, key).Some? <==> Find(b.outputs, request, key).Some?
  {
  }

  lemma StagedRow(st: seq<Shelf>, c: Catalogue, owner: Owner, ds: seq<OutputData>, i: nat)
    requires Stages(st, c, owner, ds) && DistinctKeys(ds) && i < |ds|
    requires Find(st[0].outputs, owner.request, OutputKey(ds[i], i)).Some? || Resolvable(c, owner, ds[i])
    ensures ItemTaken(st[0], st[|ds|], c, owner, ds[i], OutputKey(ds[i], i))
  {
    var key := OutputKey(ds[i], i);
    KeyUntouched(st, c, owner, ds, 0, i, key);
    RowOrTemplate(st[0], st[i], owner.request, key);
    MergedRow(st[i], c, owner, ds[i], i);
    assert StageAt(st, c, owner, ds, i);
    KeyUntouched(st, c, owner, ds, i + 1, |ds|, key);
    TakenAmong(st[0], st[i], st[i + 1], st[|ds|], c, owner, ds[i], key);
  }

  /** After merging a list with distinct keys, the row under an item's key, which exists if it
      existed or the item's template resolves, holds what that item and the old row say. */
  lemma MergedListRow(s: Shelf, c: Catalogue, owner: Owner, ds: seq<OutputData>, i: nat)
    requires DistinctKeys(ds) && i < |ds|
    requires Find(s.outputs, owner.request, OutputKey(ds[i], i)).Some? || Resolvable(c, owner, ds[i])
    ensures ItemTaken(s, UpsertAll(s, c, owner, ds), c, owner, ds[i], OutputKey(ds[i], i))
  {
    var st := StagesOf(s, c, owner, ds);
    StagedRow(st, c, owner, ds, i);
  }

  // ---------------------------------------------------------------- which items have a row

  /** The item's key has a row by the time it is merged: it had one, or it or an earlier item
      with the same key has a template. */
  predicate HasRow(s: Shelf, c: Catalogue, owner: Owner, ds: seq<OutputData>, i: nat)
    requires i < |ds|
  {
    || Find(s.outputs, owner.request, OutputKey(ds[i], i)).Some?
    || exists j :: 0 <= j <= i && OutputKey(ds[j], j) == OutputKey(ds[i], i) && Resolvable(c, owner, ds[j])
  }

  lemma FindAfter(s: Shelf, c: Catalogue, owner: Owner, d: OutputData, index: nat, key: string)
    ensures Find(Upsert(s, c, owner, d, index).outputs, owner.request, key).Some? <==>
      Find(s.outputs, owner.request, key).Some? || (OutputKey(d, index) == key && Resolvable(c, owner, d))
  {
    Resolves(c, owner, d);
    if OutputKey(d, index) != key {
      UpsertTouchesItsKeyOnly(s, c, owner, d, index, key);
    } else if Find(s.outputs, owner.request, key).Some? || Resolvable(c, owner, d) {
      WrittenRow(s, c, owner, d, index);
    }
  }

  /** One of the first n items has the key and a template. */
  predicate Provided(c: Catalogue, owner: Owner, ds: seq<OutputData>, n: nat, key: string)
    requires n <= |ds|
  {
    && n > 0
    && (Provided(c, owner, ds, n - 1, key) || (OutputKey(ds[n - 1], n - 1) == key && Resolvable(c, owner, ds[n - 1])))
  }

  lemma {:induction false} ProvidedIff(c: Catalogue, owner: Owner, ds: seq<OutputData>, n: nat, key: string)
    requires n <= |ds|
    ensures Provided(c, owner, ds, n, key) <==>
      exists j :: 0 <= j < n && OutputKey(ds[j], j) == key && Resolvable(c, owner, ds[j])
  {
    if n > 0 { ProvidedIff(c, owner, ds, n - 1, key); }
  }

  /** The merge of the first n items has a row under the key. */
  predicate KeptUnder(st: seq<Shelf>, owner: Owner, n: nat, key: string)
    requires n < |st|
  {
    RowUnder(st[n].outputs, owner.request, key).Some?
  }

  lemma {:induction false} KeptIffProvided(st: seq<Shelf>, c: Catalogue, owner: Owner, ds: seq<OutputData>, n: nat,
                                           key: string)
    requires Stages(st, c, owner, ds) && n <= |ds|
    ensures KeptUnder(st, owner, n, key) <==> KeptUnder(st, owner, 0, key) || Provided(c, owner, ds, n, key)
  {
    if n > 0 {
      KeptIffProvided(st, c, owner, ds, n - 1, key);
      KeptAtStage(st, c, owner, ds, n - 1, key);
    }
  }

  lemma KeptAtStage(st: seq<Shelf>, c: Catalogue, owner: Owner, ds: seq<OutputData>, n: nat, key: string)
    requires n < |ds| && |st| == |ds| + 1 && StageAt(st, c, owner, ds, n)
    ensures KeptUnder(st, owner, n + 1, key) <==>
      KeptUnder(st, owner, n, key) || (OutputKey(ds[n], n) == key && Resolvable(c, owner, ds[n]))
  {
    FindAfter(st[n], c, owner, ds[n], n, key);
  }

  /** The item leaves a completed row when it is merged. */
  predicate LeavesCompleted(s: Shelf, c: Catalogue, owner: Owner, ds: seq<OutputData>, i: nat)
    requires i < |ds|
  {
    ds[i].status !in {Some("failed"), Some("processing"), Some("rendering"), Some("queued")}
    && HasRow(s, c, owner, ds, i)
  }

  lemma OutcomeMeans(s: Shelf, c: Catalogue, owner: Owner, ds: seq<OutputData>, i: nat)
    requires i < |ds|
    ensures Outcome(UpsertAll(s, c, owner, ds[..i]), c, owner, ds[i], i) == Some(Completed)
       <==> LeavesCompleted(s, c, owner, ds, i)
  {
    var key := OutputKey(ds[i], i);
    var st := StagesOf(s, c, owner, ds);
    KeptIffProvided(st, c, owner, ds, i, key);
    Resolves(c, owner, ds[i]);
    StatusTable(ds[i].status);
    ProvidedIff(c, owner, ds, i, key);
  }

  lemma CountNext(s: Shelf, c: Catalogue, owner: Owner, ds: seq<OutputData>, n: nat)
    requires n < |ds|
    ensures CompletedCount(s, c, owner, ds[..n + 1]) == CompletedCount(s, c, owner, ds[..n])
      + if LeavesCompleted(s, c, owner, ds, n) then 1 else 0
  {
    OutcomeMeans(s, c, owner, ds, n);
    assert ds[..n + 1][..n] == ds[..n];
  }

  /** One of the first n items leaves a completed row. */
  ghost predicate SomeCompleted(s: Shelf, c: Catalogue, owner: Owner, ds: seq<OutputData>, n: nat)
    requires n <= |ds|
  {
    exists i :: 0 <= i < n && LeavesCompleted(s, c, owner, ds, i)
  }

  lemma SomeCompletedNext(s: Shelf, c: Catalogue, owner: Owner, ds: seq<OutputData>, n: nat)
    requires n < |ds|
    ensures SomeCompleted(s, c, owner, ds, n + 1)
       <==> SomeCompleted(s, c, owner, ds, n) || LeavesCompleted(s, c, owner, ds, n)
  {
  }

  /** Items were counted completed exactly when one leaves a completed row. */
  lemma {:induction false} CompletedIff(s: Shelf, c: Catalogue, owner: Owner, ds: seq<OutputData>, n: nat)
    requires n <= |ds|
    ensures CompletedCount(s, c, owner, ds[..n]) > 0 <==> SomeCompleted(s, c, owner, ds, n)
  {
    if n > 0 {
      CompletedIff(s, c, owner, ds, n - 1);
      CountNext(s, c, owner, ds, n - 1);
      SomeCompletedNext(s, c, owner, ds, n - 1);
    }
  }
}
