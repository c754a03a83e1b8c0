/** What a report or media kit ends up with when its job was rendered: the file it was rendered
    to, or, when there was none, an asset that names no file. */
module Documents {
  import opened Prelude
  import opened Jobs
  import opened Settlement
  import opened Delivery
  import opened Answers
  import opened Outcomes
  import opened EndToEnd
  import RenderJob
  import Outputs

  /** Some output was completed and has a file. */
  predicate HasDocument(os: seq<RenderJob.RenderOutput>) {
    exists i :: 0 <= i < |os| && os[i].completed && os[i].asset.Some?
  }

  /** One new asset was stored and linked; it describes a file exactly when one was rendered, and
      then it describes the first. */
  ghost predicate LinkedAsRendered(s: Store, t: Store, asset: Option<nat>, v: RenderJob.RenderResult) {
    && asset == Some(|s.shelf.assets|) && |t.shelf.assets| == |s.shelf.assets| + 1
    && var data := t.shelf.assets[|s.shelf.assets|].data;
       && (data.File? <==> HasDocument(v.outputs))
       && forall i :: 0 <= i < |v.outputs| && v.outputs[i].completed && v.outputs[i].asset.Some?
            && (forall k :: 0 <= k < i ==> !(v.outputs[k].completed && v.outputs[k].asset.Some?))
            ==> data == Outputs.File(v.outputs[i].asset.value)
  }

  /** The document's metadata is overlaid by that of the first output with a file, if there is
      one. */
  ghost predicate DescribedAsRendered(before: map<string, string>, after: map<string, string>,
                                      v: RenderJob.RenderResult)
  {
    && (!HasDocument(v.outputs) ==> after == before)
    && forall i :: 0 <= i < |v.outputs| && v.outputs[i].completed && v.outputs[i].asset.Some?
         && (forall k :: 0 <= k < i ==> !(v.outputs[k].completed && v.outputs[k].asset.Some?))
         ==> after == before + v.outputs[i].metadata
  }

  lemma BlockSent(t: JobType, v: RenderJob.RenderResult)
    requires !t.ContentGeneration?
    ensures var data := AssetOf(RenderJob.ResultField(t, v));
      && data.Some? && (data.value.File? <==> HasDocument(v.outputs))
      && forall i :: 0 <= i < |v.outputs| && v.outputs[i].completed && v.outputs[i].asset.Some?
           && (forall k :: 0 <= k < i ==> !(v.outputs[k].completed && v.outputs[k].asset.Some?))
           ==> data.value == Outputs.File(v.outputs[i].asset.value)
               && RenderJob.ResultField(t, v).metadata == Some(v.outputs[i].metadata)
    ensures !HasDocument(v.outputs) ==> RenderJob.ResultField(t, v).metadata.None?
  {
    var f := RenderJob.FindDocument(v.outputs);
  }

  /** The renderer's callback for an open job passes the gate. */
  lemma PassesGate(s: Store, e: RenderJob.Envelope, v: RenderJob.RenderResult)
    requires EnvelopeOf(e, s, e.job) && !Terminal(s.jobs[e.job].status) && !v.status.Broken?
    ensures var cb := RenderJob.Payload(e, v);
      && Fresh(s, cb) && cb.status in {Completed, PartiallyCompleted}
      && cb.result == RenderJob.ResultField(e.jobType, v)
  {
  }

  lemma FinishedAsRendered(s: Store, t: Store, before: Document, after: Document, status: DocumentStatus,
                           kind: Outputs.AssetKind, jobType: JobType, v: RenderJob.RenderResult)
    requires !jobType.ContentGeneration? && before.asset.None?
    requires Finished(before, after, status, RenderJob.ResultField(jobType, v))
    requires AssetTakenFrom(before, after, s.shelf.assets, t.shelf.assets, kind, RenderJob.ResultField(jobType, v))
    ensures LinkedAsRendered(s, t, after.asset, v) && DescribedAsRendered(before.metadata, after.metadata, v)
  {
    BlockSent(jobType, v);
  }

  /** A handled success callback for a report without an asset stores and links one, and it is a
      real file exactly when one of the outputs was completed with a file; otherwise the result
      object itself is read as an asset block and a blank asset is linked. */
  lemma ReportLinksRealIff(s: Store, e: RenderJob.Envelope, v: RenderJob.RenderResult, clock: Clock)
    requires EnvelopeOf(e, s, e.job) && !Terminal(s.jobs[e.job].status) && !v.status.Broken?
    requires e.jobType == ReportGeneration && e.entityKind == ReportKind && e.entityId < |s.reports|
    requires s.reports[e.entityId].asset.None?
    ensures var t := Deliver(s, RenderJob.Payload(e, v), false, clock);
      && |t.reports| == |s.reports| && t.reports[e.entityId].status == ReportCompleted
      && LinkedAsRendered(s, t, t.reports[e.entityId].asset, v)
      && DescribedAsRendered(s.reports[e.entityId].metadata, t.reports[e.entityId].metadata, v)
  {
    var cb := RenderJob.Payload(e, v);
    PassesGate(s, e, v);
    ReportHandled(s, cb, clock, e.entityId);
    var t := Deliver(s, cb, false, clock);
    FinishedAsRendered(s, t, s.reports[e.entityId], t.reports[e.entityId], ReportCompleted, Outputs.ReportPdf,
                       e.jobType, v);
  }

  /** The same for media kits. */
  lemma KitLinksRealIff(s: Store, e: RenderJob.Envelope, v: RenderJob.RenderResult, clock: Clock)
    requires EnvelopeOf(e, s, e.job) && !Terminal(s.jobs[e.job].status) && !v.status.Broken?
    requires e.jobType == MediaKitGeneration && e.entityKind == MediaKitKind && e.entityId < |s.kits|
    requires s.kits[e.entityId].asset.None?
    ensures var t := Deliver(s, RenderJob.Payload(e, v), false, clock);
      && |t.kits| == |s.kits| && t.kits[e.entityId].status == KitGenerated
      && LinkedAsRendered(s, t, t.kits[e.entityId].asset, v)
      && DescribedAsRendered(s.kits[e.entityId].metadata, t.kits[e.entityId].metadata, v)
  {
    var cb := RenderJob.Payload(e, v);
    PassesGate(s, e, v);
    KitHandled(s, cb, clock, e.entityId);
    var t := Deliver(s, cb, false, clock);
    FinishedAsRendered(s, t, s.kits[e.entityId], t.kits[e.entityId], KitGenerated, Outputs.MediaKitAsset, e.jobType, v);
  }
}
