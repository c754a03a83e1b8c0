/** The renderer's job service: accept, render once, and hand one callback to the client. Each
    log call may raise or not, independently; which ones do is a parameter, so the exact
    guarantee can be stated. */
module RenderJob {
  import opened Prelude
  import opened Jobs
  import opened Settlement
  import opened Outputs

  datatype RenderStatus = Done | Partial | Broken

  /** An output as a renderer produces it: completed or failed, and never with an id. */
  datatype RenderOutput = RenderOutput(
    outputType: string, format: string, completed: bool,
    title: Option<string>, caption: Option<string>, cta: Option<string>, required: bool,
    templateKey: Option<string>, templateId: Option<string>,
    asset: Option<string>, metadata: map<string, string>)

  datatype RenderResult = RenderResult(status: RenderStatus, outputs: seq<RenderOutput>)

  datatype Envelope = Envelope(job: nat, workspace: nat, jobType: JobType, entityKind: EntityKind, entityId: nat)

  /** The places a log call is made. `CallbackRefused` follows a send that was not acknowledged,
      `CallbackThrew` stands in the handler around the send and the log after it. */
  datatype Log = JobAccepted | JobScheduled | RenderStarted | RenderCompleted | RenderFailed
               | CallbackStarted | CallbackCompleted | CallbackRefused | CallbackThrew | ExecutionFailed

  /** The normal execution and the safety net around it; no log place is passed twice in one. */
  datatype Phase = Normal | SafetyNet

  type Faults = set<(Phase, Log)>

  /** How the client's send ends. */
  datatype SendEnd = Acknowledged | Refused | Threw

  predicate Supported(t: JobType) {
    t.ContentGeneration? || t.ReportGeneration? || t.MediaKitGeneration?
  }

  // ---------------------------------------------------------------- payloads

  function Item(o: RenderOutput): OutputData {
    OutputData(None, Some(o.outputType), Some(o.format), Some(if o.completed then "completed" else "failed"),
               o.title, o.caption, o.cta, o.required, o.templateId, o.templateKey,
               if o.asset.Some? then Some(File(o.asset.value)) else None, o.metadata)
  }

  function Items(os: seq<RenderOutput>): (ds: seq<OutputData>)
    ensures |ds| == |os| && forall i :: 0 <= i < |os| ==> ds[i] == Item(os[i])
  {
    if os == [] then [] else Items(os[..|os| - 1]) + [Item(os[|os| - 1])]
  }

  /** The first completed output with an asset: the document of a report or media kit. */
  function FindDocument(os: seq<RenderOutput>): (r: Option<nat>)
    ensures r.Some? ==> r.value < |os| && os[r.value].completed && os[r.value].asset.Some?
                        && forall i :: 0 <= i < r.value ==> !(os[i].completed && os[i].asset.Some?)
    ensures r.None? ==> forall i :: 0 <= i < |os| ==> !(os[i].completed && os[i].asset.Some?)
  {
    if os == [] then None
    else
      var f := FindDocument(os[..|os| - 1]);
      if f.Some? then f
      else if os[|os| - 1].completed && os[|os| - 1].asset.Some? then Some(|os| - 1) else None
  }

  /** `{ asset, metadata }` for a report or media kit with a document, else `{ outputs }`. */
  function ResultField(t: JobType, result: RenderResult): CallbackResult {
    var doc := if t.ContentGeneration? then None else FindDocument(result.outputs);
    if doc.Some? then
      var o := result.outputs[doc.value];
      CallbackResult([], Block(File(o.asset.value)), Some(BlankFile), Some(o.metadata))
    else CallbackResult(Items(result.outputs), NoBlock, Some(BlankFile), None)
  }

  const RENDERER_META: Meta := map["renderer" := MetaText("content_renderer"), "renderer_version" := MetaText("0.1.0")]

  /** The same text whether the render failed or threw. */
  function FailureMessage(t: JobType): string {
    match t
    case ContentGeneration => "Falha ao gerar o conte\U{00FA}do."
    case ReportGeneration => "Falha ao gerar o relat\U{00F3}rio."
    case MediaKitGeneration => "Falha ao gerar o media kit."
    case _ => "Falha ao gerar o output do job."
  }

  function Payload(e: Envelope, result: RenderResult): Callback {
    match result.status
    case Broken => Callback(e.job, e.workspace, Some(e.entityKind), Some(e.entityId), JobStatus.Failed,
                            EMPTY_RESULT, FailureMessage(e.jobType), RENDERER_META)
    case Done => Callback(e.job, e.workspace, Some(e.entityKind), Some(e.entityId), JobStatus.Completed,
                          ResultField(e.jobType, result), "", RENDERER_META)
    case Partial => Callback(e.job, e.workspace, Some(e.entityKind), Some(e.entityId), PartiallyCompleted,
                             ResultField(e.jobType, result), "", RENDERER_META)
  }

  /** What a callback says: its status, whose render it is, and for a failed one the text shown to
      the customer. */
  lemma PayloadSays(e: Envelope, v: RenderResult)
    ensures var cb := Payload(e, v);
      && (cb.status == JobStatus.Completed <==> v.status == Done)
      && (cb.status == PartiallyCompleted <==> v.status == Partial)
      && (cb.status == JobStatus.Failed <==> v.status == Broken)
      && cb.metadata.Keys == {"renderer", "renderer_version"}
      && cb.metadata["renderer"] == MetaText("content_renderer")
      && (v.status != Broken ==> cb.message == "" && cb.result == ResultField(e.jobType, v))
      && (v.status == Broken ==> cb.message != "" && cb.result == EMPTY_RESULT)
      && (v.status == Broken && e.jobType == ContentGeneration ==>
            cb.message == "Falha ao gerar o conte\U{00FA}do.")
      && (v.status == Broken && e.jobType == ReportGeneration ==>
            cb.message == "Falha ao gerar o relat\U{00F3}rio.")
      && (v.status == Broken && e.jobType == MediaKitGeneration ==> cb.message == "Falha ao gerar o media kit.")
  {
  }

  function FailedOutputType(t: JobType): string {
    match t
    case ReportGeneration => "report"
    case MediaKitGeneration => "media_kit"
    case _ => "post"
  }

  function FailedResult(t: JobType): RenderResult {
    RenderResult(Broken, [
      RenderOutput(FailedOutputType(t), "", false, None, None, None, true, None, None, None, map[])])
  }

  // ---------------------------------------------------------------- what gets sent

  /** A render returns a result, or None when it throws; a timeout is a throw. */
  type Rendering = Option<RenderResult>

  /** The rendering as the service sees it: a log call that raises counts as a throw. */
  function Observed(r: Rendering, faults: Faults): Rendering {
    if (Normal, RenderStarted) in faults || (r.Some? && (Normal, RenderCompleted) in faults) then None else r
  }

  /** Does the handler around the send get to run? */
  predicate SendThrows(phase: Phase, end: SendEnd, faults: Faults) {
    match end
    case Acknowledged => (phase, CallbackCompleted) in faults
    case Refused => (phase, CallbackRefused) in faults
    case Threw => true
  }

  /** Does delivering raise? */
  predicate DeliveryRaises(phase: Phase, end: SendEnd, faults: Faults) {
    (phase, CallbackStarted) in faults || (SendThrows(phase, end, faults) && (phase, CallbackThrew) in faults)
  }

  function Delivered(phase: Phase, p: Callback, faults: Faults): seq<Callback> {
    if (phase, CallbackStarted) in faults then [] else [p]
  }

  function ExecutionSends(e: Envelope, r: Rendering, faults: Faults): seq<Callback> {
    match Observed(r, faults)
    case Some(v) => Delivered(Normal, Payload(e, v), faults)
    case None =>
      if (Normal, RenderFailed) in faults then [] else Delivered(Normal, Payload(e, FailedResult(e.jobType)), faults)
  }

  predicate ExecutionRaises(r: Rendering, end: SendEnd, faults: Faults) {
    (Observed(r, faults).None? && (Normal, RenderFailed) in faults) || DeliveryRaises(Normal, end, faults)
  }

  function SafetyNetSends(e: Envelope, faults: Faults): seq<Callback> {
    if (SafetyNet, ExecutionFailed) in faults || !Supported(e.jobType) then []
    else Delivered(SafetyNet, Payload(e, FailedResult(e.jobType)), faults)
  }

  function Sends(e: Envelope, r: Rendering, end: SendEnd, faults: Faults): seq<Callback> {
    ExecutionSends(e, r, faults) + if ExecutionRaises(r, end, faults) then SafetyNetSends(e, faults) else []
  }

  // ---------------------------------------------------------------- the service

  /** The service's only outside effect here: the callbacks handed to the client. `faults` says
      which log calls raise, `ends` how the client ends in each phase. */
  class JobService {
    var sent: seq<Callback>
    const faults: Faults
    const ends: map<Phase, SendEnd>

    constructor (faults: Faults, ends: map<Phase, SendEnd>)
      ensures sent == [] && this.faults == faults && this.ends == ends
    {
      sent := [];
      this.faults := faults;
      this.ends := ends;
    }

    function End(phase: Phase): SendEnd {
      if phase in ends then ends[phase] else Acknowledged
    }

    /** The reception gate: an unknown job type is declined and nothing is sent. */
    method AcceptJob(e: Envelope) returns (accepted: bool)
      ensures accepted <==> e.jobType in {ContentGeneration, ReportGeneration, MediaKitGeneration}
                            && (Normal, JobAccepted) !in faults
    {
      if !Supported(e.jobType) { return false; }
      accepted := (Normal, JobAccepted) !in faults;
    }

    method DeliverCallback(phase: Phase, e: Envelope, result: RenderResult) returns (raised: bool)
      modifies this`sent
      ensures sent == old(sent) + Delivered(phase, Payload(e, result), faults)
      ensures raised <==> DeliveryRaises(phase, End(phase), faults)
    {
      var payload := Payload(e, result);
      if (phase, CallbackStarted) in faults { return true; }
      sent := sent + [payload];
      // The log after the send sits inside the try, so its fault is caught and logged again.
      var caught := false;
      match End(phase) {
        case Acknowledged => caught := (phase, CallbackCompleted) in faults;
        case Refused => caught := (phase, CallbackRefused) in faults;
        case Threw => caught := true;
      }
      raised := false;
      if caught {
        raised := (phase, CallbackThrew) in faults;
      }
    }

    method ExecuteJob(e: Envelope, r: Rendering) returns (raised: bool)
      modifies this`sent
      ensures sent == old(sent) + ExecutionSends(e, r, faults)
      ensures raised <==> ExecutionRaises(r, End(Normal), faults)
    {
      var observed: Rendering := None;
      if (Normal, RenderStarted) !in faults {
        observed := r;
        if r.Some? && (Normal, RenderCompleted) in faults { observed := None; }
      }
      match observed {
        case None =>
          if (Normal, RenderFailed) in faults { return true; }
          raised := DeliverCallback(Normal, e, FailedResult(e.jobType));
        case Some(v) =>
          raised := DeliverCallback(Normal, e, v);
      }
    }

    /** The background runner with its safety net. */
    method RunInBackground(e: Envelope, r: Rendering)
      modifies this`sent
      ensures sent == old(sent) + Sends(e, r, End(Normal), faults)
    {
      var raised := ExecuteJob(e, r);
      if raised {
        if (SafetyNet, ExecutionFailed) in faults { return; }
        if Supported(e.jobType) {
          var ignored := DeliverCallback(SafetyNet, e, FailedResult(e.jobType));
        }
      }
    }

    /** Reception and background run together, as the HTTP layer uses them. */
    method Receive(e: Envelope, r: Rendering)
      modifies this`sent
      ensures sent == old(sent) +
        if Supported(e.jobType) && (Normal, JobAccepted) !in faults && (Normal, JobScheduled) !in faults then
          Sends(e, r, End(Normal), faults)
        else []
    {
      var accepted := AcceptJob(e);
      if accepted && (Normal, JobScheduled) !in faults { RunInBackground(e, r); }
    }
  }

  // ---------------------------------------------------------------- laws

  /** What a rendering is reported as; a throw is reported as a failed result. */
  function TheCallback(e: Envelope, r: Rendering): Callback {
    Payload(e, if r.Some? then r.value else FailedResult(e.jobType))
  }

  /** If no log call raises, exactly one callback leaves, whatever the renderer did and however
      the client's send ends, and it says what the renderer did. */
  lemma OneCallbackPerAcceptedJob(e: Envelope, r: Rendering, end: SendEnd)
    ensures Sends(e, r, end, {}) == [TheCallback(e, r)]
  {
  }

  /** The normal execution hands its callback over. */
  predicate NormalSends(r: Rendering, faults: Faults) {
    && (Normal, CallbackStarted) !in faults
    && (r.None? || (Normal, RenderStarted) in faults || (Normal, RenderCompleted) in faults ==>
          (Normal, RenderFailed) !in faults)
  }

  /** The send ends in the handler around it: the client threw, or the log after it did. */
  predicate SendCaught(end: SendEnd, faults: Faults) {
    || end == Threw
    || (end == Acknowledged && (Normal, CallbackCompleted) in faults)
    || (end == Refused && (Normal, CallbackRefused) in faults)
  }

  /** The safety net could still send one. */
  predicate NetCanSend(faults: Faults) {
    (SafetyNet, ExecutionFailed) !in faults && (SafetyNet, CallbackStarted) !in faults
  }

  /** At most two leave. The normal execution's and the safety net's both do exactly when the
      first was handed over, the handler around its send ran and its log call raised, and the
      net could still log; none does exactly when neither side could send. */
  lemma AtMostTwoCallbacks(e: Envelope, r: Rendering, end: SendEnd, faults: Faults)
    requires Supported(e.jobType)
    ensures |Sends(e, r, end, faults)| <= 2
    ensures |Sends(e, r, end, faults)| == 2 <==>
      && NormalSends(r, faults) && NetCanSend(faults)
      && SendCaught(end, faults) && (Normal, CallbackThrew) in faults
    ensures |Sends(e, r, end, faults)| == 0 <==> !NormalSends(r, faults) && !NetCanSend(faults)
  {
  }

  /** Every callback that leaves is one of the three statuses, names its own job and entity,
      carries outputs without ids and never the retry link. */
  lemma PayloadsAreOrderly(e: Envelope, r: Rendering, end: SendEnd, faults: Faults, k: nat)
    requires k < |Sends(e, r, end, faults)|
    ensures var cb := Sends(e, r, end, faults)[k];
      && cb.status in {JobStatus.Completed, PartiallyCompleted, JobStatus.Failed}
      && cb.job == e.job && cb.workspace == e.workspace
      && cb.entityKind == Some(e.entityKind) && cb.entityId == Some(e.entityId)
      && RETRIED_FROM !in cb.metadata
      && forall i :: 0 <= i < |cb.result.outputs| ==> cb.result.outputs[i].id == None
  {
    assert RETRIED_FROM != "renderer" && RETRIED_FROM != "renderer_version" by {
      assert RETRIED_FROM[2] != "renderer"[2];
      assert RETRIED_FROM[2] != "renderer_version"[2];
    }
  }
}
