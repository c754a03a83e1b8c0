/** A concrete plain run that the end-to-end theorem applies to: the callback of a completed
    rendering crashes once and is handled twice. */
module RenderedRun {
  import opened Prelude
  import opened Jobs
  import opened Settlement
  import opened Invariants
  import opened ExactSettlement
  import opened Delivery
  import opened EndToEnd
  import opened Stages
  import opened PriceRise
  import Conservation
  import Outputs
  import RenderJob

  const ENVELOPE := RenderJob.Envelope(0, 7, ContentGeneration, PackRequestKind, 0)
  const RENDERING: RenderJob.Rendering := Some(RenderJob.RenderResult(RenderJob.Done, []))

  function TheirCallback(): Callback {
    RenderJob.TheCallback(ENVELOPE, RENDERING)
  }

  /** Grant 10, offer a content pack that costs 5, request it. */
  function Opening(): seq<Step> {
    [GRANT, OFFER, RequestPack(7, 0, DRY)]
  }

  function Deliveries(): seq<Step> {
    [Post(TheirCallback(), true, CLOCK), Post(TheirCallback(), false, CLOCK), Post(TheirCallback(), false, CLOCK)]
  }

  lemma Opened()
    ensures AtStage(RunSteps(START, Opening()), 5, [GRANTED, RESERVED], RequestQueued, [Submitted])
  {
    GrantAndPack();
    DryRequest();
    RunThree(START, GRANT, OFFER, RequestPack(7, 0, DRY));
  }

  lemma PlainOneMore(steps: seq<Step>, last: Step)
    requires PlainRun(START, steps, 0) && PlainFor(RunSteps(START, steps), last, 0)
    ensures PlainRun(START, steps + [last], 0)
  {
    assert (steps + [last])[..|steps + [last]| - 1] == steps;
  }

  lemma OpeningIsPlain()
    ensures PlainRun(START, Opening(), 0)
  {
    var a, b, c := Opening()[0], Opening()[1], Opening()[2];
    PlainOneMore([], a);
    PlainOneMore([a], b);
    PlainOneMore([a, b], c);
    assert [] + [a] == [a] && [a] + [b] == [a, b] && [a, b] + [c] == Opening();
  }

  /** A callback that ends its job keeps a run plain. */
  lemma PlainPost(steps: seq<Step>, post: Step)
    requires PlainRun(START, steps, 0) && post.Post? && post.callback.status == Completed
    ensures PlainRun(START, steps + [post], 0)
  {
    PlainOneMore(steps, post);
  }

  lemma DeliveriesArePlain()
    ensures PlainRun(START, Opening() + Deliveries(), 0)
  {
    OpeningIsPlain();
    var o, posts := Opening(), Deliveries();
    PlainPost(o, posts[0]);
    PlainPost(o + [posts[0]], posts[1]);
    PlainPost(o + [posts[0]] + [posts[1]], posts[2]);
    assert o + [posts[0]] + [posts[1]] + [posts[2]] == o + posts;
  }

  lemma DeliveriesComplete(s: Store)
    requires Inv(s) && AtStage(s, 5, [GRANTED, RESERVED], RequestQueued, [Submitted])
    ensures var t := RunSteps(s, Deliveries());
      0 < |t.jobs| && t.jobs[0].status == Completed
  {
    var steps := Deliveries();
    CallbacksDecide(s, steps, 0);
    DecidedAt(s.jobs[0].status, steps, 1);
    FirstTerminalDecides(s, steps, 1, 0);
  }

  /** The run as the end-to-end theorem wants it. */
  lemma ItsTheoremApplies()
    ensures var steps, cb := Opening() + Deliveries(), TheirCallback();
      && PlainRun(START, steps, 0) && steps[..3] == Opening() && steps[3..] == Deliveries()
      && OnlyItsCallback(steps, 3, cb) && Handles(steps[3..], cb)
  {
    DeliveriesArePlain();
    var steps := Opening() + Deliveries();
    assert steps[..3] == Opening() && steps[3..] == Deliveries();
    assert IsPostOf(Deliveries()[1], TheirCallback());
  }

  /** The job is completed and the reserved credits are consumed, not released. */
  lemma RenderedRunConsumes()
    ensures var t := RunSteps(START, Opening() + Deliveries());
      && 0 < |t.requests| && 0 < |t.jobs| && t.jobs[0].status == Completed
      && Consumed(t, 0) && !Conservation.Released(t, 0)
  {
    var catalogue := Outputs.Catalogue(map[], map[]);
    Opened();
    ItsTheoremApplies();
    ReachableInv(catalogue, Opening());
    RunStepsConcat(START, Opening(), Deliveries());
    DeliveriesComplete(RunSteps(START, Opening()));
    RenderedOnceSettledOnce(catalogue, Opening() + Deliveries(), 3, 0, ENVELOPE, RENDERING, RenderJob.Acknowledged);
  }
}
