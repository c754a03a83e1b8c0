/** A concrete run in which settlement credits a workspace with more than it reserved. */
module PriceRise {
  import opened Prelude
  import opened Ledger
  import opened Jobs
  import opened Settlement
  import opened Conservation
  import opened Invariants
  import opened Stages

  const DRY := Attempt(DryRun, true, CLOCK, Whole)
  const RELEASED := Entry(7, Release, 8, 13, PackRelease(0))

  function FailedCallback(): Callback {
    Callback(0, 7, None, None, Failed, EMPTY_RESULT, "render failed", map[])
  }

  /** Grant 10, request a content pack that costs 5, raise its price to 8, let its job fail. */
  function RaisedPriceRun(): seq<Step> {
    [GRANT, OFFER, RequestPack(7, 0, DRY), EditPack(0, PackAt(8)), Post(FailedCallback(), false, CLOCK)]
  }

  lemma DryRequest()
    ensures AtStage(Next(AfterGrant(), RequestPack(7, 0, DRY)), 5, [GRANTED, RESERVED], RequestQueued, [Submitted])
  {
    RequestReserves();
    SubmitsDry(JobStored(), 0, DRY, [GRANTED, RESERVED], RequestQueued, [Queued]);
    assert [Queued][0 := Submitted] == [Submitted];
    Requests(DRY, [GRANTED, RESERVED], RequestQueued, [Submitted]);
  }

  lemma RaisedRelease()
    ensures Settle([GRANTED, RESERVED], 7, 0, 8, false) == [GRANTED, RESERVED, RELEASED]
  {
    BalanceOf2(GRANTED, RESERVED);
    assert Lookup([GRANTED, RESERVED], 7, PackRelease(0)).None?;
  }

  lemma RaiseAndFail(s: Store)
    requires AtStage(s, 5, [GRANTED, RESERVED], RequestQueued, [Submitted])
    ensures Next(Next(s, EditPack(0, PackAt(8))), Post(FailedCallback(), false, CLOCK)).entries
         == [GRANTED, RESERVED, RELEASED]
  {
    var s1 := Next(s, EditPack(0, PackAt(8)));
    assert AtStage(s1, 8, [GRANTED, RESERVED], RequestQueued, [Submitted]);
    var s2 := Received(s1, 0, 1);
    StageSubject(s2, 8, [GRANTED, RESERVED], RequestQueued, [Submitted], 0);
    assert Gate(s1, FailedCallback()) == Processed;
    RaisedRelease();
  }

  /** The workspace was given 10 credits and ends up with 13. */
  lemma RaisedPriceMints()
    ensures var es := RunSteps(START, RaisedPriceRun()).entries;
      Direct(es, 7) == 10 && Balance(es, 7) == 13
  {
    var steps := RaisedPriceRun();
    GrantAndPack();
    DryRequest();
    RaiseAndFail(Next(AfterGrant(), steps[2]));
    BalanceOf3(GRANTED, RESERVED, RELEASED);
    RunFour(START, steps[0], steps[1], steps[2], steps[3]);
    OneMore(START, [steps[0], steps[1], steps[2], steps[3]], steps[4]);
    assert [steps[0], steps[1], steps[2], steps[3]] + [steps[4]] == steps;
  }
}
