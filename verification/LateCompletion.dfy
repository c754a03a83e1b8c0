/** A concrete run in which a completed content pack costs nothing: its submission times out,
    which releases the reservation, and the renderer completes it all the same. */
module LateCompletion {
  import opened Prelude
  import opened Ledger
  import opened Jobs
  import opened Settlement
  import opened Invariants
  import opened ExactSettlement
  import opened Stages
  import Conservation

  const LATE := Attempt(TimedOut("no answer"), true, CLOCK, Whole)
  const CONSUMED := Entry(7, Consume, 0, 10, PackConsume(0))

  /** Grant 10, request a content pack that costs 5, time out submitting it, receive its completion. */
  function LateRun(): seq<Step> {
    [GRANT, OFFER, RequestPack(7, 0, LATE), Post(Completion(0), false, CLOCK)]
  }

  lemma GivesBack()
    ensures Settle([GRANTED, RESERVED], 7, 0, 5, false) == [GRANTED, RESERVED, GIVEN_BACK]
  {
    BalanceOf2(GRANTED, RESERVED);
    assert Lookup([GRANTED, RESERVED], 7, PackRelease(0)).None?;
  }

  lemma ConsumesNothing()
    ensures Settle([GRANTED, RESERVED, GIVEN_BACK], 7, 0, 5, true) == [GRANTED, RESERVED, GIVEN_BACK, CONSUMED]
  {
    BalanceOf3(GRANTED, RESERVED, GIVEN_BACK);
    assert Lookup([GRANTED, RESERVED, GIVEN_BACK], 7, PackConsume(0)).None?;
  }

  lemma RequestTimesOut()
    ensures AtStage(Next(AfterGrant(), RequestPack(7, 0, LATE)), 5, [GRANTED, RESERVED, GIVEN_BACK], RequestFailed,
                    [Timeout])
  {
    RequestReserves();
    FailsTold(JobStored(), 0, LATE, [GRANTED, RESERVED], RequestQueued, [Queued]);
    assert [Queued][0 := Timeout] == [Timeout];
    GivesBack();
    Requests(LATE, [GRANTED, RESERVED, GIVEN_BACK], RequestFailed, [Timeout]);
  }

  /** The request is completed, the workspace still has the 10 credits it was given. */
  lemma LateCompletionIsFree()
    ensures var s := RunSteps(START, LateRun());
      && |s.requests| == 1 && s.requests[0].status == RequestCompleted && Balance(s.entries, 7) == 10
      && Conservation.Released(s, 0) && Consumed(s, 0)
  {
    var steps := LateRun();
    GrantAndPack();
    RequestTimesOut();
    Completes(Next(AfterGrant(), steps[2]), 0, [GRANTED, RESERVED, GIVEN_BACK], RequestFailed, [Timeout]);
    ConsumesNothing();
    RunFour(START, steps[0], steps[1], steps[2], steps[3]);
    BalanceOf4(GRANTED, RESERVED, GIVEN_BACK, CONSUMED);
    var es := [GRANTED, RESERVED, GIVEN_BACK, CONSUMED];
    assert es[2].key == PackRelease(0) && es[3].key == PackConsume(0);
  }
}
