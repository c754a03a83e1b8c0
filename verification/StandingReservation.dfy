/** Two concrete runs that end with a reservation nobody will settle: a failed submission whose
    request was not told, and a cancelled job. */
module StandingReservation {
  import opened Prelude
  import opened Ledger
  import opened Jobs
  import opened Settlement
  import opened Invariants
  import opened ExactSettlement
  import opened StandingCharge
  import opened Stages
  import opened PriceRise

  const UNTOLD := Attempt(Rejected("renderer down"), false, CLOCK, Whole)

  function UntoldRun(): seq<Step> {
    [GRANT, OFFER, RequestPack(7, 0, UNTOLD)]
  }

  function CancelledRun(): seq<Step> {
    [GRANT, OFFER, RequestPack(7, 0, DRY), Cancel({0}, 1)]
  }

  /** The request is queued, its only job is over, and its 5 credits are still reserved. */
  ghost predicate Stranded(s: Store) {
    && |s.requests| == 1 && s.requests[0].status == RequestQueued && Unsettled(s, 0) && AllJobsOver(s, 0)
    && Balance(s.entries, 7) == 5
  }

  lemma StageIsStranded(s: Store, status: JobStatus)
    requires AtStage(s, 5, [GRANTED, RESERVED], RequestQueued, [status]) && Terminal(status)
    ensures Stranded(s)
  {
    BalanceOf2(GRANTED, RESERVED);
    assert Lookup([GRANTED, RESERVED], 7, PackConsume(0)).None? && Lookup([GRANTED, RESERVED], 7, PackRelease(0)).None?;
  }

  lemma UntoldFailureStrands()
    ensures Stranded(RunSteps(START, UntoldRun()))
  {
    RequestReserves();
    FailsUntold(JobStored(), 0, UNTOLD, [GRANTED, RESERVED], RequestQueued, [Queued]);
    assert [Queued][0 := Failed] == [Failed];
    Requests(UNTOLD, [GRANTED, RESERVED], RequestQueued, [Failed]);
    GrantAndPack();
    RunThree(START, GRANT, OFFER, RequestPack(7, 0, UNTOLD));
    StageIsStranded(RunSteps(START, UntoldRun()), Failed);
  }

  lemma CancellationStrands()
    ensures Stranded(RunSteps(START, CancelledRun()))
  {
    var steps := CancelledRun();
    GrantAndPack();
    DryRequest();
    Cancels(Next(AfterGrant(), steps[2]), [GRANTED, RESERVED], RequestQueued, Submitted);
    RunFour(START, steps[0], steps[1], steps[2], steps[3]);
    StageIsStranded(RunSteps(START, steps), Cancelled);
  }

  /** A stranded reservation stays stranded until a job is opened or retried for its request. */
  lemma StrandedStays(s: Store, steps: seq<Step>)
    requires Stranded(s) && RunOpensNone(s, steps, 0)
    ensures var t := RunSteps(s, steps);
      0 < |t.requests| && t.requests[0] == s.requests[0] && Unsettled(t, 0)
  {
    SettledRequestStands(s, steps, 0);
  }
}
