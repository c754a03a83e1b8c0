/** A concrete run in which a delivered and charged content pack becomes free: its first job was
    cancelled, a retry of it was completed, and the cancelled job, still retryable, is retried
    once more in vain. */
module UndoneCharge {
  import opened Prelude
  import opened Ledger
  import opened Jobs
  import opened Settlement
  import opened Invariants
  import opened ExactSettlement
  import opened Stages
  import opened PriceRise
  import Conservation

  const IN_VAIN := Attempt(Rejected("renderer down"), true, CLOCK, Whole)
  const CHARGED := Entry(7, Consume, 0, 5, PackConsume(0))
  const UNDONE := Entry(7, Release, 5, 10, PackRelease(0))

  /** Request a content pack that costs 5, cancel its job, retry it, complete the retry. */
  function ChargedRun(): seq<Step> {
    [GRANT, OFFER, RequestPack(7, 0, DRY), Cancel({0}, 1), RetryJob(0, DRY), Post(Completion(1), false, CLOCK)]
  }

  lemma Charges()
    ensures Settle([GRANTED, RESERVED], 7, 0, 5, true) == [GRANTED, RESERVED, CHARGED]
  {
    BalanceOf2(GRANTED, RESERVED);
    assert Lookup([GRANTED, RESERVED], 7, PackConsume(0)).None?;
  }

  lemma Undoes()
    ensures Settle([GRANTED, RESERVED, CHARGED], 7, 0, 5, false) == [GRANTED, RESERVED, CHARGED, UNDONE]
  {
    BalanceOf3(GRANTED, RESERVED, CHARGED);
    assert Lookup([GRANTED, RESERVED, CHARGED], 7, PackRelease(0)).None?;
  }

  lemma CancelledAndRetried(s: Store)
    requires AtStage(s, 5, [GRANTED, RESERVED], RequestQueued, [Submitted])
    ensures AtStage(Next(Next(s, Cancel({0}, 1)), RetryJob(0, DRY)), 5, [GRANTED, RESERVED], RequestQueued,
                    [Cancelled, Submitted])
  {
    var s1 := Next(s, Cancel({0}, 1));
    Cancels(s, [GRANTED, RESERVED], RequestQueued, Submitted);
    Retries(s1, 0, DRY, [GRANTED, RESERVED], RequestQueued, [Cancelled]);
    SubmitsDry(s1.(jobs := s1.jobs + [JobFrom(RetryDraft(s1.jobs[0], 0))]), 1, DRY, [GRANTED, RESERVED],
               RequestQueued, [Cancelled] + [Queued]);
    assert ([Cancelled] + [Queued])[1 := Submitted] == [Cancelled, Submitted];
  }

  lemma ChargedStage()
    ensures AtStage(RunSteps(START, ChargedRun()), 5, [GRANTED, RESERVED, CHARGED], RequestCompleted,
                    [Cancelled, Completed])
  {
    var steps := ChargedRun();
    var s := Next(AfterGrant(), steps[2]);
    GrantAndPack();
    DryRequest();
    CancelledAndRetried(s);
    Completes(Next(Next(s, steps[3]), steps[4]), 1, [GRANTED, RESERVED], RequestQueued, [Cancelled, Submitted]);
    Charges();
    assert [Cancelled, Submitted][1 := Completed] == [Cancelled, Completed];
    RunFour(START, steps[0], steps[1], steps[2], steps[3]);
    OneMore(START, steps[..4], steps[4]);
    OneMore(START, steps[..5], steps[5]);
    assert steps[..4] == [steps[0], steps[1], steps[2], steps[3]];
    assert steps[..4] + [steps[4]] == steps[..5] && steps[..5] + [steps[5]] == steps;
  }

  lemma RetriedInVain(s: Store)
    requires AtStage(s, 5, [GRANTED, RESERVED, CHARGED], RequestCompleted, [Cancelled, Completed])
    ensures AtStage(Next(s, RetryJob(0, IN_VAIN)), 5, [GRANTED, RESERVED, CHARGED, UNDONE], RequestFailed,
                    [Cancelled, Completed, Failed])
  {
    var es, jobs := [GRANTED, RESERVED, CHARGED], [Cancelled, Completed];
    Retries(s, 0, IN_VAIN, es, RequestCompleted, jobs);
    FailsTold(s.(jobs := s.jobs + [JobFrom(RetryDraft(s.jobs[0], 0))]), 2, IN_VAIN, es, RequestCompleted,
              jobs + [Queued]);
    Undoes();
    assert (jobs + [Queued])[2 := Failed] == [Cancelled, Completed, Failed];
  }

  /** Before the last retry the request is completed and charged; after it, it is failed, both
      rows exist, and the workspace has back the 10 credits it was given. */
  lemma RetryUndoesCharge()
    ensures var s, t := RunSteps(START, ChargedRun()), RunSteps(START, ChargedRun() + [RetryJob(0, IN_VAIN)]);
      && |s.requests| == 1 && s.requests[0].status == RequestCompleted
      && Consumed(s, 0) && !Conservation.Released(s, 0) && Balance(s.entries, 7) == 5
      && |t.requests| == 1 && t.requests[0].status == RequestFailed
      && Consumed(t, 0) && Conservation.Released(t, 0) && Balance(t.entries, 7) == 10
  {
    ChargedStage();
    OneMore(START, ChargedRun(), RetryJob(0, IN_VAIN));
    RetriedInVain(RunSteps(START, ChargedRun()));
    BalanceOf3(GRANTED, RESERVED, CHARGED);
    BalanceOf4(GRANTED, RESERVED, CHARGED, UNDONE);
    var es := [GRANTED, RESERVED, CHARGED, UNDONE];
    assert es[2].key == PackConsume(0) && es[3].key == PackRelease(0);
    assert es[..3][2].key == PackConsume(0) && es[..3] == [GRANTED, RESERVED, CHARGED];
  }
}
