/** Building blocks of concrete runs with one workspace, one content pack and one request: a run
    goes from stage to stage, a stage being what matters of a store. */
module Stages {
  import opened Prelude
  import opened Ledger
  import opened Jobs
  import opened Settlement
  import opened Conservation
  import opened Invariants
  import opened ExactSettlement
  import Outputs

  const START := EmptyStore(Outputs.Catalogue(map[], map[]))
  const CLOCK := Clock(1, 1)

  function PackAt(cost: int): Pack {
    Pack(None, true, cost, map[])
  }

  /** Grant 10, offer a content pack that costs 5. */
  const GRANT := Bill(Op(Grant, 7, 10, false, NoKey))
  const OFFER := AddPack(PackAt(5))

  const GRANTED := Entry(7, Grant, 10, 10, NoKey)
  const RESERVED := Entry(7, Reserve, -5, 5, PackReserve(0))
  const GIVEN_BACK := Entry(7, Release, 5, 10, PackRelease(0))

  function AfterGrant(): Store {
    START.(entries := [GRANTED], packs := [PackAt(5)])
  }

  lemma GrantAndPack()
    ensures Next(Next(START, GRANT), OFFER) == AfterGrant()
  {
  }

  /** The ledger, the request's status and the statuses of its jobs, all of the same workspace. */
  ghost predicate AtStage(s: Store, cost: int, es: seq<Entry>, request: RequestStatus, jobs: seq<JobStatus>) {
    && s.entries == es && s.packs == [PackAt(cost)]
    && |s.requests| == 1 && s.requests[0].workspace == 7 && s.requests[0].pack == 0
    && s.requests[0].status == request
    && |s.jobs| == |jobs|
    && forall j :: 0 <= j < |jobs| ==>
         && s.jobs[j].workspace == 7 && s.jobs[j].status == jobs[j]
         && s.jobs[j].jobType == ContentGeneration && s.jobs[j].entity == PackEntity(0)
  }

  lemma StageSubject(s: Store, cost: int, es: seq<Entry>, request: RequestStatus, jobs: seq<JobStatus>, j: nat)
    requires AtStage(s, cost, es, request, jobs) && j < |jobs|
    ensures SubjectOf(s, j) == PackSubject(0) && CostOf(s, 0) == cost && WorkspaceOf(s, 0) == 7
  {
  }

  // ---------------------------------------------------------------- requesting

  /** The store with the request and its job, before the submission. */
  function JobStored(): Store {
    var s := WithRequest(AfterGrant(), 7, 0, 1);
    s.(jobs := [JobFrom(PackRequestDraft(7, 0))])
  }

  lemma RequestReserves()
    ensures CreateRefusal(AfterGrant(), 7, 0, 1).None?
    ensures WithRequest(AfterGrant(), 7, 0, 1).entries == [GRANTED, RESERVED]
    ensures AtStage(JobStored(), 5, [GRANTED, RESERVED], RequestQueued, [Queued])
  {
    BalanceOf1(GRANTED);
  }

  lemma OpensFirstJob(a: Attempt)
    requires a.breaks.Whole?
    ensures Open(WithRequest(AfterGrant(), 7, 0, 1), PackRequestDraft(7, 0), a) == Submit(JobStored(), 0, a)
  {
    var s1, d := WithRequest(AfterGrant(), 7, 0, 1), PackRequestDraft(7, 0);
    assert FindActive(s1.jobs, 7, EffectiveKey(d)).None?;
    assert s1.jobs + [JobFrom(d)] == [JobFrom(d)];
  }

  /** Linking the job to its request does not change the stage. */
  lemma LinkingKeepsStage(s: Store, job: nat, es: seq<Entry>, request: RequestStatus, jobs: seq<JobStatus>)
    requires AtStage(s, 5, es, request, jobs)
    ensures AtStage(s.(requests := s.requests[0 := s.requests[0].(job := Some(job))]), 5, es, request, jobs)
  {
  }

  /** Requesting the content pack leads to the stage its submission leads to. */
  lemma Requests(a: Attempt, es: seq<Entry>, request: RequestStatus, jobs: seq<JobStatus>)
    requires a.breaks.Whole? && a.clock == CLOCK
    requires AtStage(Submit(JobStored(), 0, a), 5, es, request, jobs)
    ensures AtStage(Next(AfterGrant(), RequestPack(7, 0, a)), 5, es, request, jobs)
  {
    RequestReserves();
    OpensFirstJob(a);
    var s1, d := WithRequest(AfterGrant(), 7, 0, 1), PackRequestDraft(7, 0);
    LinkingKeepsStage(Submit(JobStored(), 0, a), ServingJob(s1, d), es, request, jobs);
  }

  // ---------------------------------------------------------------- submitting

  lemma SubmitsDry(s: Store, j: nat, a: Attempt, es: seq<Entry>, request: RequestStatus, jobs: seq<JobStatus>)
    requires AtStage(s, 5, es, request, jobs) && j < |jobs| && a.submission.DryRun?
    ensures AtStage(Submit(s, j, a), 5, es, request, jobs[j := Submitted])
  {
  }

  function FailedAs(a: Attempt): JobStatus {
    if a.submission.TimedOut? then Timeout else Failed
  }

  lemma FailsUntold(s: Store, j: nat, a: Attempt, es: seq<Entry>, request: RequestStatus, jobs: seq<JobStatus>)
    requires AtStage(s, 5, es, request, jobs) && j < |jobs| && Failing(a) && !Told(a)
    ensures AtStage(Submit(s, j, a), 5, es, request, jobs[j := FailedAs(a)])
  {
    StageSubject(s, 5, es, request, jobs, j);
    FailingSubmission(s, j, 0, a);
  }

  lemma FailsTold(s: Store, j: nat, a: Attempt, es: seq<Entry>, request: RequestStatus, jobs: seq<JobStatus>)
    requires AtStage(s, 5, es, request, jobs) && j < |jobs| && Failing(a) && Told(a)
    ensures AtStage(Submit(s, j, a), 5, Settle(es, 7, 0, 5, false), RequestFailed, jobs[j := FailedAs(a)])
  {
    StageSubject(s, 5, es, request, jobs, j);
    FailingSubmission(s, j, 0, a);
    var s1 := MarkedFailed(s, j, a);
    assert AtStage(s1, 5, es, request, jobs[j := FailedAs(a)]);
    Tells(s1, j, a, es, request, jobs[j := FailedAs(a)]);
  }

  lemma Tells(s: Store, j: nat, a: Attempt, es: seq<Entry>, request: RequestStatus, jobs: seq<JobStatus>)
    requires AtStage(s, 5, es, request, jobs) && j < |jobs| && Failing(a) && jobs[j] == FailedAs(a)
    ensures AtStage(Dispatch(s, j, jobs[j], EMPTY_RESULT, a.submission.message, map[], a.clock),
                    5, Settle(es, 7, 0, 5, false), RequestFailed, jobs)
  {
    StageSubject(s, 5, es, request, jobs, j);
    assert Dispatch(s, j, jobs[j], EMPTY_RESULT, a.submission.message, map[], a.clock)
        == PackFailedWith(s, j, 0, jobs[j], a.submission.message, map[], a.clock);
  }

  // ---------------------------------------------------------------- other steps

  /** A retry when no job is open leads to the stage its submission leads to. */
  lemma Retries(s: Store, j: nat, a: Attempt, es: seq<Entry>, request: RequestStatus, jobs: seq<JobStatus>)
    requires AtStage(s, 5, es, request, jobs) && j < |jobs| && Retryable(jobs[j]) && a.breaks.Whole?
    requires forall i :: 0 <= i < |jobs| ==> Terminal(jobs[i])
    ensures var s1 := s.(jobs := s.jobs + [JobFrom(RetryDraft(s.jobs[j], j))]);
      && AtStage(s1, 5, es, request, jobs + [Queued])
      && Next(s, RetryJob(j, a)) == Submit(s1, |jobs|, a)
  {
    var d := RetryDraft(s.jobs[j], j);
    assert FindActive(s.jobs, d.workspace, EffectiveKey(d)).None?;
  }

  lemma Cancels(s: Store, es: seq<Entry>, request: RequestStatus, status: JobStatus)
    requires AtStage(s, 5, es, request, [status]) && !Terminal(status)
    ensures AtStage(Next(s, Cancel({0}, 1)), 5, es, request, [Cancelled])
  {
  }

  /** A `completed` callback without outputs for job j. */
  function Completion(j: nat): Callback {
    Callback(j, 7, None, None, Completed, EMPTY_RESULT, "", map[])
  }

  lemma Completes(s: Store, j: nat, es: seq<Entry>, request: RequestStatus, jobs: seq<JobStatus>)
    requires AtStage(s, 5, es, request, jobs) && j < |jobs| && !Terminal(jobs[j])
    ensures AtStage(Next(s, Post(Completion(j), false, CLOCK)), 5, Settle(es, 7, 0, 5, true), RequestCompleted,
                    jobs[j := Completed])
  {
    var s1 := Received(s, j, 1);
    assert Gate(s, Completion(j)) == Processed;
    assert AtStage(s1, 5, es, request, jobs);
    StageSubject(s1, 5, es, request, jobs, j);
    assert Deliver(s, Completion(j), false, CLOCK) == PackSucceeded(s1, j, 0, Completed, [], map[], CLOCK);
  }

  // ---------------------------------------------------------------- running

  lemma RunTwo(s: Store, a: Step, b: Step)
    ensures RunSteps(s, [a, b]) == Next(Next(s, a), b)
  {
    OneMore(s, [], a);
    OneMore(s, [a], b);
    assert [] + [a] == [a] && [a] + [b] == [a, b];
  }

  lemma RunThree(s: Store, a: Step, b: Step, c: Step)
    ensures RunSteps(s, [a, b, c]) == Next(Next(Next(s, a), b), c)
  {
    RunTwo(s, a, b);
    OneMore(s, [a, b], c);
    assert [a, b] + [c] == [a, b, c];
  }

  lemma RunFour(s: Store, a: Step, b: Step, c: Step, d: Step)
    ensures RunSteps(s, [a, b, c, d]) == Next(Next(Next(Next(s, a), b), c), d)
  {
    RunThree(s, a, b, c);
    OneMore(s, [a, b, c], d);
    assert [a, b, c] + [d] == [a, b, c, d];
  }

  // ---------------------------------------------------------------- balances

  lemma BalanceOf1(a: Entry)
    requires a.workspace == 7
    ensures Balance([a], 7) == a.amount
    ensures a.key == NoKey ==> Direct([a], 7) == a.amount
  {
    assert [a][..0] == [];
  }

  lemma BalanceOf2(a: Entry, b: Entry)
    requires a.workspace == 7 && b.workspace == 7 && a.key == NoKey && RequestOf(b.key).Some?
    ensures Balance([a, b], 7) == a.amount + b.amount
    ensures Direct([a, b], 7) == a.amount
  {
    assert [a, b][..1] == [a];
    BalanceOf1(a);
  }

  lemma BalanceOf3(a: Entry, b: Entry, c: Entry)
    requires a.workspace == 7 && b.workspace == 7 && c.workspace == 7
    requires a.key == NoKey && RequestOf(b.key).Some? && RequestOf(c.key).Some?
    ensures Balance([a, b, c], 7) == a.amount + b.amount + c.amount
    ensures Direct([a, b, c], 7) == a.amount
  {
    assert [a, b, c][..2] == [a, b];
    BalanceOf2(a, b);
  }

  lemma BalanceOf4(a: Entry, b: Entry, c: Entry, d: Entry)
    requires a.workspace == 7 && b.workspace == 7 && c.workspace == 7 && d.workspace == 7
    requires a.key == NoKey && RequestOf(b.key).Some? && RequestOf(c.key).Some?
    ensures Balance([a, b, c, d], 7) == a.amount + b.amount + c.amount + d.amount
  {
    assert [a, b, c, d][..3] == [a, b, c];
    BalanceOf3(a, b, c);
  }
}
