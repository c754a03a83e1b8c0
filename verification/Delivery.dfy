/** At-least-once delivery over a lossy link, seen from the store: duplicates, lost responses
    and crashed handlers leave the effects of exactly one delivery, whatever other steps happen
    in between. */
module Delivery {
  import opened Prelude
  import opened Jobs
  import opened Settlement
  import opened Invariants
  import opened Receipts
  import Client = CallbackClient

  // ---------------------------------------------------------------- one callback, many times

  /** After a delivery that did not crash, the same callback never passes the gate again. */
  lemma DeliveryClosesGate(s: Store, cb: Callback, clock: Clock)
    ensures Gate(Deliver(s, cb, false, clock), cb) != Processed
  {
    if Gate(s, cb) == Processed {
      var s1 := Received(s, cb.job, clock.now);
      DispatchJobs(s1, cb.job, cb.status, cb.result, cb.message, cb.metadata, clock);
    }
  }

  /** A crashed attempt leaves only its receipt, which the next one overwrites. */
  lemma CrashLeavesNoTrace(s: Store, cb: Callback, crash: Clock, clock: Clock)
    ensures Deliver(Deliver(s, cb, true, crash), cb, false, clock) == Deliver(s, cb, false, clock)
    ensures Deliver(Deliver(s, cb, true, crash), cb, true, clock) == Deliver(s, cb, true, clock)
  {
    if Gate(s, cb) == Processed {
      assert Received(Received(s, cb.job, crash.now), cb.job, clock.now) == Received(s, cb.job, clock.now);
    }
  }

  /** What became of one attempt on Django's side. */
  datatype Reach = Lost | Crashed(clock: Clock) | Handled(clock: Clock)

  function Attempted(s: Store, cb: Callback, reach: Reach): Store {
    match reach
    case Lost => s
    case Crashed(clock) => Deliver(s, cb, true, clock)
    case Handled(clock) => Deliver(s, cb, false, clock)
  }

  /** Attempts that follow each other directly. */
  function Serve(s: Store, cb: Callback, reaches: seq<Reach>): Store {
    if reaches == [] then s
    else Attempted(Serve(s, cb, reaches[..|reaches| - 1]), cb, reaches[|reaches| - 1])
  }

  function FirstHandled(reaches: seq<Reach>): (r: Option<nat>)
    ensures r.Some? ==> r.value < |reaches| && reaches[r.value].Handled?
                        && forall i :: 0 <= i < r.value ==> !reaches[i].Handled?
    ensures r.None? ==> forall i :: 0 <= i < |reaches| ==> !reaches[i].Handled?
  {
    if reaches == [] then None
    else
      var f := FirstHandled(reaches[..|reaches| - 1]);
      if f.Some? then f else if reaches[|reaches| - 1].Handled? then Some(|reaches| - 1) else None
  }

  /** Same store up to the time at which job j's last callback was received. */
  ghost predicate SameButReceipt(s: Store, t: Store, j: nat) {
    t == s || (j < |s.jobs| && exists now :: t == Received(s, j, now))
  }

  /** Any pattern of lost, crashed and handled attempts equals the first handled one alone;
      without a handled one nothing but the receipt time differs. */
  lemma {:induction false} AtLeastOnceIsExactlyOnce(s: Store, cb: Callback, reaches: seq<Reach>)
    ensures match FirstHandled(reaches)
      case Some(f) => Serve(s, cb, reaches) == Deliver(s, cb, false, reaches[f].clock)
      case None => SameButReceipt(s, Serve(s, cb, reaches), cb.job)
                   && forall clock :: Deliver(Serve(s, cb, reaches), cb, false, clock) == Deliver(s, cb, false, clock)
  {
    if reaches != [] {
      var front, last := reaches[..|reaches| - 1], reaches[|reaches| - 1];
      AtLeastOnceIsExactlyOnce(s, cb, front);
      var before := Serve(s, cb, front);
      match FirstHandled(front) {
        case Some(f) => DeliveryClosesGate(s, cb, front[f].clock);
        case None =>
          if last.Crashed? {
            if Gate(before, cb) == Processed {
              assert SameButReceipt(s, Received(before, cb.job, last.clock.now), cb.job) by {
                assert Received(before, cb.job, last.clock.now) == Received(s, cb.job, last.clock.now);
              }
            }
            forall clock
              ensures Deliver(Serve(s, cb, reaches), cb, false, clock) == Deliver(s, cb, false, clock)
            {
              CrashLeavesNoTrace(before, cb, last.clock, clock);
            }
          }
      }
    }
  }

  // ---------------------------------------------------------------- among other steps

  /** The run without the callbacks addressed to job j. */
  function WithoutCallbacks(steps: seq<Step>, j: nat): seq<Step> {
    if steps == [] then []
    else
      var last := steps[|steps| - 1];
      WithoutCallbacks(steps[..|steps| - 1], j) + if last.Post? && last.callback.job == j then [] else [last]
  }

  lemma TerminalJobRefuses(s: Store, cb: Callback, raises: bool, clock: Clock)
    requires cb.job < |s.jobs| && Terminal(s.jobs[cb.job].status)
    ensures Deliver(s, cb, raises, clock) == s
  {
  }

  lemma TerminalJobStays(s: Store, steps: seq<Step>, j: nat)
    requires Inv(s) && j < |s.jobs| && Terminal(s.jobs[j].status)
    ensures j < |RunSteps(s, steps).jobs| && RunSteps(s, steps).jobs[j] == s.jobs[j]
  {
    RunKeeps(s, steps);
  }

  /** Once a job is terminal, every callback for it, whatever it says and whatever happens in
      between, changes nothing: the run equals the run without them. */
  lemma {:induction false} TerminalJobsIgnoreCallbacks(s: Store, steps: seq<Step>, j: nat)
    requires Inv(s) && j < |s.jobs| && Terminal(s.jobs[j].status)
    ensures RunSteps(s, steps) == RunSteps(s, WithoutCallbacks(steps, j))
  {
    if steps != [] {
      var front, last := steps[..|steps| - 1], steps[|steps| - 1];
      TerminalJobsIgnoreCallbacks(s, front, j);
      TerminalJobStays(s, front, j);
      var w := WithoutCallbacks(front, j);
      OneMore(s, front, last);
      assert front + [last] == steps;
      if last.Post? && last.callback.job == j {
        TerminalJobRefuses(RunSteps(s, front), last.callback, last.raises, last.clock);
        assert w + [] == w;
      } else {
        OneMore(s, w, last);
      }
    }
  }

  // ---------------------------------------------------------------- once among other steps

  predicate IsPostOf(step: Step, cb: Callback) {
    step.Post? && step.callback == cb
  }

  /** Some delivery of the callback was handled. */
  predicate Handles(steps: seq<Step>, cb: Callback) {
    exists i :: 0 <= i < |steps| && IsPostOf(steps[i], cb) && !steps[i].raises
  }

  /** The run with the callback's first handled delivery only: its crashed and its later ones
      are dropped, every other step stays where it is. */
  function OnceOnly(steps: seq<Step>, cb: Callback): seq<Step> {
    if steps == [] then []
    else
      var front, last := steps[..|steps| - 1], steps[|steps| - 1];
      OnceOnly(front, cb)
      + if IsPostOf(last, cb) && (last.raises || Handles(front, cb)) then [] else [last]
  }

  function CountPosts(steps: seq<Step>, cb: Callback): nat {
    if steps == [] then 0
    else CountPosts(steps[..|steps| - 1], cb) + if IsPostOf(steps[|steps| - 1], cb) then 1 else 0
  }

  lemma HandlesFront(steps: seq<Step>, cb: Callback)
    requires steps != []
    ensures var front, last := steps[..|steps| - 1], steps[|steps| - 1];
      Handles(steps, cb) <==> Handles(front, cb) || (IsPostOf(last, cb) && !last.raises)
  {
    var front, last := steps[..|steps| - 1], steps[|steps| - 1];
    if Handles(front, cb) {
      var i :| 0 <= i < |front| && IsPostOf(front[i], cb) && !front[i].raises;
      assert IsPostOf(steps[i], cb);
    }
    if i :| 0 <= i < |steps| && IsPostOf(steps[i], cb) && !steps[i].raises {
      assert i < |front| ==> IsPostOf(front[i], cb);
    }
  }

  lemma {:induction false} OnceOnlyCounts(steps: seq<Step>, cb: Callback)
    ensures CountPosts(OnceOnly(steps, cb), cb) == if Handles(steps, cb) then 1 else 0
  {
    if steps != [] {
      var front, last := steps[..|steps| - 1], steps[|steps| - 1];
      var once := OnceOnly(front, cb);
      OnceOnlyCounts(front, cb);
      HandlesFront(steps, cb);
      assert once + [] == once && (once + [last])[..|once|] == once;
    }
  }

  /** The gate never opens again for a callback that would end its job. */
  lemma GateStaysClosed(s: Store, t: Store, cb: Callback)
    requires cb.job < |s.jobs| && Terminal(cb.status) && Evolves(s, t)
    requires Gate(s, cb) != Processed
    ensures Gate(t, cb) != Processed
  {
  }

  lemma {:induction false} HandledClosesGate(s: Store, steps: seq<Step>, cb: Callback)
    requires Inv(s) && cb.job < |s.jobs| && Terminal(cb.status) && Handles(steps, cb)
    ensures Gate(RunSteps(s, steps), cb) != Processed
  {
    var front, last := steps[..|steps| - 1], steps[|steps| - 1];
    var mid := RunSteps(s, front);
    RunKeeps(s, front);
    HandlesFront(steps, cb);
    if Handles(front, cb) {
      HandledClosesGate(s, front, cb);
      NextKeeps(mid, last);
      GateStaysClosed(mid, RunSteps(s, steps), cb);
    } else {
      DeliveryClosesGate(mid, cb, last.clock);
    }
  }

  /** At-least-once is exactly-once, among any other steps: a run with any number of crashed and
      repeated deliveries of a callback that ends its job equals, up to receipt times, the run
      with the first handled delivery alone. */
  lemma {:induction false} InterleavedIsExactlyOnce(s: Store, steps: seq<Step>, cb: Callback)
    requires Inv(s) && cb.job < |s.jobs| && Terminal(cb.status)
    ensures Alike(RunSteps(s, OnceOnly(steps, cb)), RunSteps(s, steps))
  {
    if steps != [] {
      var front, last := steps[..|steps| - 1], steps[|steps| - 1];
      var once := OnceOnly(front, cb);
      var a, b := RunSteps(s, once), RunSteps(s, front);
      InterleavedIsExactlyOnce(s, front, cb);
      if IsPostOf(last, cb) && last.raises {
        CrashAlike(a, b, cb, last.clock);
        assert once + [] == once;
      } else if IsPostOf(last, cb) && Handles(front, cb) {
        HandledClosesGate(s, front, cb);
        assert Next(b, last) == b && once + [] == once;
      } else {
        NextAlike(a, b, last);
        OneMore(s, once, last);
      }
    }
  }

  // ---------------------------------------------------------------- with the renderer's client

  /** A reply the client can see for an attempt with this fate: 2xx only if Django answered
      that the callback was processed or had been; otherwise an error or no response. */
  ghost predicate CanSee(s: Store, cb: Callback, reach: Reach, reply: Client.Reply) {
    Client.Delivered(reply) ==>
      reach.Handled? && Gate(s, cb) in {Processed, NoOp}
  }

  /** The store's step, if any, that an attempt causes. */
  function AttemptSteps(cb: Callback, reach: Reach): seq<Step> {
    match reach
    case Lost => []
    case Crashed(clock) => [Post(cb, true, clock)]
    case Handled(clock) => [Post(cb, false, clock)]
  }

  /** The steps up to and including attempt k, with what others did before each attempt. */
  function Timeline(cb: Callback, others: seq<seq<Step>>, reaches: seq<Reach>, k: nat): seq<Step>
    requires k <= |reaches| == |others|
  {
    if k == 0 then []
    else (Timeline(cb, others, reaches, k - 1) + others[k - 1]) + AttemptSteps(cb, reaches[k - 1])
  }

  /** The steps before the (0-based) attempt. */
  function BeforeAttempt(cb: Callback, others: seq<seq<Step>>, reaches: seq<Reach>, k: nat): seq<Step>
    requires k < |reaches| == |others|
  {
    Timeline(cb, others, reaches, k) + others[k]
  }

  lemma OnePost(s: Store, before: seq<Step>, cb: Callback, raises: bool, clock: Clock)
    ensures RunSteps(s, before + [Post(cb, raises, clock)]) == Deliver(RunSteps(s, before), cb, raises, clock)
  {
    OneMore(s, before, Post(cb, raises, clock));
  }

  lemma OneAttempt(s: Store, before: seq<Step>, cb: Callback, reach: Reach)
    ensures RunSteps(s, before + AttemptSteps(cb, reach)) == Attempted(RunSteps(s, before), cb, reach)
  {
    if reach.Lost? {
      assert before + [] == before;
    } else {
      OnePost(s, before, cb, reach.Crashed?, reach.clock);
    }
  }

  lemma SuccessfulAnswer(s: Store, cb: Callback, clock: Clock)
    requires Gate(s, cb) in {Processed, NoOp}
    ensures var t := Deliver(s, cb, false, clock);
      cb.job < |t.jobs| && t.jobs[cb.job].status == cb.status
  {
    if Gate(s, cb) == Processed {
      DispatchJobs(Received(s, cb.job, clock.now), cb.job, cb.status, cb.result, cb.message, cb.metadata, clock);
    }
  }

  lemma SuccessMeansHandled(s: Store, cb: Callback, others: seq<seq<Step>>, reaches: seq<Reach>, k: nat)
    requires 1 <= k <= |reaches| == |others| && reaches[k - 1].Handled?
    requires Gate(RunSteps(s, BeforeAttempt(cb, others, reaches, k - 1)), cb) in {Processed, NoOp}
    ensures Handles(Timeline(cb, others, reaches, k), cb)
    ensures var t := RunSteps(s, Timeline(cb, others, reaches, k));
      cb.job < |t.jobs| && t.jobs[cb.job].status == cb.status
  {
    var before, reach := BeforeAttempt(cb, others, reaches, k - 1), reaches[k - 1];
    OneAttempt(s, before, cb, reach);
    LastIsHandled(before, cb, reach.clock);
    SuccessfulAnswer(RunSteps(s, before), cb, reach.clock);
  }

  lemma LastIsHandled(before: seq<Step>, cb: Callback, clock: Clock)
    ensures Handles(before + [Post(cb, false, clock)], cb)
  {
    var made := before + [Post(cb, false, clock)];
    assert IsPostOf(made[|made| - 1], cb);
  }

  lemma {:induction false} QuietTimeline(s: Store, cb: Callback, others: seq<seq<Step>>, reaches: seq<Reach>, k: nat)
    requires k <= |reaches| == |others| && Quiet(others)
    ensures RunSteps(s, Timeline(cb, others, reaches, k)) == Serve(s, cb, reaches[..k])
  {
    if k > 0 {
      var before := Timeline(cb, others, reaches, k - 1);
      QuietTimeline(s, cb, others, reaches, k - 1);
      assert before + others[k - 1] == before;
      OneAttempt(s, before, cb, reaches[k - 1]);
      ServeOne(s, cb, reaches, k);
    }
  }

  lemma ServeOne(s: Store, cb: Callback, reaches: seq<Reach>, k: nat)
    requires 1 <= k <= |reaches|
    ensures Serve(s, cb, reaches[..k]) == Attempted(Serve(s, cb, reaches[..k - 1]), cb, reaches[k - 1])
  {
    assert reaches[..k][..k - 1] == reaches[..k - 1];
  }

  /** A callback that ends its job had its effects at most once, among these steps. */
  ghost predicate OnceAmongOthers(s: Store, steps: seq<Step>, cb: Callback) {
    Inv(s) && cb.job < |s.jobs| && Terminal(cb.status) ==>
      && Alike(RunSteps(s, OnceOnly(steps, cb)), RunSteps(s, steps))
      && CountPosts(OnceOnly(steps, cb), cb) == if Handles(steps, cb) then 1 else 0
  }

  lemma OnceAmongOthersHolds(s: Store, steps: seq<Step>, cb: Callback)
    ensures OnceAmongOthers(s, steps, cb)
  {
    if Inv(s) && cb.job < |s.jobs| && Terminal(cb.status) {
      InterleavedIsExactlyOnce(s, steps, cb);
      OnceOnlyCounts(steps, cb);
    }
  }

  /** The store is that of one delivery, or of none but for a receipt time. */
  ghost predicate OnceOrNever(s: Store, t: Store, cb: Callback) {
    SameButReceipt(s, t, cb.job) || exists clock :: t == Deliver(s, cb, false, clock)
  }

  lemma QuietExchange(s: Store, cb: Callback, others: seq<seq<Step>>, reaches: seq<Reach>, k: nat)
    requires k <= |reaches| == |others| && Quiet(others)
    ensures OnceOrNever(s, RunSteps(s, Timeline(cb, others, reaches, k)), cb)
  {
    QuietTimeline(s, cb, others, reaches, k);
    AtLeastOnceIsExactlyOnce(s, cb, reaches[..k]);
  }

  /** Every reply is one the client can see at its attempt. */
  ghost predicate AllSeen(s: Store, cb: Callback, others: seq<seq<Step>>, reaches: seq<Reach>,
                          replies: seq<Client.Reply>) {
    && |replies| == |reaches| == |others|
    && forall i {:trigger replies[i]} :: 0 <= i < |replies| ==>
         CanSee(RunSteps(s, BeforeAttempt(cb, others, reaches, i)), cb, reaches[i], replies[i])
  }

  predicate Quiet(others: seq<seq<Step>>) {
    forall i :: 0 <= i < |others| ==> others[i] == []
  }

  /** What the client's result says about the store after attempt k. */
  ghost predicate Accomplished(s: Store, cb: Callback, steps: seq<Step>, ok: bool) {
    ok ==>
      && Handles(steps, cb)
      && cb.job < |RunSteps(s, steps).jobs| && RunSteps(s, steps).jobs[cb.job].status == cb.status
  }

  lemma RepliesAccomplish(s: Store, cb: Callback, others: seq<seq<Step>>, reaches: seq<Reach>,
                          replies: seq<Client.Reply>, k: nat, ok: bool)
    requires AllSeen(s, cb, others, reaches, replies) && 1 <= k <= |replies|
    requires ok ==> Client.Delivered(replies[k - 1])
    ensures Accomplished(s, cb, Timeline(cb, others, reaches, k), ok)
  {
    if ok {
      assert CanSee(RunSteps(s, BeforeAttempt(cb, others, reaches, k - 1)), cb, reaches[k - 1], replies[k - 1]);
      SuccessMeansHandled(s, cb, others, reaches, k);
    }
  }

  /** What the whole exchange comes to: the steps taken and what they accomplished. */
  ghost predicate Exchanged(s: Store, cb: Callback, others: seq<seq<Step>>, reaches: seq<Reach>, k: nat, ok: bool,
                            steps: seq<Step>)
    requires k <= |reaches| == |others|
  {
    && steps == Timeline(cb, others, reaches, k)
    && Accomplished(s, cb, steps, ok) && OnceAmongOthers(s, steps, cb)
    && (Quiet(others) ==> OnceOrNever(s, RunSteps(s, steps), cb))
  }

  lemma ExchangeLeaves(s: Store, cb: Callback, others: seq<seq<Step>>, reaches: seq<Reach>,
                       replies: seq<Client.Reply>, k: nat, ok: bool)
    returns (steps: seq<Step>)
    requires AllSeen(s, cb, others, reaches, replies) && 1 <= k <= |replies|
    requires ok ==> Client.Delivered(replies[k - 1])
    ensures Exchanged(s, cb, others, reaches, k, ok, steps)
  {
    steps := Timeline(cb, others, reaches, k);
    RepliesAccomplish(s, cb, others, reaches, replies, k, ok);
    OnceAmongOthersHolds(s, steps, cb);
    if Quiet(others) { QuietExchange(s, cb, others, reaches, k); }
  }

  /** The whole exchange: the client's retry loop against a store that any number of attempts
      reached, and on which others took any steps before each attempt. If the client reports
      success, the callback was handled and its job has its status. In any case the store is,
      up to receipt times, that of the same steps with at most one delivery of a callback that
      ends its job; and without other steps, that of at most one delivery of any callback. */
  method SendAndServe(c: Client.Config, replies: seq<Client.Reply>, ghost s: Store, ghost cb: Callback,
                      ghost others: seq<seq<Step>>, ghost reaches: seq<Reach>)
    returns (result: Client.CallbackResult, ghost steps: seq<Step>)
    requires Client.Sane(c) && |replies| == c.maxAttempts && AllSeen(s, cb, others, reaches, replies)
    requires forall i :: 0 <= i < |replies| ==> replies[i].took <= c.timeoutMs
    ensures 1 <= result.attempts <= c.maxAttempts
    ensures Exchanged(s, cb, others, reaches, result.attempts, result.ok, steps)
  {
    result := Outcome(c, replies);
    steps := ExchangeLeaves(s, cb, others, reaches, replies, result.attempts, result.ok);
  }

  /** The client's result without its timing. */
  method Outcome(c: Client.Config, replies: seq<Client.Reply>) returns (result: Client.CallbackResult)
    requires Client.Sane(c) && |replies| == c.maxAttempts
    requires forall i :: 0 <= i < |replies| ==> replies[i].took <= c.timeoutMs
    ensures 1 <= result.attempts <= c.maxAttempts
    ensures result.ok <==> Client.Delivered(replies[result.attempts - 1])
  {
    var slept, busy;
    result, slept, busy := Client.Send(c, replies);
  }

  // ---------------------------------------------------------------- first terminal decides

  /** The callback names the job and contradicts neither its workspace nor its entity. */
  predicate WellFormed(s: Store, cb: Callback, j: nat) {
    && cb.job == j && j < |s.jobs| && cb.workspace == s.jobs[j].workspace
    && (s.jobs[j].entity.Entity? && cb.entityKind.Some? ==> cb.entityKind.value == s.jobs[j].entity.kind)
    && (s.jobs[j].entity.Entity? && cb.entityId.Some? ==> cb.entityId.value == s.jobs[j].entity.id)
  }

  /** Deliveries of well-formed callbacks, each at its own time, some of them crashing. */
  ghost predicate Posts(s: Store, steps: seq<Step>, j: nat) {
    forall i :: 0 <= i < |steps| ==> steps[i].Post? && WellFormed(s, steps[i].callback, j)
  }

  /** A delivery that decides: it is handled and its status is terminal. */
  predicate Decides(step: Step) {
    step.Post? && !step.raises && Terminal(step.callback.status)
  }

  /** The status deliveries lead to: the first terminal one handled, else the last handled. */
  function Decided(status: JobStatus, steps: seq<Step>): JobStatus {
    if steps == [] then status
    else
      var before, last := Decided(status, steps[..|steps| - 1]), steps[|steps| - 1];
      if Terminal(before) || !last.Post? || last.raises then before else last.callback.status
  }

  lemma WellFormedStays(s: Store, t: Store, cb: Callback, j: nat)
    requires WellFormed(s, cb, j) && Evolves(s, t)
    ensures WellFormed(t, cb, j)
  {
  }

  lemma DeliverSetsStatus(s: Store, cb: Callback, raises: bool, clock: Clock, j: nat)
    requires WellFormed(s, cb, j) && !Terminal(s.jobs[j].status)
    ensures var t := Deliver(s, cb, raises, clock);
      j < |t.jobs| && t.jobs[j].status == if raises then s.jobs[j].status else cb.status
  {
    if Gate(s, cb) == Processed {
      DispatchJobs(Received(s, j, clock.now), j, cb.status, cb.result, cb.message, cb.metadata, clock);
    }
  }

  lemma {:induction false} CallbacksDecide(s: Store, steps: seq<Step>, j: nat)
    requires Inv(s) && j < |s.jobs| && Posts(s, steps, j)
    ensures var t := RunSteps(s, steps);
      j < |t.jobs| && t.jobs[j].status == Decided(s.jobs[j].status, steps)
  {
    RunKeeps(s, steps);
    if steps != [] {
      var front, last := steps[..|steps| - 1], steps[|steps| - 1];
      assert Posts(s, front, j);
      CallbacksDecide(s, front, j);
      RunKeeps(s, front);
      var mid := RunSteps(s, front);
      WellFormedStays(s, mid, last.callback, j);
      if Terminal(mid.jobs[j].status) {
        TerminalJobRefuses(mid, last.callback, last.raises, last.clock);
      } else {
        DeliverSetsStatus(mid, last.callback, last.raises, last.clock, j);
      }
    }
  }

  /** From a non-terminal job, well-formed callbacks end in the first terminal status handled
      among them, and everything after that delivery leaves the whole store as it was. */
  lemma FirstTerminalDecides(s: Store, steps: seq<Step>, k: nat, j: nat)
    requires Inv(s) && j < |s.jobs| && !Terminal(s.jobs[j].status) && Posts(s, steps, j)
    requires k < |steps| && Decides(steps[k]) && forall i :: 0 <= i < k ==> !Decides(steps[i])
    ensures var t := RunSteps(s, steps);
      j < |t.jobs| && t.jobs[j].status == steps[k].callback.status && t == RunSteps(s, steps[..k + 1])
  {
    DecidedBy(s, steps, k, j);
    SplitRun(s, steps, k + 1);
    var later := steps[k + 1..];
    LaterPostsIgnored(RunSteps(s, steps[..k + 1]), later, j);
  }

  lemma DecidedBy(s: Store, steps: seq<Step>, k: nat, j: nat)
    requires Inv(s) && j < |s.jobs| && !Terminal(s.jobs[j].status) && Posts(s, steps, j)
    requires k < |steps| && Decides(steps[k]) && forall i :: 0 <= i < k ==> !Decides(steps[i])
    ensures var mid := RunSteps(s, steps[..k + 1]);
      j < |mid.jobs| && mid.jobs[j].status == steps[k].callback.status
  {
    assert Posts(s, steps[..k + 1], j);
    CallbacksDecide(s, steps[..k + 1], j);
    DecidedAt(s.jobs[j].status, steps, k);
  }

  lemma DecidedAt(status: JobStatus, steps: seq<Step>, k: nat)
    requires k < |steps| && !Terminal(status) && Decides(steps[k]) && forall i :: 0 <= i < k ==> !Decides(steps[i])
    ensures Decided(status, steps[..k + 1]) == steps[k].callback.status
  {
    UndecidedBefore(status, steps, k);
    assert steps[..k + 1][..k] == steps[..k];
  }

  lemma {:induction false} LaterPostsIgnored(t: Store, steps: seq<Step>, j: nat)
    requires j < |t.jobs| && Terminal(t.jobs[j].status)
    requires forall i :: 0 <= i < |steps| ==> steps[i].Post? && steps[i].callback.job == j
    ensures RunSteps(t, steps) == t
  {
    if steps != [] {
      var last := steps[|steps| - 1];
      LaterPostsIgnored(t, steps[..|steps| - 1], j);
      TerminalJobRefuses(t, last.callback, last.raises, last.clock);
    }
  }

  lemma {:induction false} UndecidedBefore(status: JobStatus, steps: seq<Step>, k: nat)
    requires k <= |steps| && !Terminal(status) && forall i :: 0 <= i < k ==> !Decides(steps[i])
    ensures !Terminal(Decided(status, steps[..k]))
    decreases k
  {
    if k > 0 {
      UndecidedBefore(status, steps, k - 1);
      assert steps[..k][..k - 1] == steps[..k - 1];
    }
  }
}
