/** The renderer's callback client: a bounded retry loop with capped exponential backoff. */
module CallbackClient {

  /** What one attempt saw, and how long it took. */
  datatype Reply = HttpStatus(code: nat, took: nat) | NoResponse(took: nat)

  datatype RawConfig = RawConfig(timeoutSeconds: real, maxAttempts: int, baseDelayMs: int, maxDelayMs: int)

  datatype Config = Config(timeoutMs: nat, maxAttempts: nat, baseDelayMs: nat, maxDelayMs: nat)

  datatype CallbackResult = CallbackResult(ok: bool, statusCode: nat, attempts: nat)

  function Max(a: int, b: int): int { if a < b then b else a }

  function Min(a: int, b: int): int { if a < b then a else b }

  ghost predicate Sane(c: Config) {
    c.timeoutMs >= 1 && c.maxAttempts >= 1 && c.baseDelayMs <= c.maxDelayMs
  }

  /** To the nearest integer, halves upwards. */
  function Round(x: real): int { (x + 0.5).Floor }

  /** Whatever the raw configuration, the client runs at least once, with a positive timeout
      and a cap no smaller than the base delay. */
  function Normalise(raw: RawConfig): (c: Config)
    ensures Sane(c)
    ensures raw.timeoutSeconds * 1000.0 >= 0.5 ==>
      c.timeoutMs as real - 0.5 <= raw.timeoutSeconds * 1000.0 < c.timeoutMs as real + 0.5
    ensures raw.timeoutSeconds * 1000.0 < 0.5 ==> c.timeoutMs == 1
    ensures c.maxAttempts == if raw.maxAttempts >= 1 then raw.maxAttempts else 1
    ensures c.baseDelayMs == if raw.baseDelayMs >= 0 then raw.baseDelayMs else 0
    ensures c.maxDelayMs == if raw.maxDelayMs >= c.baseDelayMs then raw.maxDelayMs else c.baseDelayMs
  {
    var base := Max(0, raw.baseDelayMs);
    Config(Max(1, Round(raw.timeoutSeconds * 1000.0)), Max(1, raw.maxAttempts), base, Max(base, raw.maxDelayMs))
  }

  predicate Delivered(r: Reply) {
    r.HttpStatus? && 200 <= r.code < 300
  }

  predicate RetryableStatus(code: nat) {
    code in {500, 502, 503, 504}
  }

  /** Network errors and timeouts are always retried, of the responses only four statuses. */
  predicate Transient(r: Reply) {
    r.NoResponse? || RetryableStatus(r.code)
  }

  function Pow2(n: nat): nat {
    if n == 0 then 1 else 2 * Pow2(n - 1)
  }

  /** The delay after the given (1-based) failed attempt. */
  function BackoffDelay(c: Config, attempt: nat): nat
    requires attempt >= 1
  {
    Min(c.maxDelayMs, Pow2(attempt - 1) * c.baseDelayMs)
  }

  lemma DelaysGrow(c: Config, i: nat, j: nat)
    requires 1 <= i <= j
    ensures BackoffDelay(c, i) <= BackoffDelay(c, j) <= c.maxDelayMs
  {
    PowersGrow(i - 1, j - 1);
    Scales(Pow2(i - 1), Pow2(j - 1), c.baseDelayMs);
  }

  /** The first delay is the base, and each further one twice the last, up to the cap; the client
      sleeps one delay between any two attempts. */
  lemma DelaysDouble(c: Config, i: nat)
    requires Sane(c) && i >= 1
    ensures BackoffDelay(c, 1) == c.baseDelayMs
    ensures BackoffDelay(c, i + 1) == Min(c.maxDelayMs, 2 * BackoffDelay(c, i))
    ensures SleepBefore(c, 1) == 0 && SleepBefore(c, i + 1) == SleepBefore(c, i) + BackoffDelay(c, i)
  {
    assert Pow2(0) == 1;
    assert Pow2(i) * c.baseDelayMs == 2 * (Pow2(i - 1) * c.baseDelayMs);
  }

  lemma {:induction false} PowersGrow(i: nat, j: nat)
    requires i <= j
    ensures Pow2(i) <= Pow2(j)
  {
    if i < j { PowersGrow(i, j - 1); }
  }

  /** Sleep before attempt k: one delay after each of the attempts 1 .. k-1. */
  function SleepBefore(c: Config, k: nat): nat
    requires k >= 1
  {
    if k == 1 then 0 else SleepBefore(c, k - 1) + BackoffDelay(c, k - 1)
  }

  lemma {:induction false} SleepBounded(c: Config, k: nat)
    requires k >= 1
    ensures SleepBefore(c, k) <= (k - 1) * c.maxDelayMs
  {
    if k > 1 {
      SleepBounded(c, k - 1);
      var m := c.maxDelayMs;
      assert (k - 1) * m == (k - 2) * m + m;
    }
  }

  /** The attempt the loop stops at: the first whose reply is not transient, or the last. */
  function StopsAt(replies: seq<Reply>): (k: nat)
    requires replies != []
    ensures 1 <= k <= |replies|
    ensures forall i :: 0 <= i < k - 1 ==> Transient(replies[i])
    ensures k < |replies| ==> !Transient(replies[k - 1])
  {
    if |replies| == 1 then 1
    else
      var front := replies[..|replies| - 1];
      var k := StopsAt(front);
      if k == |front| && Transient(front[k - 1]) then |replies| else k
  }

  /** It is the only such attempt. */
  lemma StopIsUnique(replies: seq<Reply>, k: nat)
    requires replies != [] && 1 <= k <= |replies|
    requires forall i :: 0 <= i < k - 1 ==> Transient(replies[i])
    requires k < |replies| ==> !Transient(replies[k - 1])
    ensures k == StopsAt(replies)
  {
    var m := StopsAt(replies);
    var atK, atM := Transient(replies[k - 1]), Transient(replies[m - 1]);
  }

  /** No response, or one of the four statuses worth another attempt. */
  predicate WorthRetrying(r: Reply) {
    match r
    case NoResponse(_) => true
    case HttpStatus(code, _) => code == 500 || code == 502 || code == 503 || code == 504
  }

  predicate Success(r: Reply) {
    r.HttpStatus? && 200 <= r.code <= 299
  }

  /** What the client did, in status codes: it retried after exactly those replies that are worth
      it, so the first success it could have reached is the one it reports. */
  ghost predicate RetriedInCodes(replies: seq<Reply>, result: CallbackResult) {
    && 1 <= result.attempts <= |replies|
    && (result.ok <==> Success(replies[result.attempts - 1]))
    && (forall i :: 0 <= i < result.attempts - 1 ==> WorthRetrying(replies[i]))
    && (result.attempts < |replies| ==> !WorthRetrying(replies[result.attempts - 1]))
    && forall n :: 0 <= n < |replies| && Success(replies[n])
         && (forall i :: 0 <= i < n ==> WorthRetrying(replies[i]))
         ==> result.ok && result.attempts == n + 1
  }

  lemma StopsInCodes(replies: seq<Reply>)
    requires replies != []
    ensures var k := StopsAt(replies);
      && (forall i :: 0 <= i < k - 1 ==> WorthRetrying(replies[i]))
      && (k < |replies| ==> !WorthRetrying(replies[k - 1]))
      && forall n :: 0 <= n < |replies| && Success(replies[n])
           && (forall i :: 0 <= i < n ==> WorthRetrying(replies[i]))
           ==> k == n + 1
  {
    forall r: Reply ensures Transient(r) <==> WorthRetrying(r) { }
    forall n | 0 <= n < |replies| && Success(replies[n]) && (forall i :: 0 <= i < n ==> WorthRetrying(replies[i]))
      ensures StopsAt(replies) == n + 1
    {
      StopIsUnique(replies, n + 1);
    }
  }

  function TimeTaken(replies: seq<Reply>, k: nat): nat
    requires k <= |replies|
  {
    if k == 0 then 0 else TimeTaken(replies, k - 1) + replies[k - 1].took
  }

  lemma {:induction false} TimeBounded(replies: seq<Reply>, k: nat, timeout: nat)
    requires k <= |replies| && forall i :: 0 <= i < |replies| ==> replies[i].took <= timeout
    ensures TimeTaken(replies, k) <= k * timeout
  {
    if k > 0 {
      TimeBounded(replies, k - 1, timeout);
      assert k * timeout == (k - 1) * timeout + timeout;
    }
  }

  /** Deliver with retries; attempt i would see replies[i - 1], each within the timeout. The
      result says how it ended; `slept` and `busy` are the time spent sleeping and calling. */
  method Send(c: Config, replies: seq<Reply>) returns (result: CallbackResult, slept: nat, busy: nat)
    requires Sane(c) && |replies| == c.maxAttempts
    requires forall i :: 0 <= i < |replies| ==> replies[i].took <= c.timeoutMs
    ensures result.attempts == StopsAt(replies)
    ensures result.ok <==> Delivered(replies[result.attempts - 1])
    ensures result.statusCode
         == if replies[result.attempts - 1].HttpStatus? then replies[result.attempts - 1].code else 0
    ensures slept == SleepBefore(c, result.attempts)
    ensures busy == TimeTaken(replies, result.attempts)
    ensures RetriedInCodes(replies, result)
    ensures slept + busy <= c.maxAttempts * c.timeoutMs + (c.maxAttempts - 1) * c.maxDelayMs
  {
    StopsInCodes(replies);
    var attempt := 1;
    slept, busy := 0, 0;
    result := CallbackResult(false, 0, c.maxAttempts);
    while attempt <= c.maxAttempts
      invariant 1 <= attempt <= c.maxAttempts
      invariant forall i :: 0 <= i < attempt - 1 ==> Transient(replies[i])
      invariant slept == SleepBefore(c, attempt)
      invariant busy == TimeTaken(replies, attempt - 1)
    {
      var reply := replies[attempt - 1];
      busy := busy + reply.took;
      if reply.HttpStatus? {
        if Delivered(reply) {
          Finish(c, replies, attempt);
          return CallbackResult(true, reply.code, attempt), slept, busy;
        }
        var retryable := RetryableStatus(reply.code);
        if retryable && attempt < c.maxAttempts {
          slept := slept + BackoffDelay(c, attempt);
          attempt := attempt + 1;
          continue;
        }
        Finish(c, replies, attempt);
        return CallbackResult(false, reply.code, attempt), slept, busy;
      } else {
        if attempt < c.maxAttempts {
          slept := slept + BackoffDelay(c, attempt);
          attempt := attempt + 1;
          continue;
        }
        Finish(c, replies, attempt);
        return CallbackResult(false, 0, attempt), slept, busy;
      }
    }
    assert false; // the loop always returns
  }

  lemma Finish(c: Config, replies: seq<Reply>, k: nat)
    requires Sane(c) && |replies| == c.maxAttempts && 1 <= k <= c.maxAttempts
    requires forall i :: 0 <= i < |replies| ==> replies[i].took <= c.timeoutMs
    requires forall i :: 0 <= i < k - 1 ==> Transient(replies[i])
    requires k < c.maxAttempts ==> !Transient(replies[k - 1])
    ensures k == StopsAt(replies)
    ensures SleepBefore(c, k) + TimeTaken(replies, k)
         <= c.maxAttempts * c.timeoutMs + (c.maxAttempts - 1) * c.maxDelayMs
  {
    StopIsUnique(replies, k);
    SleepBounded(c, k);
    TimeBounded(replies, k, c.timeoutMs);
    Scales(k, c.maxAttempts, c.timeoutMs);
    Scales(k - 1, c.maxAttempts - 1, c.maxDelayMs);
  }

  lemma Scales(a: nat, b: nat, m: nat)
    requires a <= b
    ensures a * m <= b * m
  {
  }
}
