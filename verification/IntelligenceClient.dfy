/** The synchronous Intelligence Engine call: a bounded retry loop with linear backoff, and the
    domain service that maps its outcome. */
module IntelligenceClient {
  import opened Prelude

  /** What one attempt sees. `Answer` is a usable, completed body. */
  datatype Outcome = Answer(body: string) | TimedOut | Unreachable | HttpError(status: int) | Unusable

  datatype ClientError = Timeout | Unavailable | ResponseError(status: int) | ProtocolError

  datatype Settings = Settings(baseUrlSet: bool, maxRetries: nat, backoff: real)

  predicate IsServerError(status: int) {
    500 <= status < 600
  }

  /** Worth another attempt: a timeout, an unreachable engine, or a 5xx response. */
  predicate Transient(o: Outcome) {
    o.TimedOut? || o.Unreachable? || (o.HttpError? && IsServerError(o.status))
  }

  function ErrorOf(o: Outcome): ClientError
    requires !o.Answer?
  {
    match o
    case TimedOut => Timeout
    case Unreachable => Unavailable
    case HttpError(status) => ResponseError(status)
    case Unusable => ProtocolError
  }

  function ResultOf(o: Outcome): Result<string, ClientError> {
    match o
    case Answer(body) => Ok(body)
    case _ => Err(ErrorOf(o))
  }

  /** Index of the first outcome that is not transient, or of the last one. */
  function Deciding(outcomes: seq<Outcome>): (k: nat)
    requires outcomes != []
    ensures k < |outcomes|
    ensures forall i :: 0 <= i < k ==> Transient(outcomes[i])
    ensures k < |outcomes| - 1 ==> !Transient(outcomes[k])
  {
    if |outcomes| == 1 then 0
    else
      var k := Deciding(outcomes[..|outcomes| - 1]);
      if k == |outcomes| - 2 && Transient(outcomes[k]) then |outcomes| - 1 else k
  }

  function TotalSleep(backoff: real, k: nat): real {
    if k <= 1 then 0.0 else TotalSleep(backoff, k - 1) + backoff * (k - 1) as real
  }

  /** After k attempts the loop has slept backoff * k * (k - 1) / 2. */
  lemma {:induction false} SleepClosedForm(backoff: real, k: nat)
    requires k >= 1
    ensures 2.0 * TotalSleep(backoff, k) == backoff * (k * (k - 1)) as real
  {
    if k > 1 {
      SleepClosedForm(backoff, k - 1);
      calc {
        2.0 * TotalSleep(backoff, k);
        backoff * ((k - 1) * (k - 2)) as real + 2.0 * (backoff * (k - 1) as real);
        { assert ((k - 1) * (k - 2)) as real + 2.0 * (k - 1) as real == (k * (k - 1)) as real; }
        backoff * (((k - 1) * (k - 2)) as real + 2.0 * (k - 1) as real);
        backoff * (k * (k - 1)) as real;
      }
    }
  }

  /** A timeout, an unreachable engine, or a status from 500 to 599. */
  predicate WorthAnother(o: Outcome) {
    match o
    case TimedOut => true
    case Unreachable => true
    case HttpError(status) => 500 <= status <= 599
    case Answer(_) => false
    case Unusable => false
  }

  predicate FirstWorthAnother(outcomes: seq<Outcome>, n: nat) {
    n <= |outcomes| && forall i :: 0 <= i < n ==> WorthAnother(outcomes[i])
  }

  /** What was tried, in status codes: another attempt followed exactly the outcomes worth one,
      so the first answer that could be reached is returned. */
  ghost predicate TriedInCodes(outcomes: seq<Outcome>, attempts: nat, r: Result<string, ClientError>) {
    && 1 <= attempts <= |outcomes|
    && FirstWorthAnother(outcomes, attempts - 1)
    && (attempts < |outcomes| ==> !WorthAnother(outcomes[attempts - 1]))
    && (match outcomes[attempts - 1]
        case Answer(body) => r == Ok(body)
        case TimedOut => r == Err(Timeout)
        case Unreachable => r == Err(Unavailable)
        case HttpError(status) => r == Err(ResponseError(status))
        case Unusable => r == Err(ProtocolError))
    && forall n :: 0 <= n < |outcomes| && FirstWorthAnother(outcomes, n) && outcomes[n].Answer? ==> attempts == n + 1
  }

  lemma DecidingInCodes(outcomes: seq<Outcome>)
    requires outcomes != []
    ensures var k := Deciding(outcomes); TriedInCodes(outcomes, k + 1, ResultOf(outcomes[k]))
  {
    forall o: Outcome ensures Transient(o) <==> WorthAnother(o) { }
    forall n | 0 <= n < |outcomes| && FirstWorthAnother(outcomes, n) && outcomes[n].Answer?
      ensures Deciding(outcomes) == n
    {
      DecidingIsUnique(outcomes, n);
    }
  }

  /** Post with retries; attempt i would see outcomes[i]. */
  method PostCampaignIntelligence(s: Settings, outcomes: seq<Outcome>)
    returns (r: Result<string, ClientError>, attempts: nat, slept: real)
    requires |outcomes| == s.maxRetries + 1 && s.backoff >= 0.0
    ensures !s.baseUrlSet ==> r == Err(Unavailable) && attempts == 0
    ensures s.baseUrlSet ==> attempts == Deciding(outcomes) + 1 <= s.maxRetries + 1
    ensures s.baseUrlSet ==> r == ResultOf(outcomes[attempts - 1])
    ensures s.baseUrlSet ==> TriedInCodes(outcomes, attempts, r)
    ensures slept == TotalSleep(s.backoff, attempts)
  {
    DecidingInCodes(outcomes);
    attempts, slept := 0, 0.0;
    if !s.baseUrlSet { return Err(Unavailable), 0, 0.0; }
    var total := s.maxRetries + 1;
    var last := Unavailable;
    var attempt := 1;
    while attempt <= total
      invariant 1 <= attempt <= total + 1
      invariant forall i :: 0 <= i < attempt - 1 ==> Transient(outcomes[i])
      invariant attempt > 1 ==> last == ErrorOf(outcomes[attempt - 2])
      invariant slept == TotalSleep(s.backoff, if attempt <= total then attempt else total)
    {
      var o := outcomes[attempt - 1];
      match o {
        case Answer(body) =>
          DecidingIsUnique(outcomes, attempt - 1);
          return Ok(body), attempt, slept;
        case TimedOut => last := Timeout;
        case Unreachable => last := Unavailable;
        case HttpError(status) =>
          last := ResponseError(status);
          if !IsServerError(status) {
            DecidingIsUnique(outcomes, attempt - 1);
            return Err(last), attempt, slept;
          }
        case Unusable =>
          DecidingIsUnique(outcomes, attempt - 1);
          return Err(ProtocolError), attempt, slept;
      }
      if attempt < total {
        if s.backoff != 0.0 { slept := slept + s.backoff * attempt as real; }
      }
      attempt := attempt + 1;
    }
    DecidingIsUnique(outcomes, total - 1);
    return Err(last), total, slept;
  }

  lemma DecidingIsUnique(outcomes: seq<Outcome>, k: nat)
    requires k < |outcomes| && forall i :: 0 <= i < k ==> Transient(outcomes[i])
    requires k < |outcomes| - 1 ==> !Transient(outcomes[k])
    ensures outcomes != [] && k == Deciding(outcomes)
  {
    var m := Deciding(outcomes);
    var atK, atM := Transient(outcomes[k]), Transient(outcomes[m]);
  }

  // ---------------------------------------------------------------- the domain service

  datatype ServiceError = NotFound | Disabled | TemporarilyUnavailable | Upstream

  datatype ServiceResult = EngineResult(body: string) | DryRunResult

  datatype Policy = Policy(campaignExists: bool, enabled: bool, dryRun: bool)

  function MapClientResult(r: Result<string, ClientError>): Result<ServiceResult, ServiceError> {
    match r
    case Ok(body) => Ok(EngineResult(body))
    case Err(e) =>
      match e
      case Timeout => Err(TemporarilyUnavailable)
      case Unavailable => Err(TemporarilyUnavailable)
      case ResponseError(status) => if IsServerError(status) then Err(TemporarilyUnavailable) else Err(Upstream)
      case ProtocolError => Err(Upstream)
  }

  predicate AllTransient(outcomes: seq<Outcome>) {
    forall i :: 0 <= i < |outcomes| ==> Transient(outcomes[i])
  }

  lemma TransientInCodes(outcomes: seq<Outcome>)
    ensures AllTransient(outcomes) <==> FirstWorthAnother(outcomes, |outcomes|)
  {
    forall o: Outcome ensures Transient(o) <==> WorthAnother(o) { }
  }

  /** There is a first outcome that is not transient, and it is (or is not) an answer. */
  ghost predicate FirstDecisive(outcomes: seq<Outcome>, answered: bool) {
    exists k :: 0 <= k < |outcomes| && !Transient(outcomes[k]) && outcomes[k].Answer? == answered
                && forall i :: 0 <= i < k ==> Transient(outcomes[i])
  }

  method Run(policy: Policy, s: Settings, outcomes: seq<Outcome>)
    returns (r: Result<ServiceResult, ServiceError>, attempts: nat)
    requires |outcomes| == s.maxRetries + 1 && s.backoff >= 0.0
    ensures !policy.campaignExists ==> r == Err(NotFound) && attempts == 0
    ensures policy.campaignExists && !policy.enabled ==> r == Err(Disabled) && attempts == 0
    ensures policy.campaignExists && policy.enabled && policy.dryRun ==> r == Ok(DryRunResult) && attempts == 0
    ensures policy.campaignExists && policy.enabled && !policy.dryRun && s.baseUrlSet ==>
      && 1 <= attempts <= s.maxRetries + 1
      && (r == Err(TemporarilyUnavailable) <==> AllTransient(outcomes))
      && (r == Err(Upstream) <==> FirstDecisive(outcomes, false))
      && (r.Ok? <==> FirstDecisive(outcomes, true))
      && (r.Ok? ==> outcomes[attempts - 1].Answer? && r == Ok(EngineResult(outcomes[attempts - 1].body)))
    ensures policy.campaignExists && policy.enabled && !policy.dryRun && s.baseUrlSet ==>
      (r == Err(TemporarilyUnavailable) <==> FirstWorthAnother(outcomes, |outcomes|))
    ensures policy.campaignExists && policy.enabled && !policy.dryRun && !s.baseUrlSet ==>
      r == Err(TemporarilyUnavailable)
  {
    attempts := 0;
    if !policy.campaignExists { return Err(NotFound), 0; }
    if !policy.enabled { return Err(Disabled), 0; }
    if policy.dryRun { return Ok(DryRunResult), 0; }
    var result, slept;
    TransientInCodes(outcomes);
    result, attempts, slept := PostCampaignIntelligence(s, outcomes);
    r := MapClientResult(result);
    if s.baseUrlSet { OutcomeDecides(outcomes, attempts - 1); }
  }

  lemma OutcomeDecides(outcomes: seq<Outcome>, k: nat)
    requires outcomes != [] && k == Deciding(outcomes)
    ensures var r := MapClientResult(ResultOf(outcomes[k]));
      && (r == Err(TemporarilyUnavailable) <==> AllTransient(outcomes))
      && (r == Err(Upstream) <==> FirstDecisive(outcomes, false))
      && (r.Ok? <==> FirstDecisive(outcomes, true))
  {
    if Transient(outcomes[k]) {
      assert k == |outcomes| - 1;
      assert AllTransient(outcomes);
    } else {
      DecisiveIsDeciding(outcomes, k, true);
      DecisiveIsDeciding(outcomes, k, false);
    }
  }

  lemma DecisiveIsDeciding(outcomes: seq<Outcome>, k: nat, answered: bool)
    requires k < |outcomes| && !Transient(outcomes[k]) && forall i :: 0 <= i < k ==> Transient(outcomes[i])
    ensures FirstDecisive(outcomes, answered) <==> outcomes[k].Answer? == answered
  {
  }
}
