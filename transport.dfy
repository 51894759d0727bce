/**
 * The request loop of the synchronous client: makeRequestWithData with its
 * retries and exponential backoff, handleErrorResponse and calculateBackoff.
 *
 * The HTTP exchange itself is outside the model. Each attempt is an
 * HttpOutcome chosen by a script (attempt number to outcome), and a sleep
 * is recorded as the delay it asks for.
 */
module Transport {
  import opened Wrappers
  import opened Text
  import opened Errors
  import opened Types

  /**
   * What one POST can yield: a transport error from resty, or a reply. A
   * reply carries its status, its raw body, the body decoded as a
   * GuardrailResponse (or the decoder's error text), and the string
   * "detail" member as the branch of its status reads it: for a 422, from
   * whatever the decoder filled in, its error ignored; for any other error
   * status, only when the whole body decodes without error. So a body that
   * decodes partially may carry a detail under 422 and none under 500.
   */
  datatype HttpOutcome =
    | TransportFailure(cause: string)
    | Reply(status: int, body: string, decoded: Result<GuardrailResponse, string>, detail: Option<string>)

  /** resty's IsSuccess: a 2xx status, so never one of the error statuses the client singles out. */
  predicate IsSuccess(status: int)
    ensures IsSuccess(status) ==> status != 401 && status != 422 && status != 429
  {
    199 < status < 300
  }

  /** What a request returns: a response, an error, or (nil, nil) when the loop never ran. */
  datatype Outcome = Answered(response: GuardrailResponse) | Failed(error: Error) | NoOutcome

  /** A run of the loop: its outcome, how many POSTs it made and the sleeps it asked for, in seconds. */
  datatype Trace = Trace(outcome: Outcome, attempts: nat, delays: seq<nat>)

  function DetailOr(detail: Option<string>, fallback: string): string {
    if detail.Some? then detail.value else fallback
  }

  /**
   * handleErrorResponse: 401, 422 and 429 have their own error types; any
   * other status becomes a XiangxinAIError that names the status and the
   * server's detail (or the raw body).
   */
  function HandleErrorResponse(status: int, body: string, detail: Option<string>): (e: Error)
    ensures e.kind == Authentication <==> status == 401
    ensures e.kind == Validation <==> status == 422
    ensures e.kind == RateLimit <==> status == 429
    ensures e.kind == Base <==> status != 401 && status != 422 && status != 429
    ensures e.cause == None && ErrorText(e) == e.message
    ensures status == 401 ==> e.message == "invalid API key"
    ensures status == 422 ==> e.message == "validation error: " + DetailOr(detail, "validation error")
    ensures status == 429 ==> e.message == "rate limit exceeded"
    ensures e.kind == Base ==>
      e.message == "API request failed with status " + IntToString(status) + ": " + DetailOr(detail, body)
  {
    if status == 401 then NewAuthenticationError("invalid API key")
    else if status == 422 then NewValidationError("validation error: " + DetailOr(detail, "validation error"))
    else if status == 429 then NewRateLimitError("rate limit exceeded")
    else NewXiangxinAIError("API request failed with status " + IntToString(status) + ": " + DetailOr(detail, body), None)
  }

  /** math.Pow(2, k) on whole numbers. */
  function Pow2(k: nat): (p: nat)
    ensures p >= 1
  {
    if k == 0 then 1 else 2 * Pow2(k - 1)
  }

  /** calculateBackoff, in seconds: 2^attempt seconds plus one second. */
  function CalculateBackoff(attempt: nat): (seconds: nat)
    ensures seconds >= 2
  {
    Pow2(attempt) + 1
  }

  /** The exponential part doubles from one attempt to the next. */
  lemma BackoffDoubles(attempt: nat)
    ensures CalculateBackoff(attempt + 1) - 1 == 2 * (CalculateBackoff(attempt) - 1)
  {
  }

  /** Later retries wait strictly longer. */
  lemma {:induction false} BackoffIncreasing(i: nat, j: nat)
    requires i < j
    ensures CalculateBackoff(i) < CalculateBackoff(j)
  {
    if i + 1 < j {
      BackoffIncreasing(i, j - 1);
    }
  }

  /** The delays asked for before retries lo, lo + 1, ..., hi - 1. */
  function Backoffs(lo: nat, hi: nat): (ds: seq<nat>)
    ensures |ds| == if lo <= hi then hi - lo else 0
    ensures forall i :: 0 <= i < |ds| ==> ds[i] == CalculateBackoff(lo + i)
    decreases hi - lo
  {
    if lo >= hi then [] else [CalculateBackoff(lo)] + Backoffs(lo + 1, hi)
  }

  /** An attempt that the loop retries while retries remain: a transport error, or a status other than 2xx, 401 and 422. */
  predicate Retryable(o: HttpOutcome) {
    o.TransportFailure? || (!IsSuccess(o.status) && o.status != 401 && o.status != 422)
  }

  /** What the loop returns when an attempt ends it. */
  function FinalOutcome(o: HttpOutcome): (r: Outcome)
    ensures r != NoOutcome
    ensures o.TransportFailure? ==> r == Failed(NewNetworkError("request failed", Some(Foreign(o.cause))))
    ensures o.Reply? && IsSuccess(o.status) && o.decoded.Success? ==> r == Answered(o.decoded.value)
    ensures o.Reply? && IsSuccess(o.status) && o.decoded.Failure? ==>
      r == Failed(NewXiangxinAIError("failed to parse response", Some(Foreign(o.decoded.error))))
    ensures o.Reply? && !IsSuccess(o.status) ==> r == Failed(HandleErrorResponse(o.status, o.body, o.detail))
  {
    match o
    case TransportFailure(cause) => Failed(NewNetworkError("request failed", Some(Foreign(cause))))
    case Reply(status, body, decoded, detail) =>
      if IsSuccess(status) then
        match decoded
        case Success(response) => Answered(response)
        case Failure(err) => Failed(NewXiangxinAIError("failed to parse response", Some(Foreign(err))))
      else Failed(HandleErrorResponse(status, body, detail))
  }

  /**
   * The loop as a recursive definition, from attempt number `attempt` on:
   * a retryable outcome with retries left sleeps and tries again, anything
   * else ends the loop.
   */
  function RetryFrom(maxRetries: int, script: nat -> HttpOutcome, attempt: nat): (t: Trace)
    ensures attempt > maxRetries ==> t == Trace(NoOutcome, attempt, [])
    ensures attempt <= maxRetries ==> attempt < t.attempts <= maxRetries + 1 && t.outcome != NoOutcome
    ensures attempt <= maxRetries ==> |t.delays| == t.attempts - 1 - attempt
    decreases maxRetries - attempt
  {
    if attempt > maxRetries then Trace(NoOutcome, attempt, [])
    else if Retryable(script(attempt)) && attempt < maxRetries then
      var rest := RetryFrom(maxRetries, script, attempt + 1);
      Trace(rest.outcome, rest.attempts, [CalculateBackoff(attempt)] + rest.delays)
    else Trace(FinalOutcome(script(attempt)), attempt + 1, [])
  }

  /**
   * Everything about a run: every attempt but the last was retryable; the
   * last is not, or no retries were left; the outcome is the last attempt's;
   * and a sleep of calculateBackoff(k) came after each attempt k but the last.
   */
  lemma {:induction false} RetryShape(maxRetries: int, script: nat -> HttpOutcome, attempt: nat)
    requires attempt <= maxRetries
    decreases maxRetries - attempt
    ensures attempt < RetryFrom(maxRetries, script, attempt).attempts <= maxRetries + 1
    ensures forall k :: attempt <= k < RetryFrom(maxRetries, script, attempt).attempts - 1 ==> Retryable(script(k))
    ensures var last := RetryFrom(maxRetries, script, attempt).attempts - 1;
      last < maxRetries ==> !Retryable(script(last))
    ensures var t := RetryFrom(maxRetries, script, attempt);
      t.outcome == FinalOutcome(script(t.attempts - 1))
    ensures var t := RetryFrom(maxRetries, script, attempt);
      t.delays == Backoffs(attempt, t.attempts - 1)
  {
    if Retryable(script(attempt)) && attempt < maxRetries {
      RetryShape(maxRetries, script, attempt + 1);
    }
  }

  /**
   * At most maxRetries + 1 attempts, at least one when maxRetries is not
   * negative, always an outcome, and one sleep between consecutive attempts.
   */
  lemma AttemptBound(maxRetries: int, script: nat -> HttpOutcome)
    requires maxRetries >= 0
    ensures var t := RetryFrom(maxRetries, script, 0);
      && 1 <= t.attempts <= maxRetries + 1
      && t.outcome != NoOutcome
      && |t.delays| == t.attempts - 1
  {
    RetryShape(maxRetries, script, 0);
  }

  /** The delay before retry i + 1 is calculateBackoff(i): at least 2 seconds and growing. */
  lemma DelaySchedule(maxRetries: int, script: nat -> HttpOutcome)
    ensures var ds := RetryFrom(maxRetries, script, 0).delays;
      && (forall i :: 0 <= i < |ds| ==> ds[i] == Pow2(i) + 1)
      && (forall i, j :: 0 <= i < j < |ds| ==> 2 <= ds[i] < ds[j])
  {
    if maxRetries >= 0 {
      RetryShape(maxRetries, script, 0);
    }
    var ds := RetryFrom(maxRetries, script, 0).delays;
    forall i, j | 0 <= i < j < |ds|
      ensures 2 <= ds[i] < ds[j]
    {
      BackoffIncreasing(i, j);
    }
  }

  /**
   * The first attempt that is not retryable (a 2xx, a 401 or a 422) ends the
   * loop at once: no sleep after it and no further attempt.
   */
  lemma StopsAtFirstTerminal(maxRetries: int, script: nat -> HttpOutcome, k: nat)
    requires k <= maxRetries && !Retryable(script(k))
    requires forall j :: 0 <= j < k ==> Retryable(script(j))
    ensures var t := RetryFrom(maxRetries, script, 0);
      && t.attempts == k + 1
      && t.outcome == FinalOutcome(script(k))
      && |t.delays| == k
  {
    RetryShape(maxRetries, script, 0);
  }

  /** A 401 ends the run with an AuthenticationError and a 422 with a ValidationError. */
  lemma TerminalStatuses(maxRetries: int, script: nat -> HttpOutcome, k: nat)
    requires k <= maxRetries && script(k).Reply? && (script(k).status == 401 || script(k).status == 422)
    requires forall j :: 0 <= j < k ==> Retryable(script(j))
    ensures var t := RetryFrom(maxRetries, script, 0);
      && t.attempts == k + 1
      && t.outcome.Failed?
      && (script(k).status == 401 ==> t.outcome.error.kind == Authentication)
      && (script(k).status == 422 ==> t.outcome.error.kind == Validation)
  {
    StopsAtFirstTerminal(maxRetries, script, k);
  }

  /**
   * When every attempt is retryable the loop makes exactly maxRetries + 1
   * attempts and returns the last attempt's error: a RateLimitError after a
   * 429, a NetworkError after a transport error, and otherwise a
   * XiangxinAIError naming the status.
   */
  lemma ExhaustedRetries(maxRetries: int, script: nat -> HttpOutcome)
    requires maxRetries >= 0
    requires forall k :: 0 <= k <= maxRetries ==> Retryable(script(k))
    ensures var t := RetryFrom(maxRetries, script, 0);
      && t.attempts == maxRetries + 1
      && |t.delays| == maxRetries
      && t.outcome.Failed?
      && (script(maxRetries).TransportFailure? ==> t.outcome.error.kind == Network)
      && (script(maxRetries).Reply? && script(maxRetries).status == 429 ==> t.outcome.error.kind == RateLimit)
      && (script(maxRetries).Reply? && script(maxRetries).status != 429 ==>
            t.outcome.error == HandleErrorResponse(script(maxRetries).status, script(maxRetries).body, script(maxRetries).detail)
            && t.outcome.error.kind == Base)
  {
    RetryShape(maxRetries, script, 0);
  }

  /**
   * makeRequestWithData. `attempts` counts the POSTs and `delays` lists the
   * sleeps in seconds; neither is visible in Go, they record what the loop did.
   * A sleep is recorded as the delay it asks for: a cancelled context only
   * makes the real wait shorter, and the loop goes on either way.
   */
  method MakeRequestWithData(maxRetries: int, script: nat -> HttpOutcome)
    returns (outcome: Outcome, attempts: nat, delays: seq<nat>)
    ensures Trace(outcome, attempts, delays) == RetryFrom(maxRetries, script, 0)
  {
    var lastErr: Option<Error> := None;
    var attempt: nat := 0;
    delays := [];
    while attempt <= maxRetries
      invariant maxRetries >= 0 ==> attempt <= maxRetries
      invariant maxRetries < 0 ==> attempt == 0 && lastErr == None && delays == []
      invariant SoFar(maxRetries, script, attempt, delays)
      decreases maxRetries - attempt
    {
      var resp := script(attempt);
      if resp.TransportFailure? {
        lastErr := Some(NewNetworkError("request failed", Some(Foreign(resp.cause))));
        if attempt < maxRetries {
          RetryStep(maxRetries, script, attempt, delays);
          delays := delays + [CalculateBackoff(attempt)];  // the sleep before the next attempt
          attempt := attempt + 1;
          continue;
        }
        return Failed(lastErr.value), attempt + 1, delays;
      }

      if IsSuccess(resp.status) {
        match resp.decoded
        case Success(result) =>
          return Answered(result), attempt + 1, delays;
        case Failure(err) =>
          return Failed(NewXiangxinAIError("failed to parse response", Some(Foreign(err)))), attempt + 1, delays;
      }

      if resp.status == 401 {
        return Failed(NewAuthenticationError("invalid API key")), attempt + 1, delays;
      } else if resp.status == 422 {
        var detail := "validation error";
        if resp.detail.Some? {
          detail := resp.detail.value;
        }
        return Failed(NewValidationError("validation error: " + detail)), attempt + 1, delays;
      } else if resp.status == 429 {
        if attempt < maxRetries {
          RetryStep(maxRetries, script, attempt, delays);
          delays := delays + [CalculateBackoff(attempt)];  // the sleep before the next attempt
          attempt := attempt + 1;
          continue;
        }
        return Failed(NewRateLimitError("rate limit exceeded")), attempt + 1, delays;
      } else {
        var errorMsg := resp.body;
        if resp.detail.Some? {
          errorMsg := resp.detail.value;
        }
        lastErr := Some(NewXiangxinAIError("API request failed with status " + IntToString(resp.status) + ": " + errorMsg, None));
        if attempt < maxRetries {
          RetryStep(maxRetries, script, attempt, delays);
          delays := delays + [CalculateBackoff(attempt)];  // the sleep before the next attempt
          attempt := attempt + 1;
          continue;
        }
        return Failed(lastErr.value), attempt + 1, delays;
      }
    }

    attempts := attempt;
    match lastErr {
      case Some(err) => outcome := Failed(err);
      case None => outcome := NoOutcome;
    }
  }

  /** The loop invariant: the run so far, followed by a run from `attempt` on, is the whole run. */
  predicate SoFar(maxRetries: int, script: nat -> HttpOutcome, attempt: nat, delays: seq<nat>) {
    var t := RetryFrom(maxRetries, script, attempt);
    RetryFrom(maxRetries, script, 0) == Trace(t.outcome, t.attempts, delays + t.delays)
  }

  /** Sleeping calculateBackoff(attempt) and moving on to the next attempt keeps the invariant. */
  lemma {:induction false} RetryStep(maxRetries: int, script: nat -> HttpOutcome, attempt: nat, delays: seq<nat>)
    requires attempt < maxRetries && Retryable(script(attempt))
    requires SoFar(maxRetries, script, attempt, delays)
    ensures SoFar(maxRetries, script, attempt + 1, delays + [CalculateBackoff(attempt)])
  {
    var t := RetryFrom(maxRetries, script, attempt + 1);
    assert (delays + [CalculateBackoff(attempt)]) + t.delays == delays + ([CalculateBackoff(attempt)] + t.delays);
  }
}
