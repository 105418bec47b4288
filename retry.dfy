/**
 * Error classification and the retry-or-fail decision of WebhookService
 * (`isRetryableError`, `handleUploadError`), and the transport-level retry
 * (`Retry.backoff(2, ...).filter(isRetryableError)`) that stands between the
 * HTTP call and `handleUploadError`.
 */
module Retry {
  import opened Wrappers
  import opened Text

  /** A failure of one delivery, as the Throwable the subscriber receives. */
  datatype DeliveryError =
    | ResponseError(status: int, message: string)
      // WebClientResponseException: the webhook answered with an error status
    | OtherError(isIOException: bool, message: string)
      // any other Throwable (connection refused, timeouts, ...)
    | RetriesExhausted(cause: DeliveryError)
      // Reactor's RetryExhaustedException, thrown once the transport retries are used up

  /** How many times the transport layer re-sends a request (`Retry.backoff(2, ...)`). */
  const TransportRetries: nat := 2

  /** Reactor's message for an exhausted `Retry.backoff(2, ...)`: "Retries exhausted: " + retries + "/" + maximum. */
  const ExhaustedMessage := "Retries exhausted: 2/2"

  function Message(e: DeliveryError): string {
    match e
    case ResponseError(_, m) => m
    case OtherError(_, m) => m
    case RetriesExhausted(_) => ExhaustedMessage
  }

  predicate IsServerErrorStatus(status: int) {
    500 <= status <= 599
  }

  /** The message test `isRetryableError` applies to a Throwable that is not a response error. */
  predicate MentionsNetworkTrouble(message: string) {
    Contains(message, "Connection") || Contains(message, "timeout")
  }

  /**
   * `isRetryableError`, as written: a response error by its status (429, 5xx, 408),
   * anything else by being an IOException or by its message. A RetryExhaustedException
   * is an IllegalStateException, so only its message is looked at.
   */
  predicate IsRetryableError(e: DeliveryError) {
    match e
    case ResponseError(status, _) => status == 429 || IsServerErrorStatus(status) || status == 408
    case OtherError(isIO, m) => isIO || MentionsNetworkTrouble(m)
    case RetriesExhausted(_) => MentionsNetworkTrouble(ExhaustedMessage)
  }

  lemma ResponseRetryableIff(status: int, m: string)
    ensures IsRetryableError(ResponseError(status, m)) <==>
            status == 429 || status == 408 || 500 <= status <= 599
  {
  }

  lemma OtherRetryableIff(isIO: bool, m: string)
    ensures IsRetryableError(OtherError(isIO, m)) <==>
            isIO || Contains(m, "Connection") || Contains(m, "timeout")
  {
  }

  /** Reactor's exhaustion message mentions neither "Connection" nor "timeout". */
  lemma ExhaustedMessageIsQuiet()
    ensures !MentionsNetworkTrouble(ExhaustedMessage)
  {
    var s := ExhaustedMessage;
    if Contains(s, "Connection") {
      ContainsNeedsLetter(s, "Connection", 0);
    }
    if Contains(s, "timeout") {
      ContainsNeedsLetter(s, "timeout", 2);
    }
  }

  /** So an exhausted transport retry is never retryable, whatever its cause. */
  lemma ExhaustedNeverRetryable(cause: DeliveryError)
    ensures !IsRetryableError(RetriesExhausted(cause))
  {
    ExhaustedMessageIsQuiet();
  }

  /**
   * What one HTTP call produced: a response body, an error, or a success status
   * with no body (204 No Content, say), on which `bodyToMono(String.class)`
   * completes without a value.
   */
  datatype Outcome = Delivered(body: string) | Errored(error: DeliveryError) | CompletedEmpty

  /** An HTTP call itself never produces Reactor's wrapper. */
  predicate IsCallOutcome(o: Outcome) {
    o.Errored? ==> !o.error.RetriesExhausted?
  }

  /**
   * What reaches the subscriber of `retrieve().bodyToMono(...).retryWhen(...)` when
   * the successive HTTP calls produce `calls`, `used` transport retries having been
   * spent: a success, an empty completion or a non-retryable error passes through, a retryable error is
   * re-sent while retries remain and is wrapped in RetriesExhausted once they are
   * spent. None while the chain has not settled within `calls`.
   */
  function Transport(calls: seq<Outcome>, used: nat): (r: Option<Outcome>)
    requires used <= TransportRetries
    decreases |calls|
  {
    if calls == [] then None
    else match calls[0]
      case Delivered(body) => Some(Delivered(body))
      case CompletedEmpty => Some(CompletedEmpty)
      case Errored(e) =>
        if !IsRetryableError(e) then Some(Errored(e))
        else if used == TransportRetries then Some(Errored(RetriesExhausted(e)))
        else Transport(calls[1..], used + 1)
  }

  /**
   * With the transport retry in front, `isRetryableError` is false for every error
   * `handleUploadError` receives, so the re-enqueue branch of the source never runs.
   */
  lemma {:induction false} HandlerNeverRetriesAsWritten(calls: seq<Outcome>, used: nat)
    requires used <= TransportRetries
    ensures var r := Transport(calls, used);
            r.Some? && r.value.Errored? ==> !IsRetryableError(r.value.error)
    decreases |calls|
  {
    if calls != [] && calls[0].Errored? {
      var e := calls[0].error;
      if IsRetryableError(e) {
        if used == TransportRetries {
          ExhaustedNeverRetryable(e);
        } else {
          HandlerNeverRetriesAsWritten(calls[1..], used + 1);
        }
      }
    }
  }

  /**
   * The classification `handleUploadError` evidently means: an exhausted transport
   * retry is judged by the error that exhausted it.
   */
  predicate IsRetryableCause(e: DeliveryError) {
    match e
    case RetriesExhausted(cause) => IsRetryableCause(cause)
    case _ => IsRetryableError(e)
  }

  /** On every error other than Reactor's wrapper the corrected classification is the source's. */
  lemma CauseAgreesOnUnwrapped(e: DeliveryError)
    requires !e.RetriesExhausted?
    ensures IsRetryableCause(e) == IsRetryableError(e)
  {
  }

  /**
   * With the corrected classification, the error `handleUploadError` receives is
   * retryable exactly when the transport layer gave up on a transient failure.
   */
  lemma {:induction false} HandlerRetriesExactlyExhausted(calls: seq<Outcome>, used: nat)
    requires used <= TransportRetries
    requires forall i :: 0 <= i < |calls| ==> IsCallOutcome(calls[i])
    ensures var r := Transport(calls, used);
            r.Some? && r.value.Errored? ==>
              (IsRetryableCause(r.value.error) <==> r.value.error.RetriesExhausted?)
    decreases |calls|
  {
    if calls != [] && calls[0].Errored? {
      var e := calls[0].error;
      if IsRetryableError(e) && used < TransportRetries {
        HandlerRetriesExactlyExhausted(calls[1..], used + 1);
      }
    }
  }

  /** The retry condition of `handleUploadError` as written. */
  predicate ShouldRetryAsWritten(attempts: int, maxRetryAttempts: int, e: DeliveryError) {
    attempts < maxRetryAttempts && IsRetryableError(e)
  }

  /** The retry condition with the corrected classification; the service model uses this one. */
  predicate ShouldRetry(attempts: int, maxRetryAttempts: int, e: DeliveryError) {
    attempts < maxRetryAttempts && IsRetryableCause(e)
  }

  /** Three 503 answers in a row: the source gives up after one attempt, the corrected rule re-enqueues. */
  lemma ServerOutageCounterexample()
    ensures var calls := [Errored(ResponseError(503, "Service Unavailable")),
                          Errored(ResponseError(503, "Service Unavailable")),
                          Errored(ResponseError(503, "Service Unavailable"))];
            Transport(calls, 0) == Some(Errored(RetriesExhausted(ResponseError(503, "Service Unavailable")))) &&
            !ShouldRetryAsWritten(1, 3, RetriesExhausted(ResponseError(503, "Service Unavailable"))) &&
            ShouldRetry(1, 3, RetriesExhausted(ResponseError(503, "Service Unavailable")))
  {
    var e := ResponseError(503, "Service Unavailable");
    var calls := [Errored(e), Errored(e), Errored(e)];
    assert calls[1..][1..] == [Errored(e)];
    assert Transport(calls[1..][1..], 2) == Some(Errored(RetriesExhausted(e)));
    ExhaustedNeverRetryable(e);
  }

  /** The text of the terminal failure: "Failed to upload photo after %d attempts: %s". */
  function FailureMessage(attempts: nat, message: string): string {
    FailurePrefix + NatToDecimal(attempts) + FailureInfix + message
  }

  const FailurePrefix := "Failed to upload photo after "
  const FailureInfix := " attempts: "

  /** Length of the run of decimal digits at the start of `s`. */
  function LeadingDigits(s: string): nat
    decreases |s|
  {
    if s != [] && '0' <= s[0] <= '9' then 1 + LeadingDigits(s[1..]) else 0
  }

  /** Digits followed by a non-digit: the digit run is exactly the digits. */
  lemma {:induction false} LeadingDigitsOfRun(a: string, x: string)
    requires IsDigits(a) && x != [] && !('0' <= x[0] <= '9')
    ensures LeadingDigits(a + x) == |a|
    decreases |a|
  {
    if a == [] {
      assert a + x == x;
    } else {
      assert (a + x)[0] == a[0];
      assert (a + x)[1..] == a[1..] + x;
      LeadingDigitsOfRun(a[1..], x);
    }
  }

  /** A digit run followed by a non-digit splits only one way. */
  lemma DigitRunSplitsOnce(d: string, x: string, d2: string, y: string)
    requires IsDigits(d) && IsDigits(d2) && x != [] && y != []
    requires !('0' <= x[0] <= '9') && !('0' <= y[0] <= '9')
    requires d + x == d2 + y
    ensures d == d2 && x == y
  {
    LeadingDigitsOfRun(d, x);
    LeadingDigitsOfRun(d2, y);
    assert d == (d + x)[..|d|] && d2 == (d2 + y)[..|d2|];
    assert x == (d + x)[|d|..] && y == (d2 + y)[|d2|..];
  }

  /** `p + digits + i + m` read back, for any prefix `p` and any infix `i` that starts with a non-digit. */
  lemma PrefixedCountSplitsOnce(p: string, d: string, i: string, m: string, d2: string, m2: string)
    requires IsDigits(d) && IsDigits(d2) && i != [] && !('0' <= i[0] <= '9')
    requires p + (d + (i + m)) == p + (d2 + (i + m2))
    ensures d == d2 && m == m2
  {
    assert d + (i + m) == d2 + (i + m2) by {
      assert (p + (d + (i + m)))[|p|..] == d + (i + m);
      assert (p + (d2 + (i + m2)))[|p|..] == d2 + (i + m2);
    }
    DigitRunSplitsOnce(d, i + m, d2, i + m2);
    assert (i + m)[|i|..] == m && (i + m2)[|i|..] == m2;
  }

  /** The failure message names the exact attempt count and the underlying message: both can be read back. */
  lemma FailureMessageInjective(n: nat, m: string, n2: nat, m2: string)
    requires FailureMessage(n, m) == FailureMessage(n2, m2)
    ensures n == n2 && m == m2
  {
    var p, i := FailurePrefix, FailureInfix;
    assert FailureMessage(n, m) == p + (NatToDecimal(n) + (i + m));
    assert FailureMessage(n2, m2) == p + (NatToDecimal(n2) + (i + m2));
    PrefixedCountSplitsOnce(p, NatToDecimal(n), i, m, NatToDecimal(n2), m2);
    DecimalInjective(n, n2);
  }

  /** Where `handleUploadError` sends a failed task. */
  datatype Verdict = Requeue(due: int) | Fail(message: string)

  /**
   * `handleUploadError` at time `now` (milliseconds), after `attempts` attempts, for an
   * error classified `retryable` and carrying `message`: re-enqueue once
   * `retryDelaySeconds` have passed, or fail with the attempt count and the message.
   * The source classifies with `IsRetryableError`; the service model with `IsRetryableCause`.
   */
  function Decide(attempts: nat, maxRetryAttempts: int, retryDelaySeconds: int,
                  retryable: bool, message: string, now: int): (v: Verdict)
    ensures v.Requeue? <==> attempts < maxRetryAttempts && retryable
    ensures v.Requeue? ==> v.due - now == 1000 * retryDelaySeconds
    ensures v.Fail? ==> v.message == FailureMessage(attempts, message)
  {
    if attempts < maxRetryAttempts && retryable then Requeue(now + retryDelaySeconds * 1000)
    else Fail(FailureMessage(attempts, message))
  }

  /**
   * The verdict as written, on whatever error the transport hands on: always a failure,
   * after the attempts made so far, with that error's message.
   */
  lemma AsWrittenNeverRequeues(calls: seq<Outcome>, used: nat, attempts: nat, maxRetryAttempts: int,
                               retryDelaySeconds: int, now: int)
    requires used <= TransportRetries
    requires Transport(calls, used).Some? && Transport(calls, used).value.Errored?
    ensures var e := Transport(calls, used).value.error;
            Decide(attempts, maxRetryAttempts, retryDelaySeconds, IsRetryableError(e), Message(e), now) ==
            Fail(FailureMessage(attempts, Message(e)))
  {
    HandlerNeverRetriesAsWritten(calls, used);
  }

  /**
   * The life of one task that fails on every attempt, `errors` holding its successive
   * errors and `attempts` the attempts already made: the attempt count at which it
   * fails for good, or None if `errors` runs out while it is still being retried.
   */
  function FailsAfter(attempts: nat, maxRetryAttempts: int, errors: seq<DeliveryError>): Option<nat>
    decreases |errors|
  {
    if errors == [] then None
    else if ShouldRetry(attempts + 1, maxRetryAttempts, errors[0])
    then FailsAfter(attempts + 1, maxRetryAttempts, errors[1..])
    else Some(attempts + 1)
  }

  /** A task that fails is attempted at least once more and at most `max(attempts + 1, maxRetryAttempts)` times. */
  lemma {:induction false} FailsWithinBudget(attempts: nat, maxRetryAttempts: int, errors: seq<DeliveryError>)
    ensures var r := FailsAfter(attempts, maxRetryAttempts, errors);
            r.Some? ==> attempts < r.value &&
                        (r.value == attempts + 1 || r.value <= maxRetryAttempts)
    decreases |errors|
  {
    if errors != [] && ShouldRetry(attempts + 1, maxRetryAttempts, errors[0]) {
      FailsWithinBudget(attempts + 1, maxRetryAttempts, errors[1..]);
    }
  }

  /** A task that only meets retryable errors fails exactly when the retry budget is spent. */
  lemma {:induction false} RetryableErrorsSpendWholeBudget(attempts: nat, maxRetryAttempts: int,
                                                           errors: seq<DeliveryError>)
    requires attempts < maxRetryAttempts
    requires forall i :: 0 <= i < |errors| ==> IsRetryableCause(errors[i])
    requires |errors| >= maxRetryAttempts - attempts
    ensures FailsAfter(attempts, maxRetryAttempts, errors) == Some(maxRetryAttempts)
    decreases |errors|
  {
    if attempts + 1 < maxRetryAttempts {
      RetryableErrorsSpendWholeBudget(attempts + 1, maxRetryAttempts, errors[1..]);
    }
  }

  /** A non-retryable first failure ends the task after exactly one attempt. */
  lemma NonRetryableFailsAtOnce(maxRetryAttempts: int, errors: seq<DeliveryError>)
    requires errors != [] && !IsRetryableCause(errors[0])
    ensures FailsAfter(0, maxRetryAttempts, errors) == Some(1)
  {
  }
}
