/**
 * Runs of the service built only from its methods' contracts, showing behaviour
 * the code has and a reader might not expect.
 */
module Scenarios {
  import opened Wrappers
  import opened Text
  import opened Naming
  import opened RateLimit
  import opened Retry
  import opened Service

  const Url := "https://hooks.example/upload"

  method ConfiguredService(rpm: int, maxQueue: int, maxRetries: int) returns (s: WebhookService)
    ensures s.Valid() && IsConfigured(s.webhookUrl) && s.uploadQueue == [] && s.tasks == map[]
    ensures s.requestsPerMinute == rpm && s.maxQueueSize == maxQueue && s.maxRetryAttempts == maxRetries
    ensures s.retryDelaySeconds == 5 && s.RateWindow() == Reset(0) && s.nextId == 0
    ensures fresh(s)
  {
    TrimKeepsInterior(Url, 0);
    s := new WebhookService(Some(Url), rpm, maxQueue, maxRetries, 5, 0);
  }

  /** Capacity one: the first task is dispatched, which frees the slot for a second submission. */
  method FirstInFlightSecondQueued(taken: Timestamp) returns (s: WebhookService)
    requires ValidTimestamp(taken)
    ensures s.Valid() && s.uploadQueue == [1] && 0 in s.tasks && s.tasks[0].state == InFlight
    ensures s.tasks[0].attempts == 1 && s.maxQueueSize == 1 && s.maxRetryAttempts == 3 && s.retryDelaySeconds == 5
    ensures fresh(s)
  {
    s := ConfiguredService(30, 1, 3);
    var a := s.UploadPhotoToWebhook(Bytes([1]), taken, taken);
    assert a == Pending(0);
    var d := s.ProcessQueue(1000);
    assert d == Some(0) && s.uploadQueue == [];
    var b := s.UploadPhotoToWebhook(Bytes([2]), taken, taken);
    assert b == Pending(1);
  }

  /**
   * Under the corrected classification, with a capacity of one, a task whose transport
   * retries were exhausted by 503 answers is re-offered behind a newer submission: the
   * queue then holds two tasks, since the re-offer skips the capacity check. As written,
   * the re-offer never happens (`HandlerNeverRetriesAsWritten`).
   */
  method RetryOverfillsQueue(taken: Timestamp) returns (s: WebhookService)
    requires ValidTimestamp(taken)
    ensures s.Valid() && |s.uploadQueue| == 2 > s.maxQueueSize
  {
    s := FirstInFlightSecondQueued(taken);
    s.Complete(0, Errored(RetriesExhausted(ResponseError(503, "Service Unavailable"))), 2000);
    assert s.tasks[0].state == WaitingRetry(7000);
    s.FireRetry(0, 7000);
    assert s.uploadQueue == [1, 0];
  }

  /** Two submissions to a service allowed one request per minute: both wait in order. */
  method TwoQueuedOnePerMinute(taken: Timestamp) returns (s: WebhookService)
    requires ValidTimestamp(taken)
    ensures s.Valid() && s.uploadQueue == [0, 1] && 0 in s.tasks && 1 in s.tasks
    ensures s.tasks[0].state == Queued && s.tasks[1].state == Queued
    ensures s.requestsPerMinute == 1 && s.RateWindow() == Reset(0)
    ensures fresh(s)
  {
    s := ConfiguredService(1, 100, 3);
    var a := s.UploadPhotoToWebhook(Bytes([1]), taken, taken);
    var b := s.UploadPhotoToWebhook(Bytes([2]), taken, taken);
  }

  /**
   * One request per minute: the first tick dispatches, the service then reports
   * itself rate limited and the next tick waits; once the minute is over the second
   * task goes out.
   */
  method OneRequestPerMinute(taken: Timestamp) returns (s: WebhookService)
    requires ValidTimestamp(taken)
    ensures s.Valid() && s.uploadQueue == [] && 0 in s.tasks && 1 in s.tasks
    ensures s.tasks[0].state == InFlight && s.tasks[1].state == InFlight
  {
    s := TwoQueuedOnePerMinute(taken);
    var d := s.ProcessQueue(1000);
    assert d == Some(0);
    var limited := s.IsRateLimited(1000);
    assert limited;
    d := s.ProcessQueue(2000);
    assert d == None && s.uploadQueue == [1];
    d := s.ProcessQueue(WindowMillis);
    assert d == Some(1);
  }

  /** One submission, dispatched on the first tick: one attempt made. */
  method OneInFlight(taken: Timestamp) returns (s: WebhookService)
    requires ValidTimestamp(taken)
    ensures s.Valid() && 0 in s.tasks && s.tasks[0].state == InFlight && s.tasks[0].attempts == 1
    ensures s.maxRetryAttempts == 3 && s.uploadQueue == []
    ensures fresh(s)
  {
    s := ConfiguredService(30, 100, 3);
    var a := s.UploadPhotoToWebhook(Bytes([1]), taken, taken);
    var d := s.ProcessQueue(1000);
    assert d == Some(0);
  }

  /** A 404 on the first attempt fails the task at once, after one attempt. */
  method NotFoundFailsAtOnce(taken: Timestamp) returns (s: WebhookService)
    requires ValidTimestamp(taken)
    ensures s.Valid() && 0 in s.tasks && s.tasks[0].attempts == 1
    ensures s.tasks[0].state == Failed(Exception(Runtime, FailureMessage(1, "Not Found")))
  {
    s := OneInFlight(taken);
    s.Complete(0, Errored(ResponseError(404, "Not Found")), 1500);
  }

  /**
   * A 204 reply to the first attempt: the task is left unanswered, and later ticks
   * do not touch it.
   */
  method NoContentLeavesTaskUnanswered(taken: Timestamp) returns (s: WebhookService)
    requires ValidTimestamp(taken)
    ensures s.Valid() && 0 in s.tasks && s.tasks[0].state == Unanswered && s.uploadQueue == []
  {
    s := OneInFlight(taken);
    s.Complete(0, CompletedEmpty, 1500);
    var d := s.ProcessQueue(2000);
    assert d == None;
  }
}
