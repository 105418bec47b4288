/**
 * PhotoUploadController: the request checks and the error-to-status mapping of
 * `uploadPhoto` (POST /api/upload-photo), and the map `getQueueStatus` builds
 * (GET /api/queue-status).
 */
module Controller {
  import opened Wrappers
  import opened Text
  import opened RateLimit
  import opened Retry
  import opened Service

  /** The multipart `file` parameter, when the request has one. */
  datatype FilePart = FilePart(isEmpty: bool, contentType: Option<string>)

  /** How `webhookService.uploadPhotoToWebhook(file).block()` ends: a value, or the exception it rethrows. */
  datatype ServiceResult = Returned(body: string) | Threw(error: Exception)

  /** A ResponseEntity: the HTTP status and the body map. */
  datatype Response = Response(status: int, body: map<string, string>)

  const NoFileMessage := "No file provided"
  const NotImageMessage := "File must be an image"
  const SuccessMessage := "Photo uploaded successfully"
  const NotConfiguredReply := "Webhook no configurado. La URL del webhook no está configurada en el servidor."
  const UploadFailedPrefix := "Failed to upload photo: "

  function ErrorResponse(status: int, message: string): (r: Response)
    ensures r.body.Keys == {"error"} && r.body["error"] == message
  {
    Response(status, map["error" := message])
  }

  /** `contentType != null && contentType.startsWith("image/")`. */
  predicate IsImageType(contentType: Option<string>) {
    contentType.Some? && StartsWith(contentType.value, "image/")
  }

  /**
   * The two checks before the service is called, in their order: a file that is
   * present and not empty, then an image content type. Some(response) when the
   * request is refused.
   */
  function Validate(file: Option<FilePart>): (r: Option<Response>)
    ensures r.Some? <==> file.None? || file.value.isEmpty || !IsImageType(file.value.contentType)
    ensures r.Some? ==> r.value.status == 400 && r.value.body.Keys == {"error"}
  {
    if file.None? || file.value.isEmpty then Some(ErrorResponse(400, NoFileMessage))
    else if !IsImageType(file.value.contentType) then Some(ErrorResponse(400, NotImageMessage))
    else None
  }

  /** An IllegalStateException whose message mentions the missing URL. */
  predicate IsConfigurationError(e: Exception) {
    e.kind == IllegalState && Contains(e.message, NotConfiguredMessage)
  }

  /** The try/catch around the blocking service call. */
  function Respond(result: ServiceResult): (r: Response)
    ensures r.status == 200 <==> result.Returned?
    ensures r.status == 400 <==> result.Threw? && IsConfigurationError(result.error)
    ensures r.status == 500 ==> r.body == map["error" := UploadFailedPrefix + result.error.message]
  {
    match result
    case Returned(_) => Response(200, map["message" := SuccessMessage])
    case Threw(e) =>
      if IsConfigurationError(e) then ErrorResponse(400, NotConfiguredReply)
      else ErrorResponse(500, UploadFailedPrefix + e.message)
  }

  /**
   * `uploadPhoto`: every response carries exactly one key, "message" on success
   * and "error" otherwise.
   */
  function UploadPhoto(file: Option<FilePart>, result: ServiceResult): (r: Response)
    ensures |r.body| == 1 && (r.body.Keys == {"error"} || r.body.Keys == {"message"})
    ensures r.status == 200 <==> "message" in r.body
    ensures r.status == 200 || r.status == 400 || r.status == 500
  {
    match Validate(file)
    case Some(refusal) => refusal
    case None => Respond(result)
  }

  /** A missing or empty file is refused with 400 "No file provided". */
  lemma MissingFileRefused(file: Option<FilePart>, result: ServiceResult)
    requires file.None? || file.value.isEmpty
    ensures UploadPhoto(file, result) == Response(400, map["error" := NoFileMessage])
  {
  }

  /** A file whose content type is absent or not "image/..." is refused with 400 "File must be an image", once it is known not to be empty. */
  lemma NonImageRefused(file: Option<FilePart>, result: ServiceResult)
    requires file.Some? && !file.value.isEmpty
    ensures UploadPhoto(file, result).body == map["error" := NotImageMessage] <==> !IsImageType(file.value.contentType)
  {
  }

  /** A refused request does not depend on the service: the service is not called. */
  lemma RefusalIgnoresService(file: Option<FilePart>, result1: ServiceResult, result2: ServiceResult)
    requires Validate(file).Some?
    ensures UploadPhoto(file, result1) == UploadPhoto(file, result2)
  {
  }

  /** A valid image whose upload completes gets 200 "Photo uploaded successfully". */
  lemma SuccessAnswered(file: Option<FilePart>, body: string)
    requires Validate(file).None?
    ensures UploadPhoto(file, Returned(body)) == Response(200, map["message" := SuccessMessage])
  {
  }

  /** A valid image with an unconfigured service gets 400 and the Spanish explanation. */
  lemma UnconfiguredAnswered(file: Option<FilePart>, photo: PhotoData, queueSize: nat, maxQueueSize: int,
                             url: Option<string>)
    requires Validate(file).None? && !IsConfigured(url)
    ensures UploadPhoto(file, Threw(Admission(url, photo, queueSize, maxQueueSize).value))
            == Response(400, map["error" := NotConfiguredReply])
  {
    ContainsItself(NotConfiguredMessage);
  }

  /** Every other failure gets 500 with "Failed to upload photo: " and the exception's message. */
  lemma OtherFailureAnswered(file: Option<FilePart>, e: Exception)
    requires Validate(file).None? && !IsConfigurationError(e)
    ensures UploadPhoto(file, Threw(e)) == Response(500, map["error" := UploadFailedPrefix + e.message])
  {
  }

  /**
   * What `block()` yields for a submission whose task is in `state`: its synchronous
   * error, or the way its future was completed; None while the future is pending,
   * when `block()` has not returned.
   */
  function Await(s: Submission, state: TaskState): (r: Option<ServiceResult>)
    ensures r.None? <==> s.Pending? && !state.IsResolved()
    ensures r.Some? && r.value.Threw? <==> s.Rejected? || state.Failed?
  {
    match s
    case Rejected(e) => Some(Threw(e))
    case Pending(_) =>
      match state
      case Succeeded(body) => Some(Returned(body))
      case Failed(e) => Some(Threw(e))
      case _ => None
  }

  /**
   * A delivery answered with no body leaves its task unanswered, and the request
   * that submitted it never gets a response: `block()` does not return.
   */
  lemma UnansweredNeverResponds(id: TaskId)
    ensures Await(Pending(id), Unanswered) == None
    ensures !Unanswered.IsResolved() && Unanswered.IsSettled()
  {
  }

  /**
   * A task that fails for good reaches the client as 500 with the attempt count:
   * "Failed to upload photo: Failed to upload photo after N attempts: msg".
   */
  lemma TerminalFailureAnswered(file: Option<FilePart>, id: TaskId, attempts: nat, maxRetryAttempts: int,
                                retryDelaySeconds: int, e: DeliveryError, now: int)
    requires Validate(file).None?
    requires !ShouldRetry(attempts, maxRetryAttempts, e)
    ensures var final := ErrorState(Decide(attempts, maxRetryAttempts, retryDelaySeconds,
                                           IsRetryableCause(e), Message(e), now));
            Await(Pending(id), final).Some? &&
            UploadPhoto(file, Await(Pending(id), final).value) ==
            Response(500, map["error" := UploadFailedPrefix + FailureMessage(attempts, Message(e))])
  {
  }

  /** A full queue reaches the client as 500 with the service's capacity message. */
  lemma FullQueueAnswered(file: Option<FilePart>, url: Option<string>, data: seq<bv8>, queueSize: nat,
                          maxQueueSize: int)
    requires Validate(file).None? && IsConfigured(url) && queueSize >= maxQueueSize
    ensures UploadPhoto(file, Threw(Admission(url, Bytes(data), queueSize, maxQueueSize).value)) ==
            Response(500, map["error" := UploadFailedPrefix + QueueFullMessage])
  {
  }

  /** A value of the status map: the boxed Integer, Long or Boolean. */
  datatype StatusValue = Number(n: int) | Flag(b: bool)

  /** The map `getQueueStatus` answers with: exactly its four keys. */
  function StatusMap(queueSize: int, currentRequestCount: int, requestsPerMinute: int, isRateLimited: bool)
    : (m: map<string, StatusValue>)
    ensures m.Keys == {"queueSize", "currentRequestCount", "requestsPerMinute", "isRateLimited"}
  {
    map["queueSize" := Number(queueSize), "currentRequestCount" := Number(currentRequestCount),
        "requestsPerMinute" := Number(requestsPerMinute), "isRateLimited" := Flag(isRateLimited)]
  }

  /**
   * `getQueueStatus`: the accessors are read in order, so the request count is the
   * one from before the window reset that `isRateLimited` may perform.
   */
  method GetQueueStatus(service: WebhookService, now: int) returns (status: map<string, StatusValue>)
    requires service.Valid()
    modifies service`requestCount, service`windowStart
    ensures service.Valid()
    ensures service.RateWindow() == Refresh(old(service.RateWindow()), now)
    ensures status == StatusMap(|service.uploadQueue|, old(service.requestCount), service.requestsPerMinute,
                                !Allows(service.RateWindow(), service.requestsPerMinute))
  {
    var queueSize := service.GetQueueSize();
    var count := service.GetCurrentRequestCount();
    var limit := service.GetRequestsPerMinute();
    var limited := service.IsRateLimited(now);
    status := StatusMap(queueSize, count, limit, limited);
  }

  /**
   * Once the minute is over the status can show a full count and yet not be rate
   * limited: the count shown is the expired window's.
   */
  lemma ExpiredWindowNotLimited(count: int, start: int, now: int, limit: int)
    requires now - start >= WindowMillis && limit > 0
    ensures !Allows(Window(count, start), limit) ==> Refresh(Window(count, start), now).count == 0
    ensures Allows(Refresh(Window(count, start), now), limit)
  {
  }
}
