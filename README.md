# Webcam photo webhook dispatcher, modelled in Dafny

The web-camera application accepts photos over HTTP (`POST /api/upload-photo`) and forwards
them to a configured webhook. Between the two sits `WebhookService`:

- a submission gate that checks the webhook URL, reads the photo and checks the queue's capacity;
- a FIFO upload queue of tasks, each carrying a generated filename and caption;
- a one-second dispatch tick that sends at most one task, when the per-minute request window allows it;
- a retry-or-fail decision for failed deliveries;
- monitoring accessors.

`PhotoUploadController` validates the request, blocks on the service and maps the outcome to an
HTTP status and a one-key body. It also reports the queue status (`GET /api/queue-status`).

The project has these modules:

| file | module | what it holds |
|---|---|---|
| `wrappers.dfy` | `Wrappers` | `Option` |
| `text.dfy` | `Text` | `String.trim`, `contains` and `startsWith`; `%d` formatting of a count and reading it back |
| `naming.dfy` | `Naming` | the `camera-photo-yyyy-MM-dd_HH-mm-ss.jpg` filename and the `dd/MM/yyyy HH:mm:ss` caption, with parsers that read the timestamp back |
| `rate_limit.dfy` | `RateLimit` | the request window as a value: lazy reset, count, bound; what a run of ticks dispatches |
| `retry.dfy` | `Retry` | `isRetryableError`, the Reactor transport retry in front of `handleUploadError`, the retry-or-fail verdict and a task's whole failure history |
| `webhook_service.dfy` | `Service` | the class `WebhookService`: queue, tasks, window and every scheduler callback as a method |
| `photo_upload_controller.dfy` | `Controller` | `uploadPhoto` as a pure decision function, `getQueueStatus` as a method on the service |
| `scenarios.dfy` | `Scenarios` | short runs of the service, proved from the methods' contracts alone |

### How the service is modelled

Times are inputs:

- the current time in milliseconds is a parameter `now` of every method that reads the clock;
- the two `LocalDateTime.now()` calls of a submission are two `Timestamp` parameters.

A task is a value `UploadTask` in the map `tasks`, under a `TaskId` that stands for the object
reference the source passes around. Its `state` records where it is:

- `Queued`;
- `InFlight`: dispatched, its delivery not yet settled;
- `WaitingRetry(due)`: a re-enqueue is scheduled at `due`;
- `Succeeded(body)` or `Failed(error)`: its future is completed;
- `Unanswered`: its delivery completed without a value (a 2xx reply with no body, such as 204 No Content). Neither consumer of `subscribe` ran, so its future stays pending for good and the request that submitted it never gets a response.

The queue is a `seq<TaskId>`. Several tasks can be in flight at once, because `subscribe` does
not block.

The scheduler's callbacks become methods:

- `ProcessQueue(now)`: one tick;
- `Complete(id, outcome, now)`: the subscriber of one delivery;
- `FireRetry(id, now)`: one scheduled re-enqueue;
- `ResetRateLimit(now)`: the periodic reset.

The class invariant `Valid()` states four things:

- the queue holds, exactly once each, the tasks in state `Queued`;
- every task's attempt count fits its state, so no task is dispatched more than `max(1, maxRetryAttempts)` times;
- ids are below `nextId`;
- the window's count stays within the limit.

Every state-changing method also keeps settled tasks untouched (`KeepsSettled`): a future is
completed at most once, and an unanswered task is never completed.

### Where the code differs from the design description

The model follows the code in each case. One exception is described under Findings: `handleUploadError`'s
classification can never re-enqueue a task, and the class uses a corrected one.

- **Queue bound.** The design says the queue never holds more than `maxQueueSize` tasks. The code checks the capacity only on submission (WebhookService.java:135), and the scheduled retry re-offers without a check (line 250). As written, that re-offer never runs (see Findings: `Retry.HandlerNeverRetriesAsWritten`, `Retry.AsWrittenNeverRequeues`). So in the sequential code every append passes the capacity check, and the bound holds at all times. It is lost only under the corrected classification, which the class uses: `Scenarios.RetryOverfillsQueue` reaches a queue of two with a capacity of one. `UploadPhotoToWebhook` states the bound after each accepted submission.
- **Fixed window.** The design calls the window rolling. The code's window is fixed: it starts when it is reset (lines 177-179, 184-187). `RateLimit.BurstAcrossBoundary` shows two dispatches, one millisecond apart, under a limit of one per minute.
- **Accessors are not pure.** The design calls the monitoring accessors pure reads. `isRateLimited` calls `canMakeRequest`, which can reset the window (lines 274-276). `getQueueStatus` reads `currentRequestCount` before that reset, so the count it shows can belong to an expired window (`Controller.GetQueueStatus`, `Controller.ExpiredWindowNotLimited`).
- **Read failure before capacity.** Reading the photo's bytes (line 132) comes before the capacity check. An unreadable photo is therefore refused with "Failed to read photo data: …" even when the queue is full (`Service.Admission`).

## Model

Paths are relative to the repository root. `WebhookService.java` is
`src/main/java/com/magumboi/webcameraapp/service/WebhookService.java` and `PhotoUploadController.java` is
`src/main/java/com/magumboi/webcameraapp/controller/PhotoUploadController.java`.

| member | source | states |
|---|---|---|
| Text.TrimStart | src/main/java/com/magumboi/webcameraapp/service/WebhookService.java:119 | the leading part `trim` drops is made only of characters up to U+0020, and what is left is a suffix that starts with some other character |
| Text.TrimEnd | src/main/java/com/magumboi/webcameraapp/service/WebhookService.java:119 | the trailing part `trim` drops is made only of characters up to U+0020, and what is left is a prefix that ends with some other character |
| Text.Trim | src/main/java/com/magumboi/webcameraapp/service/WebhookService.java:119 | Java's `trim`: its characterisation is `Text.TrimStart`, `Text.TrimEnd`, `Text.TrimEmptyIff` and `Text.TrimKeepsInterior` |
| Text.TrimEmptyIff | src/main/java/com/magumboi/webcameraapp/service/WebhookService.java:119 | `url.trim().isEmpty()` holds exactly when every character of the URL is at most U+0020 |
| Text.TrimKeepsInterior | src/main/java/com/magumboi/webcameraapp/service/WebhookService.java:119 | the part of the URL that trimming keeps starts where the leading trimmable characters end and reaches past every character above U+0020, so such a URL is not empty after trimming |
| Text.StartsWith | src/main/java/com/magumboi/webcameraapp/controller/PhotoUploadController.java:30 | `startsWith`; used by `Controller.IsImageType` and stated by `Naming.ParseFilename` and `Naming.ParseCaption` |
| Text.Contains | src/main/java/com/magumboi/webcameraapp/service/WebhookService.java:238-239 | case-sensitive `contains`: `Retry.ExhaustedMessageIsQuiet` and `Controller.UnconfiguredAnswered` state what it gives on the source's strings |
| Text.NatToDecimal | src/main/java/com/magumboi/webcameraapp/service/WebhookService.java:255-256 | `%d` of an attempt count is a non-empty string of decimal digits with no leading zero unless the count is 0 |
| Text.DecimalRoundTrip | src/main/java/com/magumboi/webcameraapp/service/WebhookService.java:255-256 | reading back the printed digits gives the count |
| Text.DecimalInjective | src/main/java/com/magumboi/webcameraapp/service/WebhookService.java:255-256 | different counts print differently |
| Naming.Pad2 | src/main/java/com/magumboi/webcameraapp/service/WebhookService.java:125 | `MM`, `dd`, `HH`, `mm`, `ss` print exactly two digits |
| Naming.Pad4 | src/main/java/com/magumboi/webcameraapp/service/WebhookService.java:125 | `yyyy` prints exactly four digits |
| Naming.Pad2RoundTrip | src/main/java/com/magumboi/webcameraapp/service/WebhookService.java:125 | a two-digit field reads back to its value |
| Naming.Pad4RoundTrip | src/main/java/com/magumboi/webcameraapp/service/WebhookService.java:125 | a four-digit year reads back to its value |
| Naming.DateDashedRoundTrip | src/main/java/com/magumboi/webcameraapp/service/WebhookService.java:125 | `yyyy-MM-dd` is ten characters and reads back to year, month and day |
| Naming.DateSlashedRoundTrip | src/main/java/com/magumboi/webcameraapp/service/WebhookService.java:129 | `dd/MM/yyyy` is ten characters and reads back to day, month and year |
| Naming.TimeOfDayRoundTrip | src/main/java/com/magumboi/webcameraapp/service/WebhookService.java:125-129 | `HH-mm-ss` and `HH:mm:ss` are eight characters and read back to hour, minute and second |
| Naming.Filename | src/main/java/com/magumboi/webcameraapp/service/WebhookService.java:125-126 | "camera-photo-" + `yyyy-MM-dd_HH-mm-ss` + ".jpg": `Naming.FilenameRoundTrip` and `Naming.FilenameInjective` state that it determines its timestamp |
| Naming.Caption | src/main/java/com/magumboi/webcameraapp/service/WebhookService.java:129 | "📸 Nueva foto tomada - " + `dd/MM/yyyy HH:mm:ss`: `Naming.CaptionRoundTrip` states that it determines its timestamp |
| Naming.ParseFilename | src/main/java/com/magumboi/webcameraapp/service/WebhookService.java:125-126 | a string it accepts is 36 characters long and starts with "camera-photo-" |
| Naming.ParseCaption | src/main/java/com/magumboi/webcameraapp/service/WebhookService.java:129 | a string it accepts is 41 characters long and starts with "📸 Nueva foto tomada - " |
| Naming.FilenameRoundTrip | src/main/java/com/magumboi/webcameraapp/service/WebhookService.java:125-126 | the filename "camera-photo-" + `yyyy-MM-dd_HH-mm-ss` + ".jpg" determines its timestamp: parsing it gives the timestamp back |
| Naming.CaptionRoundTrip | src/main/java/com/magumboi/webcameraapp/service/WebhookService.java:129 | the caption "📸 Nueva foto tomada - " + `dd/MM/yyyy HH:mm:ss` parses back to its timestamp |
| Naming.FilenameInjective | src/main/java/com/magumboi/webcameraapp/service/WebhookService.java:125-126 | photos taken in different seconds get different filenames |
| RateLimit.Reset | src/main/java/com/magumboi/webcameraapp/service/WebhookService.java:184-188 | after a reset the count is zero and the window is current |
| RateLimit.Refresh | src/main/java/com/magumboi/webcameraapp/service/WebhookService.java:173-179 | the lazy check either keeps the window or resets it at `now`; afterwards the window is less than a minute old and its count has not grown |
| RateLimit.Record | src/main/java/com/magumboi/webcameraapp/service/WebhookService.java:192 | an attempt adds exactly one to the count and keeps the window's start; what the increment promises is stated by `RateLimit.BoundPreserved` (the count stays within the limit) and `RateLimit.OneWindowAdmitsExactlyTheRest` (a window admits exactly its remaining room) |
| RateLimit.Allows | src/main/java/com/magumboi/webcameraapp/service/WebhookService.java:181 | `requestCount < requestsPerMinute` on the refreshed window; used by `Service.WebhookService.CanMakeRequest` and stated by `RateLimit.OneWindowAdmitsExactlyTheRest` |
| RateLimit.Dispatched | src/main/java/com/magumboi/webcameraapp/service/WebhookService.java:151-192 | how many attempts a run of ticks over a non-empty queue makes; stated by `RateLimit.OneWindowAdmitsExactlyTheRest`, `RateLimit.FreshWindowAdmitsLimit` and `RateLimit.BurstAcrossBoundary` |
| RateLimit.RefreshResetsIffExpired | src/main/java/com/magumboi/webcameraapp/service/WebhookService.java:177-179 | the lazy check resets the window exactly when 60000 ms or more have passed since it started |
| RateLimit.RefreshIdempotent | src/main/java/com/magumboi/webcameraapp/service/WebhookService.java:173-181 | checking twice at the same instant is the same as checking once |
| RateLimit.BoundPreserved | src/main/java/com/magumboi/webcameraapp/service/WebhookService.java:173-192 | from a count within the limit, neither a reset nor a permitted attempt takes it over the limit |
| RateLimit.OneWindowAdmitsExactlyTheRest | src/main/java/com/magumboi/webcameraapp/service/WebhookService.java:151-192 | within one minute of a window, ticks over a non-empty queue dispatch exactly `min(ticks, limit - count)` tasks |
| RateLimit.FreshWindowAdmitsLimit | src/main/java/com/magumboi/webcameraapp/service/WebhookService.java:151-192 | from a fresh window, a minute of ticks dispatches at most `requestsPerMinute`, and exactly that many when there are enough ticks |
| RateLimit.BurstAcrossBoundary | src/main/java/com/magumboi/webcameraapp/service/WebhookService.java:177-181 | the window is fixed: with a limit of one, ticks at 59999 ms and 60000 ms both dispatch |
| Retry.ResponseRetryableIff | src/main/java/com/magumboi/webcameraapp/service/WebhookService.java:226-234 | a response error is retryable exactly when its status is 429, 408 or 500-599 |
| Retry.OtherRetryableIff | src/main/java/com/magumboi/webcameraapp/service/WebhookService.java:237-239 | any other error is retryable exactly when it is an IOException or its message contains "Connection" or "timeout" |
| Retry.IsRetryableError | src/main/java/com/magumboi/webcameraapp/service/WebhookService.java:225-240 | `isRetryableError` as written: `Retry.ResponseRetryableIff`, `Retry.OtherRetryableIff` and `Retry.ExhaustedNeverRetryable` state it case by case |
| Retry.Transport | src/main/java/com/magumboi/webcameraapp/service/WebhookService.java:214-215 | `Retry.backoff(2, ...).filter(isRetryableError)`: a value, an empty completion or a non-retryable error passes through, a retryable one is re-sent twice and then wrapped; stated by `Retry.HandlerNeverRetriesAsWritten` and `Retry.HandlerRetriesExactlyExhausted` |
| Retry.IsRetryableCause | src/main/java/com/magumboi/webcameraapp/service/WebhookService.java:225-240 | the corrected classification, judging an exhausted retry by its cause; stated by `Retry.CauseAgreesOnUnwrapped` and `Retry.HandlerRetriesExactlyExhausted` |
| Retry.ShouldRetryAsWritten | src/main/java/com/magumboi/webcameraapp/service/WebhookService.java:247 | the condition of line 247 as written; `Retry.ServerOutageCounterexample` shows it refusing a transient outage |
| Retry.ShouldRetry | src/main/java/com/magumboi/webcameraapp/service/WebhookService.java:247 | line 247 with the corrected classification; stated by `Retry.ServerOutageCounterexample` and `Retry.RetryableErrorsSpendWholeBudget` |
| Retry.FailureMessage | src/main/java/com/magumboi/webcameraapp/service/WebhookService.java:255-256 | "Failed to upload photo after %d attempts: %s": `Retry.FailureMessageInjective` states that it determines both fields |
| Retry.FailsAfter | src/main/java/com/magumboi/webcameraapp/service/WebhookService.java:242-259 | the attempt count at which a task meeting successive errors fails for good, under the corrected classification; stated by `Retry.FailsWithinBudget`, `Retry.RetryableErrorsSpendWholeBudget` and `Retry.NonRetryableFailsAtOnce` |
| Retry.ExhaustedMessageIsQuiet | src/main/java/com/magumboi/webcameraapp/service/WebhookService.java:238-239 | Reactor's "Retries exhausted: 2/2" contains neither "Connection" nor "timeout" |
| Retry.ExhaustedNeverRetryable | src/main/java/com/magumboi/webcameraapp/service/WebhookService.java:225-240 | `isRetryableError` rejects Reactor's exhaustion exception whatever its cause |
| Retry.HandlerNeverRetriesAsWritten | src/main/java/com/magumboi/webcameraapp/service/WebhookService.java:214-221 | with `Retry.backoff(2, ...).filter(isRetryableError)` in front, no error that reaches `handleUploadError` is retryable by `isRetryableError` |
| Retry.CauseAgreesOnUnwrapped | src/main/java/com/magumboi/webcameraapp/service/WebhookService.java:225-240 | the corrected classification agrees with `isRetryableError` on every error other than Reactor's wrapper |
| Retry.HandlerRetriesExactlyExhausted | src/main/java/com/magumboi/webcameraapp/service/WebhookService.java:214-221 | an error reaching `handleUploadError` is retryable by the corrected classification exactly when the transport retries were spent on a transient failure |
| Retry.ServerOutageCounterexample | src/main/java/com/magumboi/webcameraapp/service/WebhookService.java:247 | three 503 answers: the transport gives up, the source's condition refuses to re-enqueue after one attempt of three, the corrected one re-enqueues |
| Retry.FailureMessageInjective | src/main/java/com/magumboi/webcameraapp/service/WebhookService.java:255-256 | "Failed to upload photo after N attempts: msg" determines both N and msg |
| Retry.Decide | src/main/java/com/magumboi/webcameraapp/service/WebhookService.java:247-257 | for an error of the given classification, a failed task is re-enqueued exactly when `attempts < maxRetryAttempts` and the error is retryable, with its due time `retryDelaySeconds` after `now`; otherwise it fails with "Failed to upload photo after N attempts: msg" for its attempt count and the error's message. The source passes `isRetryableError`; the class passes the corrected `IsRetryableCause` |
| Retry.AsWrittenNeverRequeues | src/main/java/com/magumboi/webcameraapp/service/WebhookService.java:242-259 | with the classification as written, every error the transport hands on makes the task fail at once with the failure message; the re-enqueue branch is unreachable |
| Retry.FailsWithinBudget | src/main/java/com/magumboi/webcameraapp/service/WebhookService.java:247-257 | a task that fails for good does so after at least one more attempt and at most `max(attempts + 1, maxRetryAttempts)` attempts |
| Retry.RetryableErrorsSpendWholeBudget | src/main/java/com/magumboi/webcameraapp/service/WebhookService.java:247-257 | under the corrected classification, a task meeting only retryable errors fails exactly when `maxRetryAttempts` attempts are used |
| Retry.NonRetryableFailsAtOnce | src/main/java/com/magumboi/webcameraapp/service/WebhookService.java:247-257 | a non-retryable first failure ends the task after exactly one attempt |
| Service.Admission | src/main/java/com/magumboi/webcameraapp/service/WebhookService.java:118-140 | a submission is accepted exactly when the URL is configured, the photo is readable and the queue is below capacity; it fails with an IllegalStateException exactly when the URL is not configured |
| Service.IsConfigured | src/main/java/com/magumboi/webcameraapp/service/WebhookService.java:119 | `webhookUrl != null && !webhookUrl.trim().isEmpty()`: stated by `Service.UnconfiguredRejectsEverything` and `Text.TrimEmptyIff` |
| Service.UnconfiguredRejectsEverything | src/main/java/com/magumboi/webcameraapp/service/WebhookService.java:119-121 | a null, empty or all-whitespace URL refuses every submission with "Webhook URL is not configured", before any other check |
| Service.FullQueueRejects | src/main/java/com/magumboi/webcameraapp/service/WebhookService.java:135-137 | a configured service with a readable photo refuses exactly when the queue is full, with "Upload queue is full. Please try again later." |
| Service.NewTask | src/main/java/com/magumboi/webcameraapp/service/WebhookService.java:66-71 | a new task holds the photo's bytes, no attempts, and is queued |
| Service.NewTaskNamesItsTimes | src/main/java/com/magumboi/webcameraapp/service/WebhookService.java:125-132 | a new task's filename and caption parse back to the two instants they were made from |
| Service.AttemptsWithinBudget | src/main/java/com/magumboi/webcameraapp/service/WebhookService.java:191 | a task whose attempts fit its state has been dispatched at most `max(1, maxRetryAttempts)` times |
| Service.ErrorState | src/main/java/com/magumboi/webcameraapp/service/WebhookService.java:247-258 | a re-enqueue verdict leaves the task waiting and unresolved; a failure completes it with a RuntimeException |
| Service.WebhookService.constructor | src/main/java/com/magumboi/webcameraapp/service/WebhookService.java:82-90 | the service starts with an empty queue, no tasks and a window opened at `now` |
| Service.WebhookService.UploadPhotoToWebhook | src/main/java/com/magumboi/webcameraapp/service/WebhookService.java:118-149 | a refused submission changes nothing and returns the refusal; an accepted one appends exactly one new task under a fresh id at the tail, and the queue is then within capacity |
| Service.WebhookService.CanMakeRequest | src/main/java/com/magumboi/webcameraapp/service/WebhookService.java:173-182 | the window is refreshed at `now`, and the answer is whether its count is below the limit |
| Service.WebhookService.ResetRateLimit | src/main/java/com/magumboi/webcameraapp/service/WebhookService.java:184-188 | the count becomes zero and the window starts at `now`; nothing else changes |
| Service.WebhookService.ProcessQueue | src/main/java/com/magumboi/webcameraapp/service/WebhookService.java:151-192 | when the refreshed window allows it and the queue is not empty, exactly the head task is dispatched, and its attempts and the window's count each go up by one; otherwise only the lazy reset can have happened |
| Service.WebhookService.Complete | src/main/java/com/magumboi/webcameraapp/service/WebhookService.java:216-222 | a delivered value completes the in-flight task with the response body; an error hands it to the retry-or-fail decision; a completion without a value (a reply with no body) leaves the task unanswered, its future never completed; no other task changes |
| Service.WebhookService.HandleUploadError | src/main/java/com/magumboi/webcameraapp/service/WebhookService.java:242-259 | the failed task takes the state of the verdict for its attempt count, with the corrected classification; no other task changes |
| Service.WebhookService.FireRetry | src/main/java/com/magumboi/webcameraapp/service/WebhookService.java:249-252 | a due retry puts the task back at the tail, without a capacity check |
| Service.WebhookService.GetQueueSize | src/main/java/com/magumboi/webcameraapp/service/WebhookService.java:262-264 | the queue size is the number of tasks in state `Queued` |
| Service.WebhookService.GetCurrentRequestCount | src/main/java/com/magumboi/webcameraapp/service/WebhookService.java:266-268 | the request count is never negative and never above the limit |
| Service.WebhookService.IsRateLimited | src/main/java/com/magumboi/webcameraapp/service/WebhookService.java:274-276 | the window is refreshed at `now` and the answer is the negation of `canMakeRequest` |
| Controller.ErrorResponse | src/main/java/com/magumboi/webcameraapp/controller/PhotoUploadController.java:23-25 | an error body has the single key "error" holding the message |
| Controller.IsImageType | src/main/java/com/magumboi/webcameraapp/controller/PhotoUploadController.java:30 | a content type that is present and starts with "image/"; stated by `Controller.Validate` and `Controller.NonImageRefused` |
| Controller.IsConfigurationError | src/main/java/com/magumboi/webcameraapp/controller/PhotoUploadController.java:46-47 | an IllegalStateException whose message contains "Webhook URL is not configured"; stated by `Controller.Respond` and `Controller.UnconfiguredAnswered` |
| Controller.Validate | src/main/java/com/magumboi/webcameraapp/controller/PhotoUploadController.java:22-34 | a request is refused, with 400 and an "error" body, exactly when the file is missing, empty or not of an "image/" type |
| Controller.Respond | src/main/java/com/magumboi/webcameraapp/controller/PhotoUploadController.java:37-54 | 200 exactly when the service returned; 400 exactly when it threw the configuration error; 500 otherwise, with "Failed to upload photo: " and the message |
| Controller.UploadPhoto | src/main/java/com/magumboi/webcameraapp/controller/PhotoUploadController.java:20-55 | every response body has exactly one key, "message" exactly when the status is 200 and "error" otherwise; the status is 200, 400 or 500 |
| Controller.MissingFileRefused | src/main/java/com/magumboi/webcameraapp/controller/PhotoUploadController.java:22-26 | a missing or empty file gives 400 "No file provided" |
| Controller.NonImageRefused | src/main/java/com/magumboi/webcameraapp/controller/PhotoUploadController.java:29-34 | after the file check passes, the answer is "File must be an image" exactly when the content type is absent or not "image/..." |
| Controller.RefusalIgnoresService | src/main/java/com/magumboi/webcameraapp/controller/PhotoUploadController.java:22-34 | a refused request's response does not depend on the service |
| Controller.SuccessAnswered | src/main/java/com/magumboi/webcameraapp/controller/PhotoUploadController.java:38-41 | a completed upload gives 200 "Photo uploaded successfully" |
| Controller.UnconfiguredAnswered | src/main/java/com/magumboi/webcameraapp/controller/PhotoUploadController.java:46-50 | the service's refusal for a missing URL gives 400 with the Spanish explanation |
| Controller.OtherFailureAnswered | src/main/java/com/magumboi/webcameraapp/controller/PhotoUploadController.java:52-53 | every other exception gives 500 "Failed to upload photo: " and its message |
| Controller.Await | src/main/java/com/magumboi/webcameraapp/controller/PhotoUploadController.java:38 | `block()` has not returned exactly while the submitted task is unresolved, and once it returns it throws exactly when the submission was refused or the task failed |
| Controller.UnansweredNeverResponds | src/main/java/com/magumboi/webcameraapp/controller/PhotoUploadController.java:38 | a task whose delivery completed without a value never resolves, so `block()` never returns and the request gets no response |
| Controller.TerminalFailureAnswered | src/main/java/com/magumboi/webcameraapp/controller/PhotoUploadController.java:52-53 | a task that fails for good, under the classification the class uses, reaches the client as 500 with "Failed to upload photo after N attempts: msg" |
| Controller.FullQueueAnswered | src/main/java/com/magumboi/webcameraapp/controller/PhotoUploadController.java:52-53 | a full queue reaches the client as 500 with the capacity message |
| Controller.StatusMap | src/main/java/com/magumboi/webcameraapp/controller/PhotoUploadController.java:59-63 | the status map has exactly the keys queueSize, currentRequestCount, requestsPerMinute and isRateLimited |
| Controller.GetQueueStatus | src/main/java/com/magumboi/webcameraapp/controller/PhotoUploadController.java:57-66 | each key holds its accessor's value, read in order: the count from before the lazy reset and the rate-limited flag from after it |
| Controller.ExpiredWindowNotLimited | src/main/java/com/magumboi/webcameraapp/controller/PhotoUploadController.java:61-63 | once the minute is over the service is not rate limited, even though the count shown may be at the limit |
| Scenarios.FirstInFlightSecondQueued | src/main/java/com/magumboi/webcameraapp/service/WebhookService.java:135-160 | with a capacity of one, dispatching the first task frees the slot for a second |
| Scenarios.RetryOverfillsQueue | src/main/java/com/magumboi/webcameraapp/service/WebhookService.java:249-252 | under the corrected classification, a task whose transport retries were exhausted by 503 answers is re-offered behind a newer one, leaving two tasks in a queue of capacity one; as written the re-offer is unreachable |
| Scenarios.TwoQueuedOnePerMinute | src/main/java/com/magumboi/webcameraapp/service/WebhookService.java:135-140 | two accepted submissions wait in the queue in submission order |
| Scenarios.OneRequestPerMinute | src/main/java/com/magumboi/webcameraapp/service/WebhookService.java:151-182 | with one request per minute, the first tick dispatches, the service reports itself rate limited, the next tick waits, and after the minute the second task goes out |
| Scenarios.OneInFlight | src/main/java/com/magumboi/webcameraapp/service/WebhookService.java:151-192 | the first tick dispatches the only task, with one attempt |
| Scenarios.NotFoundFailsAtOnce | src/main/java/com/magumboi/webcameraapp/service/WebhookService.java:242-257 | a 404 on the first attempt fails the task at once with "Failed to upload photo after 1 attempts: Not Found" |
| Scenarios.NoContentLeavesTaskUnanswered | src/main/java/com/magumboi/webcameraapp/service/WebhookService.java:216-222 | a 204 reply to the first attempt leaves the task unanswered, and a later tick does not touch it |

## Left out

- The browser client (`src/main/resources/static/app.js`) is not part of this model. It is UI code on browser APIs and floating point.
- The outbound HTTP call (WebClient POST, multipart body, 25 MB codec limit) is not modelled. Its result is the `Outcome` argument of `Complete`.
- The timing of the transport retry (`Retry.backoff(2, 1s)` delays) is not modelled. Only how many times it re-sends and what it hands on are kept. It does not touch `attempts` or `requestCount`.
- Threads, the scheduled executor, `scheduleWithFixedDelay` and shutdown are not modelled. Each callback is a method the caller invokes in some order. The race between the capacity check and `offer` (lines 135-140) cannot arise in this sequential model.
- Nothing forces the calling order. `ProcessQueue` and `ResetRateLimit` are not tied to one-second and one-minute periods, and `FireRetry` may be called at any time after its due time. There is no single "fire all due retries" step, because each scheduled retry is its own callback in the source.
- The clock and `LocalDateTime.now()` are parameters. `System.currentTimeMillis()` in the constructor is the constructor's `now`.
- Spring configuration (`@Value` defaults 30, 100, 3, 5) is not modelled. These become constructor arguments.
- Logging is not modelled.
- A null exception message would make `isRetryableError` throw a NullPointerException (line 238). Messages are modelled as non-null strings.
- Java's `int` and `long` overflow is not modelled. Counts and times are unbounded integers, which matches the code for any realistic run.
- Years outside 1-9999 are not modelled. `yyyy` then prints more digits or a sign; `ValidTimestamp` excludes those.
- Service.WebhookService.GetRequestsPerMinute: it returns the configured constant and carries no contract beyond that.
- Naming.ParseCaption: the caption length 41 counts Unicode code points. Java counts the camera emoji as two UTF-16 units, so `content.length()` would be 42.
- Service.WebhookService.HandleUploadError: the method uses the corrected classification `IsRetryableCause`, not the source's `isRetryableError`. The verdict as written is `Retry.Decide` with `IsRetryableError`, stated by `Retry.AsWrittenNeverRequeues` (see Findings). The class does not model the as-written service, in which the queue bound would be a global invariant.
- Retry.RetryableErrorsSpendWholeBudget: it holds only under the corrected classification. As written, a task meeting only transient errors fails after one attempt (`Retry.AsWrittenNeverRequeues`, `Retry.ServerOutageCounterexample`).
- Retry.FailsAfter: it follows the corrected classification only; it has no as-written counterpart.

## Findings

| source | as written | input that shows it | evidently intended | confidence | as-written member | corrected member |
|---|---|---|---|---|---|---|
| src/main/java/com/magumboi/webcameraapp/service/WebhookService.java:214-215 | the delivery is wrapped in `retryWhen(Retry.backoff(2, ...).filter(this::isRetryableError))`, and `handleUploadError` then tests the error it receives with the same `isRetryableError` (line 247). Once the two transport retries are spent, Reactor hands on its RetryExhaustedException ("Retries exhausted: 2/2"). That exception is not an IOException and its message has neither "Connection" nor "timeout", so the re-enqueue branch (lines 247-252) never runs | three successive 503 answers with `maxRetryAttempts = 3`: the task fails after 1 attempt with "Failed to upload photo after 1 attempts: Retries exhausted: 2/2" | a transient failure that outlasts the transport retries is re-enqueued while `attempts < maxRetryAttempts`, judging the exhausted error by its cause | not executed | Retry.HandlerNeverRetriesAsWritten | Retry.HandlerRetriesExactlyExhausted |
