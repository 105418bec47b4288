/**
 * WebhookService: the submission gate, the FIFO upload queue, the per-tick dispatch
 * step, the retry-or-fail decision and the monitoring accessors. The scheduler's
 * callbacks become methods that take the current time `now` in milliseconds; the
 * outcome of each HTTP delivery is an argument of `Complete`.
 */
module Service {
  import opened Wrappers
  import opened Text
  import opened Naming
  import opened RateLimit
  import opened Retry

  /** A task's identity: the UploadTask object reference of the source. */
  type TaskId = nat

  datatype ExceptionKind = IllegalState | Runtime

  /** A Java exception, by class and message. */
  datatype Exception = Exception(kind: ExceptionKind, message: string)

  const NotConfiguredMessage := "Webhook URL is not configured"
  const QueueFullMessage := "Upload queue is full. Please try again later."
  const ReadFailedPrefix := "Failed to read photo data: "

  /** What `photo.getBytes()` yields: the bytes, or the message of its IOException. */
  datatype PhotoData = Bytes(data: seq<bv8>) | ReadError(message: string)

  /**
   * Where a task is: in the queue, dispatched and awaiting its HTTP outcome, waiting
   * for its scheduled re-enqueue, resolved (its future completed normally or
   * exceptionally), or unanswered: its delivery completed without a value, so
   * neither consumer of `subscribe` ran and its future stays pending for good.
   */
  datatype TaskState =
    | Queued
    | InFlight
    | WaitingRetry(due: int)
    | Succeeded(body: string)
    | Failed(error: Exception)
    | Unanswered
  {
    predicate IsResolved() {
      Succeeded? || Failed?
    }

    /** No callback of the service moves a task out of these states. */
    predicate IsSettled() {
      IsResolved() || Unanswered?
    }
  }

  datatype UploadTask = UploadTask(filename: string, photoData: seq<bv8>, content: string,
                                   attempts: nat, state: TaskState)

  /** `webhookUrl != null && !webhookUrl.trim().isEmpty()`. */
  predicate IsConfigured(url: Option<string>) {
    url.Some? && Trim(url.value) != []
  }

  /**
   * The checks of `uploadPhotoToWebhook`, in their order: the URL, then reading the
   * photo, then the queue's capacity. None when the task is to be queued.
   */
  function Admission(url: Option<string>, photo: PhotoData, queueSize: nat, maxQueueSize: int)
    : (r: Option<Exception>)
    ensures r == None <==> IsConfigured(url) && photo.Bytes? && queueSize < maxQueueSize
    ensures r.Some? && r.value.kind == IllegalState <==> !IsConfigured(url)
  {
    if !IsConfigured(url) then Some(Exception(IllegalState, NotConfiguredMessage))
    else if photo.ReadError? then Some(Exception(Runtime, ReadFailedPrefix + photo.message))
    else if queueSize >= maxQueueSize then Some(Exception(Runtime, QueueFullMessage))
    else None
  }

  /** Without a usable URL every submission fails the same way, whatever the photo and the queue. */
  lemma UnconfiguredRejectsEverything(url: Option<string>, photo: PhotoData, queueSize: nat, maxQueueSize: int)
    requires url.None? || forall i :: 0 <= i < |url.value| ==> IsTrimmable(url.value[i])
    ensures Admission(url, photo, queueSize, maxQueueSize) == Some(Exception(IllegalState, NotConfiguredMessage))
  {
    if url.Some? {
      TrimEmptyIff(url.value);
    }
  }

  /** A configured service with a readable photo rejects exactly when the queue is full, with the capacity error. */
  lemma FullQueueRejects(url: Option<string>, data: seq<bv8>, queueSize: nat, maxQueueSize: int)
    requires IsConfigured(url)
    ensures queueSize >= maxQueueSize <==> Admission(url, Bytes(data), queueSize, maxQueueSize).Some?
    ensures queueSize >= maxQueueSize ==>
              Admission(url, Bytes(data), queueSize, maxQueueSize) == Some(Exception(Runtime, QueueFullMessage))
  {
  }

  /** The task `new UploadTask(filename, photo.getBytes(), content)` puts in the queue. */
  function NewTask(data: seq<bv8>, filenameTime: Timestamp, captionTime: Timestamp): (t: UploadTask)
    requires ValidTimestamp(filenameTime) && ValidTimestamp(captionTime)
    ensures t.attempts == 0 && t.state == Queued && t.photoData == data
  {
    UploadTask(Filename(filenameTime), data, Caption(captionTime), 0, Queued)
  }

  /** A new task's filename and caption carry the two instants they were made from. */
  lemma NewTaskNamesItsTimes(data: seq<bv8>, filenameTime: Timestamp, captionTime: Timestamp)
    requires ValidTimestamp(filenameTime) && ValidTimestamp(captionTime)
    ensures ParseFilename(NewTask(data, filenameTime, captionTime).filename) == Some(filenameTime)
    ensures ParseCaption(NewTask(data, filenameTime, captionTime).content) == Some(captionTime)
  {
    FilenameRoundTrip(filenameTime);
    CaptionRoundTrip(captionTime);
  }

  /**
   * How many attempts a task in each state can have made: none or fewer than the
   * retry budget while queued, within `max(1, maxRetryAttempts)` once dispatched.
   */
  predicate AttemptsConsistent(t: UploadTask, maxRetryAttempts: int) {
    match t.state
    case Queued => t.attempts == 0 || t.attempts < maxRetryAttempts
    case WaitingRetry(_) => 1 <= t.attempts < maxRetryAttempts
    case _ => 1 <= t.attempts && (t.attempts == 1 || t.attempts <= maxRetryAttempts)
  }

  /** No task is ever dispatched more than `max(1, maxRetryAttempts)` times. */
  lemma AttemptsWithinBudget(t: UploadTask, maxRetryAttempts: int)
    requires AttemptsConsistent(t, maxRetryAttempts)
    ensures t.attempts <= Max(1, maxRetryAttempts)
  {
  }

  /**
   * A settled task stays as it is: its future is completed at most once, and an
   * unanswered one is never completed.
   */
  ghost predicate KeepsSettled(before: map<TaskId, UploadTask>, after: map<TaskId, UploadTask>) {
    forall id :: id in before && before[id].state.IsSettled() ==> id in after && after[id] == before[id]
  }

  /** What `uploadPhotoToWebhook` hands back: the pending future of a queued task, or an error. */
  datatype Submission = Pending(id: TaskId) | Rejected(error: Exception)

  predicate NoDuplicates(s: seq<TaskId>) {
    forall i, j :: 0 <= i < j < |s| ==> s[i] != s[j]
  }

  ghost function Elements(s: seq<TaskId>): set<TaskId> {
    set x | x in s
  }

  /** A sequence without repetitions has as many distinct elements as it is long. */
  lemma {:induction false} DistinctElements(s: seq<TaskId>)
    requires NoDuplicates(s)
    ensures |Elements(s)| == |s|
  {
    if s != [] {
      var rest := s[1..];
      assert NoDuplicates(rest) by {
        forall i, j | 0 <= i < j < |rest| ensures rest[i] != rest[j] {
          assert rest[i] == s[i + 1] && rest[j] == s[j + 1];
        }
      }
      DistinctElements(rest);
      var tail := Elements(rest);
      assert s[0] !in tail by {
        forall j | 0 <= j < |rest| ensures rest[j] != s[0] {
          assert rest[j] == s[j + 1];
        }
      }
      assert Elements(s) == tail + {s[0]};
    }
  }

  /**
   * The queue holds, once each, exactly the tasks in state Queued; every task has an
   * id below `next` and the attempts its state allows.
   */
  ghost predicate ValidState(queue: seq<TaskId>, ts: map<TaskId, UploadTask>, next: TaskId, maxRetryAttempts: int) {
    (forall i :: 0 <= i < |queue| ==> queue[i] in ts && ts[queue[i]].state == Queued) &&
    NoDuplicates(queue) &&
    (forall id :: id in ts && ts[id].state == Queued ==> id in queue) &&
    (forall id :: id in ts ==> id < next && AttemptsConsistent(ts[id], maxRetryAttempts))
  }

  class WebhookService {
    const webhookUrl: Option<string>
    const requestsPerMinute: int
    const maxQueueSize: int
    const maxRetryAttempts: int
    const retryDelaySeconds: int

    /** The ids of the tasks in `uploadQueue`, head first. */
    var uploadQueue: seq<TaskId>
    /** Every task submitted so far, whatever its state. */
    var tasks: map<TaskId, UploadTask>
    var requestCount: int
    var windowStart: int
    /** The id the next accepted submission receives. */
    var nextId: TaskId

    function RateWindow(): Window
      reads this
    {
      Window(requestCount, windowStart)
    }

    /** The queue and the tasks are consistent, and the request count stays within the limit. */
    ghost predicate Valid()
      reads this
    {
      ValidState(uploadQueue, tasks, nextId, maxRetryAttempts) && Bounded(RateWindow(), requestsPerMinute)
    }

    ghost function QueuedIds(): set<TaskId>
      reads this
    {
      set id | id in tasks && tasks[id].state == Queued
    }

    /** The service as configured, with an empty queue and a window opened at `now`. */
    constructor (url: Option<string>, rpm: int, maxQueue: int, maxRetries: int, delaySeconds: int, now: int)
      ensures Valid()
      ensures webhookUrl == url && requestsPerMinute == rpm && maxQueueSize == maxQueue
      ensures maxRetryAttempts == maxRetries && retryDelaySeconds == delaySeconds
      ensures uploadQueue == [] && tasks == map[] && nextId == 0
      ensures RateWindow() == Reset(now)
    {
      webhookUrl := url;
      requestsPerMinute := rpm;
      maxQueueSize := maxQueue;
      maxRetryAttempts := maxRetries;
      retryDelaySeconds := delaySeconds;
      uploadQueue := [];
      tasks := map[];
      requestCount := 0;
      windowStart := now;
      nextId := 0;
    }

    /**
     * `uploadPhotoToWebhook`: a rejected submission changes nothing; an accepted one
     * appends exactly one fresh task, with no attempts, at the tail of the queue.
     */
    method UploadPhotoToWebhook(photo: PhotoData, filenameTime: Timestamp, captionTime: Timestamp)
      returns (r: Submission)
      requires Valid() && ValidTimestamp(filenameTime) && ValidTimestamp(captionTime)
      modifies this`uploadQueue, this`tasks, this`nextId
      ensures Valid()
      ensures var refusal := Admission(webhookUrl, photo, |old(uploadQueue)|, maxQueueSize);
              if refusal.Some? then
                r == Rejected(refusal.value) && unchanged(this)
              else
                r == Pending(old(nextId)) && old(nextId) !in old(tasks) &&
                uploadQueue == old(uploadQueue) + [old(nextId)] &&
                tasks == old(tasks)[old(nextId) := NewTask(photo.data, filenameTime, captionTime)] &&
                nextId == old(nextId) + 1
      ensures r.Pending? ==> |uploadQueue| <= maxQueueSize
      ensures KeepsSettled(old(tasks), tasks)
    {
      if !IsConfigured(webhookUrl) {
        return Rejected(Exception(IllegalState, NotConfiguredMessage));
      }
      if photo.ReadError? {
        return Rejected(Exception(Runtime, ReadFailedPrefix + photo.message));
      }
      var task := NewTask(photo.data, filenameTime, captionTime);
      if |uploadQueue| >= maxQueueSize {
        return Rejected(Exception(Runtime, QueueFullMessage));
      }
      var id := nextId;
      AppendKeepsValid(id, task);
      uploadQueue, tasks, nextId := uploadQueue + [id], tasks[id := task], nextId + 1;
      r := Pending(id);
    }

    /** Queueing a fresh task under the next id keeps the invariant. */
    lemma AppendKeepsValid(id: TaskId, task: UploadTask)
      requires Valid() && id == nextId && task.state == Queued && task.attempts == 0
      ensures id !in tasks && id !in uploadQueue
      ensures ValidState(uploadQueue + [id], tasks[id := task], nextId + 1, maxRetryAttempts)
    {
      var q, m := uploadQueue + [id], tasks[id := task];
      forall i, j | 0 <= i < j < |q| ensures q[i] != q[j] {
        if j == |q| - 1 {
          assert uploadQueue[i] in tasks;
        }
      }
    }

    /** `canMakeRequest`: refresh the window at `now`, then compare the count with the limit. */
    method CanMakeRequest(now: int) returns (ok: bool)
      requires Valid()
      modifies this`requestCount, this`windowStart
      ensures Valid()
      ensures RateWindow() == Refresh(old(RateWindow()), now)
      ensures ok == Allows(RateWindow(), requestsPerMinute)
    {
      if now - windowStart >= WindowMillis {
        ResetRateLimit(now);
      }
      ok := requestCount < requestsPerMinute;
    }

    /** `resetRateLimit`, both the lazy call and the periodic one. */
    method ResetRateLimit(now: int)
      requires Valid()
      modifies this`requestCount, this`windowStart
      ensures Valid()
      ensures RateWindow() == Reset(now)
    {
      requestCount := 0;
      windowStart := now;
    }

    /**
     * One tick of `processQueue`, with the bookkeeping of `processUploadTask`: if the
     * window allows it and the queue is not empty, the head task is dispatched, its
     * attempts and the window's count each going up by one; otherwise only the lazy
     * window reset can have happened.
     */
    method ProcessQueue(now: int) returns (dispatched: Option<TaskId>)
      requires Valid()
      modifies this`uploadQueue, this`tasks, this`requestCount, this`windowStart
      ensures Valid()
      ensures var w := Refresh(old(RateWindow()), now);
              if Allows(w, requestsPerMinute) && old(uploadQueue) != [] then
                var id := old(uploadQueue)[0];
                dispatched == Some(id) && uploadQueue == old(uploadQueue)[1..] &&
                tasks == old(tasks)[id := old(tasks)[id].(attempts := old(tasks)[id].attempts + 1,
                                                          state := InFlight)] &&
                RateWindow() == Record(w)
              else
                dispatched == None && uploadQueue == old(uploadQueue) && tasks == old(tasks) &&
                RateWindow() == w
      ensures KeepsSettled(old(tasks), tasks)
    {
      var ok := CanMakeRequest(now);
      if !ok {
        return None;
      }
      if uploadQueue == [] {
        return None;
      }
      var id := uploadQueue[0];
      uploadQueue := uploadQueue[1..];
      var task := tasks[id];
      tasks := tasks[id := task.(attempts := task.attempts + 1, state := InFlight)];
      requestCount := requestCount + 1;
      dispatched := Some(id);
    }

    /**
     * The subscriber of a dispatched task's delivery: a value completes its future
     * with the response body; an error goes to `handleUploadError`; a completion
     * without a value runs neither consumer and leaves the future pending.
     */
    method Complete(id: TaskId, outcome: Outcome, now: int)
      requires Valid() && id in tasks && tasks[id].state == InFlight
      modifies this`tasks
      ensures Valid()
      ensures outcome.Delivered? ==> tasks == old(tasks)[id := old(tasks)[id].(state := Succeeded(outcome.body))]
      ensures outcome.Errored? ==> tasks == old(tasks)[id := old(tasks)[id].(state :=
                ErrorState(Decide(old(tasks)[id].attempts, maxRetryAttempts, retryDelaySeconds,
                                  IsRetryableCause(outcome.error), Message(outcome.error), now)))]
      ensures outcome.CompletedEmpty? ==> tasks == old(tasks)[id := old(tasks)[id].(state := Unanswered)]
      ensures KeepsSettled(old(tasks), tasks)
    {
      match outcome
      case Delivered(body) =>
        tasks := tasks[id := tasks[id].(state := Succeeded(body))];
      case Errored(e) =>
        HandleUploadError(id, e, now);
      case CompletedEmpty =>
        tasks := tasks[id := tasks[id].(state := Unanswered)];
    }

    /**
     * `handleUploadError`: schedule the re-enqueue `retryDelaySeconds` from now, or
     * complete the future exceptionally with the attempt count and the error message.
     */
    method HandleUploadError(id: TaskId, e: DeliveryError, now: int)
      requires Valid() && id in tasks && tasks[id].state == InFlight
      modifies this`tasks
      ensures Valid()
      ensures tasks == old(tasks)[id := old(tasks)[id].(state :=
                ErrorState(Decide(old(tasks)[id].attempts, maxRetryAttempts, retryDelaySeconds,
                                  IsRetryableCause(e), Message(e), now)))]
      ensures KeepsSettled(old(tasks), tasks)
    {
      var task := tasks[id];
      var verdict := Decide(task.attempts, maxRetryAttempts, retryDelaySeconds, IsRetryableCause(e), Message(e), now);
      tasks := tasks[id := task.(state := ErrorState(verdict))];
    }

    /** The scheduled retry callback: `uploadQueue.offer(task)`, with no capacity check. */
    method FireRetry(id: TaskId, now: int)
      requires Valid() && id in tasks && tasks[id].state.WaitingRetry? && tasks[id].state.due <= now
      modifies this`uploadQueue, this`tasks
      ensures Valid()
      ensures uploadQueue == old(uploadQueue) + [id]
      ensures tasks == old(tasks)[id := old(tasks)[id].(state := Queued)]
      ensures KeepsSettled(old(tasks), tasks)
    {
      uploadQueue := uploadQueue + [id];
      tasks := tasks[id := tasks[id].(state := Queued)];
    }

    /** `getQueueSize`: the number of tasks waiting in the queue. */
    function GetQueueSize(): (n: nat)
      requires Valid()
      reads this
      ensures n == |QueuedIds()|
    {
      assert QueuedIds() == Elements(uploadQueue);
      DistinctElements(uploadQueue);
      |uploadQueue|
    }

    /** `getCurrentRequestCount`: never negative and never above the limit. */
    function GetCurrentRequestCount(): (n: int)
      requires Valid()
      reads this
      ensures 0 <= n && (n == 0 || n <= requestsPerMinute)
    {
      requestCount
    }

    function GetRequestsPerMinute(): int
      reads this
    {
      requestsPerMinute
    }

    /** `isRateLimited`: not a pure read, since `canMakeRequest` may reset the window. */
    method IsRateLimited(now: int) returns (limited: bool)
      requires Valid()
      modifies this`requestCount, this`windowStart
      ensures Valid()
      ensures RateWindow() == Refresh(old(RateWindow()), now)
      ensures limited == !Allows(RateWindow(), requestsPerMinute)
    {
      var ok := CanMakeRequest(now);
      limited := !ok;
    }
  }

  /** The state `handleUploadError` leaves a failed task in. */
  function ErrorState(v: Verdict): (s: TaskState)
    ensures s.WaitingRetry? <==> v.Requeue?
    ensures s.Failed? ==> s.error.kind == Runtime
  {
    match v
    case Requeue(due) => WaitingRetry(due)
    case Fail(message) => Failed(Exception(Runtime, message))
  }
}
