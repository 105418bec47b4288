/**
 * The request-rate window of WebhookService: `requestCount` and `windowStart`,
 * the lazy reset inside `canMakeRequest`, the periodic `resetRateLimit`, and the
 * count recorded by `processUploadTask`. Times are milliseconds, as from
 * `System.currentTimeMillis()`.
 */
module RateLimit {

  /** Length of one counting window: one minute. */
  const WindowMillis: int := 60000

  datatype Window = Window(count: int, start: int)

  /** `resetRateLimit`: the count restarts at zero and the window at `now`. */
  function Reset(now: int): (r: Window)
    ensures r.count == 0 && now - r.start < WindowMillis
  {
    Window(0, now)
  }

  /**
   * The lazy reset at the top of `canMakeRequest`: a window whose minute has elapsed
   * is reset; afterwards the window is current at `now`.
   */
  function Refresh(w: Window, now: int): (r: Window)
    ensures r == w || r == Reset(now)
    ensures now - r.start < WindowMillis
    ensures r.count <= w.count || r.count == 0
  {
    if now - w.start >= WindowMillis then Reset(now) else w
  }

  /** The answer `canMakeRequest` gives once the window is current. */
  predicate Allows(w: Window, limit: int) {
    w.count < limit
  }

  /** `requestCount.incrementAndGet()` before a delivery attempt. */
  function Record(w: Window): (r: Window)
    ensures r.count == w.count + 1 && r.start == w.start
  {
    w.(count := w.count + 1)
  }

  /** The count never exceeds the limit (it is zero when the limit is not positive). */
  predicate Bounded(w: Window, limit: int) {
    0 <= w.count && (w.count == 0 || w.count <= limit)
  }

  /** The window is reset exactly when its minute has elapsed. */
  lemma RefreshResetsIffExpired(w: Window, now: int)
    requires w != Reset(now)
    ensures Refresh(w, now) == Reset(now) <==> now - w.start >= WindowMillis
  {
  }

  /** Checking twice at the same instant is the same as checking once. */
  lemma RefreshIdempotent(w: Window, now: int)
    ensures Refresh(Refresh(w, now), now) == Refresh(w, now)
  {
  }

  /** Neither reset nor a permitted attempt can push the count over the limit. */
  lemma BoundPreserved(w: Window, now: int, limit: int)
    requires Bounded(w, limit)
    ensures Bounded(Refresh(w, now), limit)
    ensures Bounded(Reset(now), limit)
    ensures Allows(Refresh(w, now), limit) ==> Bounded(Record(Refresh(w, now)), limit)
  {
  }

  /**
   * Number of delivery attempts a run of dispatch ticks at `times` makes when the
   * queue always holds a task: each tick refreshes the window and, if allowed,
   * records one attempt.
   */
  function Dispatched(w: Window, times: seq<int>, limit: int): nat
    decreases |times|
  {
    if times == [] then 0
    else
      var current := Refresh(w, times[0]);
      if Allows(current, limit) then 1 + Dispatched(Record(current), times[1..], limit)
      else Dispatched(current, times[1..], limit)
  }

  function Min(a: int, b: int): int { if a <= b then a else b }
  function Max(a: int, b: int): int { if a >= b then a else b }

  /**
   * Within one window, ticks admit exactly as many attempts as the limit leaves
   * room for: the first `limit - count` ticks dispatch and every later one waits.
   */
  lemma {:induction false} OneWindowAdmitsExactlyTheRest(w: Window, times: seq<int>, limit: int)
    requires 0 <= w.count
    requires forall i :: 0 <= i < |times| ==> times[i] - w.start < WindowMillis
    ensures Dispatched(w, times, limit) == Min(|times|, Max(0, limit - w.count))
    decreases |times|
  {
    if times != [] {
      assert Refresh(w, times[0]) == w;
      var rest := times[1..];
      assert forall i :: 0 <= i < |rest| ==> rest[i] == times[i + 1];
      if Allows(w, limit) {
        OneWindowAdmitsExactlyTheRest(Record(w), rest, limit);
      } else {
        OneWindowAdmitsExactlyTheRest(w, rest, limit);
      }
    }
  }

  /** From a fresh window, a minute of ticks makes at most `limit` attempts, and exactly `limit` when there are enough ticks. */
  lemma FreshWindowAdmitsLimit(start: int, times: seq<int>, limit: nat)
    requires forall i :: 0 <= i < |times| ==> times[i] - start < WindowMillis
    ensures Dispatched(Reset(start), times, limit) <= limit
    ensures |times| >= limit ==> Dispatched(Reset(start), times, limit) == limit
  {
    OneWindowAdmitsExactlyTheRest(Reset(start), times, limit);
  }

  /**
   * The window is fixed, not sliding: with a limit of 1, a tick one millisecond
   * before the minute ends and one at its end both dispatch.
   */
  lemma BurstAcrossBoundary(start: int)
    ensures Dispatched(Reset(start), [start + WindowMillis - 1, start + WindowMillis], 1) == 2
  {
    var times := [start + WindowMillis - 1, start + WindowMillis];
    var w1 := Record(Refresh(Reset(start), times[0]));
    assert w1 == Window(1, start);
    var w2 := Record(Refresh(w1, times[1]));
    assert w2 == Window(1, start + WindowMillis);
    assert times[1..][1..] == [];
    assert Dispatched(w2, [], 1) == 0;
    assert Dispatched(w1, times[1..], 1) == 1;
  }
}
