/**
 * The per-base sliding-window rate limiter that every Airtable request goes
 * through (at most 5 requests per second per base).
 *
 * The clock is a parameter: `now` is the reading taken before filtering,
 * `lateness` is how much later than the scheduled wait the timestamp is taken,
 * and `failedAt` is the reading taken when the operation failed. The wait is
 * returned instead of slept, and the operation is given by its completion.
 *
 * `AirtableRateLimiter` is the limiter as written: the window it pushes onto is
 * the array captured before the map entry was replaced by its filtered copy, so
 * no timestamp ever reaches a stored window. `IntendedRateLimiter` pushes onto
 * the stored window and keeps every recorded start, and it is the one for which
 * the sliding-window bound is proved.
 */
module RateLimiter {
  import opened Common

  const MaxRequestsPerSecond: nat := 5
  const WindowMs: int := 1000
  const SafetyMarginMs: int := 10

  /** `queue.filter(timestamp => now - timestamp < windowMs)` */
  function Recent(queue: seq<int>, now: int): seq<int>
  {
    if queue == [] then []
    else (if now - queue[0] < WindowMs then [queue[0]] else []) + Recent(queue[1..], now)
  }

  /** Filtering keeps exactly the recent timestamps, in their original order:
      it distributes over concatenation and keeps a single timestamp iff it is recent. */
  lemma {:induction false} RecentKeepsOrder(a: seq<int>, b: seq<int>, now: int)
    ensures Recent(a + b, now) == Recent(a, now) + Recent(b, now)
    ensures forall t :: Recent([t], now) == if now - t < WindowMs then [t] else []
  {
    RecentConcat(a, b, now);
    forall t ensures Recent([t], now) == if now - t < WindowMs then [t] else [] {
      assert [t][1..] == [];
    }
  }

  lemma {:induction false} RecentConcat(a: seq<int>, b: seq<int>, now: int)
    ensures Recent(a + b, now) == Recent(a, now) + Recent(b, now)
  {
    if a == [] {
      assert a + b == b;
    } else {
      assert (a + b)[1..] == a[1..] + b;
      RecentConcat(a[1..], b, now);
    }
  }

  /** A timestamp survives filtering iff it was there and is less than a window old. */
  lemma {:induction false} RecentMembers(queue: seq<int>, now: int)
    ensures forall t :: t in Recent(queue, now) <==> t in queue && now - t < WindowMs
    ensures |Recent(queue, now)| <= |queue|
  {
    if queue != [] {
      RecentMembers(queue[1..], now);
      assert forall t :: t in queue <==> t == queue[0] || t in queue[1..];
    }
  }

  /** The wait before admission: none below the limit, otherwise until the oldest
      recent timestamp leaves the window, plus the safety margin. */
  function WaitFor(recent: seq<int>, now: int): Option<int>
  {
    if |recent| >= MaxRequestsPerSecond
    then Some(WindowMs - (now - recent[0]) + SafetyMarginMs)
    else None
  }

  /** A wait happens only at the limit and lasts more than the margin and at most
      a window plus the margin, when no stored timestamp lies in the future. */
  lemma WaitBounds(queue: seq<int>, now: int)
    requires forall t :: t in queue ==> t <= now
    ensures var w := WaitFor(Recent(queue, now), now);
      && (w.Some? <==> |Recent(queue, now)| >= MaxRequestsPerSecond)
      && (w.Some? ==> SafetyMarginMs < w.value <= WindowMs + SafetyMarginMs)
  {
    RecentMembers(queue, now);
    var r := Recent(queue, now);
    if |r| >= MaxRequestsPerSecond {
      assert r[0] in r;
    }
  }

  /** What `getQueueStatus` reports. */
  datatype QueueStatus = QueueStatus(requestsInLastSecond: nat, remainingCapacity: int, canSendImmediately: bool)

  /** `queue.indexOf(t)` followed by `splice(index, 1)` when found. */
  function RemoveFirst(queue: seq<int>, t: int): (r: seq<int>)
    ensures t !in queue ==> r == queue
    ensures t in queue ==> |r| == |queue| - 1
  {
    if queue == [] then []
    else if queue[0] == t then queue[1..]
    else [queue[0]] + RemoveFirst(queue[1..], t)
  }

  class AirtableRateLimiter {
    /** baseId -> the timestamps stored for it */
    var queues: map<string, seq<int>>

    /** The invariant that holds as written: every stored window is empty. */
    ghost predicate WindowsEmpty()
      reads this
    {
      forall k :: k in queues ==> queues[k] == []
    }

    constructor ()
      ensures queues == map[]
      ensures WindowsEmpty()
    {
      queues := map[];
    }

    /** `throttle(baseId, fn)`. The stored window becomes the filtered copy and
        nothing else: the timestamp is pushed onto the array captured before the
        copy replaced it. The operation's result or failure is passed through. */
    method Throttle<T>(key: string, now: int, lateness: nat, failedAt: int, op: Result<T>)
      returns (wait: Option<int>, r: Result<T>)
      modifies this
      ensures r == op
      ensures var window := if key in old(queues) then old(queues)[key] else [];
        && queues == old(queues)[key := Recent(window, now)]
        && wait == WaitFor(Recent(window, now), now)
      ensures old(WindowsEmpty()) ==> WindowsEmpty() && wait.None?
    {
      if key !in queues {
        queues := queues[key := []];
      }
      var queue := queues[key];
      var recentRequests := Recent(queue, now);
      queues := queues[key := recentRequests];

      wait := None;
      if |recentRequests| >= MaxRequestsPerSecond {
        wait := Some(WindowMs - (now - recentRequests[0]) + SafetyMarginMs);
      }

      // `queue.push(Date.now())`: the captured array, which the map no longer holds
      var stampedAt := now + (if wait.Some? then wait.value else 0) + lateness;
      queue := queue + [stampedAt];

      r := op;
      if op.Err? {
        // the catch block searches the captured array for a fresh clock reading
        queue := RemoveFirst(queue, failedAt);
      }
    }

    /** `clearQueue(baseId)` */
    method ClearQueue(key: string)
      modifies this
      ensures queues == old(queues) - {key}
      ensures old(WindowsEmpty()) ==> WindowsEmpty()
    {
      queues := queues - {key};
    }

    /** `clearAllQueues()` */
    method ClearAllQueues()
      modifies this
      ensures queues == map[]
      ensures WindowsEmpty()
    {
      queues := map[];
    }

    /** `getQueueStatus(baseId)`: counts the recent timestamps without changing anything. */
    method GetQueueStatus(key: string, now: int) returns (s: QueueStatus)
      ensures var window := if key in queues then queues[key] else [];
        && s.requestsInLastSecond == |Recent(window, now)|
        && s.remainingCapacity == MaxRequestsPerSecond - s.requestsInLastSecond
        && (s.canSendImmediately <==> s.requestsInLastSecond < MaxRequestsPerSecond)
      ensures WindowsEmpty() ==> s == QueueStatus(0, MaxRequestsPerSecond, true)
    {
      var queue := if key in queues then queues[key] else [];
      var recentRequests := Recent(queue, now);
      s := QueueStatus(|recentRequests|, MaxRequestsPerSecond - |recentRequests|,
                       |recentRequests| < MaxRequestsPerSecond);
    }
  }

  /** Six calls for one base at the same instant on a fresh limiter: none of them
      waits, so six operations start within one millisecond. */
  method SixCallsAtOnce() returns (waits: seq<Option<int>>)
    ensures |waits| == 6 && forall i :: 0 <= i < 6 ==> waits[i] == None
  {
    var limiter := new AirtableRateLimiter();
    waits := [];
    var n := 0;
    while n < 6
      invariant 0 <= n <= 6 && |waits| == n
      invariant limiter.WindowsEmpty()
      invariant forall i :: 0 <= i < n ==> waits[i] == None
    {
      var w, _ := limiter.Throttle("app1", 0, 0, 0, Ok(()));
      waits := waits + [w];
      n := n + 1;
    }
  }

  // ---------------------------------------------------------------------------
  // The limiter as intended
  // ---------------------------------------------------------------------------

  ghost predicate Sorted(q: seq<int>)
  {
    forall i, j :: 0 <= i <= j < |q| ==> q[i] <= q[j]
  }

  /** No six timestamps lie within one window: timestamps five or more
      positions apart are at least a window apart. */
  ghost predicate Spaced(q: seq<int>)
  {
    forall i, j :: 0 <= i && i + MaxRequestsPerSecond <= j < |q| ==> q[j] - q[i] >= WindowMs
  }

  /** The stored window `w` of a key is a suffix of its record `h`; everything
      recorded before the window is at least a window older than the clock. */
  ghost predicate WindowOf(h: seq<int>, w: seq<int>, clock: int)
  {
    && Sorted(h) && Spaced(h)
    && |w| <= |h| && w == h[|h| - |w|..]
    && (forall i :: 0 <= i < |h| ==> h[i] <= clock)
    && (forall i :: 0 <= i < |h| - |w| ==> h[i] + WindowMs <= clock)
  }

  lemma {:induction false} RecentOfAllRecent(q: seq<int>, now: int)
    requires forall i :: 0 <= i < |q| ==> now - q[i] < WindowMs
    ensures Recent(q, now) == q
  {
    if q != [] {
      RecentOfAllRecent(q[1..], now);
    }
  }

  /** Filtering a sorted window drops a prefix of too-old timestamps. */
  lemma {:induction false} RecentOfSorted(q: seq<int>, now: int)
    requires Sorted(q)
    ensures |Recent(q, now)| <= |q| && Recent(q, now) == q[|q| - |Recent(q, now)|..]
    ensures forall i :: 0 <= i < |q| - |Recent(q, now)| ==> now - q[i] >= WindowMs
    ensures forall i :: |q| - |Recent(q, now)| <= i < |q| ==> now - q[i] < WindowMs
  {
    if q != [] {
      if now - q[0] < WindowMs {
        RecentOfAllRecent(q, now);
      } else {
        RecentOfSorted(q[1..], now);
      }
    }
  }

  /** Cutting the window at `now` splits the record into timestamps at least a
      window old and a recent suffix, which is what filtering keeps. */
  lemma SplitAtRecent(h: seq<int>, w: seq<int>, clock: int, now: int)
    requires WindowOf(h, w, clock) && clock <= now
    ensures var r := Recent(w, now); var cut := |h| - |r|;
      && |r| <= |w| && r == h[cut..]
      && (forall i :: 0 <= i < cut ==> h[i] + WindowMs <= now)
      && (forall i :: cut <= i < |h| ==> now - h[i] < WindowMs && h[i] <= now)
  {
    var off := |h| - |w|;
    assert forall i :: 0 <= i < |w| ==> w[i] == h[i + off];
    assert Sorted(w);
    RecentOfSorted(w, now);
    var r := Recent(w, now);
    var cut := |h| - |r|;
    forall i | 0 <= i < cut ensures h[i] + WindowMs <= now {
      if i >= off {
        assert h[i] == w[i - off];
      }
    }
    forall i | cut <= i < |h| ensures now - h[i] < WindowMs {
      assert h[i] == w[i - off];
    }
  }

  /** A spaced record holds at most five timestamps less than a window old. */
  lemma RecentAtMostLimit(h: seq<int>, cut: int, now: int)
    requires Sorted(h) && Spaced(h) && 0 <= cut <= |h|
    requires forall i :: cut <= i < |h| ==> now - h[i] < WindowMs && h[i] <= now
    ensures |h| - cut <= MaxRequestsPerSecond
  {
    if cut < |h| {
      // the first and last recent timestamps lie within one window
      assert h[|h| - 1] - h[cut] < WindowMs;
    }
  }

  /** Appending a timestamp keeps the record spaced when the fifth-last entry is
      a window older than it. */
  lemma AppendKeepsSpaced(h: seq<int>, cut: int, stamp: int)
    requires Spaced(h) && 0 <= cut <= |h| && |h| - cut <= MaxRequestsPerSecond
    requires forall i :: 0 <= i < cut ==> h[i] + WindowMs <= stamp
    requires |h| - cut == MaxRequestsPerSecond ==> stamp >= h[cut] + WindowMs + SafetyMarginMs
    ensures Spaced(h + [stamp])
  {
    var h' := h + [stamp];
    forall i, j | 0 <= i && i + MaxRequestsPerSecond <= j < |h'|
      ensures h'[j] - h'[i] >= WindowMs
    {
      if j == |h| && cut <= i {
        assert i == cut;
      }
    }
  }

  /** Admitting a timestamp, after waiting as `WaitFor` says, keeps the record spaced. */
  lemma AdmitKeepsWindow(h: seq<int>, w: seq<int>, clock: int, now: int, stamp: int)
    requires WindowOf(h, w, clock) && clock <= now <= stamp
    requires var r := Recent(w, now); |r| >= MaxRequestsPerSecond ==> stamp >= r[0] + WindowMs + SafetyMarginMs
    ensures WindowOf(h + [stamp], Recent(w, now) + [stamp], stamp)
  {
    var r := Recent(w, now);
    SplitAtRecent(h, w, clock, now);
    var cut := |h| - |r|;
    RecentAtMostLimit(h, cut, now);
    if |r| == MaxRequestsPerSecond {
      assert r[0] == h[cut];
    }
    AppendKeepsWindow(h, cut, stamp);
    SuffixOfAppend(h, cut, stamp);
  }

  lemma SuffixOfAppend(h: seq<int>, cut: int, stamp: int)
    requires 0 <= cut <= |h|
    ensures (h + [stamp])[cut..] == h[cut..] + [stamp]
  {
    var a, b := (h + [stamp])[cut..], h[cut..] + [stamp];
    assert |a| == |b|;
    forall k | 0 <= k < |a| ensures a[k] == b[k] {
      if k < |h| - cut {
        assert a[k] == h[cut + k];
      }
    }
  }

  /** Appending a timestamp no earlier than the record, with every entry before
      `cut` a window older and the fifth-last entry far enough back, gives a
      record whose window starts at `cut`. */
  lemma AppendKeepsWindow(h: seq<int>, cut: int, stamp: int)
    requires Sorted(h) && Spaced(h) && 0 <= cut <= |h| && |h| - cut <= MaxRequestsPerSecond
    requires forall i :: 0 <= i < |h| ==> h[i] <= stamp
    requires forall i :: 0 <= i < cut ==> h[i] + WindowMs <= stamp
    requires |h| - cut == MaxRequestsPerSecond ==> stamp >= h[cut] + WindowMs + SafetyMarginMs
    ensures WindowOf(h + [stamp], (h + [stamp])[cut..], stamp)
  {
    AppendKeepsSpaced(h, cut, stamp);
    AppendKeepsSorted(h, stamp);
    var h' := h + [stamp];
    assert forall i :: 0 <= i < cut ==> h'[i] + WindowMs <= stamp;
    assert forall i :: 0 <= i < |h'| ==> h'[i] <= stamp;
  }

  lemma AppendKeepsSorted(h: seq<int>, stamp: int)
    requires Sorted(h) && forall i :: 0 <= i < |h| ==> h[i] <= stamp
    ensures Sorted(h + [stamp])
  {
  }

  lemma LaterClockKeepsWindow(h: seq<int>, w: seq<int>, clock: int, later: int)
    requires WindowOf(h, w, clock) && clock <= later
    ensures WindowOf(h, w, later)
  {
  }

  /** The limiter's invariant over its state: each stored window is the
      recent suffix of the starts recorded for its key. */
  ghost predicate ValidState(queues: map<string, seq<int>>, history: map<string, seq<int>>, clock: int)
  {
    && queues.Keys == history.Keys
    && forall k :: k in queues ==> WindowOf(history[k], queues[k], clock)
  }

  /** The wait `WaitFor` schedules never lies in the past. */
  lemma WaitNotNegative(window: seq<int>, now: int)
    ensures var w := WaitFor(Recent(window, now), now); w.Some? ==> w.value > 0
  {
    RecentMembers(window, now);
    var r := Recent(window, now);
    if |r| >= MaxRequestsPerSecond {
      assert r[0] in r;
    }
  }

  /** One admission keeps the invariant and leaves the record of its key spaced. */
  lemma AdmitKeepsValid(queues: map<string, seq<int>>, history: map<string, seq<int>>, clock: int,
                        key: string, now: int, stamp: int)
    requires ValidState(queues, history, clock) && clock <= now
    requires var window := if key in queues then queues[key] else [];
      var wait := WaitFor(Recent(window, now), now);
      stamp >= now + (if wait.Some? then wait.value else 0)
    ensures var window := if key in queues then queues[key] else [];
      var h := if key in history then history[key] else [];
      && ValidState(queues[key := Recent(window, now) + [stamp]], history[key := h + [stamp]], stamp)
      && Sorted(h + [stamp]) && Spaced(h + [stamp])
  {
    var window := if key in queues then queues[key] else [];
    var h := if key in history then history[key] else [];
    WaitNotNegative(window, now);
    AdmitKeepsWindow(h, window, clock, now, stamp);
    forall k | k in queues && k != key ensures WindowOf(history[k], queues[k], stamp) {
      LaterClockKeepsWindow(history[k], queues[k], clock, stamp);
    }
  }

  class IntendedRateLimiter {
    /** baseId -> the timestamps stored for it */
    var queues: map<string, seq<int>>
    /** baseId -> every start recorded for it since it was last cleared */
    ghost var history: map<string, seq<int>>
    /** the latest clock reading */
    ghost var clock: int

    ghost predicate Valid()
      reads this
    {
      ValidState(queues, history, clock)
    }

    constructor (start: int)
      ensures Valid() && queues == map[] && clock == start
    {
      queues := map[];
      history := map[];
      clock := start;
    }

    /** `throttle` with the timestamp pushed onto the stored window. Every start
        stays recorded, including that of an operation that fails. */
    method Throttle<T>(key: string, now: int, lateness: nat, op: Result<T>)
      returns (wait: Option<int>, stampedAt: int, r: Result<T>)
      requires Valid() && clock <= now
      modifies this
      ensures Valid() && r == op
      ensures var window := if key in old(queues) then old(queues)[key] else [];
        && wait == WaitFor(Recent(window, now), now)
        && stampedAt == now + (if wait.Some? then wait.value else 0) + lateness
        && queues == old(queues)[key := Recent(window, now) + [stampedAt]]
      ensures history == old(history)[key := (if key in old(history) then old(history)[key] else []) + [stampedAt]]
      ensures clock == stampedAt
      ensures Sorted(history[key]) && Spaced(history[key])
    {
      var window := if key in queues then queues[key] else [];
      var recentRequests := Recent(window, now);
      wait := WaitFor(recentRequests, now);
      stampedAt := now + (if wait.Some? then wait.value else 0) + lateness;
      AdmitKeepsValid(queues, history, clock, key, now, stampedAt);
      queues := queues[key := recentRequests + [stampedAt]];
      history := history[key := (if key in history then history[key] else []) + [stampedAt]];
      clock := stampedAt;
      r := op;
    }
  }
}
