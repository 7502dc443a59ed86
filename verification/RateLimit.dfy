/** The sliding-window rate limiter (btpay/security/rate_limit.py): a pruned deque per key
    that must decide as the whole history would. The clock is a parameter. */
module RateLimit {

  type Window = seq<real>

  /** How often a key may act within how many seconds. */
  datatype Limit = Limit(maxAttempts: int, window: real)

  datatype State = State(windows: map<string, Window>, lastCleanup: real)

  datatype Event = Check(key: string) | Failure(key: string) | Remaining(key: string) | Reset(key: string)

  // ---- What the limiter does ------------------------------------------------

  /** Entries from the front are dropped while they are older than the cutoff. */
  function Pruned(w: Window, cutoff: real): Window {
    if w != [] && w[0] < cutoff then Pruned(w[1..], cutoff) else w
  }

  function WindowOf(windows: map<string, Window>, key: string): Window {
    if key in windows then windows[key] else []
  }

  predicate Stale(w: Window, now: real) {
    w == [] || w[|w| - 1] < now - 3600.0
  }

  function Cleaned(s: State, now: real): State {
    State(map key | key in s.windows && !Stale(s.windows[key], now) :: s.windows[key], now)
  }

  function Checked(s: State, interval: real, key: string, limit: Limit, now: real): (State, bool) {
    var w := Pruned(WindowOf(s.windows, key), now - limit.window);
    if |w| >= limit.maxAttempts then (s.(windows := s.windows[key := w]), false)
    else
      var recorded := s.(windows := s.windows[key := w + [now]]);
      (if now - s.lastCleanup > interval then Cleaned(recorded, now) else recorded, true)
  }

  /** The new state, and what `check` or `remaining` answers: 1 or 0, or the number left. */
  function Step(s: State, interval: real, limit: string -> Limit, event: Event, now: real): (State, int) {
    match event
    case Check(key) =>
      var (next, ok) := Checked(s, interval, key, limit(key), now);
      (next, if ok then 1 else 0)
    case Failure(key) => (s.(windows := s.windows[key := WindowOf(s.windows, key) + [now]]), 0)
    case Remaining(key) =>
      var w := Pruned(WindowOf(s.windows, key), now - limit(key).window);
      (s.(windows := s.windows[key := w]), Left(limit(key).maxAttempts, |w|))
    case Reset(key) => (s.(windows := s.windows - {key}), 0)
  }

  function Left(max: int, used: int): int {
    if max > used then max - used else 0
  }

  // ---- The class ------------------------------------------------------------

  class RateLimiter {
    var windows: map<string, Window>
    const cleanupInterval: real
    var lastCleanup: real

    function Current(): State
      reads this
    {
      State(windows, lastCleanup)
    }

    constructor (cleanupInterval: real, now: real)
      ensures Current() == State(map[], now) && this.cleanupInterval == cleanupInterval
    {
      windows := map[];
      this.cleanupInterval := cleanupInterval;
      lastCleanup := now;
    }

    /** The loop that pops expired entries of a key. */
    method Prune(key: string, cutoff: real)
      requires key in windows
      modifies this`windows
      ensures windows == old(windows)[key := Pruned(old(windows)[key], cutoff)]
    {
      var window := windows[key];
      while window != [] && window[0] < cutoff
        invariant windows == old(windows)[key := window]
        invariant Pruned(window, cutoff) == Pruned(old(windows)[key], cutoff)
        decreases |window|
      {
        window := window[1..];
        windows := windows[key := window];
      }
    }

    method Check(key: string, maxAttempts: int, windowSeconds: real, now: real) returns (allowed: bool)
      modifies this
      ensures (Current(), allowed) == Checked(old(Current()), cleanupInterval, key, Limit(maxAttempts, windowSeconds),
          now)
    {
      hide Stale, Pruned;
      if key !in windows {
        windows := windows[key := []];
      }
      Prune(key, now - windowSeconds);
      ghost var pruned := Pruned(WindowOf(old(windows), key), now - windowSeconds);
      assert windows == old(windows)[key := pruned];
      if |windows[key]| >= maxAttempts {
        return false;
      }
      windows := windows[key := windows[key] + [now]];
      assert windows == old(windows)[key := pruned + [now]];
      if now - lastCleanup > cleanupInterval {
        Cleanup(now);
      }
      return true;
    }

    method RecordFailure(key: string, now: real)
      modifies this`windows
      ensures windows == old(windows)[key := WindowOf(old(windows), key) + [now]]
    {
      windows := windows[key := (if key in windows then windows[key] else []) + [now]];
    }

    method Remaining(key: string, maxAttempts: int, windowSeconds: real, now: real) returns (left: int)
      modifies this`windows
      ensures windows == old(windows)[key := Pruned(WindowOf(old(windows), key), now - windowSeconds)]
      ensures left == Left(maxAttempts, |windows[key]|)
    {
      if key !in windows {
        windows := windows[key := []];
      }
      Prune(key, now - windowSeconds);
      left := if maxAttempts - |windows[key]| > 0 then maxAttempts - |windows[key]| else 0;
    }

    method Reset(key: string)
      modifies this`windows
      ensures windows == old(windows) - {key}
    {
      windows := windows - {key};
    }

    method Cleanup(now: real)
      modifies this
      ensures Current() == Cleaned(old(Current()), now)
    {
      var staleKeys := StaleKeys(windows, now);
      hide Stale;
      windows := windows - staleKeys;
      lastCleanup := now;
      assert windows == Cleaned(old(Current()), now).windows;
    }
  }

  method StaleKeys(windows: map<string, Window>, now: real) returns (stale: set<string>)
    ensures forall key :: key in stale <==> key in windows && Stale(windows[key], now)
  {
    hide Stale;
    stale := {};
    var rest := windows.Keys;
    while rest != {}
      invariant rest <= windows.Keys
      invariant forall key :: key in stale <==> key in windows && key !in rest && Stale(windows[key], now)
      decreases |rest|
    {
      var key :| key in rest;
      rest := rest - {key};
      if Stale(windows[key], now) {
        stale := stale + {key};
      }
    }
  }

  // ---- What the history says ------------------------------------------------

  type History = map<string, Window>

  /** Entries not older than the cutoff, in the whole history of a key. */
  function CountSince(h: Window, cutoff: real): nat {
    if h == [] then 0 else CountSince(h[..|h| - 1], cutoff) + if h[|h| - 1] >= cutoff then 1 else 0
  }

  /** The limiter as it is meant: nothing is ever forgotten, except by `reset`. */
  function FullStep(full: History, limit: string -> Limit, event: Event, now: real): (History, int) {
    var key := event.key;
    var used := CountSince(WindowOf(full, key), now - limit(key).window);
    match event
    case Check(_) =>
      if used >= limit(key).maxAttempts then (full, 0) else (full[key := WindowOf(full, key) + [now]], 1)
    case Failure(_) => (full[key := WindowOf(full, key) + [now]], 0)
    case Remaining(_) => (full, Left(limit(key).maxAttempts, used))
    case Reset(_) => (full - {key}, 0)
  }

  ghost predicate Sorted(w: Window) {
    forall i, j :: 0 <= i < j < |w| ==> w[i] <= w[j]
  }

  /** What is left of a history is a suffix; what is gone is older than the cutoff. */
  ghost predicate Suffix(w: Window, h: Window, cutoff: real) {
    && |w| <= |h| && w == h[|h| - |w|..]
    && forall i :: 0 <= i < |h| - |w| ==> h[i] < cutoff
  }

  ghost predicate UpTo(h: Window, now: real) {
    forall i :: 0 <= i < |h| ==> h[i] <= now
  }

  lemma {:induction false} PrunedSuffix(w: Window, h: Window, before: real, cutoff: real)
    requires Suffix(w, h, before) && before <= cutoff
    ensures Suffix(Pruned(w, cutoff), h, cutoff)
    decreases |w|
  {
    if w != [] && w[0] < cutoff {
      assert w[1..] == h[|h| - |w| + 1..];
      PrunedSuffix(w[1..], h, cutoff, cutoff);
    }
  }

  lemma {:induction false} PrunedNotOlder(w: Window, cutoff: real)
    requires Sorted(w)
    ensures forall i :: 0 <= i < |Pruned(w, cutoff)| ==> Pruned(w, cutoff)[i] >= cutoff
    decreases |w|
  {
    if w != [] && w[0] < cutoff {
      PrunedNotOlder(w[1..], cutoff);
    }
  }

  lemma {:induction false} CountOfSuffix(w: Window, h: Window, cutoff: real)
    requires Suffix(w, h, cutoff) && forall i :: 0 <= i < |w| ==> w[i] >= cutoff
    ensures CountSince(h, cutoff) == |w|
    decreases |h|
  {
    if h != [] {
      var front := h[..|h| - 1];
      if w == [] {
        CountOfSuffix([], front, cutoff);
      } else {
        assert w[|w| - 1] == h[|h| - 1];
        assert w[..|w| - 1] == front[|front| - (|w| - 1)..];
        CountOfSuffix(w[..|w| - 1], front, cutoff);
      }
    }
  }

  /** A pruned window has as many entries as the history has recent ones. */
  lemma PrunedCounts(w: Window, h: Window, before: real, cutoff: real)
    requires Suffix(w, h, before) && before <= cutoff && Sorted(h)
    ensures |Pruned(w, cutoff)| == CountSince(h, cutoff) && Suffix(Pruned(w, cutoff), h, cutoff)
  {
    PrunedSuffix(w, h, before, cutoff);
    forall i, j | 0 <= i < j < |w| ensures w[i] <= w[j] {
      assert w[i] == h[|h| - |w| + i] && w[j] == h[|h| - |w| + j];
    }
    PrunedNotOlder(w, cutoff);
    CountOfSuffix(Pruned(w, cutoff), h, cutoff);
  }

  // ---- Refinement -----------------------------------------------------------

  ghost predicate RefinesKey(w: Window, h: Window, window: real, t: real) {
    Sorted(h) && UpTo(h, t) && Suffix(w, h, t - window)
  }

  predicate Acts(limit: string -> Limit, key: string) {
    limit(key).maxAttempts > 0
  }

  /** A key that the cleanup of windows after an hour cannot harm: its own window is no longer,
      or it may not act, or no other key may and so trigger a cleanup. */
  ghost predicate Safe(limit: string -> Limit, key: string) {
    limit(key).window <= 3600.0 || !Acts(limit, key) || forall other :: other != key ==> !Acts(limit, other)
  }

  ghost predicate Tracked(limit: string -> Limit, key: string) {
    Acts(limit, key) && Safe(limit, key)
  }

  /** At time t the window of every safe key that may act is what is left of its history. */
  ghost predicate Refines(s: State, full: History, limit: string -> Limit, t: real) {
    forall key :: Tracked(limit, key) ==>
      RefinesKey(WindowOf(s.windows, key), WindowOf(full, key), limit(key).window, t)
  }

  lemma LaterKey(w: Window, h: Window, window: real, t: real, now: real)
    requires RefinesKey(w, h, window, t) && t <= now
    ensures RefinesKey(w, h, window, now)
    ensures RefinesKey(w + [now], h + [now], window, now)
    ensures |Pruned(w, now - window)| == CountSince(h, now - window)
    ensures RefinesKey(Pruned(w, now - window), h, window, now)
    ensures RefinesKey(Pruned(w, now - window) + [now], h + [now], window, now)
  {
    PrunedCounts(w, h, t - window, now - window);
    AppendedKey(w, h, window, now);
    AppendedKey(Pruned(w, now - window), h, window, now);
  }

  lemma AppendedKey(w: Window, h: Window, window: real, now: real)
    requires RefinesKey(w, h, window, now)
    ensures RefinesKey(w + [now], h + [now], window, now)
  {
    assert (h + [now])[|h| - |w|..] == h[|h| - |w|..] + [now];
  }

  /** Forgetting a stale window of at most an hour loses nothing that still counts. */
  lemma CleanedKey(w: Window, h: Window, window: real, now: real)
    requires RefinesKey(w, h, window, now) && Stale(w, now) && window <= 3600.0
    ensures RefinesKey([], h, window, now)
  {
    forall i | 0 <= i < |h| ensures h[i] < now - window {
      if i >= |h| - |w| {
        assert w[|w| - 1] == h[|h| - 1];
      }
    }
  }

  /** A cleanup after an accepted check keeps the windows what is left of their histories. */
  lemma CleanupRefines(s: State, full: History, limit: string -> Limit, now: real, key: string)
    requires Refines(s, full, limit, now) && Acts(limit, key)
    requires key in s.windows && !Stale(s.windows[key], now)
    ensures Refines(Cleaned(s, now), full, limit, now)
  {
    hide RefinesKey, Stale;
    forall k | Tracked(limit, k)
      ensures RefinesKey(WindowOf(Cleaned(s, now).windows, k), WindowOf(full, k), limit(k).window, now)
    {
      assert RefinesKey(WindowOf(s.windows, k), WindowOf(full, k), limit(k).window, now);
      if k in s.windows && Stale(s.windows[k], now) {
        CleanedKey(s.windows[k], WindowOf(full, k), limit(k).window, now);
      }
    }
  }

  lemma JustRecorded(w: Window, now: real)
    ensures !Stale(w + [now], now)
  {
  }

  /** One call of a safe key decides as the history says, and after a call of any key the
      windows of the safe ones stay what is left of their histories. */
  lemma StepRefines(s: State, full: History, interval: real, limit: string -> Limit, event: Event, t: real, now: real)
    requires Refines(s, full, limit, t) && t <= now
    ensures Safe(limit, event.key) ==>
      Step(s, interval, limit, event, now).1 == FullStep(full, limit, event, now).1
    ensures Refines(Step(s, interval, limit, event, now).0, FullStep(full, limit, event, now).0, limit, now)
  {
    LaterRefines(s, full, limit, t, now);
    if Tracked(limit, event.key) {
      TrackedStep(s, full, interval, limit, event, t, now);
    } else {
      OtherStep(s, full, interval, limit, event, now);
    }
  }

  lemma TrackedStep(s: State, full: History, interval: real, limit: string -> Limit, event: Event, t: real, now: real)
    requires Refines(s, full, limit, t) && Refines(s, full, limit, now) && t <= now && Tracked(limit, event.key)
    ensures Step(s, interval, limit, event, now).1 == FullStep(full, limit, event, now).1
    ensures Refines(Step(s, interval, limit, event, now).0, FullStep(full, limit, event, now).0, limit, now)
  {
    var key, window := event.key, limit(event.key).window;
    var w, h := WindowOf(s.windows, key), WindowOf(full, key);
    hide Refines, RefinesKey, Pruned, CountSince, Cleaned, WindowOf, Left, Safe, Stale;
    KeyRefines(s, full, limit, t, key);
    LaterKey(w, h, window, t, now);
    var pruned := Pruned(w, now - window);
    match event
    case Check(_) =>
      ReplacedRefines(s, full, limit, now, key, pruned, h);
      ReplacedRefines(s, full, limit, now, key, pruned + [now], h + [now]);
      JustRecorded(pruned, now);
      CleanupRefines(s.(windows := s.windows[key := pruned + [now]]), full[key := h + [now]], limit, now, key);
    case Failure(_) => ReplacedRefines(s, full, limit, now, key, w + [now], h + [now]);
    case Remaining(_) => ReplacedRefines(s, full, limit, now, key, pruned, h);
    case Reset(_) => RemovedRefines(s, full, limit, now, key);
  }

  /** A key that may not act gets no other answers; one that is not safe may, but only its own
      window and history part. */
  lemma OtherStep(s: State, full: History, interval: real, limit: string -> Limit, event: Event, now: real)
    requires Refines(s, full, limit, now) && !Tracked(limit, event.key)
    ensures !Acts(limit, event.key) ==>
      Step(s, interval, limit, event, now).1 == FullStep(full, limit, event, now).1
    ensures Refines(Step(s, interval, limit, event, now).0, FullStep(full, limit, event, now).0, limit, now)
  {
    var key, window := event.key, limit(event.key).window;
    var w, h := WindowOf(s.windows, key), WindowOf(full, key);
    hide Refines, RefinesKey, Pruned, CountSince, Cleaned, WindowOf, Left, Safe, Tracked, Stale;
    var pruned := Pruned(w, now - window);
    if !Acts(limit, key) {
      NothingLeft(limit(key).maxAttempts, |pruned|);
      NothingLeft(limit(key).maxAttempts, CountSince(h, now - window));
    }
    var grown := full[key := h + [now]];
    OtherWindows(full, key, h + [now]);
    OtherRefines(s, full, limit, now, key, pruned, full);
    OtherRefines(s, full, limit, now, key, pruned, grown);
    OtherRefines(s, full, limit, now, key, w + [now], grown);
    RemovedRefines(s, full, limit, now, key);
    if Acts(limit, key) {
      JustRecorded(pruned, now);
      OtherRefines(s, full, limit, now, key, pruned + [now], full);
      OtherRefines(s, full, limit, now, key, pruned + [now], grown);
      CleanupRefines(s.(windows := s.windows[key := pruned + [now]]), full, limit, now, key);
      CleanupRefines(s.(windows := s.windows[key := pruned + [now]]), grown, limit, now, key);
    }
  }

  lemma OtherWindows(full: History, key: string, h: Window)
    ensures forall k :: k != key ==> WindowOf(full[key := h], k) == WindowOf(full, k)
  {
  }

  lemma NothingLeft(max: int, used: nat)
    requires max <= 0
    ensures Left(max, used) == 0
  {
  }

  lemma KeyRefines(s: State, full: History, limit: string -> Limit, t: real, key: string)
    requires Refines(s, full, limit, t) && Tracked(limit, key)
    ensures RefinesKey(WindowOf(s.windows, key), WindowOf(full, key), limit(key).window, t)
  {
  }

  lemma LaterRefines(s: State, full: History, limit: string -> Limit, t: real, now: real)
    requires Refines(s, full, limit, t) && t <= now
    ensures Refines(s, full, limit, now)
  {
    hide RefinesKey;
    forall k | Tracked(limit, k)
      ensures RefinesKey(WindowOf(s.windows, k), WindowOf(full, k), limit(k).window, now)
    {
      LaterKey(WindowOf(s.windows, k), WindowOf(full, k), limit(k).window, t, now);
    }
  }

  /** A key that is not safe or may not act can have any window and history. */
  lemma OtherRefines(s: State, full: History, limit: string -> Limit, now: real, key: string, w: Window, g: History)
    requires Refines(s, full, limit, now) && !Tracked(limit, key)
    requires forall k :: k != key ==> WindowOf(g, k) == WindowOf(full, k)
    ensures Refines(s.(windows := s.windows[key := w]), g, limit, now)
  {
    hide RefinesKey;
  }

  lemma ReplacedRefines(s: State, full: History, limit: string -> Limit, now: real, key: string, w: Window, h: Window)
    requires Refines(s, full, limit, now) && RefinesKey(w, h, limit(key).window, now)
    ensures Refines(s.(windows := s.windows[key := w]), full[key := h], limit, now)
    ensures h == WindowOf(full, key) ==> Refines(s.(windows := s.windows[key := w]), full, limit, now)
  {
    hide RefinesKey;
    forall k | Tracked(limit, k)
      ensures RefinesKey(WindowOf(s.windows[key := w], k), WindowOf(full[key := h], k), limit(k).window, now)
    {
      assert k != key ==> RefinesKey(WindowOf(s.windows, k), WindowOf(full, k), limit(k).window, now);
    }
    if h == WindowOf(full, key) {
      forall k ensures WindowOf(full[key := h], k) == WindowOf(full, k) {
      }
    }
  }

  lemma RemovedRefines(s: State, full: History, limit: string -> Limit, now: real, key: string)
    requires Refines(s, full, limit, now)
    ensures Refines(s.(windows := s.windows - {key}), full - {key}, limit, now)
  {
    hide RefinesKey;
    EmptyRefines(limit(key).window, now);
    forall k | Tracked(limit, k)
      ensures RefinesKey(WindowOf(s.windows - {key}, k), WindowOf(full - {key}, k), limit(k).window, now)
    {
      assert k != key ==> RefinesKey(WindowOf(s.windows, k), WindowOf(full, k), limit(k).window, now);
    }
  }

  lemma EmptyRefines(window: real, now: real)
    ensures RefinesKey([], [], window, now)
  {
  }

  /** A call and its time. */
  datatype Call = Call(event: Event, now: real)

  function Answers(s: State, interval: real, limit: string -> Limit, calls: seq<Call>): seq<int>
    decreases |calls|
  {
    if calls == [] then []
    else
      var (next, answer) := Step(s, interval, limit, calls[0].event, calls[0].now);
      [answer] + Answers(next, interval, limit, calls[1..])
  }

  function FullAnswers(full: History, limit: string -> Limit, calls: seq<Call>): seq<int>
    decreases |calls|
  {
    if calls == [] then []
    else
      var (next, answer) := FullStep(full, limit, calls[0].event, calls[0].now);
      [answer] + FullAnswers(next, limit, calls[1..])
  }

  ghost predicate Chronological(calls: seq<Call>, t: real) {
    calls == [] || (t <= calls[0].now && Chronological(calls[1..], calls[0].now))
  }

  /** The two runs answer every call of the key alike. */
  ghost predicate Agree(key: string, calls: seq<Call>, answers: seq<int>, others: seq<int>) {
    && |answers| == |calls| == |others|
    && forall i :: 0 <= i < |calls| && calls[i].event.key == key ==> answers[i] == others[i]
  }

  /** Over every run, with any limits of the other keys, pruning and cleanup never change an
      answer to a safe key. */
  lemma {:induction false} RunRefines(s: State, full: History, interval: real, limit: string -> Limit,
        calls: seq<Call>, t: real, key: string)
    requires Refines(s, full, limit, t) && Chronological(calls, t) && Safe(limit, key)
    ensures Agree(key, calls, Answers(s, interval, limit, calls), FullAnswers(full, limit, calls))
    decreases |calls|
  {
    hide Refines, Step, FullStep, Safe;
    if calls != [] {
      StepRefines(s, full, interval, limit, calls[0].event, t, calls[0].now);
      RunRefines(Step(s, interval, limit, calls[0].event, calls[0].now).0,
                 FullStep(full, limit, calls[0].event, calls[0].now).0, interval, limit, calls[1..], calls[0].now, key);
    }
  }

  /** A limiter starts out refining the empty history. */
  lemma FreshRefines(limit: string -> Limit, now: real)
    ensures Refines(State(map[], now), map[], limit, now)
  {
  }

  // ---- The bound the limiter enforces ---------------------------------------

  /** Any max + 1 entries in a row span more than the window. */
  ghost predicate Spread(h: Window, limit: Limit) {
    forall i, j :: 0 <= i < j < |h| && j == i + limit.maxAttempts ==> h[j] - h[i] > limit.window
  }

  /** Entries in the closed interval from a to a + window. */
  function CountIn(h: Window, a: real, window: real): nat {
    if h == [] then 0
    else CountIn(h[..|h| - 1], a, window) + if a <= h[|h| - 1] <= a + window then 1 else 0
  }

  lemma {:induction false} CountRecent(h: Window, cutoff: real, n: nat)
    requires Sorted(h) && n < |h| && h[|h| - 1 - n] >= cutoff
    ensures CountSince(h, cutoff) > n
  {
    var front := h[..|h| - 1];
    if n > 0 {
      assert h[|h| - 1] >= h[|h| - 1 - n];
      CountRecent(front, cutoff, n - 1);
    }
  }

  /** An accepted check keeps the history spread out. */
  lemma AcceptedSpread(h: Window, limit: Limit, now: real)
    requires Sorted(h) && UpTo(h, now) && Spread(h, limit) && 0 < limit.maxAttempts
    requires CountSince(h, now - limit.window) < limit.maxAttempts
    ensures Spread(h + [now], limit)
  {
    var grown := h + [now];
    forall i, j | 0 <= i < j < |grown| && j == i + limit.maxAttempts ensures grown[j] - grown[i] > limit.window {
      if j == |h| {
        if h[i] >= now - limit.window {
          CountRecent(h, now - limit.window, limit.maxAttempts - 1);
        }
      }
    }
  }

  /** Spread-out entries leave at most max in any closed interval as long as the window. */
  lemma {:induction false} SpreadBounds(h: Window, limit: Limit, a: real)
    requires Sorted(h) && Spread(h, limit) && 0 < limit.maxAttempts
    ensures CountIn(h, a, limit.window) <= limit.maxAttempts
  {
    if h != [] {
      var front := h[..|h| - 1];
      SpreadBounds(front, limit, a);
      CountAtMost(h, a, limit.window);
      if a <= h[|h| - 1] <= a + limit.window && |h| > limit.maxAttempts {
        assert h[|h| - 1] - h[|h| - 1 - limit.maxAttempts] > limit.window;
        CountLate(h, a, limit.window, limit.maxAttempts);
      }
    }
  }

  lemma {:induction false} CountAtMost(h: Window, a: real, window: real)
    ensures CountIn(h, a, window) <= |h|
  {
    if h != [] {
      CountAtMost(h[..|h| - 1], a, window);
    }
  }

  /** If the entry n places from the end is before a, at most n are not. */
  lemma {:induction false} CountLate(h: Window, a: real, window: real, n: nat)
    requires Sorted(h) && n < |h| && h[|h| - 1 - n] < a
    ensures CountIn(h, a, window) <= n
  {
    var front := h[..|h| - 1];
    if n > 0 {
      CountLate(front, a, window, n - 1);
    } else {
      CountNone(h, a, window);
    }
  }

  lemma {:induction false} CountNone(h: Window, a: real, window: real)
    requires Sorted(h) && (h == [] || h[|h| - 1] < a)
    ensures CountIn(h, a, window) == 0
  {
    if h != [] {
      var front := h[..|h| - 1];
      if front != [] {
        assert front[|front| - 1] <= h[|h| - 1];
      }
      CountNone(front, a, window);
    }
  }

  /** The accepted checks of a key after one more call and its answer. */
  function AcceptedAfter(key: string, before: Window, call: Call, answer: int): Window {
    if call.event == Reset(key) then []
    else if call.event == Check(key) && answer == 1 then before + [call.now]
    else before
  }

  /** The times of a key's accepted checks since its last reset, according to the answers,
      following those in `before`. */
  function Accepted(key: string, before: Window, calls: seq<Call>, answers: seq<int>): Window
    requires |answers| == |calls|
    decreases |calls|
  {
    if calls == [] then before
    else Accepted(key, AcceptedAfter(key, before, calls[0], answers[0]), calls[1..], answers[1..])
  }

  lemma {:induction false} AnswersLength(full: History, limit: string -> Limit, calls: seq<Call>)
    ensures |FullAnswers(full, limit, calls)| == |calls|
    decreases |calls|
  {
    hide FullStep;
    if calls != [] {
      AnswersLength(FullStep(full, limit, calls[0].event, calls[0].now).0, limit, calls[1..]);
    }
  }

  /** Runs that answer the key alike accept the same checks of it. */
  lemma {:induction false} SameAccepted(key: string, before: Window, calls: seq<Call>, answers: seq<int>,
        others: seq<int>)
    requires Agree(key, calls, answers, others)
    ensures Accepted(key, before, calls, answers) == Accepted(key, before, calls, others)
    decreases |calls|
  {
    if calls != [] {
      var after := AcceptedAfter(key, before, calls[0], answers[0]);
      assert after == AcceptedAfter(key, before, calls[0], others[0]);
      SameAccepted(key, after, calls[1..], answers[1..], others[1..]);
    }
  }

  ghost predicate InOrder(h: Window, limit: Limit) {
    Sorted(h) && Spread(h, limit) && (limit.maxAttempts <= 0 ==> h == [])
  }

  /** The history counts every entry of the list, and perhaps more. */
  ghost predicate Covers(h: Window, accepted: Window) {
    forall cutoff :: CountSince(accepted, cutoff) <= CountSince(h, cutoff)
  }

  lemma CountAppend(h: Window, now: real, cutoff: real)
    ensures CountSince(h + [now], cutoff) == CountSince(h, cutoff) + if now >= cutoff then 1 else 0
  {
    assert (h + [now])[..|h|] == h;
  }

  lemma CoversAppend(h: Window, accepted: Window, now: real)
    requires Covers(h, accepted)
    ensures Covers(h + [now], accepted) && Covers(h + [now], accepted + [now])
  {
    forall cutoff ensures CountSince(accepted, cutoff) <= CountSince(h + [now], cutoff)
      ensures CountSince(accepted + [now], cutoff) <= CountSince(h + [now], cutoff)
    {
      CountAppend(h, now, cutoff);
      CountAppend(accepted, now, cutoff);
    }
  }

  /** What one call does to the history of a key. */
  lemma StepHistory(full: History, limit: string -> Limit, event: Event, now: real, key: string)
    ensures var (next, answer) := FullStep(full, limit, event, now);
      var h := WindowOf(full, key);
      && (event == Check(key) && answer == 1 ==> CountSince(h, now - limit(key).window) < limit(key).maxAttempts)
      && WindowOf(next, key) == if event == Reset(key) then []
        else if event == Failure(key) || (event == Check(key) && answer == 1) then h + [now]
        else h
  {
    hide CountSince;
  }

  /** The accepted checks stay in order: an accepted one finds room in the history, and so
      among the accepted ones; failures only take room away. */
  lemma StepInOrder(full: History, limit: string -> Limit, call: Call, key: string, accepted: Window, t: real)
    requires InOrder(accepted, limit(key)) && UpTo(accepted, t) && t <= call.now
    requires Covers(WindowOf(full, key), accepted)
    ensures var (next, answer) := FullStep(full, limit, call.event, call.now);
      var after := AcceptedAfter(key, accepted, call, answer);
      InOrder(after, limit(key)) && UpTo(after, call.now) && Covers(WindowOf(next, key), after)
  {
    hide CountSince, InOrder, UpTo, Covers, FullStep, WindowOf;
    var h := WindowOf(full, key);
    StepHistory(full, limit, call.event, call.now, key);
    CoversAt(h, accepted, call.now - limit(key).window);
    CoversAppend(h, accepted, call.now);
    NothingInOrder(limit(key), call.now);
    RecordedInOrder(accepted, limit(key), t, call.now);
  }

  lemma CoversAt(h: Window, accepted: Window, cutoff: real)
    requires Covers(h, accepted)
    ensures CountSince(accepted, cutoff) <= CountSince(h, cutoff)
  {
  }

  lemma NothingInOrder(limit: Limit, t: real)
    ensures InOrder([], limit) && UpTo([], t) && Covers([], [])
  {
  }

  lemma RecordedInOrder(h: Window, limit: Limit, t: real, now: real)
    requires InOrder(h, limit) && UpTo(h, t) && t <= now
    ensures UpTo(h, now)
    ensures CountSince(h, now - limit.window) < limit.maxAttempts ==> InOrder(h + [now], limit) && UpTo(h + [now], now)
  {
    hide CountSince, Spread;
    if CountSince(h, now - limit.window) < limit.maxAttempts {
      AcceptedSpread(h, limit, now);
    }
  }

  lemma {:induction false} AcceptedInOrder(full: History, limit: string -> Limit, calls: seq<Call>, key: string,
        accepted: Window, t: real)
    requires InOrder(accepted, limit(key)) && UpTo(accepted, t) && Covers(WindowOf(full, key), accepted)
    requires Chronological(calls, t)
    ensures |FullAnswers(full, limit, calls)| == |calls|
    ensures InOrder(Accepted(key, accepted, calls, FullAnswers(full, limit, calls)), limit(key))
    decreases |calls|
  {
    hide InOrder, UpTo, FullStep, WindowOf, Covers, AcceptedAfter;
    AnswersLength(full, limit, calls);
    if calls != [] {
      StepInOrder(full, limit, calls[0], key, accepted, t);
      var (next, answer) := FullStep(full, limit, calls[0].event, calls[0].now);
      AnswersLength(next, limit, calls[1..]);
      var after := AcceptedAfter(key, accepted, calls[0], answer);
      AcceptedInOrder(next, limit, calls[1..], key, after, calls[0].now);
      assert FullAnswers(full, limit, calls)[1..] == FullAnswers(next, limit, calls[1..]);
    }
  }

  /** In every run, from any limiter whose windows are what is left of some history, and with
      failures and resets in it: every closed interval as long as the window holds at most
      max checks of a safe key accepted in the run since the key's last reset. */
  lemma SlidingBound(s: State, full: History, t: real, interval: real, limit: string -> Limit, calls: seq<Call>,
        key: string, a: real)
    requires Refines(s, full, limit, t) && Chronological(calls, t) && Safe(limit, key)
    ensures |Answers(s, interval, limit, calls)| == |calls|
    ensures CountIn(Accepted(key, [], calls, Answers(s, interval, limit, calls)), a, limit(key).window)
         <= if limit(key).maxAttempts > 0 then limit(key).maxAttempts else 0
  {
    hide Answers, FullAnswers, Accepted, CountIn, Refines, Safe, Chronological, Covers;
    RunRefines(s, full, interval, limit, calls, t, key);
    SameAccepted(key, [], calls, Answers(s, interval, limit, calls), FullAnswers(full, limit, calls));
    NothingInOrder(limit(key), t);
    NothingCovered(WindowOf(full, key));
    AcceptedInOrder(full, limit, calls, key, [], t);
    var accepted := Accepted(key, [], calls, FullAnswers(full, limit, calls));
    if limit(key).maxAttempts > 0 {
      SpreadBounds(accepted, limit(key), a);
    } else {
      NothingCounted(a, limit(key).window);
    }
  }

  lemma NothingCovered(h: Window)
    ensures Covers(h, [])
  {
  }

  lemma NothingCounted(a: real, window: real)
    ensures CountIn([], a, window) == 0
  {
  }

  // ---- Windows longer than an hour ------------------------------------------

  /** n checks of a key at one time. */
  function Burst(key: string, now: real, n: nat): (calls: seq<Call>)
    ensures |calls| == n
  {
    if n == 0 then [] else [Call(Check(key), now)] + Burst(key, now, n - 1)
  }

  function Times(now: real, n: nat): (w: Window)
    ensures |w| == n && forall i :: 0 <= i < n ==> w[i] == now
  {
    seq(n, _ => now)
  }

  lemma {:induction false} CountTimes(now: real, n: nat, cutoff: real)
    requires cutoff <= now
    ensures CountSince(Times(now, n), cutoff) == n
  {
    if n > 0 {
      CountTimes(now, n - 1, cutoff);
      assert Times(now, n)[..n - 1] == Times(now, n - 1);
    }
  }

  lemma PrunedTimes(now: real, n: nat, cutoff: real)
    requires cutoff <= now
    ensures Pruned(Times(now, n), cutoff) == Times(now, n)
  {
  }

  /** The key has n entries of one time, the other key none, and the last cleanup was at the
      start or is of no account. */
  ghost predicate Ready(s: State, full: History, start: real, key: string, other: string, at: real, n: nat) {
    && s.lastCleanup == start
    && WindowOf(s.windows, key) == Times(at, n) && WindowOf(full, key) == Times(at, n)
    && WindowOf(s.windows, other) == [] && WindowOf(full, other) == []
  }

  /** When the burst comes: as late as no cleanup is due, or at once. */
  function BurstTime(start: real, interval: real): real {
    if interval < 0.0 then start else start + interval
  }

  lemma BurstStep(s: State, full: History, start: real, interval: real, limit: string -> Limit, key: string,
        other: string, n: nat)
    requires Ready(s, full, start, key, other, BurstTime(start, interval), n) && key != other
    requires n < limit(key).maxAttempts && 0.0 <= limit(key).window
    ensures var at := BurstTime(start, interval);
      Ready(Step(s, interval, limit, Check(key), at).0, FullStep(full, limit, Check(key), at).0,
            start, key, other, at, n + 1)
  {
    var at := BurstTime(start, interval);
    CountTimes(at, n, at - limit(key).window);
    PrunedTimes(at, n, at - limit(key).window);
    assert Times(at, n) + [at] == Times(at, n + 1);
  }

  function LateChecks(at: real, window: real, key: string, other: string): seq<Call> {
    [Call(Check(other), at + window), Call(Check(key), at + window)]
  }

  /** The limiter gives the key an answer that the history does not. */
  ghost predicate Diverges(s: State, full: History, interval: real, limit: string -> Limit, calls: seq<Call>,
                           key: string) {
    !Agree(key, calls, Answers(s, interval, limit, calls), FullAnswers(full, limit, calls))
  }

  lemma {:induction false} AnswerEach(s: State, interval: real, limit: string -> Limit, calls: seq<Call>)
    ensures |Answers(s, interval, limit, calls)| == |calls|
    decreases |calls|
  {
    hide Step;
    if calls != [] {
      AnswerEach(Step(s, interval, limit, calls[0].event, calls[0].now).0, interval, limit, calls[1..]);
    }
  }

  lemma DivergesLater(s: State, full: History, interval: real, limit: string -> Limit, call: Call, calls: seq<Call>,
        key: string)
    requires Diverges(Step(s, interval, limit, call.event, call.now).0, FullStep(full, limit, call.event, call.now).0,
        interval, limit, calls, key)
    ensures Diverges(s, full, interval, limit, [call] + calls, key)
  {
    hide Step, FullStep;
    var all := [call] + calls;
    assert all[0] == call && all[1..] == calls;
    var next := Step(s, interval, limit, call.event, call.now).0;
    var fullNext := FullStep(full, limit, call.event, call.now).0;
    AnswerEach(next, interval, limit, calls);
    AnswersLength(fullNext, limit, calls);
    var i :| 0 <= i < |calls| && calls[i].event.key == key
      && Answers(next, interval, limit, calls)[i] != FullAnswers(fullNext, limit, calls)[i];
    assert all[i + 1].event.key == key;
    assert Answers(s, interval, limit, all)[i + 1] == Answers(next, interval, limit, calls)[i];
    assert FullAnswers(full, limit, all)[i + 1] == FullAnswers(fullNext, limit, calls)[i];
  }

  lemma DivergesNow(s: State, full: History, interval: real, limit: string -> Limit, call: Call)
    requires Step(s, interval, limit, call.event, call.now).1 != FullStep(full, limit, call.event, call.now).1
    ensures Diverges(s, full, interval, limit, [call], call.event.key)
  {
    hide Step, FullStep;
    assert [call][0].event.key == call.event.key;
    assert Answers(s, interval, limit, [call])[0] == Step(s, interval, limit, call.event, call.now).1;
    assert FullAnswers(full, limit, [call])[0] == FullStep(full, limit, call.event, call.now).1;
  }

  lemma {:induction false} BurstDiverges(s: State, full: History, start: real, interval: real,
        limit: string -> Limit, key: string, other: string, n: nat, left: nat)
    requires limit(key).window > 3600.0 && n + left == limit(key).maxAttempts && 0 < limit(key).maxAttempts
    requires 0 < limit(other).maxAttempts && key != other
    requires Ready(s, full, start, key, other, BurstTime(start, interval), n)
    ensures var at := BurstTime(start, interval);
      Diverges(s, full, interval, limit, Burst(key, at, left) + LateChecks(at, limit(key).window, key, other), key)
    decreases left
  {
    hide Step, FullStep, Diverges, Ready, LateChecks, BurstTime, Burst;
    var at := BurstTime(start, interval);
    var rest := LateChecks(at, limit(key).window, key, other);
    BurstThen(key, at, left, rest);
    if left == 0 {
      LateDiverges(s, full, start, interval, limit, key, other, n);
    } else {
      BurstStep(s, full, start, interval, limit, key, other, n);
      BurstDiverges(Step(s, interval, limit, Check(key), at).0, FullStep(full, limit, Check(key), at).0,
                    start, interval, limit, key, other, n + 1, left - 1);
      DivergesLater(s, full, interval, limit, Call(Check(key), at), Burst(key, at, left - 1) + rest, key);
    }
  }

  lemma BurstThen(key: string, now: real, n: nat, rest: seq<Call>)
    ensures n == 0 ==> Burst(key, now, n) + rest == rest
    ensures n > 0 ==>
      Burst(key, now, n) + rest == [Call(Check(key), now)] + (Burst(key, now, n - 1) + rest)
  {
  }

  /** The late check of the other key triggers a cleanup that forgets the burst. */
  lemma LateDiverges(s: State, full: History, start: real, interval: real, limit: string -> Limit, key: string,
        other: string, n: nat)
    requires limit(key).window > 3600.0 && n == limit(key).maxAttempts && 0 < n && 0 < limit(other).maxAttempts
    requires key != other && Ready(s, full, start, key, other, BurstTime(start, interval), n)
    ensures var at := BurstTime(start, interval);
      Diverges(s, full, interval, limit, LateChecks(at, limit(key).window, key, other), key)
  {
    var at := BurstTime(start, interval);
    var late := at + limit(key).window;
    CountTimes(at, n, late - limit(key).window);
    var next, fullNext := Step(s, interval, limit, Check(other), late).0, FullStep(full, limit, Check(other), late).0;
    assert WindowOf(next.windows, key) == [];
    assert WindowOf(fullNext, key) == Times(at, n);
    assert Step(next, interval, limit, Check(key), late).1 == 1;
    assert FullStep(fullNext, limit, Check(key), late).1 == 0;
    hide Step, FullStep, Diverges;
    DivergesNow(next, fullNext, interval, limit, Call(Check(key), late));
    DivergesLater(s, full, interval, limit, Call(Check(other), late), [Call(Check(key), late)], key);
    assert LateChecks(at, limit(key).window, key, other) == [Call(Check(other), late)] + [Call(Check(key), late)];
  }

  lemma {:induction false} BurstChronological(key: string, now: real, n: nat, rest: seq<Call>, t: real)
    requires t <= now && Chronological(rest, now)
    ensures Chronological(Burst(key, now, n) + rest, t)
  {
    if n == 0 {
      assert Burst(key, now, n) + rest == rest;
    } else {
      var calls := Burst(key, now, n) + rest;
      assert calls[0] == Call(Check(key), now) && calls[1..] == Burst(key, now, n - 1) + rest;
      BurstChronological(key, now, n - 1, rest, now);
    }
  }

  /** The hour in the cleanup is what limits windows: for any key whose window is longer,
      there is a run, with a check of another key, in which the limiter lets through a
      check of the key that the history forbids. */
  lemma CleanupForgets(start: real, interval: real, limit: string -> Limit, key: string, other: string)
    requires limit(key).window > 3600.0 && 0 < limit(key).maxAttempts && 0 < limit(other).maxAttempts && key != other
    ensures exists calls ::
      Chronological(calls, start) && Diverges(State(map[], start), map[], interval, limit, calls, key)
  {
    var at := BurstTime(start, interval);
    var rest := LateChecks(at, limit(key).window, key, other);
    var late := at + limit(key).window;
    assert rest[1..] == [Call(Check(key), late)] && rest[1..][1..] == [];
    assert Chronological(rest[1..], late);
    assert start <= at;
    hide LateChecks, Chronological, Diverges, BurstTime;
    BurstChronological(key, at, limit(key).maxAttempts, rest, start);
    BurstDiverges(State(map[], start), map[], start, interval, limit, key, other, 0, limit(key).maxAttempts);
  }

  /** A limiter answers a key in every run as the history would exactly if the key is safe. */
  lemma AgreesExactly(start: real, interval: real, limit: string -> Limit, key: string)
    ensures Safe(limit, key) <==> forall calls ::
      Chronological(calls, start) ==> !Diverges(State(map[], start), map[], interval, limit, calls, key)
  {
    hide Answers, FullAnswers, Chronological, Refines;
    if Safe(limit, key) {
      FreshRefines(limit, start);
      forall calls | Chronological(calls, start)
        ensures !Diverges(State(map[], start), map[], interval, limit, calls, key)
      {
        RunRefines(State(map[], start), map[], interval, limit, calls, start, key);
      }
    } else {
      var other :| other != key && Acts(limit, other);
      CleanupForgets(start, interval, limit, key, other);
    }
  }

  // ---- What `remaining` means -----------------------------------------------

  /** The state after k checks of a key at one time. */
  function Repeated(s: State, interval: real, key: string, limit: Limit, now: real, k: nat): State {
    if k == 0 then s else Checked(Repeated(s, interval, key, limit, now, k - 1), interval, key, limit, now).0
  }

  lemma PrunedOnce(w: Window, cutoff: real, now: real)
    requires cutoff <= now
    ensures var p := Pruned(w, cutoff);
      Pruned(p, cutoff) == p && Pruned(p + [now], cutoff) == p + [now]
  {
    PrunedFront(w, cutoff);
  }

  lemma {:induction false} PrunedFront(w: Window, cutoff: real)
    ensures Pruned(w, cutoff) == [] || Pruned(w, cutoff)[0] >= cutoff
  {
    if w != [] && w[0] < cutoff {
      PrunedFront(w[1..], cutoff);
    }
  }

  lemma CheckedWindow(s: State, interval: real, key: string, limit: Limit, now: real)
    requires limit.window >= 0.0
    ensures var w, (next, ok) := Pruned(WindowOf(s.windows, key), now - limit.window),
        Checked(s, interval, key, limit, now);
      && (ok <==> |w| < limit.maxAttempts)
      && Pruned(WindowOf(next.windows, key), now - limit.window) == if ok then w + [now] else w
  {
    PrunedOnce(WindowOf(s.windows, key), now - limit.window, now);
    hide Pruned;
  }

  lemma {:induction false} RepeatedWindow(s: State, interval: real, key: string, limit: Limit, now: real, k: nat)
    requires limit.window >= 0.0
    ensures var used := |Pruned(WindowOf(s.windows, key), now - limit.window)|;
      |Pruned(WindowOf(Repeated(s, interval, key, limit, now, k).windows, key), now - limit.window)|
      == used + if k < Left(limit.maxAttempts, used) then k else Left(limit.maxAttempts, used)
  {
    hide Checked, Pruned, WindowOf;
    if k > 0 {
      RepeatedWindow(s, interval, key, limit, now, k - 1);
      CheckedWindow(Repeated(s, interval, key, limit, now, k - 1), interval, key, limit, now);
    }
  }

  /** What `remaining` answers is how many checks in a row are let through now: those, and no
      more. */
  lemma RemainingExactly(s: State, interval: real, limit: string -> Limit, key: string, now: real, k: nat)
    requires limit(key).window >= 0.0
    ensures Checked(Repeated(s, interval, key, limit(key), now, k), interval, key, limit(key), now).1
      <==> k < Step(s, interval, limit, Remaining(key), now).1
  {
    hide *;
    var max := limit(key).maxAttempts;
    RemainingIsLeft(s, interval, limit, key, now);
    RepeatedWindow(s, interval, key, limit(key), now, k);
    CheckedWindow(Repeated(s, interval, key, limit(key), now, k), interval, key, limit(key), now);
    RoomLeft(max, |Pruned(WindowOf(s.windows, key), now - limit(key).window)|, k);
  }

  lemma RoomLeft(max: int, used: nat, k: nat)
    ensures used + (if k < Left(max, used) then k else Left(max, used)) < max <==> k < Left(max, used)
  {
  }

  lemma RemainingIsLeft(s: State, interval: real, limit: string -> Limit, key: string, now: real)
    ensures Step(s, interval, limit, Remaining(key), now).1
         == Left(limit(key).maxAttempts, |Pruned(WindowOf(s.windows, key), now - limit(key).window)|)
  {
    hide Pruned, WindowOf, Left, Checked;
  }
}
