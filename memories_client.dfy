/**
 * The client for the video-search API: a sliding-window rate limiter, a POST
 * wrapper that retries rate-limited and server-error answers with capped
 * doubling backoff, the post-processing of scene-search results, and the
 * authorization header. Clocks, sleeping, HTTP and printing are not modelled
 * as effects: clock readings and server answers are parameters, and the
 * sleeps a call performs are returned.
 */
module MemoriesClient {
  import opened Util
  import opened Strings

  const RateLimitCalls := 80
  const RateLimitWindow := 60
  const PlaceholderKey := "PASTE_YOUR_API_KEY_HERE"
  const MaxBackoff := 60

  // =====================================================================
  // Sliding-window rate limiter

  /** The timestamps with `now - t < window`, in their original order. */
  function Prune(calls: seq<real>, now: real, window: real): (r: seq<real>)
    ensures |r| <= |calls|
    ensures forall t :: t in r <==> t in calls && now - t < window
    ensures forall t :: multiset(r)[t] == if now - t < window then multiset(calls)[t] else 0
    ensures |calls| == 1 ==> r == if now - calls[0] < window then calls else []
  {
    assert calls != [] ==> calls == [calls[0]] + calls[1..];
    if calls == [] then []
    else if now - calls[0] < window then [calls[0]] + Prune(calls[1..], now, window)
    else Prune(calls[1..], now, window)
  }

  predicate Sorted(s: seq<real>) {
    forall i, j :: 0 <= i <= j < |s| ==> s[i] <= s[j]
  }

  /** How many entries of `s` lie in the half-open span [lo, hi). */
  function CountIn(s: seq<real>, lo: real, hi: real): (n: nat)
    ensures n <= |s|
  {
    if s == [] then 0
    else (if lo <= s[0] < hi then 1 else 0) + CountIn(s[1..], lo, hi)
  }

  /**
   * No span of `window` seconds that starts at a recorded call holds more
   * than `maxCalls` recorded calls.
   */
  predicate WindowOk(s: seq<real>, maxCalls: int, window: real) {
    forall j :: 0 <= j < |s| ==> CountIn(s, s[j], s[j] + window) <= maxCalls
  }

  /** On a sorted list, pruning drops a prefix: the old calls sit at the front. */
  lemma {:induction false} PruneSortedIsSuffix(calls: seq<real>, now: real, window: real)
    requires Sorted(calls)
    ensures var r := Prune(calls, now, window); r == calls[|calls| - |r|..]
    decreases |calls|
  {
    if calls != [] {
      assert Sorted(calls[1..]);
      PruneSortedIsSuffix(calls[1..], now, window);
      if now - calls[0] < window {
        PruneKeepsAll(calls[1..], now, window, calls[0]);
        assert calls == [calls[0]] + calls[1..];
      }
    }
  }

  /** When every entry is at least `low` and `low` is inside the window, nothing is pruned. */
  lemma {:induction false} PruneKeepsAll(calls: seq<real>, now: real, window: real, low: real)
    requires now - low < window
    requires forall t :: t in calls ==> low <= t
    ensures Prune(calls, now, window) == calls
    decreases |calls|
  {
    if calls != [] {
      assert calls[0] in calls;
      forall t | t in calls[1..] ensures low <= t { assert t in calls; }
      PruneKeepsAll(calls[1..], now, window, low);
      assert calls == [calls[0]] + calls[1..];
    }
  }

  /**
   * Pruning is a filter that keeps order: pruning a concatenation prunes each
   * part in place, so the survivors of any list appear in their original order.
   */
  lemma {:induction false} PruneAppend(a: seq<real>, b: seq<real>, now: real, window: real)
    ensures Prune(a + b, now, window) == Prune(a, now, window) + Prune(b, now, window)
    decreases |a|
  {
    if a == [] {
      assert a + b == b;
    } else {
      assert (a + b)[0] == a[0];
      assert (a + b)[1..] == a[1..] + b;
      PruneAppend(a[1..], b, now, window);
    }
  }

  /** Pruning a sorted list leaves it sorted. */
  lemma PruneSorted(calls: seq<real>, now: real, window: real)
    requires Sorted(calls)
    ensures Sorted(Prune(calls, now, window))
  {
    PruneSortedIsSuffix(calls, now, window);
  }

  lemma {:induction false} CountAppend(s: seq<real>, x: real, lo: real, hi: real)
    ensures CountIn(s + [x], lo, hi) == CountIn(s, lo, hi) + (if lo <= x < hi then 1 else 0)
    decreases |s|
  {
    if s == [] {
      assert [x][1..] == [];
    } else {
      assert (s + [x])[1..] == s[1..] + [x];
      CountAppend(s[1..], x, lo, hi);
    }
  }

  /** A span holding every entry counts them all. */
  lemma {:induction false} CountAll(s: seq<real>, lo: real, hi: real)
    requires forall t :: t in s ==> lo <= t < hi
    ensures CountIn(s, lo, hi) == |s|
    decreases |s|
  {
    if s != [] {
      assert s[0] in s;
      forall t | t in s[1..] ensures lo <= t < hi { assert t in s; }
      CountAll(s[1..], lo, hi);
    }
  }

  /** Pruning never adds to a span's count. */
  lemma {:induction false} CountPrune(s: seq<real>, now: real, window: real, lo: real, hi: real)
    ensures CountIn(Prune(s, now, window), lo, hi) <= CountIn(s, lo, hi)
    decreases |s|
  {
    if s != [] {
      CountPrune(s[1..], now, window, lo, hi);
      var rest := Prune(s[1..], now, window);
      if now - s[0] < window {
        assert ([s[0]] + rest)[1..] == rest;
      }
    }
  }

  /** Pruning keeps the window bound. */
  lemma PruneKeepsWindow(s: seq<real>, maxCalls: int, now: real, window: real)
    requires WindowOk(s, maxCalls, window)
    ensures WindowOk(Prune(s, now, window), maxCalls, window)
  {
    var k := Prune(s, now, window);
    forall j | 0 <= j < |k| ensures CountIn(k, k[j], k[j] + window) <= maxCalls {
      assert k[j] in k;
      var i :| 0 <= i < |s| && s[i] == k[j];
      CountPrune(s, now, window, k[j], k[j] + window);
    }
  }

  /**
   * Calls that all lie within one window of `now` fit in the span that starts
   * at the oldest of them, so there are at most `maxCalls` of them.
   */
  lemma KeptFitWindow(k: seq<real>, maxCalls: int, window: real, now: real)
    requires k != [] && Sorted(k) && WindowOk(k, maxCalls, window)
    requires forall t :: t in k ==> now - window < t <= now
    ensures |k| <= maxCalls
  {
    assert k[0] in k;
    forall t | t in k ensures k[0] <= t < k[0] + window {
      var i :| 0 <= i < |k| && k[i] == t;
      assert k[0] <= k[i];
    }
    CountAll(k, k[0], k[0] + window);
  }

  /**
   * Recording a call at `later` keeps the window bound, provided that when
   * the limit was reached, `later` is at least a window after the oldest call.
   */
  lemma AppendKeepsWindow(k: seq<real>, maxCalls: int, window: real, now: real, later: real)
    requires 1 <= maxCalls && 0.0 < window
    requires Sorted(k) && WindowOk(k, maxCalls, window)
    requires forall t :: t in k ==> now - window < t <= now
    requires now <= later
    requires |k| >= maxCalls ==> k != [] && later >= k[0] + window
    ensures Sorted(k + [later]) && WindowOk(k + [later], maxCalls, window)
  {
    var n := k + [later];
    forall i, j | 0 <= i <= j < |n| ensures n[i] <= n[j] {
      if j == |k| && i < |k| {
        assert k[i] in k;
      }
    }
    forall j | 0 <= j < |n| ensures CountIn(n, n[j], n[j] + window) <= maxCalls {
      var lo := n[j];
      CountAppend(k, later, lo, lo + window);
      if lo <= later < lo + window {
        if |k| >= maxCalls {
          KeptFitWindow(k, maxCalls, window, now);
          assert k[0] < lo;
        }
      } else {
        assert j < |k| && lo == k[j];
      }
    }
  }

  /**
   * The limiter's promise. Suppose the recorded calls are sorted, respect the
   * window bound and all happened by `now`, and the call recorded next
   * happens at `later >= now`, after the requested wait if one was due (when
   * at least `maxCalls` calls survive the pruning, `later` is at least a
   * window after the oldest survivor). Then the pruned list with the new call
   * is still sorted and still respects the window bound.
   */
  lemma RateBound(s: seq<real>, maxCalls: int, window: real, now: real, later: real)
    requires 1 <= maxCalls && 0.0 < window
    requires Sorted(s) && WindowOk(s, maxCalls, window)
    requires forall t :: t in s ==> t <= now
    requires now <= later
    requires var k := Prune(s, now, window);
      |k| >= maxCalls ==> k != [] && later >= k[0] + window
    ensures var k := Prune(s, now, window);
      Sorted(k + [later]) && WindowOk(k + [later], maxCalls, window)
  {
    var k := Prune(s, now, window);
    PruneSorted(s, now, window);
    PruneKeepsWindow(s, maxCalls, now, window);
    AppendKeepsWindow(k, maxCalls, window, now, later);
  }

  /** What `wait_if_needed` did besides recording the call. */
  datatype Wait =
    | NoWait                  // under the limit, or the oldest call already left the window
    | Sleep(seconds: real)    // slept this long before recording the call
    | IndexError              // `calls[0]` on an empty list: only when maxCalls <= 0

  class RateLimiter {
    const maxCalls: int
    const windowSeconds: int
    var calls: seq<real>

    /** The limiter's invariant, kept whenever the clock behaves (see `WaitIfNeeded`). */
    ghost predicate Valid()
      reads this
    {
      Sorted(calls) && WindowOk(calls, maxCalls, windowSeconds as real)
    }

    constructor (maxCalls: int := RateLimitCalls, windowSeconds: int := RateLimitWindow)
      ensures this.maxCalls == maxCalls && this.windowSeconds == windowSeconds
      ensures calls == [] && Valid()
    {
      this.maxCalls := maxCalls;
      this.windowSeconds := windowSeconds;
      calls := [];
    }

    /**
     * `wait_if_needed`: drop the calls that left the window at `now`; if
     * `maxCalls` or more remain, wait until the oldest leaves it; record the
     * call at `later`, the clock reading taken after any wait.
     */
    method WaitIfNeeded(now: real, later: real) returns (w: Wait)
      modifies this
      ensures var kept := Prune(old(calls), now, windowSeconds as real);
        && (w.IndexError? <==> |kept| >= maxCalls && kept == [])
        && (w.IndexError? ==> calls == kept)
        && (!w.IndexError? ==> calls == kept + [later])
        && (w.Sleep? <==> |kept| >= maxCalls && kept != [] && windowSeconds as real - (now - kept[0]) > 0.0)
        && (w.Sleep? ==> w.seconds == windowSeconds as real - (now - kept[0]))
      ensures old(Valid()) && 1 <= maxCalls && 0 < windowSeconds
              && (forall t :: t in old(calls) ==> t <= now)
              && now + (if w.Sleep? then w.seconds else 0.0) <= later
              ==> Valid()
    {
      var window := windowSeconds as real;
      ghost var before := calls;
      calls := Prune(calls, now, window);
      if |calls| >= maxCalls {
        if calls == [] {
          return IndexError;
        }
        var sleepTime := window - (now - calls[0]);
        if sleepTime > 0.0 {
          w := Sleep(sleepTime);
        } else {
          w := NoWait;
        }
      } else {
        w := NoWait;
      }
      if Sorted(before) && WindowOk(before, maxCalls, window) && 1 <= maxCalls && 0.0 < window
         && (forall t :: t in before ==> t <= now)
         && now + (if w.Sleep? then w.seconds else 0.0) <= later {
        RateBound(before, maxCalls, window, now, later);
      }
      calls := calls + [later];
    }
  }

  // =====================================================================
  // POST with retries

  /** The part of an HTTP answer the retry loop looks at. */
  datatype HttpResponse = HttpResponse(status: int, retryAfter: Option<string>)

  /** Rate-limited (429) or a server error (5xx and up): worth another attempt. */
  predicate Retryable(r: HttpResponse) {
    r.status == 429 || r.status >= 500
  }

  /** `raise_for_status` raises for client (4xx) and server (5xx) errors only. */
  predicate RaisesForStatus(status: int) {
    400 <= status < 600
  }


  /** The backoff delay in force at attempt `k` (counting from 0). */
  function Delay(baseDelay: int, k: nat): int {
    if k == 0 then baseDelay else MinInt(Delay(baseDelay, k - 1) * 2, MaxBackoff)
  }

  /** The sleep after a retryable answer: a decimal `Retry-After`, else the current delay. */
  function SleepFor(r: HttpResponse, delay: int): int {
    if r.retryAfter.Some? && IsDecimal(r.retryAfter.value) then Parse(r.retryAfter.value, 10) else delay
  }

  function Pow2(k: nat): (p: nat)
    ensures p >= 1
  {
    if k == 0 then 1 else 2 * Pow2(k - 1)
  }

  /** With a base delay in [0, 60], the delay doubles from attempt to attempt until it is capped at 60. */
  lemma {:induction false} DelayDoublesToCap(baseDelay: int, k: nat)
    requires 0 <= baseDelay <= MaxBackoff
    ensures Delay(baseDelay, k) == MinInt(baseDelay * Pow2(k), MaxBackoff)
  {
    if k > 0 {
      DelayDoublesToCap(baseDelay, k - 1);
      assert baseDelay * Pow2(k) == 2 * (baseDelay * Pow2(k - 1));
    }
  }

  /** With a base delay in [0, 60] the delay never shrinks and never exceeds 60. */
  lemma DelayMonotone(baseDelay: int, k: nat)
    requires 0 <= baseDelay <= MaxBackoff
    ensures 0 <= Delay(baseDelay, k) <= Delay(baseDelay, k + 1) <= MaxBackoff
  {
    DelayDoublesToCap(baseDelay, k);
    DelayDoublesToCap(baseDelay, k + 1);
  }

  /** Any non-negative base: the delay stays within [0, max(base, 60)]; above 60 it drops to 60 at once. */
  lemma {:induction false} DelayBounded(baseDelay: int, k: nat)
    requires 0 <= baseDelay
    ensures 0 <= Delay(baseDelay, k) <= MaxInt(baseDelay, MaxBackoff)
    ensures k >= 1 && baseDelay > MaxBackoff ==> Delay(baseDelay, k) == MaxBackoff
  {
    if k > 0 {
      DelayBounded(baseDelay, k - 1);
    }
  }

  /** A `Retry-After` value the loop honours is read back exactly as the server wrote the number. */
  lemma RetryAfterRoundTrip(n: nat, delay: int)
    ensures SleepFor(HttpResponse(429, Some(Render(n, 10))), delay) == n
  {
    ParseRender(n, 10);
  }

  /** How `post_json_with_retries_optimized` ends. */
  datatype PostOutcome =
    | Returned(response: HttpResponse)   // an answer handed back to the caller
    | HttpError(status: int)             // `raise_for_status` on the last answer
    | SleepError                         // `time.sleep` of a negative duration
    | Unbound                            // no attempt made: `r` unbound after the loop

  /**
   * `post_json_with_retries_optimized`: `answers[i]` is what the server
   * answers to attempt `i`. Returns the outcome, the number of requests
   * made and the sleeps performed, in order.
   */
  method PostJsonWithRetries(answers: seq<HttpResponse>, maxRetries: int, baseDelay: int)
    returns (outcome: PostOutcome, attempts: nat, sleeps: seq<int>)
    requires maxRetries <= |answers|
    ensures attempts <= MaxInt(maxRetries, 0) && |sleeps| <= attempts <= |sleeps| + 1
    ensures forall j :: 0 <= j < attempts - 1 ==> Retryable(answers[j])
    ensures forall j :: 0 <= j < |sleeps| ==>
      Retryable(answers[j]) && sleeps[j] == SleepFor(answers[j], Delay(baseDelay, j)) && sleeps[j] >= 0
    ensures outcome.Unbound? <==> maxRetries <= 0
    ensures outcome.Unbound? ==> attempts == 0
    ensures outcome.Returned? && |sleeps| < attempts ==>
      outcome.response == answers[attempts - 1] && !Retryable(outcome.response)
    ensures outcome.Returned? && |sleeps| == attempts ==>
      attempts == maxRetries && outcome.response == answers[attempts - 1]
      && !RaisesForStatus(outcome.response.status)
    ensures outcome.HttpError? ==>
      attempts == maxRetries == |sleeps| && outcome.status == answers[attempts - 1].status
      && RaisesForStatus(outcome.status)
    ensures outcome.SleepError? ==>
      attempts == |sleeps| + 1 && Retryable(answers[attempts - 1])
      && SleepFor(answers[attempts - 1], Delay(baseDelay, attempts - 1)) < 0
  {
    var delay := baseDelay;
    var r: Option<HttpResponse> := None;
    attempts := 0;
    sleeps := [];
    for attempt := 0 to MaxInt(maxRetries, 0)
      invariant attempts == attempt == |sleeps|
      invariant delay == Delay(baseDelay, attempt)
      invariant r.None? <==> attempt == 0
      invariant r.Some? ==> r.value == answers[attempt - 1]
      invariant forall j :: 0 <= j < |sleeps| ==>
        Retryable(answers[j]) && sleeps[j] == SleepFor(answers[j], Delay(baseDelay, j)) && sleeps[j] >= 0
    {
      r := Some(answers[attempt]);
      attempts := attempts + 1;
      if !Retryable(r.value) {
        return Returned(r.value), attempts, sleeps;
      }
      var sleepSeconds := SleepFor(r.value, delay);
      if sleepSeconds < 0 {
        return SleepError, attempts, sleeps;
      }
      sleeps := sleeps + [sleepSeconds];
      delay := MinInt(delay * 2, MaxBackoff);
    }
    if r.None? {
      outcome := Unbound;
    } else if RaisesForStatus(r.value.status) {
      outcome := HttpError(r.value.status);
    } else {
      outcome := Returned(r.value);
    }
  }

  /** With a sane base delay every sleep is bounded by 60 s or by the server's own `Retry-After`. */
  lemma SleepBounded(r: HttpResponse, baseDelay: int, k: nat)
    requires 0 <= baseDelay <= MaxBackoff
    ensures var s := SleepFor(r, Delay(baseDelay, k));
      0 <= s && (s <= MaxBackoff || (r.retryAfter.Some? && IsDecimal(r.retryAfter.value)))
  {
    DelayMonotone(baseDelay, k);
  }

  // =====================================================================
  // Scene search results

  /** A parsed JSON value as Python's `json` module hands it over. */
  datatype Json =
    | JNull
    | JBool(b: bool)
    | JNum(n: real)
    | JStr(s: string)
    | JArr(items: seq<Json>)
    | JObj(fields: map<string, Json>)

  /** Python truthiness of a JSON value. */
  predicate Truthy(j: Json) {
    match j
    case JNull => false
    case JBool(b) => b
    case JNum(n) => n != 0.0
    case JStr(s) => s != ""
    case JArr(items) => items != []
    case JObj(fields) => fields != map[]
  }

  /** `d.get(key)`: None (JSON null) for a missing key. */
  function Get(fields: map<string, Json>, key: string): Json {
    if key in fields then fields[key] else JNull
  }

  /**
   * `float(x)` of a JSON value: None where Python raises TypeError (null,
   * lists, dicts) or ValueError (a string `parseFloat` rejects).
   */
  function ToFloat(j: Json, parseFloat: string -> Option<real>): Option<real> {
    match j
    case JNull => None
    case JBool(b) => Some(if b then 1.0 else 0.0)
    case JNum(n) => Some(n)
    case JStr(s) => parseFloat(s)
    case JArr(_) => None
    case JObj(_) => None
  }

  datatype Scene = Scene(videoNo: Json, videoName: Json, start: real, end: real, duration: Option<real>)

  datatype SearchError =
    | AttributeError   // an entry of `videos` is not a dict
    | ConversionError  // `float(v["duration"])` failed: it sits outside the try

  datatype SearchResult = Found(scenes: seq<Scene>) | Raised(error: SearchError)

  /** What one entry of `videos` contributes. */
  datatype EntryResult = Skip | Entry(scene: Scene) | Fails(error: SearchError)

  function ConvertEntry(v: Json, parseFloat: string -> Option<real>): EntryResult {
    if !v.JObj? then Fails(AttributeError)
    else
      var start := ToFloat(Get(v.fields, "fragmentStartTime"), parseFloat);
      var end := ToFloat(Get(v.fields, "fragmentEndTime"), parseFloat);
      if start.None? || end.None? then Skip
      else
        var d := Get(v.fields, "duration");
        if d.JNull? then Entry(Scene(Get(v.fields, "videoNo"), Get(v.fields, "videoName"), start.value, end.value, None))
        else
          var dur := ToFloat(d, parseFloat);
          if dur.None? then Fails(ConversionError)
          else Entry(Scene(Get(v.fields, "videoNo"), Get(v.fields, "videoName"), start.value, end.value, Some(dur.value)))
  }

  /** The loop of `find_scene` over `vs`, in the order it runs: stops at the first exception. */
  function CollectScenes(vs: seq<Json>, parseFloat: string -> Option<real>): SearchResult
    decreases |vs|
  {
    if vs == [] then Found([])
    else
      match CollectScenes(vs[..|vs| - 1], parseFloat)
      case Raised(e) => Raised(e)
      case Found(rs) =>
        match ConvertEntry(vs[|vs| - 1], parseFloat)
        case Skip => Found(rs)
        case Entry(s) => Found(rs + [s])
        case Fails(e) => Raised(e)
  }

  /** The scene an entry yields, if any. */
  function SceneOf(v: Json, parseFloat: string -> Option<real>): seq<Scene> {
    var c := ConvertEntry(v, parseFloat);
    if c.Entry? then [c.scene] else []
  }

  /** Once an entry raised, later entries change nothing. */
  lemma {:induction false} RaisedSticks(vs: seq<Json>, i: nat, parseFloat: string -> Option<real>)
    requires i <= |vs| && CollectScenes(vs[..i], parseFloat).Raised?
    ensures CollectScenes(vs, parseFloat) == CollectScenes(vs[..i], parseFloat)
    decreases |vs|
  {
    if i < |vs| {
      var init := vs[..|vs| - 1];
      assert init[..i] == vs[..i];
      RaisedSticks(init, i, parseFloat);
    } else {
      assert vs[..i] == vs;
    }
  }

  /** Reference reading of the loop: keep the convertible entries, front to back. */
  function Entries(vs: seq<Json>, parseFloat: string -> Option<real>): seq<Scene> {
    if vs == [] then [] else SceneOf(vs[0], parseFloat) + Entries(vs[1..], parseFloat)
  }

  predicate NoEntryFails(vs: seq<Json>, parseFloat: string -> Option<real>) {
    forall i :: 0 <= i < |vs| ==> !ConvertEntry(vs[i], parseFloat).Fails?
  }

  lemma {:induction false} EntriesAppend(vs: seq<Json>, v: Json, parseFloat: string -> Option<real>)
    ensures Entries(vs + [v], parseFloat) == Entries(vs, parseFloat) + SceneOf(v, parseFloat)
    decreases |vs|
  {
    if vs == [] {
      assert [v][1..] == [];
    } else {
      assert (vs + [v])[1..] == vs[1..] + [v];
      EntriesAppend(vs[1..], v, parseFloat);
    }
  }

  /**
   * The loop raises exactly when some entry fails; otherwise it returns the
   * convertible entries in order, and never more than it was given.
   */
  lemma {:induction false} CollectScenesMeaning(vs: seq<Json>, parseFloat: string -> Option<real>)
    ensures CollectScenes(vs, parseFloat).Found? <==> NoEntryFails(vs, parseFloat)
    ensures CollectScenes(vs, parseFloat).Found? ==>
      CollectScenes(vs, parseFloat).scenes == Entries(vs, parseFloat)
      && |CollectScenes(vs, parseFloat).scenes| <= |vs|
    decreases |vs|
  {
    if vs != [] {
      var init := vs[..|vs| - 1];
      var last := vs[|vs| - 1];
      CollectScenesMeaning(init, parseFloat);
      assert vs == init + [last];
      EntriesAppend(init, last, parseFloat);
      if NoEntryFails(vs, parseFloat) {
        assert NoEntryFails(init, parseFloat) by {
          forall i | 0 <= i < |init| ensures !ConvertEntry(init[i], parseFloat).Fails? {
            assert init[i] == vs[i];
          }
        }
      } else {
        var i :| 0 <= i < |vs| && ConvertEntry(vs[i], parseFloat).Fails?;
        if i < |init| {
          assert init[i] == vs[i];
        }
      }
    }
  }

  /** Python's `videos[:m]`: a negative `m` counts from the end. */
  function SliceTo<T>(s: seq<T>, m: int): (r: seq<T>)
    ensures m >= 0 ==> |r| == MinInt(m, |s|)
    ensures m < 0 ==> |r| == MaxInt(|s| + m, 0)
    ensures r == s[..|r|]
  {
    if m >= 0 then (if m <= |s| then s[..m] else s)
    else if |s| + m > 0 then s[..|s| + m]
    else []
  }

  /** The list `find_scene` iterates over: `data.videos` when the response has that shape, else none. */
  function VideosOf(body: Option<Json>): seq<Json> {
    if body.None? || !body.value.JObj? then []
    else if "data" !in body.value.fields || !body.value.fields["data"].JObj? then []
    else
      var videos := if Truthy(Get(body.value.fields["data"].fields, "videos"))
                    then Get(body.value.fields["data"].fields, "videos") else JArr([]);
      if !videos.JArr? then [] else videos.items
  }

  /**
   * `find_scene` after the request: `body` is the decoded JSON (None when
   * it is not JSON), `parseFloat` is `float` on strings.
   */
  method FindScene(body: Option<Json>, maxResults: int, parseFloat: string -> Option<real>)
    returns (result: SearchResult)
    ensures result == CollectScenes(SliceTo(VideosOf(body), maxResults), parseFloat)
    ensures result.Found? && maxResults >= 0 ==> |result.scenes| <= maxResults
    ensures VideosOf(body) == [] ==> result == Found([])
  {
    var videos := SliceTo(VideosOf(body), maxResults);
    var results: seq<Scene> := [];
    var i := 0;
    while i < |videos|
      invariant 0 <= i <= |videos|
      invariant CollectScenes(videos[..i], parseFloat) == Found(results)
    {
      assert videos[..i + 1][..i] == videos[..i];
      match ConvertEntry(videos[i], parseFloat) {
        case Skip =>
        case Entry(s) =>
          results := results + [s];
        case Fails(e) =>
          assert CollectScenes(videos[..i + 1], parseFloat) == Raised(e);
          RaisedSticks(videos, i + 1, parseFloat);
          return Raised(e);
      }
      i := i + 1;
    }
    assert videos[..i] == videos;
    CollectScenesMeaning(videos, parseFloat);
    result := Found(results);
  }

  // =====================================================================
  // Authorization header

  datatype HeaderResult = Headers(headers: map<string, string>) | MissingKey(message: string)

  /** `_headers`: the key from the environment, refused when unset, empty or the placeholder. */
  function AuthHeaders(apiKey: Option<string>): (r: HeaderResult)
    ensures r.MissingKey? <==> apiKey.None? || apiKey.value == "" || apiKey.value == PlaceholderKey
    ensures r.Headers? ==> r.headers.Keys == {"Authorization"} && r.headers["Authorization"] == apiKey.value
  {
    if apiKey.None? || apiKey.value == "" || apiKey.value == PlaceholderKey then
      MissingKey("Set MEMORIES_API_KEY env var or paste your API key into API_KEY.")
    else Headers(map["Authorization" := apiKey.value])
  }
}
