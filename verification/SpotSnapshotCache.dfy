/** One cached market snapshot behind a circuit breaker. Times are instants of one clock, in seconds. */
module SpotSnapshotCache {
  import opened Results

  datatype Fetch<F> = Fetched(frame: F) | Failing(message: string)

  datatype SnapshotError = BreakerOpen | Upstream(message: string)

  datatype Config = Config(ttlSeconds: int, failureThreshold: int, openSeconds: int)

  datatype State<F> = State(frame: Option<F>, expiresAt: Option<int>, failures: int, breakerUntil: Option<int>)

  predicate IsOpen<F>(s: State<F>, now: int) {
    s.breakerUntil.Some? && now < s.breakerUntil.value
  }

  predicate IsFresh<F>(s: State<F>, now: int) {
    s.frame.Some? && s.expiresAt.Some? && now < s.expiresAt.value
  }

  /** The fetcher is consulted only when the breaker lets the call through and nothing fresh is cached. */
  predicate Consults<F>(s: State<F>, now: int) {
    !IsOpen(s, now) && !IsFresh(s, now)
  }

  function NextState<F>(c: Config, s: State<F>, now: int, fetch: Fetch<F>): State<F> {
    if !Consults(s, now) then s
    else
      match fetch
      case Fetched(frame) => State(Some(frame), Some(now + c.ttlSeconds), 0, None)
      case Failing(_) =>
        s.(failures := s.failures + 1,
           breakerUntil := if s.failures + 1 >= c.failureThreshold then Some(now + c.openSeconds) else s.breakerUntil)
  }

  function Answer<F>(s: State<F>, now: int, fetch: Fetch<F>): Result<F, SnapshotError> {
    if IsOpen(s, now) then Raised(BreakerOpen)
    else if IsFresh(s, now) then Ok(s.frame.value)
    else
      match fetch
      case Fetched(frame) => Ok(frame)
      case Failing(message) => Raised(Upstream(message))
  }

  class Cache<F> {
    const config: Config
    var frame: Option<F>
    var expiresAt: Option<int>
    var failures: int
    var breakerUntil: Option<int>

    constructor (config: Config)
      ensures this.config == config && Value() == Empty()
    {
      this.config := config;
      frame, expiresAt, failures, breakerUntil := None, None, 0, None;
    }

    function Value(): State<F>
      reads this
    {
      State(frame, expiresAt, failures, breakerUntil)
    }

    /** `fetch` is what the fetcher would do if it were called now. */
    method GetFrame(now: int, fetch: Fetch<F>) returns (r: Result<F, SnapshotError>)
      modifies this
      ensures r == Answer(old(Value()), now, fetch)
      ensures Value() == NextState(config, old(Value()), now, fetch)
    {
      if breakerUntil.Some? && now < breakerUntil.value {
        return Raised(BreakerOpen);
      }
      if frame.Some? && expiresAt.Some? && now < expiresAt.value {
        return Ok(frame.value);
      }
      if fetch.Failing? {
        failures := failures + 1;
        if failures >= config.failureThreshold {
          breakerUntil := Some(now + config.openSeconds);
        }
        return Raised(Upstream(fetch.message));
      }
      frame := Some(fetch.frame);
      expiresAt := Some(now + config.ttlSeconds);
      failures := 0;
      breakerUntil := None;
      r := Ok(fetch.frame);
    }
  }

  // Whole runs ----------------------------------------------------------------------------------------------------

  datatype Call<F> = Call(now: int, fetch: Fetch<F>)

  function Empty<F>(): State<F> {
    State(None, None, 0, None)
  }

  function Run<F>(c: Config, calls: seq<Call<F>>): State<F> {
    if calls == [] then Empty()
    else NextState(c, Run(c, calls[..|calls| - 1]), calls[|calls| - 1].now, calls[|calls| - 1].fetch)
  }

  function Answered<F>(c: Config, calls: seq<Call<F>>, i: nat): Result<F, SnapshotError>
    requires i < |calls|
  {
    Answer(Run(c, calls[..i]), calls[i].now, calls[i].fetch)
  }

  ghost predicate ClockRuns<F>(calls: seq<Call<F>>) {
    forall i, j :: 0 <= i < j < |calls| ==> calls[i].now <= calls[j].now
  }

  /** When the fetcher failed since it last succeeded, oldest first. */
  function FailureTimes<F>(c: Config, calls: seq<Call<F>>): seq<int> {
    if calls == [] then []
    else
      var before := calls[..|calls| - 1];
      var last := calls[|calls| - 1];
      if !Consults(Run(c, before), last.now) then FailureTimes(c, before)
      else if last.fetch.Fetched? then []
      else FailureTimes(c, before) + [last.now]
  }

  /** A threshold below one trips on the first failure like a threshold of one. */
  function Tripping(c: Config): int {
    if c.failureThreshold >= 1 then c.failureThreshold else 1
  }

  ghost predicate Spaced(c: Config, times: seq<int>) {
    forall i :: Tripping(c) <= i < |times| ==> times[i - 1] + c.openSeconds <= times[i]
  }

  ghost predicate Tracks<F>(c: Config, s: State<F>, times: seq<int>) {
    && s.failures == |times|
    && s.breakerUntil == (if |times| >= Tripping(c) then Some(times[|times| - 1] + c.openSeconds) else None)
    && (times != [] && s.frame.Some? && s.expiresAt.Some? ==> s.expiresAt.value <= times[|times| - 1])
  }

  /**
    The breaker is set exactly when the consecutive failures have reached the threshold, until open_seconds after the
    last of them; and from the threshold on, failures come at least open_seconds apart.
   */
  lemma {:induction false} BreakerCountsFailures<F>(c: Config, calls: seq<Call<F>>)
    requires ClockRuns(calls)
    ensures Tracks(c, Run(c, calls), FailureTimes(c, calls)) && Spaced(c, FailureTimes(c, calls))
    ensures forall t :: t in FailureTimes(c, calls) ==> t <= calls[|calls| - 1].now
  {
    if calls != [] {
      var n := |calls| - 1;
      BreakerCountsFailures(c, calls[..n]);
      if n > 0 {
        assert calls[..n][n - 1].now <= calls[n].now;
      }
    }
  }

  lemma {:induction false} SpacingAddsUp(c: Config, times: seq<int>, m: nat, n: nat)
    requires Spaced(c, times) && Tripping(c) <= m <= n <= |times|
    ensures times[m - 1] + (n - m) * c.openSeconds <= times[n - 1]
    decreases n
  {
    if m < n {
      SpacingAddsUp(c, times, m, n - 1);
      assert (n - m) * c.openSeconds == (n - 1 - m) * c.openSeconds + c.openSeconds;
    }
  }

  /** The n-th consecutive failure comes no earlier than the threshold-th plus (n - threshold) x open_seconds. */
  lemma FailuresAreThrottled<F>(c: Config, calls: seq<Call<F>>, n: nat)
    requires ClockRuns(calls) && Tripping(c) <= n <= |FailureTimes(c, calls)|
    ensures var times := FailureTimes(c, calls);
            times[Tripping(c) - 1] + (n - Tripping(c)) * c.openSeconds <= times[n - 1]
  {
    BreakerCountsFailures(c, calls);
    SpacingAddsUp(c, FailureTimes(c, calls), Tripping(c), n);
  }

  /**
    A call is refused exactly while the consecutive failures have reached the threshold and the last of them is less
    than open_seconds ago; from then on the fetcher is tried again.
   */
  lemma RefusedIffRecentlyTripped<F>(c: Config, calls: seq<Call<F>>, now: int, fetch: Fetch<F>)
    requires ClockRuns(calls)
    ensures var times := FailureTimes(c, calls);
            Answer(Run(c, calls), now, fetch) == Raised(BreakerOpen) <==>
              times != [] && |times| >= c.failureThreshold && now < times[|times| - 1] + c.openSeconds
  {
    BreakerCountsFailures(c, calls);
  }

  /** Every frame handed out is fresh or just fetched, and a fresh one is handed out without asking the fetcher. */
  lemma FreshFrameIsAnswered<F>(c: Config, calls: seq<Call<F>>, now: int, fetch: Fetch<F>) returns (j: nat)
    requires ClockRuns(calls) && (calls != [] ==> calls[|calls| - 1].now <= now) && Run(c, calls).frame.Some?
    ensures LastFetch(c, calls, j, Run(c, calls).frame.value)
    ensures now < calls[j].now + c.ttlSeconds ==>
              && Answer(Run(c, calls), now, fetch) == Ok(Run(c, calls).frame.value)
              && NextState(c, Run(c, calls), now, fetch) == Run(c, calls)
    ensures now >= calls[j].now + c.ttlSeconds && Answer(Run(c, calls), now, fetch) != Raised(BreakerOpen) ==>
              Answer(Run(c, calls), now, fetch)
                == match fetch case Fetched(frame) => Ok(frame) case Failing(message) => Raised(Upstream(message))
  {
    j := CachedFrameWasFetched(c, calls);
    OpenBreakerHidesNothing(c, calls, now, fetch);
  }

  /** The same cache with the two checks swapped. */
  function AnswerFreshFirst<F>(s: State<F>, now: int, fetch: Fetch<F>): Result<F, SnapshotError> {
    if IsFresh(s, now) then Ok(s.frame.value)
    else if IsOpen(s, now) then Raised(BreakerOpen)
    else
      match fetch
      case Fetched(frame) => Ok(frame)
      case Failing(message) => Raised(Upstream(message))
  }

  /** An open breaker means nothing cached is fresh, so looking at the breaker first never hides a fresh frame. */
  lemma {:induction false} OpenBreakerHidesNothing<F>(c: Config, calls: seq<Call<F>>, now: int, fetch: Fetch<F>)
    requires ClockRuns(calls) && (calls != [] ==> calls[|calls| - 1].now <= now)
    ensures !(IsOpen(Run(c, calls), now) && IsFresh(Run(c, calls), now))
    ensures Answer(Run(c, calls), now, fetch) == AnswerFreshFirst(Run(c, calls), now, fetch)
  {
    BreakerCountsFailures(c, calls);
    var times := FailureTimes(c, calls);
    if times != [] {
      assert times[|times| - 1] in times;
    }
  }

  /** Call `j` fetched `frame`, and nothing was fetched after it up to call `i`. */
  ghost predicate LastFetch<F>(c: Config, calls: seq<Call<F>>, j: nat, frame: F) {
    && j < |calls| && Consults(Run(c, calls[..j]), calls[j].now) && calls[j].fetch == Fetched(frame)
    && forall k :: j < k < |calls| && Consults(Run(c, calls[..k]), calls[k].now) ==> calls[k].fetch.Failing?
  }

  lemma LastFetchStays<F>(c: Config, calls: seq<Call<F>>, j: nat, frame: F)
    requires calls != [] && LastFetch(c, calls[..|calls| - 1], j, frame)
    requires Consults(Run(c, calls[..|calls| - 1]), calls[|calls| - 1].now) ==> calls[|calls| - 1].fetch.Failing?
    ensures LastFetch(c, calls, j, frame)
  {
    assert forall k :: 0 <= k < |calls| - 1 ==> calls[..|calls| - 1][..k] == calls[..k];
  }

  lemma {:induction false} CachedFrameWasFetched<F>(c: Config, calls: seq<Call<F>>) returns (j: nat)
    requires Run(c, calls).frame.Some?
    ensures LastFetch(c, calls, j, Run(c, calls).frame.value)
    ensures Run(c, calls).expiresAt == Some(calls[j].now + c.ttlSeconds)
  {
    var n := |calls| - 1;
    var before := calls[..n];
    if Consults(Run(c, before), calls[n].now) && calls[n].fetch.Fetched? {
      j := n;
    } else {
      j := CachedFrameWasFetched(c, before);
      LastFetchStays(c, calls, j, Run(c, calls).frame.value);
    }
  }

  /** Every frame handed out is the latest one fetched, either just now or less than ttl_seconds ago. */
  lemma AnswersAreRecentFetches<F>(c: Config, calls: seq<Call<F>>, i: nat) returns (j: nat)
    requires i < |calls| && Answered(c, calls, i).Ok?
    ensures j <= i && LastFetch(c, calls[..i + 1], j, Answered(c, calls, i).value)
    ensures j < i ==> calls[i].now < calls[j].now + c.ttlSeconds
  {
    var upTo := calls[..i + 1];
    assert upTo[..i] == calls[..i];
    var before := Run(c, calls[..i]);
    if Consults(before, calls[i].now) {
      j := i;
    } else {
      j := CachedFrameWasFetched(c, calls[..i]);
      assert forall k :: 0 <= k < i ==> upTo[..k] == calls[..i][..k];
    }
  }
}
