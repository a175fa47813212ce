// The upload program's error handling: the error log with its per-kind
// counters and summary, retry with exponential back-off, the circuit
// breaker, the registry of recovery strategies, and the handler that ties
// them together.  Clocks become parameters; the function being protected is
// represented by the outcome of each of its calls.
module ErrorHandling {
  import opened Common
  import opened Sequences
  import opened Counters

  /** An exception: its class name and its message. */
  datatype Failure = Failure(errorType: string, message: string)

  /** The record `log_error` keeps of an exception (the traceback is not kept). */
  datatype ErrorInfo = ErrorInfo(timestamp: string, errorType: string, message: string, context: map<string, string>)

  const MaxErrorHistory: nat := 100
  const SummaryLength: nat := 5

  /** The counter an error is tallied under: "type:message". */
  function ErrorKey(e: ErrorInfo): string { e.errorType + ":" + e.message }

  // ---------------------------------------------------------------------------
  // The history: the latest entries, oldest first.
  // ---------------------------------------------------------------------------

  /** The last `n` entries of `s` (all of them when there are fewer). */
  function Latest<T>(s: seq<T>, n: nat): (r: seq<T>)
    ensures |r| == if |s| <= n then |s| else n
    ensures r == s[|s| - |r|..]
  {
    if |s| <= n then s else s[|s| - n..]
  }

  /**
   * Appending an entry and dropping the oldest once the list is over `n`
   * keeps exactly the latest `n` entries.
   */
  lemma LatestStep<T>(s: seq<T>, x: T, n: nat)
    requires n >= 1
    ensures var h := Latest(s, n) + [x];
            Latest(s + [x], n) == if |h| > n then h[1..] else h
  {
    var h := Latest(s, n) + [x];
    var t := s + [x];
    if |h| > n {
      assert |s| >= n;
      assert h[1..] == t[|t| - n..];
    } else {
      assert |s| < n;
      assert h == t;
    }
  }

  /** The latest five of the latest hundred are the latest five. */
  lemma LatestOfLatest<T>(s: seq<T>, m: nat, n: nat)
    requires n <= m
    ensures Latest(Latest(s, m), n) == Latest(s, n)
  {
  }

  // ---------------------------------------------------------------------------
  // The summary.
  // ---------------------------------------------------------------------------

  datatype ErrorSummary = ErrorSummary(
    totalErrors: nat,
    uniqueErrors: nat,
    mostCommon: seq<(string, nat)>,
    recent: seq<ErrorInfo>)

  /** `error_counts.items()`, in the dictionary's order. */
  function Items(o: seq<string>, m: map<string, nat>): (r: seq<(string, nat)>)
    ensures |r| == |o|
    ensures forall i :: 0 <= i < |o| ==> r[i] == (o[i], Get(m, o[i]))
  {
    seq(|o|, i requires 0 <= i < |o| => (o[i], Get(m, o[i])))
  }

  function CountOf(p: (string, nat)): real { p.1 as real }

  /** `get_error_summary` over the history, the counters and the counters' key order. */
  function SummaryOf(history: seq<ErrorInfo>, counts: map<string, nat>, order: seq<string>): ErrorSummary {
    ErrorSummary(|history|, |counts|, Take(SortDesc(Items(order, counts), CountOf), SummaryLength as int),
                 Latest(history, SummaryLength))
  }

  /** What the summary says about the hundred latest errors and the counters. */
  lemma SummaryTotals(s: seq<ErrorInfo>)
    ensures var r := SummaryOf(Latest(s, MaxErrorHistory), Tally(s, ErrorKey), KeyOrder(s, ErrorKey));
      && r.totalErrors == (if |s| <= MaxErrorHistory then |s| else MaxErrorHistory)
      && r.uniqueErrors == |KeyOrder(s, ErrorKey)|
      && |r.recent| == (if |s| <= SummaryLength then |s| else SummaryLength)
      && r.recent == s[|s| - |r.recent|..]
  {
    var h := Latest(s, MaxErrorHistory);
    var r := SummaryOf(h, Tally(s, ErrorKey), KeyOrder(s, ErrorKey));
    assert r.totalErrors == |h| && r.uniqueErrors == |Tally(s, ErrorKey)| && r.recent == Latest(h, SummaryLength);
    TallyKeys(s, ErrorKey);
    LatestOfLatest(s, MaxErrorHistory, SummaryLength);
  }

  /**
   * The most common errors: at most five, by non-increasing count, each with
   * its true count, and no key left out was seen more often than one kept.
   */
  lemma MostCommon(s: seq<ErrorInfo>)
    ensures var top := SummaryOf(Latest(s, MaxErrorHistory), Tally(s, ErrorKey), KeyOrder(s, ErrorKey)).mostCommon;
      && |top| <= SummaryLength
      && SortedDesc(top, CountOf)
      && (forall p :: p in top ==> p.0 in KeyOrder(s, ErrorKey) && p.1 == Occurrences(s, ErrorKey, p.0) >= 1)
      && (forall key, p :: key in KeyOrder(s, ErrorKey) && (key, Occurrences(s, ErrorKey, key)) !in top && p in top
            ==> p.1 >= Occurrences(s, ErrorKey, key))
  {
    var items := Items(KeyOrder(s, ErrorKey), Tally(s, ErrorKey));
    assert SummaryOf(Latest(s, MaxErrorHistory), Tally(s, ErrorKey), KeyOrder(s, ErrorKey)).mostCommon == TopErrors(s);
    TopSorted(items, CountOf, SummaryLength as int);
    TopErrorsCounted(s);
    TopErrorsLargest(s);
  }

  /** The entries `get_error_summary` lists as most common. */
  function TopErrors(s: seq<ErrorInfo>): seq<(string, nat)> {
    Take(SortDesc(Items(KeyOrder(s, ErrorKey), Tally(s, ErrorKey)), CountOf), SummaryLength as int)
  }

  /** Each listed entry is a logged key with its number of occurrences. */
  lemma TopErrorsCounted(s: seq<ErrorInfo>)
    ensures forall p :: p in TopErrors(s) ==> p.0 in KeyOrder(s, ErrorKey) && p.1 == Occurrences(s, ErrorKey, p.0) >= 1
  {
    var items := Items(KeyOrder(s, ErrorKey), Tally(s, ErrorKey));
    var top := TopErrors(s);
    TopKept(items, CountOf, SummaryLength as int);
    forall p | p in top
      ensures p.0 in KeyOrder(s, ErrorKey) && p.1 == Occurrences(s, ErrorKey, p.0) >= 1
    {
      assert p in multiset(items);
      var i :| 0 <= i < |items| && items[i] == p;
      ItemCounted(s, i);
    }
  }

  /** No key left out of the list occurred more often than one listed. */
  lemma TopErrorsLargest(s: seq<ErrorInfo>)
    ensures forall key: string, p: (string, nat) ::
      key in KeyOrder(s, ErrorKey) && (key, Occurrences(s, ErrorKey, key)) !in TopErrors(s) && p in TopErrors(s)
      ==> p.1 >= Occurrences(s, ErrorKey, key)
  {
    var items: seq<(string, nat)> := Items(KeyOrder(s, ErrorKey), Tally(s, ErrorKey));
    var top := TopErrors(s);
    TopLargest(items, CountOf, SummaryLength as int);
    forall key: string, p: (string, nat) | key in KeyOrder(s, ErrorKey) && (key, Occurrences(s, ErrorKey, key)) !in top && p in top
      ensures p.1 >= Occurrences(s, ErrorKey, key)
    {
      var i :| 0 <= i < |KeyOrder(s, ErrorKey)| && KeyOrder(s, ErrorKey)[i] == key;
      ItemCounted(s, i);
      var x := items[i];
      assert x in multiset(items);
      assert x !in multiset(top);
      assert x in multiset(items) - multiset(top);
    }
  }

  /** Each listed counter is the number of occurrences of its key, at least one. */
  lemma ItemCounted(s: seq<ErrorInfo>, i: nat)
    requires i < |KeyOrder(s, ErrorKey)|
    ensures var p := Items(KeyOrder(s, ErrorKey), Tally(s, ErrorKey))[i];
      p.0 == KeyOrder(s, ErrorKey)[i] && p.1 == Occurrences(s, ErrorKey, p.0) >= 1
  {
    var key := KeyOrder(s, ErrorKey)[i];
    TallyKey(s, ErrorKey, key);
    TallyKeys(s, ErrorKey);
    TallyGet(s, ErrorKey);
  }

  /** The history and the counters are those of the errors logged so far. */
  ghost predicate Summarises(history: seq<ErrorInfo>, counts: map<string, nat>, order: seq<string>, logged: seq<ErrorInfo>) {
    history == Latest(logged, MaxErrorHistory) && counts == Tally(logged, ErrorKey) && order == KeyOrder(logged, ErrorKey)
  }

  /** The history after one more entry: appended, the oldest dropped once over the limit. */
  function Remembered(history: seq<ErrorInfo>, info: ErrorInfo): seq<ErrorInfo> {
    if |history + [info]| > MaxErrorHistory then (history + [info])[1..] else history + [info]
  }

  /**
   * Logging one more error: the history gains it at the end and loses its
   * oldest entry once over the limit, only the error's own counter moves, and
   * a new kind is listed last.
   */
  lemma LoggedOneMore(history: seq<ErrorInfo>, counts: map<string, nat>, order: seq<string>,
                      logged: seq<ErrorInfo>, info: ErrorInfo)
    requires Summarises(history, counts, order, logged)
    ensures ErrorKey(info) in counts <==> ErrorKey(info) in order
    ensures |history| <= MaxErrorHistory
    ensures Summarises(Remembered(history, info), counts[ErrorKey(info) := Get(counts, ErrorKey(info)) + 1],
                       if ErrorKey(info) in order then order else order + [ErrorKey(info)], logged + [info])
  {
    TallyKey(logged, ErrorKey, ErrorKey(info));
    TallySnoc(logged, ErrorKey, info);
    LatestStep(logged, info, MaxErrorHistory);
    assert Latest(logged + [info], MaxErrorHistory) == Remembered(history, info);
  }

  /**
   * `ErrorHandler`: the latest hundred errors and a counter per kind.
   * `logged` is every error ever logged, which the history and counters summarise.
   */
  class ErrorLog {
    var history: seq<ErrorInfo>
    var errorCounts: map<string, nat>
    var keyOrder: seq<string>
    ghost var logged: seq<ErrorInfo>

    ghost predicate Valid()
      reads this
    {
      Summarises(history, errorCounts, keyOrder, logged)
    }

    constructor ()
      ensures Valid() && logged == []
    {
      history, errorCounts, keyOrder := [], map[], [];
      logged := [];
    }

    /** `log_error`: the record is appended to the history, and its kind's counter is incremented. */
    method LogError(now: string, failure: Failure, context: map<string, string>) returns (info: ErrorInfo)
      requires Valid()
      modifies this
      ensures Valid()
      ensures info == ErrorInfo(now, failure.errorType, failure.message, context)
      ensures logged == old(logged) + [info]
      ensures |history| <= MaxErrorHistory && history[|history| - 1] == info
    {
      info := ErrorInfo(now, failure.errorType, failure.message, context);
      var key := ErrorKey(info);
      ghost var all := logged + [info];
      ghost var h := Remembered(history, info);
      ghost var c := errorCounts[key := Get(errorCounts, key) + 1];
      ghost var o := if key in keyOrder then keyOrder else keyOrder + [key];
      LoggedOneMore(history, errorCounts, keyOrder, logged, info);
      assert Summarises(h, c, o, all);
      Count(key);
      Remember(info);
      logged := all;
      assert history == h && errorCounts == c && keyOrder == o;
    }

    /** The history update of `log_error`: append, then drop the oldest once over the limit. */
    method Remember(info: ErrorInfo)
      requires |history| <= MaxErrorHistory
      modifies this
      ensures history == Remembered(old(history), info)
      ensures |history| <= MaxErrorHistory && history[|history| - 1] == info
      ensures errorCounts == old(errorCounts) && keyOrder == old(keyOrder) && logged == old(logged)
    {
      history := history + [info];
      if |history| > MaxErrorHistory {
        history := history[1..];
      }
    }

    /** The counter update of `log_error`: a new key is inserted after the existing ones. */
    method Count(key: string)
      requires key in errorCounts <==> key in keyOrder
      modifies this
      ensures errorCounts == old(errorCounts)[key := Get(old(errorCounts), key) + 1]
      ensures keyOrder == if key in old(keyOrder) then old(keyOrder) else old(keyOrder) + [key]
      ensures history == old(history) && logged == old(logged)
    {
      if key !in errorCounts {
        keyOrder := keyOrder + [key];
      }
      errorCounts := errorCounts[key := Get(errorCounts, key) + 1];
    }

    /** `get_error_summary`. */
    function Summary(): (r: ErrorSummary)
      reads this
      ensures r.totalErrors == |history| && r.uniqueErrors == |errorCounts|
      ensures |r.mostCommon| <= SummaryLength && SortedDesc(r.mostCommon, CountOf)
      ensures r.recent == Latest(history, SummaryLength)
    {
      TopEntries(Items(keyOrder, errorCounts), CountOf, SummaryLength as int);
      SummaryOf(history, errorCounts, keyOrder)
    }
  }

  // ---------------------------------------------------------------------------
  // Retry with exponential back-off.
  // ---------------------------------------------------------------------------

  function Power(b: real, k: nat): real { if k == 0 then 1.0 else b * Power(b, k - 1) }

  /** What one retried run did: its result, how many calls it made, and the waits between them. */
  datatype RetryRun<V> = RetryRun(result: Result<V, Failure>, calls: nat, waits: seq<real>)

  /**
   * The run from attempt `attempt` on, where `call(k)` is the outcome of the
   * k-th call: a success is returned, an exception outside `retryable` or on
   * the last attempt is raised, and any other exception is followed by a wait
   * of `delay * backoff^attempt` and the next attempt.
   */
  function RetryFrom<V>(call: nat -> Result<V, Failure>, retryable: Failure -> bool, maxRetries: nat,
                        delay: real, backoff: real, attempt: nat): (r: RetryRun<V>)
    requires attempt <= maxRetries
    ensures attempt < r.calls <= maxRetries + 1
    ensures r.result == call(r.calls - 1)
    ensures forall k :: attempt <= k < r.calls - 1 ==> call(k).Err? && retryable(call(k).error)
    ensures r.result.Err? && r.calls <= maxRetries ==> !retryable(r.result.error)
    ensures |r.waits| == r.calls - 1 - attempt
    ensures forall i :: 0 <= i < |r.waits| ==> r.waits[i] == delay * Power(backoff, attempt + i)
    decreases maxRetries - attempt
  {
    var outcome := call(attempt);
    if outcome.Ok? || !retryable(outcome.error) || attempt == maxRetries then RetryRun(outcome, attempt + 1, [])
    else
      var rest := RetryFrom(call, retryable, maxRetries, delay, backoff, attempt + 1);
      RetryRun(rest.result, rest.calls, [delay * Power(backoff, attempt)] + rest.waits)
  }

  /** The value of an optional setting, where a missing or zero value means the handler's own. */
  function OrReal(x: Option<real>, fallback: real): real { if TruthyReal(x) then x.value else fallback }
  function OrNat(x: Option<nat>, fallback: nat): nat { if x.Some? && x.value != 0 then x.value else fallback }

  const DefaultMaxRetries: nat := 3
  const DefaultDelay: real := 1.0
  const DefaultBackoff: real := 2.0

  /** `RetryHandler`: the default retry settings. */
  class RetryHandler {
    const maxRetries: nat
    const delay: real
    const backoff: real

    constructor (maxRetries: nat, delay: real, backoff: real)
      ensures this.maxRetries == maxRetries && this.delay == delay && this.backoff == backoff
    {
      this.maxRetries, this.delay, this.backoff := maxRetries, delay, backoff;
    }

    /**
     * The wrapper `retry_on_exception` builds, run once: settings given as
     * zero or not given fall back to the handler's.
     */
    method Run<V>(call: nat -> Result<V, Failure>, retryable: Failure -> bool,
                  maxRetriesArg: Option<nat>, delayArg: Option<real>, backoffArg: Option<real>)
      returns (run: RetryRun<V>)
      ensures run == RetryFrom(call, retryable, OrNat(maxRetriesArg, maxRetries), OrReal(delayArg, delay),
                               OrReal(backoffArg, backoff), 0)
    {
      run := RunRetries(call, retryable, OrNat(maxRetriesArg, maxRetries), OrReal(delayArg, delay),
                        OrReal(backoffArg, backoff));
    }
  }

  /** The attempt loop: call, return on success, otherwise wait and try again. */
  method RunRetries<V>(call: nat -> Result<V, Failure>, retryable: Failure -> bool, maxRetries: nat,
                       delay: real, backoff: real) returns (run: RetryRun<V>)
    ensures run == RetryFrom(call, retryable, maxRetries, delay, backoff, 0)
  {
    var waits: seq<real> := [];
    var attempt: nat := 0;
    while true
      invariant attempt <= maxRetries
      invariant var rest := RetryFrom(call, retryable, maxRetries, delay, backoff, attempt);
        RetryFrom(call, retryable, maxRetries, delay, backoff, 0) == rest.(waits := waits + rest.waits)
      decreases maxRetries - attempt
    {
      var outcome := call(attempt);
      if outcome.Ok? || !retryable(outcome.error) || attempt == maxRetries {
        return RetryRun(outcome, attempt + 1, waits);
      }
      var rest := RetryFrom(call, retryable, maxRetries, delay, backoff, attempt + 1);
      assert waits + [delay * Power(backoff, attempt)] + rest.waits == waits + ([delay * Power(backoff, attempt)] + rest.waits);
      waits := waits + [delay * Power(backoff, attempt)];
      attempt := attempt + 1;
    }
  }

  /** When every call fails with a retryable exception, all `maxRetries + 1` calls are made and the last one's exception is raised. */
  lemma AllAttemptsFail<V>(call: nat -> Result<V, Failure>, retryable: Failure -> bool, maxRetries: nat,
                           delay: real, backoff: real)
    requires forall k :: 0 <= k <= maxRetries ==> call(k).Err? && retryable(call(k).error)
    ensures var r := RetryFrom(call, retryable, maxRetries, delay, backoff, 0);
      r.calls == maxRetries + 1 && r.result == call(maxRetries) && |r.waits| == maxRetries
  {
  }

  // ---------------------------------------------------------------------------
  // The circuit breaker.
  // ---------------------------------------------------------------------------

  datatype BreakerState = Closed | Open | HalfOpen

  datatype Breaker = Breaker(failureThreshold: int, timeout: real, failureCount: nat,
                             lastFailureTime: Option<real>, state: BreakerState)

  /** What a call through the breaker gives: a refusal with the seconds left, a value, or the function's exception. */
  datatype BreakerOutcome<V> = Rejected(remaining: real) | Returned(value: V) | Raised(failure: Failure)

  /**
   * The breaker is open or half-open only after reaching its threshold, with
   * the time of the last failure known; while closed, failures stay under it.
   */
  predicate BreakerInvariant(b: Breaker) {
    && (b.state != Closed ==> b.failureCount >= b.failureThreshold && b.lastFailureTime.Some?)
    && (b.state == Closed ==> b.failureCount == 0 || b.failureCount < b.failureThreshold)
  }

  /** Open and still inside the timeout since the last failure. */
  predicate Blocks(b: Breaker, now: real) {
    b.state == Open && b.lastFailureTime.Some? && now - b.lastFailureTime.value < b.timeout
  }

  /** `on_success`. */
  function Succeeded(b: Breaker): Breaker {
    b.(failureCount := 0, state := if b.state == HalfOpen then Closed else b.state)
  }

  /** `on_failure`, with the failure stamped `at`. */
  function Failed(b: Breaker, at: real): Breaker {
    var count := b.failureCount + 1;
    b.(failureCount := count, lastFailureTime := Some(at), state := if count >= b.failureThreshold then Open else b.state)
  }

  /**
   * `call`: checked at `now`; `outcome` is what the function gives when it
   * is called, and a failure is stamped `end`.
   */
  function BreakerCall<V>(b: Breaker, now: real, outcome: Result<V, Failure>, end: real): (Breaker, BreakerOutcome<V>) {
    if Blocks(b, now) then (b, Rejected(b.timeout - (now - b.lastFailureTime.value)))
    else
      var b1 := if b.state == Open then b.(state := HalfOpen) else b;
      match outcome
      case Ok(v) => (Succeeded(b1), Returned(v))
      case Err(e) => (Failed(b1, end), Raised(e))
  }

  /** Every call keeps the breaker's invariant. */
  lemma BreakerCallKeepsInvariant<V>(b: Breaker, now: real, outcome: Result<V, Failure>, end: real)
    requires BreakerInvariant(b)
    ensures BreakerInvariant(BreakerCall(b, now, outcome, end).0)
  {
  }

  /** Inside the timeout an open breaker refuses without calling the function and without changing. */
  lemma OpenBreakerRefuses<V>(b: Breaker, now: real, outcome: Result<V, Failure>, end: real)
    requires b.state == Open && b.lastFailureTime.Some? && now - b.lastFailureTime.value < b.timeout
    ensures BreakerCall(b, now, outcome, end).0 == b
    ensures BreakerCall(b, now, outcome, end).1.Rejected?
    ensures BreakerCall(b, now, outcome, end).1.remaining > 0.0
  {
  }

  /** A call that goes through and succeeds always leaves the breaker closed with no failures counted. */
  lemma SuccessCloses<V>(b: Breaker, now: real, v: V, end: real)
    requires !Blocks(b, now)
    ensures BreakerCall(b, now, Ok(v), end).0.state == Closed
    ensures BreakerCall(b, now, Ok(v), end).0.failureCount == 0
    ensures BreakerCall(b, now, Ok(v), end).1 == Returned(v)
  {
  }

  /** The trial call of a half-open breaker, or of an open one past its timeout, reopens it when it fails. */
  lemma TrialFailureReopens<V>(b: Breaker, now: real, e: Failure, end: real)
    requires BreakerInvariant(b) && b.state != Closed && !Blocks(b, now)
    ensures BreakerCall<V>(b, now, Err(e), end).0.state == Open
    ensures BreakerCall<V>(b, now, Err(e), end).0.lastFailureTime == Some(end)
  {
  }

  /** A closed breaker opens on the failure that brings its count to the threshold, and not before. */
  lemma ClosedOpensAtThreshold<V>(b: Breaker, now: real, e: Failure, end: real)
    requires b.state == Closed
    ensures BreakerCall<V>(b, now, Err(e), end).0.state == Open <==> b.failureCount + 1 >= b.failureThreshold
  {
  }

  const DefaultFailureThreshold: int := 5
  const DefaultTimeout: real := 60.0

  /** `CircuitBreaker`, with its state in fields. */
  class CircuitBreaker {
    const failureThreshold: int
    const timeout: real
    var failureCount: nat
    var lastFailureTime: Option<real>
    var state: BreakerState

    function Snapshot(): Breaker
      reads this
    {
      Breaker(failureThreshold, timeout, failureCount, lastFailureTime, state)
    }

    constructor (failureThreshold: int, timeout: real)
      ensures Snapshot() == Breaker(failureThreshold, timeout, 0, None, Closed)
      ensures BreakerInvariant(Snapshot())
    {
      this.failureThreshold, this.timeout := failureThreshold, timeout;
      failureCount, lastFailureTime, state := 0, None, Closed;
    }

    method OnSuccess()
      modifies this
      ensures Snapshot() == Succeeded(old(Snapshot()))
    {
      failureCount := 0;
      if state == HalfOpen {
        state := Closed;
      }
    }

    method OnFailure(at: real)
      modifies this
      ensures Snapshot() == Failed(old(Snapshot()), at)
    {
      failureCount := failureCount + 1;
      lastFailureTime := Some(at);
      if failureCount >= failureThreshold {
        state := Open;
      }
    }

    method Call<V>(now: real, outcome: Result<V, Failure>, end: real) returns (r: BreakerOutcome<V>)
      requires BreakerInvariant(Snapshot())
      modifies this
      ensures (Snapshot(), r) == BreakerCall(old(Snapshot()), now, outcome, end)
      ensures BreakerInvariant(Snapshot())
    {
      BreakerCallKeepsInvariant(Snapshot(), now, outcome, end);
      if state == Open {
        if now - lastFailureTime.value < timeout {
          return Rejected(timeout - (now - lastFailureTime.value));
        }
        state := HalfOpen;
      }
      match outcome {
        case Ok(v) =>
          OnSuccess();
          r := Returned(v);
        case Err(e) =>
          OnFailure(end);
          r := Raised(e);
      }
    }
  }

  // ---------------------------------------------------------------------------
  // Recovery, and the handler that uses it.
  // ---------------------------------------------------------------------------

  /** A recovery strategy: given the exception and the context, whether it recovered, or its own exception. */
  type Strategy = (Failure, map<string, string>) -> Result<bool, Failure>

  /** `ErrorRecovery`: strategies registered by exact exception class name. */
  class ErrorRecovery {
    var strategies: map<string, Strategy>

    constructor ()
      ensures strategies == map[]
    {
      strategies := map[];
    }

    method Register(errorType: string, strategy: Strategy)
      modifies this
      ensures strategies == old(strategies)[errorType := strategy]
    {
      strategies := strategies[errorType := strategy];
    }

    /**
     * `attempt_recovery`: true only when a strategy is registered for the
     * exception's own class and it reports success; a strategy that raises
     * counts as a failed recovery.
     */
    function AttemptRecovery(failure: Failure, context: map<string, string>): (r: bool)
      reads this
      ensures failure.errorType !in strategies ==> !r
      ensures failure.errorType in strategies ==> (r <==> strategies[failure.errorType](failure, context) == Ok(true))
    {
      if failure.errorType in strategies then
        match strategies[failure.errorType](failure, context)
        case Ok(recovered) => recovered
        case Err(_) => false
      else false
    }
  }

  /** What `handle_error` returns. */
  datatype Handled = Handled(info: ErrorInfo, recovered: bool, summary: ErrorSummary)

  /**
   * `handle_error`: the error is logged, recovery is attempted when asked,
   * and the summary taken afterwards.  Notification is not modelled.
   */
  method HandleError(log: ErrorLog, recovery: ErrorRecovery, now: string, failure: Failure,
                     context: map<string, string>, attemptRecovery: bool) returns (h: Handled)
    requires log.Valid()
    modifies log
    ensures log.Valid() && log.logged == old(log.logged) + [h.info]
    ensures h.info == ErrorInfo(now, failure.errorType, failure.message, context)
    ensures h.recovered <==> attemptRecovery && recovery.AttemptRecovery(failure, context)
    ensures h.summary == log.Summary()
  {
    var info := log.LogError(now, failure, context);
    var recovered := false;
    if attemptRecovery {
      recovered := recovery.AttemptRecovery(failure, context);
    }
    h := Handled(info, recovered, log.Summary());
  }

  /**
   * `with_error_handling`, given the outcome of the (retried) execution and
   * the outcome of the one re-execution made after a successful recovery: a
   * success is returned at once; an exception is handled, and re-raised
   * unless recovery succeeded and the re-execution returned a value.
   */
  method WithErrorHandling<V>(log: ErrorLog, recovery: ErrorRecovery, now: string, context: map<string, string>,
                              first: Result<V, Failure>, again: Result<V, Failure>)
    returns (r: Result<V, Failure>, reexecuted: bool)
    requires log.Valid()
    modifies log
    ensures log.Valid()
    ensures first.Ok? ==> r == first && !reexecuted && log.logged == old(log.logged)
    ensures first.Err? ==> log.logged == old(log.logged) + [ErrorInfo(now, first.error.errorType, first.error.message, context)]
    ensures reexecuted <==> first.Err? && recovery.AttemptRecovery(first.error, context)
    ensures r == if reexecuted && again.Ok? then again else first
  {
    if first.Ok? {
      return first, false;
    }
    var h := HandleError(log, recovery, now, first.error, context, true);
    reexecuted := h.recovered;
    if reexecuted && again.Ok? {
      r := again;
    } else {
      r := first;
    }
  }
}
