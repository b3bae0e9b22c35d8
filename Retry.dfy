/** `withRetry` (`utils/retry.ts`): exponential backoff around an operation that may throw.
    The operation is the function from attempt number to what that invocation does; the
    waits are recorded, not slept. */
module Retry {
  import opened Optional
  import opened Text

  /** The entries of `retryableErrors` that the default options use: a case-insensitive
      regular expression for a fixed ASCII phrase (`/timeout/i` is `IgnoreCase("timeout")`),
      a plain substring (`'ECONNRESET'`), and `/5\d\d/`. */
  datatype Pattern = IgnoreCase(phrase: string) | Literal(text: string) | ServerStatus

  /** `/5\d\d/.test(message)`: a '5' followed by two decimal digits somewhere in the message. */
  predicate HasServerStatus(message: string) {
    exists i :: 0 <= i && i + 2 < |message| && message[i] == '5' && IsDigit(message[i + 1]) && IsDigit(message[i + 2])
  }

  /** How one pattern tests a message. Without the `u` flag, `/i` folds only ASCII letters onto
      ASCII letters, so for an ASCII phrase it is substring search after lower-casing both the
      message and the phrase. */
  predicate Matches(p: Pattern, message: string) {
    match p
    case IgnoreCase(phrase) => Contains(AsciiLower(message), AsciiLower(phrase))
    case Literal(text) => Contains(message, text)
    case ServerStatus => HasServerStatus(message)
  }

  /** `retryableErrors.some(...)` applied to the caught error's message, scanning from the left. */
  predicate ShouldRetry(patterns: seq<Pattern>, message: string) {
    if patterns == [] then false else Matches(patterns[0], message) || ShouldRetry(patterns[1..], message)
  }

  /** The scan retries exactly when some pattern of the list matches. */
  lemma {:induction false} ShouldRetryIff(patterns: seq<Pattern>, message: string)
    ensures ShouldRetry(patterns, message) <==> exists i :: 0 <= i < |patterns| && Matches(patterns[i], message)
  {
    if patterns != [] {
      ShouldRetryIff(patterns[1..], message);
      assert forall i :: 1 <= i < |patterns| ==> patterns[i] == patterns[1..][i - 1];
      if Matches(patterns[0], message) {
        assert 0 < |patterns| && Matches(patterns[0], message);
      } else if ShouldRetry(patterns[1..], message) {
        var i :| 0 <= i < |patterns[1..]| && Matches(patterns[1..][i], message);
        assert Matches(patterns[i + 1], message);
      }
    }
  }

  /** The options a caller may pass; an absent field keeps its default. */
  datatype RetryOptions = RetryOptions(
    maxRetries: Option<int>,
    initialDelay: Option<real>,
    maxDelay: Option<real>,
    backoffFactor: Option<real>,
    retryableErrors: Option<seq<Pattern>>)

  /** The options in effect, every field present. */
  datatype Settings = Settings(
    maxRetries: int,
    initialDelay: real,
    maxDelay: real,
    backoffFactor: real,
    retryableErrors: seq<Pattern>)

  const DefaultPatterns: seq<Pattern> := [
    IgnoreCase("rate limit"), IgnoreCase("timeout"), IgnoreCase("network"), ServerStatus,
    Literal("ECONNRESET"), Literal("ETIMEDOUT"), Literal("ECONNREFUSED")]

  /** `defaultOptions`. */
  const Defaults: Settings := Settings(3, 1000.0, 10000.0, 2.0, DefaultPatterns)

  const NoOptions: RetryOptions := RetryOptions(None, None, None, None, None)

  /** `{ ...defaultOptions, ...options }`: a field the caller supplies wins. */
  function Merge(options: RetryOptions): (s: Settings)
    ensures options.maxRetries.Some? ==> s.maxRetries == options.maxRetries.value
    ensures options.maxRetries.None? ==> s.maxRetries == 3
    ensures options.initialDelay.Some? ==> s.initialDelay == options.initialDelay.value
    ensures options.initialDelay.None? ==> s.initialDelay == 1000.0
    ensures options.maxDelay.Some? ==> s.maxDelay == options.maxDelay.value
    ensures options.maxDelay.None? ==> s.maxDelay == 10000.0
    ensures options.backoffFactor.Some? ==> s.backoffFactor == options.backoffFactor.value
    ensures options.backoffFactor.None? ==> s.backoffFactor == 2.0
    ensures options.retryableErrors.Some? ==> s.retryableErrors == options.retryableErrors.value
    ensures options.retryableErrors.None? ==> s.retryableErrors == DefaultPatterns
  {
    Settings(
      options.maxRetries.GetOr(Defaults.maxRetries),
      options.initialDelay.GetOr(Defaults.initialDelay),
      options.maxDelay.GetOr(Defaults.maxDelay),
      options.backoffFactor.GetOr(Defaults.backoffFactor),
      options.retryableErrors.GetOr(Defaults.retryableErrors))
  }

  /** What one invocation of the operation does: resolve with a value, or throw an error
      (any value) whose `message` property is the given string. */
  datatype Outcome<T, E> = Returned(value: T) | Threw(error: E, message: string)

  /** `Math.min`. */
  function Min(a: real, b: real): (m: real)
    ensures m <= a && m <= b && (m == a || m == b)
  {
    if a <= b then a else b
  }

  /** The backoff update `delay = Math.min(delay * backoffFactor, maxDelay)`. */
  function NextDelay(s: Settings, delay: real): real {
    Min(delay * s.backoffFactor, s.maxDelay)
  }

  /** The wait after the `n`-th failed attempt (counting from 0): `initialDelay`, then each
      wait is the previous one multiplied by the factor and capped. */
  function Delay(s: Settings, n: nat): real {
    if n == 0 then s.initialDelay else NextDelay(s, Delay(s, n - 1))
  }

  /** A run of `withRetry`: the outcome it settles with, how often it invoked the
      operation, and the waits between invocations, in order. */
  datatype Trace<T, E> = Trace(result: Outcome<T, E>, calls: nat, sleeps: seq<real>)

  /** What `withRetry` does from `attempt` on, `delay` being the current wait. */
  function Run<T, E>(op: nat -> Outcome<T, E>, s: Settings, attempt: nat, delay: real): Trace<T, E>
    requires 1 <= attempt <= s.maxRetries
    decreases s.maxRetries - attempt
  {
    var outcome := op(attempt);
    if outcome.Returned? || !ShouldRetry(s.retryableErrors, outcome.message) || attempt == s.maxRetries then
      Trace(outcome, 1, [])
    else
      var rest := Run(op, s, attempt + 1, NextDelay(s, delay));
      Trace(rest.result, rest.calls + 1, [delay] + rest.sleeps)
  }

  /** The run that `withRetry(op, options)` performs. */
  function Retried<T, E>(op: nat -> Outcome<T, E>, options: RetryOptions): Trace<T, E>
    requires Merge(options).maxRetries >= 1
  {
    Run(op, Merge(options), 1, Merge(options).initialDelay)
  }

  /** One step of a run: the attempt either settles the run or is followed by a wait and the
      run from the next attempt. */
  lemma RunStep<T, E>(op: nat -> Outcome<T, E>, s: Settings, attempt: nat, delay: real)
    requires 1 <= attempt < s.maxRetries
    requires op(attempt).Threw? && ShouldRetry(s.retryableErrors, op(attempt).message)
    ensures var rest := Run(op, s, attempt + 1, NextDelay(s, delay));
            Run(op, s, attempt, delay) == Trace(rest.result, rest.calls + 1, [delay] + rest.sleeps)
  {
  }

  /** An attempt that succeeds, fails without a retryable message, or is the last one settles
      the run with its own outcome. */
  lemma RunSettles<T, E>(op: nat -> Outcome<T, E>, s: Settings, attempt: nat, delay: real)
    requires 1 <= attempt <= s.maxRetries
    requires op(attempt).Returned? || !ShouldRetry(s.retryableErrors, op(attempt).message) || attempt == s.maxRetries
    ensures Run(op, s, attempt, delay) == Trace(op(attempt), 1, [])
  {
  }

  /** `withRetry(operation, options)`: merge the options, then run the loop. */
  method WithRetry<T, E>(op: nat -> Outcome<T, E>, options: RetryOptions)
    returns (r: Outcome<T, E>, ghost calls: nat, ghost sleeps: seq<real>)
    requires Merge(options).maxRetries >= 1
    ensures r == Retried(op, options).result
    ensures calls == Retried(op, options).calls && sleeps == Retried(op, options).sleeps
  {
    var opts := Merge(options);
    r, calls, sleeps := RetryLoop(op, opts);
  }

  /** The loop of `withRetry` under the merged options `opts`. It mirrors the source's `for`
      over `attempt`; `maxRetries` is an integer here, so the check `attempt == maxRetries`
      catches the final attempt, which always returns or throws, and the loop never falls out. */
  method RetryLoop<T, E>(op: nat -> Outcome<T, E>, opts: Settings)
    returns (r: Outcome<T, E>, ghost calls: nat, ghost sleeps: seq<real>)
    requires opts.maxRetries >= 1
    ensures r == Run(op, opts, 1, opts.initialDelay).result
    ensures calls == Run(op, opts, 1, opts.initialDelay).calls && sleeps == Run(op, opts, 1, opts.initialDelay).sleeps
  {
    var delay := opts.initialDelay;
    var attempt := 1;
    calls, sleeps := 0, [];
    ghost var whole := Run(op, opts, 1, delay);
    while true
      invariant 1 <= attempt <= opts.maxRetries && calls == attempt - 1
      invariant whole.result == Run(op, opts, attempt, delay).result
      invariant whole.calls == calls + Run(op, opts, attempt, delay).calls
      invariant whole.sleeps == sleeps + Run(op, opts, attempt, delay).sleeps
      decreases opts.maxRetries - attempt
    {
      var outcome := op(attempt);
      calls := calls + 1;
      if outcome.Returned? {
        RunSettles(op, opts, attempt, delay);
        return outcome, calls, sleeps;
      }
      var shouldRetry := ShouldRetry(opts.retryableErrors, outcome.message);
      if !shouldRetry || attempt == opts.maxRetries {
        RunSettles(op, opts, attempt, delay);
        return outcome, calls, sleeps;
      }
      RunStep(op, opts, attempt, delay);
      ghost var rest := Run(op, opts, attempt + 1, NextDelay(opts, delay));
      assert sleeps + ([delay] + rest.sleeps) == (sleeps + [delay]) + rest.sleeps;
      sleeps := sleeps + [delay];
      delay := NextDelay(opts, delay);
      attempt := attempt + 1;
    }
  }

  // ---------------------------------------------------------------------------
  // Properties of a run

  /** The operation is invoked at least once and never past attempt `maxRetries`, and there
      is exactly one wait between consecutive invocations. */
  lemma {:induction false} RunBounds<T, E>(op: nat -> Outcome<T, E>, s: Settings, attempt: nat, delay: real)
    requires 1 <= attempt <= s.maxRetries
    ensures 1 <= Run(op, s, attempt, delay).calls <= s.maxRetries - attempt + 1
    ensures |Run(op, s, attempt, delay).sleeps| == Run(op, s, attempt, delay).calls - 1
    decreases s.maxRetries - attempt
  {
    var outcome := op(attempt);
    if !(outcome.Returned? || !ShouldRetry(s.retryableErrors, outcome.message) || attempt == s.maxRetries) {
      RunBounds(op, s, attempt + 1, NextDelay(s, delay));
    }
  }

  /** The run settles with exactly what its last invocation produced, unwrapped; every
      earlier invocation threw an error that matched a retryable pattern; and the last one
      succeeded, threw a non-retryable error, or was attempt `maxRetries`. */
  lemma {:induction false} RunSettlesWithLastOutcome<T, E>(op: nat -> Outcome<T, E>, s: Settings, attempt: nat, delay: real)
    requires 1 <= attempt <= s.maxRetries
    ensures var t := Run(op, s, attempt, delay);
            var last := attempt + t.calls - 1;
            && t.result == op(last)
            && (forall k :: attempt <= k < last ==> op(k).Threw? && ShouldRetry(s.retryableErrors, op(k).message))
            && (op(last).Returned? || !ShouldRetry(s.retryableErrors, op(last).message) || last == s.maxRetries)
    decreases s.maxRetries - attempt
  {
    var outcome := op(attempt);
    if !(outcome.Returned? || !ShouldRetry(s.retryableErrors, outcome.message) || attempt == s.maxRetries) {
      RunSettlesWithLastOutcome(op, s, attempt + 1, NextDelay(s, delay));
    }
  }

  /** The run is fully determined by that characterisation: if attempts `attempt..last-1` throw
      retryable errors and attempt `last` is final, then the run invokes the operation up to
      `last` exactly and settles with its outcome. */
  lemma {:induction false} RunStopsAt<T, E>(op: nat -> Outcome<T, E>, s: Settings, attempt: nat, delay: real, last: nat)
    requires 1 <= attempt <= last <= s.maxRetries
    requires forall k :: attempt <= k < last ==> op(k).Threw? && ShouldRetry(s.retryableErrors, op(k).message)
    requires op(last).Returned? || !ShouldRetry(s.retryableErrors, op(last).message) || last == s.maxRetries
    ensures Run(op, s, attempt, delay).calls == last - attempt + 1
    ensures Run(op, s, attempt, delay).result == op(last)
    decreases last - attempt
  {
    if attempt < last {
      RunStopsAt(op, s, attempt + 1, NextDelay(s, delay), last);
    }
  }

  /** The waits of a run from attempt `attempt` with current wait `Delay(s, attempt - 1)`
      are the continuation of the backoff sequence. */
  lemma {:induction false} RunSleepsFollowBackoff<T, E>(op: nat -> Outcome<T, E>, s: Settings, attempt: nat, i: nat)
    requires 1 <= attempt <= s.maxRetries
    requires i < |Run(op, s, attempt, Delay(s, attempt - 1)).sleeps|
    ensures Run(op, s, attempt, Delay(s, attempt - 1)).sleeps[i] == Delay(s, attempt - 1 + i)
    decreases s.maxRetries - attempt
  {
    var outcome := op(attempt);
    if !(outcome.Returned? || !ShouldRetry(s.retryableErrors, outcome.message) || attempt == s.maxRetries) {
      if i > 0 {
        assert NextDelay(s, Delay(s, attempt - 1)) == Delay(s, attempt);
        RunSleepsFollowBackoff(op, s, attempt + 1, i - 1);
      }
    }
  }

  /** `withRetry` waits `Delay(s, 0)`, `Delay(s, 1)`, ... between its invocations. */
  lemma RetriedSleeps<T, E>(op: nat -> Outcome<T, E>, options: RetryOptions, i: nat)
    requires Merge(options).maxRetries >= 1
    requires i < |Retried(op, options).sleeps|
    ensures Retried(op, options).sleeps[i] == Delay(Merge(options), i)
  {
    RunSleepsFollowBackoff(op, Merge(options), 1, i);
  }

  /** After the first update no wait exceeds `maxDelay`. */
  lemma DelayCapped(s: Settings, n: nat)
    requires n >= 1
    ensures Delay(s, n) <= s.maxDelay
  {
  }

  /** With a factor of at least 1 and `0 <= initialDelay <= maxDelay` the waits never shrink. */
  lemma {:induction false} DelayNondecreasing(s: Settings, n: nat)
    requires s.backoffFactor >= 1.0 && 0.0 <= s.initialDelay <= s.maxDelay
    ensures 0.0 <= Delay(s, n) <= Delay(s, n + 1) <= s.maxDelay
  {
    if n > 0 {
      DelayNondecreasing(s, n - 1);
    }
    NextDelayGrows(s, Delay(s, n));
  }

  /** One backoff step from a wait within `[0, maxDelay]` neither shrinks it nor passes the cap. */
  lemma NextDelayGrows(s: Settings, d: real)
    requires s.backoffFactor >= 1.0 && 0.0 <= d <= s.maxDelay
    ensures d <= NextDelay(s, d) <= s.maxDelay
  {
    var f := s.backoffFactor;
    assert d * f - d == d * (f - 1.0);
    assert d * (f - 1.0) >= 0.0;
  }

  /** A success on attempt `k` after `k - 1` retryable failures is returned at once:
      the operation was invoked exactly `k` times. */
  lemma FailThenSucceed<T, E>(op: nat -> Outcome<T, E>, options: RetryOptions, k: nat)
    requires 1 <= k <= Merge(options).maxRetries
    requires forall j :: 1 <= j < k ==> op(j).Threw? && ShouldRetry(Merge(options).retryableErrors, op(j).message)
    requires op(k).Returned?
    ensures Retried(op, options).result == op(k)
    ensures Retried(op, options).calls == k
  {
    RunStopsAt(op, Merge(options), 1, Merge(options).initialDelay, k);
  }

  /** A failure that no pattern matches is rethrown unchanged by the attempt that caught it,
      with no wait: on the first attempt, the operation is invoked once. */
  lemma NonRetryableFailsFast<T, E>(op: nat -> Outcome<T, E>, options: RetryOptions)
    requires Merge(options).maxRetries >= 1
    requires op(1).Threw? && !ShouldRetry(Merge(options).retryableErrors, op(1).message)
    ensures Retried(op, options) == Trace(op(1), 1, [])
  {
  }

  // ---------------------------------------------------------------------------
  // The default options

  /** The default patterns accept exactly the messages that mention a rate limit, a timeout or
      the network in any ASCII case, carry a 5xx-shaped number, or name a connection error. */
  lemma DefaultRetryable(message: string)
    ensures ShouldRetry(DefaultPatterns, message) <==>
      || Contains(AsciiLower(message), "rate limit")
      || Contains(AsciiLower(message), "timeout")
      || Contains(AsciiLower(message), "network")
      || HasServerStatus(message)
      || Contains(message, "ECONNRESET")
      || Contains(message, "ETIMEDOUT")
      || Contains(message, "ECONNREFUSED")
  {
    var ps := DefaultPatterns;
    DefaultPhrasesLower();
    ShouldRetryIff(ps, message);
    if ShouldRetry(ps, message) {
      var i :| 0 <= i < |ps| && Matches(ps[i], message);
      assert i in {0, 1, 2, 3, 4, 5, 6};
    } else {
      assert !Matches(ps[0], message) && !Matches(ps[1], message) && !Matches(ps[2], message);
      assert !Matches(ps[3], message) && !Matches(ps[4], message) && !Matches(ps[5], message);
      assert !Matches(ps[6], message);
    }
  }

  /** The default phrases are written in lower case, so lower-casing leaves them as they are. */
  lemma DefaultPhrasesLower()
    ensures AsciiLower("rate limit") == "rate limit"
    ensures AsciiLower("timeout") == "timeout"
    ensures AsciiLower("network") == "network"
  {
    AsciiLowerFixes("rate limit");
    AsciiLowerFixes("timeout");
    AsciiLowerFixes("network");
  }

  /** The case of the phrase does not matter either: `/Timeout/i` accepts "timeout". */
  lemma IgnoreCaseFoldsPhrase()
    ensures Matches(IgnoreCase("Timeout"), "timeout")
  {
    assert AsciiLower("Timeout") == "timeout";
    AsciiLowerFixes("timeout");
    ContainsAt("timeout", "timeout", 0);
  }

  /** Lower-casing `message` puts `phrase` at position `i`. */
  lemma LowerOccursAt(message: string, phrase: string, i: nat)
    requires i + |phrase| <= |message|
    requires forall j :: 0 <= j < |phrase| ==> LowerChar(message[i + j]) == phrase[j]
    ensures Contains(AsciiLower(message), phrase)
  {
    var low := AsciiLower(message);
    assert low[i..i + |phrase|] == phrase by {
      forall j | 0 <= j < |phrase| ensures low[i..i + |phrase|][j] == phrase[j] {
        assert low[i + j] == LowerChar(message[i + j]);
      }
    }
    ContainsAt(low, phrase, i);
  }

  /** A phrase cannot occur where its first character does not. */
  lemma FirstCharAbsent(s: string, sub: string)
    requires |sub| > 0
    requires forall i :: 0 <= i <= |s| - |sub| ==> s[i] != sub[0]
    ensures !Contains(s, sub)
  {
    forall i | 0 <= i <= |s| - |sub| ensures !OccursAt(s, sub, i) {
      assert s[i..i + |sub|][0] != sub[0];
    }
    ContainsIff(s, sub);
  }

  /** "Request Timeout" and "HTTP 503" are retried by default; the match ignores case. */
  lemma DefaultRetryExamples()
    ensures ShouldRetry(DefaultPatterns, "Request Timeout")
    ensures ShouldRetry(DefaultPatterns, "HTTP 503")
  {
    var m := "Request Timeout";
    DefaultPhrasesLower();
    LowerOccursAt(m, "timeout", 8);
    assert Matches(DefaultPatterns[1], m);
    var n := "HTTP 503";
    assert n[5] == '5' && IsDigit(n[6]) && IsDigit(n[7]);
    assert Matches(DefaultPatterns[3], n);
  }

  /** "Bad input" matches none of the default patterns, so it is rethrown at once. */
  lemma DefaultRejectsBadInput()
    ensures !ShouldRetry(DefaultPatterns, "Bad input")
  {
    BadInputMatchesNothing();
    ShouldRetryIff(DefaultPatterns, "Bad input");
  }

  /** Pattern by pattern, none of the defaults matches "Bad input". */
  lemma BadInputMatchesNothing()
    ensures forall i :: 0 <= i < |DefaultPatterns| ==> !Matches(DefaultPatterns[i], "Bad input")
  {
    BadInputPhrases();
    BadInputHasNoStatus();
    forall i | 0 <= i < |DefaultPatterns| ensures !Matches(DefaultPatterns[i], "Bad input") {
      assert DefaultPatterns[i] in DefaultPatterns;
    }
  }

  /** "Bad input" has no '5' at all, so no 5xx-shaped number. */
  lemma BadInputHasNoStatus()
    ensures !HasServerStatus("Bad input")
  {
    var m := "Bad input";
    forall i | 0 <= i && i + 2 < |m| ensures m[i] != '5' {
    }
  }

  /** None of the default phrases occurs in "Bad input", whatever the case. */
  lemma BadInputPhrases()
    ensures !Matches(IgnoreCase("rate limit"), "Bad input")
    ensures !Matches(IgnoreCase("timeout"), "Bad input")
    ensures !Matches(IgnoreCase("network"), "Bad input")
    ensures !Matches(Literal("ECONNRESET"), "Bad input") && !Matches(Literal("ETIMEDOUT"), "Bad input")
    ensures !Matches(Literal("ECONNREFUSED"), "Bad input")
  {
    DefaultPhrasesLower();
    var m := "Bad input";
    var low := AsciiLower(m);
    assert |low| == 9;
    assert low[0] == 'b' && low[1] == 'a' && low[2] == 'd';
    FirstCharAbsent(low, "timeout");
    FirstCharAbsent(low, "network");
    FirstCharAbsent(m, "ETIMEDOUT");
  }

  /** With the default options and an operation that always fails retryably, there are exactly
      three invocations, with waits of 1000 ms and then 2000 ms, and the third error is rethrown. */
  lemma DefaultScheduleForPersistentFailure<T, E>(op: nat -> Outcome<T, E>)
    requires forall k :: op(k).Threw? && ShouldRetry(DefaultPatterns, op(k).message)
    ensures Retried(op, NoOptions) == Trace(op(3), 3, [1000.0, 2000.0])
  {
    var s := Merge(NoOptions);
    assert s == Defaults;
    assert op(1).Threw? && ShouldRetry(DefaultPatterns, op(1).message);
    assert op(2).Threw? && ShouldRetry(DefaultPatterns, op(2).message);
    assert NextDelay(s, 1000.0) == 2000.0;
  }
}
