/**
 * The retry executor of src/utils/retry.ts.
 *
 * The operation is given as the outcome of each of its invocations
 * (`op(k)` is what the k-th call, counted from 0, resolves or throws), the
 * source of randomness as the value `random(j)` returned by the j-th call of
 * `Math.random`, and every sleep is recorded instead of performed. A run of
 * the executor produces an outcome and one `Round` per invocation, which says
 * how long the executor slept before it and whether `onRetry` was notified.
 */
module Retry {
  import opened Common
  import opened JsErrors

  // ---------------------------------------------------------------------------
  // Configuration
  // ---------------------------------------------------------------------------

  /** What a caller may pass; `None` is an omitted field. */
  datatype RetryOptions = RetryOptions(
    maxRetries: Option<int>,
    initialDelay: Option<real>,
    maxDelay: Option<real>,
    factor: Option<real>,
    shouldRetry: Option<ErrorValue -> bool>,
    hasOnRetry: bool)

  datatype RetryConfig = RetryConfig(maxRetries: int, initialDelay: real, maxDelay: real, factor: real)

  const DefaultConfig: RetryConfig := RetryConfig(3, 1000.0, 10000.0, 2.0)

  /** Graph API error codes that are never retried by the default predicate. */
  const NonRetryableFbCodes: set<int> := {190, 200, 10, 2500}

  /** `{...defaultConfig, ...config}`: every field the caller supplies wins. */
  function ResolveConfig(options: RetryOptions): (c: RetryConfig)
    ensures options.maxRetries.None? ==> c.maxRetries == 3
    ensures options.maxRetries.Some? ==> c.maxRetries == options.maxRetries.value
    ensures options.initialDelay.None? ==> c.initialDelay == 1000.0
    ensures options.initialDelay.Some? ==> c.initialDelay == options.initialDelay.value
    ensures options.maxDelay.None? ==> c.maxDelay == 10000.0
    ensures options.maxDelay.Some? ==> c.maxDelay == options.maxDelay.value
    ensures options.factor.None? ==> c.factor == 2.0
    ensures options.factor.Some? ==> c.factor == options.factor.value
  {
    RetryConfig(
      options.maxRetries.GetOr(DefaultConfig.maxRetries),
      options.initialDelay.GetOr(DefaultConfig.initialDelay),
      options.maxDelay.GetOr(DefaultConfig.maxDelay),
      options.factor.GetOr(DefaultConfig.factor))
  }

  // ---------------------------------------------------------------------------
  // The default retry predicate
  // ---------------------------------------------------------------------------

  /** `error?.error?.code && typeof error.error.code === 'number'`. */
  predicate IsFacebookError(e: ErrorValue): (b: bool)
    ensures e.nested.None? || e.nested.value.code.None? ==> !b
    ensures e.nested.Some? && e.nested.value.code == Some(0) ==> !b
  {
    e.nested.Some? && e.nested.value.code.Some? && e.nested.value.code.value != 0
  }

  function FacebookCode(e: ErrorValue): int
    requires IsFacebookError(e)
  {
    e.nested.value.code.value
  }

  /**
   * `shouldRetryFacebookError`. The rate-limit, temporary-error and network
   * branches all answer `true`, as does the fall-through, so only the
   * non-retryable vendor codes make it answer `false`.
   */
  function ShouldRetryFacebookError(e: ErrorValue): (retry: bool)
    ensures !retry <==> IsFacebookError(e) && FacebookCode(e) in NonRetryableFbCodes
  {
    if IsFacebookError(e) && FacebookCode(e) in NonRetryableFbCodes then false
    else if IsFacebookError(e) && (FacebookCode(e) == 4 || FacebookCode(e) == 17) then true
    else if IsFacebookError(e) && 1 <= FacebookCode(e) <= 3 then true
    else if e.name == "TypeError" then true
    else true
  }

  /** `config.shouldRetry || shouldRetryFacebookError`. */
  function PredicateOf(options: RetryOptions): ErrorValue -> bool {
    if options.shouldRetry.Some? then options.shouldRetry.value else ShouldRetryFacebookError
  }

  // ---------------------------------------------------------------------------
  // Delays
  // ---------------------------------------------------------------------------

  function Pow(x: real, n: nat): real {
    if n == 0 then 1.0 else x * Pow(x, n - 1)
  }

  /** `Math.min(initialDelay * factor ** retryCount, maxDelay)`. */
  function BaseDelay(retryCount: nat, c: RetryConfig): (b: real)
    ensures b <= c.maxDelay
  {
    var exponential := c.initialDelay * Pow(c.factor, retryCount);
    if exponential <= c.maxDelay then exponential else c.maxDelay
  }

  /** `getNextDelay`: the capped exponential delay plus `random * 25%` of it. */
  function NextDelay(retryCount: nat, c: RetryConfig, random: real): (d: real)
    ensures 0.0 <= random < 1.0 && BaseDelay(retryCount, c) > 0.0 ==>
      BaseDelay(retryCount, c) <= d < 1.25 * BaseDelay(retryCount, c)
    ensures random == 0.0 ==> d == BaseDelay(retryCount, c)
  {
    var b := BaseDelay(retryCount, c);
    if 0.0 <= random < 1.0 && b > 0.0 then
      JitterBelowBase(random, b);
      Jittered(b, random)
    else
      Jittered(b, random)
  }

  /** `bounded + Math.random() * 0.25 * bounded`. */
  function Jittered(bounded: real, random: real): real {
    bounded + random * 0.25 * bounded
  }

  /** The delay lies in `[b, 1.25 b)` for the capped base `b`, and never exceeds 1.25 times `maxDelay`. */
  lemma NextDelayBounds(retryCount: nat, c: RetryConfig, random: real)
    requires 0.0 <= random < 1.0
    requires BaseDelay(retryCount, c) > 0.0
    ensures BaseDelay(retryCount, c) <= NextDelay(retryCount, c, random) < 1.25 * BaseDelay(retryCount, c)
    ensures NextDelay(retryCount, c, random) < 1.25 * c.maxDelay
  {
    var b := BaseDelay(retryCount, c);
    JitterBelowBase(random, b);
    assert 1.25 * b <= 1.25 * c.maxDelay;
  }

  lemma JitterBelowBase(random: real, b: real)
    requires 0.0 <= random < 1.0 && b > 0.0
    ensures b <= Jittered(b, random) < 1.25 * b
  {
    var q := 0.25 * b;
    assert random * 0.25 * b == random * q;
    assert (1.0 - random) * q == q - random * q;
    assert (1.0 - random) * q > 0.0;
    assert random * q >= 0.0;
    assert Jittered(b, random) == b + random * q;
  }

  // ---------------------------------------------------------------------------
  // Runs
  // ---------------------------------------------------------------------------

  /** What the k-th invocation of the operation does. */
  datatype Attempt<T> = Success(value: T) | Failure(thrown: Thrown)

  /** A call of `onRetry(error, attempt)`. */
  datatype Notice = Notice(error: ErrorValue, attempt: nat)

  /** One invocation: the sleep before it (none for the first), the `onRetry` call, and what it did. */
  datatype Round<T> = Round(delay: Option<real>, notice: Option<Notice>, attempt: Attempt<T>)

  /** How the promise returned by `retryWithBackoff` settles; `RejectedNull` is `throw null`. */
  datatype Outcome<T> = Resolved(value: T) | Rejected(error: ErrorValue) | RejectedNull

  datatype Execution<T> = Execution(outcome: Outcome<T>, rounds: seq<Round<T>>)

  /** Everything a run depends on once the configuration is resolved. */
  datatype Job<T> = Job(
    op: nat -> Attempt<T>,
    config: RetryConfig,
    shouldRetry: ErrorValue -> bool,
    hasOnRetry: bool,
    random: nat -> real)

  function JobOf<T>(op: nat -> Attempt<T>, options: RetryOptions, random: nat -> real): Job<T> {
    Job(op, ResolveConfig(options), PredicateOf(options), options.hasOnRetry, random)
  }

  /** The sleep before invocation k: none before the first, the `(k-1)`-th delay otherwise. */
  function DelayBefore<T>(job: Job<T>, k: nat): Option<real> {
    if k == 0 then None else Some(NextDelay(k - 1, job.config, job.random(k - 1)))
  }

  /** `if (finalConfig.onRetry && lastError) finalConfig.onRetry(lastError, retryCount)`. */
  function NoticeBefore<T>(job: Job<T>, k: nat, last: Option<ErrorValue>): Option<Notice> {
    if k > 0 && job.hasOnRetry && last.Some? then Some(Notice(last.value, k)) else None
  }

  /** The error the loop keeps after invocation k failed. */
  function ErrorOf<T>(a: Attempt<T>): ErrorValue
    requires a.Failure?
  {
    Wrap(a.thrown)
  }

  /** How the run settles when invocation k is the last one. */
  function Settle<T>(a: Attempt<T>): Outcome<T> {
    match a
    case Success(v) => Resolved(v)
    case Failure(t) => Rejected(Wrap(t))
  }

  /** A run preceded by rounds already done. */
  function Prepend<T>(done: seq<Round<T>>, ex: Execution<T>): Execution<T> {
    Execution(ex.outcome, done + ex.rounds)
  }

  /** The run of the loop from iteration k on, `last` being `lastError`. */
  function Run<T>(job: Job<T>, k: nat, last: Option<ErrorValue>): Execution<T>
    decreases job.config.maxRetries - k
  {
    if k > job.config.maxRetries then
      Execution(if last.Some? then Rejected(last.value) else RejectedNull, [])
    else
      var round := Round(DelayBefore(job, k), NoticeBefore(job, k, last), job.op(k));
      match job.op(k)
      case Success(v) => Execution(Resolved(v), [round])
      case Failure(t) =>
        var e := Wrap(t);
        if k == job.config.maxRetries || !job.shouldRetry(e) then Execution(Rejected(e), [round])
        else
          var rest := Run(job, k + 1, Some(e));
          Execution(rest.outcome, [round] + rest.rounds)
  }

  /** Predicate of a run that failed at invocation i and was allowed to go on. */
  predicate Continued<T>(job: Job<T>, i: nat) {
    job.op(i).Failure? && i < job.config.maxRetries && job.shouldRetry(ErrorOf(job.op(i)))
  }

  /** Predicate of a last invocation: it succeeded, or its failure was final. */
  predicate Final<T>(job: Job<T>, i: nat) {
    job.op(i).Failure? ==> i == job.config.maxRetries || !job.shouldRetry(ErrorOf(job.op(i)))
  }

  /** A run from iteration k makes no invocation iff the loop condition already fails, and at most `maxRetries + 1 - k` otherwise. */
  lemma {:induction false} RunLength<T>(job: Job<T>, k: nat, last: Option<ErrorValue>)
    ensures |Run(job, k, last).rounds| == 0 <==> k > job.config.maxRetries
    ensures |Run(job, k, last).rounds| == 0 ==>
      Run(job, k, last).outcome == if last.Some? then Rejected(last.value) else RejectedNull
    ensures |Run(job, k, last).rounds| > 0 ==> k + |Run(job, k, last).rounds| <= job.config.maxRetries + 1
    decreases job.config.maxRetries - k
  {
    if k <= job.config.maxRetries && job.op(k).Failure? {
      var e := Wrap(job.op(k).thrown);
      if k != job.config.maxRetries && job.shouldRetry(e) {
        RunLength(job, k + 1, Some(e));
      }
    }
  }

  /** Round i of a run from iteration k is invocation k + i, preceded by its delay and its notice. */
  lemma {:induction false} RunRound<T>(job: Job<T>, k: nat, last: Option<ErrorValue>, i: nat)
    requires i < |Run(job, k, last).rounds|
    ensures Run(job, k, last).rounds[i].attempt == job.op(k + i)
    ensures Run(job, k, last).rounds[i].delay == DelayBefore(job, k + i)
    ensures i == 0 ==> Run(job, k, last).rounds[i].notice == NoticeBefore(job, k, last)
    ensures i > 0 ==> job.op(k + i - 1).Failure? && Continued(job, k + i - 1)
    ensures i > 0 ==> Run(job, k, last).rounds[i].notice == NoticeBefore(job, k + i, Some(ErrorOf(job.op(k + i - 1))))
    decreases i
  {
    if i > 0 {
      var e := Wrap(job.op(k).thrown);
      var rest := Run(job, k + 1, Some(e));
      assert Run(job, k, last).rounds[i] == rest.rounds[i - 1];
      RunRound(job, k + 1, Some(e), i - 1);
      assert k + i == (k + 1) + (i - 1);
    }
  }

  /** A non-empty run from iteration k settles with its last invocation, which was final. */
  lemma {:induction false} RunSettles<T>(job: Job<T>, k: nat, last: Option<ErrorValue>)
    requires |Run(job, k, last).rounds| > 0
    ensures Final(job, k + |Run(job, k, last).rounds| - 1)
    ensures Run(job, k, last).outcome == Settle(job.op(k + |Run(job, k, last).rounds| - 1))
    decreases job.config.maxRetries - k
  {
    if job.op(k).Failure? {
      var e := Wrap(job.op(k).thrown);
      if k != job.config.maxRetries && job.shouldRetry(e) {
        RunLength(job, k + 1, Some(e));
        RunSettles(job, k + 1, Some(e));
      }
    }
  }

  /**
   * `retryWithBackoff(fn, config)`: the `for` loop over `retryCount`, with the
   * operation's outcomes, the options and `Math.random` as inputs and the
   * rounds it went through as an extra output.
   */
  method RetryWithBackoff<T>(op: nat -> Attempt<T>, options: RetryOptions, random: nat -> real)
    returns (outcome: Outcome<T>, rounds: seq<Round<T>>)
    ensures Execution(outcome, rounds) == Run(JobOf(op, options, random), 0, None)
  {
    var job := JobOf(op, options, random);
    var config := job.config;
    var lastError: Option<ErrorValue> := None;
    rounds := [];
    var retryCount: nat := 0;
    while retryCount <= config.maxRetries
      invariant Run(job, 0, None) == Prepend(rounds, Run(job, retryCount, lastError))
      decreases config.maxRetries - retryCount
    {
      var delay: Option<real> := None;
      var notice: Option<Notice> := None;
      if retryCount > 0 {
        delay := Some(NextDelay(retryCount - 1, config, random(retryCount - 1)));
        if options.hasOnRetry && lastError.Some? {
          notice := Some(Notice(lastError.value, retryCount));
        }
      }
      var attempt := op(retryCount);
      var round := Round(delay, notice, attempt);
      assert round == Round(DelayBefore(job, retryCount), NoticeBefore(job, retryCount, lastError), job.op(retryCount));
      ghost var before := rounds;
      rounds := rounds + [round];
      match attempt {
        case Success(v) =>
          outcome := Resolved(v);
          return;
        case Failure(t) =>
          var e := Wrap(t);
          if retryCount == config.maxRetries || !job.shouldRetry(e) {
            outcome := Rejected(e);
            return;
          }
          ghost var rest := Run(job, retryCount + 1, Some(e));
          assert Run(job, retryCount, lastError) == Execution(rest.outcome, [round] + rest.rounds);
          assert before + ([round] + rest.rounds) == rounds + rest.rounds;
          lastError := Some(e);
      }
      retryCount := retryCount + 1;
    }
    outcome := if lastError.Some? then Rejected(lastError.value) else RejectedNull;
  }

  // ---------------------------------------------------------------------------
  // What a run from the start guarantees
  // ---------------------------------------------------------------------------

  /** At most `maxRetries + 1` invocations; none at all when `maxRetries` is negative, and then `throw null`. */
  lemma AttemptBound<T>(job: Job<T>)
    ensures |Run(job, 0, None).rounds| <= if job.config.maxRetries < 0 then 0 else job.config.maxRetries + 1
    ensures job.config.maxRetries < 0 <==> Run(job, 0, None).outcome == RejectedNull
  {
    RunLength(job, 0, None);
    if job.config.maxRetries >= 0 {
      RunSettles(job, 0, None);
    }
  }

  /** When every invocation fails and the predicate always agrees, exactly `maxRetries + 1` invocations happen. */
  lemma AllFailuresExhaustAttempts<T>(job: Job<T>)
    requires job.config.maxRetries >= 0
    requires forall i: nat :: i <= job.config.maxRetries ==>
      job.op(i).Failure? && job.shouldRetry(ErrorOf(job.op(i)))
    ensures |Run(job, 0, None).rounds| == job.config.maxRetries + 1
    ensures Run(job, 0, None).outcome == Rejected(ErrorOf(job.op(job.config.maxRetries)))
  {
    RunLength(job, 0, None);
    RunSettles(job, 0, None);
  }

  /**
   * Invocation i of a run happens with no sleep if i = 0 and after the
   * `(i-1)`-th delay otherwise; `onRetry` is told about invocation i-1's
   * error just before invocation i, and never before the first.
   */
  lemma RoundsFollowSchedule<T>(job: Job<T>, i: nat)
    requires i < |Run(job, 0, None).rounds|
    ensures Run(job, 0, None).rounds[i].attempt == job.op(i)
    ensures i == 0 ==> Run(job, 0, None).rounds[i].delay.None? && Run(job, 0, None).rounds[i].notice.None?
    ensures i > 0 ==> job.op(i - 1).Failure?
    ensures i > 0 ==> Run(job, 0, None).rounds[i].delay == Some(NextDelay(i - 1, job.config, job.random(i - 1)))
    ensures i > 0 ==> (Run(job, 0, None).rounds[i].notice ==
      if job.hasOnRetry then Some(Notice(ErrorOf(job.op(i - 1)), i)) else None)
  {
    RunRound(job, 0, None, i);
  }

  /**
   * Every invocation before the last failed with a retryable error while
   * attempts remained; the run settles with the last invocation's result or
   * error, and that last invocation succeeded, was the final one allowed, or
   * was refused by the predicate.
   */
  lemma StopsAtFirstSuccessOrRefusal<T>(job: Job<T>)
    requires job.config.maxRetries >= 0
    ensures var ex := Run(job, 0, None);
      && |ex.rounds| > 0
      && (forall i :: 0 <= i < |ex.rounds| - 1 ==> Continued(job, i))
      && Final(job, |ex.rounds| - 1)
      && ex.outcome == Settle(job.op(|ex.rounds| - 1))
  {
    RunLength(job, 0, None);
    RunSettles(job, 0, None);
    var ex := Run(job, 0, None);
    forall i | 0 <= i < |ex.rounds| - 1 ensures Continued(job, i) {
      RunRound(job, 0, None, i + 1);
    }
  }

  /** A first invocation that succeeds is the only one, and its value is returned unchanged. */
  lemma FirstSuccessIsReturned<T>(job: Job<T>, v: T)
    requires job.config.maxRetries >= 0 && job.op(0) == Success(v)
    ensures Run(job, 0, None) == Execution(Resolved(v), [Round(None, None, Success(v))])
  {
  }

  /** The default predicate retries every error except vendor codes 190, 200, 10 and 2500. */
  lemma DefaultPredicateRefusesOnlyFatalCodes(e: ErrorValue)
    ensures PredicateOf(RetryOptions(None, None, None, None, None, false))(e) == false
      <==> IsFacebookError(e) && FacebookCode(e) in {190, 200, 10, 2500}
  {
  }
}
