/**
 * How one call of a Claude bean plays out, abstractly: the shared retry
 * template governs the attempts against the Claude endpoint, and
 * `withFallback(fallbackTo, whenError = flipTrigger)` decides whether the
 * final failure is handed to the OpenAI fallback. The endpoint is a function
 * from attempt number to what that attempt yields; the fallback's own
 * behaviour is the single outcome it produces.
 */
module ModelInvocation {
  import opened Wrappers
  import opened AnthropicModels

  /** What one call of a model yields: a response or a thrown error. */
  datatype Attempt<R> = Response(value: R) | Thrown(error: AiError)

  /** The result of running the retry template: the last outcome, the attempts made and the sleeps taken. */
  datatype RetryRun<R> = RetryRun(outcome: Attempt<R>, attempts: nat, sleeps: seq<nat>)

  /** The result of a call of a bean: its outcome, the primary attempts and whether the fallback answered. */
  datatype Invocation<R> = Invocation(outcome: Attempt<R>, primaryAttempts: nat, usedFallback: bool)

  /** The template always makes a first attempt; `maxAttempts` bounds the total. */
  function AttemptLimit(p: RetryPolicy): nat {
    if p.maxAttempts < 1 then 1 else p.maxAttempts
  }

  /** The retry template from attempt `n` on, after the sleeps already taken. */
  function RetryFrom<R>(p: RetryPolicy, call: nat -> Attempt<R>, n: nat, sleeps: seq<nat>): RetryRun<R>
    requires 1 <= n <= AttemptLimit(p)
    decreases AttemptLimit(p) - n
  {
    match call(n)
    case Response(v) => RetryRun(Response(v), n, sleeps)
    case Thrown(e) =>
      if !RetryOn(e) || n == AttemptLimit(p) then RetryRun(Thrown(e), n, sleeps)
      else RetryFrom(p, call, n + 1, sleeps + [BackoffDelay(p, n)])
  }

  /** `RetryTemplate.execute` around one model call. */
  function Retry<R>(p: RetryPolicy, call: nat -> Attempt<R>): RetryRun<R> {
    RetryFrom(p, call, 1, [])
  }

  /**
   * Every retry run stops at the first response, at the first error that is
   * not retryable, or when the attempts are used up; every attempt before the
   * last threw a retryable error, and the k-th sleep is the k-th backoff delay.
   */
  lemma {:induction false} RetryFromShape<R>(p: RetryPolicy, call: nat -> Attempt<R>, n: nat, sleeps: seq<nat>)
    requires 1 <= n <= AttemptLimit(p)
    requires |sleeps| == n - 1
    requires forall k :: 0 <= k < |sleeps| ==> sleeps[k] == BackoffDelay(p, k + 1)
    ensures var run := RetryFrom(p, call, n, sleeps);
            && n <= run.attempts <= AttemptLimit(p)
            && run.outcome == call(run.attempts)
            && (forall a :: n <= a < run.attempts ==> call(a).Thrown? && RetryOn(call(a).error))
            && (run.outcome.Thrown? ==> !RetryOn(run.outcome.error) || run.attempts == AttemptLimit(p))
            && |run.sleeps| == run.attempts - 1
            && run.sleeps[..n - 1] == sleeps
            && (forall k :: 0 <= k < |run.sleeps| ==> run.sleeps[k] == BackoffDelay(p, k + 1))
    decreases AttemptLimit(p) - n
  {
    match call(n)
    case Response(v) =>
    case Thrown(e) =>
      if RetryOn(e) && n < AttemptLimit(p) {
        var sleeps' := sleeps + [BackoffDelay(p, n)];
        RetryFromShape(p, call, n + 1, sleeps');
        var run := RetryFrom(p, call, n + 1, sleeps');
        assert run.sleeps[..n - 1] == run.sleeps[..n][..n - 1] == sleeps;
      }
  }

  /**
   * The retry template makes between one and `maxAttempts` attempts, retries
   * only after a transient error, sleeps the backoff delay before each retry,
   * and returns what the last attempt yielded.
   */
  lemma RetryBounds<R>(p: RetryPolicy, call: nat -> Attempt<R>)
    ensures var run := Retry(p, call);
            && 1 <= run.attempts <= AttemptLimit(p)
            && run.outcome == call(run.attempts)
            && (forall a :: 1 <= a < run.attempts ==> call(a).Thrown? && call(a).error.Transient?)
            && (run.outcome.Thrown? ==> !run.outcome.error.Transient? || run.attempts == AttemptLimit(p))
            && |run.sleeps| == run.attempts - 1
            && (forall k :: 0 <= k < |run.sleeps| ==> run.sleeps[k] == BackoffDelay(p, k + 1))
  {
    RetryFromShape(p, call, 1, []);
  }

  /** An error that is not transient is never retried: the first attempt is the only one. */
  lemma NonTransientNotRetried<R>(p: RetryPolicy, call: nat -> Attempt<R>)
    requires call(1).Thrown? && !call(1).error.Transient?
    ensures Retry(p, call) == RetryRun(call(1), 1, [])
  {
  }

  /**
   * Under the shared template, every attempt before the last threw a
   * transient error, and with the default properties at most two attempts
   * are made.
   */
  lemma TemplateRetriesOnlyTransient<R>(props: AnthropicProperties, call: nat -> Attempt<R>)
    ensures forall a :: 1 <= a < Retry(RetryTemplateOf(props), call).attempts ==>
              call(a).Thrown? && call(a).error.Transient?
    ensures 1 <= Retry(RetryTemplateOf(DefaultProperties), call).attempts <= 2
  {
    RetryBounds(RetryTemplateOf(props), call);
    RetryBounds(RetryTemplateOf(DefaultProperties), call);
  }

  /**
   * A bean's call: retry the Claude endpoint; on a final error that
   * `flipTrigger` accepts, hand the call to the fallback if there is one.
   */
  function Invoke<R>(p: RetryPolicy, primary: nat -> Attempt<R>, fallback: Option<Attempt<R>>): (r: Invocation<R>)
    ensures r.usedFallback <==> Retry(p, primary).outcome.Thrown? && FlipTrigger(Retry(p, primary).outcome.error) && fallback.Some?
    ensures r.usedFallback ==> r.outcome == fallback.value
    ensures !r.usedFallback ==> r.outcome == Retry(p, primary).outcome
    ensures r.primaryAttempts == Retry(p, primary).attempts
  {
    var run := Retry(p, primary);
    match run.outcome
    case Response(v) => Invocation(Response(v), run.attempts, false)
    case Thrown(e) =>
      if FlipTrigger(e) && fallback.Some? then Invocation(fallback.value, run.attempts, true)
      else Invocation(Thrown(e), run.attempts, false)
  }

  /**
   * An endpoint that keeps failing with a transient error that names no
   * unavailability keyword is tried exactly `maxAttempts` times and its last
   * error is propagated; the fallback is never consulted.
   */
  lemma ExhaustedWithoutFallback<R>(p: RetryPolicy, primary: nat -> Attempt<R>, fallback: Option<Attempt<R>>)
    requires forall a :: 1 <= a <= AttemptLimit(p) ==> primary(a).Thrown? && primary(a).error.Transient? && !FlipTrigger(primary(a).error)
    ensures var r := Invoke(p, primary, fallback);
            && r.primaryAttempts == AttemptLimit(p)
            && !r.usedFallback
            && r.outcome == primary(AttemptLimit(p))
  {
    RetryBounds(p, primary);
  }

  /**
   * A non-transient failure on the first attempt goes straight to the
   * fallback: the Claude endpoint is called once and the fallback's response
   * is returned.
   */
  lemma NonTransientFallsBack<R>(p: RetryPolicy, primary: nat -> Attempt<R>, v: R, m: Option<string>)
    requires primary(1) == Thrown(NonTransient(m))
    ensures Invoke(p, primary, Some(Response(v))) == Invocation(Response(v), 1, true)
  {
  }

  /** Without a fallback, the primary's final outcome is the bean's outcome. */
  lemma NoFallbackIsTerminal<R>(p: RetryPolicy, primary: nat -> Attempt<R>)
    ensures !Invoke(p, primary, None).usedFallback
    ensures Invoke(p, primary, None).outcome == Retry(p, primary).outcome
  {
  }

  /**
   * With the default two attempts, an "overloaded" report on every attempt
   * makes two attempts with one 2-second sleep between them, then switches.
   */
  lemma DefaultOverloadedScenario<R>(primary: nat -> Attempt<R>, v: R)
    requires forall a :: primary(a) == Thrown(Transient(Some("overloaded_error")))
    ensures Retry(RetryTemplateOf(DefaultProperties), primary) == RetryRun(Thrown(Transient(Some("overloaded_error"))), 2, [2000])
    ensures Invoke(RetryTemplateOf(DefaultProperties), primary, Some(Response(v))) == Invocation(Response(v), 2, true)
  {
    OverloadedFlips();
    AnthropicBackoffSchedule(DefaultProperties, 1);
  }
}
