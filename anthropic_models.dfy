/**
 * The Anthropic model configuration: which failures of a Claude call switch to
 * the OpenAI fallback (`flipTrigger`), the retry template the chat models share,
 * the three Claude beans with their fallbacks, the fallback-presence check run
 * at construction, and the conversion of portable options to Anthropic options.
 */
module AnthropicModels {
  import opened Wrappers
  import opened Text

  // ---------------------------------------------------------------------------
  // Error classification (`flipTrigger`)
  // ---------------------------------------------------------------------------

  /** The throwables a model call can raise, as far as `flipTrigger` tells them apart. */
  datatype AiError =
    | Transient(message: Option<string>)     // TransientAiException
    | NonTransient(message: Option<string>)  // NonTransientAiException
    | Other(message: Option<string>)         // any other Throwable

  /** Words in a transient error's message that signal sustained unavailability. */
  const Keywords: seq<string> :=
    ["overloaded", "busy", "rate_limit", "throttled", "quota", "organization"]

  /** `ks.any { msg.contains(it) }`. */
  function AnyContained(msg: string, ks: seq<string>): bool
    decreases |ks|
  {
    if ks == [] then false else Contains(msg, ks[0]) || AnyContained(msg, ks[1..])
  }

  /** Whether a failed call should switch to the fallback model. */
  function FlipTrigger(t: AiError): bool {
    match t
    case NonTransient(_) => true
    case Transient(m) => AnyContained(Lower(m.GetOr("")), Keywords)
    case Other(_) => true
  }

  /** `any` holds exactly when some element satisfies the test. */
  lemma {:induction false} AnyContainedIff(msg: string, ks: seq<string>)
    ensures AnyContained(msg, ks) <==> exists j :: 0 <= j < |ks| && Contains(msg, ks[j])
    decreases |ks|
  {
    if ks != [] {
      AnyContainedIff(msg, ks[1..]);
      assert forall j :: 0 <= j < |ks| - 1 ==> ks[1..][j] == ks[j + 1];
      if AnyContained(msg, ks[1..]) {
        var j :| 0 <= j < |ks| - 1 && Contains(msg, ks[1..][j]);
        assert Contains(msg, ks[j + 1]);
      }
      if exists j :: 0 <= j < |ks| && Contains(msg, ks[j]) {
        var j :| 0 <= j < |ks| && Contains(msg, ks[j]);
        if j > 0 {
          assert Contains(msg, ks[1..][j - 1]);
        }
      }
    }
  }

  /** A non-transient error always switches to the fallback, whatever its message. */
  lemma NonTransientAlwaysFlips(m: Option<string>)
    ensures FlipTrigger(NonTransient(m))
  {
  }

  /** A throwable that is neither transient nor non-transient always switches. */
  lemma OtherAlwaysFlips(m: Option<string>)
    ensures FlipTrigger(Other(m))
  {
  }

  /**
   * A transient error switches exactly when one of the six keywords occurs
   * somewhere in its lower-cased message.
   */
  lemma TransientFlipsIff(m: string)
    ensures FlipTrigger(Transient(Some(m))) <==>
            exists j, i :: 0 <= j < |Keywords| && OccursAt(Lower(m), Keywords[j], i)
  {
    var msg := Lower(m);
    AnyContainedIff(msg, Keywords);
    forall j | 0 <= j < |Keywords| ensures Contains(msg, Keywords[j]) <==> exists i :: OccursAt(msg, Keywords[j], i) {
      ContainsIff(msg, Keywords[j]);
    }
  }

  /** A transient error without a message is read as "" and never switches. */
  lemma TransientWithoutMessageNeverFlips()
    ensures !FlipTrigger(Transient(None))
  {
    AnyContainedIff("", Keywords);
    forall j | 0 <= j < |Keywords| ensures !Contains("", Keywords[j]) {
      assert |Keywords[j]| > 0;
      ContainsEmpty("", Keywords[j]);
    }
  }

  /** Letter case in a transient error's message does not change the decision. */
  lemma FlipTriggerIgnoresCase(m1: string, m2: string)
    requires EqualIgnoringCase(m1, m2)
    ensures FlipTrigger(Transient(Some(m1))) == FlipTrigger(Transient(Some(m2)))
  {
    LowerEqualIff(m1, m2);
  }

  /** A string whose first letter does not occur in `msg` is not contained in it. */
  lemma AbsentInitialNotContained(msg: string, k: string)
    requires |k| > 0 && k[0] !in msg
    ensures !Contains(msg, k)
  {
    ContainsIff(msg, k);
    forall i | 0 <= i ensures !OccursAt(msg, k, i) {
      if i + |k| <= |msg| {
        assert msg[i..i + |k|][0] == msg[i];
      }
    }
  }

  /** An overload report from the provider switches to the fallback. */
  lemma OverloadedFlips()
    ensures FlipTrigger(Transient(Some("overloaded_error")))
  {
    var over := "overloaded_error";
    LowerOfLowerCase(over);
    assert OccursAt(over, Keywords[0], 0);
    TransientFlipsIff(over);
  }

  /** A missed deadline names no keyword: it is retried but never switches. */
  lemma DeadlineDoesNotFlip()
    ensures !FlipTrigger(Transient(Some("deadline exceeded")))
  {
    var quiet := "deadline exceeded";
    LowerOfLowerCase(quiet);
    forall j | 0 <= j < |Keywords| ensures !Contains(quiet, Keywords[j]) {
      assert Keywords[j][0] in "obrtq";
      assert forall i :: 0 <= i < |quiet| ==> quiet[i] !in "obrtq";
      AbsentInitialNotContained(quiet, Keywords[j]);
    }
    AnyContainedIff(quiet, Keywords);
  }

  // ---------------------------------------------------------------------------
  // Retry configuration
  // ---------------------------------------------------------------------------

  /** `AnthropicProperties`, bound from the `anthropic.*` configuration keys. */
  datatype AnthropicProperties = AnthropicProperties(maxAttempts: int)

  const DefaultMaxAttempts: int := 2

  const DefaultProperties: AnthropicProperties := AnthropicProperties(DefaultMaxAttempts)

  /** The parameters handed to `RetryTemplate.builder()`; durations in milliseconds. */
  datatype RetryPolicy = RetryPolicy(
    maxAttempts: int,
    initialIntervalMs: nat,
    multiplier: nat,
    maxIntervalMs: nat)

  const InitialIntervalMs: nat := 2000
  const BackoffMultiplier: nat := 5
  const MaxIntervalMs: nat := 180000

  /** The shared retry template: the configured attempt count and exponential backoff. */
  function RetryTemplateOf(props: AnthropicProperties): RetryPolicy {
    RetryPolicy(props.maxAttempts, InitialIntervalMs, BackoffMultiplier, MaxIntervalMs)
  }

  /** `retryOn(TransientAiException)`: only transient errors are retried. */
  predicate RetryOn(e: AiError) {
    e.Transient?
  }

  function Pow(b: nat, e: nat): nat
    decreases e
  {
    if e == 0 then 1 else b * Pow(b, e - 1)
  }

  function Min(a: nat, b: nat): nat {
    if a <= b then a else b
  }

  /** The sleep before the `retry`-th retry (the first retry is 1). */
  function BackoffDelay(p: RetryPolicy, retry: nat): nat
    requires retry >= 1
  {
    Min(p.maxIntervalMs, p.initialIntervalMs * Pow(p.multiplier, retry - 1))
  }

  lemma {:induction false} PowMonotone(b: nat, e1: nat, e2: nat)
    requires b >= 1 && e1 <= e2
    ensures Pow(b, e1) <= Pow(b, e2)
    decreases e2
  {
    if e1 < e2 {
      PowMonotone(b, e1, e2 - 1);
      assert Pow(b, e2) == b * Pow(b, e2 - 1) >= Pow(b, e2 - 1);
    }
  }

  /** Delays never exceed the cap and never shrink from one retry to the next. */
  lemma BackoffBoundedAndMonotone(p: RetryPolicy, k1: nat, k2: nat)
    requires p.multiplier >= 1
    requires 1 <= k1 <= k2
    ensures BackoffDelay(p, k1) <= BackoffDelay(p, k2) <= p.maxIntervalMs
  {
    PowMonotone(p.multiplier, k1 - 1, k2 - 1);
    assert p.initialIntervalMs * Pow(p.multiplier, k1 - 1) <= p.initialIntervalMs * Pow(p.multiplier, k2 - 1);
  }

  /**
   * The schedule of the shared template: 2 s, 10 s, 50 s, then the 180 s cap
   * for every later retry, whatever the configured attempt count.
   */
  lemma {:induction false} AnthropicBackoffSchedule(props: AnthropicProperties, k: nat)
    requires k >= 1
    ensures BackoffDelay(RetryTemplateOf(props), k) ==
            if k == 1 then 2000 else if k == 2 then 10000 else if k == 3 then 50000 else 180000
  {
    var p := RetryTemplateOf(props);
    assert Pow(5, 0) == 1;
    assert Pow(5, 1) == 5;
    assert Pow(5, 2) == 25;
    if k >= 4 {
      assert Pow(5, 3) == 125;
      PowMonotone(5, 3, k - 1);
    }
  }

  /** Only transient errors are retried; the default allows two attempts in all. */
  lemma RetryEligibility(props: AnthropicProperties, e: AiError)
    ensures RetryOn(e) <==> e.Transient?
    ensures !RetryOn(NonTransient(e.message)) && !RetryOn(Other(e.message))
    ensures RetryTemplateOf(props).maxAttempts == props.maxAttempts
    ensures RetryTemplateOf(DefaultProperties).maxAttempts == 2
  {
  }

  // ---------------------------------------------------------------------------
  // Model descriptors, the fallback table and the construction-time check
  // ---------------------------------------------------------------------------

  const Claude37Sonnet: string := "claude-3-7-sonnet-latest"
  const Claude35Haiku: string := "claude-3-5-haiku-latest"
  const Claude40Opus: string := "claude-opus-4-20250514"
  const Provider: string := "Anthropic"

  /** The names `OpenAiModels.GPT_41` and `OpenAiModels.GPT_41_MINI`. */
  const Gpt41Name: string := "gpt-4.1"
  const Gpt41MiniName: string := "gpt-4.1-mini"

  datatype Date = Date(year: int, month: int, day: int)

  /** `PerTokenPricingModel`, in US cents per million tokens. */
  datatype Pricing = Pricing(centsPer1mInputTokens: nat, centsPer1mOutputTokens: nat)

  /** An `Llm` descriptor; `fallback` is the model `withFallback` switches to. */
  datatype Llm = Llm(
    name: string,
    provider: string,
    knowledgeCutoff: Option<Date>,
    pricing: Option<Pricing>,
    fallback: Option<Llm>)

  /** `llms.find { it.name == name }`: the first model of that name, if any. */
  function Find(llms: seq<Llm>, name: string): (r: Option<Llm>)
    ensures r.Some? <==> exists i :: 0 <= i < |llms| && llms[i].name == name
    ensures r.Some? ==> r.value in llms && r.value.name == name
    ensures r.Some? ==> exists i :: 0 <= i < |llms| && llms[i] == r.value &&
                                    forall j :: 0 <= j < i ==> llms[j].name != name
    decreases |llms|
  {
    if llms == [] then None
    else if llms[0].name == name then Some(llms[0])
    else
      var r := Find(llms[1..], name);
      assert forall i :: 1 <= i < |llms| ==> llms[i] == llms[1..][i - 1];
      assert r.Some? ==> exists i :: 0 <= i < |llms| && llms[i] == r.value &&
                                     forall j :: 0 <= j < i ==> llms[j].name != name by {
        if r.Some? {
          var i :| 0 <= i < |llms| - 1 && llms[1..][i] == r.value &&
                   forall j :: 0 <= j < i ==> llms[1..][j].name != name;
          assert llms[i + 1] == r.value;
          assert forall j :: 0 <= j < i + 1 ==> llms[j].name != name by {
            forall j | 0 <= j < i + 1 ensures llms[j].name != name {
              if j > 0 { assert llms[j] == llms[1..][j - 1]; }
            }
          }
        }
      }
      r
  }

  /** The two OpenAI models found among the injected ones, if present. */
  datatype Fallbacks = Fallbacks(gpt41: Option<Llm>, gpt41mini: Option<Llm>)

  /** What the construction-time block throws: `!!` applied to `null`. */
  datatype InitFailure = NullPointer(missing: string)

  /**
   * Construction as written: the "not available" branch applies `!!` to the
   * value it has just found to be `null`, so construction throws whenever a
   * fallback is missing.
   */
  function InitAsWritten(llms: seq<Llm>): Result<Fallbacks, InitFailure> {
    var gpt41 := Find(llms, Gpt41Name);
    var gpt41mini := Find(llms, Gpt41MiniName);
    if gpt41.None? then Failure(NullPointer(Gpt41Name))
    else if gpt41mini.None? then Failure(NullPointer(Gpt41MiniName))
    else Success(Fallbacks(gpt41, gpt41mini))
  }

  /** Construction as intended: a missing fallback is reported and left absent. */
  function Init(llms: seq<Llm>): (r: Fallbacks)
    ensures r.gpt41.Some? <==> exists i :: 0 <= i < |llms| && llms[i].name == Gpt41Name
    ensures r.gpt41mini.Some? <==> exists i :: 0 <= i < |llms| && llms[i].name == Gpt41MiniName
    ensures r.gpt41.Some? ==> r.gpt41.value in llms && r.gpt41.value.name == Gpt41Name
    ensures r.gpt41mini.Some? ==> r.gpt41mini.value in llms && r.gpt41mini.value.name == Gpt41MiniName
  {
    Fallbacks(Find(llms, Gpt41Name), Find(llms, Gpt41MiniName))
  }

  /** As written, construction fails exactly when one of the two OpenAI models is absent. */
  lemma InitAsWrittenFailsIff(llms: seq<Llm>)
    ensures InitAsWritten(llms).Failure? <==>
            (Find(llms, Gpt41Name).None? || Find(llms, Gpt41MiniName).None?)
    ensures InitAsWritten(llms).Success? ==> InitAsWritten(llms).value == Init(llms)
  {
  }

  /** With no OpenAI model injected, construction as written throws, while the intended one does not. */
  lemma InitAsWrittenCounterexample()
    ensures InitAsWritten([]) == Failure(NullPointer(Gpt41Name))
    ensures Init([]) == Fallbacks(None, None)
  {
  }

  /** `claudeOpus4()`: Opus 4, cutoff 2025-03-31, US$15 / US$75, falling back to GPT-4.1. */
  function ClaudeOpus4(f: Fallbacks): Llm {
    Llm(Claude40Opus, Provider, Some(Date(2025, 3, 31)), Some(Pricing(1500, 7500)), f.gpt41)
  }

  /** `claudeSonnet()`: Sonnet 3.7, cutoff 2024-10-31, US$3 / US$15, falling back to GPT-4.1. */
  function ClaudeSonnet(f: Fallbacks): Llm {
    Llm(Claude37Sonnet, Provider, Some(Date(2024, 10, 31)), Some(Pricing(300, 1500)), f.gpt41)
  }

  /** `claudeHaiku()`: Haiku 3.5, cutoff 2024-10-22, US$0.80 / US$4, falling back to GPT-4.1 mini. */
  function ClaudeHaiku(f: Fallbacks): Llm {
    Llm(Claude35Haiku, Provider, Some(Date(2024, 10, 22)), Some(Pricing(80, 400)), f.gpt41mini)
  }

  /**
   * The fallback table: Opus and Sonnet fall back to the injected GPT-4.1 and
   * Haiku to GPT-4.1 mini. Under the intended construction each is present
   * exactly when that model was injected; as written, a construction that
   * succeeds always gives every bean its fallback.
   */
  lemma FallbackTable(llms: seq<Llm>)
    ensures ClaudeOpus4(Init(llms)).fallback == Find(llms, Gpt41Name)
    ensures ClaudeSonnet(Init(llms)).fallback == Find(llms, Gpt41Name)
    ensures ClaudeHaiku(Init(llms)).fallback == Find(llms, Gpt41MiniName)
    ensures ClaudeOpus4(Init(llms)).fallback.Some? ==> ClaudeOpus4(Init(llms)).fallback.value.name == Gpt41Name
    ensures ClaudeHaiku(Init(llms)).fallback.Some? ==> ClaudeHaiku(Init(llms)).fallback.value.name == Gpt41MiniName
    ensures ClaudeHaiku(Init(llms)).fallback.Some? <==> exists i :: 0 <= i < |llms| && llms[i].name == Gpt41MiniName
    ensures ClaudeOpus4(Init(llms)).provider == ClaudeSonnet(Init(llms)).provider == ClaudeHaiku(Init(llms)).provider == Provider
    ensures InitAsWritten(llms).Success? ==>
              && ClaudeOpus4(InitAsWritten(llms).value).fallback.Some?
              && ClaudeSonnet(InitAsWritten(llms).value).fallback.Some?
              && ClaudeHaiku(InitAsWritten(llms).value).fallback.Some?
  {
  }

  // ---------------------------------------------------------------------------
  // AnthropicOptionsConverter
  // ---------------------------------------------------------------------------

  /** The portable thinking setting of `LlmOptions`. */
  datatype Thinking = Thinking(enabled: bool, tokenBudget: Option<int>)

  /** The parts of `LlmOptions` the converter decides on. */
  datatype LlmOptions = LlmOptions(maxTokens: Option<int>, thinking: Option<Thinking>)

  datatype ThinkingType = Enabled | Disabled

  datatype ThinkingConfig = ThinkingConfig(kind: ThinkingType, budgetTokens: Option<int>)

  /** The parts of `AnthropicChatOptions` the converter decides on. */
  datatype AnthropicChatOptions = AnthropicChatOptions(maxTokens: int, thinking: ThinkingConfig)

  /** Anthropic's own default is too low and truncates responses. */
  const DefaultMaxTokens: int := 10000

  /**
   * `convertOptions`: the given token limit or 10000, and thinking switched on
   * with the given budget exactly when the options ask for it.
   */
  function ConvertOptions(options: LlmOptions): (r: AnthropicChatOptions)
    ensures options.maxTokens.Some? ==> r.maxTokens == options.maxTokens.value
    ensures options.maxTokens.None? ==> r.maxTokens == DefaultMaxTokens
    ensures r.thinking.kind == Enabled <==> options.thinking.Some? && options.thinking.value.enabled
    ensures r.thinking.kind == Enabled ==> r.thinking.budgetTokens == options.thinking.value.tokenBudget
    ensures r.thinking.kind == Disabled ==> r.thinking.budgetTokens == None
  {
    AnthropicChatOptions(
      options.maxTokens.GetOr(DefaultMaxTokens),
      if options.thinking.Some? && options.thinking.value.enabled
      then ThinkingConfig(Enabled, options.thinking.value.tokenBudget)
      else ThinkingConfig(Disabled, None))
  }
}
