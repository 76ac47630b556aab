# Embabel agent: model-switching policy, example tool registry and conversation context

This project models, in Dafny, the small pieces of decision logic in the
Embabel agent code base, and proves properties about them.

1. **Anthropic model configuration** (`AnthropicModels`, with `ModelInvocation`).
   - `flipTrigger` decides whether a failed Claude call is handed to the
     OpenAI fallback model.
   - The shared Spring retry template retries only transient errors, makes at
     most `maxAttempts` attempts (2 by default) and backs off 2 s × 5, capped
     at 180 s.
   - The three Claude beans each have a fallback model.
   - A block at construction checks whether the fallbacks are present.
   - `AnthropicOptionsConverter.convertOptions` maps the portable options to
     Anthropic's.
   - `ModelInvocation` shows how one call of a bean plays out. It is an
     abstract step function, driven only by the retry parameters and
     `flipTrigger`.
2. **Custom tools example** (`CustomTools`).
   - The calculator, weather and time tools are string-dispatching functions.
   - `CustomToolRegistry` is a class whose name-keyed map is updated in place
     by `RegisterTool`.
3. **Conversation example** (`Conversation`).
   - `ConversationContext` is a class holding an append-only message history.
   - Keyword extraction and the top-three topic list are defined.
   - `ProcessUserInput` picks a reply with ordered keyword rules and records
     two messages per turn.

`Text` models the Kotlin string operations the code uses:
- `lowercase` and `uppercase`;
- `contains`, with and without `ignoreCase`;
- `split(" ")`;
- `joinToString`.

`Wrappers` holds `Option` and `Result`. A thrown `IllegalArgumentException`
is modelled as a `Failure(IllegalArgument(message))` result.

## Model

| member | source | states |
|---|---|---|
| AnthropicModels.FlipTrigger | embabel-agent-api/src/main/kotlin/com/embabel/agent/config/models/AnthropicModels.kt:106-116 | the decision itself; its contract is stated by `NonTransientAlwaysFlips`, `OtherAlwaysFlips`, `TransientFlipsIff`, `TransientWithoutMessageNeverFlips` and `FlipTriggerIgnoresCase` |
| AnthropicModels.AnyContained | embabel-agent-api/src/main/kotlin/com/embabel/agent/config/models/AnthropicModels.kt:111 | `keywords.any { msg.contains(it) }`; `AnyContainedIff` states that it holds exactly when some keyword is contained |
| AnthropicModels.AnyContainedIff | embabel-agent-api/src/main/kotlin/com/embabel/agent/config/models/AnthropicModels.kt:111 | `keywords.any { msg.contains(it) }` holds exactly when some keyword is contained in the message |
| AnthropicModels.NonTransientAlwaysFlips | embabel-agent-api/src/main/kotlin/com/embabel/agent/config/models/AnthropicModels.kt:106-108 | a non-transient error switches to the fallback, whatever its message |
| AnthropicModels.OtherAlwaysFlips | embabel-agent-api/src/main/kotlin/com/embabel/agent/config/models/AnthropicModels.kt:114 | any throwable that is neither transient nor non-transient switches |
| AnthropicModels.TransientFlipsIff | embabel-agent-api/src/main/kotlin/com/embabel/agent/config/models/AnthropicModels.kt:97-112 | a transient error switches if and only if one of the six keywords occurs at some position of its lower-cased message |
| AnthropicModels.TransientWithoutMessageNeverFlips | embabel-agent-api/src/main/kotlin/com/embabel/agent/config/models/AnthropicModels.kt:110-111 | a transient error with a null message is read as "" and never switches |
| AnthropicModels.FlipTriggerIgnoresCase | embabel-agent-api/src/main/kotlin/com/embabel/agent/config/models/AnthropicModels.kt:110 | two transient messages that differ only in letter case give the same decision |
| AnthropicModels.AbsentInitialNotContained | embabel-agent-api/src/main/kotlin/com/embabel/agent/config/models/AnthropicModels.kt:111 | a keyword whose first letter is missing from the message is not contained in it |
| AnthropicModels.OverloadedFlips | embabel-agent-api/src/main/kotlin/com/embabel/agent/config/models/AnthropicModels.kt:98-111 | a transient "overloaded_error" switches to the fallback |
| AnthropicModels.DeadlineDoesNotFlip | embabel-agent-api/src/main/kotlin/com/embabel/agent/config/models/AnthropicModels.kt:97-111 | a transient "deadline exceeded" names no keyword and does not switch |
| AnthropicModels.RetryTemplateOf | embabel-agent-api/src/main/kotlin/com/embabel/agent/config/models/AnthropicModels.kt:65-68 | the shared retry template; `ModelInvocation.TemplateRetriesOnlyTransient` states that under it only transient errors are retried and the default allows at most two attempts; `AnthropicBackoffSchedule` states its delays |
| AnthropicModels.RetryOn | embabel-agent-api/src/main/kotlin/com/embabel/agent/config/models/AnthropicModels.kt:67 | `retryOn(TransientAiException)`; `ModelInvocation.RetryBounds` and `ModelInvocation.TemplateRetriesOnlyTransient` state that a run retries only after a transient error |
| AnthropicModels.BackoffDelay | embabel-agent-api/src/main/kotlin/com/embabel/agent/config/models/AnthropicModels.kt:68 | the exponential backoff; `BackoffBoundedAndMonotone` and `AnthropicBackoffSchedule` state its cap, monotonicity and values |
| AnthropicModels.PowMonotone | embabel-agent-api/src/main/kotlin/com/embabel/agent/config/models/AnthropicModels.kt:68 | for a multiplier of at least 1, a larger exponent gives a larger or equal backoff factor |
| AnthropicModels.BackoffBoundedAndMonotone | embabel-agent-api/src/main/kotlin/com/embabel/agent/config/models/AnthropicModels.kt:68 | backoff delays never exceed the maximum interval and never shrink from one retry to the next |
| AnthropicModels.AnthropicBackoffSchedule | embabel-agent-api/src/main/kotlin/com/embabel/agent/config/models/AnthropicModels.kt:65-68 | the delay before retry k is 2000, 10000, 50000 ms, then the 180000 ms cap for k ≥ 4, that is min(180000, 2000·5^(k-1)) |
| AnthropicModels.RetryEligibility | embabel-agent-api/src/main/kotlin/com/embabel/agent/config/models/AnthropicModels.kt:43-67 | only transient errors are retried; the template takes `maxAttempts` from the properties, and the default is 2 |
| AnthropicModels.Find | embabel-agent-api/src/main/kotlin/com/embabel/agent/config/models/AnthropicModels.kt:80-81 | `find` returns a model if and only if one has that name, and then it is the first one with that name |
| AnthropicModels.Init | embabel-agent-api/src/main/kotlin/com/embabel/agent/config/models/AnthropicModels.kt:80-94 | the intended construction: each fallback is present exactly when a model of that name was injected, and is one of the injected models with that name |
| AnthropicModels.InitAsWritten | embabel-agent-api/src/main/kotlin/com/embabel/agent/config/models/AnthropicModels.kt:83-94 | construction as written; `InitAsWrittenFailsIff` and `InitAsWrittenCounterexample` state when it throws |
| AnthropicModels.InitAsWrittenFailsIff | embabel-agent-api/src/main/kotlin/com/embabel/agent/config/models/AnthropicModels.kt:83-94 | as written, construction throws exactly when GPT-4.1 or GPT-4.1 mini is missing; when it succeeds it agrees with `Init` |
| AnthropicModels.InitAsWrittenCounterexample | embabel-agent-api/src/main/kotlin/com/embabel/agent/config/models/AnthropicModels.kt:85-88 | with no OpenAI model injected, the code as written throws at the GPT-4.1 check, while the intended construction leaves both fallbacks absent |
| AnthropicModels.ClaudeOpus4 | embabel-agent-api/src/main/kotlin/com/embabel/agent/config/models/AnthropicModels.kt:118-131 | the Opus 4 bean; `FallbackTable` states its fallback and provider |
| AnthropicModels.ClaudeSonnet | embabel-agent-api/src/main/kotlin/com/embabel/agent/config/models/AnthropicModels.kt:133-146 | the Sonnet 3.7 bean; `FallbackTable` states its fallback and provider |
| AnthropicModels.ClaudeHaiku | embabel-agent-api/src/main/kotlin/com/embabel/agent/config/models/AnthropicModels.kt:148-159 | the Haiku 3.5 bean; `FallbackTable` states its fallback and provider |
| AnthropicModels.FallbackTable | embabel-agent-api/src/main/kotlin/com/embabel/agent/config/models/AnthropicModels.kt:118-159 | Opus and Sonnet fall back to the injected GPT-4.1 and Haiku to GPT-4.1 mini; under the intended construction `Init` each fallback is present exactly when that model was injected; under the construction as written, whenever it succeeds, all three beans have their fallback; all three beans have provider "Anthropic" |
| AnthropicModels.ConvertOptions | embabel-agent-api/src/main/kotlin/com/embabel/agent/config/models/AnthropicModels.kt:212-227 | `maxTokens` is the given value, or 10000 when absent; thinking is ENABLED with the given budget if and only if `thinking?.enabled == true`, and otherwise DISABLED with no budget |
| ModelInvocation.AttemptLimit | embabel-agent-api/src/main/kotlin/com/embabel/agent/config/models/AnthropicModels.kt:66 | the most attempts a run makes: `maxAttempts`, read as one when it is not positive (the first attempt always happens); `RetryBounds` states that runs stay within it |
| ModelInvocation.RetryFrom | embabel-agent-api/src/main/kotlin/com/embabel/agent/config/models/AnthropicModels.kt:65-68 | the retry template from a given attempt on; `RetryFromShape` states the shape of the run |
| ModelInvocation.Retry | embabel-agent-api/src/main/kotlin/com/embabel/agent/config/models/AnthropicModels.kt:65-68 | the retry template around one call; `RetryBounds` and `NonTransientNotRetried` state its attempts, sleeps and outcome |
| ModelInvocation.RetryFromShape | embabel-agent-api/src/main/kotlin/com/embabel/agent/config/models/AnthropicModels.kt:65-68 | from any attempt on, the run stops at the first response, at the first error that may not be retried, or at the attempt limit; every earlier attempt threw a retryable error; the k-th sleep is the k-th backoff delay |
| ModelInvocation.RetryBounds | embabel-agent-api/src/main/kotlin/com/embabel/agent/config/models/AnthropicModels.kt:65-68 | a call makes between 1 and `maxAttempts` attempts; it retries only after a transient error; it sleeps the backoff delay before each retry and returns what the last attempt yielded |
| ModelInvocation.NonTransientNotRetried | embabel-agent-api/src/main/kotlin/com/embabel/agent/config/models/AnthropicModels.kt:67 | an error that is not transient ends the run after the first attempt, with no sleep |
| ModelInvocation.TemplateRetriesOnlyTransient | embabel-agent-api/src/main/kotlin/com/embabel/agent/config/models/AnthropicModels.kt:44-67 | under the shared template every attempt before the last threw a transient error, and with the default properties a call makes one or two attempts |
| ModelInvocation.Invoke | embabel-agent-api/src/main/kotlin/com/embabel/agent/config/models/AnthropicModels.kt:124-153 | the fallback answers if and only if the retried call ends in an error that `flipTrigger` accepts and a fallback exists; otherwise the retried call's outcome is returned |
| ModelInvocation.ExhaustedWithoutFallback | embabel-agent-api/src/main/kotlin/com/embabel/agent/config/models/AnthropicModels.kt:66-111 | transient errors that name no keyword use up all attempts, and the last error is propagated without a fallback |
| ModelInvocation.NonTransientFallsBack | embabel-agent-api/src/main/kotlin/com/embabel/agent/config/models/AnthropicModels.kt:106-124 | a non-transient failure on the first attempt goes straight to the fallback after one attempt |
| ModelInvocation.NoFallbackIsTerminal | embabel-agent-api/src/main/kotlin/com/embabel/agent/config/models/AnthropicModels.kt:118-124 | without a fallback model, the retried call's outcome is final |
| ModelInvocation.DefaultOverloadedScenario | embabel-agent-api/src/main/kotlin/com/embabel/agent/config/models/AnthropicModels.kt:65-124 | with the defaults, a persistently overloaded endpoint is tried twice with one 2000 ms sleep, then the fallback answers |
| CustomTools.ParseParam | embabel-agent-examples/src/main/kotlin/com/embabel/examples/tools/CustomToolsExample.kt:184-185 | `parameters[key]?.toDoubleOrNull()`, absent when the key is missing or does not parse; `CalculatorValidation` states the failures it leads to |
| CustomTools.CalcOp | embabel-agent-examples/src/main/kotlin/com/embabel/examples/tools/CustomToolsExample.kt:187-195 | the operation dispatch; `CalcOpAliases` and `CalcOpIgnoresCase` state which names select which operation |
| CustomTools.CalculatorExecute | embabel-agent-examples/src/main/kotlin/com/embabel/examples/tools/CustomToolsExample.kt:182-197 | `CalculatorTool.execute`; `CalculatorValidation` and `CalculatorDispatch` state its failures and results |
| CustomTools.CalculatorValidation | embabel-agent-examples/src/main/kotlin/com/embabel/examples/tools/CustomToolsExample.kt:182-186 | the calculator fails if and only if the operation is missing or a or b is missing or unparsable; these are checked in that order, each with its own message, and before the operation is looked at |
| CustomTools.CalcOpAliases | embabel-agent-examples/src/main/kotlin/com/embabel/examples/tools/CustomToolsExample.kt:187-191 | each arithmetic operation is selected by exactly its word and its symbol: add/+, subtract/-, multiply/\*, divide// |
| CustomTools.CalcOpIgnoresCase | embabel-agent-examples/src/main/kotlin/com/embabel/examples/tools/CustomToolsExample.kt:187 | operation names that differ only in letter case select the same operation |
| CustomTools.CalculatorDispatch | embabel-agent-examples/src/main/kotlin/com/embabel/examples/tools/CustomToolsExample.kt:187-196 | once the parameters are valid: dividing by zero (either sign) returns "Error: Division by zero"; a known operation returns the formatted result; anything else returns "Error: Unknown operation '<op>'" |
| CustomTools.CalcOpExamples | embabel-agent-examples/src/test/kotlin/com/embabel/examples/tools/CustomToolsTest.kt:54-60 | "DIVIDE" selects division, and "power" selects no operation |
| CustomTools.Keys | embabel-agent-examples/src/main/kotlin/com/embabel/examples/tools/CustomToolsExample.kt:219 | the keys of the weather table come in table order |
| CustomTools.Lookup | embabel-agent-examples/src/main/kotlin/com/embabel/examples/tools/CustomToolsExample.kt:218 | the lookup finds a value if and only if the key is in the table, and then the value is the one stored with that key |
| CustomTools.WeatherExecute | embabel-agent-examples/src/main/kotlin/com/embabel/examples/tools/CustomToolsExample.kt:215-220 | `WeatherTool.execute`; `WeatherBehaviour`, `WeatherIgnoresCase` and `WeatherExamples` state its answers |
| CustomTools.WeatherBehaviour | embabel-agent-examples/src/main/kotlin/com/embabel/examples/tools/CustomToolsExample.kt:215-220 | a missing location fails; a known location, after lower-casing, returns its table entry; an unknown one returns "Weather data not available for '<loc>'. Available locations: " followed by the keys joined with ", " |
| CustomTools.KnownLocationsListed | embabel-agent-examples/src/main/kotlin/com/embabel/examples/tools/CustomToolsExample.kt:208-213 | the known locations are new york, london, tokyo and sydney, in that order |
| CustomTools.WeatherIgnoresCase | embabel-agent-examples/src/main/kotlin/com/embabel/examples/tools/CustomToolsExample.kt:216 | locations that differ only in letter case give the same answer |
| CustomTools.WeatherExamples | embabel-agent-examples/src/test/kotlin/com/embabel/examples/tools/CustomToolsTest.kt:71-88 | "New York" gives the sunny entry; "Mars" gives a reply that starts "Weather data not available" and does not fail |
| CustomTools.TimeZoneOf | embabel-agent-examples/src/main/kotlin/com/embabel/examples/tools/CustomToolsExample.kt:232 | the upper-cased timezone, UTC by default; `TimeBehaviour` and `TimeIgnoresCase` state its effect |
| CustomTools.OffsetHours | embabel-agent-examples/src/main/kotlin/com/embabel/examples/tools/CustomToolsExample.kt:236-241 | the hour offsets of the known zones; `TimeBehaviour` states them: UTC 0, PST -8, EST -5, JST +9, none for any other |
| CustomTools.TimeExecute | embabel-agent-examples/src/main/kotlin/com/embabel/examples/tools/CustomToolsExample.kt:231-243 | `TimeTool.execute`; `TimeBehaviour`, `TimeZoneUpperCased` and `TimeIgnoresCase` state its answers |
| CustomTools.TimeBehaviour | embabel-agent-examples/src/main/kotlin/com/embabel/examples/tools/CustomToolsExample.kt:231-243 | the time tool never fails; without a timezone it reports UTC; UTC, PST, EST and JST give the clock shifted by 0, -8, -5 and +9 hours followed by that label; any other zone gets the unshifted clock and "(<ZONE> - offset not implemented)" |
| CustomTools.TimeZoneUpperCased | embabel-agent-examples/src/main/kotlin/com/embabel/examples/tools/CustomToolsExample.kt:232-238 | the timezone is upper-cased first, so "pst" is reported as PST, 8 hours back |
| CustomTools.TimeIgnoresCase | embabel-agent-examples/src/main/kotlin/com/embabel/examples/tools/CustomToolsExample.kt:232 | timezones that differ only in letter case give the same answer |
| CustomTools.Tool.Name | embabel-agent-examples/src/main/kotlin/com/embabel/examples/tools/CustomToolsExample.kt:167-229 | the `name` of each tool (calculator, weather, time; a custom tool's own); `CustomToolRegistry.Valid` keys tools by it and `FreshRegistry` states the built-in names |
| CustomTools.Tool.Description | embabel-agent-examples/src/main/kotlin/com/embabel/examples/tools/CustomToolsExample.kt:168-228 | the `description` of each tool, as declared at lines 179, 205 and 228 |
| CustomTools.Tool.Parameters | embabel-agent-examples/src/main/kotlin/com/embabel/examples/tools/CustomToolsExample.kt:169-229 | the `parameters` of each tool, as declared at lines 180, 206 and 229 |
| CustomTools.Tool.Execute | embabel-agent-examples/src/main/kotlin/com/embabel/examples/tools/CustomToolsExample.kt:166-243 | the `CustomTool` interface: the three built-ins run their `execute`; `Custom` stands for any other implementation, as a pure function of the parameters that can only fail with `IllegalArgumentException`; `CustomToolRegistry.ExecuteTool` and `FreshRegistry` state the dispatch |
| CustomTools.CustomToolRegistry.constructor | embabel-agent-examples/src/main/kotlin/com/embabel/examples/tools/CustomToolsExample.kt:142-148 | a fresh registry holds exactly calculator, weather and time, registered in that order |
| CustomTools.CustomToolRegistry.RegisterTool | embabel-agent-examples/src/main/kotlin/com/embabel/examples/tools/CustomToolsExample.kt:150-153 | the tool is stored under its name and replaces any earlier tool of that name; every other entry is unchanged; a new name goes last in the listing order |
| CustomTools.CustomToolRegistry.AvailableTools | embabel-agent-examples/src/main/kotlin/com/embabel/examples/tools/CustomToolsExample.kt:155 | lists every registered tool once, in the map's insertion order |
| CustomTools.CustomToolRegistry.ExecuteTool | embabel-agent-examples/src/main/kotlin/com/embabel/examples/tools/CustomToolsExample.kt:157-160 | an unregistered name fails with "Tool '<name>' not found"; a registered name returns that tool's result |
| CustomTools.CountKeys | embabel-agent-examples/src/main/kotlin/com/embabel/examples/tools/CustomToolsExample.kt:139-155 | a duplicate-free listing order that names exactly the map's keys is as long as the map has entries |
| CustomTools.FreshRegistry | embabel-agent-examples/src/test/kotlin/com/embabel/examples/tools/CustomToolsTest.kt:102-127 | a fresh registry lists three tools named calculator, weather and time; it runs the calculator for "calculator" and fails for "unknown-tool" |
| Conversation.Filter | embabel-agent-examples/src/main/kotlin/com/embabel/examples/conversation/ConversationExample.kt:153-154 | `filter` keeps exactly the tokens that pass the test, each as often as it occurs in the input, and drops every other one |
| Conversation.ExtractKeywords | embabel-agent-examples/src/main/kotlin/com/embabel/examples/conversation/ConversationExample.kt:149-155 | `extractKeywords`; `KeywordShape` and `StopWordsAfterLengthFilter` state what it keeps |
| Conversation.StopWordsAfterLengthFilter | embabel-agent-examples/src/main/kotlin/com/embabel/examples/conversation/ConversationExample.kt:153-154 | among tokens longer than three characters, the whole-token stopword pattern matches only "with" |
| Conversation.KeywordShape | embabel-agent-examples/src/main/kotlin/com/embabel/examples/conversation/ConversationExample.kt:149-155 | every extracted keyword is lower-case, has no space, is longer than three characters and is not "with" |
| Conversation.UserKeywords | embabel-agent-examples/src/main/kotlin/com/embabel/examples/conversation/ConversationExample.kt:136-138 | the keywords of the user messages; `OnlyUserMessagesCount` and `TopicsComeFromUserMessages` state where they come from |
| Conversation.Distinct | embabel-agent-examples/src/main/kotlin/com/embabel/examples/conversation/ConversationExample.kt:139-141 | the grouped keys in first-occurrence order; `DistinctProperties` states that they are exactly the keywords, without duplicates |
| Conversation.SortByCount | embabel-agent-examples/src/main/kotlin/com/embabel/examples/conversation/ConversationExample.kt:142 | the stable sort by descending count; `SortByCountProperties` states that it is an ordered permutation |
| Conversation.MainTopicList | embabel-agent-examples/src/main/kotlin/com/embabel/examples/conversation/ConversationExample.kt:135-144 | the topic list; `MainTopicsAreTopKeywords` states that it holds the top three keywords |
| Conversation.MainTopics | embabel-agent-examples/src/main/kotlin/com/embabel/examples/conversation/ConversationExample.kt:135-147 | `getMainTopics`, the topic list joined with ", "; `FollowUpNamesTopics` states where it appears in the reply |
| Conversation.DistinctProperties | embabel-agent-examples/src/main/kotlin/com/embabel/examples/conversation/ConversationExample.kt:139-141 | the grouped keys have no duplicates, and they are exactly the keywords that occur |
| Conversation.InsertPermutes | embabel-agent-examples/src/main/kotlin/com/embabel/examples/conversation/ConversationExample.kt:142 | one insertion step of the stable sort adds exactly the inserted key |
| Conversation.ConsSorted | embabel-agent-examples/src/main/kotlin/com/embabel/examples/conversation/ConversationExample.kt:142 | putting a key in front of a descending list keeps it descending, provided no later count is larger |
| Conversation.InsertSorted | embabel-agent-examples/src/main/kotlin/com/embabel/examples/conversation/ConversationExample.kt:142 | an insertion step keeps the list in order of non-increasing count |
| Conversation.SortByCountProperties | embabel-agent-examples/src/main/kotlin/com/embabel/examples/conversation/ConversationExample.kt:142 | `sortedByDescending` is a permutation of its input, in order of non-increasing count |
| Conversation.NoDuplicatesIndices | embabel-agent-examples/src/main/kotlin/com/embabel/examples/conversation/ConversationExample.kt:139-141 | a list without duplicates has different elements at different positions |
| Conversation.TakeOfSorted | embabel-agent-examples/src/main/kotlin/com/embabel/examples/conversation/ConversationExample.kt:142-143 | `take(n)` of a sorted, duplicate-free list: at most n distinct entries, still sorted, none outranked by an entry left out, and the whole list when it has fewer than n |
| Conversation.MainTopicsAreTopKeywords | embabel-agent-examples/src/main/kotlin/com/embabel/examples/conversation/ConversationExample.kt:135-147 | the topic list has at most three distinct user keywords, in order of non-increasing count; no keyword left out occurs more often than one that is named; it names every keyword when there are fewer than three |
| Conversation.OnlyUserMessagesCount | embabel-agent-examples/src/main/kotlin/com/embabel/examples/conversation/ConversationExample.kt:137 | appending a message whose role is not "user" changes neither the keywords nor the topics |
| Conversation.TopicsComeFromUserMessages | embabel-agent-examples/src/main/kotlin/com/embabel/examples/conversation/ConversationExample.kt:136-155 | every counted keyword was extracted from some user message and has the keyword shape |
| Conversation.HasContext | embabel-agent-examples/src/main/kotlin/com/embabel/examples/conversation/ConversationExample.kt:133 | `hasContext`: more than two messages; `FollowUpNeedsHistory` states its effect on the first and later turns |
| Conversation.ConversationContext.constructor | embabel-agent-examples/src/main/kotlin/com/embabel/examples/conversation/ConversationExample.kt:126-127 | a new context has an empty history |
| Conversation.ConversationContext.AddMessage | embabel-agent-examples/src/main/kotlin/com/embabel/examples/conversation/ConversationExample.kt:129-131 | appends exactly one message with the given role and content, leaving earlier messages unchanged |
| Conversation.ProcessUserInput | embabel-agent-examples/src/main/kotlin/com/embabel/examples/conversation/ConversationExample.kt:76-113 | the history grows by exactly two messages: the user's input, then an assistant message equal to the returned reply; the reply is chosen against the history that already holds the input |
| Conversation.ReplyKindOf | embabel-agent-examples/src/main/kotlin/com/embabel/examples/conversation/ConversationExample.kt:82-107 | the first-match reply rules; `ReplyRuleOrder` states each rule both ways |
| Conversation.FixedReply | embabel-agent-examples/src/main/kotlin/com/embabel/examples/conversation/ConversationExample.kt:83-106 | the five fixed reply texts, as the source's literals; `ReplyRuleOrder` states when each is chosen |
| Conversation.FollowUpReply | embabel-agent-examples/src/main/kotlin/com/embabel/examples/conversation/ConversationExample.kt:98-101 | the follow-up reply around the topics; `FollowUpNamesTopics` states where the topics appear |
| Conversation.ReplyText | embabel-agent-examples/src/main/kotlin/com/embabel/examples/conversation/ConversationExample.kt:82-107 | the reply of a rule: the follow-up text for the follow-up rule, the fixed text otherwise; `ProcessUserInput` and `FollowUpNamesTopics` use it |
| Conversation.Reply | embabel-agent-examples/src/main/kotlin/com/embabel/examples/conversation/ConversationExample.kt:82-107 | the reply to an input against a history; `ProcessUserInput` returns it and `FollowUpNamesTopics` states the follow-up case |
| Conversation.ReplyRuleOrder | embabel-agent-examples/src/main/kotlin/com/embabel/examples/conversation/ConversationExample.kt:82-107 | the reply is chosen by the first matching rule, with case-insensitive substring tests in this order: hello/hi, RAG/retrieval, vector/embedding, example/demo, context, default; each rule is stated both ways |
| Conversation.FollowUpNamesTopics | embabel-agent-examples/src/main/kotlin/com/embabel/examples/conversation/ConversationExample.kt:98-100 | the follow-up reply contains the main topics right after its 32-character opening |
| Conversation.FollowUpNeedsHistory | embabel-agent-examples/src/main/kotlin/com/embabel/examples/conversation/ConversationExample.kt:76-101 | on the first turn of an empty context the follow-up rule cannot fire; with two or more earlier messages, the context test always holds |
| Conversation.GreetingMatchesInsideWords | embabel-agent-examples/src/main/kotlin/com/embabel/examples/conversation/ConversationExample.kt:83 | "hi" is a substring test, so "which vector store?" gets the greeting |
| Text.Lower | embabel-agent-examples/src/main/kotlin/com/embabel/examples/conversation/ConversationExample.kt:151 | `lowercase()`; `LowerIsLowerCase`, `LowerOfLowerCase` and `LowerEqualIff` state its contract |
| Text.Upper | embabel-agent-examples/src/main/kotlin/com/embabel/examples/tools/CustomToolsExample.kt:232 | `uppercase()`; `UpperEqualIgnoringCase` states that letter case in its input does not matter |
| Text.Contains | embabel-agent-api/src/main/kotlin/com/embabel/agent/config/models/AnthropicModels.kt:111 | `contains`; `ContainsIff` and `ContainsEmpty` state that it finds exactly the occurrences |
| Text.ContainsIgnoreCase | embabel-agent-examples/src/main/kotlin/com/embabel/examples/conversation/ConversationExample.kt:83-94 | `contains(ignoreCase = true)`, as `Contains` on the lower-cased strings; `ReplyRuleOrder` uses it |
| Text.Join | embabel-agent-examples/src/main/kotlin/com/embabel/examples/conversation/ConversationExample.kt:146 | `joinToString(sep)`; `JoinSplit` states that it undoes `Split` |
| Text.LowerIsLowerCase | embabel-agent-examples/src/main/kotlin/com/embabel/examples/conversation/ConversationExample.kt:151 | `lowercase` keeps the length and leaves no upper-case letter |
| Text.LowerOfLowerCase | embabel-agent-examples/src/main/kotlin/com/embabel/examples/tools/CustomToolsExample.kt:187 | lower-casing leaves a lower-case string unchanged |
| Text.LowerEqualIff | embabel-agent-api/src/main/kotlin/com/embabel/agent/config/models/AnthropicModels.kt:110 | two strings have the same lower-case form if and only if they differ only in letter case |
| Text.UpperEqualIgnoringCase | embabel-agent-examples/src/main/kotlin/com/embabel/examples/tools/CustomToolsExample.kt:232 | strings that differ only in letter case have the same upper-case form |
| Text.ContainsIff | embabel-agent-api/src/main/kotlin/com/embabel/agent/config/models/AnthropicModels.kt:111 | `contains` holds if and only if the needle occurs at some position |
| Text.ContainsEmpty | embabel-agent-api/src/main/kotlin/com/embabel/agent/config/models/AnthropicModels.kt:110-111 | every string contains "", and "" contains only "" |
| Text.Split | embabel-agent-examples/src/main/kotlin/com/embabel/examples/conversation/ConversationExample.kt:152 | `split` always yields at least one piece |
| Text.SplitPiecesLackSeparator | embabel-agent-examples/src/main/kotlin/com/embabel/examples/conversation/ConversationExample.kt:152 | no piece of a split holds the separator |
| Text.SplitPiecesFromInput | embabel-agent-examples/src/main/kotlin/com/embabel/examples/conversation/ConversationExample.kt:152 | every character of a piece comes from the input |
| Text.JoinSplit | embabel-agent-examples/src/main/kotlin/com/embabel/examples/conversation/ConversationExample.kt:152 | joining the pieces with the separator gives back the input, so `split` keeps empty pieces and loses nothing |

## Left out

- Character handling: case folding, in `lowercase`, `uppercase` and `ignoreCase = true`, covers the ASCII letters only. Kotlin's locale-independent Unicode folding is not modelled.
- Conversation.ExtractKeywords: a string is a sequence of Unicode scalar values, so lengths count code points. Kotlin's `length` counts UTF-16 code units, so a token holding a character outside the Basic Multilingual Plane (an emoji, say) can pass `length > 3` in Kotlin yet be dropped here: "ab😀" has length 4 in Kotlin and 3 here.
- Calculator numerics: `toDoubleOrNull`, double arithmetic and `Double.toString` are abstract parameters (`Numerics`). A double is its 64-bit pattern, and `b == 0.0` holds for both signed zeros. The calculator results, like "5.0", are therefore not computed.
- AnthropicModels.RetryPolicy: the backoff multiplier, the double 5.0, is the integer 5. That is exact: every delay 2000·5^(k-1) ms, capped at 180000 ms, is a whole number of milliseconds.
- Time tool clock: `LocalDateTime.now`, `minusHours`/`plusHours` and the date formatter are an abstract `clock` from an hour offset to the formatted text. Only the timezone selection is modelled.
- `temperature` and `topP` are not modelled: the converter passes them through unchanged, and they are floating point.
- The message timestamps (`System.currentTimeMillis`) are not modelled.
- Pricing is given as whole US cents per million tokens instead of dollar doubles.
- Spring wiring, logging and the HTTP client are not modelled, as they are framework plumbing. That covers `@Configuration`, `@Bean`, conditional properties, `CommandLineRunner.run`, the `main` entry points, `createAnthropicApi` and `AnthropicChatModel`.
- ModelInvocation.Retry: the inner loop of Spring's `RetryTemplate` (with its sleeping and listener) is library code outside this repository. It is modelled as a bounded-attempt step function that uses only the configured predicate and parameters. For a non-positive `maxAttempts` it assumes one attempt.
- ModelInvocation.Invoke: `Llm.withFallback` is library code outside this repository. Its meaning is inferred from its arguments: switch to `fallbackTo` when `whenError` accepts the final error. The fallback model's own retries are abstracted into the single outcome it produces.
- `OpenAiModels` is not part of this model. The names "gpt-4.1" and "gpt-4.1-mini" stand in for `GPT_41` and `GPT_41_MINI`.
- Conversation.MainTopicsAreTopKeywords: it does not state how ties are ordered. `SortByCount` inserts stably, keeping the first occurrence of each keyword (a Kotlin `LinkedHashMap`), but the lemma states only the non-increasing counts and the top-three property.
- The interactive console loop of `startInteractiveConversation` is console I/O and is not modelled. That covers reading lines, "exit" and skipping blank input.
- `PlanningExample` and `BasicRagExample` are demos over external services and types, and are not modelled.
- The reply texts are kept as the source's literals. Because they are long, no lemma is proved about the contents of the five fixed replies.

## Findings

| source | as written | input that shows it | evidently intended | confidence | as-written member | corrected member |
|---|---|---|---|---|---|---|
| embabel-agent-api/src/main/kotlin/com/embabel/agent/config/models/AnthropicModels.kt:85-94 | the "not available" branches log `gpt41!!.name` and `gpt41mini!!.name` just after finding them null, so they throw `NullPointerException` | an `llms` list with no model named GPT-4.1 (for example the empty list) | report the missing fallback and construct the configuration without it, as line 48 says ("fall back to OpenAI if it's available") | not executed | AnthropicModels.InitAsWrittenCounterexample | AnthropicModels.Init |
