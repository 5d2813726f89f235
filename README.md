# Path filtering and LLM invocation of an AI pull-request reviewer, in Dafny

This project models the core of a GitHub Action that reviews pull requests with a
large language model:

- **Path filter** (`src/options.ts`). The `path_filters` input lines become an
  ordered list of include and exclude glob rules. A path passes when no exclude
  rule matches it and, if any include rule exists, some include rule matches it.
  Glob matching is a parameter `matches(path, pattern)`, so every law holds for any
  matcher.
- **Azure adapter** (`src/bot/azure.ts`). `sendMessage` keeps an in-memory map from
  response id to conversation thread. It continues a stored thread when given a
  known parent id. On success it files the new thread under the provider's response
  id. On failure it rethrows and leaves the map alone.
- **Bot façade** (`src/bot/index.ts`). The constructor picks the Azure or the
  OpenAI client, or throws. `chat_` short-circuits on an empty message, retries the
  provider call at most `retries + 1` times, and strips one leading `"with "`.
  `chat` turns anything `chat_` throws into `['', {}]`.
- **Bot options** (`src/main.ts`, `deriveBotOptions`). The action's options map to
  one bot's options, with a token budget that depends on the mode.

Modules: `Wrappers` (Option and Result), `Strings` (JavaScript `trim` and
`startsWith`), `Settings` (options.ts), `Llm` (the interface types of index.ts),
`Azure` (azure.ts), `Bots` (index.ts) and `Startup` (main.ts).

The provider is never called. What attempt `k` of a chat gets back is
`transport(k)`, a `Reply`. It is `Failed(error)` for an error the retry wrapper
retries, `Rejected(error)` for one it does not retry, or
`Completion(id, content)`. The Azure adapter returns the request it would send, so
contracts can state which messages go out.

Behaviours of the code that a reader might not expect, and which the model
reproduces as written:

- A new Azure thread holds the user message only. Line 34 of `src/bot/azure.ts`
  puts the system message into `messages`, evidently so that every new thread
  opens with it. But both branches of the `if` at lines 38-47 overwrite
  `messages`. So the system message is never sent, and a stored thread
  alternates user and assistant turns from its first message
  (`Azure.FreshThreadHasNoSystemMessage`, `Azure.CallKeepsThreadsAlternating`).
- The Azure store overwrites the entry of a response id that is already present. A
  thread is kept unchanged only when the new response id differs from its key
  (`Azure.RecordedKeepsOtherThreads`).
- A response without choices makes `sendMessage` throw a `TypeError` at
  `src/bot/azure.ts:77`. The retry wrapper does not retry such an error, so the
  chat ends at once with `''`, even when retries remain
  (`Bots.RejectedReplyEndsRetries`).
- `chat_` catches the failure after the last retry itself. What reaches `chat`'s
  own catch is a `TypeError`, thrown when the reply's content is null and
  `startsWith` is called on it (`Bots.NullContentDegrades`).

## Model

| member | source | states |
|---|---|---|
| `Strings.Trim` | src/options.ts:117 | `trim()` is empty exactly when the line is all whitespace; otherwise neither end of the result is whitespace |
| `Strings.TrimIsSlice` | src/options.ts:117 | the trimmed text is the slice of the line between its leading and trailing whitespace |
| `Strings.TrimKeepsUnpaddedText` | src/options.ts:117 | a line with no whitespace at either end is its own trim |
| `Strings.TrimIdempotent` | src/options.ts:117-120 | trimming twice is trimming once, so a pattern kept by the filter is already trimmed |
| `Settings.ParseEntry` | src/options.ts:117-124 | a line gives at most one rule; none exactly when it is missing or blank; the rule is an exclude rule exactly when the trimmed line starts with `!` |
| `Settings.ParseAll` | src/options.ts:116-125 | the rules the constructor's loop collects: at most one per input line |
| `Settings.ParseRules` | src/options.ts:114-125 | a null argument gives no rules; otherwise at most one rule per line, as `ParseAll` |
| `Settings.ParseAllAppend` | src/options.ts:116-125 | parsing distributes over concatenation of the lines, so rules keep input order |
| `Settings.NoRulesIffAllBlank` | src/options.ts:115-118 | a list of lines gives no rule exactly when every line is null, empty or whitespace-only |
| `Settings.ParsedPatternsAreTrimmed` | src/options.ts:117-122 | every kept pattern is already trimmed; an include pattern is non-empty and never starts with `!` |
| `Settings.EntryPatternIsTrimmed` | src/options.ts:117-122 | the same for the rule of a single line |
| `Settings.BangAloneExcludesEmptyPattern` | src/options.ts:119-120 | the line `!`, with or without blanks around it, is an exclude rule with the empty pattern |
| `Settings.ParseTrimmedLine` | src/options.ts:119-122 | a line without surrounding blanks is an include rule for itself, or, when it starts with `!`, an exclude rule for the rest trimmed again |
| `Settings.IncludeLine` | src/options.ts:121-122 | a line without surrounding blanks or a leading `!` is included as it is |
| `Settings.ExcludeLine` | src/options.ts:119-120 | `!` followed directly by a pattern without surrounding blanks excludes that pattern |
| `Settings.ParseSeesTrimmedLine` | src/options.ts:117-122 | a line gives the same rule as its trimmed text: blanks around the line do not matter |
| `Settings.BangThenBlankExcludes` | src/options.ts:119-120 | the line `! a` excludes `a`: the blank after the `!` is trimmed away by the second `trim()` |
| `Settings.TwoLines` | src/options.ts:116-125 | two lines give the first line's rules followed by the second's |
| `Settings.GeneratedSourcesRules` | src/options.ts:116-124 | the lines `src/**` and `!src/gen/**` give an include rule followed by an exclude rule |
| `Settings.PathFilter.constructor` | src/options.ts:113-127 | the loop builds exactly the parsed rules, in input order; a null argument gives no rules |
| `Settings.PathFilter.Check` | src/options.ts:129-152 | with no rules every path passes; otherwise the result is (no include rule exists, or some include rule matches) and no exclude rule matches |
| `Settings.EmptyRulesAdmitEverything` | src/options.ts:130-132 | with no rules every path is admitted, so the early return agrees with the general formula |
| `Settings.ExcludeWins` | src/options.ts:138-151 | a matching exclude rule rejects the path, wherever it stands and whatever include rules match |
| `Settings.IncludeOnlyWhenMatched` | src/options.ts:138-151 | once an include rule exists, a path passes only if some include rule matches it |
| `Settings.OnlyExcludeRules` | src/options.ts:138-151 | with only exclude rules, a path passes exactly when no pattern matches it |
| `Settings.OrderIndependent` | src/options.ts:138-151 | any reordering of the rules gives the same verdict |
| `Settings.GeneratedSourcesExample` | src/options.ts:134-151 | with `src/**` and `!src/gen/**`, `src/gen/x.ts` is rejected, `src/core/x.ts` passes and `docs/a.md` is rejected |
| `Settings.LockFilesExample` | src/options.ts:113-151 | the single line `!*.lock` rejects `a.lock` and lets `a.ts` through |
| `Settings.SkipLockFilesRules` | src/options.ts:116-124 | the single line `!*.lock` gives one exclude rule for `*.lock` |
| `Settings.Options.constructor` | src/options.ts:30-76 | every setting the core reads is copied; the path rules are parsed into a PathFilter |
| `Settings.Options.CheckPath` | src/options.ts:103-107 | `checkPath` returns exactly the path filter's verdict |
| `Azure.AzureOpenAILLM.constructor` | src/bot/azure.ts:14-28 | the client is bound to the endpoint, key and deployment; the system message is kept; the store starts empty |
| `Azure.AzureOpenAILLM.SendMessage` | src/bot/azure.ts:30-97 | the request carries the deployment and the continued or fresh thread; a completion is filed under its id and returned as `{text, id}`; a failure is rethrown with the store unchanged; alternating threads stay alternating |
| `Azure.Recorded` | src/bot/azure.ts:82-96 | a completion adds or replaces exactly the thread under its response id; a call that throws leaves the store as it was |
| `Azure.Continues` | src/bot/azure.ts:38 | a call continues a stored thread exactly when its parent id is truthy and stored; `Azure.ContinuationExtendsThread` and `Azure.UnknownParentIsFresh` state what is sent in each case |
| `Azure.Conversation` | src/bot/azure.ts:34-47 | the messages sent always end with the user turn for `text` |
| `Azure.ContinuationExtendsThread` | src/bot/azure.ts:38-43 | with a truthy, known parent id, the messages sent are the stored thread followed by one user turn |
| `Azure.FreshThreadHasNoSystemMessage` | src/bot/azure.ts:34-47 | with a missing, empty or unknown parent id, the messages sent are exactly the user turn, with no system message |
| `Azure.UnknownParentIsFresh` | src/bot/azure.ts:38-47 | a parent id the store does not know behaves as no parent at all |
| `Azure.RecordedKeepsOtherThreads` | src/bot/azure.ts:77-96 | a call changes no thread except the one filed under the new response id; a call that throws changes none |
| `Azure.ThreadContinuity` | src/bot/azure.ts:38-85 | after a fresh call answered under id T, a call with parent T sends the first user turn, the first reply and the new user turn |
| `Azure.CallKeepsThreadsAlternating` | src/bot/azure.ts:38-85 | every call keeps every stored thread alternating user and assistant turns, starting with a user turn |
| `Bots.SelectProvider` | src/bot/index.ts:61-94 | the constructor picks the Azure client exactly for "azure" and the OpenAI client exactly for "openai"; any other name throws the initialisation error |
| `Bots.IsAzureBotOptions` | src/bot/index.ts:61 | the Azure guard tests the provider name only, and never holds for "openai" |
| `Bots.IsOpenAIBotOptions` | src/bot/index.ts:63 | the OpenAI guard tests the provider name only, and never holds together with the Azure guard |
| `Bots.DatePart` | src/bot/index.ts:27 | `split('T')[0]` is the longest prefix without `T`, and it ends at the first `T` if there is one |
| `Bots.MakeSystemMessage` | src/bot/index.ts:26-33 | the system message starts with the configured text and ends with the language directive's code |
| `Bots.Bot.constructor` | src/bot/index.ts:70-95 | the Azure client gets the endpoint, key, deployment and system message; the OpenAI client gets the system message, key, token budget, temperature and model, and no organisation |
| `Bots.Bot.Create` | src/bot/index.ts:70-95 | construction fails with the initialisation error of lines 90-94 exactly when the provider name is neither "azure" nor "openai"; the client constructors are taken never to fail |
| `Bots.MaxAttempts` | src/bot/index.ts:128-130 | the retry wrapper allows `retries + 1` attempts, and at least one |
| `Bots.ForwardedOptions` | src/bot/index.ts:121-126 | every attempt gets the configured timeout, and the parent id only when it is truthy |
| `Bots.FirstSettled` | src/bot/index.ts:127-133 | the retries stop at the first attempt that is not a retryable failure; every attempt before it failed; there is none exactly when all attempts fail |
| `Bots.Attempts` | src/bot/index.ts:114-133 | a chat makes no provider call for an empty message, otherwise at least one and at most the allowed number |
| `Bots.Bot.Send` | src/bot/index.ts:128-129 | one `this.api.sendMessage` call: a completion comes back as `{text, id}`, anything else as the error; with the Azure client the store changes as `Azure.Recorded` says |
| `Bots.StripWithPrefix` | src/bot/index.ts:151-153 | the result is a suffix of the text, five characters shorter exactly when the text starts with `"with "` |
| `Bots.ChatOutcome` | src/bot/index.ts:108-161 | `chat_` answers `['', {}]` for an empty message, throws only the null-text error, and answers `''` whenever it has no id to return |
| `Bots.ChatReply` | src/bot/index.ts:97-106 | `chat` answers `['', {}]` whenever `chat_` throws, and `''` whenever it has no id to return |
| `Bots.HistoryAfter` | src/bot/index.ts:127-133 | a chat never removes a stored thread, adds at most one, and keeps every stored thread alternating |
| `Bots.Bot.TryChat` | src/bot/index.ts:108-161 | `chat_` returns or throws what `ChatOutcome` says, calls the provider `Attempts` times with the same arguments each time, and files in the Azure store only the successful attempt's thread |
| `Bots.Bot.Chat` | src/bot/index.ts:97-106 | `chat` returns `chat_`'s result, or `['', {}]` when `chat_` throws, and never throws itself |
| `Bots.EmptyMessageShortCircuits` | src/bot/index.ts:114-116 | an empty message is answered `['', {}]` with no provider call |
| `Bots.AttemptsBounded` | src/bot/index.ts:127-130 | a chat calls the provider at most `retries + 1` times |
| `Bots.ExhaustedRetries` | src/bot/index.ts:127-159 | when every attempt fails there are exactly `retries + 1` calls, and the answer is `''` with no parent id |
| `Bots.FirstCompletionAnswers` | src/bot/index.ts:144-160 | the first completion ends the retries; its text without the `"with "` artifact and its id are the answer |
| `Bots.NullContentDegrades` | src/bot/index.ts:144-153 | a completion with null content makes `chat_` throw and `chat` answer `['', {}]` |
| `Bots.RejectedReplyEndsRetries` | src/bot/index.ts:127-159 | an error the retry wrapper does not retry ends the chat at once: no further attempt even when retries remain, `''` with no id, and the Azure store unchanged |
| `Bots.StripOnce` | src/bot/index.ts:151-153 | a leading `"with "` is removed exactly once, even when the rest starts with `"with "` again |
| `Bots.StripLeavesOtherTexts` | src/bot/index.ts:151-153 | other texts are unchanged, and `"with with x"` becomes `"with x"` |
| `Bots.ChatContinuesStoredThread` | src/bot/index.ts:121-130 | a successful chat with a known parent id files the stored thread, the new user turn and the reply under the new response id |
| `Startup.DeriveBotOptions` | src/main.ts:14-47 | "azure" and "openai" give a record of that shape with the shared settings copied and the mode's token budget; the OpenAI key comes from the Azure key setting; any other name is an error |
| `Startup.DerivedOptionsBuildABot` | src/main.ts:16-43 | derived options always have the shape their provider name calls for and pass the constructor's provider selection, so `new Bot(deriveBotOptions(...))` never reaches the initialisation error at src/bot/index.ts:91-93 |
| `Startup.ModesDifferOnlyInBudget` | src/main.ts:27-36 | the summary and review options differ only in their token budget |

## Left out

- Glob semantics of `minimatch`. This is a foreign library, so it is the parameter `matches`. The examples state the matcher facts they rely on as preconditions.
- `Options.print` and all `info`, `warning` and `setFailed` logging. These are I/O only. The `debug` flag only controls logging.
- The `parseInt`/`parseFloat` calls in the `Options` constructor. They are library parsing, so the constructor takes numbers that are already parsed. NaN is not modelled. The temperature is a `real`, not a binary float.
- `Settings.Options.constructor`: omits the settings that only the review modules read. These are `disableReview`, `disableReleaseNotes`, `maxFiles`, `reviewSimpleChanges`, the review-comment approval flag, the two concurrency limits and `maxInputTokens`.
- The clock. `makeSystemMessage` gets the ISO timestamp as a parameter, and the response time `chat_` logs is not modelled.
- The AbortController timer and p-retry's backoff delays. These are timers and async cancellation. An aborted attempt is a `Failed` reply.
- `Bots.MaxAttempts`: a count below zero is taken to give one attempt. This is the behaviour of the retry library, which is not part of this model.
- The retry library is taken to retry every error except a `TypeError` that is not a network error, which it rejects at once (a `Rejected` reply). Its `AbortError` and its rejection of a non-Error value are not modelled separately; both end the retries like a `Rejected` reply would.
- The OpenAI client (`src/bot/openai.ts` and the `chatgpt` library). Its threading is not visible, so a bot with this client passes the reply on unchanged. The model keeps only the arguments it is built with.
- The HTTP transport of the Azure client and the fetch polyfill. These are network calls.
- The `this.api != null` check in `chat_`. The constructor always sets `api`, so the `setFailed` branch cannot be reached.
- `run()` and the process event handlers in `src/main.ts`. These are environment reads, GitHub event dispatch, and orchestration of review modules that are not part of this model.
- Concurrent chats on one bot. The model runs one call at a time.
- Which provider errors are `TypeError`s is decided by the provider libraries, which are not part of this model. The caller of the model says it through the kind of `Reply`.
- `Bots.Bot.Create`: the client constructors are taken never to fail. The Azure SDK's constructor (src/bot/azure.ts:21-25) and the `chatgpt` constructor (src/bot/openai.ts:19) can throw, for example on an empty API key, a missing endpoint or a missing API version. So `new Bot` can throw in cases the model does not show.
