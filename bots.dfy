/** The bot façade (src/bot/index.ts): picks the provider client once at
    construction, and answers `chat(message, ids)` with a reply text and the
    id to continue from, retrying the provider call a bounded number of
    times and never throwing.

    The provider's answers are the parameter `transport`: `transport(k)` is
    what the k-th attempt of a call gets back (attempts count from 0). The
    OpenAI client is a library whose threading is not visible here, so it
    only passes that answer on. */
module Bots {
  import opened Wrappers
  import opened Strings
  import opened Llm
  import Azure

  /** `{parentMessageId?}`: where a conversation continues from. `{}` and
      `{parentMessageId: undefined}` are both `Ids(None)`. */
  datatype Ids = Ids(parentMessageId: Option<string>)

  /** The two shapes of options, each carrying the provider name it was
      built for and the settings every bot shares. */
  datatype BotOptions =
    | AzureBotOptions(modelProvider: string, azureOpenaiEndpoint: string, azureOpenaiApiKey: string,
                      azureOpenaiDeploymentName: string,
                      debug: bool, language: string, systemMessage: string,
                      timeoutMs: int, retries: int, responseTokens: int)
    | OpenAIBotOptions(modelProvider: string, openaiModel: string, openaiTemperature: real,
                       openaiApiKey: string, openaiApiOrg: Option<string>,
                       debug: bool, language: string, systemMessage: string,
                       timeoutMs: int, retries: int, responseTokens: int)

  /** The type guards test the provider name only, so at most one of them
      holds. */
  predicate IsAzureBotOptions(options: BotOptions): (b: bool)
    ensures b ==> options.modelProvider != "openai"
  {
    options.modelProvider == "azure"
  }

  predicate IsOpenAIBotOptions(options: BotOptions): (b: bool)
    ensures b ==> !IsAzureBotOptions(options)
  {
    options.modelProvider == "openai"
  }

  /** What the guards promise the type checker: a value named for a provider
      has that provider's shape. */
  predicate NamesItsShape(options: BotOptions) {
    && (IsAzureBotOptions(options) ==> options.AzureBotOptions?)
    && (IsOpenAIBotOptions(options) ==> options.OpenAIBotOptions?)
  }

  const InitError := "Unable to initialize the OpenAI API, both 'OPENAI_API_KEY' environment variable are not available"

  datatype ProviderKind = AzureProvider | OpenAIProvider

  /** The constructor's choice of client: Azure for "azure", OpenAI for
      "openai", and an error for any other name. */
  function SelectProvider(options: BotOptions): (r: Result<ProviderKind, string>)
    ensures r == Success(AzureProvider) <==> options.modelProvider == "azure"
    ensures r == Success(OpenAIProvider) <==> options.modelProvider == "openai"
    ensures r.Failure? <==> options.modelProvider !in {"azure", "openai"}
    ensures r.Failure? ==> r.error == InitError
  {
    if IsAzureBotOptions(options) then Success(AzureProvider)
    else if IsOpenAIBotOptions(options) then Success(OpenAIProvider)
    else Failure(InitError)
  }

  /** `iso.split('T')[0]`: the text before the first `T`, or all of it. */
  function DatePart(iso: string): (date: string)
    ensures |date| <= |iso| && date == iso[..|date|]
    ensures 'T' !in date
    ensures |date| < |iso| ==> iso[|date|] == 'T'
  {
    if iso == [] || iso[0] == 'T' then [] else [iso[0]] + DatePart(iso[1..])
  }

  const DateLabel := " \n  Current date: "
  const LanguageLabel := "\n  \n  IMPORTANT: Entire response must be in the language with ISO code: "
  const LineEnd := "\n  "

  /** The system message: the configured text, the date of construction
      (the date part of an ISO timestamp, passed in because the clock is not
      modelled) and the instruction to answer in the configured language. */
  function MakeSystemMessage(options: BotOptions, isoTimestamp: string): (r: string)
    ensures StartsWith(r, options.systemMessage)
    ensures var tail := options.language + LineEnd;
            |tail| <= |r| && r[|r| - |tail|..] == tail
  {
    var middle := DateLabel + DatePart(isoTimestamp) + LanguageLabel;
    var tail := options.language + LineEnd;
    ConcatenationEnds(options.systemMessage, middle, tail);
    options.systemMessage + (middle + tail)
  }

  /** A concatenation starts with its first part and ends with its last. */
  lemma ConcatenationEnds(head: string, middle: string, tail: string)
    ensures var r := head + (middle + tail);
            && StartsWith(r, head)
            && |tail| <= |r| && r[|r| - |tail|..] == tail
  {
    var r := head + (middle + tail);
    assert r[..|head|] == head;
    assert r[|r| - |tail|..] == tail;
  }

  /** The arguments the OpenAI client is built with. */
  datatype OpenAIParams = OpenAIParams(systemMessage: string, apiKey: string, apiOrg: Option<string>,
                                       maxResponseTokens: int, temperature: real, model: string)

  /** The client a bot owns. */
  datatype Api = AzureApi(llm: Azure.AzureOpenAILLM) | OpenAIApi(params: OpenAIParams)

  /** The number of attempts the retry wrapper allows: the first call and
      `retries` retries; no retry for a count below one. */
  function MaxAttempts(retries: int): (n: nat)
    ensures n >= 1
    ensures retries >= 0 ==> n == retries + 1
  {
    if retries <= 0 then 1 else retries + 1
  }

  /** The options of every attempt of one chat: the configured timeout, and
      the parent id only when it is truthy. */
  function ForwardedOptions(options: BotOptions, ids: Ids): (opts: SendMessageOptions)
    ensures opts.timeoutMs == Some(options.timeoutMs)
    ensures opts.parentMessageId.Some? <==> Truthy(ids.parentMessageId)
    ensures opts.parentMessageId.Some? ==> opts.parentMessageId == ids.parentMessageId
  {
    SendMessageOptions(Some(options.timeoutMs), if Truthy(ids.parentMessageId) then ids.parentMessageId else None)
  }

  /** The attempt in `[from, bound)` that ends the retries, if any: the
      first one that is not a retryable failure. Every attempt before it
      failed and was retried. */
  function FirstSettled(transport: nat -> Reply, from: nat, bound: nat): (r: Option<nat>)
    ensures r.Some? ==> from <= r.value < bound && !transport(r.value).Failed?
    ensures r.Some? ==> forall j :: from <= j < r.value ==> transport(j).Failed?
    ensures r.None? <==> forall j :: from <= j < bound ==> transport(j).Failed?
    decreases bound - from
  {
    if from >= bound then None
    else if !transport(from).Failed? then Some(from)
    else FirstSettled(transport, from + 1, bound)
  }

  /** An attempt ends the retries exactly when it is not a retryable failure
      and all before it were. */
  lemma FirstSettledAt(transport: nat -> Reply, bound: nat, k: nat)
    requires k < bound && !transport(k).Failed?
    requires forall j :: 0 <= j < k ==> transport(j).Failed?
    ensures FirstSettled(transport, 0, bound) == Some(k)
  {
  }

  /** How many times a chat calls the provider: none for an empty message,
      otherwise up to and including the attempt that ends the retries, or
      `bound` times. */
  function Attempts(message: string, bound: nat, transport: nat -> Reply): (n: nat)
    ensures n <= bound
    ensures message == "" ==> n == 0
    ensures message != "" && bound > 0 ==> n >= 1
  {
    if message == "" then 0
    else match FirstSettled(transport, 0, bound)
      case Some(k) => k + 1
      case None => bound
  }

  /** Removes one leading `"with "`, a known artifact of the provider. */
  function StripWithPrefix(text: string): (r: string)
    ensures |r| <= |text| && r == text[|text| - |r|..]
    ensures |r| == |text| - 5 <==> StartsWith(text, "with ")
  {
    if StartsWith(text, "with ") then text[5..] else text
  }

  /** The error `chat_` throws when the reply text is null. */
  const NullTextError := "TypeError: Cannot read properties of null (reading 'startsWith')"

  /** What `chat_` returns or throws: for an empty message `['', {}]`; when
      every attempt fails, or one fails with an error the retry wrapper does
      not retry, `''` with no id; on a completion its text without the
      `"with "` artifact and the response id; a null text throws. */
  function ChatOutcome(message: string, bound: nat, transport: nat -> Reply): (r: Result<(string, Ids), string>)
    ensures message == "" ==> r == Success(("", Ids(None)))
    ensures r.Failure? ==> r.error == NullTextError
    ensures r.Success? && r.value.1.parentMessageId.None? ==> r.value.0 == ""
  {
    if message == "" then Success(("", Ids(None)))
    else match FirstSettled(transport, 0, bound)
      case None => Success(("", Ids(None)))
      case Some(k) =>
        if transport(k).Rejected? then Success(("", Ids(None)))
        else match transport(k).content
          case None => Failure(NullTextError)
          case Some(text) => Success((StripWithPrefix(text), Ids(Some(transport(k).id))))
  }

  /** What `chat` returns: `chat_`'s result, or `['', {}]` when it throws. */
  function ChatReply(message: string, bound: nat, transport: nat -> Reply): (reply: (string, Ids))
    ensures ChatOutcome(message, bound, transport).Failure? ==> reply == ("", Ids(None))
    ensures reply.1.parentMessageId.None? ==> reply.0 == ""
  {
    match ChatOutcome(message, bound, transport)
    case Success(reply) => reply
    case Failure(_) => ("", Ids(None))
  }

  /** The Azure store after a chat: an empty chat, or one without a
      completion, leaves it as it was; otherwise the successful attempt files
      its thread. */
  function HistoryAfter(history: Azure.History, message: string, opts: SendMessageOptions,
                        bound: nat, transport: nat -> Reply): (after: Azure.History)
    ensures history.Keys <= after.Keys
    ensures forall k1, k2 :: k1 in after && k1 !in history && k2 in after && k2 !in history ==> k1 == k2
    ensures Azure.WellFormed(history) ==> Azure.WellFormed(after)
  {
    if message == "" then history
    else match FirstSettled(transport, 0, bound)
      case None => history
      case Some(k) =>
        var sent := Azure.Conversation(history, message, Some(opts));
        if Azure.WellFormed(history) then
          Azure.CallKeepsThreadsAlternating(history, message, Some(opts), transport(k));
          Azure.Recorded(history, sent, transport(k))
        else Azure.Recorded(history, sent, transport(k))
  }

  class Bot {
    const options: BotOptions
    const api: Api

    /** The objects a chat may change: the Azure client's store. */
    function Footprint(): set<object> {
      if api.AzureApi? then {api.llm} else {}
    }

    /** Builds the client the options name, with the system message made
        from the options and the date of `isoTimestamp`. The OpenAI client
        gets the response-token budget; the organisation is not passed on. */
    constructor(options: BotOptions, isoTimestamp: string)
      requires SelectProvider(options).Success? && NamesItsShape(options)
      ensures this.options == options
      ensures IsAzureBotOptions(options) ==>
                && api.AzureApi? && fresh(api.llm)
                && api.llm.baseURL == options.azureOpenaiEndpoint
                && api.llm.apiKey == options.azureOpenaiApiKey
                && api.llm.deploymentName == options.azureOpenaiDeploymentName
                && api.llm.systemMessage == Message(System, Some(MakeSystemMessage(options, isoTimestamp)))
                && api.llm.conversationHistory == map[]
      ensures IsOpenAIBotOptions(options) ==>
                api == OpenAIApi(OpenAIParams(MakeSystemMessage(options, isoTimestamp), options.openaiApiKey, None,
                                              options.responseTokens, options.openaiTemperature, options.openaiModel))
    {
      this.options := options;
      var systemMessage := MakeSystemMessage(options, isoTimestamp);
      if IsAzureBotOptions(options) {
        var llm := new Azure.AzureOpenAILLM(Azure.Params(options.azureOpenaiEndpoint, options.azureOpenaiApiKey,
                                                         options.azureOpenaiDeploymentName, systemMessage));
        api := AzureApi(llm);
      } else {
        api := OpenAIApi(OpenAIParams(systemMessage, options.openaiApiKey, None, options.responseTokens,
                                      options.openaiTemperature, options.openaiModel));
      }
    }

    /** `new Bot(options)`, which throws for a provider name other than
        "azure" and "openai". */
    static method Create(options: BotOptions, isoTimestamp: string) returns (r: Result<Bot, string>)
      requires NamesItsShape(options)
      ensures SelectProvider(options).Failure? ==> r == Failure(InitError)
      ensures SelectProvider(options).Success? ==> r.Success? && fresh(r.value) && r.value.options == options
    {
      if SelectProvider(options).Failure? {
        return Failure(InitError);
      }
      var bot := new Bot(options, isoTimestamp);
      r := Success(bot);
    }

    /** `this.api.sendMessage(message, opts)`, answered by `reply`. */
    method Send(message: string, opts: SendMessageOptions, reply: Reply) returns (result: Result<LLMResponse, string>)
      modifies Footprint()
      ensures reply.Completion? ==> result == Success(LLMResponse(reply.content, reply.id))
      ensures !reply.Completion? ==> result == Failure(reply.error)
      ensures api.AzureApi? ==>
                api.llm.conversationHistory
                == Azure.Recorded(old(api.llm.conversationHistory),
                                  Azure.Conversation(old(api.llm.conversationHistory), message, Some(opts)), reply)
    {
      match api {
        case AzureApi(llm) =>
          var _, sent := llm.SendMessage(message, Some(opts), reply);
          result := sent;
        case OpenAIApi(_) =>
          result := if reply.Completion? then Success(LLMResponse(reply.content, reply.id)) else Failure(reply.error);
      }
    }

    /** `chat_`: sends a non-empty message with retries and normalises the
        reply. `calls` records the arguments of every provider call. */
    method TryChat(message: string, ids: Ids, transport: nat -> Reply)
      returns (r: Result<(string, Ids), string>, ghost calls: seq<(string, SendMessageOptions)>)
      modifies Footprint()
      ensures r == ChatOutcome(message, MaxAttempts(options.retries), transport)
      ensures |calls| == Attempts(message, MaxAttempts(options.retries), transport)
      ensures forall c :: c in calls ==> c == (message, ForwardedOptions(options, ids))
      ensures api.AzureApi? ==>
                api.llm.conversationHistory
                == HistoryAfter(old(api.llm.conversationHistory), message, ForwardedOptions(options, ids),
                                MaxAttempts(options.retries), transport)
    {
      calls := [];
      if message == "" {
        return Success(("", Ids(None))), calls;
      }
      var bound := MaxAttempts(options.retries);
      var opts := SendMessageOptions(Some(options.timeoutMs), None);
      if Truthy(ids.parentMessageId) {
        opts := opts.(parentMessageId := ids.parentMessageId);
      }
      ghost var history := if api.AzureApi? then api.llm.conversationHistory else map[];
      var response: Option<LLMResponse> := None;
      var rejected := false;
      var attempt := 0;
      while attempt < bound && response.None? && !rejected
        invariant attempt <= bound
        invariant |calls| == attempt && forall c :: c in calls ==> c == (message, opts)
        invariant response.None? && !rejected ==> forall j :: 0 <= j < attempt ==> transport(j).Failed?
        invariant response.Some? || rejected ==> 0 < attempt && FirstSettled(transport, 0, bound) == Some(attempt - 1)
        invariant rejected ==> response.None? && transport(attempt - 1).Rejected?
        invariant response.Some? ==>
                    && transport(attempt - 1).Completion?
                    && response.value == LLMResponse(transport(attempt - 1).content, transport(attempt - 1).id)
        invariant response.None? && api.AzureApi? ==> api.llm.conversationHistory == history
        invariant response.Some? && api.AzureApi? ==>
                    api.llm.conversationHistory
                    == Azure.Recorded(history, Azure.Conversation(history, message, Some(opts)), transport(attempt - 1))
        decreases bound - attempt
      {
        var reply := transport(attempt);
        var result := Send(message, opts, reply);
        calls := calls + [(message, opts)];
        if result.Success? {
          response := Some(result.value);
        } else if reply.Rejected? {
          // The retry wrapper gives up at once and `chat_` catches its rejection.
          rejected := true;
        }
        if response.Some? || rejected {
          FirstSettledAt(transport, bound, attempt);
        }
        attempt := attempt + 1;
      }
      var responseText: Option<string> := Some("");
      if response.Some? {
        responseText := response.value.text;
      }
      if responseText.None? {
        return Failure(NullTextError), calls;
      }
      var text := responseText.value;
      if StartsWith(text, "with ") {
        text := text[5..];
      }
      r := Success((text, Ids(if response.Some? then Some(response.value.id) else None)));
    }

    /** `chat`: never throws; whatever `chat_` throws becomes `['', {}]`. */
    method Chat(message: string, ids: Ids, transport: nat -> Reply) returns (text: string, newIds: Ids)
      modifies Footprint()
      ensures (text, newIds) == ChatReply(message, MaxAttempts(options.retries), transport)
      ensures api.AzureApi? ==>
                api.llm.conversationHistory
                == HistoryAfter(old(api.llm.conversationHistory), message, ForwardedOptions(options, ids),
                                MaxAttempts(options.retries), transport)
    {
      var res := ("", Ids(None));
      var outcome;
      ghost var calls;
      outcome, calls := TryChat(message, ids, transport);
      if outcome.Success? {
        res := outcome.value;
      }
      text, newIds := res.0, res.1;
    }
  }

  // ---------------------------------------------------------------------------
  // Laws of a chat
  // ---------------------------------------------------------------------------

  /** An empty message is answered `['', {}]` without calling the provider. */
  lemma EmptyMessageShortCircuits(bound: nat, transport: nat -> Reply)
    ensures ChatReply("", bound, transport) == ("", Ids(None))
    ensures Attempts("", bound, transport) == 0
  {
  }

  /** A chat calls the provider at most `retries + 1` times (once when
      `retries` is below one). */
  lemma AttemptsBounded(message: string, retries: int, transport: nat -> Reply)
    ensures Attempts(message, MaxAttempts(retries), transport) <= MaxAttempts(retries)
    ensures retries >= 0 ==> Attempts(message, MaxAttempts(retries), transport) <= retries + 1
  {
  }

  /** When every attempt fails the provider is called exactly `retries + 1`
      times and the answer is `''` with no id. */
  lemma ExhaustedRetries(message: string, retries: nat, transport: nat -> Reply)
    requires message != ""
    requires forall j :: 0 <= j <= retries ==> transport(j).Failed?
    ensures Attempts(message, MaxAttempts(retries), transport) == retries + 1
    ensures ChatReply(message, MaxAttempts(retries), transport) == ("", Ids(None))
  {
    assert FirstSettled(transport, 0, retries + 1).None?;
  }

  /** The first completion ends the retries: its text, stripped of the
      `"with "` artifact, and its id are the answer. */
  lemma FirstCompletionAnswers(message: string, bound: nat, transport: nat -> Reply, k: nat, text: string)
    requires message != "" && k < bound
    requires transport(k).Completion? && transport(k).content == Some(text)
    requires forall j :: 0 <= j < k ==> transport(j).Failed?
    ensures Attempts(message, bound, transport) == k + 1
    ensures ChatReply(message, bound, transport) == (StripWithPrefix(text), Ids(Some(transport(k).id)))
  {
    FirstSettledAt(transport, bound, k);
  }

  /** An error the retry wrapper does not retry ends the chat at once: no
      further attempt is made even when retries remain, the answer is `''`
      with no id, and the Azure store is left as it was. */
  lemma RejectedReplyEndsRetries(history: Azure.History, message: string, opts: SendMessageOptions,
                                 bound: nat, transport: nat -> Reply, k: nat)
    requires message != "" && k < bound
    requires transport(k).Rejected?
    requires forall j :: 0 <= j < k ==> transport(j).Failed?
    ensures Attempts(message, bound, transport) == k + 1
    ensures ChatOutcome(message, bound, transport) == Success(("", Ids(None)))
    ensures HistoryAfter(history, message, opts, bound, transport) == history
  {
    FirstSettledAt(transport, bound, k);
  }

  /** A completion whose content is null makes `chat_` throw, and `chat`
      answers `['', {}]`. */
  lemma NullContentDegrades(message: string, bound: nat, transport: nat -> Reply, k: nat)
    requires message != "" && k < bound
    requires transport(k).Completion? && transport(k).content.None?
    requires forall j :: 0 <= j < k ==> transport(j).Failed?
    ensures ChatOutcome(message, bound, transport) == Failure(NullTextError)
    ensures ChatReply(message, bound, transport) == ("", Ids(None))
  {
    FirstSettledAt(transport, bound, k);
  }

  /** The `"with "` artifact is removed exactly once. */
  lemma StripOnce(text: string)
    ensures StripWithPrefix("with " + text) == text
  {
    assert ("with " + text)[..5] == "with ";
    assert ("with " + text)[5..] == text;
  }

  /** A text that does not start with `"with "` is left unchanged, and a
      doubled prefix keeps one copy. */
  lemma StripLeavesOtherTexts(text: string)
    ensures !StartsWith(text, "with ") ==> StripWithPrefix(text) == text
    ensures StripWithPrefix("with with x") == "with x"
  {
    StripOnce("with x");
    assert "with " + "with x" == "with with x";
  }

  /** Through a bot with the Azure client, a chat naming a stored thread
      that succeeds files, under the new response id, the stored thread
      followed by the new user turn and the reply. */
  lemma ChatContinuesStoredThread(history: Azure.History, options: BotOptions, message: string, parent: string,
                                  transport: nat -> Reply, k: nat)
    requires message != "" && parent != "" && parent in history
    requires k < MaxAttempts(options.retries) && transport(k).Completion?
    requires forall j :: 0 <= j < k ==> transport(j).Failed?
    ensures var after := HistoryAfter(history, message, ForwardedOptions(options, Ids(Some(parent))),
                                      MaxAttempts(options.retries), transport);
            && transport(k).id in after
            && after[transport(k).id]
               == history[parent] + [Message(User, Some(message)), Message(Assistant, transport(k).content)]
  {
    FirstSettledAt(transport, MaxAttempts(options.retries), k);
  }
}
