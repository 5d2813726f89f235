/** The Azure OpenAI adapter (src/bot/azure.ts): one chat-completion call per
    `sendMessage`, with the conversation threads kept in memory, keyed by the
    response id of their last turn.

    The HTTP call is not modelled: its outcome is the `reply` parameter, and
    the request the adapter would send is returned so that contracts can
    speak of it. The abort timer that enforces the timeout is not modelled
    either; an aborted call is one `Failed` reply, a response without
    choices one `Rejected` reply. */
module Azure {
  import opened Wrappers
  import opened Llm

  /** The constructor's arguments. */
  datatype Params = Params(baseURL: string, apiKey: string, deploymentName: string, systemMessage: string)

  /** The body of a chat-completion request. */
  datatype ChatRequest = ChatRequest(model: string, messages: seq<Message>, stream: bool)

  type History = map<string, seq<Message>>

  /** The call continues a stored thread: a truthy parent id that the history
      knows. */
  predicate Continues(history: History, opts: Option<SendMessageOptions>) {
    opts.Some? && Truthy(opts.value.parentMessageId) && opts.value.parentMessageId.value in history
  }

  /** The messages sent for `text`: the stored thread of the parent followed
      by the new user turn, or, when the call does not continue a stored
      thread, the user turn alone. */
  function Conversation(history: History, text: string, opts: Option<SendMessageOptions>): (messages: seq<Message>)
    ensures |messages| >= 1 && messages[|messages| - 1] == Message(User, Some(text))
  {
    if Continues(history, opts) then
      history[opts.value.parentMessageId.value] + [Message(User, Some(text))]
    else
      [Message(User, Some(text))]
  }

  /** The history after a call that sent `messages` and got `reply`: on a
      completion the thread `messages` plus the assistant's reply is filed
      under the response id; a call that throws leaves the history as it
      was. */
  function Recorded(history: History, messages: seq<Message>, reply: Reply): (after: History)
    ensures reply.Completion? ==> after.Keys == history.Keys + {reply.id}
    ensures !reply.Completion? ==> after == history
  {
    if reply.Completion? then history[reply.id := messages + [Message(Assistant, reply.content)]]
    else history
  }

  class AzureOpenAILLM {
    const baseURL: string
    const apiKey: string
    const deploymentName: string
    const systemMessage: Message
    var conversationHistory: History

    /** Binds the client to its endpoint, key and deployment, and starts with
        no stored thread. */
    constructor(args: Params)
      ensures baseURL == args.baseURL && apiKey == args.apiKey
      ensures deploymentName == args.deploymentName
      ensures systemMessage == Message(System, Some(args.systemMessage))
      ensures conversationHistory == map[] && WellFormed(conversationHistory)
    {
      baseURL := args.baseURL;
      apiKey := args.apiKey;
      deploymentName := args.deploymentName;
      systemMessage := Message(System, Some(args.systemMessage));
      conversationHistory := map[];
    }

    /** Sends `text`, continuing the parent's thread when there is one. On a
        completion the new thread is stored under the response id and the
        reply is returned with that id; on a failure the error is rethrown
        and the history is left alone. */
    method SendMessage(text: string, opts: Option<SendMessageOptions>, reply: Reply)
      returns (request: ChatRequest, r: Result<LLMResponse, string>)
      modifies this
      ensures request == ChatRequest(deploymentName, Conversation(old(conversationHistory), text, opts), false)
      ensures !reply.Completion? ==> r == Failure(reply.error)
      ensures reply.Completion? ==> r == Success(LLMResponse(reply.content, reply.id))
      ensures conversationHistory == Recorded(old(conversationHistory), request.messages, reply)
      ensures WellFormed(old(conversationHistory)) ==> WellFormed(conversationHistory)
    {
      // The system message assigned first is overwritten on both branches.
      var messages := [systemMessage];
      if opts.Some? && Truthy(opts.value.parentMessageId) && opts.value.parentMessageId.value in conversationHistory {
        messages := conversationHistory[opts.value.parentMessageId.value] + [Message(User, Some(text))];
      } else {
        messages := [Message(User, Some(text))];
      }
      request := ChatRequest(deploymentName, messages, false);
      match reply {
        case Failed(error) =>
          r := Failure(error);
        case Rejected(error) =>
          r := Failure(error);
        case Completion(id, content) =>
          conversationHistory := conversationHistory[id := messages + [Message(Assistant, content)]];
          r := Success(LLMResponse(content, id));
      }
      if WellFormed(old(conversationHistory)) {
        CallKeepsThreadsAlternating(old(conversationHistory), text, opts, reply);
      }
    }
  }

  // ---------------------------------------------------------------------------
  // Threading laws
  // ---------------------------------------------------------------------------

  /** A continuation sends the stored thread verbatim, then the user turn. */
  lemma ContinuationExtendsThread(history: History, text: string, opts: Option<SendMessageOptions>)
    requires Continues(history, opts)
    ensures var messages := Conversation(history, text, opts);
            && messages[..|messages| - 1] == history[opts.value.parentMessageId.value]
            && |messages| == |history[opts.value.parentMessageId.value]| + 1
  {
    var messages := Conversation(history, text, opts);
    assert messages[..|messages| - 1] == history[opts.value.parentMessageId.value];
  }

  /** A missing, empty or unknown parent id starts a new thread that holds
      the user turn only: the system message is never sent. */
  lemma FreshThreadHasNoSystemMessage(history: History, text: string, opts: Option<SendMessageOptions>)
    requires !Continues(history, opts)
    ensures Conversation(history, text, opts) == [Message(User, Some(text))]
    ensures forall m :: m in Conversation(history, text, opts) ==> m.role != System
  {
  }

  /** A parent id the history does not know behaves as no parent at all. */
  lemma UnknownParentIsFresh(history: History, text: string, timeoutMs: Option<int>, parent: string)
    requires parent !in history
    ensures Conversation(history, text, Some(SendMessageOptions(timeoutMs, Some(parent))))
            == Conversation(history, text, None)
  {
  }

  /** A call leaves every thread but the one filed under the response id as
      it was; a call that throws leaves them all. */
  lemma RecordedKeepsOtherThreads(history: History, messages: seq<Message>, reply: Reply, key: string)
    requires !reply.Completion? || key != reply.id
    ensures key in Recorded(history, messages, reply) <==> key in history
    ensures key in history ==> Recorded(history, messages, reply)[key] == history[key]
  {
  }

  /** Two turns: after a first call that starts a thread and is answered
      under a non-empty id, a call naming that id as parent sends exactly
      the first user turn, the first reply and the second user turn. */
  lemma ThreadContinuity(history: History, text1: string, id: string, content1: Option<string>,
                         text2: string, timeoutMs: Option<int>)
    requires id != ""
    ensures var first := Conversation(history, text1, None);
            var after := Recorded(history, first, Completion(id, content1));
            Conversation(after, text2, Some(SendMessageOptions(timeoutMs, Some(id))))
            == [Message(User, Some(text1)), Message(Assistant, content1), Message(User, Some(text2))]
  {
  }

  /** Every stored thread alternates user and assistant turns, starting with
      a user turn and ending with an assistant turn. */
  predicate Alternating(thread: seq<Message>) {
    && |thread| > 0
    && |thread| % 2 == 0
    && forall i :: 0 <= i < |thread| ==> thread[i].role == (if i % 2 == 0 then User else Assistant)
  }

  predicate WellFormed(history: History) {
    forall id :: id in history ==> Alternating(history[id])
  }

  /** A call keeps every stored thread alternating: a thread it continues
      gains one user and one assistant turn, a new thread has exactly those
      two. */
  lemma {:induction false} CallKeepsThreadsAlternating(history: History, text: string,
                                                        opts: Option<SendMessageOptions>, reply: Reply)
    requires WellFormed(history)
    ensures WellFormed(Recorded(history, Conversation(history, text, opts), reply))
  {
    if reply.Completion? {
      var messages := Conversation(history, text, opts);
      var thread := messages + [Message(Assistant, reply.content)];
      if Continues(history, opts) {
        var parent := history[opts.value.parentMessageId.value];
        assert Alternating(parent);
        assert thread == parent + [Message(User, Some(text)), Message(Assistant, reply.content)];
        forall i | 0 <= i < |thread|
          ensures thread[i].role == (if i % 2 == 0 then User else Assistant)
        {
          if i < |parent| {
            assert thread[i] == parent[i];
          }
        }
      }
      assert Alternating(thread);
    }
  }
}
