/** The provider-independent interface of the bots (src/bot/index.ts, lines
    8-24): the options of one `sendMessage` call, its response, and the
    role-tagged messages a conversation is made of. */
module Llm {
  import opened Wrappers

  datatype Role = System | User | Assistant

  /** One chat message. The content is `None` only for a reply whose
      provider sent a null content, which the Azure adapter passes on
      unchecked. */
  datatype Message = Message(role: Role, content: Option<string>)

  /** `{timeoutMs?, parentMessageId?}` */
  datatype SendMessageOptions = SendMessageOptions(timeoutMs: Option<int>, parentMessageId: Option<string>)

  /** `{text, id}`: the reply text and the id under which the provider filed it. */
  datatype LLMResponse = LLMResponse(text: Option<string>, id: string)

  /** What one provider call produced. `Failed` stands for every error the
      retry wrapper retries: a transport error, an abort on timeout, an error
      status. `Rejected` stands for an error it does not retry, a `TypeError`
      that is not a network error; the Azure adapter throws one at
      src/bot/azure.ts:77 when the response holds no choices. `Completion`
      carries the response id and the content of the first choice. */
  datatype Reply = Failed(error: string) | Rejected(error: string) | Completion(id: string, content: Option<string>)

  /** JavaScript truthiness of an optional string: present and non-empty. */
  predicate Truthy(s: Option<string>) {
    s.Some? && s.value != ""
  }
}
