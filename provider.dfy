/** What the handlers send to and receive from the OpenAI chat-completion
    service: role-tagged messages, the request record, and the outcome of a
    call through the Python client. */
module Provider {
  import opened Json

  datatype Role = System | User | Assistant

  /** One prompt or history entry. The content is whatever JSON value the
      caller supplied: the handlers forward request fields without checking their type. */
  datatype Message = Message(role: Role, content: Json)

  function RoleName(r: Role): string {
    match r
    case System => "system"
    case User => "user"
    case Assistant => "assistant"
  }

  /** The `{"role": ..., "content": ...}` object a message is sent and stored as. */
  function MessageJson(m: Message): Json {
    JObj([("role", JStr(RoleName(m.role))), ("content", m.content)])
  }

  /** A chat-completion request: model, ordered messages and the optional
      sampling parameters. */
  datatype ChatRequest = ChatRequest(
    model: string,
    messages: seq<Message>,
    temperature: Option<real>,
    maxTokens: Option<nat>)

  /** The outcome of one call through the Python client: it raised, or it
      returned choices, each with a message content that may be None. */
  datatype Completion = Raised(reason: string) | Choices(contents: seq<Option<string>>)

  /** The fixed persona both website-suggestion handlers put first. */
  const NouvoPrompt: string := "You are a helpful assistant representing Nouvo, a professional web development company. When providing website suggestions, frame them as if Nouvo has already built similar solutions. Include specific features, design elements, and user engagement strategies that Nouvo has successfully implemented. Always mention that these are solutions Nouvo has experience with and can build for the client."

  /** The request both website-suggestion handlers send for a user input. */
  function SuggestionRequest(userInput: Json): (r: ChatRequest)
    ensures r.model == "gpt-4" && r.temperature == Some(0.7) && r.maxTokens == Some(500)
    ensures |r.messages| == 2
    ensures r.messages[0] == Message(System, JStr(NouvoPrompt))
    ensures r.messages[1] == Message(User, userInput)
  {
    ChatRequest("gpt-4", [Message(System, JStr(NouvoPrompt)), Message(User, userInput)], Some(0.7), Some(500))
  }

  /** `choices` is non-empty and the first choice's content is truthy. */
  predicate Usable(c: Completion) {
    c.Choices? && |c.contents| > 0 && c.contents[0].Some? && c.contents[0].value != ""
  }
}
