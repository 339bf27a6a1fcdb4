/** `GPTProvider`: a chat completion through the OpenAI facade. The facade's
    `OpenAI::chat()->create` is the parameter `chat`; it answers with the
    content of each returned choice's message (null when it has none), or with
    a thrown object. */
module Gpt {
  import opened Values
  import opened Exceptions

  const DefaultMaxTokens: Value := Int(4000)

  datatype Message = Message(role: string, content: Value)
  datatype ChatRequest = ChatRequest(model: Value, maxTokens: Value, messages: seq<Message>)

  datatype ChatResult = Created(choices: seq<Option<string>>) | Threw(error: Throwable)

  type Chat = ChatRequest -> ChatResult

  /** The payload: the attribute `model` when set, else the configured
      `gpt.model`; the attribute `max_tokens` when set, else 4000; and exactly
      one message, from the user, holding the content. */
  function Request(attrs: Attributes, config: Config): (r: ChatRequest)
    ensures IsSet(attrs, "model") ==> r.model == attrs["model"]
    ensures !IsSet(attrs, "model") ==> r.model == ConfigGet(config, "ai.providers.gpt.model", Null)
    ensures IsSet(attrs, "max_tokens") ==> r.maxTokens == attrs["max_tokens"]
    ensures !IsSet(attrs, "max_tokens") ==> r.maxTokens == Int(4000)
    ensures r.messages == [Message("user", Read(attrs, "content"))]
  {
    ChatRequest(
      Coalesce(attrs, "model", ConfigGet(config, "ai.providers.gpt.model", Null)),
      Coalesce(attrs, "max_tokens", DefaultMaxTokens),
      [Message("user", Read(attrs, "content"))])
  }

  /** `choices[0].message.content`; with no choice at all PHP reads null. */
  function FirstContent(choices: seq<Option<string>>): Value
  {
    if |choices| == 0 then Null
    else match choices[0] case Some(s) => Str(s) case None => Null
  }

  /** `GPTProvider::execute`. There is no `try`: whatever the client throws
      escapes unchanged and unclassified; otherwise the first choice's content
      is returned. */
  function Execute(attrs: Attributes, config: Config, chat: Chat): (r: Outcome)
    ensures var res := chat(Request(attrs, config));
            && (r.Raised? <==> res.Threw?)
            && (r.Raised? ==> r.error == res.error)
            && (res.Created? && |res.choices| > 0 && res.choices[0].Some? ==> r == Returned(Str(res.choices[0].value)))
            && (res.Created? && !(|res.choices| > 0 && res.choices[0].Some?) ==> r == Returned(Null))
    ensures r.Returned? ==> r.value.Null? || r.value.Str?
    ensures !r.Unbound?
  {
    match chat(Request(attrs, config))
    case Threw(e) => Raised(e)
    case Created(choices) => Returned(FirstContent(choices))
  }

  /** Only `model`, `content` and `max_tokens` of the attributes reach the client. */
  lemma OnlyThreeAttributesMatter(a: Attributes, b: Attributes, config: Config)
    requires Read(a, "model") == Read(b, "model")
    requires Read(a, "content") == Read(b, "content")
    requires Read(a, "max_tokens") == Read(b, "max_tokens")
    ensures Request(a, config) == Request(b, config)
  {
  }
}
