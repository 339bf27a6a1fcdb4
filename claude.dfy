/** `ClaudeProvider`: a request to Anthropic's Claude on AWS Bedrock. The
    provider's two fields are assigned once by its constructor and never
    changed, so an instance is a value. The Bedrock runtime client's
    `invokeModel` is the parameter `bedrock`; it receives the request body as a
    structure (its `json_encode` is folded into it) and answers with the decoded
    response body (`null` when the body is not JSON) or with a thrown object. */
module Claude {
  import opened Values
  import opened Exceptions

  const ProviderName := "Claude"
  const DefaultModel := "anthropic.claude-v2"
  const DefaultRegion := "us-west-2"
  const DefaultTemperature: Value := Float("0.7")
  const DefaultTopP: Value := Float("1.0")

  /** The options the Bedrock runtime client is constructed with. */
  datatype ClientConfig = ClientConfig(region: Value, version: string, key: Value, secret: Value)

  datatype ClaudeProvider = ClaudeProvider(client: ClientConfig, model: Value)

  /** The constructor: the client options and the model id come from the
      configuration read at construction time, with the region defaulting to
      us-west-2 and the model to anthropic.claude-v2 when their keys are absent,
      and the credentials key and secret taken as configured (null when absent). */
  function New(config: Config): (p: ClaudeProvider)
    ensures "ai.providers.claude.model" in config ==> p.model == config["ai.providers.claude.model"]
    ensures "ai.providers.claude.model" !in config ==> p.model == Str(DefaultModel)
    ensures "ai.providers.claude.region" in config ==> p.client.region == config["ai.providers.claude.region"]
    ensures "ai.providers.claude.region" !in config ==> p.client.region == Str(DefaultRegion)
    ensures p.client.key == ConfigGet(config, "ai.providers.claude.credentials.key", Null)
    ensures p.client.secret == ConfigGet(config, "ai.providers.claude.credentials.secret", Null)
    ensures p.client.version == "latest"
  {
    ClaudeProvider(
      ClientConfig(
        ConfigGet(config, "ai.providers.claude.region", Str(DefaultRegion)),
        "latest",
        ConfigGet(config, "ai.providers.claude.credentials.key", Null),
        ConfigGet(config, "ai.providers.claude.credentials.secret", Null)),
      ConfigGet(config, "ai.providers.claude.model", Str(DefaultModel)))
  }

  /** The request body Bedrock receives. */
  datatype Body = Body(prompt: string, maxTokensToSample: Value, temperature: Value, topP: Value)

  /** The arguments of `invokeModel`. */
  datatype InvokeRequest = InvokeRequest(body: Body, modelId: Value, accept: string, contentType: string)

  datatype InvokeResult = Responded(body: Value) | Threw(error: Throwable)

  type Bedrock = (ClientConfig, InvokeRequest) -> InvokeResult

  const HumanMarker := "\n\nHuman: "
  const AssistantMarker := "\n\nAssistant:"

  /** The single-turn prompt wrapped around the content. */
  function HumanPrompt(content: string): string
  {
    HumanMarker + content + AssistantMarker
  }

  /** The content of a single-turn prompt: what lies between the two markers. */
  function HumanTurn(prompt: string): Option<string>
  {
    if |HumanMarker| + |AssistantMarker| <= |prompt|
       && prompt[..|HumanMarker|] == HumanMarker
       && prompt[|prompt| - |AssistantMarker|..] == AssistantMarker
    then Some(prompt[|HumanMarker|..|prompt| - |AssistantMarker|])
    else None
  }

  /** Reading the content back from a prompt recovers it exactly, and a prompt
      that reads back is the prompt of what it reads back to. */
  lemma HumanTurnInvertsHumanPrompt(content: string, prompt: string)
    ensures HumanTurn(HumanPrompt(content)) == Some(content)
    ensures HumanTurn(prompt).Some? ==> HumanPrompt(HumanTurn(prompt).value) == prompt
  {
    var p := HumanPrompt(content);
    assert p[..|HumanMarker|] == HumanMarker;
    assert p[|p| - |AssistantMarker|..] == AssistantMarker;
    assert p[|HumanMarker|..|p| - |AssistantMarker|] == content;
    if HumanTurn(prompt).Some? {
      var c := HumanTurn(prompt).value;
      assert prompt == prompt[..|HumanMarker|] + c + prompt[|prompt| - |AssistantMarker|..];
    }
  }

  /** The request built from the attributes: the attribute `model` when set,
      else the provider's configured model; the content between the Human and
      Assistant markers; `max_tokens` copied as it is, with no default (null when
      absent); temperature and top_p from the configuration defaults. */
  function Request(p: ClaudeProvider, attrs: Attributes, config: Config): (r: InvokeRequest)
    ensures IsSet(attrs, "model") ==> r.modelId == attrs["model"]
    ensures !IsSet(attrs, "model") ==> r.modelId == p.model
    ensures HumanTurn(r.body.prompt) == Some(ToPhpString(Read(attrs, "content")))
    ensures "max_tokens" in attrs ==> r.body.maxTokensToSample == attrs["max_tokens"]
    ensures "max_tokens" !in attrs ==> r.body.maxTokensToSample == Null
    ensures r.accept == "application/json" && r.contentType == "application/json"
  {
    var content := ToPhpString(Read(attrs, "content"));
    HumanTurnInvertsHumanPrompt(content, "");
    var body := Body(
      HumanPrompt(content),
      Read(attrs, "max_tokens"),
      ConfigGet(config, "ai.defaults.temperature", DefaultTemperature),
      ConfigGet(config, "ai.defaults.top_p", DefaultTopP));
    InvokeRequest(body, Coalesce(attrs, "model", p.model), "application/json", "application/json")
  }

  const CompletionPath: seq<Key> := [Field("completion")]

  /** The body of the `try` block: invoke the model and return `completion` when
      it is set, otherwise throw an invalid-response exception. */
  function TryInvoke(p: ClaudeProvider, attrs: Attributes, config: Config, bedrock: Bedrock, encode: Value -> string): Outcome
  {
    match bedrock(p.client, Request(p, attrs, config))
    case Threw(e) => Raised(e)
    case Responded(body) =>
      if PathIsSet(body, CompletionPath) then Returned(Path(body, CompletionPath).value)
      else Raised(ForInvalidResponse(ProviderName, body, encode))
  }

  /** The two `catch` clauses: a `BedrockRuntimeException` becomes a request
      failure with the AWS error message, or its own message when that is null;
      any other `\Exception`, including the `AIProviderException` thrown in the
      `try` block, becomes a request failure with its message. A PHP `\Error`
      is not caught. */
  function Catch(o: Outcome): (r: Outcome)
    ensures o.Raised? && IsException(o.error) ==>
              && r.Raised?
              && Classify(ProviderName, r.error) ==
                   RequestFailure(if o.error.kind.BedrockRuntimeException? && o.error.kind.awsErrorMessage.Some?
                                  then o.error.kind.awsErrorMessage.value else o.error.message)
    ensures !(o.Raised? && IsException(o.error)) ==> r == o
  {
    match o
    case Raised(e) =>
      (match e.kind
       case BedrockRuntimeException(aws) =>
         Raised(ForRequestFailure(ProviderName, match aws case Some(m) => m case None => e.message))
       case OtherError(_) => o
       case _ => Raised(ForRequestFailure(ProviderName, e.message)))
    case _ => o
  }

  /** `ClaudeProvider::execute`. It returns `completion` exactly when Bedrock
      answers with a body where `completion` is set; everything it throws is a
      request failure, except a PHP `\Error` from the client, which escapes. */
  function Execute(p: ClaudeProvider, attrs: Attributes, config: Config, bedrock: Bedrock, encode: Value -> string): (r: Outcome)
    ensures !r.Unbound?
    ensures var res := bedrock(p.client, Request(p, attrs, config));
            && (r.Returned? <==> res.Responded? && PathIsSet(res.body, CompletionPath))
            && (r.Returned? ==> r.value == Path(res.body, CompletionPath).value)
    ensures r.Returned? ==> r.value != Null
    ensures r.Raised? ==> Classify(ProviderName, r.error).RequestFailure? || r.error.kind.OtherError?
  {
    Catch(TryInvoke(p, attrs, config, bedrock, encode))
  }

  /** A body without `completion` surfaces as a request failure whose detail is
      the invalid-response message: the caller never sees the invalid-response form. */
  lemma MissingCompletionIsRewrapped(p: ClaudeProvider, attrs: Attributes, config: Config, bedrock: Bedrock, encode: Value -> string, body: Value)
    requires bedrock(p.client, Request(p, attrs, config)) == Responded(body)
    requires !PathIsSet(body, CompletionPath)
    ensures var r := Execute(p, attrs, config, bedrock, encode);
            && r == Raised(ForRequestFailure(ProviderName, ForInvalidResponse(ProviderName, body, encode).message))
            && Classify(ProviderName, r.error) == RequestFailure(InvalidResponsePrefix(ProviderName) + encode(body))
  {
  }

  /** A Bedrock exception surfaces as a request failure carrying the AWS error
      message, or the exception's own message when there is none. */
  lemma BedrockErrorIsRequestFailure(p: ClaudeProvider, attrs: Attributes, config: Config, bedrock: Bedrock, encode: Value -> string,
                                     aws: Option<string>, message: string)
    requires bedrock(p.client, Request(p, attrs, config)) == Threw(Throwable(BedrockRuntimeException(aws), message))
    ensures Execute(p, attrs, config, bedrock, encode) ==
              Raised(ForRequestFailure(ProviderName, if aws.Some? then aws.value else message))
  {
  }

  /** Only `model`, `content` and `max_tokens` of the attributes reach Bedrock. */
  lemma OnlyThreeAttributesMatter(p: ClaudeProvider, a: Attributes, b: Attributes, config: Config)
    requires Read(a, "model") == Read(b, "model")
    requires Read(a, "content") == Read(b, "content")
    requires Read(a, "max_tokens") == Read(b, "max_tokens")
    ensures Request(p, a, config) == Request(p, b, config)
  {
  }
}
