/** The provider a model is bound to, how a provider name is resolved through
    the configuration (`app(config("ai.providers.{$name}.class"))`), and the
    outside world a provider talks to. */
module Providers {
  import opened Values
  import opened Exceptions
  import Claude
  import Gemini
  import Gpt

  const ClaudeClass := "Endritvs\\LaravelAIToolkit\\Providers\\ClaudeProvider"
  const GeminiClass := "Endritvs\\LaravelAIToolkit\\Providers\\GeminiProvider"
  const GptClass := "Endritvs\\LaravelAIToolkit\\Providers\\GPTProvider"

  datatype Provider =
    | ClaudeInstance(claude: Claude.ClaudeProvider)
    | GeminiInstance
    | GptInstance

  /** The configuration key naming the class of provider `name`. */
  function ClassKey(name: string): string
  {
    "ai.providers." + name + ".class"
  }

  /** The container builds a new instance of the configured class; a ClaudeProvider
      reads its model and client options from the configuration as it is built.
      A name whose class entry is missing or names no provider class resolves to nothing. */
  function Resolve(config: Config, name: string): (p: Option<Provider>)
    ensures ConfigGet(config, ClassKey(name), Null) == Str(ClaudeClass) <==> p == Some(ClaudeInstance(Claude.New(config)))
    ensures ConfigGet(config, ClassKey(name), Null) == Str(GeminiClass) <==> p == Some(GeminiInstance)
    ensures ConfigGet(config, ClassKey(name), Null) == Str(GptClass) <==> p == Some(GptInstance)
    ensures p.None? <==> ConfigGet(config, ClassKey(name), Null) !in {Str(ClaudeClass), Str(GeminiClass), Str(GptClass)}
  {
    var cls := ConfigGet(config, ClassKey(name), Null);
    if cls == Str(ClaudeClass) then Some(ClaudeInstance(Claude.New(config)))
    else if cls == Str(GeminiClass) then Some(GeminiInstance)
    else if cls == Str(GptClass) then Some(GptInstance)
    else None
  }

  /** `config('ai.default_provider')` spliced into the class key. */
  function DefaultProviderName(config: Config): string
  {
    ToPhpString(ConfigGet(config, "ai.default_provider", Null))
  }

  /** Everything a provider reads or calls at execution time: the configuration,
      `json_encode`, and the three network clients. */
  datatype World = World(
    config: Config,
    encode: Value -> string,
    bedrock: Claude.Bedrock,
    http: Gemini.Http,
    chat: Gpt.Chat)

  /** `$this->provider->execute($this->attributes)`. A bound provider always
      returns or throws; Claude and Gemini throw only request failures or PHP
      errors, GPT whatever its client throws. */
  function Dispatch(provider: Option<Provider>, attrs: Attributes, world: World): (r: Outcome)
    ensures r.Unbound? <==> provider.None?
    ensures provider.Some? && !provider.value.GptInstance? && r.Raised? ==>
              r.error.kind.OtherError?
              || Classify(if provider.value.GeminiInstance? then Gemini.ProviderName else Claude.ProviderName, r.error).RequestFailure?
  {
    match provider
    case None => Unbound
    case Some(ClaudeInstance(c)) => Claude.Execute(c, attrs, world.config, world.bedrock, world.encode)
    case Some(GeminiInstance) => Gemini.Execute(attrs, world.config, world.http, world.encode)
    case Some(GptInstance) => Gpt.Execute(attrs, world.config, world.chat)
  }

  /** The shipped `config/ai.php`, with every environment variable unset. */
  const ShippedConfig: Config := map[
    "ai.default_provider" := Str("claude"),
    "ai.providers.gpt.class" := Str(GptClass),
    "ai.providers.gpt.model" := Str("gpt-3.5-turbo"),
    "ai.providers.gpt.max_tokens" := Int(4000),
    "ai.providers.claude.class" := Str(ClaudeClass),
    "ai.providers.claude.model" := Str("anthropic.claude-v2"),
    "ai.providers.claude.max_tokens" := Int(6000),
    "ai.providers.claude.region" := Str("us-west-2"),
    "ai.providers.claude.credentials.key" := Null,
    "ai.providers.claude.credentials.secret" := Null,
    "ai.defaults.temperature" := Float("0.7"),
    "ai.defaults.max_tokens" := Int(4000),
    "ai.defaults.top_p" := Float("1.0")
  ]

  /** Under the shipped configuration a model starts bound to Claude with model
      anthropic.claude-v2, "gpt" resolves to the GPT provider, and "gemini"
      resolves to nothing, because the file has no Gemini entry. */
  lemma ShippedBindings()
    ensures DefaultProviderName(ShippedConfig) == "claude"
    ensures Resolve(ShippedConfig, "claude") == Some(ClaudeInstance(Claude.New(ShippedConfig)))
    ensures Claude.New(ShippedConfig).model == Str(Claude.DefaultModel)
    ensures Resolve(ShippedConfig, "gpt") == Some(GptInstance)
    ensures Resolve(ShippedConfig, "gemini").None?
  {
    assert ClassKey("claude") == "ai.providers.claude.class";
    assert ClassKey("gpt") == "ai.providers.gpt.class";
    assert ClassKey("gemini") == "ai.providers.gemini.class";
  }
}
