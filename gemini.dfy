/** `GeminiProvider`: a POST to Google's generateContent endpoint through
    Laravel's HTTP client. The client's `Http::post` is the parameter `http`; it
    answers with a status and the decoded JSON body (`null` when the body is
    not JSON), or with a thrown object. */
module Gemini {
  import opened Values
  import opened Exceptions

  const ProviderName := "Gemini"
  const DefaultErrorMessage := "Invalid response status"

  datatype Part = Part(text: Value)
  datatype Content = Content(parts: seq<Part>)
  datatype Body = Body(contents: seq<Content>)

  datatype HttpResult = Response(status: int, body: Value) | Threw(error: Throwable)

  type Http = (string, Body) -> HttpResult

  /** `config($key)` spliced into a string: an absent key gives "". */
  function ConfigString(config: Config, key: string): string
  {
    ToPhpString(ConfigGet(config, key, Null))
  }

  /** The endpoint, built from the configuration alone: it starts with the
      configured base URL and the model path, and the API key is the value of the
      trailing `key` query parameter. */
  function Url(config: Config): (url: string)
    ensures var base := ConfigString(config, "ai.providers.gemini.base_url") + "models/";
            var key := ConfigString(config, "ai.providers.gemini.api_key");
            && base <= url
            && |base| + |key| <= |url|
            && url[|url| - |key|..] == key
            && url[|base|..|url| - |key|] == ConfigString(config, "ai.providers.gemini.model") + ":generateContent?key="
  {
    ConfigString(config, "ai.providers.gemini.base_url") + "models/" + ConfigString(config, "ai.providers.gemini.model")
    + ":generateContent?key=" + ConfigString(config, "ai.providers.gemini.api_key")
  }

  /** The body: one `contents` entry holding one part whose text is the content. */
  function Request(attrs: Attributes): (body: Body)
    ensures |body.contents| == 1 && |body.contents[0].parts| == 1
    ensures body.contents[0].parts[0].text == Read(attrs, "content")
  {
    Body([Content([Part(Read(attrs, "content"))])])
  }

  /** Laravel's `Response::successful()`. */
  predicate Successful(status: int)
  {
    200 <= status < 300
  }

  const TextPath: seq<Key> :=
    [Field("candidates"), Index(0), Field("content"), Field("parts"), Index(0), Field("text")]
  const ErrorMessagePath: seq<Key> := [Field("error"), Field("message")]

  /** The message of a non-success response: `error.message` when the key path
      exists (an existing null gives ""), otherwise the default message. */
  function ErrorMessage(body: Value): string
  {
    ToPhpString(DataGet(body, ErrorMessagePath, Str(DefaultErrorMessage)))
  }

  /** The body of the `try` block. */
  function TryPost(attrs: Attributes, config: Config, http: Http, encode: Value -> string): Outcome
  {
    match http(Url(config), Request(attrs))
    case Threw(e) => Raised(e)
    case Response(status, body) =>
      if Successful(status) then
        if PathIsSet(body, TextPath) then Returned(Path(body, TextPath).value)
        else Raised(ForInvalidResponse(ProviderName, body, encode))
      else Raised(ForRequestFailure(ProviderName, ErrorMessage(body)))
  }

  /** `catch (\Exception $e)`: every `\Exception`, including the provider's own
      `AIProviderException`s, is wrapped once more as a request failure. */
  function Catch(o: Outcome): (r: Outcome)
    ensures o.Raised? && IsException(o.error) ==>
              r.Raised? && r.error.kind == AIProviderException && Classify(ProviderName, r.error) == RequestFailure(o.error.message)
    ensures !(o.Raised? && IsException(o.error)) ==> r == o
  {
    if o.Raised? && IsException(o.error) then Raised(ForRequestFailure(ProviderName, o.error.message)) else o
  }

  /** `GeminiProvider::execute`. It returns the first candidate's first part's
      text exactly when the response is successful and that text is set;
      everything it throws is a request failure, except a PHP `\Error` from the
      HTTP client, which escapes. */
  function Execute(attrs: Attributes, config: Config, http: Http, encode: Value -> string): (r: Outcome)
    ensures !r.Unbound?
    ensures var res := http(Url(config), Request(attrs));
            && (r.Returned? <==> res.Response? && Successful(res.status) && PathIsSet(res.body, TextPath))
            && (r.Returned? ==> r.value == Path(res.body, TextPath).value)
    ensures r.Returned? ==> r.value != Null
    ensures r.Raised? ==> Classify(ProviderName, r.error).RequestFailure? || r.error.kind.OtherError?
  {
    Catch(TryPost(attrs, config, http, encode))
  }

  /** A non-success response is wrapped twice: the message carries the
      request-failure prefix two times before the error message. */
  lemma NonSuccessIsDoubleWrapped(attrs: Attributes, config: Config, http: Http, encode: Value -> string, status: int, body: Value)
    requires http(Url(config), Request(attrs)) == Response(status, body)
    requires !Successful(status)
    ensures var r := Execute(attrs, config, http, encode);
            && r == Raised(ForRequestFailure(ProviderName, ForRequestFailure(ProviderName, ErrorMessage(body)).message))
            && r.error.message == RequestFailurePrefix(ProviderName) + RequestFailurePrefix(ProviderName) + ErrorMessage(body)
  {
    NestedRequestFailure(ProviderName, ErrorMessage(body));
  }

  /** Without `error.message` in the body the doubly wrapped detail is "Invalid response status". */
  lemma MissingErrorMessageDefaults(body: Value)
    requires Path(body, ErrorMessagePath).None?
    ensures ErrorMessage(body) == DefaultErrorMessage
  {
  }

  /** With `error.message` in the body the detail is that message. */
  lemma PresentErrorMessageIsUsed(body: Value, s: string)
    requires Path(body, ErrorMessagePath) == Some(Str(s))
    ensures ErrorMessage(body) == s
  {
  }

  /** A successful response without the text surfaces as a request failure
      whose detail is the invalid-response message. */
  lemma MissingTextIsRewrapped(attrs: Attributes, config: Config, http: Http, encode: Value -> string, status: int, body: Value)
    requires http(Url(config), Request(attrs)) == Response(status, body)
    requires Successful(status) && !PathIsSet(body, TextPath)
    ensures var r := Execute(attrs, config, http, encode);
            && r == Raised(ForRequestFailure(ProviderName, ForInvalidResponse(ProviderName, body, encode).message))
            && Classify(ProviderName, r.error) == RequestFailure(InvalidResponsePrefix(ProviderName) + encode(body))
  {
  }

  /** Of the attributes only `content` matters: `model` and `max_tokens` are ignored. */
  lemma OnlyContentMatters(a: Attributes, b: Attributes, config: Config, http: Http, encode: Value -> string)
    requires Read(a, "content") == Read(b, "content")
    ensures Execute(a, config, http, encode) == Execute(b, config, http, encode)
  {
  }
}
