# laravel-ai-toolkit, modelled in Dafny

This project models the request side of the laravel-ai-toolkit package: the
attribute bag a caller fills through fluent setters (`AIModel` and its concrete
subclass `Prompt`), the query builder that defers `where` conditions until
execution (`AIQueryBuilder`), the three providers that turn the attributes into
one backend call each and classify what comes back (`ClaudeProvider` over AWS
Bedrock, `GeminiProvider` over HTTP, `GPTProvider` over the OpenAI client), and
the two message factories of `AIProviderException`. It proves the properties the
code promises about them.

Modules, one per component:

- `Values` — PHP values (`null`, bools, 64-bit ints, floats as literals,
  strings, lists, string-keyed arrays), the attribute map, the configuration as
  a flat map of dotted keys, PHP string conversion, `isset`, `??`, nested array
  access and Laravel's `data_get`.
- `Exceptions` — thrown objects (`AIProviderException`,
  `BedrockRuntimeException`, any other `\Exception`, and PHP `\Error`s, which a
  `catch (\Exception)` does not catch), the outcome of a call (returned value or
  thrown object), the two factories, and `Classify`, which reads a message back
  into the factory and detail that built it.
- `Claude`, `Gemini`, `Gpt` — each provider's `execute`. The Claude and Gemini
  ones are the composition of a `Try…` function (the `try` block) and a `Catch`
  function (its `catch` clauses), so the re-wrapping of the providers' own
  exceptions follows from the code's shape rather than being written in.
- `Providers` — the provider a model is bound to, resolution of a provider name
  through its configured class, the world a provider talks to, and dispatch.
- `Models` — the class `Prompt` with its attribute map and provider, and the
  functions that give each setter's effect on the map.
- `QueryBuilder` — the class `AIQueryBuilder`, its conditions (a PHP ordered
  array) and their application.

The network and the SDKs are parameters. `Providers.World` carries the
configuration as it stands when a provider executes, `json_encode`, and three
functions: Bedrock's `invokeModel`, `Http::post` and `OpenAI::chat()->create`.
Each returns an abstract response value or a thrown object. `json_decode` is
folded into those functions: they answer with the decoded body.

What the code does, as the model states it:

- There is no fallback or retry: `execute` calls the bound provider once, and
  what it returns or throws reaches the caller.
- The model id: Claude and GPT use the attribute `model` when it is set and
  otherwise fall back to their configured model (Claude's defaulting to
  anthropic.claude-v2); Gemini ignores the attribute and always uses its
  configured model.
- No provider applies a configured default for `max_tokens`:
  - Claude sends `max_tokens` as it is, `null` when absent.
  - GPT falls back to the literal 4000.
  - Gemini ignores the attribute.
  - No provider reads a `max_tokens` entry of the configuration.
- Failures are classified as follows:
  - Claude and Gemini re-wrap their own invalid-response exception, so callers
    only ever see the request-failure form.
  - Gemini wraps a non-success response twice.
  - GPT classifies nothing: its client's exceptions escape unchanged.
  - PHP `\Error`s escape every provider.
- `where` pairs are written into the model's own attribute map, so they
  override content, model and max_tokens set through the setters.
- The builder's `setModel`, `addContent` and `setMaxTokens` return the model,
  not the builder.
- A new model has no `content` attribute: content starts absent, not as an empty string.
- The shipped `config/ai.php` has no Gemini entry. Under it, the name "gemini"
  resolves to no provider (`Providers.ShippedBindings`).

## Model

| member | source | states |
|---|---|---|
| `Exceptions.ForInvalidResponse` | src/Exceptions/AIProviderException.php:9-12 | builds an `AIProviderException`; its message reads back as exactly the invalid-response form carrying `json_encode($response)` |
| `Exceptions.ForRequestFailure` | src/Exceptions/AIProviderException.php:14-17 | builds an `AIProviderException`; its message reads back as exactly the request-failure form carrying the message, and ends with the message verbatim |
| `Exceptions.PrefixesDisjoint` | src/Exceptions/AIProviderException.php:11-16 | no message carries both factory prefixes, so reading a message back is unambiguous |
| `Exceptions.NestedRequestFailure` | src/Exceptions/AIProviderException.php:16 | a request failure wrapped in another one repeats the prefix, and each layer reads back as a request failure of the layer inside it |
| `Claude.New` | src/Providers/ClaudeProvider.php:14-26 | the model is the configured Claude model, else anthropic.claude-v2; the region is the configured region, else us-west-2; the credentials key and secret are the configured ones (null when absent); the client version is "latest" |
| `Claude.HumanTurnInvertsHumanPrompt` | src/Providers/ClaudeProvider.php:32 | the prompt construction and reading the content back between the Human and Assistant markers are inverse to each other |
| `Claude.Request` | src/Providers/ClaudeProvider.php:31-46 | model id is the set attribute `model`, else the provider's model; the prompt wraps exactly the content in the two markers; `max_tokens_to_sample` is `max_tokens` unchanged, null when absent; JSON accept and content type |
| `Claude.OnlyThreeAttributesMatter` | src/Providers/ClaudeProvider.php:31-39 | two attribute maps that agree on model, content and max_tokens give the same Bedrock request |
| `Claude.Catch` | src/Providers/ClaudeProvider.php:55-59 | a caught `BedrockRuntimeException` leaves as a request failure whose detail reads back as the AWS error message, or the exception's message when that is null; any other caught `\Exception` leaves as a request failure carrying its message; anything else passes through unchanged |
| `Claude.Execute` | src/Providers/ClaudeProvider.php:28-60 | returns exactly when Bedrock answers with a body where `completion` is set, and then returns that `completion`; everything thrown is a request failure or an uncaught PHP `\Error` |
| `Claude.MissingCompletionIsRewrapped` | src/Providers/ClaudeProvider.php:50-58 | a body without `completion` surfaces as a request failure whose detail is the whole invalid-response message |
| `Claude.BedrockErrorIsRequestFailure` | src/Providers/ClaudeProvider.php:55-56 | a Bedrock exception surfaces as a request failure with the AWS error message, or the exception's message when that is null |
| `Gemini.Url` | src/Providers/GeminiProvider.php:13 | the endpoint starts with the configured base URL and "models/", then the configured model and ":generateContent?key=", and ends with the configured API key as the query parameter's value |
| `Gemini.Request` | src/Providers/GeminiProvider.php:15-23 | one `contents` entry with one part whose text is the content attribute |
| `Gemini.Catch` | src/Providers/GeminiProvider.php:39-41 | every caught `\Exception`, the provider's own included, leaves as an `AIProviderException` that reads back as a request failure carrying the caught message; a PHP `\Error` passes through unchanged |
| `Gemini.Execute` | src/Providers/GeminiProvider.php:10-42 | returns exactly when the status is 2xx and `candidates[0].content.parts[0].text` is set, and then returns that text; everything thrown is a request failure or an uncaught PHP `\Error` |
| `Gemini.NonSuccessIsDoubleWrapped` | src/Providers/GeminiProvider.php:37-40 | a non-success response raises a request failure whose detail is itself a request failure, so the prefix appears twice before the error message |
| `Gemini.MissingErrorMessageDefaults` | src/Providers/GeminiProvider.php:37 | without `error.message` in the body the message is "Invalid response status" |
| `Gemini.PresentErrorMessageIsUsed` | src/Providers/GeminiProvider.php:37 | with a string `error.message` in the body the message is exactly that string |
| `Gemini.MissingTextIsRewrapped` | src/Providers/GeminiProvider.php:27-40 | a successful response without the text surfaces as a request failure whose detail is the invalid-response message |
| `Gemini.OnlyContentMatters` | src/Providers/GeminiProvider.php:13-23 | attribute maps that agree on content give the same outcome: model and max_tokens are ignored |
| `Gpt.Request` | src/Providers/GPTProvider.php:11-17 | model is the set attribute, else configured gpt.model; max_tokens is the set attribute, else 4000; exactly one user message with the content |
| `Gpt.Execute` | src/Providers/GPTProvider.php:9-20 | raises exactly when the client throws, with the client's object unchanged; otherwise returns the first choice's content, and null when there is no choice or it has no content |
| `Gpt.OnlyThreeAttributesMatter` | src/Providers/GPTProvider.php:11-17 | attribute maps that agree on model, content and max_tokens give the same payload |
| `Providers.Resolve` | src/Models/AIModel.php:18-22 | a name resolves to the provider whose class its configuration entry names (a Claude provider built from the current configuration), and to nothing otherwise |
| `Providers.Dispatch` | src/Models/AIModel.php:45-48 | a bound provider always returns or throws; Claude and Gemini throw only request failures or PHP errors |
| `Providers.ShippedBindings` | config/ai.php:5-24 | under the shipped configuration the default is Claude with anthropic.claude-v2, "gpt" resolves to GPT and "gemini" to nothing |
| `Models.WithContent` | src/Models/AIModel.php:50-54 | content becomes the argument whatever it was; no other key changes |
| `Models.WithAddedContent` | src/Models/AIModel.php:56-64 | with content set, old content, newline, argument; without, the argument; no other key changes |
| `Models.WithModel` | src/Models/AIModel.php:66-70 | model becomes the argument; no other key changes |
| `Models.WithMaxTokens` | src/Models/AIModel.php:72-76 | max_tokens becomes the argument; no other key changes |
| `Models.AddContentKeepsPrefix` | src/Models/AIModel.php:58-59 | adding to set content keeps it as a prefix, followed by a newline and exactly the new text |
| `Models.AddContentTwice` | src/Models/AIModel.php:56-64 | `addContent(a); addContent(b)` on a model without content yields `a + "\n" + b` |
| `Models.AddEachJoinsLines` | src/Models/Prompt.php:9-17 | any number of additions accumulate all lines joined by newlines, after any prior content; no other key changes |
| `Models.SetterLastWriteWins` | src/Models/AIModel.php:50-76 | setContent, setModel and setMaxTokens are last-write-wins |
| `Models.SettersCommuteWithAddContent` | src/Models/AIModel.php:56-76 | setModel and setMaxTokens commute with addContent |
| `Models.Prompt.constructor` | src/Models/AIModel.php:12-16 | stores the attributes verbatim (empty by default) and binds the configured default provider |
| `Models.Prompt.SetProvider` | src/Models/AIModel.php:18-22 | rebinds only the provider, leaves the attributes, returns the model |
| `Models.Prompt.GetAttribute` | src/Models/AIModel.php:24-27 | the stored value when set, else null |
| `Models.Prompt.SetAttribute` | src/Models/AIModel.php:29-32 | stores the value under the key; every other key keeps its value |
| `Models.Prompt.Execute` | src/Models/Prompt.php:19-22 | the bound provider's outcome on the current attributes, passed unchanged |
| `Models.Prompt.SetContent` | src/Models/AIModel.php:50-54 | the attributes become `WithContent` of the old ones; returns the model |
| `Models.Prompt.AddContent` | src/Models/Prompt.php:9-17 | the attributes become `WithAddedContent` of the old ones; returns the model |
| `Models.Prompt.SetModel` | src/Models/AIModel.php:66-70 | the attributes become `WithModel` of the old ones; returns the model |
| `Models.Prompt.SetMaxTokens` | src/Models/AIModel.php:72-76 | the attributes become `WithMaxTokens` of the old ones; returns the model |
| `Models.ChainedSetters` | src/Models/AIModel.php:56-70 | for any texts `a`, `b` and models `m1`, `m2`, the chain `addContent(a)->setModel(m1)->addContent(b)->setModel(m2)` on a fresh prompt leaves exactly content `a` newline `b` and model `m2` |
| `QueryBuilder.Record` | src/QueryBuilder/AIQueryBuilder.php:17-21 | the key now holds the value; a new key is appended, a known key keeps its position; other keys keep their values; keys stay distinct |
| `QueryBuilder.ApplyConditions` | src/QueryBuilder/AIQueryBuilder.php:40-42 | every recorded key holds its recorded value, overriding the old one; every other key is unchanged |
| `QueryBuilder.ApplyConditionsDetermined` | src/QueryBuilder/AIQueryBuilder.php:40-42 | the applied attributes depend only on the recorded values and the keys no condition names |
| `QueryBuilder.ApplyConditionsIdempotent` | src/QueryBuilder/AIQueryBuilder.php:38-45 | applying the conditions twice equals applying them once |
| `QueryBuilder.SecondExecuteReapplies` | src/QueryBuilder/AIQueryBuilder.php:38-45 | a write between two executes acts as if made before the first, so conditions win again |
| `QueryBuilder.AIQueryBuilder.constructor` | src/QueryBuilder/AIQueryBuilder.php:12-15 | holds the given model and no conditions |
| `QueryBuilder.AIQueryBuilder.Query` | src/Models/AIModel.php:34-43 | a builder over a new model with no attributes and the default provider, with no conditions |
| `QueryBuilder.AIQueryBuilder.Where` | src/QueryBuilder/AIQueryBuilder.php:17-21 | conditions become `Record` of the old ones; returns the builder |
| `QueryBuilder.AIQueryBuilder.SetModel` | src/QueryBuilder/AIQueryBuilder.php:23-26 | the same effect as the model's setModel; returns the model, not the builder |
| `QueryBuilder.AIQueryBuilder.AddContent` | src/QueryBuilder/AIQueryBuilder.php:28-31 | the same effect as the model's addContent; returns the model |
| `QueryBuilder.AIQueryBuilder.SetMaxTokens` | src/QueryBuilder/AIQueryBuilder.php:33-36 | the same effect as the model's setMaxTokens; returns the model |
| `QueryBuilder.AIQueryBuilder.Execute` | src/QueryBuilder/AIQueryBuilder.php:38-45 | model attributes become `ApplyConditions` of the old ones before the provider runs on them; conditions are kept |
| `QueryBuilder.WhereOverridesLaterSetter` | src/QueryBuilder/AIQueryBuilder.php:17-44 | for any value `w`, text `c` and model `m`, `where('model', w)`, `addContent(c)`, `setModel(m)` and `execute` on a fresh builder run the provider on exactly content `c` and model `w` |

## Left out

- Fallback, retry and multi-provider orchestration: no such code exists in the source.
- Network and SDK calls (`invokeModel`, `Http::post`, `OpenAI::chat()->create`): they are function parameters returning abstract responses.
- `json_encode` is an uninterpreted function parameter. `json_decode` is folded into the backend parameters.
- Laravel's `config()`/`env()` are a flat map of dotted keys. `app()` resolution is `Providers.Resolve` over the three provider classes.
- A name whose class does not resolve gives the outcome `Unbound`. What Laravel's container then does (returning itself, or failing to build a class) is not modelled.
- Laravel's error handler turns PHP warnings into an `ErrorException`; the model uses plain PHP semantics instead, in three places:
  - Reading an absent attribute key (`$attributes['content']` and `$attributes['max_tokens']` in the providers) yields `null`. Under Laravel, Claude and Gemini would re-wrap the `ErrorException` as a request failure, and in GPT it would escape.
  - `Gpt.Execute` returns `null` when the client answers with no choice. Under Laravel, reading `choices[0]` of an empty list throws an `ErrorException`, which escapes GPT, because GPT has no `catch`.
  - `Values.ToPhpString` converts an array to "Array". Under Laravel, that "Array to string conversion" warning throws. It is reached by `addContent` on array content, by Claude's prompt on array content, and by Gemini's `error.message` when it holds an array.
- Floats (`temperature`, `top_p`) are opaque literals. PHP's float-to-string formatting is not modelled.
- Object identity: thrown exceptions and the Claude provider are values. "A fresh instance" is modelled as "an `AIProviderException`".
- The Bedrock client object is modelled only through the options it is built with.
- `AIModel::addContent` and `AIModel::execute` have no members of their own: `Prompt` overrides them with identical bodies, and `Models.Prompt` models both. `AIModel` is abstract.
- `newQuery` is the same as `query`, because it ignores its receiver. `query` is modelled in the builder's module, since Dafny modules cannot import each other cyclically.
- PHP's weak-mode coercion of arguments is not modelled. Examples: a numeric string passed to `setMaxTokens(int)`, or a non-string passed to `setContent(string)`.
- Nested array access covers field names on string-keyed arrays and integer indices on lists and (through their decimal key) on string-keyed arrays. Not modelled: a numeric field name used on a list (PHP would find the list element) and string offsets. No path the providers use contains a numeric field name or can end on a string offset.
- `src/AIServiceProvider.php` (publishing and merging configuration) is not part of this model.
