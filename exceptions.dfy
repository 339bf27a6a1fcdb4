/** `AIProviderException` and its two message factories, together with what a
    PHP call can produce: a returned value or a thrown object. */
module Exceptions {
  import opened Values

  /** The class of a thrown object, as far as the `catch` clauses of the
      providers can tell classes apart. */
  datatype ThrowableKind =
    | AIProviderException
    | BedrockRuntimeException(awsErrorMessage: Option<string>)
    | OtherException(className: string)
      /** A PHP `\Error` (TypeError and the like): a Throwable that is not an `\Exception`. */
    | OtherError(className: string)

  datatype Throwable = Throwable(kind: ThrowableKind, message: string)

  /** Caught by `catch (\Exception $e)`: every thrown class except PHP's errors
      (`AIProviderException` and `BedrockRuntimeException` both extend `\Exception`). */
  predicate IsException(e: Throwable)
  {
    !e.kind.OtherError?
  }

  /** What a call produces: the value it returned or the object it threw.
      `Unbound` is the outcome of executing a model whose provider name did not
      resolve to one of the provider classes. */
  datatype Outcome = Returned(value: Value) | Raised(error: Throwable) | Unbound

  function InvalidResponsePrefix(provider: string): string
  {
    "Invalid response from " + provider + " provider: "
  }

  /** The literal is written in two pieces: the verifier reads the characters of
      short string literals only. */
  function RequestFailurePrefix(provider: string): string
  {
    "An error occurred " + "while interacting with the " + provider + " provider: "
  }

  /** The two forms of message the factories build, read back from a thrown object. */
  datatype Classification = InvalidResponse(detail: string) | RequestFailure(detail: string) | Unclassified

  /** Reads back which factory built `e` for `provider`, and with which detail. */
  function Classify(provider: string, e: Throwable): Classification
  {
    var ir := InvalidResponsePrefix(provider);
    var rf := RequestFailurePrefix(provider);
    if !e.kind.AIProviderException? then Unclassified
    else if ir <= e.message then InvalidResponse(e.message[|ir|..])
    else if rf <= e.message then RequestFailure(e.message[|rf|..])
    else Unclassified
  }

  /** The two prefixes differ in their first character, so no message carries both. */
  lemma PrefixesDisjoint(p: string, q: string, s: string)
    ensures !(InvalidResponsePrefix(p) <= s && RequestFailurePrefix(q) <= s)
  {
    assert InvalidResponsePrefix(p)[0] == 'I';
    assert RequestFailurePrefix(q)[0] == 'A';
  }

  /** `AIProviderException::forInvalidResponse`: a new `AIProviderException`
      whose message is the fixed prefix followed by the JSON encoding of the
      response; `encode` stands for `json_encode`. */
  function ForInvalidResponse(provider: string, response: Value, encode: Value -> string): (e: Throwable)
    ensures e.kind == AIProviderException
    ensures Classify(provider, e) == InvalidResponse(encode(response))
  {
    Throwable(AIProviderException, InvalidResponsePrefix(provider) + encode(response))
  }

  /** `AIProviderException::forRequestFailure`: a new `AIProviderException`
      whose message is the fixed prefix followed by `message` verbatim. */
  function ForRequestFailure(provider: string, message: string): (e: Throwable)
    ensures e.kind == AIProviderException
    ensures Classify(provider, e) == RequestFailure(message)
    ensures |message| <= |e.message| && e.message[|e.message| - |message|..] == message
  {
    var m := RequestFailurePrefix(provider) + message;
    PrefixesDisjoint(provider, provider, m);
    assert m[|RequestFailurePrefix(provider)|..] == message;
    Throwable(AIProviderException, m)
  }

  /** Wrapping a request failure in another one repeats the prefix, and each
      layer reads back as a request failure carrying the layer inside it. */
  lemma NestedRequestFailure(provider: string, message: string)
    ensures var inner := ForRequestFailure(provider, message);
            var outer := ForRequestFailure(provider, inner.message);
            && outer.message == RequestFailurePrefix(provider) + RequestFailurePrefix(provider) + message
            && Classify(provider, outer) == RequestFailure(inner.message)
            && Classify(provider, inner) == RequestFailure(message)
  {
    var p := RequestFailurePrefix(provider);
    assert p + (p + message) == p + p + message;
  }
}
