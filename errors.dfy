/**
 * The `LLMError` class of packages/model/llm/utils.ts, whose constructor classifies a provider
 * failure from its message and HTTP status, and the other thrown values the core passes around.
 */
module LlmErrors {
  import opened Wrappers
  import opened Text

  const PROVIDER_SERVER_ERROR := "LlmError - Provider server error"
  const RATE_LIMIT_EXCEEDED := "LlmError - Rate Limit Exceeded"
  const TOO_MANY_REQUESTS := "LlmError - Too many Requests"
  const UNKNOWN_LLM_ERROR := "LlmError - Unknown Error"

  /** What `new LLMError(message, status)` leaves in its fields. */
  datatype LlmError = LlmError(message: string, name: string, retryable: bool)

  /** A thrown value: an `LLMError` (kept as its constructor arguments), any other `Error`
      (provider client errors, `SyntaxError` from `JSON.parse`, database errors), a thrown
      object that is not an `Error` (its `message` reads as `undefined`), or a thrown `null`
      (`isNull`) or `undefined`. */
  datatype Exception =
    | LlmException(message: string, status: Option<int>)
    | PlainError(message: string)
    | NonError
    | Nullish(isNull: bool)

  /** The 429 sub-case test: the lower-cased message mentions a rate limit or a quota. */
  predicate MentionsQuota(message: string) {
    var lower := ToLower(message);
    Contains(lower, "rate limit") || Contains(lower, "quota")
  }

  /** The `LLMError` constructor: 500 and 503 are retryable, everything else (429 included,
      and an absent status) is not; the message only selects the 429 name. */
  function NewLlmError(message: string, status: Option<int>): (e: LlmError)
    ensures e.message == message
    ensures e.retryable <==> status == Some(500) || status == Some(503)
    ensures status == Some(500) || status == Some(503) ==> e.name == PROVIDER_SERVER_ERROR
    ensures status == Some(429) ==> e.name == (if MentionsQuota(message) then RATE_LIMIT_EXCEEDED else TOO_MANY_REQUESTS)
    ensures status != Some(500) && status != Some(503) && status != Some(429) ==> e.name == UNKNOWN_LLM_ERROR
  {
    if status == Some(500) || status == Some(503) then
      LlmError(message, PROVIDER_SERVER_ERROR, true)
    else if status == Some(429) then
      if MentionsQuota(message) then LlmError(message, RATE_LIMIT_EXCEEDED, false)
      else LlmError(message, TOO_MANY_REQUESTS, false)
    else
      LlmError(message, UNKNOWN_LLM_ERROR, false)
  }

  /** `err instanceof LLMError && !err.retryable`: the only failures the retry loop gives up on
      at once. Every other thrown value takes the retry branch. */
  predicate GivesUpAtOnce(e: Exception) {
    e.LlmException? && !NewLlmError(e.message, e.status).retryable
  }

  /** The `TypeError` JavaScript throws when a property is read from `null` or `undefined`. */
  function PropertyReadError(ofWhat: string, property: string): Exception {
    PlainError("Cannot read properties of " + ofWhat + " (reading '" + property + "')")
  }

  /** `error instanceof Error ? error.message : "Unknown error"`. */
  function CaughtMessage(e: Exception): string {
    match e
    case LlmException(m, _) => m
    case PlainError(m) => m
    case NonError => "Unknown error"
    case Nullish(_) => "Unknown error"
  }

  /** `${err.message}` in a template string: a thrown object that is not an `Error` gives
      "undefined", and reading `message` of a thrown `null` or `undefined` throws a `TypeError`. */
  function MessageOf(e: Exception): (r: Result<string, Exception>)
    ensures r.Failure? <==> e.Nullish?
    ensures e.LlmException? || e.PlainError? ==> r == Success(e.message)
  {
    match e
    case LlmException(m, _) => Success(m)
    case PlainError(m) => Success(m)
    case NonError => Success("undefined")
    case Nullish(isNull) => Failure(PropertyReadError(if isNull then "null" else "undefined", "message"))
  }

  /** A 429 is never retried, whatever its message says; an absent status is not retried
      either; every value that is not an `LLMError` is retried. */
  lemma RetryClassification(e: Exception)
    ensures e.LlmException? && e.status == Some(429) ==> GivesUpAtOnce(e)
    ensures e.LlmException? && e.status.None? ==> GivesUpAtOnce(e)
    ensures GivesUpAtOnce(e) <==> e.LlmException? && e.status != Some(500) && e.status != Some(503)
  {
  }

  /** The message of a 429 decides only the name, for instance "Quota exhausted" against
      "slow down". */
  lemma QuotaOnlyNames()
    ensures NewLlmError("Quota exhausted", Some(429)).name == RATE_LIMIT_EXCEEDED
    ensures NewLlmError("slow down", Some(429)).name == TOO_MANY_REQUESTS
    ensures !NewLlmError("Quota exhausted", Some(429)).retryable
    ensures !NewLlmError("slow down", Some(429)).retryable
  {
    var lower := ToLower("Quota exhausted");
    assert lower[..5] == "quota";
    assert lower[0..0 + |"quota"|] == "quota";
    var other := ToLower("slow down");
    assert other == "slow down";
    NotContainsFirst(other, "quota");
    assert !Contains(other, "rate limit");
  }
}
