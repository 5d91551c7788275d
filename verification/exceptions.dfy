/** The LLM error taxonomy: classification of a raw error by HTTP status and
    message keywords, the service exception built from it, and its
    recoverability. */
module Exceptions {
  import opened Wrappers
  import opened Text
  import opened Values

  datatype LlmErrorType =
    | ApiKeyInvalid | ApiRateLimited | ApiQuotaExceeded | ApiUnavailable
    | NetworkTimeout | NetworkConnection | NetworkDns
    | ModelNotFound | ModelOverloaded | ModelContextLength
    | RequestInvalid | RequestTooLarge | RequestMalformed
    | ResponseInvalid | ResponseTruncated | ResponseEmpty
    | InternalError | ConfigurationError | UnknownError

  /** The enum's string values. */
  function TypeValue(t: LlmErrorType): string {
    match t
    case ApiKeyInvalid => "api_key_invalid"
    case ApiRateLimited => "api_rate_limited"
    case ApiQuotaExceeded => "api_quota_exceeded"
    case ApiUnavailable => "api_unavailable"
    case NetworkTimeout => "network_timeout"
    case NetworkConnection => "network_connection"
    case NetworkDns => "network_dns"
    case ModelNotFound => "model_not_found"
    case ModelOverloaded => "model_overloaded"
    case ModelContextLength => "model_context_length"
    case RequestInvalid => "request_invalid"
    case RequestTooLarge => "request_too_large"
    case RequestMalformed => "request_malformed"
    case ResponseInvalid => "response_invalid"
    case ResponseTruncated => "response_truncated"
    case ResponseEmpty => "response_empty"
    case InternalError => "internal_error"
    case ConfigurationError => "configuration_error"
    case UnknownError => "unknown_error"
  }

  /** Distinct members have distinct values. */
  lemma TypeValueInjective(a: LlmErrorType, b: LlmErrorType)
    requires TypeValue(a) == TypeValue(b)
    ensures a == b
  {
  }

  /** The types for which a retry can help. */
  predicate IsRecoverable(t: LlmErrorType)
    ensures IsRecoverable(t) ==> t != UnknownError && t != ApiKeyInvalid && t != ConfigurationError
  {
    t in {ApiRateLimited, ModelOverloaded, NetworkTimeout, NetworkConnection, ApiUnavailable, ResponseInvalid}
  }

  /** A raw error from the HTTP or LLM library: its `str()`, its
      `status_code` attribute if it has one, and its `retry_after`
      attribute (`None` when absent). */
  datatype RawError = RawError(text: string, statusCode: Option<int>, retryAfter: Value)

  /** `any(k in s for k in keywords)` */
  predicate AnyKeyword(s: string, keywords: seq<string>) {
    exists k :: 0 <= k < |keywords| && Contains(s, keywords[k])
  }

  /** The status-code part of `classify_error`; `None` falls through to the
      text checks. */
  function ClassifyStatus(status: int): (r: Option<LlmErrorType>)
    ensures r.None? <==> !(400 <= status < 600)
  {
    if status == 401 then Some(ApiKeyInvalid)
    else if status == 429 then Some(ApiRateLimited)
    else if status == 404 then Some(ModelNotFound)
    else if status == 503 then Some(ModelOverloaded)
    else if 400 <= status < 500 then Some(RequestInvalid)
    else if 500 <= status < 600 then Some(ApiUnavailable)
    else None
  }

  /** Every keyword `classify_error` looks for, in the order it tries them. */
  const ErrorKeywords: seq<string> :=
    ["timeout", "timed out", "connection", "connect", "dns", "resolve", "too large", "payload", "invalid", "malformed"]

  /** A keyword of `a + b` is a keyword of `a` or of `b`. */
  lemma AnyKeywordAppend(s: string, a: seq<string>, b: seq<string>)
    ensures AnyKeyword(s, a + b) <==> AnyKeyword(s, a) || AnyKeyword(s, b)
  {
    if AnyKeyword(s, a + b) {
      var k :| 0 <= k < |a + b| && Contains(s, (a + b)[k]);
      if k >= |a| {
        assert Contains(s, b[k - |a|]);
      }
    }
    if AnyKeyword(s, a) {
      var k :| 0 <= k < |a| && Contains(s, a[k]);
      assert Contains(s, (a + b)[k]);
    }
    if AnyKeyword(s, b) {
      var k :| 0 <= k < |b| && Contains(s, b[k]);
      assert Contains(s, (a + b)[|a| + k]);
    }
  }

  /** The keyword part of `classify_error`, on the lowercased text, first
      match wins; only a text with none of the keywords is unknown. */
  function ClassifyText(lowered: string): (t: LlmErrorType)
    ensures t in {NetworkTimeout, NetworkConnection, NetworkDns, RequestTooLarge, RequestMalformed, UnknownError}
    ensures t == UnknownError <==> !AnyKeyword(lowered, ErrorKeywords)
  {
    var g1, g2, g3 := ["timeout", "timed out"], ["connection", "connect"], ["dns", "resolve"];
    var g4, g5 := ["too large", "payload"], ["invalid", "malformed"];
    assert ErrorKeywords == g1 + (g2 + (g3 + (g4 + g5)));
    AnyKeywordAppend(lowered, g4, g5);
    AnyKeywordAppend(lowered, g3, g4 + g5);
    AnyKeywordAppend(lowered, g2, g3 + (g4 + g5));
    AnyKeywordAppend(lowered, g1, g2 + (g3 + (g4 + g5)));
    if AnyKeyword(lowered, ["timeout", "timed out"]) then NetworkTimeout
    else if AnyKeyword(lowered, ["connection", "connect"]) then NetworkConnection
    else if AnyKeyword(lowered, ["dns", "resolve"]) then NetworkDns
    else if AnyKeyword(lowered, ["too large", "payload"]) then RequestTooLarge
    else if AnyKeyword(lowered, ["invalid", "malformed"]) then RequestMalformed
    else UnknownError
  }

  /** `classify_error` */
  function ClassifyError(e: RawError): (t: LlmErrorType)
    ensures e.statusCode == Some(401) ==> t == ApiKeyInvalid
    ensures e.statusCode == Some(429) ==> t == ApiRateLimited
    ensures e.statusCode == Some(404) ==> t == ModelNotFound
    ensures e.statusCode == Some(503) ==> t == ModelOverloaded
    ensures e.statusCode.Some? && 400 <= e.statusCode.value < 500 && e.statusCode.value !in {401, 429, 404} ==>
              t == RequestInvalid
    ensures e.statusCode.Some? && 500 <= e.statusCode.value < 600 && e.statusCode.value != 503 ==> t == ApiUnavailable
    ensures (e.statusCode.None? || !(400 <= e.statusCode.value < 600)) ==> t == ClassifyText(ToLower(e.text))
  {
    var fromStatus := if e.statusCode.Some? then ClassifyStatus(e.statusCode.value) else None;
    if fromStatus.Some? then fromStatus.value else ClassifyText(ToLower(e.text))
  }

  /** Classification never yields a response, internal, configuration,
      quota or context-length type. */
  lemma ClassifyRange(e: RawError)
    ensures ClassifyError(e) in {ApiKeyInvalid, ApiRateLimited, ModelNotFound, ModelOverloaded, RequestInvalid,
                                 ApiUnavailable, NetworkTimeout, NetworkConnection, NetworkDns, RequestTooLarge,
                                 RequestMalformed, UnknownError}
  {
  }

  /** Lowercasing twice is lowercasing once. */
  lemma LowerIdem(s: string)
    ensures ToLower(ToLower(s)) == ToLower(s)
  {
  }

  /** Without a decisive status code, a text and its lowercase form are
      classified alike: the keywords are recognised whatever their case. */
  lemma ClassifyIgnoresCase(s: string, status: Option<int>, retry: Value)
    requires status.None? || !(400 <= status.value < 600)
    ensures ClassifyError(RawError(s, status, retry)) == ClassifyError(RawError(ToLower(s), status, retry))
  {
    LowerIdem(s);
  }


  /** `LLMServiceException`; `original_error` is kept as its `str()`. */
  datatype LlmServiceException = LlmServiceException(
    message: string,
    errorType: LlmErrorType,
    originalError: Option<string>,
    errorDetails: map<string, Value>,
    recoverable: bool,
    retryAfter: Value)

  /** `str(exc)` */
  function ExceptionText(x: LlmServiceException): string {
    "LLMServiceException[" + TypeValue(x.errorType) + "]: " + x.message
  }

  /** `to_dict`: the six fields under their own names, values unchanged. */
  function ToDict(x: LlmServiceException): (d: map<string, Value>)
    ensures d.Keys == {"error_type", "message", "recoverable", "retry_after", "error_details", "original_error"}
    ensures d["error_type"] == Str(TypeValue(x.errorType)) && d["message"] == Str(x.message)
    ensures d["recoverable"] == Bool(x.recoverable) && d["retry_after"] == x.retryAfter
    ensures d["error_details"] == Obj(x.errorDetails) && d["original_error"] == OptStr(x.originalError)
  {
    map[
      "error_type" := Str(TypeValue(x.errorType)),
      "message" := Str(x.message),
      "recoverable" := Bool(x.recoverable),
      "retry_after" := x.retryAfter,
      "error_details" := Obj(x.errorDetails),
      "original_error" := OptStr(x.originalError)]
  }

  /** The subclasses' constructors. */
  function ApiKeyInvalidException(): LlmServiceException {
    LlmServiceException("OpenRouter API Key ist ungültig oder nicht gesetzt", ApiKeyInvalid, None, map[], false, Null)
  }

  function ApiRateLimitedException(retryAfter: Value): LlmServiceException {
    LlmServiceException("API Rate Limit erreicht", ApiRateLimited, None, map[], true, retryAfter)
  }

  function ModelNotFoundException(modelName: Value, renderOther: Value -> string): LlmServiceException {
    LlmServiceException("Model '" + PyStr(modelName, renderOther) + "' nicht verfügbar oder nicht gefunden",
                        ModelNotFound, None, map["model_name" := modelName], false, Null)
  }

  function ModelOverloadedException(modelName: Value, retryAfter: Value, renderOther: Value -> string): LlmServiceException {
    LlmServiceException("Model '" + PyStr(modelName, renderOther) + "' ist derzeit überlastet",
                        ModelOverloaded, None, map["model_name" := modelName], true, retryAfter)
  }

  function NetworkTimeoutException(timeout: Value, renderOther: Value -> string): LlmServiceException {
    LlmServiceException("Network timeout nach " + PyStr(timeout, renderOther) + "s",
                        NetworkTimeout, None, map["timeout_seconds" := timeout], true, Null)
  }

  function RequestTooLargeException(size: Value, maxSize: Value, renderOther: Value -> string): LlmServiceException {
    LlmServiceException("Request zu groß: " + PyStr(size, renderOther) + " bytes (max: " + PyStr(maxSize, renderOther) + ")",
                        RequestTooLarge, None, map["size_bytes" := size, "max_size" := maxSize], false, Null)
  }

  function ResponseInvalidException(details: Value, renderOther: Value -> string): LlmServiceException {
    var text := PyStr(details, renderOther);
    LlmServiceException("Invalid API response" + (if Truthy(details) then ": " + text else ""),
                        ResponseInvalid, None, map["details" := details], true, Null)
  }

  /** `dict.get(k, default)` */
  function GetOr(d: map<string, Value>, k: string, default: Value): Value {
    if k in d then d[k] else default
  }

  /** `getattr(error, 'retry_after', None) or context.get('retry_after')` */
  function RetryAfter(e: RawError, context: map<string, Value>): (v: Value)
    ensures Truthy(e.retryAfter) ==> v == e.retryAfter
    ensures !Truthy(e.retryAfter) ==> v == Get(context, "retry_after")
  {
    if Truthy(e.retryAfter) then e.retryAfter else Get(context, "retry_after")
  }

  /** `create_llm_exception`: the exception for the classified type, with the
      missing context filled in by the defaults ("unknown" model, zero
      timeout and sizes). */
  function CreateLlmException(e: RawError, context: map<string, Value>, renderOther: Value -> string): (x: LlmServiceException)
    ensures x.errorType == ClassifyError(e)
    ensures x.recoverable <==> IsRecoverable(x.errorType)
    ensures x.errorType == ModelNotFound ==> "model_name" in x.errorDetails && x.errorDetails["model_name"] == GetOr(context, "model_name", Str("unknown"))
    ensures x.errorType == NetworkTimeout ==> "timeout_seconds" in x.errorDetails && x.errorDetails["timeout_seconds"] == GetOr(context, "timeout_seconds", Int(0))
    ensures x.errorType == RequestTooLarge ==>
              "size_bytes" in x.errorDetails && "max_size" in x.errorDetails &&
              x.errorDetails["size_bytes"] == GetOr(context, "size_bytes", Int(0)) &&
              x.errorDetails["max_size"] == GetOr(context, "max_size", Int(0))
    ensures x.errorType in {ApiRateLimited, ModelOverloaded} ==> x.retryAfter == RetryAfter(e, context)
    ensures x.errorType in {RequestInvalid, ApiUnavailable, NetworkConnection, NetworkDns, RequestMalformed, UnknownError} ==>
              x == LlmServiceException(e.text, x.errorType, Some(e.text), context, IsRecoverable(x.errorType), Null)
  {
    var t := ClassifyError(e);
    if t == ApiKeyInvalid then ApiKeyInvalidException()
    else if t == ApiRateLimited then ApiRateLimitedException(RetryAfter(e, context))
    else if t == ModelNotFound then ModelNotFoundException(GetOr(context, "model_name", Str("unknown")), renderOther)
    else if t == ModelOverloaded then
      ModelOverloadedException(GetOr(context, "model_name", Str("unknown")), RetryAfter(e, context), renderOther)
    else if t == NetworkTimeout then NetworkTimeoutException(GetOr(context, "timeout_seconds", Int(0)), renderOther)
    else if t == RequestTooLarge then
      RequestTooLargeException(GetOr(context, "size_bytes", Int(0)), GetOr(context, "max_size", Int(0)), renderOther)
    else if t == ResponseInvalid then ResponseInvalidException(GetOr(context, "details", Str(e.text)), renderOther)
    else LlmServiceException(e.text, t, Some(e.text), context, IsRecoverable(t), Null)
  }

  /** A 429 always yields a recoverable rate-limit exception, a 401 never a
      recoverable one. */
  lemma StatusRecoverability(text: string, retry: Value, context: map<string, Value>, renderOther: Value -> string)
    ensures CreateLlmException(RawError(text, Some(429), retry), context, renderOther).recoverable
    ensures !CreateLlmException(RawError(text, Some(401), retry), context, renderOther).recoverable
  {
  }
}
