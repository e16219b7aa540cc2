/**
 * The decision logic of `callOpenAI`. The outbound request, the network
 * and both JSON parsers are outside the model: what came back from the
 * service is the `Upstream` input, and `JSON.parse` is the `parse`
 * parameter.
 */
module Requester {
  import opened Options
  import opened JsonValue
  import opened Text
  import opened Reports
  import opened Fallback
  import opened Sanitizer

  /** What the `fetch` to the text-generation service produced. */
  datatype Upstream =
    | FetchFailed                                          // `fetch` rejected
    | Reply(ok: bool, status: int, body: ParseResult)     // `response.ok`, `response.status`, `response.json()`

  /** Why `callOpenAI` throws. */
  datatype RequestError =
    | KeyMissing              // "OPENAI_API_KEY missing"
    | ApiFailed(status: int)  // "OpenAI API failed (status)"
    | TransportFailed         // `fetch` or `response.json()` rejected

  /** `normalizeText(env.OPENAI_API_KEY || "")`. */
  function ApiKey(key: Option<string>): (r: string)
    ensures IsTrimmed(r)
    ensures key.None? ==> r == ""
    ensures key.Some? ==> IsCore(key.value, r)
  {
    match key
    case Some(k) => NormalizeText(Some(JStr(k)))
    case None => ""
  }

  /** `normalizeText(data?.output_text || "")`: a falsy or non-string field gives `""` either way. */
  function OutputText(data: Json): (r: string)
    ensures IsTrimmed(r)
    ensures IsString(Get(Some(data), "output_text")) ==> IsCore(Get(Some(data), "output_text").value.str, r)
    ensures !IsString(Get(Some(data), "output_text")) ==> r == ""
  {
    NormalizeText(Get(Some(data), "output_text"))
  }

  /** The service answered successfully with a body that parsed as JSON. */
  predicate Answered(upstream: Upstream)
  {
    upstream.Reply? && upstream.ok && upstream.body.ParsedValue?
  }

  /**
   * What a successful reply degrades to: the fallback when the output text
   * is blank or does not parse, else the sanitized parsed value.
   */
  function FromReply(fallback: Report, data: Json, parse: string -> ParseResult): (r: Report)
    ensures Canonical(fallback) ==> Canonical(r)
    ensures OutputText(data) == "" ==> r == fallback
    ensures OutputText(data) != "" && parse(OutputText(data)).ParseFailed? ==> r == fallback
    ensures r == fallback || r == SanitizeAnalysis(parse(OutputText(data)).value, fallback)
    ensures OutputText(data) != "" && parse(OutputText(data)).ParsedValue? ==>
      r == SanitizeAnalysis(parse(OutputText(data)).value, fallback)
  {
    var text := OutputText(data);
    if text == "" then fallback
    else
      match parse(text)
      case ParseFailed => fallback
      case ParsedValue(candidate) => SanitizeAnalysis(candidate, fallback)
  }

  /**
   * `callOpenAI(payload, env)`. It fails only on a blank key or a failed
   * exchange with the service. A successful result is canonical, and it is
   * the payload's fallback report unless the service returned text that
   * parsed.
   */
  function CallOpenAI(payload: Json, key: Option<string>, upstream: Upstream, parse: string -> ParseResult)
    : (r: Result<Report, RequestError>)
    ensures r.Err? <==> ApiKey(key) == "" || !Answered(upstream)
    ensures ApiKey(key) == "" ==> r == Err(KeyMissing)
    ensures r.Ok? ==> Canonical(r.value)
    ensures r.Ok? ==> r.value == FromReply(FallbackAnalysis(payload), upstream.body.value, parse)
  {
    var apiKey := ApiKey(key);
    if apiKey == "" then Err(KeyMissing)
    else
      var fallback := FallbackAnalysis(payload);
      match upstream
      case FetchFailed => Err(TransportFailed)
      case Reply(ok, status, body) =>
        if !ok then Err(ApiFailed(status))
        else
          match body
          case ParseFailed => Err(TransportFailed)
          case ParsedValue(data) => Ok(FromReply(fallback, data, parse))
  }
}

module RequesterProperties {
  import opened Options
  import opened JsonValue
  import opened Text
  import opened Reports
  import opened Fallback
  import opened Sanitizer
  import opened Requester

  /** A non-ok status is an error carrying that status. */
  lemma FailedStatusIsError(payload: Json, key: Option<string>, status: int, body: ParseResult, parse: string -> ParseResult)
    requires ApiKey(key) != ""
    ensures CallOpenAI(payload, key, Reply(false, status, body), parse) == Err(ApiFailed(status))
  {
  }

  /**
   * Text that parses is sanitized against the fallback report; the
   * model's output is never used without passing the sanitizer.
   */
  lemma ParsedOutputIsSanitized(fallback: Report, data: Json, parse: string -> ParseResult)
    requires OutputText(data) != "" && parse(OutputText(data)).ParsedValue?
    ensures FromReply(fallback, data, parse) == SanitizeAnalysis(parse(OutputText(data)).value, fallback)
  {
  }
}
