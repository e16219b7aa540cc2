/**
 * The decision logic of `onRequestPost`: three ordered request checks
 * (media type, declared size, body syntax), then the requester, whose
 * every failure becomes a 200 reply carrying the fallback report.
 */
module Handler {
  import opened Options
  import opened JsonValue
  import opened Seqs
  import opened Text
  import opened Reports
  import opened Fallback
  import opened Requester

  /** `MAX_API_BODY_BYTES`. */
  const MAX_API_BODY_BYTES: int := 100_000

  const JSON_MEDIA_TYPE: string := "application/json"
  const WRONG_MEDIA_TYPE_MESSAGE: string := "Content-Type은 application/json 이어야 합니다."
  const TOO_LARGE_MESSAGE: string := "요청 본문이 너무 큽니다."
  const BAD_JSON_MESSAGE: string := "JSON 형식이 올바르지 않습니다."
  const FALLBACK_WARNING: string := "분석 엔진 오류로 fallback 결과를 반환합니다."

  /**
   * The parts of the incoming request the handler inspects. A
   * `contentLength` of `None` stands for a header whose `Number(...)` is
   * not finite; an absent header reads as `"0"` and is `Some(0)`.
   */
  datatype Request = Request(contentType: Option<string>, contentLength: Option<int>, body: ParseResult)

  /** The `source` tag of a report reply. */
  datatype Source = OpenAI | FallbackSource

  datatype Body =
    | ErrorBody(error: string)
    | AnalysisBody(analysis: Report, source: Source, warning: Option<string>)

  datatype Response = Response(status: int, body: Body)

  function LowerChar(c: char): (r: char)
    ensures 'A' <= c <= 'Z' ==> r as int == c as int + 32
    ensures !('A' <= c <= 'Z') ==> r == c
  {
    if 'A' <= c <= 'Z' then (c as int + 32) as char else c
  }

  /** `s.toLowerCase()` on the ASCII letters. */
  function ToLower(s: string): (r: string)
    ensures |r| == |s| && forall i :: 0 <= i < |s| ==> r[i] == LowerChar(s[i])
  {
    seq(|s|, i requires 0 <= i < |s| => LowerChar(s[i]))
  }

  /** `application/json` occurs in `header` at position `i`, ignoring the case of ASCII letters. */
  ghost predicate MediaTypeAt(header: string, i: int)
  {
    0 <= i <= |header| - |JSON_MEDIA_TYPE|
    && forall k :: 0 <= k < |JSON_MEDIA_TYPE| ==> LowerChar(header[i + k]) == JSON_MEDIA_TYPE[k]
  }

  /** Lower-casing `header` and then searching it finds the media type where a case-blind match starts. */
  lemma OccursLoweredIffMediaTypeAt(header: string, i: int)
    ensures OccursAt(JSON_MEDIA_TYPE, ToLower(header), i) <==> MediaTypeAt(header, i)
  {
    var lowered := ToLower(header);
    if 0 <= i <= |header| - |JSON_MEDIA_TYPE| {
      if MediaTypeAt(header, i) {
        assert lowered[i..i + |JSON_MEDIA_TYPE|] == JSON_MEDIA_TYPE;
      }
      if OccursAt(JSON_MEDIA_TYPE, lowered, i) {
        forall k | 0 <= k < |JSON_MEDIA_TYPE|
          ensures LowerChar(header[i + k]) == JSON_MEDIA_TYPE[k]
        {
          assert lowered[i..i + |JSON_MEDIA_TYPE|][k] == lowered[i + k];
        }
      }
    }
  }

  /**
   * `(headers.get("content-type") || "").toLowerCase().includes("application/json")`:
   * the header, missing read as `""`, holds `application/json` somewhere, in any letter case.
   */
  function AcceptsJson(contentType: Option<string>): (r: bool)
    ensures contentType.None? ==> !r
    ensures contentType.Some? ==> (r <==> exists i :: MediaTypeAt(contentType.value, i))
  {
    var header := match contentType case Some(h) => h case None => "";
    var r := Contains(ToLower(header), JSON_MEDIA_TYPE);
    assert r <==> exists i :: MediaTypeAt(header, i) by {
      forall i
        ensures OccursAt(JSON_MEDIA_TYPE, ToLower(header), i) <==> MediaTypeAt(header, i)
      {
        OccursLoweredIffMediaTypeAt(header, i);
      }
    }
    r
  }

  /**
   * `Number.isFinite(contentLength) && contentLength > MAX_API_BODY_BYTES`:
   * a non-finite length never rejects, and the bound itself is accepted.
   */
  function TooLarge(contentLength: Option<int>): (r: bool)
    ensures r ==> contentLength.Some?
    ensures contentLength.Some? ==> (r <==> contentLength.value >= MAX_API_BODY_BYTES + 1)
  {
    contentLength.Some? && contentLength.value > MAX_API_BODY_BYTES
  }

  /**
   * `onRequestPost(context)`. The three checks reject in order with 415,
   * 413 and 400; every request that passes them gets 200 and a canonical
   * report, from the service or else the fallback with a warning.
   */
  function OnRequestPost(req: Request, key: Option<string>, upstream: Upstream, parse: string -> ParseResult)
    : (r: Response)
    ensures r.status == 415 <==> !AcceptsJson(req.contentType)
    ensures r.status == 413 <==> AcceptsJson(req.contentType) && TooLarge(req.contentLength)
    ensures r.status == 400 <==> AcceptsJson(req.contentType) && !TooLarge(req.contentLength) && req.body.ParseFailed?
    ensures r.status == 200 <==> AcceptsJson(req.contentType) && !TooLarge(req.contentLength) && req.body.ParsedValue?
    ensures r.body.ErrorBody? <==> r.status != 200
    ensures r.status == 415 ==> r.body == ErrorBody(WRONG_MEDIA_TYPE_MESSAGE)
    ensures r.status == 413 ==> r.body == ErrorBody(TOO_LARGE_MESSAGE)
    ensures r.status == 400 ==> r.body == ErrorBody(BAD_JSON_MESSAGE)
    ensures r.body.AnalysisBody? ==> Canonical(r.body.analysis)
    ensures r.body.AnalysisBody? ==> (r.body.source == FallbackSource <==> r.body.warning.Some?)
    ensures r.body.AnalysisBody? && r.body.source == FallbackSource ==> r.body.analysis == FallbackAnalysis(req.body.value)
    ensures r.body.AnalysisBody? ==>
      (r.body.source == OpenAI <==> CallOpenAI(req.body.value, key, upstream, parse).Ok?)
    ensures r.body.AnalysisBody? && r.body.source == OpenAI ==>
      r.body.warning == None && r.body.analysis == CallOpenAI(req.body.value, key, upstream, parse).value
    ensures r.body.AnalysisBody? && r.body.source == FallbackSource ==> r.body.warning == Some(FALLBACK_WARNING)
  {
    if !AcceptsJson(req.contentType) then Response(415, ErrorBody(WRONG_MEDIA_TYPE_MESSAGE))
    else if TooLarge(req.contentLength) then Response(413, ErrorBody(TOO_LARGE_MESSAGE))
    else
      match req.body
      case ParseFailed => Response(400, ErrorBody(BAD_JSON_MESSAGE))
      case ParsedValue(payload) =>
        match CallOpenAI(payload, key, upstream, parse)
        case Ok(analysis) => Response(200, AnalysisBody(analysis, OpenAI, None))
        case Err(_) => Response(200, AnalysisBody(FallbackAnalysis(payload), FallbackSource, Some(FALLBACK_WARNING)))
  }
}

module HandlerProperties {
  import opened Options
  import opened JsonValue
  import opened Seqs
  import opened Reports
  import opened Fallback
  import opened Requester
  import opened Handler

  /** The media-type test ignores the case of ASCII letters and accepts parameters after the type. */
  lemma JsonMediaTypeWithCharset()
    ensures AcceptsJson(Some("Application/JSON; charset=utf-8"))
  {
    var lowered := ToLower("Application/JSON; charset=utf-8");
    assert lowered[..|JSON_MEDIA_TYPE|] == JSON_MEDIA_TYPE;
    assert OccursAt(JSON_MEDIA_TYPE, lowered, 0);
  }

  /** The media-type test sees only letter case: headers equal up to ASCII case are accepted alike. */
  lemma AcceptsJsonIgnoresCase(h: string, g: string)
    requires |h| == |g|
    requires forall i :: 0 <= i < |h| ==> LowerChar(h[i]) == LowerChar(g[i])
    ensures AcceptsJson(Some(h)) == AcceptsJson(Some(g))
  {
    assert ToLower(h) == ToLower(g);
  }

  /** Any header holding `application/json` verbatim, whatever surrounds it, is accepted. */
  lemma AcceptsJsonWhenMediaTypeAppears(before: string, after: string)
    ensures AcceptsJson(Some(before + JSON_MEDIA_TYPE + after))
  {
    var header := before + JSON_MEDIA_TYPE + after;
    forall k | 0 <= k < |JSON_MEDIA_TYPE|
      ensures LowerChar(header[|before| + k]) == JSON_MEDIA_TYPE[k]
    {
      assert header[|before| + k] == JSON_MEDIA_TYPE[k];
    }
    assert MediaTypeAt(header, |before|);
  }

  /** `text/plain` is refused with 415 before the body is looked at, even when the body is valid JSON. */
  lemma PlainTextIsRefusedFirst(length: Option<int>, body: ParseResult, key: Option<string>, upstream: Upstream, parse: string -> ParseResult)
    ensures OnRequestPost(Request(Some("text/plain"), length, body), key, upstream, parse).status == 415
  {
  }

  /** A declared length of exactly 100000 bytes passes the size check; 100001 is refused with 413. */
  lemma BodySizeBoundary(contentType: Option<string>, body: ParseResult, key: Option<string>, upstream: Upstream, parse: string -> ParseResult)
    requires AcceptsJson(contentType)
    ensures OnRequestPost(Request(contentType, Some(MAX_API_BODY_BYTES), body), key, upstream, parse).status != 413
    ensures OnRequestPost(Request(contentType, Some(MAX_API_BODY_BYTES + 1), body), key, upstream, parse).status == 413
    ensures OnRequestPost(Request(contentType, None, body), key, upstream, parse).status != 413
  {
  }

  /** A JSON request with body `{}` and no key gets 200 and the fallback report with 3 strengths and 2 actions. */
  lemma EmptyPayloadWithoutKey(upstream: Upstream, parse: string -> ParseResult)
    ensures var r := OnRequestPost(Request(Some("application/json"), Some(2), ParsedValue(JObj(map[]))), None, upstream, parse);
      && r.status == 200
      && r.body.AnalysisBody?
      && r.body.source == FallbackSource
      && r.body.analysis == FallbackAnalysis(JObj(map[]))
      && |r.body.analysis.strengths| == 3 && |r.body.analysis.actions| == 2
  {
    JsonMediaTypeExact();
  }

  lemma JsonMediaTypeExact()
    ensures AcceptsJson(Some("application/json"))
  {
    var lowered := ToLower("application/json");
    assert lowered[..|JSON_MEDIA_TYPE|] == JSON_MEDIA_TYPE;
    assert OccursAt(JSON_MEDIA_TYPE, lowered, 0);
  }

  /** A body that is not JSON is answered 400 with an error message. */
  lemma MalformedBodyIs400(key: Option<string>, upstream: Upstream, parse: string -> ParseResult)
    ensures OnRequestPost(Request(Some("application/json"), Some(4), ParseFailed), key, upstream, parse)
         == Response(400, ErrorBody(BAD_JSON_MESSAGE))
  {
    JsonMediaTypeExact();
  }

  /** A 500 from the service still gets 200, the fallback report and a warning. */
  lemma UpstreamErrorFallsBack(payload: Json, key: Option<string>, body: ParseResult, parse: string -> ParseResult)
    ensures OnRequestPost(Request(Some("application/json"), Some(2), ParsedValue(payload)), key, Reply(false, 500, body), parse)
         == Response(200, AnalysisBody(FallbackAnalysis(payload), FallbackSource, Some(FALLBACK_WARNING)))
  {
    JsonMediaTypeExact();
  }
}
