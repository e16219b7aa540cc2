/**
 * `fallbackAnalysis` and `onRequestPost` as written, on payloads whose
 * card label or picked id cannot be converted to a string. A parsed
 * object with its own `toString` key makes the conversion throw a
 * TypeError; `onRequestPost` then calls `fallbackAnalysis` a second time
 * inside its `catch`, where nothing catches the error again. The rest of
 * the model uses the corrected behaviour, under which such a payload gets
 * the fallback report like any other.
 */
module Findings {
  import opened Options
  import opened JsonValue
  import opened Fallback
  import opened Requester
  import opened Handler
  import opened HandlerProperties
  import opened FallbackProperties
  import opened Reports

  /**
   * `String(v)` throws for a parsed value: an object with its own
   * `toString` key has no callable `toString`, and the `valueOf` it
   * inherits returns the object itself; an array converts its elements
   * one by one. Strings, numbers, booleans and `null` always convert.
   */
  function StringifyThrows(v: Json): (r: bool)
    ensures v.JObj? ==> (r <==> "toString" in v.fields)
    ensures r ==> v.JObj? || v.JArr?
  {
    match v
    case JObj(fields) => "toString" in fields
    case JArr(items) => exists i :: 0 <= i < |items| && StringifyThrows(items[i])
    case _ => false
  }

  /**
   * The template literal in `formatCard` converts a truthy `card.label`
   * to a string. Wherever that throws, the corrected rendering uses the
   * placeholder `"카드"`.
   */
  function FormatCardThrows(card: Option<Json>): (r: bool)
    ensures r ==> Truthy(card) && CardLabel(card.value) == PLACEHOLDER_CARD
  {
    Truthy(card) && Truthy(Get(card, "label")) && StringifyThrows(Get(card, "label").value)
  }

  /**
   * `pickedIds.join(" -> ")` converts the truthy `id` of a non-string
   * item to a string. Wherever that throws, the corrected id is `""`, so
   * the item is dropped.
   */
  function PickedIdThrows(item: Json): (r: bool)
    ensures r ==> PickedId(item) == ""
  {
    !item.JStr? && Truthy(Get(Some(item), "id")) && StringifyThrows(Get(Some(item), "id").value)
  }

  /**
   * `fallbackAnalysis(payload)` as written throws: a slot's label fails,
   * or, with no slot present, an id does. A payload that is not an object
   * has neither, and never throws.
   */
  function FallbackThrows(payload: Json): (r: bool)
    ensures !payload.JObj? ==> !r
  {
    var slots := SlotCards(payload);
    (exists k :: 0 <= k < 3 && FormatCardThrows(slots[k]))
    || ((forall k :: 0 <= k < 3 ==> !Truthy(slots[k]))
        && exists i :: 0 <= i < |PickedItems(payload)| && PickedIdThrows(PickedItems(payload)[i]))
  }

  /** What escapes a call as written: the requester's own errors, or the TypeError of a string conversion. */
  datatype Thrown = RequestFailed(error: RequestError) | ConversionFailed

  /** `fallbackAnalysis(payload)` as written: the corrected report, unless a string conversion throws. */
  function FallbackAsWritten(payload: Json): (r: Result<Report, Thrown>)
    ensures r.Err? <==> FallbackThrows(payload)
    ensures r.Ok? ==> Canonical(r.value)
  {
    if FallbackThrows(payload) then Err(ConversionFailed) else Ok(FallbackAnalysis(payload))
  }

  /**
   * `callOpenAI(payload, env)` as written: the key check (lines 74-77)
   * comes first, then `fallbackAnalysis` (line 79), whose exception
   * propagates, then the exchange with the service.
   */
  function CallOpenAIAsWritten(payload: Json, key: Option<string>, upstream: Upstream, parse: string -> ParseResult)
    : (r: Result<Report, Thrown>)
    ensures FallbackThrows(payload) ==> r.Err?
    ensures r.Ok? <==> !FallbackThrows(payload) && CallOpenAI(payload, key, upstream, parse).Ok?
    ensures r.Ok? ==> r.value == CallOpenAI(payload, key, upstream, parse).value
  {
    if ApiKey(key) == "" then Err(RequestFailed(KeyMissing))
    else
      match FallbackAsWritten(payload)
      case Err(e) => Err(e)
      case Ok(_) =>
        match CallOpenAI(payload, key, upstream, parse)
        case Ok(analysis) => Ok(analysis)
        case Err(e) => Err(RequestFailed(e))
  }

  /**
   * `onRequestPost` as written, `None` standing for an exception that
   * escapes it: the three checks, then `callOpenAI` inside a `try`, whose
   * `catch` calls `fallbackAnalysis` again with nothing around it. An
   * exception escapes exactly when the checks pass and the payload's
   * fallback throws; on every other request the handler answers as the
   * corrected one does.
   */
  function OnRequestPostAsWritten(req: Request, key: Option<string>, upstream: Upstream, parse: string -> ParseResult)
    : (r: Option<Response>)
    ensures r.None? <==>
      AcceptsJson(req.contentType) && !TooLarge(req.contentLength) && req.body.ParsedValue? && FallbackThrows(req.body.value)
    ensures r.Some? ==> r.value == OnRequestPost(req, key, upstream, parse)
  {
    if !AcceptsJson(req.contentType) then Some(Response(415, ErrorBody(WRONG_MEDIA_TYPE_MESSAGE)))
    else if TooLarge(req.contentLength) then Some(Response(413, ErrorBody(TOO_LARGE_MESSAGE)))
    else
      match req.body
      case ParseFailed => Some(Response(400, ErrorBody(BAD_JSON_MESSAGE)))
      case ParsedValue(payload) =>
        match CallOpenAIAsWritten(payload, key, upstream, parse)
        case Ok(analysis) => Some(Response(200, AnalysisBody(analysis, OpenAI, None)))
        case Err(_) =>
          match FallbackAsWritten(payload)
          case Err(_) => None
          case Ok(fallback) => Some(Response(200, AnalysisBody(fallback, FallbackSource, Some(FALLBACK_WARNING))))
  }

  /** The request body `{"pickedCards":{"core":{"label":{"toString":1}}}}`. */
  const OBJECT_LABEL_CARD: Json := JObj(map["label" := JObj(map["toString" := JNum(1.0)])])
  const OBJECT_LABEL_PAYLOAD: Json := JObj(map["pickedCards" := JObj(map["core" := OBJECT_LABEL_CARD])])

  /** As written, `fallbackAnalysis` throws on that body: the core card's label cannot be converted. */
  lemma ObjectLabelThrows()
    ensures FallbackThrows(OBJECT_LABEL_PAYLOAD)
  {
    var slots := SlotCards(OBJECT_LABEL_PAYLOAD);
    assert slots[0] == Some(OBJECT_LABEL_CARD);
    assert Get(slots[0], "label") == Some(JObj(map["toString" := JNum(1.0)]));
    assert FormatCardThrows(slots[0]);
  }

  /** Corrected, the same body renders its core card under the placeholder: `카드(정방향)`. */
  lemma ObjectLabelRendersPlaceholder()
    ensures CardFlow(OBJECT_LABEL_PAYLOAD) == PLACEHOLDER_CARD + "(" + UPRIGHT_WORD + ")"
  {
    var slots := SlotCards(OBJECT_LABEL_PAYLOAD);
    assert slots == [Some(OBJECT_LABEL_CARD), None, None];
    assert !IsReversed(OBJECT_LABEL_CARD);
    assert FormatCard(slots[0]) == PLACEHOLDER_CARD + "(" + UPRIGHT_WORD + ")";
    CardFlowFromSlots(OBJECT_LABEL_PAYLOAD);
    assert Present(slots[0]) + Present(slots[1]) + Present(slots[2]) == [FormatCard(slots[0])];
  }

  /**
   * That body ends in an uncaught TypeError as written, whatever the key
   * and the service do; the corrected handler answers it with 200 and a
   * canonical report.
   */
  lemma ObjectLabelEscapesHandler(key: Option<string>, upstream: Upstream, parse: string -> ParseResult)
    ensures var req := Request(Some(JSON_MEDIA_TYPE), Some(49), ParsedValue(OBJECT_LABEL_PAYLOAD));
      && OnRequestPostAsWritten(req, key, upstream, parse) == None
      && OnRequestPost(req, key, upstream, parse).status == 200
      && Canonical(OnRequestPost(req, key, upstream, parse).body.analysis)
  {
    JsonMediaTypeExact();
    ObjectLabelThrows();
  }
}
