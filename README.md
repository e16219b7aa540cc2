# Degrade-safe analysis report pipeline

This project is a Dafny model of the analysis endpoint in `functions/api/analyze.js`. The endpoint turns a
tarot-and-survey reading payload into a short report. It either asks an external text-generation
service for the report or builds a deterministic fallback report from the payload. The endpoint is
designed so that a request passing the three request checks always gets status 200 and a complete
report, whatever the service does. The model proves this. The source as written breaks it for one kind
of payload: a card label or picked id that is a JSON object with its own `toString` key makes string
conversion throw, and the exception escapes the handler. "## Findings" below gives the details.

The core has no loops and updates nothing in place. The model is therefore written as datatypes,
functions and lemmas:

- `Options`: `Option` stands for JavaScript's `undefined`. `Result` stands for a thrown error.
- `JsonValue`: `Json` is a parsed JSON value. The module also models optional property access
  (`v?.key`, as `Get`), JavaScript truthiness (`Truthy`) and `typeof v === "object"`.
- `Seqs`: `filter`, `slice(0, n)`, `join` and `includes` over sequences.
- `Text`: `String.prototype.trim` (ECMAScript's WhiteSpace and LineTerminator code points) and
  `normalizeText`.
- `Reports`: the `Report` record, its well-formedness conditions and its JSON form.
- `Fallback` and `FallbackProperties`: `fallbackAnalysis` with its inner `formatCard`.
- `Sanitizer` and `SanitizerProperties`: `sanitizeAnalysis`.
- `Requester` and `RequesterProperties`: the decision logic of `callOpenAI`.
- `Handler` and `HandlerProperties`: the decision logic of `onRequestPost`.
- `Findings`: `fallbackAnalysis` and `onRequestPost` as written, on the payloads where they throw.

Two report predicates recur below:

- `WellFormed`: exactly 3 strengths, exactly 2 actions, and no empty text.
- `Canonical`: well-formed, and every text already trimmed. The fallback report is always canonical,
  and sanitizing against a canonical fallback always yields a canonical report.

On these points the code behaves differently from what a reader might expect; the model follows the code:

- A report from the service is tagged `source: "openai"` (`Handler.Source.OpenAI`), and a fallback report `source: "fallback"`.
- `formatCard` is never given a fallback id. An absent slot therefore renders as `""` and is dropped.
  A present card with no usable label renders as `카드(...)`.
- Sanitizing a report sent as JSON gives it back unchanged only when its texts are already trimmed,
  because `normalizeText` trims. `SanitizeRoundTrip` states this for canonical reports.
- `typeof [] === "object"`, so an array candidate passes the object test. Arrays carry no named fields,
  so every field still reverts to the fallback (`NonObjectYieldsFallback`).

## Model

| member | source | states |
|---|---|---|
| `JsonValue.Get` | functions/api/analyze.js:8-9 | Optional property access yields a value exactly when the value is an object with that own key. Arrays, strings, `null` and `undefined` give `undefined`. |
| `JsonValue.Truthy` | functions/api/analyze.js:11 | Only a defined, non-null value can be truthy. Every object and array is truthy, even an empty one. A string is truthy exactly when it is non-empty. |
| `JsonValue.IsObjectLike` | functions/api/analyze.js:44 | Every value passing the object test is truthy, and `null` fails it although its `typeof` is `"object"`. |
| `Text.Trim` | functions/api/analyze.js:4 | `trim()` yields a result with no whitespace at either end. The result is the input with only leading and trailing whitespace removed. |
| `Text.TrimIsUniqueCore` | functions/api/analyze.js:4 | Any trimmed string obtained by stripping whitespace from both ends of `s` equals `Trim(s)`, so the trimmed result is unique. |
| `Text.TrimOfCore` | functions/api/analyze.js:4 | Surrounding a trimmed string with any whitespace and trimming gives that string back. |
| `Text.TrimIdempotent` | functions/api/analyze.js:4 | Trimming twice is the same as trimming once. |
| `Text.NormalizeText` | functions/api/analyze.js:3-5 | A string becomes its whitespace-stripped core. Every non-string, including `undefined`, becomes `""`. The result never starts or ends with whitespace. |
| `Text.NormalizeTrimmed` | functions/api/analyze.js:3-5 | An already trimmed string passes through `normalizeText` unchanged. |
| `Seqs.Filter` | functions/api/analyze.js:19-22 | `filter` returns only kept elements, drops no kept element, and never grows the list. |
| `Seqs.FilterAppend` | functions/api/analyze.js:19-22 | Filtering distributes over concatenation, so kept elements stay in their original order. |
| `Seqs.FilterKeepsAll` | functions/api/analyze.js:49 | A filter that rejects nothing returns its input unchanged. |
| `Seqs.FilterThree` | functions/api/analyze.js:15-19 | Filtering three elements keeps each one exactly when the predicate accepts it, in order. |
| `Seqs.Take` | functions/api/analyze.js:49 | `slice(0, n)` returns a prefix of the input with min(n, length) entries. |
| `Seqs.Join` | functions/api/analyze.js:23 | `join` of no parts is `""`. Every part appears contiguously in the joined string. |
| `Seqs.JoinSingle` | functions/api/analyze.js:23 | A single part is joined to itself, with no separator. |
| `Seqs.JoinAppend` | functions/api/analyze.js:23 | Joining two non-empty runs of parts gives the two joins with exactly one separator between them, so parts keep their order and separators sit only between neighbours. |
| `Seqs.Contains` | functions/api/analyze.js:144 | `includes(x)` is true exactly when `x` occurs contiguously somewhere in the string. |
| `Fallback.CardLabel` | functions/api/analyze.js:13 | The label part is never empty. It is the card's own label or, failing that, the placeholder `"카드"`. |
| `Fallback.IsReversed` | functions/api/analyze.js:12 | Only an object card with its own `orientation` field can be reversed. |
| `Fallback.OrientationWord` | functions/api/analyze.js:12 | The word is `역방향` exactly when the orientation is the string `"reversed"`, and `정방향` exactly when it is anything else. |
| `Fallback.FormatCard` | functions/api/analyze.js:10-14 | A card renders as `""` exactly when it is falsy or absent. |
| `Fallback.SlotCard` | functions/api/analyze.js:9 | A falsy `pickedCards` reads as `{}`, so every slot is absent. Otherwise a slot is present exactly when `pickedCards` is an object holding that key. |
| `Fallback.CardLabels` | functions/api/analyze.js:15-19 | At most 3 labels, none empty. Every present slot's rendering is among them, and every label is the rendering of a present slot. |
| `Fallback.PickedItems` | functions/api/analyze.js:8 | The items are `pickedTarots` when that is an array, and none otherwise. |
| `Fallback.PickedId` | functions/api/analyze.js:21 | A string item gives itself. Any other item gives its string `id`, or `""` when it has none. |
| `Fallback.PickedIds` | functions/api/analyze.js:20-22 | No more ids than items, none empty. Every non-empty id of an item is kept, and every kept id is some item's id. |
| `FallbackProperties.RenderedOrientation` | functions/api/analyze.js:12-13 | A present card's rendering ends in `(역방향)` exactly when its orientation is `"reversed"`, and in `(정방향)` exactly when it is not. |
| `FallbackProperties.RenderedLabel` | functions/api/analyze.js:13 | A present card's rendering starts with its non-empty string label, or with `"카드"` when the label is missing, empty or not a string. |
| `FallbackProperties.CardLabelsArePresentSlots` | functions/api/analyze.js:15-19 | The labels are the renderings of exactly the present slots, in the order core, pattern, flow. |
| `FallbackProperties.PickedIdsInOrder` | functions/api/analyze.js:20-22 | The picked ids are the non-empty ids of `pickedTarots`, in array order. Filtering any split of the array and concatenating gives the same list. |
| `Fallback.CardFlow` | functions/api/analyze.js:23 | The card flow is never empty, so the summary always names at least the placeholder card. |
| `FallbackProperties.CardFlowFromSlots` | functions/api/analyze.js:23 | With some slot present, the card flow is the present slots' renderings, in slot order, joined by `" -> "`. |
| `FallbackProperties.CardFlowIgnoresPickedTarots` | functions/api/analyze.js:23 | With some slot present, two payloads with the same slots have the same card flow, whatever their `pickedTarots`. |
| `FallbackProperties.AllSlotsFlow` | functions/api/analyze.js:15-23 | With all three slots present, the card flow is core, pattern and flow rendered and separated by `" -> "`. |
| `FallbackProperties.CardFlowFromIds` | functions/api/analyze.js:20-23 | With no slot present, the card flow is the picked ids joined by `" -> "`, and `"카드"` exactly when there is no id. |
| `Fallback.Summary` | functions/api/analyze.js:29 | The summary is non-empty, starts and ends without whitespace, and contains the card flow. |
| `FallbackProperties.SummaryNamesPresentSlots` | functions/api/analyze.js:15-29 | Every present slot's rendering appears in the summary. |
| `FallbackProperties.SummaryNamesPickedIds` | functions/api/analyze.js:20-29 | With no slot present, every picked id appears in the summary. With no id either, the card flow is `"카드"`. |
| `Fallback.TemplateTextsCanonical` | functions/api/analyze.js:26-39 | The fixed template texts form a canonical report around any non-empty trimmed summary. |
| `Fallback.FallbackAnalysis` | functions/api/analyze.js:7-41 | For every payload, including non-objects and payloads with malformed `pickedTarots` or `pickedCards`, the result is canonical and its summary contains the card flow. |
| `FallbackProperties.FallbackDependsOnlyOnCardFlow` | functions/api/analyze.js:25-40 | Two payloads with the same card flow get the same report. Every field except `summary` is the same for all payloads. |
| `Sanitizer.Field` | functions/api/analyze.js:63-67 | A text field is the trimmed core of the candidate's string for that key, or `""` when the key is missing or holds a non-string. It is always trimmed. |
| `Sanitizer.NormalizeAll` | functions/api/analyze.js:49 | `map(normalizeText)` keeps the length. Entry by entry, a string item gives its trimmed core and any other item gives `""`. Every entry is trimmed. |
| `Sanitizer.ToActions` | functions/api/analyze.js:54-57 | Position by position, `title` and `description` are each the trimmed core of the item's own string field, or `""` when that field is missing or not a string. Both are trimmed. |
| `Sanitizer.StrengthEntries` | functions/api/analyze.js:48-50 | Every usable strength is non-empty and trimmed. A missing or non-array `strengths` gives none. |
| `Sanitizer.ActionEntries` | functions/api/analyze.js:52-60 | Every usable action has a non-empty trimmed title and description. A missing or non-array `actions` gives none. |
| `Sanitizer.SanitizeStrengths` | functions/api/analyze.js:48-50 | With a well-formed fallback, the chosen strengths are well-formed. With trimmed fallback strengths, they are trimmed. |
| `Sanitizer.SanitizeActions` | functions/api/analyze.js:52-60 | With well-formed fallback actions, the chosen actions are well-formed. With trimmed ones, they are trimmed. |
| `Sanitizer.SanitizeAnalysis` | functions/api/analyze.js:43-71 | A candidate that is not an object yields the fallback itself. A well-formed fallback yields a well-formed report, and a canonical fallback a canonical one. |
| `SanitizerProperties.TextFieldsFallBackOneByOne` | functions/api/analyze.js:63-67 | Each of `title`, `quote`, `status`, `summary` and `todayLine` takes the candidate's trimmed value when that is non-empty, and the fallback's value for that same field otherwise. |
| `SanitizerProperties.TextFieldsComeFromCandidateOrFallback` | functions/api/analyze.js:63-67 | No text is invented. Each text field is the fallback's, or the trimmed core of the candidate's own string for that field. |
| `SanitizerProperties.StrengthsAllOrNothing` | functions/api/analyze.js:48-50 | `strengths` is the first 3 usable entries exactly when there are at least 3, and otherwise the fallback's whole array. Each accepted entry is the trimmed core of one of the candidate's own strings. |
| `SanitizerProperties.ActionsAllOrNothing` | functions/api/analyze.js:52-60 | `actions` is the first 2 complete pairs exactly when there are at least 2, and otherwise the fallback's whole array. |
| `SanitizerProperties.LaterStrengthsIgnored` | functions/api/analyze.js:49 | Once 3 usable strengths have appeared, later entries cannot change the accepted strengths. |
| `SanitizerProperties.NonObjectYieldsFallback` | functions/api/analyze.js:44-69 | Any candidate that is not a JSON object, arrays included, yields exactly the fallback. |
| `SanitizerProperties.SanitizeRoundTrip` | functions/api/analyze.js:62-70 | A canonical report, sent as JSON, is accepted unchanged against any fallback. |
| `SanitizerProperties.SanitizeIdempotent` | functions/api/analyze.js:62-70 | With a canonical fallback, sanitizing the sanitizer's own output changes nothing. |
| `SanitizerProperties.ShortStrengthsKeepTitle` | functions/api/analyze.js:48-68 | A candidate with title `"X"` and only 2 strengths keeps `"X"` and takes the fallback's whole `strengths`. |
| `Requester.ApiKey` | functions/api/analyze.js:74 | The key is trimmed: the trimmed core of the configured value, or `""` when none is configured. |
| `Requester.OutputText` | functions/api/analyze.js:108 | The output text is the trimmed core of a string `output_text`, and `""` when that field is missing, falsy or not a string. |
| `Requester.FromReply` | functions/api/analyze.js:107-117 | Blank output text or text that fails to parse gives the fallback. Non-blank text that parses gives the sanitized parsed value. A canonical fallback gives a canonical result. |
| `Requester.CallOpenAI` | functions/api/analyze.js:73-118 | The requester fails exactly when the key is blank or the exchange with the service failed. A blank key fails with `KeyMissing` whatever the service would do. Every success is canonical and degrades as `FromReply` does. |
| `RequesterProperties.FailedStatusIsError` | functions/api/analyze.js:103-105 | A non-ok status is an error carrying that status. |
| `RequesterProperties.ParsedOutputIsSanitized` | functions/api/analyze.js:113-114 | Output text that parses is always passed through the sanitizer against the fallback. |
| `Handler.AcceptsJson` | functions/api/analyze.js:143-144 | The media type is accepted exactly when the header holds `application/json` at some position, comparing letters without regard to ASCII case. A missing header is refused. |
| `Handler.TooLarge` | functions/api/analyze.js:148-149 | Only a finite declared length can be refused, and exactly when it is at least 100001. |
| `HandlerProperties.AcceptsJsonIgnoresCase` | functions/api/analyze.js:143-144 | Two headers equal up to ASCII letter case are accepted or refused alike. |
| `HandlerProperties.AcceptsJsonWhenMediaTypeAppears` | functions/api/analyze.js:143-144 | Any header that contains `application/json` verbatim, whatever surrounds it, is accepted. |
| `Handler.OnRequestPost` | functions/api/analyze.js:141-173 | The checks run in order: 415 on a non-JSON media type, then 413 on an oversized declared length, then 400 on a body that does not parse. Each error status carries its own message. Otherwise the status is 200 and the report is canonical. The source is `OpenAI` exactly when the requester succeeded, and then the report is the requester's result with no warning. A fallback-sourced reply carries the fallback warning and the payload's fallback report. |
| `HandlerProperties.JsonMediaTypeWithCharset` | functions/api/analyze.js:143-144 | `Application/JSON; charset=utf-8` passes the media-type check. |
| `HandlerProperties.PlainTextIsRefusedFirst` | functions/api/analyze.js:143-146 | `text/plain` gets 415 whatever the length and body. |
| `HandlerProperties.BodySizeBoundary` | functions/api/analyze.js:148-151 | A declared length of exactly 100000 passes, 100001 gets 413, and a non-finite length skips the check. |
| `HandlerProperties.EmptyPayloadWithoutKey` | functions/api/analyze.js:160-172 | Body `{}` with no key gets 200 with `source` fallback, 3 strengths and 2 actions. |
| `HandlerProperties.MalformedBodyIs400` | functions/api/analyze.js:153-158 | A body that does not parse gets 400 with the error message. |
| `HandlerProperties.UpstreamErrorFallsBack` | functions/api/analyze.js:163-172 | A 500 from the service still gets 200, the fallback report and the warning. |
| `Findings.StringifyThrows` | functions/api/analyze.js:13 | `String` throws on an object exactly when it has its own `toString` key, and only objects and arrays can throw. |
| `Findings.FormatCardThrows` | functions/api/analyze.js:13 | The template literal throws only for a present card, and wherever it throws the corrected rendering uses the placeholder `"카드"`. |
| `Findings.PickedIdThrows` | functions/api/analyze.js:21-23 | Joining throws on an item's id only where the corrected id is `""`, so the corrected flow drops that item. |
| `Findings.FallbackThrows` | functions/api/analyze.js:13-23 | `fallbackAnalysis` throws on a slot label, or on an id when no slot is present. A payload that is not an object never throws. |
| `Findings.FallbackAsWritten` | functions/api/analyze.js:7-41 | As written, `fallbackAnalysis` fails exactly when a conversion throws, and otherwise gives the canonical corrected report. |
| `Findings.CallOpenAIAsWritten` | functions/api/analyze.js:73-79 | As written, the key check comes first and then `fallbackAnalysis`, whose exception propagates. A throwing fallback always makes the call fail. Otherwise the call succeeds exactly when the corrected requester does, with the same report. |
| `Findings.OnRequestPostAsWritten` | functions/api/analyze.js:141-172 | As written, with the `catch` calling `fallbackAnalysis` unguarded, an exception escapes the handler exactly when the request passes the three checks and the payload's `fallbackAnalysis` throws. On every other request it answers as the corrected handler does. |
| `Findings.ObjectLabelThrows` | functions/api/analyze.js:13 | As written, `fallbackAnalysis` throws on a core card whose label is `{"toString":1}`. |
| `Findings.ObjectLabelRendersPlaceholder` | functions/api/analyze.js:13 | With the corrected label handling, that same payload's card flow is `카드(정방향)`. |
| `Findings.ObjectLabelEscapesHandler` | functions/api/analyze.js:163-166 | That payload ends in an uncaught exception as written, whatever the key and the service do. The corrected handler answers 200 with a canonical report. |

## Left out

- The outbound `fetch`, the request headers and `JSON.stringify` of the request (functions/api/analyze.js:90-101) are left out. What the service returned is the `Upstream` input.
- The `json` response helper, response headers and serialization (functions/api/analyze.js:120-128) are left out. A reply is a status and a `Body` value.
- `onRequestOptions` (functions/api/analyze.js:130-139) is left out. It is a constant preflight reply with no logic.
- Prompt construction, the model name and the sampling temperature (functions/api/analyze.js:80-88, 97, 99) are left out. They are content sent to a foreign service and never read back.
- `JSON.parse`, `request.json()` and `response.json()` are inputs. `JSON.parse` is a function parameter, and the other two are given as a value or a parse failure.
- `async`/`await` and the environment lookup are left out. The API key is an optional string parameter.
- The messages thrown by `callOpenAI` are not modelled. The handler discards them, and `RequestError` keeps only their kind.
- Handler.OnRequestPost: the declared content length is an optional integer. A fractional header such as `100000.5`, which the source refuses with 413, cannot be expressed. `None` stands for a header whose `Number(...)` is not finite.
- Handler.ToLower: lowers only ASCII letters. This gives the same answer to the `"application/json"` substring test, because the only non-ASCII characters whose lower case contains an ASCII letter are U+212A (giving `k`) and U+0130 (giving `i` plus a combining dot), and neither can complete a match.
- Fallback.CardLabel: a truthy label that is not a string renders as `"카드"`. The source converts any such label with `String` instead: a number gives its decimal text, `true` gives `true`, an array joins its converted elements with commas (an empty array gives `""`, so the card renders as `(정방향)`), an object without its own `toString` key gives `[object Object]`, and an object with one throws (see "## Findings").
- Fallback.PickedId: a truthy `id` that is not a string gives `""` and is dropped. The source converts it to a string when joining, and an object `id` with its own `toString` key throws there (see "## Findings").
- Findings.OnRequestPostAsWritten: where no conversion throws it reuses the corrected requester and fallback report, so it shares their treatment of non-string labels and ids.
- JSON numbers are exact reals. A literal that JavaScript rounds to zero (such as `1e-400`) is truthy here, which matters only when it is a card slot.

## Findings

| source | as written | input that shows it | evidently intended | confidence | as-written member | corrected member |
|---|---|---|---|---|---|---|
| functions/api/analyze.js:13 | The template literal converts a truthy `card.label` with `String`. A parsed object with its own `toString` key has no callable `toString`, so the conversion throws a TypeError (line 23 does the same to ids through `join`). `callOpenAI` throws it, and the `catch` at lines 163-166 calls `fallbackAnalysis` again with nothing around it, so the exception escapes `onRequestPost`. | request body `{"pickedCards":{"core":{"label":{"toString":1}}}}` | Such a request gets 200 and the fallback report like any other payload | high, not executed | `Findings.OnRequestPostAsWritten` | `Handler.OnRequestPost` |
