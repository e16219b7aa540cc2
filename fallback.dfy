/**
 * `fallbackAnalysis`: the deterministic report built from the reading
 * payload alone. Only `summary` depends on the payload, through the card
 * flow rendered from `pickedCards` (or, failing that, `pickedTarots`).
 */
module Fallback {
  import opened Options
  import opened JsonValue
  import opened Seqs
  import opened Text
  import opened Reports

  const REVERSED_WORD: string := "역방향"
  const UPRIGHT_WORD: string := "정방향"
  const PLACEHOLDER_CARD: string := "카드"
  const FLOW_SEPARATOR: string := " -> "
  const REVERSED: string := "reversed"

  const FALLBACK_TITLE: string := "파도를 읽는 조율가"
  const FALLBACK_QUOTE: string := "흐름을 읽고 감정을 정돈해 실행력으로 바꾸는 타입"
  const FALLBACK_STATUS: string := "안정 회복 구간"
  const SUMMARY_PREFIX: string := "선택 카드("
  const SUMMARY_SUFFIX: string := ") 기준으로 보면, 과한 확장보다 리듬 회복과 우선순위 정리가 성과를 만듭니다."
  const FALLBACK_TODAY_LINE: string := "지금은 속도를 늦추고 우선순위를 정리하는 것이 가장 큰 성과로 이어집니다."
  const FALLBACK_STRENGTHS: seq<string> := [
    "감정 기복이 있어도 중심을 다시 세우는 회복 탄력이 높습니다.",
    "관찰력이 좋아 상황 신호를 빠르게 읽고 대응할 수 있습니다.",
    "실행 전 정리 습관이 강해 실수를 줄이는 편입니다."
  ]
  const FALLBACK_ACTIONS: seq<Action> := [
    Action("20분 정리 산책", "움직이면서 오늘의 우선순위 3가지를 정리해 보세요."),
    Action("한 줄 실행 기록", "오늘 완료한 1가지를 기록하면 동기 유지에 도움이 됩니다.")
  ]

  /** `card.label || "카드"` (no fallback id is ever passed). */
  function CardLabel(card: Json): (r: string)
    ensures r != ""
    ensures Get(Some(card), "label") == Some(JStr(r)) || r == PLACEHOLDER_CARD
  {
    match Get(Some(card), "label")
    case Some(JStr(s)) => if s != "" then s else PLACEHOLDER_CARD
    case _ => PLACEHOLDER_CARD
  }

  /** `card.orientation === "reversed"`: an exact, case-sensitive comparison on an object's own field. */
  function IsReversed(card: Json): (r: bool)
    ensures r ==> card.JObj? && "orientation" in card.fields
  {
    Get(Some(card), "orientation") == Some(JStr(REVERSED))
  }

  /** The orientation word of line 12: `"역방향"` for a reversed card, `"정방향"` for every other card. */
  function OrientationWord(card: Json): (r: string)
    ensures r == REVERSED_WORD <==> IsReversed(card)
    ensures r == UPRIGHT_WORD <==> !IsReversed(card)
  {
    assert REVERSED_WORD[0] != UPRIGHT_WORD[0];
    if IsReversed(card) then REVERSED_WORD else UPRIGHT_WORD
  }

  /** The inner `formatCard(card)`: `""` for a falsy card, else `label(orientation-word)`. */
  function FormatCard(card: Option<Json>): (r: string)
    ensures r == "" <==> !Truthy(card)
  {
    if Truthy(card) then CardLabel(card.value) + "(" + OrientationWord(card.value) + ")" else ""
  }

  /** `(payload?.pickedCards || {})?.[slot]`. */
  function SlotCard(payload: Json, slot: string): (r: Option<Json>)
    ensures !Truthy(Get(Some(payload), "pickedCards")) ==> r == None
    ensures r.Some? <==>
      var cards := Get(Some(payload), "pickedCards");
      cards.Some? && cards.value.JObj? && slot in cards.value.fields
  {
    Get(Get(Some(payload), "pickedCards"), slot)
  }

  /** The three slots in their fixed order. */
  function SlotCards(payload: Json): seq<Option<Json>>
  {
    [SlotCard(payload, "core"), SlotCard(payload, "pattern"), SlotCard(payload, "flow")]
  }

  /** `[formatCard(core), formatCard(pattern), formatCard(flow)].filter(Boolean)`. */
  function CardLabels(payload: Json): (r: seq<string>)
    ensures |r| <= 3
    ensures forall i :: 0 <= i < |r| ==> r[i] != ""
    ensures forall k :: 0 <= k < 3 && Truthy(SlotCards(payload)[k]) ==> FormatCard(SlotCards(payload)[k]) in r
    ensures forall s :: s in r ==>
      exists k :: 0 <= k < 3 && Truthy(SlotCards(payload)[k]) && s == FormatCard(SlotCards(payload)[k])
  {
    var slots := SlotCards(payload);
    var rendered := [FormatCard(slots[0]), FormatCard(slots[1]), FormatCard(slots[2])];
    var r := Filter(rendered, IsNonEmpty);
    assert forall k :: 0 <= k < 3 ==> rendered[k] == FormatCard(slots[k]);
    assert forall i :: 0 <= i < |r| ==> r[i] in r;
    r
  }

  /** `pickedTarots` when it is an array, else `[]`. */
  function PickedItems(payload: Json): (r: seq<Json>)
    ensures var v := Get(Some(payload), "pickedTarots");
      if v.Some? && v.value.JArr? then r == v.value.items else r == []
  {
    match Get(Some(payload), "pickedTarots")
    case Some(JArr(items)) => items
    case _ => []
  }

  /** `typeof item === "string" ? item : item?.id || ""`. */
  function PickedId(item: Json): (r: string)
    ensures item.JStr? ==> r == item.str
    ensures !item.JStr? && IsString(Get(Some(item), "id")) ==> r == Get(Some(item), "id").value.str
    ensures !item.JStr? && !IsString(Get(Some(item), "id")) ==> r == ""
  {
    match item
    case JStr(s) => s
    case _ =>
      match Get(Some(item), "id")
      case Some(JStr(s)) => s
      case _ => ""
  }

  /** `picked.map(PickedId).filter(Boolean)`. */
  function PickedIds(payload: Json): (r: seq<string>)
    ensures |r| <= |PickedItems(payload)|
    ensures forall i :: 0 <= i < |r| ==> r[i] != ""
    ensures forall i :: 0 <= i < |PickedItems(payload)| && PickedId(PickedItems(payload)[i]) != "" ==>
      PickedId(PickedItems(payload)[i]) in r
    ensures forall s :: s in r ==> exists i :: 0 <= i < |PickedItems(payload)| && PickedId(PickedItems(payload)[i]) == s
  {
    var items := PickedItems(payload);
    var ids := seq(|items|, i requires 0 <= i < |items| => PickedId(items[i]));
    var r := Filter(ids, IsNonEmpty);
    assert forall i :: 0 <= i < |items| ==> ids[i] == PickedId(items[i]);
    assert forall i :: 0 <= i < |r| ==> r[i] in r;
    r
  }

  /** `cardFlow`: the joined slot renderings, else the joined ids, else `"카드"`. */
  function CardFlow(payload: Json): (r: string)
    ensures r != ""
  {
    var labels := CardLabels(payload);
    if |labels| > 0 then
      assert IsInfix(labels[0], Join(labels, FLOW_SEPARATOR));
      Join(labels, FLOW_SEPARATOR)
    else
      var ids := Join(PickedIds(payload), FLOW_SEPARATOR);
      if ids != "" then ids else PLACEHOLDER_CARD
  }

  /** The summary template with the card flow spliced in: never empty, never padded. */
  function Summary(cardFlow: string): (r: string)
    ensures r != "" && IsTrimmed(r)
    ensures IsInfix(cardFlow, r)
  {
    InfixOfConcat(SUMMARY_PREFIX, cardFlow, SUMMARY_SUFFIX);
    var r := SUMMARY_PREFIX + cardFlow + SUMMARY_SUFFIX;
    assert r[0] == SUMMARY_PREFIX[0];
    assert r[|r| - 1] == SUMMARY_SUFFIX[|SUMMARY_SUFFIX| - 1];
    r
  }

  /** Every fixed text of the template is non-empty and trimmed. */
  lemma TemplateTextsCanonical(summary: string)
    requires summary != "" && IsTrimmed(summary)
    ensures Canonical(Report(
      FALLBACK_TITLE, FALLBACK_QUOTE, FALLBACK_STATUS, summary, FALLBACK_TODAY_LINE,
      FALLBACK_STRENGTHS, FALLBACK_ACTIONS))
  {
    FixedTextsTrimmed();
    FixedStrengthsCanonical();
    FixedActionsCanonical();
  }

  lemma FixedTextsTrimmed()
    ensures IsTrimmed(FALLBACK_TITLE) && IsTrimmed(FALLBACK_QUOTE) && IsTrimmed(FALLBACK_STATUS)
    ensures IsTrimmed(FALLBACK_TODAY_LINE)
  {
  }

  lemma FixedStrengthsCanonical()
    ensures WellFormedStrengths(FALLBACK_STRENGTHS) && TrimmedStrengths(FALLBACK_STRENGTHS)
  {
    assert IsTrimmed(FALLBACK_STRENGTHS[0]) && IsTrimmed(FALLBACK_STRENGTHS[1]) && IsTrimmed(FALLBACK_STRENGTHS[2]);
  }

  lemma FixedActionsCanonical()
    ensures WellFormedActions(FALLBACK_ACTIONS) && TrimmedActions(FALLBACK_ACTIONS)
  {
    assert IsTrimmed(FALLBACK_ACTIONS[0].title) && IsTrimmed(FALLBACK_ACTIONS[0].description);
    assert IsTrimmed(FALLBACK_ACTIONS[1].title) && IsTrimmed(FALLBACK_ACTIONS[1].description);
  }

  /** `fallbackAnalysis(payload)`: total, and always a canonical report naming the card flow. */
  function FallbackAnalysis(payload: Json): (r: Report)
    ensures Canonical(r)
    ensures IsInfix(CardFlow(payload), r.summary)
  {
    var summary := Summary(CardFlow(payload));
    TemplateTextsCanonical(summary);
    Report(
      FALLBACK_TITLE, FALLBACK_QUOTE, FALLBACK_STATUS, summary, FALLBACK_TODAY_LINE,
      FALLBACK_STRENGTHS, FALLBACK_ACTIONS)
  }
}

module FallbackProperties {
  import opened Options
  import opened JsonValue
  import opened Seqs
  import opened Text
  import opened Reports
  import opened Fallback

  predicate EndsWith(s: string, t: string)
  {
    |t| <= |s| && s[|s| - |t|..] == t
  }

  /**
   * A present card's rendering ends in `(역방향)` exactly when its
   * orientation is `"reversed"`, and in `(정방향)` exactly when it is not.
   */
  lemma RenderedOrientation(card: Option<Json>)
    requires Truthy(card)
    ensures EndsWith(FormatCard(card), "(" + REVERSED_WORD + ")") <==> IsReversed(card.value)
    ensures EndsWith(FormatCard(card), "(" + UPRIGHT_WORD + ")") <==> !IsReversed(card.value)
  {
    var r := FormatCard(card);
    var tail := "(" + OrientationWord(card.value) + ")";
    assert r == CardLabel(card.value) + tail;
    assert r[|r| - |tail|..] == tail;
    assert ("(" + REVERSED_WORD + ")")[1] != ("(" + UPRIGHT_WORD + ")")[1];
  }

  /** A present card is rendered under its own label, or under `"카드"` when the label is missing or empty. */
  lemma RenderedLabel(card: Option<Json>)
    requires Truthy(card)
    ensures var given := Get(Some(card.value), "label");
      if given.Some? && given.value.JStr? && given.value.str != ""
      then FormatCard(card)[..|given.value.str|] == given.value.str
      else FormatCard(card)[..|PLACEHOLDER_CARD|] == PLACEHOLDER_CARD
  {
  }

  /** Only the present slots are rendered, in the order core, pattern, flow. */
  function Present(card: Option<Json>): seq<string>
  {
    if Truthy(card) then [FormatCard(card)] else []
  }

  lemma CardLabelsArePresentSlots(payload: Json)
    ensures var slots := SlotCards(payload);
      CardLabels(payload) == Present(slots[0]) + Present(slots[1]) + Present(slots[2])
  {
    var slots := SlotCards(payload);
    FilterThree(FormatCard(slots[0]), FormatCard(slots[1]), FormatCard(slots[2]), IsNonEmpty);
  }

  /**
   * With some slot present, the card flow is the present slots'
   * renderings, in slot order, joined by `" -> "`.
   */
  lemma CardFlowFromSlots(payload: Json)
    requires exists k :: 0 <= k < 3 && Truthy(SlotCards(payload)[k])
    ensures var slots := SlotCards(payload);
      CardFlow(payload) == Join(Present(slots[0]) + Present(slots[1]) + Present(slots[2]), FLOW_SEPARATOR)
  {
    CardLabelsArePresentSlots(payload);
  }

  /** Once a slot is present, `pickedTarots` plays no part: the same slots give the same card flow. */
  lemma CardFlowIgnoresPickedTarots(p: Json, q: Json)
    requires SlotCards(p) == SlotCards(q)
    requires exists k :: 0 <= k < 3 && Truthy(SlotCards(p)[k])
    ensures CardFlow(p) == CardFlow(q)
  {
    CardFlowFromSlots(p);
    CardFlowFromSlots(q);
  }

  /** All three slots present: `core -> pattern -> flow`, one separator between neighbours. */
  lemma AllSlotsFlow(payload: Json)
    requires forall k :: 0 <= k < 3 ==> Truthy(SlotCards(payload)[k])
    ensures var slots := SlotCards(payload);
      CardFlow(payload)
      == FormatCard(slots[0]) + FLOW_SEPARATOR + FormatCard(slots[1]) + FLOW_SEPARATOR + FormatCard(slots[2])
  {
    var slots := SlotCards(payload);
    assert Truthy(slots[0]);
    CardFlowFromSlots(payload);
    var a, b, c := FormatCard(slots[0]), FormatCard(slots[1]), FormatCard(slots[2]);
    assert Present(slots[0]) + Present(slots[1]) + Present(slots[2]) == [a] + [b] + [c];
    JoinAppend([a], [b], FLOW_SEPARATOR);
    JoinAppend([a] + [b], [c], FLOW_SEPARATOR);
  }

  /**
   * With no slot present, the card flow is the picked ids joined by
   * `" -> "`, and `"카드"` exactly when there is no id.
   */
  lemma CardFlowFromIds(payload: Json)
    requires forall k :: 0 <= k < 3 ==> !Truthy(SlotCards(payload)[k])
    ensures CardFlow(payload)
         == if PickedIds(payload) == [] then PLACEHOLDER_CARD else Join(PickedIds(payload), FLOW_SEPARATOR)
  {
    CardLabelsArePresentSlots(payload);
    assert CardLabels(payload) == [];
    var ids := PickedIds(payload);
    if ids != [] {
      var i :| OccursAt(ids[0], Join(ids, FLOW_SEPARATOR), i);
    }
  }

  /** Every present slot's rendering appears in the fallback summary. */
  lemma {:induction false} SummaryNamesPresentSlots(payload: Json)
    ensures var slots := SlotCards(payload);
      forall k :: 0 <= k < 3 && Truthy(slots[k]) ==>
        IsInfix(FormatCard(slots[k]), FallbackAnalysis(payload).summary)
  {
    var slots := SlotCards(payload);
    var labels := CardLabels(payload);
    var summary := FallbackAnalysis(payload).summary;
    forall k | 0 <= k < 3 && Truthy(slots[k])
      ensures IsInfix(FormatCard(slots[k]), summary)
    {
      var j :| 0 <= j < |labels| && labels[j] == FormatCard(slots[k]);
      assert CardFlow(payload) == Join(labels, FLOW_SEPARATOR);
      InfixTransitive(labels[j], Join(labels, FLOW_SEPARATOR), summary);
    }
  }

  /**
   * With no slot present the summary names every picked id instead, and
   * with no id either, the card flow is the placeholder `"카드"`.
   */
  lemma {:induction false} SummaryNamesPickedIds(payload: Json)
    requires forall k :: 0 <= k < 3 ==> !Truthy(SlotCards(payload)[k])
    ensures forall id :: id in PickedIds(payload) ==> IsInfix(id, FallbackAnalysis(payload).summary)
    ensures PickedIds(payload) == [] ==> CardFlow(payload) == PLACEHOLDER_CARD
  {
    var summary := FallbackAnalysis(payload).summary;
    CardLabelsArePresentSlots(payload);
    assert CardLabels(payload) == [];
    var ids := PickedIds(payload);
    forall id | id in ids
      ensures IsInfix(id, summary)
    {
      var j :| 0 <= j < |ids| && ids[j] == id;
      InfixTransitive(id, Join(ids, FLOW_SEPARATOR), summary);
    }
  }

  /** `pickedTarots` contributes its non-empty ids, bare strings or `.id` fields, in their order. */
  lemma PickedIdsInOrder(payload: Json, k: nat)
    requires k <= |PickedItems(payload)|
    ensures var items := PickedItems(payload);
      var ids := seq(|items|, i requires 0 <= i < |items| => PickedId(items[i]));
      PickedIds(payload) == Filter(ids[..k], IsNonEmpty) + Filter(ids[k..], IsNonEmpty)
  {
    var items := PickedItems(payload);
    var ids := seq(|items|, i requires 0 <= i < |items| => PickedId(items[i]));
    assert ids == ids[..k] + ids[k..];
    FilterAppend(ids[..k], ids[k..], IsNonEmpty);
  }

  /** Only the summary depends on the payload, and only through the card flow. */
  lemma FallbackDependsOnlyOnCardFlow(p: Json, q: Json)
    ensures CardFlow(p) == CardFlow(q) ==> FallbackAnalysis(p) == FallbackAnalysis(q)
    ensures FallbackAnalysis(p).(summary := "") == FallbackAnalysis(q).(summary := "")
  {
  }
}
