/**
 * `sanitizeAnalysis`: checks an untrusted candidate, field by field,
 * against a fallback report. A text field takes the candidate's trimmed
 * value when it is non-empty; `strengths` and `actions` take the
 * candidate's array only when it yields exactly 3 or 2 usable entries.
 * Anything else reverts to the fallback's whole field.
 */
module Sanitizer {
  import opened Options
  import opened JsonValue
  import opened Seqs
  import opened Text
  import opened Reports

  /**
   * `normalizeText(candidate[key])`: the trimmed value of a string field,
   * and `""` for a missing or non-string one.
   */
  function Field(candidate: Json, key: string): (r: string)
    ensures IsTrimmed(r)
    ensures IsString(Get(Some(candidate), key)) ==> IsCore(Get(Some(candidate), key).value.str, r)
    ensures !IsString(Get(Some(candidate), key)) ==> r == ""
  {
    NormalizeText(Get(Some(candidate), key))
  }

  /** `text || fallback`. */
  function OrElse(text: string, fallback: string): (r: string)
    ensures r == text || r == fallback
    ensures r == fallback <== text == ""
    ensures text != "" ==> r == text
  {
    if text != "" then text else fallback
  }

  /**
   * `items.map(normalizeText)`: entry by entry, a string item gives its
   * trimmed core and any other item gives `""`.
   */
  function NormalizeAll(items: seq<Json>): (r: seq<string>)
    ensures |r| == |items|
    ensures forall i :: 0 <= i < |items| ==> r[i] == NormalizeText(Some(items[i]))
    ensures forall i :: 0 <= i < |items| ==> IsTrimmed(r[i])
    ensures forall i :: 0 <= i < |items| && items[i].JStr? ==> IsCore(items[i].str, r[i])
    ensures forall i :: 0 <= i < |items| && !items[i].JStr? ==> r[i] == ""
  {
    seq(|items|, i requires 0 <= i < |items| => NormalizeText(Some(items[i])))
  }

  /** `{ title: normalizeText(item?.title), description: normalizeText(item?.description) }`. */
  function ToAction(item: Json): Action
  {
    Action(Field(item, "title"), Field(item, "description"))
  }

  /**
   * `items.map(ToAction)`: entry by entry, each of `title` and
   * `description` is the trimmed core of the item's own string field, or
   * `""` when that field is missing or not a string.
   */
  function ToActions(items: seq<Json>): (r: seq<Action>)
    ensures |r| == |items|
    ensures forall i :: 0 <= i < |items| ==> r[i] == ToAction(items[i])
    ensures forall i :: 0 <= i < |items| ==> IsTrimmed(r[i].title) && IsTrimmed(r[i].description)
    ensures forall i :: 0 <= i < |items| && IsString(Get(Some(items[i]), "title")) ==>
      IsCore(Get(Some(items[i]), "title").value.str, r[i].title)
    ensures forall i :: 0 <= i < |items| && !IsString(Get(Some(items[i]), "title")) ==> r[i].title == ""
    ensures forall i :: 0 <= i < |items| && IsString(Get(Some(items[i]), "description")) ==>
      IsCore(Get(Some(items[i]), "description").value.str, r[i].description)
    ensures forall i :: 0 <= i < |items| && !IsString(Get(Some(items[i]), "description")) ==> r[i].description == ""
  {
    seq(|items|, i requires 0 <= i < |items| => ToAction(items[i]))
  }

  /** `item.title && item.description`. */
  predicate IsComplete(a: Action)
  {
    a.title != "" && a.description != ""
  }

  /** The candidate's usable strengths before truncation: non-empty trimmed entries, in order. */
  function StrengthEntries(candidate: Json): (r: seq<string>)
    ensures forall s :: s in r ==> s != "" && IsTrimmed(s)
    ensures !(Get(Some(candidate), "strengths").Some? && Get(Some(candidate), "strengths").value.JArr?) ==> r == []
  {
    match Get(Some(candidate), "strengths")
    case Some(JArr(items)) =>
      var all := NormalizeAll(items);
      assert forall s :: s in all ==> IsTrimmed(s);
      Filter(all, IsNonEmpty)
    case _ => []
  }

  /** The candidate's usable actions before truncation: complete trimmed pairs, in order. */
  function ActionEntries(candidate: Json): (r: seq<Action>)
    ensures forall a :: a in r ==>
      a.title != "" && a.description != "" && IsTrimmed(a.title) && IsTrimmed(a.description)
    ensures !(Get(Some(candidate), "actions").Some? && Get(Some(candidate), "actions").value.JArr?) ==> r == []
  {
    match Get(Some(candidate), "actions")
    case Some(JArr(items)) =>
      var all := ToActions(items);
      assert forall a :: a in all ==> IsTrimmed(a.title) && IsTrimmed(a.description);
      Filter(all, IsComplete)
    case _ => []
  }

  /** `strengths.length === 3 ? strengths : fallback` with `strengths` cut to 3 entries. */
  function SanitizeStrengths(candidate: Json, fallback: seq<string>): (r: seq<string>)
    ensures WellFormedStrengths(fallback) ==> WellFormedStrengths(r)
    ensures TrimmedStrengths(fallback) ==> TrimmedStrengths(r)
  {
    var strengths := Take(StrengthEntries(candidate), STRENGTH_COUNT);
    if |strengths| == STRENGTH_COUNT then
      assert forall i :: 0 <= i < |strengths| ==> strengths[i] in StrengthEntries(candidate);
      strengths
    else fallback
  }

  /** `actions.length === 2 ? actions : fallback` with `actions` cut to 2 entries. */
  function SanitizeActions(candidate: Json, fallback: seq<Action>): (r: seq<Action>)
    ensures WellFormedActions(fallback) ==> WellFormedActions(r)
    ensures TrimmedActions(fallback) ==> TrimmedActions(r)
  {
    var actions := Take(ActionEntries(candidate), ACTION_COUNT);
    if |actions| == ACTION_COUNT then
      assert forall i :: 0 <= i < |actions| ==> actions[i] in ActionEntries(candidate);
      actions
    else fallback
  }

  /**
   * `sanitizeAnalysis(candidate, fallback)`. A candidate that is not an
   * object (or array) yields the fallback itself; a well-formed fallback
   * always yields a well-formed report, a canonical one a canonical report.
   */
  function SanitizeAnalysis(candidate: Json, fallback: Report): (r: Report)
    ensures !IsObjectLike(Some(candidate)) ==> r == fallback
    ensures WellFormed(fallback) ==> WellFormed(r)
    ensures Canonical(fallback) ==> Canonical(r)
  {
    if !IsObjectLike(Some(candidate)) then fallback
    else
      Report(
        OrElse(Field(candidate, "title"), fallback.title),
        OrElse(Field(candidate, "quote"), fallback.quote),
        OrElse(Field(candidate, "status"), fallback.status),
        OrElse(Field(candidate, "summary"), fallback.summary),
        OrElse(Field(candidate, "todayLine"), fallback.todayLine),
        SanitizeStrengths(candidate, fallback.strengths),
        SanitizeActions(candidate, fallback.actions))
  }
}

module SanitizerProperties {
  import opened Options
  import opened JsonValue
  import opened Seqs
  import opened Text
  import opened Reports
  import opened Sanitizer

  /** The value `candidate[key]` held for a text field: a string whose trimmed core is `s`. */
  ghost predicate FromCandidateText(candidate: Json, key: string, s: string)
  {
    var v := Get(Some(candidate), key);
    IsString(v) && IsCore(v.value.str, s)
  }

  /** `s` is the trimmed core of some string entry of the candidate's array `key`. */
  ghost predicate FromCandidateEntry(candidate: Json, key: string, s: string)
  {
    match Get(Some(candidate), key)
    case Some(JArr(items)) => exists i :: 0 <= i < |items| && IsString(Some(items[i])) && IsCore(items[i].str, s)
    case _ => false
  }

  /**
   * Text fields fall back one by one: each takes the candidate's trimmed
   * value when that is non-empty, and the fallback's value otherwise.
   */
  lemma TextFieldsFallBackOneByOne(candidate: Json, fallback: Report)
    requires IsObjectLike(Some(candidate))
    ensures var r := SanitizeAnalysis(candidate, fallback);
      && (Field(candidate, "title") != "" ==> r.title == Field(candidate, "title"))
      && (Field(candidate, "title") == "" ==> r.title == fallback.title)
      && (Field(candidate, "quote") != "" ==> r.quote == Field(candidate, "quote"))
      && (Field(candidate, "quote") == "" ==> r.quote == fallback.quote)
      && (Field(candidate, "status") != "" ==> r.status == Field(candidate, "status"))
      && (Field(candidate, "status") == "" ==> r.status == fallback.status)
      && (Field(candidate, "summary") != "" ==> r.summary == Field(candidate, "summary"))
      && (Field(candidate, "summary") == "" ==> r.summary == fallback.summary)
      && (Field(candidate, "todayLine") != "" ==> r.todayLine == Field(candidate, "todayLine"))
      && (Field(candidate, "todayLine") == "" ==> r.todayLine == fallback.todayLine)
  {
  }

  /**
   * The sanitizer invents no text: a text field is the fallback's or the
   * trimmed core of the candidate's own string for that field.
   */
  lemma TextFieldsComeFromCandidateOrFallback(candidate: Json, fallback: Report)
    ensures var r := SanitizeAnalysis(candidate, fallback);
      && (r.title == fallback.title || FromCandidateText(candidate, "title", r.title))
      && (r.quote == fallback.quote || FromCandidateText(candidate, "quote", r.quote))
      && (r.status == fallback.status || FromCandidateText(candidate, "status", r.status))
      && (r.summary == fallback.summary || FromCandidateText(candidate, "summary", r.summary))
      && (r.todayLine == fallback.todayLine || FromCandidateText(candidate, "todayLine", r.todayLine))
  {
  }

  /**
   * `strengths` is all-or-nothing: the first 3 usable entries, in order,
   * exactly when there are at least 3 of them; otherwise the whole
   * fallback array. Every accepted entry is the trimmed core of one of the
   * candidate's own strings.
   */
  lemma StrengthsAllOrNothing(candidate: Json, fallback: Report)
    requires IsObjectLike(Some(candidate))
    ensures var r := SanitizeAnalysis(candidate, fallback);
      var entries := StrengthEntries(candidate);
      && (|entries| >= STRENGTH_COUNT ==> r.strengths == entries[..STRENGTH_COUNT])
      && (|entries| < STRENGTH_COUNT ==> r.strengths == fallback.strengths)
      && (|entries| >= STRENGTH_COUNT ==> forall s :: s in r.strengths ==> FromCandidateEntry(candidate, "strengths", s))
  {
    var entries := StrengthEntries(candidate);
    if |entries| >= STRENGTH_COUNT {
      match Get(Some(candidate), "strengths")
      case Some(JArr(items)) =>
        var all := NormalizeAll(items);
        forall s | s in entries[..STRENGTH_COUNT]
          ensures FromCandidateEntry(candidate, "strengths", s)
        {
          assert s in entries;
          var i :| 0 <= i < |all| && all[i] == s;
          assert IsString(Some(items[i])) && IsCore(items[i].str, s);
        }
      case _ =>
    }
  }

  /**
   * `actions` is all-or-nothing: the first 2 complete pairs, in order,
   * exactly when there are at least 2 of them; otherwise the whole
   * fallback array.
   */
  lemma ActionsAllOrNothing(candidate: Json, fallback: Report)
    requires IsObjectLike(Some(candidate))
    ensures var r := SanitizeAnalysis(candidate, fallback);
      var entries := ActionEntries(candidate);
      && (|entries| >= ACTION_COUNT ==> r.actions == entries[..ACTION_COUNT])
      && (|entries| < ACTION_COUNT ==> r.actions == fallback.actions)
  {
  }

  /** Once 3 usable strengths have been seen, the rest of the array cannot change the outcome. */
  lemma {:induction false} LaterStrengthsIgnored(items: seq<Json>, k: nat)
    requires k <= |items|
    requires |Filter(NormalizeAll(items[..k]), IsNonEmpty)| >= STRENGTH_COUNT
    ensures Take(Filter(NormalizeAll(items), IsNonEmpty), STRENGTH_COUNT)
         == Take(Filter(NormalizeAll(items[..k]), IsNonEmpty), STRENGTH_COUNT)
  {
    var all := NormalizeAll(items);
    assert NormalizeAll(items[..k]) == all[..k];
    FirstKeptComeFromPrefix(all, k, STRENGTH_COUNT, IsNonEmpty);
  }

  /** A candidate that is not a JSON object — an array included — yields exactly the fallback. */
  lemma NonObjectYieldsFallback(candidate: Json, fallback: Report)
    requires !candidate.JObj?
    ensures SanitizeAnalysis(candidate, fallback) == fallback
  {
  }

  lemma ToJsonStrengths(r: Report)
    requires WellFormedStrengths(r.strengths) && TrimmedStrengths(r.strengths)
    ensures StrengthEntries(ToJson(r)) == r.strengths
  {
    var items := seq(|r.strengths|, i requires 0 <= i < |r.strengths| => JStr(r.strengths[i]));
    assert Get(Some(ToJson(r)), "strengths") == Some(JArr(items));
    forall i | 0 <= i < |r.strengths|
      ensures NormalizeAll(items)[i] == r.strengths[i]
    {
      NormalizeTrimmed(r.strengths[i]);
    }
    assert NormalizeAll(items) == r.strengths;
    FilterKeepsAll(r.strengths, IsNonEmpty);
  }

  lemma ToJsonActions(r: Report)
    requires WellFormedActions(r.actions) && TrimmedActions(r.actions)
    ensures ActionEntries(ToJson(r)) == r.actions
  {
    var items := seq(|r.actions|, i requires 0 <= i < |r.actions| => ActionToJson(r.actions[i]));
    assert Get(Some(ToJson(r)), "actions") == Some(JArr(items));
    forall i | 0 <= i < |r.actions|
      ensures ToActions(items)[i] == r.actions[i]
    {
      var a := r.actions[i];
      ActionToJsonLookups(a);
      NormalizeTrimmed(a.title);
      NormalizeTrimmed(a.description);
    }
    assert ToActions(items) == r.actions;
    FilterKeepsAll(r.actions, IsComplete);
  }

  lemma ToJsonTexts(r: Report)
    requires IsTrimmed(r.title) && IsTrimmed(r.quote) && IsTrimmed(r.status)
    requires IsTrimmed(r.summary) && IsTrimmed(r.todayLine)
    ensures Field(ToJson(r), "title") == r.title && Field(ToJson(r), "quote") == r.quote
    ensures Field(ToJson(r), "status") == r.status && Field(ToJson(r), "summary") == r.summary
    ensures Field(ToJson(r), "todayLine") == r.todayLine
  {
    ToJsonLookups(r);
    NormalizeTrimmed(r.title);
    NormalizeTrimmed(r.quote);
    NormalizeTrimmed(r.status);
    NormalizeTrimmed(r.summary);
    NormalizeTrimmed(r.todayLine);
  }

  lemma ToJsonLookups(r: Report)
    ensures Get(Some(ToJson(r)), "title") == Some(JStr(r.title))
    ensures Get(Some(ToJson(r)), "quote") == Some(JStr(r.quote))
    ensures Get(Some(ToJson(r)), "status") == Some(JStr(r.status))
    ensures Get(Some(ToJson(r)), "summary") == Some(JStr(r.summary))
    ensures Get(Some(ToJson(r)), "todayLine") == Some(JStr(r.todayLine))
  {
  }

  lemma ActionToJsonLookups(a: Action)
    ensures Get(Some(ActionToJson(a)), "title") == Some(JStr(a.title))
    ensures Get(Some(ActionToJson(a)), "description") == Some(JStr(a.description))
  {
  }

  /** A canonical report, sent as JSON, is accepted unchanged: sanitizing is a round trip. */
  lemma SanitizeRoundTrip(r: Report, fallback: Report)
    requires Canonical(r)
    ensures SanitizeAnalysis(ToJson(r), fallback) == r
  {
    ToJsonTexts(r);
    ToJsonStrengths(r);
    ToJsonActions(r);
  }

  /** With a canonical fallback, sanitizing the sanitizer's own output changes nothing. */
  lemma SanitizeIdempotent(candidate: Json, fallback: Report)
    requires Canonical(fallback)
    ensures var once := SanitizeAnalysis(candidate, fallback);
      SanitizeAnalysis(ToJson(once), fallback) == once
  {
    SanitizeRoundTrip(SanitizeAnalysis(candidate, fallback), fallback);
  }

  /**
   * A candidate with a usable title but only two strengths keeps its
   * title and takes the fallback's whole `strengths`.
   */
  lemma ShortStrengthsKeepTitle(fallback: Report)
    ensures var candidate := JObj(map["title" := JStr("X"), "strengths" := JArr([JStr("a"), JStr("b")])]);
      var r := SanitizeAnalysis(candidate, fallback);
      r.title == "X" && r.strengths == fallback.strengths
  {
    var candidate := JObj(map["title" := JStr("X"), "strengths" := JArr([JStr("a"), JStr("b")])]);
    assert Get(Some(candidate), "title") == Some(JStr("X"));
    NormalizeTrimmed("X");
    assert Get(Some(candidate), "strengths") == Some(JArr([JStr("a"), JStr("b")]));
    assert |StrengthEntries(candidate)| <= 2;
  }
}
