/**
 * The analysis report returned by the endpoint, its well-formedness
 * conditions, and its JSON form (the object the client receives and the
 * shape the external model is asked to produce).
 */
module Reports {
  import opened Options
  import opened JsonValue
  import opened Text

  /** The number of `strengths` and of `actions` a report carries. */
  const STRENGTH_COUNT: nat := 3
  const ACTION_COUNT: nat := 2

  datatype Action = Action(title: string, description: string)

  datatype Report = Report(
    title: string,
    quote: string,
    status: string,
    summary: string,
    todayLine: string,
    strengths: seq<string>,
    actions: seq<Action>)

  /** Exactly 3 strengths, none empty. */
  predicate WellFormedStrengths(xs: seq<string>)
  {
    |xs| == STRENGTH_COUNT && forall i :: 0 <= i < |xs| ==> xs[i] != ""
  }

  /** Exactly 2 actions, each with a non-empty title and description. */
  predicate WellFormedActions(xs: seq<Action>)
  {
    |xs| == ACTION_COUNT && forall i :: 0 <= i < |xs| ==> xs[i].title != "" && xs[i].description != ""
  }

  /** Exactly 3 strengths, exactly 2 actions, and no empty text anywhere. */
  predicate WellFormed(r: Report)
  {
    && r.title != "" && r.quote != "" && r.status != "" && r.summary != "" && r.todayLine != ""
    && WellFormedStrengths(r.strengths)
    && WellFormedActions(r.actions)
  }

  predicate TrimmedStrengths(xs: seq<string>)
  {
    forall i :: 0 <= i < |xs| ==> IsTrimmed(xs[i])
  }

  predicate TrimmedActions(xs: seq<Action>)
  {
    forall i :: 0 <= i < |xs| ==> IsTrimmed(xs[i].title) && IsTrimmed(xs[i].description)
  }

  /** Well-formed, and every text is already trimmed: the reports the sanitizer can produce. */
  predicate Canonical(r: Report)
  {
    && WellFormed(r)
    && IsTrimmed(r.title) && IsTrimmed(r.quote) && IsTrimmed(r.status)
    && IsTrimmed(r.summary) && IsTrimmed(r.todayLine)
    && TrimmedStrengths(r.strengths)
    && TrimmedActions(r.actions)
  }

  function ActionToJson(a: Action): Json
  {
    JObj(map["title" := JStr(a.title), "description" := JStr(a.description)])
  }

  /** The report as the JSON object the schema describes. */
  function ToJson(r: Report): Json
  {
    JObj(map[
      "title" := JStr(r.title),
      "quote" := JStr(r.quote),
      "status" := JStr(r.status),
      "summary" := JStr(r.summary),
      "todayLine" := JStr(r.todayLine),
      "strengths" := JArr(seq(|r.strengths|, i requires 0 <= i < |r.strengths| => JStr(r.strengths[i]))),
      "actions" := JArr(seq(|r.actions|, i requires 0 <= i < |r.actions| => ActionToJson(r.actions[i])))
    ])
  }
}
