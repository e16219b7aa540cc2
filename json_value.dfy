/**
 * Values produced by `JSON.parse`, `request.json()` and `response.json()`,
 * and the few JavaScript operations the pipeline applies to them: optional
 * property access (`v?.key`), truthiness and `typeof v === "object"`.
 */
module JsonValue {
  import opened Options

  /** A parsed JSON value. Numbers are kept as exact reals. */
  datatype Json =
    | JNull
    | JBool(b: bool)
    | JNum(n: real)
    | JStr(str: string)
    | JArr(items: seq<Json>)
    | JObj(fields: map<string, Json>)

  /** The outcome of handing text to a JSON parser: a value, or a thrown SyntaxError. */
  datatype ParseResult = ParseFailed | ParsedValue(value: Json)

  /**
   * `v?.key`. Only objects carry named properties; a missing key, a
   * non-object, `null` and `undefined` all give `undefined`.
   */
  function Get(v: Option<Json>, key: string): (r: Option<Json>)
    ensures r.Some? <==> v.Some? && v.value.JObj? && key in v.value.fields
    ensures r.Some? ==> r.value == v.value.fields[key]
  {
    match v
    case Some(JObj(fields)) => if key in fields then Some(fields[key]) else None
    case _ => None
  }

  /** JavaScript truthiness (`!!v`) of a possibly undefined JSON value. */
  function Truthy(v: Option<Json>): (r: bool)
    ensures r ==> v.Some? && v.value != JNull
    ensures v.Some? && (v.value.JObj? || v.value.JArr?) ==> r
    ensures v.Some? && v.value.JStr? ==> (r <==> v.value.str != "")
  {
    match v
    case None => false
    case Some(JNull) => false
    case Some(JBool(b)) => b
    case Some(JNum(n)) => n != 0.0
    case Some(JStr(s)) => s != ""
    case Some(_) => true
  }

  /**
   * `!!v && typeof v === "object"`: objects and arrays. `null`, whose
   * `typeof` is also `"object"`, is excluded by the truthiness test.
   */
  function IsObjectLike(v: Option<Json>): (r: bool)
    ensures r ==> Truthy(v)
    ensures v == Some(JNull) ==> !r
  {
    v.Some? && (v.value.JObj? || v.value.JArr?)
  }

  /** `typeof v === "string"`. */
  predicate IsString(v: Option<Json>)
  {
    v.Some? && v.value.JStr?
  }
}
