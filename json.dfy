/**
 * Parsed JSON values as the pages receive them from `response.json()`, with the two
 * JavaScript operations the pages apply to them: truthiness (what `!x` and `x || y` test)
 * and property access (`x.key`, which yields `undefined` for a missing key).
 */
module JsonValues {
  import opened Wrappers

  /**
   * A value produced by `JSON.parse`. Numbers are reals: the pages only test a number's
   * truthiness, so a non-zero real also stands for an overflowing literal (an infinity) and
   * `JNum(0.0)` for one that underflows to 0.
   */
  datatype Json =
    | JNull
    | JBool(b: bool)
    | JNum(n: real)
    | JStr(s: string)
    | JArr(items: seq<Json>)
    | JObj(fields: map<string, Json>)

  /** JavaScript truthiness: `null`, `false`, `0` and `""` are falsy; every array and object is truthy. */
  predicate Truthy(j: Json) {
    match j
    case JNull => false
    case JBool(b) => b
    case JNum(n) => n != 0.0
    case JStr(s) => s != ""
    case JArr(_) => true
    case JObj(_) => true
  }

  /**
   * `j.key` on a value that is not `null`: the own property of an object, and `undefined`
   * (None) otherwise. None of the keys the pages read (`data`, `intervention`,
   * `interventions`, `status`, `sub_status`, `id`) is a built-in property of strings or arrays.
   */
  function Prop(j: Json, key: string): (v: Option<Json>)
    ensures v.Some? <==> j.JObj? && key in j.fields
  {
    if j.JObj? && key in j.fields then Some(j.fields[key]) else None
  }

  /** Whether a possibly-undefined value is truthy, i.e. whether `v || other` evaluates to `v`. */
  predicate Present(v: Option<Json>) {
    v.Some? && Truthy(v.value)
  }

  /** The string held in property `key`, or None when it is missing or not a string. */
  function StringProp(j: Json, key: string): (s: Option<string>)
    ensures s.Some? ==> Prop(j, key) == Some(JStr(s.value))
    ensures s.None? ==> Prop(j, key).None? || !Prop(j, key).value.JStr?
  {
    match Prop(j, key)
    case Some(JStr(s)) => Some(s)
    case _ => None
  }

  /** `x.status` of an intervention record, when it is a string; any other value equals none of the status tokens. */
  function StatusOf(intervention: Json): Option<string> {
    StringProp(intervention, "status")
  }
}
