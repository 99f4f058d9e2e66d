/**
 * JSON values as Python holds them after decoding a response body:
 * `null` is `None`, objects are dicts, arrays are lists. Numbers are
 * integers (fractional numbers are not modelled).
 */
module Json {
  import opened Strings
  import opened Dicts

  datatype Json =
    | JNull
    | JBool(b: bool)
    | JNum(n: int)
    | JStr(s: string)
    | JArr(items: seq<Json>)
    | JObj(entries: Dict<Json>)

  /** Python truthiness: `None`, `False`, `0` and empty containers are false. */
  predicate Truthy(j: Json) {
    match j
    case JNull => false
    case JBool(b) => b
    case JNum(n) => n != 0
    case JStr(s) => |s| > 0
    case JArr(items) => |items| > 0
    case JObj(entries) => |entries| > 0
  }

  function BoolText(b: bool): string {
    if b then "True" else "False"
  }

  /** Python's `str()` of a decoded JSON value (`%s` formatting). */
  function Str(j: Json): string {
    match j
    case JStr(s) => s
    case _ => Repr(j)
  }

  /**
   * Python's `repr()`, used for values nested inside a list or dict.
   */
  function Repr(j: Json): string
    decreases j, 1
  {
    match j
    case JNull => "None"
    case JBool(b) => BoolText(b)
    case JNum(n) => IntToString(n)
    case JStr(s) => StrRepr(s)
    case JArr(items) => "[" + Join(", ", ReprItems(j, items)) + "]"
    case JObj(entries) => "{" + Join(", ", ReprEntries(j, entries)) + "}"
  }

  function ReprItems(parent: Json, items: seq<Json>): seq<string>
    requires forall i :: 0 <= i < |items| ==> items[i] < parent
    decreases parent, 0, |items|
  {
    if |items| == 0 then [] else [Repr(items[0])] + ReprItems(parent, items[1..])
  }

  function ReprEntries(parent: Json, entries: Dict<Json>): seq<string>
    requires forall i :: 0 <= i < |entries| ==> entries[i].1 < parent
    decreases parent, 0, |entries|
  {
    if |entries| == 0 then []
    else [StrRepr(entries[0].0) + ": " + Repr(entries[0].1)] + ReprEntries(parent, entries[1..])
  }
}
