/**
 * Python values as callers hand them to pysnow, the exceptions pysnow
 * raises, and the few built-in operations (`str`, `repr`, truthiness,
 * `in`, `len`, subscripting) whose exact behaviour decides which branch
 * the library takes.
 */
module Values {
  import opened Options
  import opened Strings
  import opened Dicts
  import opened DateTimes
  import Enums
  import opened Json

  /** The two generations of the fluent query builder. */
  datatype Lineage =
    | QueryBuilderClass   // `pysnow.query_builder.QueryBuilder`
    | LegacyQueryClass    // `pysnow.query.QueryBuilder` (and its alias `Query`)

  /**
   * A caller-supplied value. A query builder appears through the outcome of
   * its `str()`, which is all pysnow ever asks of it; `VObject` is any
   * other object, known by its class name.
   */
  datatype Value =
    | VNone
    | VBool(b: bool)
    | VInt(i: int)
    | VStr(s: string)
    | VDateTime(dt: DateTime)
    | VList(items: seq<Value>)
    | VTuple(items: seq<Value>)
    | VDict(entries: seq<(string, Value)>)
    | VBuilder(lineage: Lineage, rendering: Result<string>)
    | VField(name: Value)
    | VOn(on: Enums.DateTimeOn)
    | VOrder(order: Enums.Order)
    | VObject(className: string)

  /** `type(v)`: exact types, so `bool` is not `int` here. */
  datatype TypeTag =
    | TNone | TBool | TInt | TStr | TDateTime | TList | TTuple | TDict
    | TBuilder(lineage: Lineage) | TField | TDateTimeOn | TOrder | TObject(className: string)

  function TypeOf(v: Value): TypeTag {
    match v
    case VNone => TNone
    case VBool(_) => TBool
    case VInt(_) => TInt
    case VStr(_) => TStr
    case VDateTime(_) => TDateTime
    case VList(_) => TList
    case VTuple(_) => TTuple
    case VDict(_) => TDict
    case VBuilder(l, _) => TBuilder(l)
    case VField(_) => TField
    case VOn(_) => TDateTimeOn
    case VOrder(_) => TOrder
    case VObject(c) => TObject(c)
  }

  /** `type(v) in types`. */
  predicate TypeIn(v: Value, types: seq<TypeTag>) {
    TypeOf(v) in types
  }

  /** `isinstance(v, int)`: `bool` is a subclass of `int`. */
  predicate IsIntInstance(v: Value) {
    v.VInt? || v.VBool?
  }

  /** The integer an `int` instance stands for (`True` is 1). */
  function IntOf(v: Value): int
    requires IsIntInstance(v)
  {
    if v.VInt? then v.i else if v.b then 1 else 0
  }

  /** `isinstance(v, int) and not isinstance(v, bool)`: the setters' integer test. */
  predicate IsStrictInt(v: Value) {
    v.VInt?
  }

  /** `hasattr(v, "strftime")`. */
  predicate HasStrftime(v: Value) {
    v.VDateTime?
  }

  /** `v is True` / `v is False`. */
  predicate IsTrue(v: Value) { v == VBool(true) }
  predicate IsFalse(v: Value) { v == VBool(false) }

  /**
   * The truth of `v == s` against a text `s`: true for that very string,
   * and for a criterion `Field`, whose `__eq__` answers with a criterion,
   * which is truthy. Every other modelled kind compares unequal to a `str`.
   */
  predicate EqualsText(v: Value, s: string) {
    v == VStr(s) || v.VField?
  }

  /** `s in vs` for a text `s`: some element compares equal to it. */
  predicate TextIn(s: string, vs: seq<Value>) {
    exists i | 0 <= i < |vs| :: EqualsText(vs[i], s)
  }

  /** Python truthiness; objects without `__bool__`/`__len__` are true. */
  predicate Truthy(v: Value) {
    match v
    case VNone => false
    case VBool(b) => b
    case VInt(i) => i != 0
    case VStr(s) => |s| > 0
    case VList(items) => |items| > 0
    case VTuple(items) => |items| > 0
    case VDict(entries) => |entries| > 0
    case _ => true
  }

  /** The exceptions the modelled code can raise. */
  datatype Error =
    | QueryEmpty
    | QueryMissingField
    | QueryExpressionError
    | QueryMultipleExpressions
    | QueryTypeError
    | InvalidUsage
    | TypeError
    | KeyError
    | IndexError
    | AttributeError
    | ValueError
    | OverflowError
    | HttpError(status: int)
    | ResponseError(message: Json, detail: Json)
    | MissingResult
    | NoResults(msg: string)
    | MultipleResults(msg: string)
    | NotImplementedError(msg: string)
    | UnexpectedResponse(text: string, statusCode: Option<int>, summary: Json, details: Json)

  /** The outcome of a call that may raise. */
  datatype Result<+T> = Ok(value: T) | Err(error: Error) {
    predicate IsFailure() { Err? }

    function PropagateFailure<U>(): Result<U>
      requires Err?
    {
      Err(error)
    }

    function Extract(): T
      requires Ok?
    {
      value
    }
  }

  // ---- str() and repr() ----

  function LineageClassName(l: Lineage): string {
    match l
    case QueryBuilderClass => "pysnow.query_builder.QueryBuilder"
    case LegacyQueryClass => "pysnow.query.QueryBuilder"
  }

  /** The default `object.__repr__`, without the memory address. */
  function ObjectRepr(className: string): string {
    "<" + className + " object>"
  }

  /** `repr(v)`: the text `str()` of a container uses for each element. */
  function Repr(v: Value): string
    decreases v, 1
  {
    match v
    case VNone => "None"
    case VBool(b) => BoolText(b)
    case VInt(i) => IntToString(i)
    case VStr(s) => StrRepr(s)
    case VDateTime(dt) => DateTimeRepr(dt)
    case VList(items) => "[" + Join(", ", ReprItems(v, items)) + "]"
    case VTuple(items) =>
      if |items| == 1 then "(" + Repr(items[0]) + ",)"
      else "(" + Join(", ", ReprItems(v, items)) + ")"
    case VDict(entries) => "{" + Join(", ", ReprEntries(v, entries)) + "}"
    case VBuilder(l, _) => ObjectRepr(LineageClassName(l))
    case VField(_) => ObjectRepr("pysnow.criterion.Field")
    case VOn(d) => "<DateTimeOn." + Enums.DateTimeOnName(d) + ": " + StrRepr(Enums.DateTimeOnValue(d)) + ">"
    case VOrder(o) => "<Order." + Enums.OrderName(o) + ": " + StrRepr(Enums.OrderValue(o)) + ">"
    case VObject(c) => ObjectRepr(c)
  }

  function ReprItems(parent: Value, items: seq<Value>): seq<string>
    requires forall i :: 0 <= i < |items| ==> items[i] < parent
    decreases parent, 0, |items|
  {
    if |items| == 0 then [] else [Repr(items[0])] + ReprItems(parent, items[1..])
  }

  function ReprEntries(parent: Value, entries: seq<(string, Value)>): seq<string>
    requires forall i :: 0 <= i < |entries| ==> entries[i].1 < parent
    decreases parent, 0, |entries|
  {
    if |entries| == 0 then []
    else [StrRepr(entries[0].0) + ": " + Repr(entries[0].1)] + ReprEntries(parent, entries[1..])
  }

  /**
   * `str(v)` (and `"%s" % v`). It raises only for a builder whose own
   * `__str__` raises, and for a `Field` whose name is not a string (its
   * `__str__` returns the name, and `str()` rejects a non-string result).
   */
  function Str(v: Value): (r: Result<string>)
    ensures r.Err? ==> v.VBuilder? || v.VField?
    ensures v.VStr? ==> r == Ok(v.s)
  {
    match v
    case VStr(s) => Ok(s)
    case VDateTime(dt) => Ok(IsoText(dt))
    case VBuilder(_, rendering) => rendering
    case VField(name) => if name.VStr? then Ok(name.s) else Err(TypeError)
    case VOn(d) => Ok("DateTimeOn." + Enums.DateTimeOnName(d))
    case VOrder(o) => Ok("Order." + Enums.OrderName(o))
    case _ => Ok(Repr(v))
  }

  /**
   * `"...%s" % v`: a tuple is taken as the argument list itself, so it
   * must hold exactly one element (which is then formatted); anything else
   * is formatted with `str()`.
   */
  function PercentS(v: Value): Result<string> {
    if v.VTuple? then (if |v.items| == 1 then Str(v.items[0]) else Err(TypeError))
    else Str(v)
  }

  /** `"%d" % v`: integers (and booleans, as 1 and 0) only. */
  function PercentD(v: Value): (r: Result<string>)
    ensures r.Ok? <==> IsIntInstance(v)
  {
    if IsIntInstance(v) then Ok(IntToString(IntOf(v))) else Err(TypeError)
  }

  /** `",".join(parts)`: every part must be a `str`. */
  function JoinStrings(sep: string, parts: seq<Value>): (r: Result<string>)
    ensures r.Ok? <==> forall i :: 0 <= i < |parts| ==> parts[i].VStr?
  {
    if forall i :: 0 <= i < |parts| ==> parts[i].VStr? then
      Ok(Join(sep, seq(|parts|, i requires 0 <= i < |parts| => parts[i].s)))
    else Err(TypeError)
  }

  /** The texts `str()` gives each element, or the first failure. */
  function StrAll(vs: seq<Value>): (r: Result<seq<string>>)
    ensures r.Ok? ==> |r.value| == |vs| && forall i :: 0 <= i < |vs| ==> Str(vs[i]) == Ok(r.value[i])
    ensures r.Err? ==> exists i :: 0 <= i < |vs| && Str(vs[i]) == Err(r.error)
  {
    if |vs| == 0 then Ok([])
    else
      var head :- Str(vs[0]);
      var tail :- StrAll(vs[1..]);
      assert forall i :: 1 <= i < |vs| ==> vs[i] == vs[1..][i - 1];
      Ok([head] + tail)
  }

  /** `str()` of integers and strings never raises. */
  lemma StrAllScalars(vs: seq<Value>)
    requires forall i :: 0 <= i < |vs| ==> vs[i].VInt? || vs[i].VStr?
    ensures StrAll(vs).Ok?
  {
  }

  // ---- Built-in operations on decoded JSON bodies ----

  /** `key in j`: a dict key, a list element, or a substring; other types raise `TypeError`. */
  function JContains(j: Json, key: string): (r: Result<bool>)
    ensures r.Err? <==> !(j.JObj? || j.JArr? || j.JStr?)
    ensures j.JObj? ==> r == Ok(HasKey(j.entries, key))
  {
    match j
    case JObj(entries) => Ok(HasKey(entries, key))
    case JArr(items) => Ok(JStr(key) in items)
    case JStr(s) => Ok(IsSubstring(key, s))
    case _ => Err(TypeError)
  }

  /** `j[key]` with a string key. */
  function JGetItem(j: Json, key: string): (r: Result<Json>)
    ensures r.Ok? <==> j.JObj? && HasKey(j.entries, key)
    ensures r.Ok? ==> Get(j.entries, key) == Some(r.value)
  {
    match j
    case JObj(entries) =>
      (match Get(entries, key)
       case Some(v) => Ok(v)
       case None => Err(KeyError))
    case _ => Err(TypeError)
  }

  /** `len(j)`; JSON objects are taken to have distinct keys, as Python dicts do. */
  function JLen(j: Json): (r: Result<nat>)
    ensures r.Err? <==> !(j.JObj? || j.JArr? || j.JStr?)
  {
    match j
    case JObj(entries) => Ok(|entries|)
    case JArr(items) => Ok(|items|)
    case JStr(s) => Ok(|s|)
    case _ => Err(TypeError)
  }

  /** `len(v)` of a caller value: containers and strings only. */
  function Len(v: Value): (r: Result<nat>)
    ensures r.Err? <==> !(v.VStr? || v.VList? || v.VTuple? || v.VDict?)
    ensures r.Err? ==> r.error == TypeError
  {
    match v
    case VStr(s) => Ok(|s|)
    case VList(items) => Ok(|items|)
    case VTuple(items) => Ok(|items|)
    case VDict(entries) => Ok(|entries|)
    case _ => Err(TypeError)
  }

  /** `j[0]`: a dict has no integer key 0, so it raises `KeyError`. */
  function JFirst(j: Json): (r: Result<Json>)
    ensures r.Ok? <==> (j.JArr? && |j.items| > 0) || (j.JStr? && |j.s| > 0)
    ensures j.JArr? && |j.items| > 0 ==> r == Ok(j.items[0])
  {
    match j
    case JArr(items) => if |items| > 0 then Ok(items[0]) else Err(IndexError)
    case JStr(s) => if |s| > 0 then Ok(JStr([s[0]])) else Err(IndexError)
    case JObj(_) => Err(KeyError)
    case _ => Err(TypeError)
  }
}
