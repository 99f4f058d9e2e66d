/**
 * `pysnow.query.QueryBuilder` (and its alias `Query`): the first
 * generation of the fluent builder. Its state, `_add_condition`,
 * `_add_logical_operator` and `__str__` are the same as the newer
 * builder's, so they are reused here; the public methods differ in which
 * operand types they accept and in how a datetime is written.
 */
module Query {
  import opened Options
  import opened Strings
  import opened DateTimes
  import Enums
  import opened Values
  import QB = QueryBuilder

  /** The one-operand comparisons this builder offers. */
  datatype Comparison = StartsWith | EndsWith | Contains | NotContains | GreaterThan | LessThan

  function ComparisonOperator(c: Comparison): string {
    match c
    case StartsWith => "STARTSWITH"
    case EndsWith => "ENDSWITH"
    case Contains => "LIKE"
    case NotContains => "NOTLIKE"
    case GreaterThan => ">"
    case LessThan => "<"
  }

  /**
   * `starts_with`, `ends_with`, `contains`, `not_contains` (written
   * `NOTLIKE` here, without the space of the newer builder): a `str`
   * operand only.
   */
  function TextCondition(b: QB.Builder, c: Comparison, v: Value): (r: Result<QB.Builder>)
    requires c !in {GreaterThan, LessThan}
    ensures !Truthy(b.field) ==> r == Err(QueryMissingField)
    ensures Truthy(b.field) && !v.VStr? ==> r == Err(QueryTypeError)
    ensures r.Ok? <==> Truthy(b.field) && v.VStr? && !b.pending && Str(b.field).Ok?
    ensures r.Ok? ==> v.VStr? && Str(b.field).Ok? && r.value.tokens == b.tokens + [Str(b.field).value + ComparisonOperator(c) + v.s]
  {
    QB.AddCondition(b, ComparisonOperator(c), v, [TStr])
  }

  /** `is_empty()`; this builder has no `is_not_empty`. */
  function IsEmpty(b: QB.Builder): (r: Result<QB.Builder>)
    ensures r == QB.EmptinessCondition(b, true)
  {
    QB.AddCondition(b, "ISEMPTY", VStr(""), [TStr, TInt])
  }

  /**
   * `equals(value)` / `not_equals(value)`: the value goes straight to the
   * type check, so an `int` is accepted (and a `bool` or a list is not),
   * and no `IN` form exists.
   */
  function EqualityCondition(b: QB.Builder, negated: bool, v: Value): (r: Result<QB.Builder>)
    ensures !Truthy(b.field) ==> r == Err(QueryMissingField)
    ensures Truthy(b.field) && !(v.VInt? || v.VStr?) ==> r == Err(QueryTypeError)
    ensures r.Ok? <==> Truthy(b.field) && (v.VInt? || v.VStr?) && !b.pending && Str(b.field).Ok?
    ensures r.Ok? ==> (v.VInt? || v.VStr?) && Str(b.field).Ok?
    ensures r.Ok? ==> r.value.tokens == b.tokens + [Str(b.field).value + (if negated then "!=" else "=") + Str(v).value]
  {
    QB.AddCondition(b, if negated then "!=" else "=", v, [TInt, TStr])
  }

  /**
   * The operand of `greater_than` / `less_than`: a datetime is formatted
   * as it stands, with no conversion to UTC; a `str` is refused.
   */
  function OrderingOperand(v: Value): (r: Result<Value>)
    ensures v.VStr? ==> r == Err(QueryTypeError)
    ensures v.VDateTime? ==> r == Ok(VStr(FormatDateTime(v.dt)))
    ensures !v.VStr? && !v.VDateTime? ==> r == Ok(v)
  {
    if HasStrftime(v) then Ok(VStr(FormatDateTime(v.dt)))
    else if v.VStr? then Err(QueryTypeError)
    else Ok(v)
  }

  function OrderingCondition(b: QB.Builder, c: Comparison, v: Value): (r: Result<QB.Builder>)
    requires c in {GreaterThan, LessThan}
    ensures v.VStr? ==> r == Err(QueryTypeError)
    ensures !v.VStr? && !Truthy(b.field) ==> r == Err(QueryMissingField)
    ensures r.Ok? <==> Truthy(b.field) && !b.pending && Str(b.field).Ok? && (v.VInt? || v.VDateTime?)
    ensures r.Ok? && v.VInt? ==>
      r.value.tokens == b.tokens + [Str(b.field).value + ComparisonOperator(c) + IntToString(v.i)]
    ensures r.Ok? && v.VDateTime? ==>
      r.value.tokens == b.tokens + [Str(b.field).value + ComparisonOperator(c) + FormatDateTime(v.dt)]
  {
    var operand :- OrderingOperand(v);
    QB.AddCondition(b, ComparisonOperator(c), operand, [TInt, TStr])
  }

  /** The two builders' `greater_than` / `less_than` with the matching newer comparison. */
  function Newer(c: Comparison): QB.Comparison
    requires c in {GreaterThan, LessThan}
  {
    if c == GreaterThan then QB.GreaterThan else QB.LessThan
  }

  /**
   * The older `greater_than` / `less_than` behave like the newer ones
   * applied to the same wall-clock time with its UTC offset dropped: the
   * older builder writes an aware datetime in its own zone.
   */
  lemma OrderingIgnoresOffset(b: QB.Builder, c: Comparison, v: Value)
    requires c in {GreaterThan, LessThan}
    ensures var naive := if v.VDateTime? then VDateTime(v.dt.(offset := None)) else v;
      OrderingCondition(b, c, v) == QB.OrderingCondition(b, Newer(c), naive)
  {
    OperandIgnoresOffset(v);
    assert ComparisonOperator(c) == QB.ComparisonOperator(Newer(c));
  }

  /** The two generations' ordering operands, once the offset is dropped. */
  lemma OperandIgnoresOffset(v: Value)
    ensures var naive := if v.VDateTime? then VDateTime(v.dt.(offset := None)) else v;
      OrderingOperand(v) == QB.OrderingOperand(naive)
  {
    if v.VDateTime? {
      var naive: DateTime := v.dt.(offset := None);
      assert AsUtc(naive) == Some(naive);
      assert FormatDateTime(naive) == FormatDateTime(v.dt);
    }
  }

  /**
   * `between(start, end)`: the same operand as the newer builder (which
   * does not convert to UTC there either).
   */
  function BetweenCondition(b: QB.Builder, start: Value, end: Value): (r: Result<QB.Builder>)
    ensures r == QB.BetweenCondition(b, start, end)
    ensures QB.BetweenOperand(start, end).Err? ==> r == Err(QueryTypeError)
  {
    var operand :- QB.BetweenOperand(start, end);
    QB.AddCondition(b, "BETWEEN", VStr(operand), [TStr])
  }

  /**
   * Where the two generations part on `equals`: the older one accepts an
   * `int`, the newer one refuses it; both refuse a `bool`.
   */
  lemma EqualsIntDiffers(b: QB.Builder, i: int)
    requires Truthy(b.field) && !b.pending && Str(b.field).Ok?
    ensures EqualityCondition(b, false, VInt(i)).Ok?
    ensures QB.EqualsCondition(b, VInt(i)) == Err(QueryTypeError)
    ensures EqualityCondition(b, false, VBool(true)) == Err(QueryTypeError)
  {
  }

  /** The builder as a value handed to the rest of the library. */
  function AsValue(b: QB.Builder): (v: Value)
    ensures Str(v) == QB.Render(b) && TypeOf(v) == TBuilder(LegacyQueryClass)
  {
    VBuilder(LegacyQueryClass, QB.Render(b))
  }
}
