/**
 * `pysnow.query_builder.QueryBuilder`: a fluent, stateful compiler from
 * method calls to an encoded-query string. The object holds three things:
 * the emitted tokens, the current field, and whether a comparison is
 * pending (its `c_oper`). Every method is a transition on that state that
 * either yields the next state or raises; `Render` is its `__str__`.
 *
 * The `l_oper` attribute is written but never read, so it is not part of
 * the state here.
 */
module QueryBuilder {
  import opened Options
  import opened Strings
  import opened DateTimes
  import Enums
  import opened Values

  datatype Builder = Builder(tokens: seq<string>, field: Value, pending: bool)

  /** A fresh builder: no tokens, no field, no pending comparison. */
  function New(): (b: Builder)
    ensures |b.tokens| == 0 && b.field == VNone && !b.pending
  {
    Builder([], VNone, false)
  }

  /** `field(f)`: sets the current field, whatever its type; nothing else changes. */
  function SetField(b: Builder, f: Value): (r: Builder)
    ensures r.field == f && r.tokens == b.tokens && r.pending == b.pending
  {
    b.(field := f)
  }

  /**
   * `_add_condition`: the checks run in this order: a missing or falsy
   * field, an operand whose exact type is not allowed, a comparison already
   * pending. On success exactly one token `<field><operator><operand>` is
   * appended and a comparison becomes pending.
   */
  function AddCondition(b: Builder, operator: string, operand: Value, types: seq<Values.TypeTag>): (r: Result<Builder>)
    ensures !Truthy(b.field) ==> r == Err(QueryMissingField)
    ensures Truthy(b.field) && !TypeIn(operand, types) ==> r == Err(QueryTypeError)
    ensures Truthy(b.field) && TypeIn(operand, types) && b.pending ==> r == Err(QueryMultipleExpressions)
    ensures r.Ok? <==> Truthy(b.field) && TypeIn(operand, types) && !b.pending && Str(b.field).Ok? && Str(operand).Ok?
    ensures r.Ok? ==>
      && Str(b.field).Ok? && Str(operand).Ok?
      && r.value.pending
      && r.value.field == b.field
      && r.value.tokens == b.tokens + [Str(b.field).value + operator + Str(operand).value]
  {
    if !Truthy(b.field) then Err(QueryMissingField)
    else if !TypeIn(operand, types) then Err(QueryTypeError)
    else if b.pending then Err(QueryMultipleExpressions)
    else
      match (Str(b.field), Str(operand))
      case (Ok(fieldText), Ok(operandText)) =>
        Ok(Builder(b.tokens + [fieldText + operator + operandText], b.field, true))
      case (Err(e), _) => Err(e)
      case (_, Err(e)) => Err(e)
  }

  /**
   * `_add_logical_operator`: only after a comparison; appends the operator
   * and clears both the current field and the pending flag.
   */
  function AddLogical(b: Builder, op: Enums.Boolean): (r: Result<Builder>)
    ensures r.Err? <==> !b.pending
    ensures r.Err? ==> r.error == QueryExpressionError
    ensures r.Ok? ==> r.value == Builder(b.tokens + [Enums.BooleanValue(op)], VNone, false)
  {
    if !b.pending then Err(QueryExpressionError)
    else Ok(Builder(b.tokens + [Enums.BooleanValue(op)], VNone, false))
  }

  /** `AND()`, `OR()`, `NQ()`. */
  function And(b: Builder): Result<Builder> { AddLogical(b, Enums.And) }
  function Or(b: Builder): Result<Builder> { AddLogical(b, Enums.Or) }
  function Nq(b: Builder): Result<Builder> { AddLogical(b, Enums.Nq) }

  /**
   * `order_ascending` / `order_descending`: append `ORDERBY<field>` or
   * `ORDERBYDESC<field>` (the field formatted with `%s`, so `None` gives
   * `ORDERBYNone`) and mark a comparison pending, with neither the
   * missing-field nor the multiple-expression check.
   */
  function OrderBy(b: Builder, order: Enums.Order): (r: Result<Builder>)
    ensures r.Ok? <==> Str(b.field).Ok?
    ensures r.Ok? ==> r.value.pending && r.value.field == b.field
    ensures r.Ok? ==> Str(b.field).Ok? && r.value.tokens == b.tokens + [OrderPrefix(order) + Str(b.field).value]
  {
    var fieldText :- Str(b.field);
    Ok(Builder(b.tokens + [OrderPrefix(order) + fieldText], b.field, true))
  }

  function OrderPrefix(order: Enums.Order): string {
    match order
    case Asc => "ORDERBY"
    case Desc => "ORDERBYDESC"
  }

  /** The comparisons that take one operand. */
  datatype Comparison =
    | StartsWith | EndsWith | Contains | NotContains
    | GreaterThan | GreaterOrEqual | LessThan | LessOrEqual

  function ComparisonOperator(c: Comparison): string {
    match c
    case StartsWith => "STARTSWITH"
    case EndsWith => "ENDSWITH"
    case Contains => "LIKE"
    case NotContains => "NOT LIKE"
    case GreaterThan => ">"
    case GreaterOrEqual => ">="
    case LessThan => "<"
    case LessOrEqual => "<="
  }

  predicate IsOrdering(c: Comparison) {
    c in {GreaterThan, GreaterOrEqual, LessThan, LessOrEqual}
  }

  /**
   * `starts_with`, `ends_with`, `contains`, `not_contains`: a `str` operand only.
   */
  function TextCondition(b: Builder, c: Comparison, v: Value): (r: Result<Builder>)
    requires !IsOrdering(c)
    ensures !Truthy(b.field) ==> r == Err(QueryMissingField)
    ensures Truthy(b.field) && !v.VStr? ==> r == Err(QueryTypeError)
    ensures Truthy(b.field) && v.VStr? && b.pending ==> r == Err(QueryMultipleExpressions)
    ensures r.Ok? <==> Truthy(b.field) && v.VStr? && !b.pending && Str(b.field).Ok?
    ensures r.Ok? ==> v.VStr? && Str(b.field).Ok? && r.value.tokens == b.tokens + [Str(b.field).value + ComparisonOperator(c) + v.s]
  {
    AddCondition(b, ComparisonOperator(c), v, [TStr])
  }

  /**
   * The operand an ordering comparison (`greater_than`, `less_than` and
   * their `_or_equal` forms) passes on: a datetime becomes its UTC reading
   * formatted `%Y-%m-%d %H:%M:%S`; a string is refused before any other
   * check; everything else is passed through to the type check.
   */
  function OrderingOperand(v: Value): (r: Result<Value>)
    ensures v.VStr? ==> r == Err(QueryTypeError)
    ensures v.VDateTime? && v.dt.offset.None? ==> r == Ok(VStr(FormatDateTime(v.dt)))
    ensures v.VDateTime? && AsUtc(v.dt).Some? ==> r == Ok(VStr(FormatDateTime(AsUtc(v.dt).value)))
    ensures !v.VStr? && !v.VDateTime? ==> r == Ok(v)
    ensures v.VDateTime? && AsUtc(v.dt).None? ==> r == Err(OverflowError)
  {
    if HasStrftime(v) then
      match AsUtc(v.dt)
      case None => Err(OverflowError)
      case Some(u) => Ok(VStr(FormatDateTime(u)))
    else if v.VStr? then Err(QueryTypeError)
    else Ok(v)
  }

  function OrderingCondition(b: Builder, c: Comparison, v: Value): (r: Result<Builder>)
    requires IsOrdering(c)
    ensures v.VStr? ==> r == Err(QueryTypeError)
    ensures v.VDateTime? && AsUtc(v.dt).None? ==> r == Err(OverflowError)
    ensures !v.VStr? && !(v.VDateTime? && AsUtc(v.dt).None?) && !Truthy(b.field) ==> r == Err(QueryMissingField)
    ensures r.Ok? <==> Truthy(b.field) && !b.pending && Str(b.field).Ok? && (v.VInt? || (v.VDateTime? && AsUtc(v.dt).Some?))
    ensures r.Ok? && v.VInt? ==>
      r.value.tokens == b.tokens + [Str(b.field).value + ComparisonOperator(c) + IntToString(v.i)]
    ensures r.Ok? && v.VDateTime? ==>
      r.value.tokens == b.tokens + [Str(b.field).value + ComparisonOperator(c) + FormatDateTime(AsUtc(v.dt).value)]
    ensures r.Ok? ==> r.value.pending && r.value.field == b.field
  {
    var operand :- OrderingOperand(v);
    AddCondition(b, ComparisonOperator(c), operand, [TInt, TStr])
  }

  /** `is_empty()` / `is_not_empty()`: an empty `str` operand. */
  function EmptinessCondition(b: Builder, empty: bool): (r: Result<Builder>)
    ensures !Truthy(b.field) ==> r == Err(QueryMissingField)
    ensures Truthy(b.field) && b.pending ==> r == Err(QueryMultipleExpressions)
    ensures r.Ok? <==> Truthy(b.field) && !b.pending && Str(b.field).Ok?
    ensures r.Ok? ==> Str(b.field).Ok? && r.value.tokens == b.tokens + [Str(b.field).value + (if empty then "ISEMPTY" else "ISNOTEMPTY")]
  {
    var operator := if empty then "ISEMPTY" else "ISNOTEMPTY";
    var r := AddCondition(b, operator, VStr(""), [TStr, TInt]);
    assert r.Ok? ==> Str(b.field).value + operator + Str(VStr("")).value == Str(b.field).value + operator;
    r
  }

  /**
   * `equals(data)`: a `str` gives `=`, a `list` gives `IN` with the `str()`
   * of each element joined by commas; any other type (an `int` included)
   * raises `QueryTypeError` before the field is looked at.
   */
  function EqualsCondition(b: Builder, data: Value): (r: Result<Builder>)
    ensures !data.VStr? && !data.VList? ==> r == Err(QueryTypeError)
    ensures data.VList? && StrAll(data.items).Err? ==> r == Err(StrAll(data.items).error)
    ensures (data.VStr? || (data.VList? && StrAll(data.items).Ok?)) && !Truthy(b.field) ==> r == Err(QueryMissingField)
    ensures r.Ok? <==> Truthy(b.field) && !b.pending && Str(b.field).Ok? && (data.VStr? || (data.VList? && StrAll(data.items).Ok?))
    ensures data.VStr? && r.Ok? ==> Str(b.field).Ok? && r.value.tokens == b.tokens + [Str(b.field).value + "=" + data.s]
    ensures data.VList? && r.Ok? ==>
      && StrAll(data.items).Ok? && Str(b.field).Ok?
      && r.value.tokens == b.tokens + [Str(b.field).value + "IN" + Join(",", StrAll(data.items).value)]
  {
    if data.VStr? then AddCondition(b, "=", data, [TInt, TStr])
    else if data.VList? then
      var texts :- StrAll(data.items);
      AddCondition(b, "IN", VStr(Join(",", texts)), [TStr])
    else Err(QueryTypeError)
  }

  /**
   * `not_equals(data)`: a `str` gives `!=`, a `list` gives `NOT IN` with
   * its elements joined by commas (`",".join` raises `TypeError` for a
   * non-`str` element); any other type raises `QueryTypeError`.
   */
  function NotEqualsCondition(b: Builder, data: Value): (r: Result<Builder>)
    ensures !data.VStr? && !data.VList? ==> r == Err(QueryTypeError)
    ensures data.VList? && JoinStrings(",", data.items).Err? ==> r == Err(TypeError)
    ensures (data.VStr? || (data.VList? && JoinStrings(",", data.items).Ok?)) && !Truthy(b.field) ==> r == Err(QueryMissingField)
    ensures r.Ok? <==> Truthy(b.field) && !b.pending && Str(b.field).Ok? && (data.VStr? || (data.VList? && JoinStrings(",", data.items).Ok?))
    ensures data.VStr? && r.Ok? ==> Str(b.field).Ok? && r.value.tokens == b.tokens + [Str(b.field).value + "!=" + data.s]
    ensures data.VList? && r.Ok? ==>
      JoinStrings(",", data.items).Ok? && Str(b.field).Ok? &&
      r.value.tokens == b.tokens + [Str(b.field).value + "NOT IN" + JoinStrings(",", data.items).value]
  {
    if data.VStr? then AddCondition(b, "!=", data, [TInt, TStr])
    else if data.VList? then
      var joined :- JoinStrings(",", data.items);
      AddCondition(b, "NOT IN", VStr(joined), [TStr])
    else Err(QueryTypeError)
  }

  /** `javascript:gs.dateGenerate("<a>")@javascript:gs.dateGenerate("<b>")`. */
  function DateRange(a: string, b: string): string {
    "javascript:gs.dateGenerate(\"" + a + "\")@javascript:gs.dateGenerate(\"" + b + "\")"
  }

  /**
   * The operand of `between(start, end)`: two datetimes give a
   * `dateGenerate` pair formatted without any UTC conversion; two `int`
   * instances (booleans included, printed by `%d` as 1 and 0) give `a@b`;
   * anything else raises `QueryTypeError`.
   */
  function BetweenOperand(start: Value, end: Value): (r: Result<string>)
    ensures r.Ok? <==> (start.VDateTime? && end.VDateTime?) || (IsIntInstance(start) && IsIntInstance(end))
    ensures start.VDateTime? && end.VDateTime? ==>
      r == Ok(DateRange(FormatDateTime(start.dt), FormatDateTime(end.dt)))
    ensures IsIntInstance(start) && IsIntInstance(end) ==>
      r == Ok(IntToString(IntOf(start)) + "@" + IntToString(IntOf(end)))
  {
    if HasStrftime(start) && HasStrftime(end) then
      Ok(DateRange(FormatDateTime(start.dt), FormatDateTime(end.dt)))
    else if IsIntInstance(start) && IsIntInstance(end) then
      var a := PercentD(start).value;
      var z := PercentD(end).value;
      Ok(a + "@" + z)
    else Err(QueryTypeError)
  }

  /**
   * `between(start, end)`: the operand is checked first, so a bad pair
   * raises `QueryTypeError` before the field is looked at; then the checks
   * of `_add_condition`.
   */
  function BetweenCondition(b: Builder, start: Value, end: Value): (r: Result<Builder>)
    ensures BetweenOperand(start, end).Err? ==> r == Err(QueryTypeError)
    ensures BetweenOperand(start, end).Ok? && !Truthy(b.field) ==> r == Err(QueryMissingField)
    ensures BetweenOperand(start, end).Ok? && Truthy(b.field) && b.pending ==> r == Err(QueryMultipleExpressions)
    ensures r.Ok? <==> BetweenOperand(start, end).Ok? && Truthy(b.field) && !b.pending && Str(b.field).Ok?
    ensures r.Ok? ==> r.value.pending && r.value.field == b.field
    ensures r.Ok? ==> BetweenOperand(start, end).Ok? && Str(b.field).Ok?
    ensures r.Ok? ==> r.value.tokens == b.tokens + [Str(b.field).value + "BETWEEN" + BetweenOperand(start, end).value]
  {
    var operand :- BetweenOperand(start, end);
    AddCondition(b, "BETWEEN", VStr(operand), [TStr])
  }

  /**
   * `__str__`: raises `QueryEmpty` with no tokens, then
   * `QueryMissingField` when the current field is `None` (an identity
   * test, unlike the truthiness test of `_add_condition`), then
   * `QueryExpressionError` when no comparison is pending; otherwise the
   * tokens concatenated with no separator. The builder is left as it was.
   */
  function Render(b: Builder): (r: Result<string>)
    ensures |b.tokens| == 0 ==> r == Err(QueryEmpty)
    ensures |b.tokens| > 0 && b.field == VNone ==> r == Err(QueryMissingField)
    ensures |b.tokens| > 0 && b.field != VNone && !b.pending ==> r == Err(QueryExpressionError)
    ensures r.Ok? <==> |b.tokens| > 0 && b.field != VNone && b.pending
  {
    if |b.tokens| == 0 then Err(QueryEmpty)
    else if b.field == VNone then Err(QueryMissingField)
    else if !b.pending then Err(QueryExpressionError)
    else Ok(Join("", b.tokens))
  }

  /** The builder as a value handed to the rest of the library. */
  function AsValue(b: Builder): (v: Value)
    ensures Str(v) == Render(b) && TypeOf(v) == TBuilder(QueryBuilderClass)
  {
    VBuilder(QueryBuilderClass, Render(b))
  }

  // ---- Whole call chains ----

  /** One public method call on the builder. */
  datatype Call =
    | FieldCall(f: Value)
    | CompareCall(c: Comparison, v: Value)
    | EmptyCall(empty: bool)
    | EqualsCall(data: Value)
    | NotEqualsCall(data: Value)
    | BetweenCall(start: Value, end: Value)
    | LogicalCall(op: Enums.Boolean)
    | OrderCall(order: Enums.Order)

  function Apply(b: Builder, call: Call): Result<Builder> {
    match call
    case FieldCall(f) => Ok(SetField(b, f))
    case CompareCall(c, v) => if IsOrdering(c) then OrderingCondition(b, c, v) else TextCondition(b, c, v)
    case EmptyCall(empty) => EmptinessCondition(b, empty)
    case EqualsCall(data) => EqualsCondition(b, data)
    case NotEqualsCall(data) => NotEqualsCondition(b, data)
    case BetweenCall(start, end) => BetweenCondition(b, start, end)
    case LogicalCall(op) => AddLogical(b, op)
    case OrderCall(order) => OrderBy(b, order)
  }

  /** A chain of calls, stopping at the first one that raises. */
  function Run(b: Builder, calls: seq<Call>): Result<Builder>
    decreases |calls|
  {
    if |calls| == 0 then Ok(b)
    else
      var next :- Apply(b, calls[0]);
      Run(next, calls[1..])
  }

  /** What a call contributes to the query, independently of the builder state. */
  datatype Piece = NoToken | Expression | Operator(op: Enums.Boolean)

  function PieceOf(call: Call): Piece {
    match call
    case FieldCall(_) => NoToken
    case LogicalCall(op) => Operator(op)
    case _ => Expression
  }

  /** The pieces a chain emits, in order. */
  function Pieces(calls: seq<Call>): seq<Piece>
    decreases |calls|
  {
    if |calls| == 0 then []
    else (if PieceOf(calls[0]).NoToken? then [] else [PieceOf(calls[0])]) + Pieces(calls[1..])
  }

  /**
   * The shape of every builder reachable by calls that did not raise:
   * one token per piece; an operator token is exactly the operator's text
   * and follows an expression; a comparison is pending exactly when the
   * last piece is an expression.
   */
  predicate Shaped(b: Builder, pieces: seq<Piece>) {
    && |b.tokens| == |pieces|
    && (forall i :: 0 <= i < |pieces| ==> !pieces[i].NoToken?)
    && (forall i :: 0 <= i < |pieces| && pieces[i].Operator? ==> b.tokens[i] == Enums.BooleanValue(pieces[i].op))
    && Grammatical(pieces)
    && (b.pending <==> |pieces| > 0 && pieces[|pieces| - 1] == Expression)
  }

  /** Every operator piece directly follows an expression, read from the end. */
  predicate Grammatical(pieces: seq<Piece>)
    decreases |pieces|
  {
    |pieces| == 0 ||
    (&& Grammatical(pieces[..|pieces| - 1])
     && (pieces[|pieces| - 1].Operator? ==> |pieces| >= 2 && pieces[|pieces| - 2] == Expression))
  }

  lemma {:induction false} GrammaticalAdjacent(pieces: seq<Piece>)
    requires Grammatical(pieces)
    ensures forall i :: 0 <= i < |pieces| && pieces[i].Operator? ==> i > 0 && pieces[i - 1] == Expression
    decreases |pieces|
  {
    if |pieces| > 0 {
      var front := pieces[..|pieces| - 1];
      GrammaticalAdjacent(front);
      forall i | 0 <= i < |pieces| && pieces[i].Operator?
        ensures i > 0 && pieces[i - 1] == Expression
      {
        if i < |pieces| - 1 {
          assert pieces[i] == front[i] && pieces[i - 1] == front[i - 1];
        }
      }
    }
  }

  /** `next` is `b` with one more token and a comparison pending. */
  predicate AppendsOne(b: Builder, next: Builder) {
    |next.tokens| == |b.tokens| + 1 && next.tokens[..|b.tokens|] == b.tokens && next.pending
  }

  /** Every call that emits an expression appends exactly one token and leaves a comparison pending. */
  lemma ApplyAppendsOne(b: Builder, call: Call)
    requires Apply(b, call).Ok? && PieceOf(call) == Expression
    ensures AppendsOne(b, Apply(b, call).value)
  {
    var next := Apply(b, call).value;
    match call
    case CompareCall(c, v) =>
      if IsOrdering(c) {
        var operand := OrderingOperand(v).value;
        assert next == AddCondition(b, ComparisonOperator(c), operand, [TInt, TStr]).value;
      }
    case BetweenCall(start, end) =>
      assert next == AddCondition(b, "BETWEEN", VStr(BetweenOperand(start, end).value), [TStr]).value;
    case EqualsCall(data) =>
      if data.VList? {
        assert next == AddCondition(b, "IN", VStr(Join(",", StrAll(data.items).value)), [TStr]).value;
      }
    case NotEqualsCall(data) =>
      if data.VList? {
        assert next == AddCondition(b, "NOT IN", VStr(JoinStrings(",", data.items).value), [TStr]).value;
      }
    case _ =>
  }

  /** Appending an expression token keeps the shape. */
  lemma ExpressionStep(b: Builder, pieces: seq<Piece>, next: Builder)
    requires Shaped(b, pieces) && AppendsOne(b, next)
    ensures Shaped(next, pieces + [Expression])
  {
    var extended := pieces + [Expression];
    assert extended[..|extended| - 1] == pieces;
    forall i | 0 <= i < |pieces| && pieces[i].Operator?
      ensures next.tokens[i] == Enums.BooleanValue(pieces[i].op)
    {
      assert next.tokens[i] == b.tokens[i];
    }
  }

  lemma ApplyShaped(b: Builder, pieces: seq<Piece>, call: Call)
    requires Shaped(b, pieces) && Apply(b, call).Ok?
    ensures Shaped(Apply(b, call).value, pieces + (if PieceOf(call).NoToken? then [] else [PieceOf(call)]))
  {
    var next := Apply(b, call).value;
    var extended := pieces + (if PieceOf(call).NoToken? then [] else [PieceOf(call)]);
    match call
    case FieldCall(_) =>
      assert extended == pieces;
    case LogicalCall(op) =>
      assert extended[..|extended| - 1] == pieces;
    case _ =>
      ApplyAppendsOne(b, call);
      ExpressionStep(b, pieces, next);
  }

  lemma RunStep(b: Builder, calls: seq<Call>)
    requires |calls| > 0 && Run(b, calls).Ok?
    ensures Apply(b, calls[0]).Ok? && Run(b, calls) == Run(Apply(b, calls[0]).value, calls[1..])
    ensures Pieces(calls) == (if PieceOf(calls[0]).NoToken? then [] else [PieceOf(calls[0])]) + Pieces(calls[1..])
  {
  }

  lemma ConcatAssociative(a: seq<Piece>, b: seq<Piece>, c: seq<Piece>)
    ensures a + b + c == a + (b + c)
  {
  }

  lemma {:induction false} RunShaped(b: Builder, pieces: seq<Piece>, calls: seq<Call>, e: Builder)
    requires Shaped(b, pieces) && Run(b, calls) == Ok(e)
    ensures Shaped(e, pieces + Pieces(calls))
    decreases |calls|
  {
    if |calls| == 0 {
      assert pieces + Pieces(calls) == pieces;
    } else {
      var head := if PieceOf(calls[0]).NoToken? then [] else [PieceOf(calls[0])];
      var rest := Pieces(calls[1..]);
      RunStep(b, calls);
      ApplyShaped(b, pieces, calls[0]);
      RunShaped(Apply(b, calls[0]).value, pieces + head, calls[1..], e);
      ConcatAssociative(pieces, head, rest);
    }
  }

  /**
   * A query string rendered from any call chain started on a fresh
   * builder is the concatenation of one token per emitting call. Its
   * logical operators never come first, never come last and never follow
   * one another.
   */
  lemma RenderedShape(calls: seq<Call>)
    requires Run(New(), calls).Ok? && Render(Run(New(), calls).value).Ok?
    ensures var b := Run(New(), calls).value;
      var pieces := Pieces(calls);
      && Render(b).value == Join("", b.tokens)
      && |b.tokens| == |pieces| > 0
      && pieces[0] == Expression
      && pieces[|pieces| - 1] == Expression
      && forall i :: 0 < i < |pieces| && pieces[i].Operator? ==> pieces[i - 1] == Expression
  {
    var b := Run(New(), calls).value;
    RunFromNew(calls, b);
    ShapedRender(b, Pieces(calls));
  }

  /** A chain started on a fresh builder leaves the invariant over its own pieces. */
  lemma RunFromNew(calls: seq<Call>, b: Builder)
    requires Run(New(), calls) == Ok(b)
    ensures Shaped(b, Pieces(calls))
  {
    assert Shaped(New(), []);
    RunShaped(New(), [], calls, b);
    EmptyPrefix(Pieces(calls));
  }

  /** A shaped builder that renders writes its tokens, which start and end with an expression. */
  lemma ShapedRender(b: Builder, pieces: seq<Piece>)
    requires Shaped(b, pieces) && Render(b).Ok?
    ensures Render(b).value == Join("", b.tokens)
    ensures |b.tokens| == |pieces| > 0
    ensures pieces[0] == Expression && pieces[|pieces| - 1] == Expression
    ensures forall i :: 0 < i < |pieces| && pieces[i].Operator? ==> pieces[i - 1] == Expression
  {
    GrammaticalAdjacent(pieces);
    assert !pieces[0].NoToken? && !pieces[0].Operator?;
  }

  lemma EmptyPrefix<T>(s: seq<T>)
    ensures [] + s == s
  {
  }

  /** `field("test").equals("test").OR().field("test2").equals("test")`. */
  lemma OrQueryExample()
    ensures var calls := [FieldCall(VStr("test")), EqualsCall(VStr("test")), LogicalCall(Enums.Or),
                          FieldCall(VStr("test2")), EqualsCall(VStr("test"))];
      && Run(New(), calls).Ok?
      && Render(Run(New(), calls).value) == Ok("test=test" + "^OR" + "test2=test")
  {
    OrQueryTokens();
    var t := ["test=test", "^OR", "test2=test"];
    assert t[1..] == ["^OR", "test2=test"] && t[1..][1..] == ["test2=test"];
    assert Join("", t[1..]) == "^OR" + "" + "test2=test";
    assert Join("", t) == "test=test" + "" + ("^OR" + "" + "test2=test");
    assert "test=test" + "" == "test=test" && "^OR" + "" == "^OR";
    assert Join("", t) == "test=test" + "^OR" + "test2=test";
    assert Render(Builder(t, VStr("test2"), true)) == Ok(Join("", t));
  }

  lemma OrQueryTokens()
    ensures var calls := [FieldCall(VStr("test")), EqualsCall(VStr("test")), LogicalCall(Enums.Or),
                          FieldCall(VStr("test2")), EqualsCall(VStr("test"))];
      Run(New(), calls) == Ok(Builder(["test=test", "^OR", "test2=test"], VStr("test2"), true))
  {
    var calls := [FieldCall(VStr("test")), EqualsCall(VStr("test")), LogicalCall(Enums.Or),
                  FieldCall(VStr("test2")), EqualsCall(VStr("test"))];
    var b1 := SetField(New(), VStr("test"));
    assert Truthy(b1.field) && TypeIn(VStr("test"), [TInt, TStr]);
    var b2 := EqualsCondition(b1, VStr("test")).value;
    assert "test" + "=" + "test" == "test=test";
    assert b2.tokens == [] + ["test=test"];
    var b3 := AddLogical(b2, Enums.Or).value;
    var b4 := SetField(b3, VStr("test2"));
    assert Truthy(b4.field) && !b4.pending;
    var b5 := EqualsCondition(b4, VStr("test")).value;
    assert "test2" + "=" + "test" == "test2=test";
    assert b5.tokens == ["test=test", "^OR"] + ["test2=test"];
    assert calls[1..][1..][1..][1..][1..] == [];
    assert Run(b5, []) == Ok(b5);
    assert Run(b4, calls[1..][1..][1..][1..]) == Ok(b5);
    assert Run(b3, calls[1..][1..][1..]) == Ok(b5);
    assert Run(b2, calls[1..][1..]) == Ok(b5);
    assert Run(b1, calls[1..]) == Ok(b5);
    assert Apply(New(), calls[0]) == Ok(b1);
    assert Run(New(), calls) == Ok(b5);
    assert b5 == Builder(["test=test", "^OR", "test2=test"], VStr("test2"), true);
  }

  /** A query may not end in a logical operator: `__str__` finds no field. */
  lemma TrailingOperatorExample()
    ensures var calls := [FieldCall(VStr("a")), EqualsCall(VStr("b")), LogicalCall(Enums.And)];
      && Run(New(), calls).Ok?
      && Render(Run(New(), calls).value) == Err(QueryMissingField)
  {
    var b2 := EqualsCondition(SetField(New(), VStr("a")), VStr("b")).value;
    assert b2.pending;
  }
}
