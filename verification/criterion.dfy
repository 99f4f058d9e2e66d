/**
 * `pysnow.criterion`: the expression-tree query API. Operator methods on a
 * `Field` build a tree of criteria; `get_query` walks the tree and writes
 * the encoded query. Constants are wrapped on the way in (`wrap_constant`)
 * and re-checked on the way out.
 */
module Criterion {
  import opened Options
  import opened Strings
  import opened DateTimes
  import Enums
  import opened Values

  /** What a `BasicCriterion` puts between its two sides: an enum member's value or a literal. */
  datatype Comparator =
    | Equal(e: Enums.Equality)
    | Connective(b: Enums.Boolean)
    | Named(text: string)

  /** `getattr(comparator, "value", comparator)`. */
  function ComparatorText(c: Comparator): string {
    match c
    case Equal(e) => Enums.EqualityValue(e)
    case Connective(b) => Enums.BooleanValue(b)
    case Named(text) => text
  }

  /** The suffix criteria that take no operand. */
  datatype Check = Empty | NotEmpty | Anything | EmptyString

  function CheckSuffix(k: Check): string {
    match k
    case Empty => "ISEMPTY"
    case NotEmpty => "ISNOTEMPTY"
    case Anything => "ANYTHING"
    case EmptyString => "EMPTYSTRING"
  }

  /**
   * A node of the tree. The four wrappers hold the caller's constant as
   * given; `Member` is a `DateTimeOn` member, which `wrap_constant` passes
   * through unwrapped; `On` with `negated` is `DateTimeNotOnCriterion`.
   */
  datatype Term =
    | FieldTerm(name: Value)
    | IntWrapper(value: Value)
    | StrWrapper(value: Value)
    | DateTimeWrapper(value: Value)
    | ListWrapper(value: Value, types: seq<TypeTag>)
    | Member(on: Enums.DateTimeOn)
    | Basic(comparator: Comparator, left: Term, right: Term)
    | Checked(term: Term, check: Check)
    | Between(term: Term, start: Term, end: Term)
    | On(term: Term, criteria: Term, negated: bool)
    | OrderBy(term: Term, direction: Value)

  predicate IsWrapper(t: Term) {
    t.IntWrapper? || t.StrWrapper? || t.DateTimeWrapper? || t.ListWrapper?
  }

  /** Instances of `Criterion` (fields included), which alone define `&`, `|` and `^`. */
  predicate IsCriterion(t: Term) {
    !IsWrapper(t) && !t.Member?
  }

  /** The constant a wrapped node stands for. */
  function Unwrap(t: Term): Option<Value> {
    match t
    case FieldTerm(name) => Some(VField(name))
    case IntWrapper(v) => Some(v)
    case StrWrapper(v) => Some(v)
    case DateTimeWrapper(v) => Some(v)
    case ListWrapper(v, _) => Some(v)
    case Member(on) => Some(VOn(on))
    case _ => None
  }

  /** The exact types the operator methods hand to `wrap_constant`. */
  predicate AllowedTypes(types: seq<TypeTag>) {
    forall t :: t in types ==> t == TInt || t == TStr || t == TDateTime || t == TField || t == TDateTimeOn
  }

  /**
   * `Term.wrap_constant`. With `list_type`, a list or tuple whose every
   * element has an allowed exact type; otherwise a value whose exact type
   * is allowed, wrapped by kind (a datetime, an `int`, a `str`) or passed
   * through (a `Field`, a `DateTimeOn` member). Every accepted constant can
   * be read back from its node.
   */
  function WrapConstant(value: Value, types: seq<TypeTag>, listType: bool): (r: Result<Term>)
    requires AllowedTypes(types)
    ensures listType ==>
      (r.Ok? <==> (value.VList? || value.VTuple?) && forall i :: 0 <= i < |value.items| ==> TypeIn(value.items[i], types))
    ensures listType && r.Ok? ==> r.value == ListWrapper(value, types)
    ensures !listType ==> (r.Ok? <==> TypeIn(value, types))
    ensures r.Err? ==> r.error == QueryTypeError
    ensures r.Ok? ==> Unwrap(r.value) == Some(value)
    ensures r.Ok? && !listType ==> !r.value.ListWrapper?
  {
    if listType then
      if (value.VList? || value.VTuple?) && forall i :: 0 <= i < |value.items| ==> TypeIn(value.items[i], types) then
        Ok(ListWrapper(value, types))
      else Err(QueryTypeError)
    else if HasStrftime(value) && TDateTime in types then Ok(DateTimeWrapper(value))
    else if !TypeIn(value, types) then Err(QueryTypeError)
    else if IsIntInstance(value) then Ok(IntWrapper(value))
    else if value.VStr? then Ok(StrWrapper(value))
    else if value.VField? then Ok(FieldTerm(value.name))
    else Ok(Member(value.on))
  }

  // ---- Building criteria ----

  /** The binary operator methods of `Term`. */
  datatype Test =
    | Eq | Ne | Gt | Gte | Lt | Lte
    | StartsWith | EndsWith | Like | NotLike
    | IsIn | NotIn | IsSame | IsDifferent

  function TestComparator(test: Test): Comparator {
    match test
    case Eq => Equal(Enums.Eq)
    case Ne => Equal(Enums.Ne)
    case Gt => Equal(Enums.Gt)
    case Gte => Equal(Enums.Gte)
    case Lt => Equal(Enums.Lt)
    case Lte => Equal(Enums.Lte)
    case StartsWith => Named("STARTSWITH")
    case EndsWith => Named("ENDSWITH")
    case Like => Named("LIKE")
    case NotLike => Named("NOT LIKE")
    case IsIn => Named("IN")
    case NotIn => Named("NOT IN")
    case IsSame => Named("SAMEAS")
    case IsDifferent => Named("NSAMEAS")
  }

  function TestTypes(test: Test): (types: seq<TypeTag>)
    ensures AllowedTypes(types)
  {
    match test
    case Eq => [TInt, TStr]
    case Ne => [TInt, TStr]
    case Gt => [TInt, TDateTime]
    case Gte => [TInt, TDateTime]
    case Lt => [TInt, TDateTime]
    case Lte => [TInt, TDateTime]
    case StartsWith => [TStr]
    case EndsWith => [TStr]
    case Like => [TStr]
    case NotLike => [TStr]
    case IsIn => [TInt, TStr]
    case NotIn => [TInt, TStr]
    case IsSame => [TField]
    case IsDifferent => [TField]
  }

  /**
   * `eq`, `ne`, `gt`, ... and the Python operators `==`, `!=`, `>`, ...
   * (`contains` is `like`, `not_contains` is `not_like`): a
   * `BasicCriterion` with the wrapped operand on the right. A
   * `DateTimeOn` member is not a `Term` and has none of these methods.
   */
  function Compare(self: Term, test: Test, other: Value): (r: Result<Term>)
    ensures self.Member? ==> r == Err(AttributeError)
    ensures !self.Member? ==> (r.Ok? <==> WrapConstant(other, TestTypes(test), test == IsIn || test == NotIn).Ok?)
    ensures r.Ok? ==> r.value.Basic? && r.value.left == self && Unwrap(r.value.right) == Some(other)
    ensures r.Ok? ==> r.value.comparator == TestComparator(test)
  {
    if self.Member? then Err(AttributeError)
    else
      var w :- WrapConstant(other, TestTypes(test), test == IsIn || test == NotIn);
      Ok(Basic(TestComparator(test), self, w))
  }

  /** `is_empty`, `is_not_empty`, `is_anything` (its argument is ignored), `is_empty_string`. */
  function Checking(self: Term, check: Check): (r: Result<Term>)
    ensures r.Ok? <==> !self.Member?
    ensures r.Ok? ==> r.value == Checked(self, check)
  {
    if self.Member? then Err(AttributeError) else Ok(Checked(self, check))
  }

  /** `between(lower, upper)`: both bounds wrapped as `int` or datetime, lower first. */
  function BetweenOf(self: Term, lower: Value, upper: Value): (r: Result<Term>)
    ensures r.Ok? <==> !self.Member? && TypeIn(lower, [TInt, TDateTime]) && TypeIn(upper, [TInt, TDateTime])
    ensures r.Ok? ==> r.value.Between? && Unwrap(r.value.start) == Some(lower) && Unwrap(r.value.end) == Some(upper)
  {
    if self.Member? then Err(AttributeError)
    else
      var start :- WrapConstant(lower, [TInt, TDateTime], false);
      var end :- WrapConstant(upper, [TInt, TDateTime], false);
      Ok(Between(self, start, end))
  }

  /** `on(other)` / `not_on(other)`: a datetime or a `DateTimeOn` member. */
  function OnDate(self: Term, other: Value, negated: bool): (r: Result<Term>)
    ensures r.Ok? <==> !self.Member? && (other.VDateTime? || other.VOn?)
    ensures r.Ok? ==> r.value.On? && r.value.negated == negated && Unwrap(r.value.criteria) == Some(other)
  {
    if self.Member? then Err(AttributeError)
    else
      var w :- WrapConstant(other, [TDateTime, TDateTimeOn], false);
      Ok(On(self, w, negated))
  }

  /** `order(direction)`: the direction is only looked at when the query is written. */
  function Ordering(self: Term, direction: Value): (r: Result<Term>)
    ensures r.Ok? <==> !self.Member?
    ensures r.Ok? ==> r.value == OrderBy(self, direction)
  {
    if self.Member? then Err(AttributeError) else Ok(OrderBy(self, direction))
  }

  /**
   * `AND`/`OR`/`NQ` and `&`/`|`/`^`: only a criterion has these operators;
   * a wrapper or a `DateTimeOn` member on the left raises `TypeError`.
   */
  function Combine(left: Term, op: Enums.Boolean, right: Term): (r: Result<Term>)
    ensures r.Ok? <==> IsCriterion(left)
    ensures r.Ok? ==> r.value == Basic(Connective(op), left, right) && IsCriterion(r.value)
  {
    if IsCriterion(left) then Ok(Basic(Connective(op), left, right)) else Err(TypeError)
  }

  /**
   * `Criterion.any(terms)` (`op` is `Or`) and `Criterion.all(terms)` (`op`
   * is `And`): a left fold starting from `EmptyCriterion`, which gives
   * back the first term unchanged; `None` stands for the `EmptyCriterion`
   * an empty sequence leaves.
   */
  function Fold(terms: seq<Term>, op: Enums.Boolean): (r: Result<Option<Term>>)
    ensures r.Ok? ==> (r.value.None? <==> |terms| == 0)
    ensures |terms| == 1 ==> r == Ok(Some(terms[0]))
    decreases |terms|
  {
    if |terms| == 0 then Ok(None)
    else
      var prev :- Fold(terms[..|terms| - 1], op);
      match prev
      case None => Ok(Some(terms[|terms| - 1]))
      case Some(p) =>
        var next :- Combine(p, op, terms[|terms| - 1]);
        Ok(Some(next))
  }

  /** `Table(name).field(x)`, `table.x` and `table[x]`: a `Field`, whose `str()` is its name. */
  function TableField(name: Value): (t: Term)
    ensures IsCriterion(t)
    ensures name.VStr? ==> Query(t) == Ok(name.s)
    ensures !name.VStr? ==> Query(t) == Err(TypeError)
  {
    FieldTerm(name)
  }

  // ---- Writing the query ----

  /** The keyword arguments `get_query` passes down the tree. */
  datatype Context = Context(dateOnly: bool, extra: Option<string>)

  const Plain := Context(false, None)

  /** `javascript:gs.dateGenerate("<text>")`. */
  function DateGenerate(text: string): string {
    "javascript:gs.dateGenerate(\"" + text + "\")"
  }

  /** The date (or date and time) text, followed by `", "<extra>` when `extra_param` is truthy. */
  function DateText(u: DateTime, ctx: Context): string {
    (if ctx.dateOnly then FormatDate(u.date) else FormatDateTime(u))
    + (if ctx.extra.Some? && |ctx.extra.value| > 0 then "\", \"" + ctx.extra.value else "")
  }

  /** `"<left><comparator><right>".format(...)` of two already written sides. */
  function Joined(left: Value, middle: string, right: Value): (r: Result<Value>)
    ensures r.Ok? <==> Str(left).Ok? && Str(right).Ok?
    ensures r.Ok? ==> r.value == VStr(Str(left).value + middle + Str(right).value)
  {
    var l :- Str(left);
    var rt :- Str(right);
    Ok(VStr(l + middle + rt))
  }

  /**
   * The range text of `BetweenCriterion`: `%s@%s` of two datetime
   * wrappers' queries, `%d@%d` of two integer wrappers' queries, and
   * `QueryTypeError` for anything else, judged by the wrappers' classes.
   */
  function Range(start: Term, end: Term, sq: Value, eq: Value): (r: Result<string>)
    ensures !(start.DateTimeWrapper? && end.DateTimeWrapper?) && !(start.IntWrapper? && end.IntWrapper?) ==>
      r == Err(QueryTypeError)
  {
    if start.DateTimeWrapper? && end.DateTimeWrapper? then
      var s :- Str(sq);
      var e :- Str(eq);
      Ok(s + "@" + e)
    else if start.IntWrapper? && end.IntWrapper? then
      var s :- PercentD(sq);
      var e :- PercentD(eq);
      Ok(s + "@" + e)
    else Err(QueryTypeError)
  }

  /** The query of `BetweenCriterion` once its three parts are written. */
  function BetweenText(tq: Value, start: Term, end: Term, sq: Value, eq: Value): (r: Result<Value>)
    ensures r.Ok? <==> Range(start, end, sq, eq).Ok? && Str(tq).Ok?
    ensures r.Ok? ==> r.value == VStr(Str(tq).value + "BETWEEN" + Range(start, end, sq, eq).value)
  {
    var range :- Range(start, end, sq, eq);
    Joined(tq, "BETWEEN", VStr(range))
  }

  /** `ON` for `on`, `NOTON` for `not_on`. */
  function OnKeyword(negated: bool): string {
    if negated then "NOTON" else "ON"
  }

  /** The contexts `on` writes a datetime in: its date, then `start` or `end`. */
  const StartOfDay := Context(true, Some("start"))
  const EndOfDay := Context(true, Some("end"))

  /** The query of `on` / `not_on` with a datetime once the field and the day's two ends are written. */
  function CustomText(tq: Value, keyword: string, sq: Value, eq: Value): (r: Result<Value>)
    ensures r.Ok? <==> Str(tq).Ok? && Str(sq).Ok? && Str(eq).Ok?
    ensures r.Ok? ==> r.value == VStr(Str(tq).value + (keyword + "custom@") + (Str(sq).value + "@" + Str(eq).value))
  {
    var ends :- Joined(sq, "@", eq);
    Joined(tq, keyword + "custom@", ends)
  }

  /** `direction == Order.asc or (isinstance(direction, str) and direction.lower() == "asc")`. */
  predicate IsAscending(direction: Value) {
    direction == VOrder(Enums.Asc) || (direction.VStr? && Lower(direction.s) == "asc")
  }

  predicate IsDescending(direction: Value) {
    direction == VOrder(Enums.Desc) || (direction.VStr? && Lower(direction.s) == "desc")
  }

  /**
   * `get_query(**kwargs)`: the value each node writes, a string for every
   * criterion and the integer itself for an integer wrapper. Sub-terms are
   * written before anything is checked or formatted, in the order the
   * source evaluates them; every wrapper re-checks its constant.
   */
  function Render(t: Term, ctx: Context): (r: Result<Value>)
    ensures t.FieldTerm? ==> r == Ok(t.name)
    ensures t.Member? ==> r == Err(AttributeError)
    ensures r.Ok? && !t.FieldTerm? && !t.IntWrapper? ==> r.value.VStr?
    ensures r.Ok? && t.IntWrapper? ==> r.value == t.value && IsIntInstance(r.value)
    decreases t
  {
    match t
    case FieldTerm(name) => Ok(name)
    case IntWrapper(v) => if IsIntInstance(v) then Ok(v) else Err(QueryTypeError)
    case StrWrapper(v) => if v.VStr? then Ok(v) else Err(QueryTypeError)
    case DateTimeWrapper(v) =>
      if !HasStrftime(v) then Err(QueryTypeError)
      else
        (match AsUtc(v.dt)
         case None => Err(OverflowError)
         case Some(u) => Ok(VStr(DateGenerate(DateText(u, ctx)))))
    case ListWrapper(v, types) =>
      if (v.VList? || v.VTuple?) && forall i :: 0 <= i < |v.items| ==> TypeIn(v.items[i], types) then
        var texts :- StrAll(v.items);
        Ok(VStr(Join(",", texts)))
      else Err(QueryTypeError)
    case Member(_) => Err(AttributeError)
    case Basic(c, left, right) =>
      var lq :- Render(left, ctx);
      var rq :- Render(right, ctx);
      Joined(lq, ComparatorText(c), rq)
    case Checked(term, check) =>
      var q :- Render(term, ctx);
      Joined(q, CheckSuffix(check), VStr(""))
    case Between(term, start, end) =>
      var tq :- Render(term, ctx);
      var sq :- Render(start, ctx);
      var eq :- Render(end, ctx);
      BetweenText(tq, start, end, sq, eq)
    case On(term, criteria, negated) =>
      var tq :- Render(term, ctx);
      var keyword := OnKeyword(negated);
      if criteria.Member? then
        Joined(tq, keyword, VStr(Enums.DateTimeOnValue(criteria.on)))
      else
        var sq :- Render(criteria, StartOfDay);
        var eq :- Render(criteria, EndOfDay);
        CustomText(tq, keyword, sq, eq)
    case OrderBy(term, direction) =>
      var tq :- Render(term, ctx);
      if IsAscending(direction) then Joined(VStr("ORDERBY"), "", tq)
      else if IsDescending(direction) then Joined(VStr("ORDERBYDESC"), "", tq)
      else Err(QueryTypeError)
  }

  /** `str(criterion)`: `__str__` returns `get_query()`, and `str()` refuses a non-string. */
  function Query(t: Term): (r: Result<string>)
    ensures r.Ok? <==> Render(t, Plain).Ok? && Render(t, Plain).value.VStr?
    ensures r.Ok? ==> Render(t, Plain) == Ok(VStr(r.value))
  {
    var q :- Render(t, Plain);
    if q.VStr? then Ok(q.s) else Err(TypeError)
  }

  // ---- What the written query looks like ----

  /**
   * A constant accepted by `wrap_constant` passes its wrapper's re-check:
   * the node writes the constant itself (an integer or a string), the
   * comma-joined `str()` of a list's elements, or a `dateGenerate` call
   * on its UTC reading; only a datetime outside the calendar after
   * conversion to UTC fails.
   */
  lemma WrappedRenders(value: Value, types: seq<TypeTag>, listType: bool, ctx: Context)
    requires AllowedTypes(types) && WrapConstant(value, types, listType).Ok?
    ensures var w := WrapConstant(value, types, listType).value;
      && (value.VInt? ==> Render(w, ctx) == Ok(value))
      && (value.VStr? ==> Render(w, ctx) == Ok(value))
      && (value.VField? ==> Render(w, ctx) == Ok(value.name))
      && (value.VDateTime? && !listType ==>
            Render(w, ctx) == (match AsUtc(value.dt)
                               case None => Err(OverflowError)
                               case Some(u) => Ok(VStr(DateGenerate(DateText(u, ctx))))))
      && (listType && StrAll(value.items).Ok? ==> Render(w, ctx) == Ok(VStr(Join(",", StrAll(value.items).value))))
  {
  }

  /**
   * A comparison of a field with a string writes the field's name, the
   * comparator (the `Equality` member's value or the literal the method
   * passes) and the string, with nothing in between.
   */
  lemma CompareStrRenders(name: string, test: Test, v: string)
    requires TStr in TestTypes(test) && test != IsIn && test != NotIn
    ensures Compare(FieldTerm(VStr(name)), test, VStr(v)).Ok?
    ensures Query(Compare(FieldTerm(VStr(name)), test, VStr(v)).value)
      == Ok(name + ComparatorText(TestComparator(test)) + v)
  {
    var w := WrapConstant(VStr(v), TestTypes(test), false).value;
    WrappedRenders(VStr(v), TestTypes(test), false, Plain);
    RenderBasic(TestComparator(test), FieldTerm(VStr(name)), w, Plain);
  }

  /** A comparison of a field with an integer writes the integer in decimal after the comparator. */
  lemma CompareIntRenders(name: string, test: Test, n: int)
    requires TInt in TestTypes(test) && test != IsIn && test != NotIn
    ensures Compare(FieldTerm(VStr(name)), test, VInt(n)).Ok?
    ensures Query(Compare(FieldTerm(VStr(name)), test, VInt(n)).value)
      == Ok(name + ComparatorText(TestComparator(test)) + IntToString(n))
  {
    var w := WrapConstant(VInt(n), TestTypes(test), false).value;
    WrappedRenders(VInt(n), TestTypes(test), false, Plain);
    RenderBasic(TestComparator(test), FieldTerm(VStr(name)), w, Plain);
  }

  /**
   * `is_in` / `not_in` with a list or tuple of integers and strings write
   * `IN` or `NOT IN` and the `str()` of the elements joined by commas.
   */
  lemma InRenders(name: string, test: Test, items: Value)
    requires test == IsIn || test == NotIn
    requires items.VList? || items.VTuple?
    requires forall i :: 0 <= i < |items.items| ==> items.items[i].VInt? || items.items[i].VStr?
    ensures Compare(FieldTerm(VStr(name)), test, items).Ok?
    ensures StrAll(items.items).Ok?
    ensures Query(Compare(FieldTerm(VStr(name)), test, items).value)
      == Ok(name + (if test == IsIn then "IN" else "NOT IN") + Join(",", StrAll(items.items).value))
  {
    assert forall i :: 0 <= i < |items.items| ==> TypeIn(items.items[i], TestTypes(test));
    StrAllScalars(items.items);
    var w := WrapConstant(items, TestTypes(test), true).value;
    var text := Join(",", StrAll(items.items).value);
    WrappedRenders(items, TestTypes(test), true, Plain);
    assert Render(w, Plain) == Ok(VStr(text));
    assert ComparatorText(TestComparator(test)) == if test == IsIn then "IN" else "NOT IN";
    RenderBasic(TestComparator(test), FieldTerm(VStr(name)), w, Plain);
  }

  /** `is_empty`, `is_not_empty`, `is_anything` and `is_empty_string` on a field append their keyword to its name. */
  lemma CheckRenders(name: string, k: Check)
    ensures Checking(FieldTerm(VStr(name)), k).Ok?
    ensures Query(Checking(FieldTerm(VStr(name)), k).value) == Ok(name + CheckSuffix(k))
  {
    assert Str(VStr("")) == Ok("");
    assert name + CheckSuffix(k) + "" == name + CheckSuffix(k);
  }

  /** Two equalities joined by `AND`. */
  lemma AndExample()
    ensures var left := Compare(FieldTerm(VStr("test")), Eq, VStr("test")).value;
      var right := Compare(FieldTerm(VStr("test2")), Eq, VStr("test")).value;
      Query(left) == Ok("test=test") && Query(Combine(left, Enums.And, right).value) == Ok("test=test^test2=test")
  {
    var left := Compare(FieldTerm(VStr("test")), Eq, VStr("test")).value;
    var right := Compare(FieldTerm(VStr("test2")), Eq, VStr("test")).value;
    CompareStrRenders("test", Eq, "test");
    CompareStrRenders("test2", Eq, "test");
    ExampleTexts();
    RenderConnective(Enums.And, left, right, Plain, "test=test", "test2=test");
  }

  /** The field `test` compared with `not_like`. */
  lemma NotLikeExample()
    ensures Query(Compare(FieldTerm(VStr("test")), NotLike, VStr("val")).value) == Ok("testNOT LIKEval")
  {
    CompareStrRenders("test", NotLike, "val");
    ExampleTexts();
  }

  /** The field `test` checked with `is_empty`. */
  lemma IsEmptyExample()
    ensures Query(Checking(FieldTerm(VStr("test")), Empty).value) == Ok("testISEMPTY")
  {
    CheckRenders("test", Empty);
    ExampleTexts();
  }

  /**
   * `Criterion.all` and `Criterion.any` write the queries of their terms
   * joined by `^` or `^OR`, in order.
   */
  lemma {:induction false} FoldJoins(terms: seq<Term>, op: Enums.Boolean, ctx: Context, queries: seq<string>)
    requires |terms| > 0 && |queries| == |terms|
    requires forall i :: 0 <= i < |terms| ==> IsCriterion(terms[i]) && Render(terms[i], ctx) == Ok(VStr(queries[i]))
    ensures Fold(terms, op).Ok? && Fold(terms, op).value.Some?
    ensures IsCriterion(Fold(terms, op).value.value)
    ensures Render(Fold(terms, op).value.value, ctx) == Ok(VStr(Join(Enums.BooleanValue(op), queries)))
    decreases |terms|
  {
    var n := |terms|;
    if n > 1 {
      var front := terms[..n - 1];
      assert forall i :: 0 <= i < n - 1 ==> front[i] == terms[i];
      FoldJoins(front, op, ctx, queries[..n - 1]);
      var p := Fold(front, op).value.value;
      var sep := Enums.BooleanValue(op);
      FoldSnoc(terms, op, p);
      RenderConnective(op, p, terms[n - 1], ctx, Join(sep, queries[..n - 1]), queries[n - 1]);
      JoinLast(sep, queries);
    }
  }

  /** Folding one more term combines it with the fold of the others. */
  lemma FoldSnoc(terms: seq<Term>, op: Enums.Boolean, p: Term)
    requires |terms| > 1 && Fold(terms[..|terms| - 1], op) == Ok(Some(p)) && IsCriterion(p)
    ensures Fold(terms, op) == Ok(Some(Basic(Connective(op), p, terms[|terms| - 1])))
  {
  }

  /** Two criteria joined by a connective write their queries around its text. */
  lemma RenderConnective(op: Enums.Boolean, left: Term, right: Term, ctx: Context, a: string, b: string)
    requires Render(left, ctx) == Ok(VStr(a)) && Render(right, ctx) == Ok(VStr(b))
    ensures Render(Basic(Connective(op), left, right), ctx) == Ok(VStr(a + Enums.BooleanValue(op) + b))
  {
    RenderBasic(Connective(op), left, right, ctx);
    assert Str(VStr(a)) == Ok(a) && Str(VStr(b)) == Ok(b);
  }

  /** How a `Basic` node renders: its two sides around the comparator. */
  lemma RenderBasic(c: Comparator, left: Term, right: Term, ctx: Context)
    ensures Render(Basic(c, left, right), ctx)
      == (var lq :- Render(left, ctx);
          var rq :- Render(right, ctx);
          Joined(lq, ComparatorText(c), rq))
  {
  }

  /** How a `Between` node renders: its three parts in order, then the range between them. */
  lemma RenderBetween(term: Term, start: Term, end: Term, ctx: Context)
    ensures Render(Between(term, start, end), ctx)
      == (var tq :- Render(term, ctx);
          var sq :- Render(start, ctx);
          var eq :- Render(end, ctx);
          BetweenText(tq, start, end, sq, eq))
  {
    var t := Between(term, start, end);
    match Render(term, ctx)
    case Err(e) => assert Render(t, ctx) == Err(e);
    case Ok(tq) =>
      match Render(start, ctx)
      case Err(e) => assert Render(t, ctx) == Err(e);
      case Ok(sq) =>
        match Render(end, ctx)
        case Err(e) => assert Render(t, ctx) == Err(e);
        case Ok(eq) => assert Render(t, ctx) == BetweenText(tq, start, end, sq, eq);
  }

  /** How `on` / `not_on` with anything but a `DateTimeOn` member renders: the field, then the day's two ends. */
  lemma RenderOnCustom(term: Term, criteria: Term, negated: bool, ctx: Context)
    requires !criteria.Member?
    ensures Render(On(term, criteria, negated), ctx)
      == (var tq :- Render(term, ctx);
          var sq :- Render(criteria, StartOfDay);
          var eq :- Render(criteria, EndOfDay);
          CustomText(tq, OnKeyword(negated), sq, eq))
  {
    var t := On(term, criteria, negated);
    match Render(term, ctx)
    case Err(e) => assert Render(t, ctx) == Err(e);
    case Ok(tq) =>
      match Render(criteria, StartOfDay)
      case Err(e) => assert Render(t, ctx) == Err(e);
      case Ok(sq) =>
        match Render(criteria, EndOfDay)
        case Err(e) => assert Render(t, ctx) == Err(e);
        case Ok(eq) => assert Render(t, ctx) == CustomText(tq, OnKeyword(negated), sq, eq);
  }

  /** `between` with two integers writes `<field>BETWEEN<a>@<b>`. */
  lemma BetweenInts(name: string, a: int, b: int)
    ensures BetweenOf(FieldTerm(VStr(name)), VInt(a), VInt(b)).Ok?
    ensures Query(BetweenOf(FieldTerm(VStr(name)), VInt(a), VInt(b)).value)
      == Ok(name + "BETWEEN" + (IntToString(a) + "@" + IntToString(b)))
  {
    var t := BetweenOf(FieldTerm(VStr(name)), VInt(a), VInt(b)).value;
    assert t == Between(FieldTerm(VStr(name)), IntWrapper(VInt(a)), IntWrapper(VInt(b)));
    assert Render(t.start, Plain) == Ok(VInt(a)) && Render(t.end, Plain) == Ok(VInt(b));
    var range := IntToString(a) + "@" + IntToString(b);
    assert Range(t.start, t.end, VInt(a), VInt(b)) == Ok(range);
    assert Render(t, Plain) == Joined(VStr(name), "BETWEEN", VStr(range));
  }

  /** `between` with two datetimes writes their UTC readings as two `dateGenerate` calls. */
  lemma BetweenDates(name: string, lower: DateTime, upper: DateTime)
    requires AsUtc(lower).Some? && AsUtc(upper).Some?
    ensures BetweenOf(FieldTerm(VStr(name)), VDateTime(lower), VDateTime(upper)).Ok?
    ensures Query(BetweenOf(FieldTerm(VStr(name)), VDateTime(lower), VDateTime(upper)).value)
      == Ok(name + "BETWEEN" + (DateGenerate(FormatDateTime(AsUtc(lower).value)) + "@"
                                + DateGenerate(FormatDateTime(AsUtc(upper).value))))
  {
    var field := FieldTerm(VStr(name));
    var start := DateTimeWrapper(VDateTime(lower));
    var end := DateTimeWrapper(VDateTime(upper));
    assert BetweenOf(field, VDateTime(lower), VDateTime(upper)).value == Between(field, start, end);
    var a := DateGenerate(FormatDateTime(AsUtc(lower).value));
    var b := DateGenerate(FormatDateTime(AsUtc(upper).value));
    PlainDate(lower);
    PlainDate(upper);
    assert Range(start, end, VStr(a), VStr(b)) == Ok(a + "@" + b);
    RenderBetween(field, start, end, Plain);
    assert Render(Between(field, start, end), Plain) == Joined(VStr(name), "BETWEEN", VStr(a + "@" + b));
  }

  lemma PlainDate(d: DateTime)
    requires AsUtc(d).Some?
    ensures Render(DateTimeWrapper(VDateTime(d)), Plain) == Ok(VStr(DateGenerate(FormatDateTime(AsUtc(d).value))))
  {
    var f := FormatDateTime(AsUtc(d).value);
    assert f + "" == f;
    assert DateText(AsUtc(d).value, Plain) == f;
  }

  /**
   * `between` with an integer and a datetime builds, but writing the query
   * raises `QueryTypeError`, after both bounds are written: the datetime
   * bound raises `OverflowError` first when it has no UTC reading.
   */
  lemma BetweenMixed(name: string, lower: Value, upper: Value)
    requires BetweenOf(FieldTerm(VStr(name)), lower, upper).Ok?
    requires lower.VInt? != upper.VInt?
    ensures var d := if lower.VDateTime? then lower.dt else upper.dt;
      Query(BetweenOf(FieldTerm(VStr(name)), lower, upper).value)
      == if AsUtc(d).None? then Err(OverflowError) else Err(QueryTypeError)
  {
    var t := BetweenOf(FieldTerm(VStr(name)), lower, upper).value;
    assert t.start.IntWrapper? != t.end.IntWrapper?;
    assert !(t.start.DateTimeWrapper? && t.end.DateTimeWrapper?);
    RenderBetween(t.term, t.start, t.end, Plain);
    assert Render(t.term, Plain) == Ok(VStr(name));
    match Render(t.start, Plain)
    case Err(e) =>
      assert e == OverflowError;
    case Ok(sq) =>
      match Render(t.end, Plain)
      case Err(e) =>
        assert e == OverflowError;
      case Ok(eq) =>
        assert Range(t.start, t.end, sq, eq) == Err(QueryTypeError);
  }

  /**
   * `on` / `not_on`: a `DateTimeOn` member writes its window after `ON`
   * (or `NOTON`); a datetime writes the start and the end of its UTC day
   * as two `dateGenerate` calls.
   */
  lemma OnShape(name: string, other: Value, negated: bool)
    requires OnDate(FieldTerm(VStr(name)), other, negated).Ok?
    ensures var q := Query(OnDate(FieldTerm(VStr(name)), other, negated).value);
      var keyword := if negated then "NOTON" else "ON";
      && (other.VOn? ==> q == Ok(name + keyword + Enums.DateTimeOnValue(other.on)))
      && (other.VDateTime? && AsUtc(other.dt).Some? ==>
            var day := FormatDate(AsUtc(other.dt).value.date);
            q == Ok(name + (keyword + "custom@")
                    + (DateGenerate(day + ("\", \"" + "start")) + "@" + DateGenerate(day + ("\", \"" + "end")))))
      && (other.VDateTime? && AsUtc(other.dt).None? ==> q == Err(OverflowError))
  {
    var t := OnDate(FieldTerm(VStr(name)), other, negated).value;
    assert t == On(FieldTerm(VStr(name)), t.criteria, negated);
    if other.VDateTime? {
      assert t.criteria == DateTimeWrapper(other);
      match AsUtc(other.dt)
      case None =>
        OnOverflow(FieldTerm(VStr(name)), other.dt, negated);
      case Some(u) =>
        OnDay(FieldTerm(VStr(name)), other.dt, negated);
    }
  }

  /** A datetime that cannot be moved to UTC makes `on` raise `OverflowError`. */
  lemma OnOverflow(field: Term, dt: DateTime, negated: bool)
    requires AsUtc(dt).None?
    ensures Render(field, Plain).Ok? ==> Render(On(field, DateTimeWrapper(VDateTime(dt)), negated), Plain) == Err(OverflowError)
  {
    var w := DateTimeWrapper(VDateTime(dt));
    RenderOnCustom(field, w, negated, Plain);
    assert Render(w, StartOfDay) == Err(OverflowError);
  }

  /** `on` with a datetime writes the start and the end of its UTC day. */
  lemma OnDay(field: Term, dt: DateTime, negated: bool)
    requires AsUtc(dt).Some? && field.FieldTerm? && field.name.VStr?
    ensures var day := FormatDate(AsUtc(dt).value.date);
      var keyword := if negated then "NOTON" else "ON";
      Render(On(field, DateTimeWrapper(VDateTime(dt)), negated), Plain)
        == Ok(VStr(field.name.s + (keyword + "custom@")
                   + (DateGenerate(day + ("\", \"" + "start")) + "@" + DateGenerate(day + ("\", \"" + "end")))))
  {
    var u := AsUtc(dt).value;
    var w := DateTimeWrapper(VDateTime(dt));
    var day := FormatDate(u.date);
    assert DateText(u, StartOfDay) == day + ("\", \"" + "start");
    assert DateText(u, EndOfDay) == day + ("\", \"" + "end");
    assert Render(w, StartOfDay) == Ok(VStr(DateGenerate(day + ("\", \"" + "start"))));
    assert Render(w, EndOfDay) == Ok(VStr(DateGenerate(day + ("\", \"" + "end"))));
    RenderOnCustom(field, w, negated, Plain);
  }

  /**
   * `order(direction)`: `ORDERBY<field>` for `Order.asc` or any casing of
   * "asc", `ORDERBYDESC<field>` for `Order.desc` or any casing of "desc",
   * and `QueryTypeError` for anything else.
   */
  lemma OrderShape(name: string, direction: Value)
    ensures var q := Query(OrderBy(FieldTerm(VStr(name)), direction));
      && (IsAscending(direction) ==> q == Ok("ORDERBY" + name))
      && (!IsAscending(direction) && IsDescending(direction) ==> q == Ok("ORDERBYDESC" + name))
      && (!IsAscending(direction) && !IsDescending(direction) ==> q == Err(QueryTypeError))
  {
    assert "ORDERBY" + "" + name == "ORDERBY" + name;
    assert "ORDERBYDESC" + "" + name == "ORDERBYDESC" + name;
  }
}
