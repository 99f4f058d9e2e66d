/**
 * `pysnow.exceptions`: the class tree of the newer exception module and
 * the one exception that carries data, `ResponseError`, built from the
 * `error` object of a response body.
 */
module Exceptions {
  import opened Options
  import opened Dicts
  import opened Json
  import V = Values

  /** The classes `pysnow.exceptions` declares. */
  datatype Class =
    | PysnowException
    | InvalidUsageClass
    | ResponseErrorClass
    | MissingResultClass
    | NoResultsClass
    | EmptyContentClass
    | MultipleResultsClass
    | MissingTokenClass
    | TokenCreateErrorClass
    | QueryTypeErrorClass
    | QueryMissingFieldClass
    | QueryEmptyClass
    | QueryExpressionErrorClass
    | QueryMultipleExpressionsClass

  /** The base class named in each `class X(Base)`; `PysnowException` derives from the built-in `Exception`. */
  function Base(c: Class): Option<Class> {
    if c == PysnowException then None else Some(PysnowException)
  }

  /** Distance to the root of the tree, which bounds the walk up the bases. */
  function Depth(c: Class): nat {
    if c == PysnowException then 0 else 1
  }

  /** `issubclass(c, base)`. */
  predicate IsSubclass(c: Class, base: Class)
    decreases Depth(c)
  {
    c == base || (Base(c).Some? && Depth(Base(c).value) < Depth(c) && IsSubclass(Base(c).value, base))
  }

  /** The class of an error value, when `pysnow.exceptions` declares it. */
  function ClassOf(e: V.Error): (r: Option<Class>)
    ensures r.Some? <==> !(e.TypeError? || e.KeyError? || e.IndexError? || e.AttributeError? || e.ValueError?
                           || e.OverflowError? || e.HttpError? || e.NotImplementedError? || e.UnexpectedResponse?)
  {
    match e
    case QueryEmpty => Some(QueryEmptyClass)
    case QueryMissingField => Some(QueryMissingFieldClass)
    case QueryExpressionError => Some(QueryExpressionErrorClass)
    case QueryMultipleExpressions => Some(QueryMultipleExpressionsClass)
    case QueryTypeError => Some(QueryTypeErrorClass)
    case InvalidUsage => Some(InvalidUsageClass)
    case ResponseError(_, _) => Some(ResponseErrorClass)
    case MissingResult => Some(MissingResultClass)
    case NoResults(_) => Some(NoResultsClass)
    case MultipleResults(_) => Some(MultipleResultsClass)
    case _ => None
  }

  /**
   * Every query and response error of the newer module can be caught as
   * `PysnowException`.
   */
  lemma AllDeriveFromPysnowException(e: V.Error)
    requires ClassOf(e).Some?
    ensures IsSubclass(ClassOf(e).value, PysnowException)
    ensures ClassOf(e).value != PysnowException ==> Base(ClassOf(e).value) == Some(PysnowException)
  {
  }

  /** The class attribute both fields fall back to. */
  const Empty: Json := JStr("<empty>")

  /**
   * `if key in error: field = error[key] or field`, starting from the
   * default: the key's value replaces the default only when truthy.
   */
  function Field(error: Json, key: string): (r: V.Result<Json>)
    ensures !(error.JObj? || error.JArr? || error.JStr?) ==> r == V.Err(V.TypeError)
    ensures error.JObj? ==> r.Ok?
    ensures r.Err? ==> r.error == V.TypeError
    ensures error.JObj? && !HasKey(error.entries, key) ==> r.value == Empty
    ensures error.JObj? && HasKey(error.entries, key) && Truthy(Get(error.entries, key).value) ==> r.value == Get(error.entries, key).value
    ensures error.JObj? && HasKey(error.entries, key) && !Truthy(Get(error.entries, key).value) ==> r.value == Empty
  {
    var present :- V.JContains(error, key);
    if !present then V.Ok(Empty)
    else
      var v :- V.JGetItem(error, key);
      V.Ok(if Truthy(v) then v else Empty)
  }

  /** `ResponseError(error)`: `message` and `detail` read from the error object. */
  function NewResponseError(error: Json): (r: V.Result<V.Error>)
    ensures error.JObj? ==> r == V.Ok(V.ResponseError(Field(error, "message").value, Field(error, "detail").value))
    ensures r.Ok? ==> r.value.ResponseError?
    ensures r.Err? ==> r.error == V.TypeError
    ensures !(error.JObj? || error.JArr? || error.JStr?) ==> r == V.Err(V.TypeError)
  {
    var message :- Field(error, "message");
    var detail :- Field(error, "detail");
    V.Ok(V.ResponseError(message, detail))
  }

  /** `str(ResponseError)`. */
  function ResponseErrorText(e: V.Error): (s: string)
    requires e.ResponseError?
  {
    "Error in response. Message: " + Str(e.message) + ", Details: " + Str(e.detail)
  }

  /** An error object with neither key gives the two defaults. */
  lemma EmptyErrorText()
    ensures NewResponseError(JObj([])) == V.Ok(V.ResponseError(Empty, Empty))
    ensures ResponseErrorText(NewResponseError(JObj([])).value)
            == "Error in response. Message: <empty>, Details: <empty>"
  {
    assert !HasKey<Json>([], "message") && !HasKey<Json>([], "detail");
    assert Str(Empty) == "<empty>";
  }

  /**
   * Non-empty string values under `message` and `detail` appear verbatim
   * in the text, in that order and whatever the order of the keys.
   */
  lemma {:induction false} ErrorText(error: Json, m: string, d: string)
    requires error.JObj? && Distinct(error.entries)
    requires Get(error.entries, "message") == Some(JStr(m)) && |m| > 0
    requires Get(error.entries, "detail") == Some(JStr(d)) && |d| > 0
    ensures NewResponseError(error).Ok?
    ensures ResponseErrorText(NewResponseError(error).value)
            == "Error in response. Message: " + m + ", Details: " + d
  {
    TruthyField(error, "message", JStr(m));
    TruthyField(error, "detail", JStr(d));
    assert NewResponseError(error).value == V.ResponseError(JStr(m), JStr(d));
    StringFieldsText(m, d);
  }

  /** A truthy value under `key` is the field. */
  lemma TruthyField(error: Json, key: string, v: Json)
    requires error.JObj? && Get(error.entries, key) == Some(v) && Truthy(v)
    ensures Field(error, key) == V.Ok(v)
  {
  }

  lemma StringFieldsText(m: string, d: string)
    ensures ResponseErrorText(V.ResponseError(JStr(m), JStr(d))) == "Error in response. Message: " + m + ", Details: " + d
  {
    assert Str(JStr(m)) == m && Str(JStr(d)) == d;
  }

  /** A present but empty (or `null`) message keeps the default. */
  lemma FalsyMessageKeepsDefault(detail: Json)
    ensures NewResponseError(JObj([("message", JNull), ("detail", detail)])).Ok?
    ensures NewResponseError(JObj([("message", JNull), ("detail", detail)])).value.message == Empty
    ensures NewResponseError(JObj([("message", JStr("")), ("detail", detail)])).value.message == Empty
  {
    assert Get([("message", JNull), ("detail", detail)], "message") == Some(JNull);
    assert Get([("message", JStr("")), ("detail", detail)], "message") == Some(JStr(""));
  }
}
