/**
 * `pysnow.sysparms.Sysparms`. Both of its stores are class attributes,
 * so every instance reads and writes the same two dicts: the model keeps
 * them as one `Store` value that every operation takes and returns, and
 * no instance carries state of its own.
 */
module Sysparms {
  import opened Options
  import opened Dicts
  import opened Values
  import QP = QueryParams

  /** The class-level `_foreign_params` and `_sysparms`. */
  datatype Store = Store(foreign: Dict<Value>, sysparms: Dict<Value>)

  const Initial: Store := Store([], [
    ("sysparm_query", VStr("")),
    ("sysparm_limit", VNone),
    ("sysparm_offset", VNone),
    ("sysparm_suppress_pagination_header", VBool(false)),
    ("sysparm_fields", VList([]))
  ])

  /** `s'` is `s` with the sysparm `key` set to `v` and nothing else changed. */
  ghost predicate Stored(s: Store, s': Store, key: string, v: Value) {
    s'.foreign == s.foreign
    && Get(s'.sysparms, key) == Some(v)
    && forall k :: k != key ==> Get(s'.sysparms, k) == Get(s.sysparms, k)
  }

  /** `stringify_query`: a newer `QueryBuilder`, a dict or a `str`. */
  function StringifyQuery(q: Value): (r: Result<string>)
    ensures q.VStr? ==> r == Ok(q.s)
    ensures q.VBuilder? && q.lineage == QueryBuilderClass ==> r == q.rendering
    ensures q.VDict? ==> r == QP.DictQuery(q.entries)
    ensures !q.VStr? && !q.VDict? && !(q.VBuilder? && q.lineage == QueryBuilderClass) ==> r == Err(InvalidUsage)
  {
    QP.Stringify(q, {QueryBuilderClass})
  }

  /** `add_foreign(params)`: a non-dict raises `TypeError` (not `InvalidUsage`). */
  function AddForeign(s: Store, params: Value): (r: Result<Store>)
    ensures r.Ok? <==> params.VDict?
    ensures r.Err? ==> r.error == TypeError
    ensures r.Ok? ==> r.value.sysparms == s.sysparms
    ensures r.Ok? && Distinct(params.entries) ==>
              forall k :: Get(r.value.foreign, k) == if HasKey(params.entries, k) then Get(params.entries, k) else Get(s.foreign, k)
  {
    if params.VDict? then
      var foreign := Update(s.foreign, params.entries);
      assert Distinct(params.entries) ==> forall k :: Get(foreign, k) == if HasKey(params.entries, k) then Get(params.entries, k) else Get(s.foreign, k) by {
        if Distinct(params.entries) {
          forall k ensures Get(foreign, k) == if HasKey(params.entries, k) then Get(params.entries, k) else Get(s.foreign, k) {
            UpdateGet(s.foreign, params.entries, k);
          }
        }
      }
      Ok(s.(foreign := foreign))
    else Err(TypeError)
  }

  /** The `query` setter stores the stringified query. */
  function SetQuery(s: Store, q: Value): (r: Result<Store>)
    ensures r.Ok? <==> StringifyQuery(q).Ok?
    ensures r.Err? ==> r.error == StringifyQuery(q).error
    ensures r.Ok? ==> Stored(s, r.value, "sysparm_query", VStr(StringifyQuery(q).value))
  {
    var text :- StringifyQuery(q);
    Ok(s.(sysparms := Put(s.sysparms, "sysparm_query", VStr(text))))
  }

  /** The `offset` setter: an `int` that is not a `bool`. */
  function SetOffset(s: Store, v: Value): (r: Result<Store>)
    ensures r.Ok? <==> v.VInt?
    ensures r.Err? ==> r.error == InvalidUsage
    ensures r.Ok? ==> Stored(s, r.value, "sysparm_offset", v)
  {
    if IsIntInstance(v) && !v.VBool? then Ok(s.(sysparms := Put(s.sysparms, "sysparm_offset", v)))
    else Err(InvalidUsage)
  }

  /** The `limit` setter: an `int` that is not a `bool`. */
  function SetLimit(s: Store, v: Value): (r: Result<Store>)
    ensures r.Ok? <==> v.VInt?
    ensures r.Err? ==> r.error == InvalidUsage
    ensures r.Ok? ==> Stored(s, r.value, "sysparm_limit", v)
  {
    if IsIntInstance(v) && !v.VBool? then Ok(s.(sysparms := Put(s.sysparms, "sysparm_limit", v)))
    else Err(InvalidUsage)
  }

  /** The `fields` setter: a list of strings, stored comma-joined. */
  function SetFields(s: Store, v: Value): (r: Result<Store>)
    ensures !v.VList? ==> r == Err(InvalidUsage)
    ensures v.VList? ==> (r.Ok? <==> JoinStrings(",", v.items).Ok?)
    ensures r.Ok? ==> Stored(s, r.value, "sysparm_fields", VStr(JoinStrings(",", v.items).value))
  {
    if !v.VList? then Err(InvalidUsage)
    else
      var joined :- JoinStrings(",", v.items);
      Ok(s.(sysparms := Put(s.sysparms, "sysparm_fields", VStr(joined))))
  }

  /** The `paginate` getter: `not sysparm_suppress_pagination_header`. */
  function Paginate(s: Store): (r: Result<bool>)
    ensures r.Ok? <==> HasKey(s.sysparms, "sysparm_suppress_pagination_header")
    ensures r.Ok? ==> r.value == !Truthy(Get(s.sysparms, "sysparm_suppress_pagination_header").value)
    ensures r.Err? ==> r.error == KeyError
  {
    match Get(s.sysparms, "sysparm_suppress_pagination_header")
    case Some(v) => Ok(!Truthy(v))
    case None => Err(KeyError)
  }

  /** The `paginate` setter stores the negation of the wish. */
  function SetPaginate(s: Store, wanted: Value): (r: Store)
    ensures Stored(s, r, "sysparm_suppress_pagination_header", VBool(!Truthy(wanted)))
  {
    s.(sysparms := Put(s.sysparms, "sysparm_suppress_pagination_header", VBool(!Truthy(wanted))))
  }

  /** Reading `paginate` back gives the truth value of what was set. */
  lemma PaginateRoundTrip(s: Store, wanted: Value)
    ensures Paginate(SetPaginate(s, wanted)) == Ok(Truthy(wanted))
    ensures Paginate(Initial) == Ok(true)
  {
    assert Get(Initial.sysparms, "sysparm_suppress_pagination_header") == Some(VBool(false));
  }

  /** `as_dict()`: the sysparms overlaid with the foreign parameters, written back into the store. */
  function AsDict(s: Store): (r: (Dict<Value>, Store))
    ensures r.1 == s.(sysparms := r.0)
    ensures Distinct(s.foreign) ==>
              forall k :: Get(r.0, k) == if HasKey(s.foreign, k) then Get(s.foreign, k) else Get(s.sysparms, k)
  {
    var d := Update(s.sysparms, s.foreign);
    assert Distinct(s.foreign) ==> forall k :: Get(d, k) == if HasKey(s.foreign, k) then Get(s.foreign, k) else Get(s.sysparms, k) by {
      if Distinct(s.foreign) {
        forall k ensures Get(d, k) == if HasKey(s.foreign, k) then Get(s.foreign, k) else Get(s.sysparms, k) {
          UpdateGet(s.sysparms, s.foreign, k);
        }
      }
    }
    (d, s.(sysparms := d))
  }

  /**
   * A foreign parameter named like a sysparm changes what the getters
   * read after `as_dict()`: `paginate` follows a foreign
   * `sysparm_suppress_pagination_header`.
   */
  lemma ForeignOverridesPaginate(s: Store, suppress: Value)
    requires s.foreign == [("sysparm_suppress_pagination_header", suppress)]
    requires HasKey(s.sysparms, "sysparm_suppress_pagination_header")
    ensures Paginate(AsDict(s).1) == Ok(!Truthy(suppress))
  {
    assert Distinct(s.foreign);
    assert HasKey(s.foreign, "sysparm_suppress_pagination_header");
  }

  /** Calling `as_dict()` again returns the same dict. */
  lemma AsDictIdempotent(s: Store)
    requires Distinct(s.foreign)
    ensures AsDict(AsDict(s).1).0 == AsDict(s).0
  {
    UpdateTwice(s.sysparms, s.foreign);
  }
}
