/**
 * `pysnow.params_builder.ParamsBuilder`: the typed setters of the common
 * `sysparm_*` parameters, the caller's custom parameters, and the
 * parameter dict handed to the request.
 */
module ParamsBuilder {
  import opened Options
  import opened Dicts
  import opened Values
  import QP = QueryParams

  /** The two stores of one builder. */
  datatype ParamsBuilder = ParamsBuilder(custom: Dict<Value>, sysparms: Dict<Value>)

  const Defaults: Dict<Value> := [
    ("sysparm_query", VStr("")),
    ("sysparm_limit", VInt(10000)),
    ("sysparm_offset", VNone),
    ("sysparm_display_value", VBool(false)),
    ("sysparm_suppress_pagination_header", VBool(false)),
    ("sysparm_exclude_reference_link", VBool(false)),
    ("sysparm_view", VStr("")),
    ("sysparm_fields", VList([]))
  ]

  /** The first two defaults read back from the literal. */
  lemma DefaultsHead()
    ensures Get(Defaults, "sysparm_query") == Some(VStr(""))
    ensures Get(Defaults, "sysparm_limit") == Some(VInt(10000))
  {
  }

  /** The third and fourth defaults read back from the literal. */
  lemma DefaultsOffset()
    ensures Get(Defaults, "sysparm_offset") == Some(VNone)
    ensures Get(Defaults, "sysparm_display_value") == Some(VBool(false))
  {
    assert Defaults[2..][0].0 == "sysparm_offset";
    assert Defaults[2..][1].0 == "sysparm_display_value";
  }

  /** The fifth and sixth defaults read back from the literal. */
  lemma DefaultsFlags()
    ensures Get(Defaults, "sysparm_suppress_pagination_header") == Some(VBool(false))
    ensures Get(Defaults, "sysparm_exclude_reference_link") == Some(VBool(false))
  {
    assert Defaults[4..][0].0 == "sysparm_suppress_pagination_header";
    assert Defaults[4..][1].0 == "sysparm_exclude_reference_link";
  }

  /** The last two defaults read back from the literal. */
  lemma DefaultsTail()
    ensures Get(Defaults, "sysparm_view") == Some(VStr(""))
    ensures Get(Defaults, "sysparm_fields") == Some(VList([]))
  {
    assert Defaults[6..][0].0 == "sysparm_view";
    assert Defaults[6..][1].0 == "sysparm_fields";
  }

  /** `ParamsBuilder()`. */
  function New(): (b: ParamsBuilder)
    ensures b.custom == []
    ensures Get(b.sysparms, "sysparm_query") == Some(VStr(""))
    ensures Get(b.sysparms, "sysparm_limit") == Some(VInt(10000))
    ensures Get(b.sysparms, "sysparm_offset") == Some(VNone)
    ensures Get(b.sysparms, "sysparm_display_value") == Some(VBool(false))
    ensures Get(b.sysparms, "sysparm_suppress_pagination_header") == Some(VBool(false))
    ensures Get(b.sysparms, "sysparm_exclude_reference_link") == Some(VBool(false))
    ensures Get(b.sysparms, "sysparm_view") == Some(VStr(""))
    ensures Get(b.sysparms, "sysparm_fields") == Some(VList([]))
  {
    DefaultsHead();
    DefaultsOffset();
    DefaultsFlags();
    DefaultsTail();
    ParamsBuilder([], Defaults)
  }

  /** `b'` is `b` with the sysparm `key` set to `v` and nothing else changed. */
  ghost predicate Stored(b: ParamsBuilder, b': ParamsBuilder, key: string, v: Value) {
    b'.custom == b.custom
    && Get(b'.sysparms, key) == Some(v)
    && forall k :: k != key ==> Get(b'.sysparms, k) == Get(b.sysparms, k)
  }

  /** `stringify_query`: a newer `QueryBuilder`, a dict or a string. */
  function StringifyQuery(q: Value): (r: Result<string>)
    ensures q.VStr? ==> r == Ok(q.s)
    ensures q.VBuilder? && q.lineage == QueryBuilderClass ==> r == q.rendering
    ensures q.VDict? ==> r == QP.DictQuery(q.entries)
    ensures !q.VStr? && !q.VDict? && !(q.VBuilder? && q.lineage == QueryBuilderClass) ==> r == Err(InvalidUsage)
  {
    QP.Stringify(q, {QueryBuilderClass})
  }

  /** `add_custom(params)`: a dict is merged into the custom parameters. */
  function AddCustom(b: ParamsBuilder, params: Value): (r: Result<ParamsBuilder>)
    ensures r.Ok? <==> params.VDict?
    ensures r.Err? ==> r.error == InvalidUsage
    ensures r.Ok? ==> r.value.sysparms == b.sysparms
    ensures r.Ok? && Distinct(params.entries) ==>
              forall k :: Get(r.value.custom, k) == if HasKey(params.entries, k) then Get(params.entries, k) else Get(b.custom, k)
  {
    if params.VDict? then
      var custom := Update(b.custom, params.entries);
      assert Distinct(params.entries) ==> forall k :: Get(custom, k) == if HasKey(params.entries, k) then Get(params.entries, k) else Get(b.custom, k) by {
        if Distinct(params.entries) {
          forall k ensures Get(custom, k) == if HasKey(params.entries, k) then Get(params.entries, k) else Get(b.custom, k) {
            UpdateGet(b.custom, params.entries, k);
          }
        }
      }
      Ok(b.(custom := custom))
    else Err(InvalidUsage)
  }

  /** Stores `v` under `key` when `accepted`, else raises `InvalidUsage` and leaves the builder as it was. */
  function Set(b: ParamsBuilder, key: string, v: Value, accepted: bool): (r: Result<ParamsBuilder>)
    ensures r.Ok? <==> accepted
    ensures r.Err? ==> r.error == InvalidUsage
    ensures r.Ok? ==> Stored(b, r.value, key, v)
  {
    if accepted then Ok(b.(sysparms := Put(b.sysparms, key, v))) else Err(InvalidUsage)
  }

  /**
   * The `display_value` setter: a bool, or anything that compares equal to
   * `"all"`, which a criterion `Field` does.
   */
  function SetDisplayValue(b: ParamsBuilder, v: Value): (r: Result<ParamsBuilder>)
    ensures r.Ok? <==> v.VBool? || v == VStr("all") || v.VField?
    ensures r.Err? ==> r.error == InvalidUsage
    ensures r.Ok? ==> Stored(b, r.value, "sysparm_display_value", v)
  {
    Set(b, "sysparm_display_value", v, v.VBool? || EqualsText(v, "all"))
  }

  /** The `query` setter stores the stringified query. */
  function SetQuery(b: ParamsBuilder, q: Value): (r: Result<ParamsBuilder>)
    ensures r.Ok? <==> StringifyQuery(q).Ok?
    ensures r.Err? ==> r.error == StringifyQuery(q).error
    ensures r.Ok? ==> Stored(b, r.value, "sysparm_query", VStr(StringifyQuery(q).value))
  {
    var text :- StringifyQuery(q);
    Ok(b.(sysparms := Put(b.sysparms, "sysparm_query", VStr(text))))
  }

  /** The `limit` setter: an `int` that is not a `bool`. */
  function SetLimit(b: ParamsBuilder, v: Value): (r: Result<ParamsBuilder>)
    ensures r.Ok? <==> v.VInt?
    ensures r.Err? ==> r.error == InvalidUsage
    ensures r.Ok? ==> Stored(b, r.value, "sysparm_limit", v)
  {
    Set(b, "sysparm_limit", v, IsIntInstance(v) && !v.VBool?)
  }

  /** The `offset` setter: an `int` that is not a `bool`. */
  function SetOffset(b: ParamsBuilder, v: Value): (r: Result<ParamsBuilder>)
    ensures r.Ok? <==> v.VInt?
    ensures r.Err? ==> r.error == InvalidUsage
    ensures r.Ok? ==> Stored(b, r.value, "sysparm_offset", v)
  {
    Set(b, "sysparm_offset", v, IsIntInstance(v) && !v.VBool?)
  }

  /** The `fields` setter: a list, stored comma-joined (its elements must be strings). */
  function SetFields(b: ParamsBuilder, v: Value): (r: Result<ParamsBuilder>)
    ensures !v.VList? ==> r == Err(InvalidUsage)
    ensures v.VList? ==> (r.Ok? <==> JoinStrings(",", v.items).Ok?)
    ensures r.Ok? ==> Stored(b, r.value, "sysparm_fields", VStr(JoinStrings(",", v.items).value))
  {
    if !v.VList? then Err(InvalidUsage)
    else
      var joined :- JoinStrings(",", v.items);
      Ok(b.(sysparms := Put(b.sysparms, "sysparm_fields", VStr(joined))))
  }

  /** The `exclude_reference_link` setter: a bool only. */
  function SetExcludeReferenceLink(b: ParamsBuilder, v: Value): (r: Result<ParamsBuilder>)
    ensures r.Ok? <==> v.VBool?
    ensures r.Err? ==> r.error == InvalidUsage
    ensures r.Ok? ==> Stored(b, r.value, "sysparm_exclude_reference_link", v)
  {
    Set(b, "sysparm_exclude_reference_link", v, v.VBool?)
  }

  /** The `suppress_pagination_header` setter: a bool only. */
  function SetSuppressPaginationHeader(b: ParamsBuilder, v: Value): (r: Result<ParamsBuilder>)
    ensures r.Ok? <==> v.VBool?
    ensures r.Err? ==> r.error == InvalidUsage
    ensures r.Ok? ==> Stored(b, r.value, "sysparm_suppress_pagination_header", v)
  {
    Set(b, "sysparm_suppress_pagination_header", v, v.VBool?)
  }

  /** A property getter: the value stored under `key`. */
  function Param(b: ParamsBuilder, key: string): Option<Value> {
    Get(b.sysparms, key)
  }

  /**
   * Setting a limit and reading it back gives the limit; a `bool` is
   * refused although Python counts it as an `int`.
   */
  lemma LimitRoundTrip(b: ParamsBuilder, n: int)
    ensures SetLimit(b, VInt(n)).Ok? && Param(SetLimit(b, VInt(n)).value, "sysparm_limit") == Some(VInt(n))
    ensures IsIntInstance(VBool(true)) && SetLimit(b, VBool(true)) == Err(InvalidUsage)
  {
  }

  /**
   * `as_dict()`: the sysparms overlaid with the custom parameters. The
   * overlay is written back into the builder's own store.
   */
  function AsDict(b: ParamsBuilder): (r: (Dict<Value>, ParamsBuilder))
    ensures r.1 == b.(sysparms := r.0)
    ensures Distinct(b.custom) ==>
              forall k :: Get(r.0, k) == if HasKey(b.custom, k) then Get(b.custom, k) else Get(b.sysparms, k)
  {
    var d := Update(b.sysparms, b.custom);
    assert Distinct(b.custom) ==> forall k :: Get(d, k) == if HasKey(b.custom, k) then Get(b.custom, k) else Get(b.sysparms, k) by {
      if Distinct(b.custom) {
        forall k ensures Get(d, k) == if HasKey(b.custom, k) then Get(b.custom, k) else Get(b.sysparms, k) {
          UpdateGet(b.sysparms, b.custom, k);
        }
      }
    }
    (d, b.(sysparms := d))
  }

  /** Calling `as_dict()` again returns the same dict, although the first call changed the store. */
  lemma AsDictIdempotent(b: ParamsBuilder)
    requires Distinct(b.custom)
    ensures AsDict(AsDict(b).1).0 == AsDict(b).0
  {
    UpdateTwice(b.sysparms, b.custom);
  }

  /** Custom parameters added to a fresh builder keep distinct keys, whatever is added. */
  lemma AddCustomDistinct(b: ParamsBuilder, params: Value)
    requires Distinct(b.custom) && AddCustom(b, params).Ok?
    ensures Distinct(AddCustom(b, params).value.custom)
  {
    UpdateDistinct(b.custom, params.entries);
  }
}
