/**
 * `pysnow.legacy_request.LegacyRequest`: the request parameters built for
 * a query, the interpretation of a buffered response, `get_one`, the
 * error mapping of `delete`/`update`/`clone` and the URLs they address.
 */
module LegacyRequest {
  import opened Options
  import opened Strings
  import opened Dicts
  import opened Json
  import J = Json
  import opened Values
  import QP = QueryParams
  import RC = RequestCommon
  import LE = LegacyExceptions

  // ---- _get_formatted_query ----

  /** What one `order_by` entry appends: a leading `-` asks for descending order. */
  function OrderSuffix(entry: Value): (r: Result<string>)
    ensures r.Ok? <==> entry.VStr? && |entry.s| > 0
    ensures entry == VStr("") ==> r == Err(IndexError)
    ensures !entry.VStr? ==> r == Err(TypeError)
  {
    match entry
    case VStr(s) =>
      if |s| == 0 then Err(IndexError)
      else if s[0] == '-' then Ok("^ORDERBYDESC" + s[1..])
      else Ok("^ORDERBY" + s)
    case _ => Err(TypeError)
  }

  /** The suffixes of all entries, in list order; the first bad entry raises. */
  function OrderSuffixes(entries: seq<Value>): (r: Result<string>)
    ensures r.Ok? <==> forall i :: 0 <= i < |entries| ==> entries[i].VStr? && |entries[i].s| > 0
  {
    if |entries| == 0 then Ok("")
    else
      assert forall i :: 1 <= i < |entries| ==> entries[i] == entries[1..][i - 1];
      var head :- OrderSuffix(entries[0]);
      var tail :- OrderSuffixes(entries[1..]);
      Ok(head + tail)
  }

  /**
   * A field name is sorted ascending as itself and descending when
   * prefixed with `-`, which is stripped again.
   */
  lemma OrderMarker(name: string)
    requires |name| > 0
    ensures name[0] != '-' ==> OrderSuffix(VStr(name)) == Ok("^ORDERBY" + name)
    ensures OrderSuffix(VStr("-" + name)) == Ok("^ORDERBYDESC" + name)
  {
    assert ("-" + name)[1..] == name;
  }

  /** Sorting by `a` then `b` appends `a`'s suffixes, then `b`'s. */
  lemma {:induction false} OrderSuffixesConcat(a: seq<Value>, b: seq<Value>)
    requires OrderSuffixes(a + b).Ok?
    ensures OrderSuffixes(a).Ok? && OrderSuffixes(b).Ok?
    ensures OrderSuffixes(a + b).value == OrderSuffixes(a).value + OrderSuffixes(b).value
    decreases |a|
  {
    if |a| == 0 {
      assert a + b == b;
    } else {
      assert (a + b)[1..] == a[1..] + b;
      assert (a + b)[0] == a[0];
      OrderSuffixesConcat(a[1..], b);
    }
  }

  /** The `sysparm_query` text: the stringified query followed by the sort suffixes. */
  function QueryText(query: Value, orderBy: seq<Value>): (r: Result<string>)
    ensures QP.Stringify(query, {QueryBuilderClass}).Err? ==> r == Err(QP.Stringify(query, {QueryBuilderClass}).error)
    ensures QP.Stringify(query, {QueryBuilderClass}).Ok? ==>
              (r.Ok? <==> forall i :: 0 <= i < |orderBy| ==> orderBy[i].VStr? && |orderBy[i].s| > 0)
    ensures r.Ok? ==> StartsWith(r.value, QP.Stringify(query, {QueryBuilderClass}).value)
    ensures query.VStr? && |orderBy| == 0 ==> r == Ok(query.s)
  {
    var q :- QP.Stringify(query, {QueryBuilderClass});
    var suffix :- OrderSuffixes(orderBy);
    assert (q + suffix)[..|q|] == q;
    assert suffix == "" ==> q + suffix == q;
    Ok(q + suffix)
  }

  /**
   * `_get_formatted_query(fields, limit, order_by, offset)`: the parameter
   * dict, layered as `sysparm_query`, the request's own parameters,
   * `limit` (with the pagination header suppressed), `offset` and the
   * comma-joined `fields`.
   */
  function FormattedQuery(query: Value, requestParams: Dict<Value>, fields: Value, limit: Value,
                          orderBy: Value, offset: Value): (r: Result<Dict<Value>>)
    ensures !orderBy.VList? ==> r == Err(InvalidUsage)
    ensures orderBy.VList? && !fields.VList? ==> r == Err(InvalidUsage)
    ensures r.Ok? ==> orderBy.VList? && fields.VList? && QueryText(query, orderBy.items).Ok?
    ensures r.Ok? ==> |fields.items| == 0 || JoinStrings(",", fields.items).Ok?
    ensures (orderBy.VList? && fields.VList? && QueryText(query, orderBy.items).Ok?
             && (forall i :: 0 <= i < |fields.items| ==> fields.items[i].VStr?)) ==> r.Ok?
  {
    if !orderBy.VList? then Err(InvalidUsage)
    else if !fields.VList? then Err(InvalidUsage)
    else
      var text :- QueryText(query, orderBy.items);
      var params := Update([("sysparm_query", VStr(text))], requestParams);
      var params := if limit != VNone
        then Update(params, [("sysparm_limit", limit), ("sysparm_suppress_pagination_header", VBool(true))])
        else params;
      var params := if offset != VNone then Update(params, [("sysparm_offset", offset)]) else params;
      if |fields.items| > 0 then
        var joined :- JoinStrings(",", fields.items);
        Ok(Update(params, [("sysparm_fields", VStr(joined))]))
      else Ok(params)
  }

  /**
   * Every parameter read back from the dict: later layers win over earlier
   * ones, and a key nobody set is absent.
   */
  lemma {:induction false} Layering(query: Value, requestParams: Dict<Value>, fields: Value, limit: Value,
                                    orderBy: Value, offset: Value, k: string)
    requires Distinct(requestParams)
    requires FormattedQuery(query, requestParams, fields, limit, orderBy, offset).Ok?
    ensures Get(FormattedQuery(query, requestParams, fields, limit, orderBy, offset).value, k)
            == if k == "sysparm_fields" && |fields.items| > 0 then Some(VStr(JoinStrings(",", fields.items).value))
               else if k == "sysparm_offset" && offset != VNone then Some(offset)
               else if k == "sysparm_limit" && limit != VNone then Some(limit)
               else if k == "sysparm_suppress_pagination_header" && limit != VNone then Some(VBool(true))
               else if HasKey(requestParams, k) then Get(requestParams, k)
               else if k == "sysparm_query" then Some(VStr(QueryText(query, orderBy.items).value))
               else None
  {
    var text := QueryText(query, orderBy.items).value;
    var base: Dict<Value> := [("sysparm_query", VStr(text))];
    GetSingle("sysparm_query", VStr(text), k);
    var p1 := Update(base, requestParams);
    UpdateGet(base, requestParams, k);
    var p2 := if limit != VNone
      then Update(p1, [("sysparm_limit", limit), ("sysparm_suppress_pagination_header", VBool(true))])
      else p1;
    if limit != VNone {
      UpdateTwoGet(p1, "sysparm_limit", limit, "sysparm_suppress_pagination_header", VBool(true), k);
    }
    var p3 := if offset != VNone then Update(p2, [("sysparm_offset", offset)]) else p2;
    if offset != VNone {
      UpdateOneGet(p2, "sysparm_offset", offset, k);
    }
    var r := FormattedQuery(query, requestParams, fields, limit, orderBy, offset).value;
    if |fields.items| > 0 {
      var joined := JoinStrings(",", fields.items).value;
      UpdateOneGet(p3, "sysparm_fields", VStr(joined), k);
      assert r == Update(p3, [("sysparm_fields", VStr(joined))]);
    } else {
      assert r == p3;
    }
  }

  // ---- _get_content ----

  /** `return content_json["result"]`, after the check that it is there. */
  function ResultOf(cj: Json): (r: Result<Json>)
    ensures r.Ok? <==> cj.JObj? && HasKey(cj.entries, "result")
    ensures r.Ok? ==> Get(cj.entries, "result") == Some(r.value)
    ensures (cj.JObj? || cj.JArr? || cj.JStr?) && JContains(cj, "result") == Ok(false) ==> r == Err(MissingResult)
  {
    var present :- JContains(cj, "result");
    if !present then Err(MissingResult) else JGetItem(cj, "result")
  }

  /**
   * `_get_content(response)` for a response to `verb` with `status` and
   * `body` (`None` when the body is not JSON). A delete answers
   * `{"success": True}` exactly on 204; a POST must get 201; an empty
   * result or a 404 raises `NoResults` only when `raise_on_empty is True`
   * and otherwise falls through; an `error` body raises
   * `UnexpectedResponse`; the `result` is returned when present.
   */
  function Content(verb: string, status: int, body: Option<Json>, raiseOnEmpty: Value): (r: Result<Json>)
    ensures verb == "DELETE" && RC.ReadBody(body).Ok? ==> (r.Ok? <==> status == 204)
    ensures verb == "DELETE" && r.Ok? ==> r.value == RC.Success
    ensures verb == "DELETE" && status != 204 && RC.ReadBody(body).Ok? ==>
              r.Err? && r.error.UnexpectedResponse? && r.error.statusCode == Some(status)
    ensures verb == "POST" && status != 201 && RC.ReadBody(body).Ok? ==>
              r.Err? && r.error.UnexpectedResponse? && r.error.statusCode == Some(status)
    ensures verb != "DELETE" && r.Ok? ==>
              body.Some? && body.value.JObj? && Get(body.value.entries, "result") == Some(r.value)
    ensures r.Err? && r.error.NoResults? ==>
              IsTrue(raiseOnEmpty) && r.error.msg == RC.NoResultsMessage
              && (status == 404 || (body.Some? && RC.EmptyResult(body.value) == Ok(true)))
    ensures r == Err(MissingResult) ==> !(body.Some? && body.value.JObj? && HasKey(body.value.entries, "result"))
    // the decision table, one clause per branch
    ensures RC.ReadBody(body).Err? ==> r == Err(RC.ReadBody(body).error)
    ensures RC.ReadBody(body).Ok? && verb == "DELETE" && status != 204 ==>
              var se := RC.ReadBody(body).value.1;
              r == Err(LE.NewUnexpectedResponse(204, status, verb, se.summary, se.details))
    ensures RC.ReadBody(body).Ok? && verb == "POST" && status != 201 ==>
              var se := RC.ReadBody(body).value.1;
              r == Err(LE.NewUnexpectedResponse(201, status, verb, se.summary, se.details))
    ensures RC.ReadBody(body).Ok? && verb != "DELETE" && !(verb == "POST" && status != 201) ==>
              var cj := RC.ReadBody(body).value.0;
              RC.EmptyResult(cj).Err? ==> r == Err(RC.EmptyResult(cj).error)
    ensures RC.ReadBody(body).Ok? && verb != "DELETE" && !(verb == "POST" && status != 201) ==>
              var cj := RC.ReadBody(body).value.0;
              (RC.EmptyResult(cj) == Ok(true) || (RC.EmptyResult(cj).Ok? && status == 404)) ==>
                r == if IsTrue(raiseOnEmpty) then Err(NoResults(RC.NoResultsMessage)) else ResultOf(cj)
    ensures RC.ReadBody(body).Ok? && verb != "DELETE" && !(verb == "POST" && status != 201) ==>
              var (cj, se) := RC.ReadBody(body).value;
              RC.EmptyResult(cj) == Ok(false) && status != 404 ==>
                r == if JContains(cj, "error") == Ok(true)
                     then Err(LE.NewUnexpectedResponse(200, status, verb, se.summary, se.details))
                     else ResultOf(cj)
  {
    var (cj, se) :- RC.ReadBody(body);
    if verb == "DELETE" then
      if status == 204 then Ok(RC.Success)
      else Err(LE.NewUnexpectedResponse(204, status, verb, se.summary, se.details))
    else if verb == "POST" && status != 201 then
      Err(LE.NewUnexpectedResponse(201, status, verb, se.summary, se.details))
    else
      var empty :- RC.EmptyResult(cj);
      if empty || status == 404 then
        if IsTrue(raiseOnEmpty) then Err(NoResults(RC.NoResultsMessage)) else ResultOf(cj)
      else
        // `cj` passed the `in` test above, so this one cannot raise
        if JContains(cj, "error") == Ok(true) then Err(LE.NewUnexpectedResponse(200, status, verb, se.summary, se.details))
        else ResultOf(cj)
  }

  /** A GET whose body holds a non-empty `result` list and no `error` returns that list. */
  lemma ListResult(entries: Dict<Json>, items: seq<Json>, status: int, raiseOnEmpty: Value)
    requires Get(entries, "result") == Some(JArr(items)) && |items| > 0
    requires !HasKey(entries, "error") && status != 404
    ensures Content("GET", status, Some(JObj(entries)), raiseOnEmpty) == Ok(JArr(items))
  {
  }

  /**
   * An empty `result` list raises `NoResults` only when `raise_on_empty is
   * True`; any other setting (`False`, but also `0` or `None`) gets the
   * empty list back.
   */
  lemma EmptyList(status: int, raiseOnEmpty: Value)
    requires status != 404
    ensures var body := Some(JObj([("result", JArr([]))]));
      Content("GET", status, body, raiseOnEmpty)
      == if IsTrue(raiseOnEmpty) then Err(NoResults(RC.NoResultsMessage)) else Ok(JArr([]))
  {
    var entries: Dict<Json> := [("result", JArr([]))];
    assert Get(entries, "result") == Some(JArr([]));
    assert !HasKey(entries, "error");
  }

  /** A 404 without a JSON body is `NoResults` or, when not raising on empty, `MissingResult`. */
  lemma NotFoundWithoutBody(verb: string, raiseOnEmpty: Value)
    requires verb != "DELETE" && verb != "POST"
    ensures Content(verb, 404, None, raiseOnEmpty)
            == if IsTrue(raiseOnEmpty) then Err(NoResults(RC.NoResultsMessage)) else Err(MissingResult)
  {
    assert !HasKey<Json>([], "result");
  }

  /**
   * An `error` object answered with status 200 and no `result` raises
   * `UnexpectedResponse` carrying the server's message and detail.
   */
  lemma ErrorBody(verb: string, message: Json, detail: Json)
    requires verb != "DELETE" && verb != "POST"
    ensures var e := JObj([("message", message), ("detail", detail)]);
      Content(verb, 200, Some(JObj([("error", e)])), VBool(true))
      == Err(UnexpectedResponse("Unexpected response on HTTP " + verb + " from server: " + J.Str(message),
                                Some(200), message, detail))
  {
    var e: Dict<Json> := [("message", message), ("detail", detail)];
    var body: Dict<Json> := [("error", JObj(e))];
    assert Get(e, "message") == Some(message);
    assert Get(e, "detail") == Some(detail);
    assert Get(body, "error") == Some(JObj(e));
    assert !HasKey(body, "result");
  }

  // ---- get_one ----

  /**
   * `get_one()`: the single record of the content; an empty content gives
   * `{}` and more than one record raises `MultipleResults`.
   */
  function GetOne(content: Result<Json>): (r: Result<Json>)
    ensures content.Err? ==> r == Err(content.error)
    ensures content.Ok? && content.value.JArr? ==>
              r == (if |content.value.items| > 1 then Err(MultipleResults("Multiple results for get_one()"))
                    else if |content.value.items| == 0 then Ok(JObj([]))
                    else Ok(content.value.items[0]))
    ensures r.Err? && r.error.MultipleResults? ==> content.Err? || (JLen(content.value).Ok? && JLen(content.value).value > 1)
  {
    var c :- content;
    var n :- JLen(c);
    if n > 1 then Err(MultipleResults("Multiple results for get_one()"))
    else if n == 0 then Ok(JObj([]))
    else JFirst(c)
  }

  // ---- delete / update / clone ----

  /**
   * The `try` around `get_one()` in `delete`, `update` and `clone`: the
   * record must carry a `sys_id`; `MultipleResults` and `NoResults` are
   * re-raised with the operation's own message, anything else passes.
   */
  function Locate(one: Result<Json>, m: RC.Mutation): (r: Result<Json>)
    ensures r.Ok? ==> one.Ok? && r.value == one.value && JContains(one.value, "sys_id") == Ok(true)
    ensures one.Err? && one.error.MultipleResults? ==> r == Err(MultipleResults(RC.MultipleMessage(m)))
    ensures one.Err? && one.error.NoResults? ==> r == Err(NoResults(RC.MissingMessage(m)))
    ensures one.Err? && !one.error.MultipleResults? && !one.error.NoResults? ==> r == one
    ensures one.Ok? && JContains(one.value, "sys_id") == Ok(false) ==> r == Err(NoResults(RC.MissingMessage(m)))
    ensures one.Ok? && JContains(one.value, "sys_id").Err? ==> r == Err(TypeError)
  {
    match one
    case Err(MultipleResults(_)) => Err(MultipleResults(RC.MultipleMessage(m)))
    case Err(NoResults(_)) => Err(NoResults(RC.MissingMessage(m)))
    case Err(e) => Err(e)
    case Ok(record) =>
      var present :- JContains(record, "sys_id");
      if present then Ok(record) else Err(NoResults(RC.MissingMessage(m)))
  }

  const BasePath := "api/now"

  /** `_get_url(resource, item, sys_id)`: `/<sys_id>` is appended only when it is truthy. */
  function Url(baseUrl: string, resource: string, item: string, sysId: Json): string {
    var url := baseUrl + "/" + BasePath + "/" + resource + "/" + item;
    if J.Truthy(sysId) then url + "/" + J.Str(sysId) else url
  }

  /** The path below the base URL, as written by `_get_url`. */
  function UrlTail(resource: string, item: string, sysId: Json): string {
    "api/now/" + resource + "/" + item + (if J.Truthy(sysId) then "/" + J.Str(sysId) else "")
  }

  /** The components of that path. */
  function UrlParts(resource: string, item: string, sysId: Json): seq<string> {
    ["api", "now", resource, item] + (if J.Truthy(sysId) then [J.Str(sysId)] else [])
  }

  lemma UrlHasTail(baseUrl: string, resource: string, item: string, sysId: Json)
    ensures Url(baseUrl, resource, item, sysId) == baseUrl + "/" + UrlTail(resource, item, sysId)
  {
  }

  lemma TailJoinsParts(resource: string, item: string, sysId: Json)
    ensures Join("/", UrlParts(resource, item, sysId)) == UrlTail(resource, item, sysId)
  {
    var suffix := if J.Truthy(sysId) then "/" + J.Str(sysId) else "";
    var last := [item] + (if J.Truthy(sysId) then [J.Str(sysId)] else []);
    if J.Truthy(sysId) {
      JoinCons("/", item, [J.Str(sysId)]);
    }
    assert Join("/", last) == item + suffix;
    JoinCons("/", resource, last);
    JoinCons("/", "now", [resource] + last);
    JoinCons("/", "api", ["now"] + ([resource] + last));
    assert UrlParts(resource, item, sysId) == ["api"] + (["now"] + ([resource] + last));
    var r := resource + "/" + (item + suffix);
    assert UrlTail(resource, item, sysId) == "api/now/" + r;
    assert "api/now/" == "api" + "/" + "now" + "/";
  }

  /**
   * Below the base URL the address splits at `/` into `api`, `now`, the
   * resource, the item and (when truthy) the sys_id, when none of those
   * contains a `/`.
   */
  lemma {:induction false} UrlComponents(baseUrl: string, resource: string, item: string, sysId: Json)
    requires '/' !in resource && '/' !in item && '/' !in J.Str(sysId)
    ensures var u := Url(baseUrl, resource, item, sysId);
      |u| > |baseUrl| && u[..|baseUrl| + 1] == baseUrl + "/"
      && Split(u[|baseUrl| + 1..], '/') == ["api", "now", resource, item] + (if J.Truthy(sysId) then [J.Str(sysId)] else [])
  {
    var u := Url(baseUrl, resource, item, sysId);
    var tail := UrlTail(resource, item, sysId);
    var parts := UrlParts(resource, item, sysId);
    UrlHasTail(baseUrl, resource, item, sysId);
    assert u[|baseUrl| + 1..] == tail;
    TailJoinsParts(resource, item, sysId);
    assert forall i :: 0 <= i < |parts| ==> '/' !in parts[i];
    JoinSplit(parts, '/');
  }

  /** The table URL `delete` addresses. */
  function DeleteUrl(baseUrl: string, table: string, one: Result<Json>): (r: Result<string>)
    ensures r.Ok? ==> Locate(one, RC.Deletion).Ok?
    ensures Locate(one, RC.Deletion).Err? ==> r == Err(Locate(one, RC.Deletion).error)
    ensures r.Ok? ==> one.value.JObj? && r.value == Url(baseUrl, "table", table, Get(one.value.entries, "sys_id").value)
  {
    var record :- Locate(one, RC.Deletion);
    var sysId :- JGetItem(record, "sys_id");
    Ok(Url(baseUrl, "table", table, sysId))
  }

  /** The table URL `update` addresses; a payload that is not a dict is refused once the record is found. */
  function UpdateUrl(baseUrl: string, table: string, one: Result<Json>, payload: Value): (r: Result<string>)
    ensures Locate(one, RC.Updating).Err? ==> r == Err(Locate(one, RC.Updating).error)
    ensures Locate(one, RC.Updating).Ok? && !payload.VDict? ==> r == Err(InvalidUsage)
    ensures r.Ok? ==> payload.VDict? && one.value.JObj?
                      && r.value == Url(baseUrl, "table", table, Get(one.value.entries, "sys_id").value)
  {
    var record :- Locate(one, RC.Updating);
    if !payload.VDict? then Err(InvalidUsage)
    else
      var sysId :- JGetItem(record, "sys_id");
      Ok(Url(baseUrl, "table", table, sysId))
  }

  /**
   * The payload `clone` inserts: `reset_fields` must be a list, checked
   * before the record is fetched; the record's fields minus the reset
   * ones, references flattened.
   */
  function Clone(resetFields: Value, one: Result<Json>): (r: Result<Dict<Json>>)
    ensures !resetFields.VList? ==> r == Err(InvalidUsage)
    ensures resetFields.VList? && Locate(one, RC.Cloning).Err? ==> r == Err(Locate(one, RC.Cloning).error)
    ensures r.Ok? ==> resetFields.VList? && one.Ok? && one.value.JObj?
                      && r.value == RC.ClonePayload(one.value.entries, resetFields.items)
  {
    if !resetFields.VList? then Err(InvalidUsage)
    else
      var record :- Locate(one, RC.Cloning);
      if record.JObj? then Ok(RC.ClonePayload(record.entries, resetFields.items)) else Err(TypeError)
  }
}
