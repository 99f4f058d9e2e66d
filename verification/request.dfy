/**
 * `pysnow.request.Request`: the second generation of the buffered
 * request. It differs from `LegacyRequest` in the builder class it
 * accepts, in answering an empty result with `[{}]` when
 * `raise_on_empty is False`, in `get_one`, and in raising
 * `NotImplementedError` for several matching records.
 */
module Request {
  import opened Options
  import opened Strings
  import opened Dicts
  import opened Json
  import J = Json
  import opened Values
  import QP = QueryParams
  import RC = RequestCommon
  import LE = LegacyExceptions
  import LR = LegacyRequest

  // ---- _get_formatted_query ----

  /** The `sysparm_query` text: a `pysnow.query` builder, a dict or a string. */
  function QueryText(query: Value): (r: Result<string>)
    ensures query.VStr? ==> r == Ok(query.s)
    ensures query.VDict? ==> r == QP.DictQuery(query.entries)
    ensures query.VBuilder? && query.lineage == LegacyQueryClass ==> r == query.rendering
    ensures !query.VStr? && !query.VDict? && !(query.VBuilder? && query.lineage == LegacyQueryClass) ==> r == Err(InvalidUsage)
  {
    QP.Stringify(query, {LegacyQueryClass})
  }

  /**
   * `_get_formatted_query(fields, limit)`: `sysparm_query`, overlaid by the
   * request's own parameters, then `limit` with the pagination header
   * suppressed, then the comma-joined `fields`. `len(fields)` is taken
   * before the list check, so an unsized value raises `TypeError` and a
   * non-empty non-list `InvalidUsage`.
   */
  function FormattedQuery(query: Value, requestParams: Dict<Value>, fields: Value, limit: Value): (r: Result<Dict<Value>>)
    ensures QueryText(query).Err? ==> r == Err(QueryText(query).error)
    ensures QueryText(query).Ok? && Len(fields).Err? ==> r == Err(TypeError)
    ensures QueryText(query).Ok? && Len(fields).Ok? && Len(fields).value > 0 && !fields.VList? ==> r == Err(InvalidUsage)
    ensures r.Ok? ==> Len(fields).Ok? && (Len(fields).value == 0 || (fields.VList? && JoinStrings(",", fields.items).Ok?))
    ensures (QueryText(query).Ok? && (fields == VList([]) || fields == VStr("") || fields == VTuple([]) || fields == VDict([]))) ==> r.Ok?
  {
    var text :- QueryText(query);
    var params := Update([("sysparm_query", VStr(text))], requestParams);
    var params := if limit != VNone
      then Update(params, [("sysparm_limit", limit), ("sysparm_suppress_pagination_header", VBool(true))])
      else params;
    var n :- Len(fields);
    if n > 0 then
      if fields.VList? then
        var joined :- JoinStrings(",", fields.items);
        Ok(Update(params, [("sysparm_fields", VStr(joined))]))
      else Err(InvalidUsage)
    else Ok(params)
  }

  /** Every parameter read back from the dict: later layers win, unset keys are absent. */
  lemma {:induction false} Layering(query: Value, requestParams: Dict<Value>, fields: Value, limit: Value, k: string)
    requires Distinct(requestParams)
    requires FormattedQuery(query, requestParams, fields, limit).Ok?
    ensures Get(FormattedQuery(query, requestParams, fields, limit).value, k)
            == if k == "sysparm_fields" && Len(fields).value > 0 then Some(VStr(JoinStrings(",", fields.items).value))
               else if k == "sysparm_limit" && limit != VNone then Some(limit)
               else if k == "sysparm_suppress_pagination_header" && limit != VNone then Some(VBool(true))
               else if HasKey(requestParams, k) then Get(requestParams, k)
               else if k == "sysparm_query" then Some(VStr(QueryText(query).value))
               else None
  {
    var text := QueryText(query).value;
    var base: Dict<Value> := [("sysparm_query", VStr(text))];
    GetSingle("sysparm_query", VStr(text), k);
    var p1 := Update(base, requestParams);
    UpdateGet(base, requestParams, k);
    var p2 := if limit != VNone
      then Update(p1, [("sysparm_limit", limit), ("sysparm_suppress_pagination_header", VBool(true))])
      else p1;
    if limit != VNone {
      UpdateTwoGet(p1, "sysparm_limit", limit, "sysparm_suppress_pagination_header", VBool(true), k);
    }
    var r := FormattedQuery(query, requestParams, fields, limit).value;
    if Len(fields).value > 0 {
      var joined := JoinStrings(",", fields.items).value;
      UpdateOneGet(p2, "sysparm_fields", VStr(joined), k);
      assert r == Update(p2, [("sysparm_fields", VStr(joined))]);
    } else {
      assert r == p2;
    }
  }

  // ---- _get_content ----

  /** What an empty result becomes when the request does not raise on it. */
  const Placeholder: Json := JArr([JObj([])])

  /**
   * `_get_content(response)`: as in the legacy request, except that an
   * empty result or a 404 is replaced by `[{}]` when `raise_on_empty is
   * False` and raises `NoResults` for every other setting, and that a
   * missing `result` raises `KeyError`.
   */
  function Content(verb: string, status: int, body: Option<Json>, raiseOnEmpty: Value): (r: Result<Json>)
    ensures verb == "DELETE" && RC.ReadBody(body).Ok? ==> (r.Ok? <==> status == 204)
    ensures verb == "DELETE" && r.Ok? ==> r.value == RC.Success
    ensures verb == "DELETE" && status != 204 && RC.ReadBody(body).Ok? ==>
              r.Err? && r.error.UnexpectedResponse? && r.error.statusCode == Some(status)
    ensures verb == "POST" && status != 201 && RC.ReadBody(body).Ok? ==>
              r.Err? && r.error.UnexpectedResponse? && r.error.statusCode == Some(status)
    ensures verb != "DELETE" && r.Ok? && r.value != Placeholder ==>
              body.Some? && body.value.JObj? && Get(body.value.entries, "result") == Some(r.value)
    ensures r.Err? && r.error.NoResults? ==>
              !IsFalse(raiseOnEmpty) && r.error.msg == RC.NoResultsMessage
              && (status == 404 || (body.Some? && RC.EmptyResult(body.value) == Ok(true)))
    ensures verb != "DELETE" && !(verb == "POST" && status != 201) && status == 404 && body.None? ==>
              r == if IsFalse(raiseOnEmpty) then Ok(Placeholder) else Err(NoResults(RC.NoResultsMessage))
    // the decision table, one clause per branch
    ensures RC.ReadBody(body).Err? ==> r == Err(RC.ReadBody(body).error)
    ensures RC.ReadBody(body).Ok? && verb == "DELETE" && status != 204 ==>
              var se := RC.ReadBody(body).value.1;
              r == Err(LE.NewUnexpectedResponse(204, status, verb, se.summary, se.details))
    ensures RC.ReadBody(body).Ok? && verb == "POST" && status != 201 ==>
              var se := RC.ReadBody(body).value.1;
              r == Err(LE.NewUnexpectedResponse(201, status, verb, se.summary, se.details))
    ensures RC.ReadBody(body).Ok? && verb != "DELETE" && !(verb == "POST" && status != 201) ==>
              var cj := RC.ReadBody(body).value.0;
              RC.EmptyResult(cj).Err? ==> r == Err(RC.EmptyResult(cj).error)
    ensures RC.ReadBody(body).Ok? && verb != "DELETE" && !(verb == "POST" && status != 201) ==>
              var cj := RC.ReadBody(body).value.0;
              (RC.EmptyResult(cj) == Ok(true) || (RC.EmptyResult(cj).Ok? && status == 404)) ==>
                r == if !IsFalse(raiseOnEmpty) then Err(NoResults(RC.NoResultsMessage))
                     else if cj.JObj? then Ok(Placeholder) else Err(TypeError)
    ensures RC.ReadBody(body).Ok? && verb != "DELETE" && !(verb == "POST" && status != 201) ==>
              var (cj, se) := RC.ReadBody(body).value;
              RC.EmptyResult(cj) == Ok(false) && status != 404 ==>
                r == if JContains(cj, "error") == Ok(true)
                     then Err(LE.NewUnexpectedResponse(200, status, verb, se.summary, se.details))
                     else JGetItem(cj, "result")
  {
    var (cj, se) :- RC.ReadBody(body);
    if verb == "DELETE" then
      if status == 204 then Ok(RC.Success)
      else Err(LE.NewUnexpectedResponse(204, status, verb, se.summary, se.details))
    else if verb == "POST" && status != 201 then
      Err(LE.NewUnexpectedResponse(201, status, verb, se.summary, se.details))
    else
      var empty :- RC.EmptyResult(cj);
      if empty || status == 404 then
        if IsFalse(raiseOnEmpty) then
          // `content_json['result'] = [{}]` needs a dict
          if cj.JObj? then Ok(Placeholder) else Err(TypeError)
        else Err(NoResults(RC.NoResultsMessage))
      else if JContains(cj, "error") == Ok(true) then
        Err(LE.NewUnexpectedResponse(200, status, verb, se.summary, se.details))
      else JGetItem(cj, "result")
  }

  /**
   * The two generations part on an empty result list: the legacy request
   * raises only for `True` and otherwise returns `[]`, this one returns
   * `[{}]` only for `False` and otherwise raises.
   */
  lemma EmptyListDiverges(status: int, raiseOnEmpty: Value)
    requires status != 404
    ensures var body := Some(JObj([("result", JArr([]))]));
      Content("GET", status, body, raiseOnEmpty)
        == (if IsFalse(raiseOnEmpty) then Ok(Placeholder) else Err(NoResults(RC.NoResultsMessage)))
      && LR.Content("GET", status, body, raiseOnEmpty)
        == (if IsTrue(raiseOnEmpty) then Err(NoResults(RC.NoResultsMessage)) else Ok(JArr([])))
  {
    var entries: Dict<Json> := [("result", JArr([]))];
    assert Get(entries, "result") == Some(JArr([]));
    assert !HasKey(entries, "error");
    LR.EmptyList(status, raiseOnEmpty);
  }

  /** On a non-empty result without `error` both generations return the same list. */
  lemma ListResultAgrees(entries: Dict<Json>, items: seq<Json>, status: int, raiseOnEmpty: Value)
    requires Get(entries, "result") == Some(JArr(items)) && |items| > 0
    requires !HasKey(entries, "error") && status != 404
    ensures Content("GET", status, Some(JObj(entries)), raiseOnEmpty) == Ok(JArr(items))
    ensures Content("GET", status, Some(JObj(entries)), raiseOnEmpty)
            == LR.Content("GET", status, Some(JObj(entries)), raiseOnEmpty)
  {
    LR.ListResult(entries, items, status, raiseOnEmpty);
  }

  /** Whether `_get_content` reaches its empty-result branch: an empty `result` or a 404. */
  predicate EmptyBranch(verb: string, status: int, body: Option<Json>) {
    && RC.ReadBody(body).Ok? && verb != "DELETE" && !(verb == "POST" && status != 201)
    && var cj := RC.ReadBody(body).value.0;
       RC.EmptyResult(cj) == Ok(true) || (RC.EmptyResult(cj).Ok? && status == 404)
  }

  /**
   * The two generations answer every response alike, except in the
   * empty-result branch when `raise_on_empty` is not `True`, and except that
   * a body without `result` raises `MissingResult` in the legacy request
   * where this one fails on the subscript.
   */
  lemma ContentGenerations(verb: string, status: int, body: Option<Json>, raiseOnEmpty: Value)
    ensures var now := Content(verb, status, body, raiseOnEmpty);
      var legacy := LR.Content(verb, status, body, raiseOnEmpty);
      now != legacy ==>
        (EmptyBranch(verb, status, body) && !IsTrue(raiseOnEmpty))
        || (legacy == Err(MissingResult) && now.Err? && !EmptyBranch(verb, status, body))
  {
  }

  // ---- get_one ----

  /** `get_one()`: more than one record raises `MultipleResults`, otherwise `content[0]`. */
  function GetOne(content: Result<Json>): (r: Result<Json>)
    ensures content.Err? ==> r == Err(content.error)
    ensures content.Ok? && content.value.JArr? ==>
              r == (if |content.value.items| > 1 then Err(MultipleResults("Multiple results for one()"))
                    else if |content.value.items| == 0 then Err(IndexError)
                    else Ok(content.value.items[0]))
  {
    var c :- content;
    var n :- JLen(c);
    if n > 1 then Err(MultipleResults("Multiple results for one()")) else JFirst(c)
  }

  /** With `raise_on_empty=False`, `get_one()` on an empty result reads the placeholder `{}`. */
  lemma GetOneOfNothing(status: int)
    requires status != 404
    ensures GetOne(Content("GET", status, Some(JObj([("result", JArr([]))])), VBool(false))) == Ok(JObj([]))
  {
    EmptyListDiverges(status, VBool(false));
  }

  // ---- delete / update / clone ----

  /**
   * The `try` around `get_one()`: several records become
   * `NotImplementedError`, no record (or one without `sys_id`) `NoResults`
   * with the operation's message; anything else passes.
   */
  function Locate(one: Result<Json>, m: RC.Mutation): (r: Result<Json>)
    ensures r.Ok? ==> one.Ok? && r.value == one.value && JContains(one.value, "sys_id") == Ok(true)
    ensures one.Err? && one.error.MultipleResults? ==> r == Err(NotImplementedError(RC.MultipleMessage(m)))
    ensures one.Err? && one.error.NoResults? ==> r == Err(NoResults(RC.MissingMessage(m)))
    ensures one.Err? && !one.error.MultipleResults? && !one.error.NoResults? ==> r == one
    ensures one.Ok? && JContains(one.value, "sys_id") == Ok(false) ==> r == Err(NoResults(RC.MissingMessage(m)))
    ensures one.Ok? && JContains(one.value, "sys_id").Err? ==> r == Err(TypeError)
  {
    match one
    case Err(MultipleResults(_)) => Err(NotImplementedError(RC.MultipleMessage(m)))
    case Err(NoResults(_)) => Err(NoResults(RC.MissingMessage(m)))
    case Err(e) => Err(e)
    case Ok(record) =>
      var present :- JContains(record, "sys_id");
      if present then Ok(record) else Err(NoResults(RC.MissingMessage(m)))
  }

  /** The two generations agree on a located record and differ only in the class of the multiple-records error. */
  lemma LocateGenerations(one: Result<Json>, m: RC.Mutation)
    ensures Locate(one, m).Ok? <==> LR.Locate(one, m).Ok?
    ensures one.Err? && one.error.MultipleResults? ==>
              Locate(one, m) == Err(NotImplementedError(LR.Locate(one, m).error.msg))
    ensures !(one.Err? && one.error.MultipleResults?) ==> Locate(one, m) == LR.Locate(one, m)
  {
  }

  const Base := "api/now"

  /** `self.fqdn`. */
  function Fqdn(instance: string): string {
    instance + ".service-now.com"
  }

  /** `_get_url(resource, item, sys_id)` on the instance's host. */
  function Url(instance: string, resource: string, item: string, sysId: Json): string {
    var url := "https://" + Fqdn(instance) + "/" + Base + "/" + resource + "/" + item;
    if J.Truthy(sysId) then url + "/" + J.Str(sysId) else url
  }

  /**
   * The address is the legacy one with the base URL
   * `https://<instance>.service-now.com`.
   */
  lemma UrlIsLegacyOnInstance(instance: string, resource: string, item: string, sysId: Json)
    ensures Url(instance, resource, item, sysId) == LR.Url("https://" + Fqdn(instance), resource, item, sysId)
  {
  }

  /** The table URL `delete` addresses. */
  function DeleteUrl(instance: string, table: string, one: Result<Json>): (r: Result<string>)
    ensures Locate(one, RC.Deletion).Err? ==> r == Err(Locate(one, RC.Deletion).error)
    ensures r.Ok? ==> one.Ok? && one.value.JObj?
                      && r.value == Url(instance, "table", table, Get(one.value.entries, "sys_id").value)
  {
    var record :- Locate(one, RC.Deletion);
    var sysId :- JGetItem(record, "sys_id");
    Ok(Url(instance, "table", table, sysId))
  }

  /** The table URL `update` addresses; a non-dict payload is refused once the record is found. */
  function UpdateUrl(instance: string, table: string, one: Result<Json>, payload: Value): (r: Result<string>)
    ensures Locate(one, RC.Updating).Err? ==> r == Err(Locate(one, RC.Updating).error)
    ensures Locate(one, RC.Updating).Ok? && !payload.VDict? ==> r == Err(InvalidUsage)
    ensures r.Ok? ==> payload.VDict? && one.Ok? && one.value.JObj?
                      && r.value == Url(instance, "table", table, Get(one.value.entries, "sys_id").value)
  {
    var record :- Locate(one, RC.Updating);
    if !payload.VDict? then Err(InvalidUsage)
    else
      var sysId :- JGetItem(record, "sys_id");
      Ok(Url(instance, "table", table, sysId))
  }

  /** The payload `clone` inserts; `reset_fields` must be a list. */
  function Clone(resetFields: Value, one: Result<Json>): (r: Result<Dict<Json>>)
    ensures !resetFields.VList? ==> r == Err(InvalidUsage)
    ensures resetFields.VList? && Locate(one, RC.Cloning).Err? ==> r == Err(Locate(one, RC.Cloning).error)
    ensures r.Ok? ==> resetFields.VList? && one.Ok? && one.value.JObj?
                      && r.value == RC.ClonePayload(one.value.entries, resetFields.items)
  {
    if !resetFields.VList? then Err(InvalidUsage)
    else
      var record :- Locate(one, RC.Cloning);
      if record.JObj? then Ok(RC.ClonePayload(record.entries, resetFields.items)) else Err(TypeError)
  }
}
