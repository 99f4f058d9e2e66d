/**
 * `pysnow.py`, the single-file first release: its own
 * `UnexpectedResponse`, the `Client` payload check, and the `Request`
 * that formats a query, interprets a buffered response, fetches one
 * record for `delete`/`update` and builds table and attachment URLs.
 */
module Pysnow {
  import opened Options
  import opened Strings
  import opened Dicts
  import opened Json
  import J = Json
  import opened Values
  import QP = QueryParams
  import RC = RequestCommon
  import LE = LegacyExceptions
  import R = Request

  /**
   * `UnexpectedResponse(...)`: the same message as the later module, but
   * no `status_code` attribute.
   */
  function NewUnexpectedResponse(expected: int, actual: int, verb: string, summary: Json, details: Json): (e: Error)
    ensures e.UnexpectedResponse? && e.statusCode.None?
    ensures e.summary == summary && e.details == details
    ensures expected == actual ==> e.text == "Unexpected response on HTTP " + verb + " from server: " + J.Str(summary)
    ensures expected != actual ==> e.text == "Unexpected HTTP " + verb + " response code. Expected "
                                            + IntToString(expected) + ", got " + IntToString(actual)
  {
    UnexpectedResponse(LE.Message(expected, actual, verb, summary), None, summary, details)
  }

  /** The settings a `Client` hands every `Request`. */
  datatype Client = Client(instance: string, raiseOnEmpty: Value, defaultPayload: Dict<Value>)

  /** `Client(instance, user, password, raise_on_empty, default_payload)`: the payload must be a dict. */
  function NewClient(instance: string, raiseOnEmpty: Value, defaultPayload: Value): (r: Result<Client>)
    ensures r.Ok? <==> defaultPayload.VDict?
    ensures r.Err? ==> r.error == InvalidUsage
    ensures r.Ok? ==> r.value.defaultPayload == defaultPayload.entries && r.value.instance == instance
                      && r.value.raiseOnEmpty == raiseOnEmpty
  {
    if defaultPayload.VDict? then Ok(Client(instance, raiseOnEmpty, defaultPayload.entries)) else Err(InvalidUsage)
  }

  /**
   * `_get_formatted_query(fields)`: a dict or a string query (no builder
   * exists yet), overlaid by the default payload, then the comma-joined
   * `fields` when non-empty.
   */
  function FormattedQuery(query: Value, defaultPayload: Dict<Value>, fields: Value): (r: Result<Dict<Value>>)
    ensures !(query.VDict? || query.VStr?) ==> r == Err(InvalidUsage)
    ensures query.VStr? && Len(fields).Err? ==> r == Err(TypeError)
    ensures query.VStr? && Len(fields).Ok? && Len(fields).value > 0 && !fields.VList? ==> r == Err(InvalidUsage)
    ensures r.Ok? ==> Len(fields).Ok? && (Len(fields).value == 0 || (fields.VList? && JoinStrings(",", fields.items).Ok?))
  {
    var text :- QP.Stringify(query, {});
    var params := Update([("sysparm_query", VStr(text))], defaultPayload);
    var n :- Len(fields);
    if n > 0 then
      if fields.VList? then
        var joined :- JoinStrings(",", fields.items);
        Ok(Update(params, [("sysparm_fields", VStr(joined))]))
      else Err(InvalidUsage)
    else Ok(params)
  }

  /**
   * For a dict or string query the parameters are those of the later
   * `Request` without a limit, its request parameters being the default
   * payload; a builder, which the later one accepts, is refused.
   */
  lemma FormattedQueryAsLater(query: Value, defaultPayload: Dict<Value>, fields: Value)
    ensures !query.VBuilder? ==> FormattedQuery(query, defaultPayload, fields) == R.FormattedQuery(query, defaultPayload, fields, VNone)
    ensures query.VBuilder? ==> FormattedQuery(query, defaultPayload, fields) == Err(InvalidUsage)
  {
  }

  /** The error as this module raises it: `UnexpectedResponse` has no status code. */
  function Forget(e: Error): (r: Error)
    ensures e.UnexpectedResponse? ==> r == e.(statusCode := None)
    ensures !e.UnexpectedResponse? ==> r == e
  {
    if e.UnexpectedResponse? then e.(statusCode := None) else e
  }

  /**
   * `_get_content(response)`: a body that is not JSON raises `ValueError`
   * (there is no fallback to `{}`); otherwise the later `Request`'s
   * decision table.
   */
  function Content(verb: string, status: int, body: Option<Json>, raiseOnEmpty: Value): (r: Result<Json>)
    ensures body.None? ==> r == Err(ValueError)
    ensures verb == "DELETE" && body.Some? && RC.ReadServerError(body.value).Ok? ==> (r.Ok? <==> status == 204)
    ensures verb == "POST" && status != 201 && body.Some? && RC.ReadServerError(body.value).Ok? ==>
              r.Err? && r.error.UnexpectedResponse? && r.error.statusCode.None?
    ensures r.Err? && r.error.NoResults? ==> !IsFalse(raiseOnEmpty) && r.error.msg == RC.NoResultsMessage
  {
    if body.None? then Err(ValueError)
    else
      var cj := body.value;
      var se :- RC.ReadServerError(cj);
      if verb == "DELETE" then
        if status == 204 then Ok(RC.Success)
        else Err(NewUnexpectedResponse(204, status, verb, se.summary, se.details))
      else if verb == "POST" && status != 201 then
        Err(NewUnexpectedResponse(201, status, verb, se.summary, se.details))
      else
        var empty :- RC.EmptyResult(cj);
        if empty || status == 404 then
          if IsFalse(raiseOnEmpty) then
            if cj.JObj? then Ok(R.Placeholder) else Err(TypeError)
          else Err(NoResults(RC.NoResultsMessage))
        else if JContains(cj, "error") == Ok(true) then
          Err(NewUnexpectedResponse(200, status, verb, se.summary, se.details))
        else JGetItem(cj, "result")
  }

  /**
   * On a JSON body the first release decides exactly as the later
   * `Request`, its errors lacking only the status code.
   */
  lemma ContentAsLater(verb: string, status: int, body: Json, raiseOnEmpty: Value)
    ensures var later := R.Content(verb, status, Some(body), raiseOnEmpty);
      Content(verb, status, Some(body), raiseOnEmpty)
      == if later.Ok? then later else Err(Forget(later.error))
  {
  }

  /** `get_one()`: more than one record raises `MultipleResults`, otherwise `content[0]`. */
  function GetOne(content: Result<Json>): (r: Result<Json>)
    ensures content.Err? ==> r == Err(content.error)
    ensures content.Ok? && content.value.JArr? ==>
              r == (if |content.value.items| > 1 then Err(MultipleResults("Multiple results for one()"))
                    else if |content.value.items| == 0 then Err(IndexError)
                    else Ok(content.value.items[0]))
    ensures r.Ok? ==> content.Ok? && JLen(content.value).Ok? && JLen(content.value).value <= 1
  {
    var c :- content;
    var n :- JLen(c);
    if n > 1 then Err(MultipleResults("Multiple results for one()")) else JFirst(c)
  }

  // ---- delete / update ----

  /**
   * `get_one()['sys_id']` in `delete`: a `KeyError` (no `sys_id`, or a
   * dict-shaped content) becomes `NoResults`, several records
   * `NotImplementedError`.
   */
  function DeleteSysId(one: Result<Json>): (r: Result<Json>)
    ensures one.Err? && one.error.MultipleResults? ==> r == Err(NotImplementedError("Deletion of multiple records is not supported"))
    ensures one.Err? && one.error == KeyError ==> r == Err(NoResults("Attempted to delete a non-existing record"))
    ensures one.Ok? && one.value.JObj? && !HasKey(one.value.entries, "sys_id") ==>
              r == Err(NoResults("Attempted to delete a non-existing record"))
    ensures r.Ok? ==> one.Ok? && one.value.JObj? && Get(one.value.entries, "sys_id") == Some(r.value)
  {
    match one
    case Err(MultipleResults(_)) => Err(NotImplementedError("Deletion of multiple records is not supported"))
    case Err(KeyError) => Err(NoResults("Attempted to delete a non-existing record"))
    case Err(e) => Err(e)
    case Ok(record) =>
      match JGetItem(record, "sys_id")
      case Err(KeyError) => Err(NoResults("Attempted to delete a non-existing record"))
      case other => other
  }

  /**
   * `get_one()['sys_id']` in `update`: a `KeyError` becomes `InvalidUsage`,
   * several records `NotImplementedError`.
   */
  function UpdateSysId(one: Result<Json>): (r: Result<Json>)
    ensures one.Err? && one.error.MultipleResults? ==> r == Err(NotImplementedError("Update of multiple records is not supported"))
    ensures one.Err? && one.error == KeyError ==> r == Err(InvalidUsage)
    ensures one.Ok? && one.value.JObj? && !HasKey(one.value.entries, "sys_id") ==> r == Err(InvalidUsage)
    ensures r.Ok? ==> one.Ok? && one.value.JObj? && Get(one.value.entries, "sys_id") == Some(r.value)
  {
    match one
    case Err(MultipleResults(_)) => Err(NotImplementedError("Update of multiple records is not supported"))
    case Err(KeyError) => Err(InvalidUsage)
    case Err(e) => Err(e)
    case Ok(record) =>
      match JGetItem(record, "sys_id")
      case Err(KeyError) => Err(InvalidUsage)
      case other => other
  }

  /**
   * `delete` and `update` fetch the same `sys_id` and fail alike, except
   * that a missing record is `NoResults` for one and `InvalidUsage` for
   * the other.
   */
  lemma MissingRecordDiffers(one: Result<Json>)
    ensures DeleteSysId(one).Ok? <==> UpdateSysId(one).Ok?
    ensures DeleteSysId(one).Ok? ==> DeleteSysId(one) == UpdateSysId(one)
    ensures one != Err(InvalidUsage) && one != Err(NoResults("Attempted to delete a non-existing record")) ==>
              (DeleteSysId(one) == Err(NoResults("Attempted to delete a non-existing record"))
               <==> UpdateSysId(one) == Err(InvalidUsage))
  {
  }

  /** The URL `delete` addresses. */
  function DeleteUrl(instance: string, table: string, one: Result<Json>): (r: Result<string>)
    ensures DeleteSysId(one).Err? ==> r == Err(DeleteSysId(one).error)
    ensures r.Ok? ==> r.value == Url(instance, table, DeleteSysId(one).value)
  {
    var sysId :- DeleteSysId(one);
    Ok(Url(instance, table, sysId))
  }

  /** The URL `update` addresses; a non-dict payload is refused once the `sys_id` is found. */
  function UpdateUrl(instance: string, table: string, one: Result<Json>, payload: Value): (r: Result<string>)
    ensures UpdateSysId(one).Err? ==> r == Err(UpdateSysId(one).error)
    ensures UpdateSysId(one).Ok? && !payload.VDict? ==> r == Err(InvalidUsage)
    ensures r.Ok? ==> payload.VDict? && r.value == Url(instance, table, UpdateSysId(one).value)
  {
    var sysId :- UpdateSysId(one);
    if payload.VDict? then Ok(Url(instance, table, sysId)) else Err(InvalidUsage)
  }

  // ---- URLs ----

  const Base := "api/now"

  function Fqdn(instance: string): string {
    instance + ".service-now.com"
  }

  /** `_get_url(table, sys_id)`: the `attachment` table sits directly under the API base. */
  function Url(instance: string, table: string, sysId: Json): string {
    var base := if table == "attachment" then Base else Base + "/" + "table";
    var url := "https://" + Fqdn(instance) + "/" + base + "/" + table;
    if J.Truthy(sysId) then url + "/" + J.Str(sysId) else url
  }

  /** `_get_attachment_url(sys_id)`: always ends in `/upload`. */
  function AttachmentUrl(instance: string, sysId: Json): string {
    var url := "https://" + Fqdn(instance) + "/" + Base + "/attachment";
    var url := if J.Truthy(sysId) then url + "/" + J.Str(sysId) else url;
    url + "/" + "upload"
  }

  /** A table other than `attachment` has the later `Request`'s table URL. */
  lemma TableUrl(instance: string, table: string, sysId: Json)
    requires table != "attachment"
    ensures Url(instance, table, sysId) == R.Url(instance, "table", table, sysId)
  {
    var head := "https://" + Fqdn(instance) + "/";
    assert head + (Base + "/" + "table") + "/" + table == head + Base + "/" + "table" + "/" + table;
  }

  /** The `attachment` table drops the `/table` segment, and the upload URL is its URL plus `/upload`. */
  lemma AttachmentUrls(instance: string, sysId: Json)
    ensures Url(instance, "attachment", sysId) + "/upload" == AttachmentUrl(instance, sysId)
    ensures Url(instance, "attachment", JNull) == "https://" + instance + ".service-now.com/api/now/attachment"
  {
    AttachmentUrlWithSysId(instance, sysId);
    AttachmentUrlBare(instance);
  }

  lemma AttachmentUrlWithSysId(instance: string, sysId: Json)
    ensures Url(instance, "attachment", sysId) + "/upload" == AttachmentUrl(instance, sysId)
  {
    var h := "https://" + Fqdn(instance) + "/" + Base;
    assert h + "/" + "attachment" == h + "/attachment";
    var u := Url(instance, "attachment", sysId);
    assert u + "/upload" == u + "/" + "upload";
  }

  lemma AttachmentUrlBare(instance: string)
    ensures Url(instance, "attachment", JNull) == "https://" + instance + ".service-now.com/api/now/attachment"
  {
    var p := "https://" + instance;
    assert Url(instance, "attachment", JNull) == p + ".service-now.com" + "/" + "api/now" + "/" + "attachment";
    assert ".service-now.com" + "/" + "api/now" + "/" + "attachment" == ".service-now.com/api/now/attachment";
  }
}
