/**
 * Steps of `_get_content` and `clone` that `pysnow.py`,
 * `pysnow/request.py` and `pysnow/legacy_request.py` write identically:
 * reading the server's error summary out of a decoded body, the
 * empty-result test, the `{'success': True}` answer to a delete, the
 * messages of the operations that act on one fetched record, and the
 * flattening of a record into a clone payload.
 */
module RequestCommon {
  import opened Options
  import opened Dicts
  import opened Json
  import opened Values

  /** The `server_error` dict: `summary` and `details`, `None` unless the body says otherwise. */
  datatype ServerError = ServerError(summary: Json, details: Json)

  const NoServerError := ServerError(JNull, JNull)

  /** What a successful delete returns instead of the body. */
  const Success: Json := JObj([("success", JBool(true))])

  /** `if key in e: server_error[...] = e[key]`, starting from `None`. */
  function Optional(e: Json, key: string): (r: Result<Json>)
    ensures r.Err? <==> !(e.JObj? || e.JArr? || e.JStr?) || (!e.JObj? && JContains(e, key) == Ok(true))
    ensures e.JObj? ==> r == Ok(Get(e.entries, key).GetOr(JNull))
  {
    var present :- JContains(e, key);
    if present then JGetItem(e, key) else Ok(JNull)
  }

  /**
   * The server's error summary: taken from `error.message` and
   * `error.detail` when the body has an `error` object. The `in` tests raise
   * `TypeError` on a body (or an `error` value) that is not a container.
   */
  function ReadServerError(cj: Json): (r: Result<ServerError>)
    ensures !(cj.JObj? || cj.JArr? || cj.JStr?) ==> r == Err(TypeError)
    ensures cj.JObj? && !HasKey(cj.entries, "error") ==> r == Ok(NoServerError)
    ensures cj.JObj? && Get(cj.entries, "error") == Some(JNull) ==> r == Err(TypeError)
    ensures cj.JObj? && Get(cj.entries, "error").Some? && Get(cj.entries, "error").value.JObj? ==>
              var e := Get(cj.entries, "error").value.entries;
              r == Ok(ServerError(Get(e, "message").GetOr(JNull), Get(e, "detail").GetOr(JNull)))
  {
    var hasError :- JContains(cj, "error");
    if !hasError then Ok(NoServerError)
    else
      var e :- JGetItem(cj, "error");
      var summary :- Optional(e, "message");
      var details :- Optional(e, "detail");
      Ok(ServerError(summary, details))
  }

  /** `"result" in cj and len(cj["result"]) == 0`, with `and` short-circuiting. */
  function EmptyResult(cj: Json): (r: Result<bool>)
    ensures !(cj.JObj? || cj.JArr? || cj.JStr?) ==> r == Err(TypeError)
    ensures cj.JObj? && !HasKey(cj.entries, "result") ==> r == Ok(false)
    ensures cj.JObj? && HasKey(cj.entries, "result") ==>
              var v := Get(cj.entries, "result").value;
              r == if JLen(v).Ok? then Ok(JLen(v).value == 0) else Err(TypeError)
    ensures r == Ok(true) ==> cj.JObj? && JLen(Get(cj.entries, "result").value) == Ok(0)
  {
    var present :- JContains(cj, "result");
    if !present then Ok(false)
    else
      var v :- JGetItem(cj, "result");
      var n :- JLen(v);
      Ok(n == 0)
  }

  /** The decoded body and the server's error summary; a body that is not JSON reads as `{}`. */
  function ReadBody(body: Option<Json>): (r: Result<(Json, ServerError)>)
    ensures body.None? ==> r == Ok((JObj([]), NoServerError))
    ensures body.Some? ==> (r.Ok? <==> ReadServerError(body.value).Ok?)
    ensures r.Ok? && body.Some? ==> r.value == (body.value, ReadServerError(body.value).value)
  {
    if body.None? then Ok((JObj([]), NoServerError))
    else
      var se :- ReadServerError(body.value);
      Ok((body.value, se))
  }

  const NoResultsMessage := "Query yielded no results"

  /** The three operations that first fetch the one record they act on. */
  datatype Mutation = Deletion | Updating | Cloning

  function MultipleMessage(m: Mutation): string {
    match m
    case Deletion => "Deletion of multiple records is not supported"
    case Updating => "Update of multiple records is not supported"
    case Cloning => "Cloning multiple records is not supported"
  }

  function MissingMessage(m: Mutation): string {
    match m
    case Deletion => "Cannot delete a non-existing record"
    case Updating => "Cannot update a non-existing record"
    case Cloning => "Cannot clone a non-existing record"
  }

  // ---- clone ----

  /** A reference field (a dict with a `value` key) is replaced by that value. */
  function Flatten(item: Json): (r: Json)
    ensures item.JObj? && HasKey(item.entries, "value") ==> Some(r) == Get(item.entries, "value")
    ensures !(item.JObj? && HasKey(item.entries, "value")) ==> r == item
  {
    if item.JObj? && HasKey(item.entries, "value") then Get(item.entries, "value").value else item
  }

  /** The `for field in response` loop of `clone`, continuing from `payload`. */
  function Fill(payload: Dict<Json>, entries: Dict<Json>, reset: seq<Value>): Dict<Json>
    decreases |entries|
  {
    if |entries| == 0 then payload
    else
      var k := entries[0].0;
      var next := if TextIn(k, reset) then payload else Put(payload, k, Flatten(entries[0].1));
      Fill(next, entries[1..], reset)
  }

  /** The clone payload built from a record's fields. */
  function ClonePayload(record: Dict<Json>, reset: seq<Value>): Dict<Json> {
    Fill([], record, reset)
  }

  /**
   * After the loop, a field of the record that is not reset holds its
   * flattened value; every other key reads as before the loop. A field is
   * reset when its name is listed, or when the list holds a criterion
   * `Field`, which compares equal to every name.
   */
  lemma {:induction false} FillGet(payload: Dict<Json>, entries: Dict<Json>, reset: seq<Value>, k: string)
    requires Distinct(entries)
    ensures Get(Fill(payload, entries, reset), k)
            == if HasKey(entries, k) && VStr(k) !in reset && !(exists i | 0 <= i < |reset| :: reset[i].VField?)
               then Some(Flatten(Get(entries, k).value)) else Get(payload, k)
    decreases |entries|
  {
    if |entries| > 0 {
      var k0 := entries[0].0;
      var next := if TextIn(k0, reset) then payload else Put(payload, k0, Flatten(entries[0].1));
      assert Keys(entries) == [k0] + Keys(entries[1..]);
      assert Distinct(entries[1..]);
      FillGet(next, entries[1..], reset, k);
      if k == k0 {
        assert !HasKey(entries[1..], k);
      } else {
        assert HasKey(entries, k) == HasKey(entries[1..], k);
      }
    }
  }

  /**
   * The clone payload holds exactly the record's fields that are not
   * reset, each with its flattened value.
   */
  lemma ClonePayloadGet(record: Dict<Json>, reset: seq<Value>, k: string)
    requires Distinct(record)
    ensures Get(ClonePayload(record, reset), k)
            == if HasKey(record, k) && VStr(k) !in reset && !(exists i | 0 <= i < |reset| :: reset[i].VField?)
               then Some(Flatten(Get(record, k).value)) else None
  {
    FillGet([], record, reset, k);
  }

  /** A criterion `Field` among the reset fields resets every field: the clone payload is empty. */
  lemma {:induction false} FieldResetsAll(payload: Dict<Json>, entries: Dict<Json>, reset: seq<Value>, j: nat)
    requires j < |reset| && reset[j].VField?
    ensures Fill(payload, entries, reset) == payload
    decreases |entries|
  {
    if |entries| > 0 {
      assert EqualsText(reset[j], entries[0].0);
      FieldResetsAll(payload, entries[1..], reset, j);
    }
  }

  /** With a criterion `Field` among the reset fields the clone payload is `{}`. */
  lemma ClonePayloadOfField(record: Dict<Json>, reset: seq<Value>)
    requires exists i | 0 <= i < |reset| :: reset[i].VField?
    ensures ClonePayload(record, reset) == []
  {
    var j :| 0 <= j < |reset| && reset[j].VField?;
    FieldResetsAll([], record, reset, j);
  }

  /** The message a 403 on the clone's insert is given. */
  const CloneHint := "Unable to create clone. Make sure unique fields has been reset."

  /** `except UnexpectedResponse as e: if e.status_code == 403: e.args = (...)`. */
  function CloneOutcome(inserted: Result<Json>): (r: Result<Json>)
    ensures inserted.Ok? ==> r == inserted
    ensures r.Err? <==> inserted.Err?
    ensures r.Err? && r.error != inserted.error ==>
              inserted.error.UnexpectedResponse? && inserted.error.statusCode == Some(403)
              && r.error == inserted.error.(text := CloneHint)
  {
    if inserted.Err? && inserted.error.UnexpectedResponse? && inserted.error.statusCode == Some(403)
    then Err(inserted.error.(text := CloneHint))
    else inserted
  }
}
