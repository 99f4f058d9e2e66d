/**
 * `pysnow.report.Report`: the counters a streamed response keeps about
 * itself. The resource and session it is given are only stored, and
 * appear here as opaque values; responses are of any type `Resp`.
 */
module Report {
  import opened Values

  datatype Report<Resp> = Report(
    xTotalCount: int,
    consumedRecords: int,
    responses: seq<Resp>,
    generatorSize: Value,
    requestParams: Value,
    resource: Value,
    session: Value)

  /** A new report: no total known (`-1`), nothing consumed, no responses. */
  function New<Resp>(resource: Value, generatorSize: Value, session: Value): (r: Report<Resp>)
    ensures r.xTotalCount == -1 && r.consumedRecords == 0 && r.responses == []
    ensures r.generatorSize == generatorSize && r.resource == resource && r.session == session
    ensures r.requestParams == VNone
  {
    Report(-1, 0, [], generatorSize, VNone, resource, session)
  }

  /** `set_x_total_count(count)`: an `int` that is not a `bool`, else `TypeError`. */
  function SetXTotalCount<Resp>(r: Report<Resp>, count: Value): (r': Result<Report<Resp>>)
    ensures r'.Ok? <==> count.VInt?
    ensures r'.Err? ==> r'.error == TypeError
    ensures r'.Ok? ==> r'.value.xTotalCount == count.i && r'.value.(xTotalCount := r.xTotalCount) == r
  {
    if IsIntInstance(count) && !count.VBool? then Ok(r.(xTotalCount := IntOf(count))) else Err(TypeError)
  }

  /** `add_consumed_count(n)`: the same type check, then the running total grows by `n`. */
  function AddConsumedCount<Resp>(r: Report<Resp>, count: Value): (r': Result<Report<Resp>>)
    ensures r'.Ok? <==> count.VInt?
    ensures r'.Err? ==> r'.error == TypeError
    ensures r'.Ok? ==> r'.value.consumedRecords == r.consumedRecords + count.i
                       && r'.value.(consumedRecords := r.consumedRecords) == r
  {
    if IsIntInstance(count) && !count.VBool? then Ok(r.(consumedRecords := r.consumedRecords + IntOf(count)))
    else Err(TypeError)
  }

  /** `add_response(response)`: appended at the end. */
  function AddResponse<Resp>(r: Report<Resp>, response: Resp): (r': Report<Resp>)
    ensures |r'.responses| == |r.responses| + 1
    ensures r'.responses[..|r.responses|] == r.responses && r'.responses[|r.responses|] == response
    ensures r'.(responses := r.responses) == r
  {
    r.(responses := r.responses + [response])
  }

  /** The total of a run of counts. */
  function Sum(counts: seq<int>): int {
    if |counts| == 0 then 0 else counts[0] + Sum(counts[1..])
  }

  /** The report after `add_consumed_count` for each value in turn, stopping at the first that raises. */
  function AddConsumedCounts<Resp>(r: Report<Resp>, counts: seq<Value>): Result<Report<Resp>>
    decreases |counts|
  {
    if |counts| == 0 then Ok(r)
    else
      var next :- AddConsumedCount(r, counts[0]);
      AddConsumedCounts(next, counts[1..])
  }

  /**
   * A run of counts succeeds exactly when every count is an `int`, and
   * then adds their sum and changes nothing else.
   */
  lemma {:induction false} ConsumedAccumulates<Resp>(r: Report<Resp>, counts: seq<Value>)
    ensures AddConsumedCounts(r, counts).Ok? <==> forall i :: 0 <= i < |counts| ==> counts[i].VInt?
    ensures AddConsumedCounts(r, counts).Ok? ==>
              var ints := seq(|counts|, i requires 0 <= i < |counts| => if counts[i].VInt? then counts[i].i else 0);
              AddConsumedCounts(r, counts).value == r.(consumedRecords := r.consumedRecords + Sum(ints))
    decreases |counts|
  {
    if |counts| > 0 {
      assert forall i :: 1 <= i < |counts| ==> counts[i] == counts[1..][i - 1];
      if counts[0].VInt? {
        var next := AddConsumedCount(r, counts[0]).value;
        ConsumedAccumulates(next, counts[1..]);
        var ints := seq(|counts|, i requires 0 <= i < |counts| => if counts[i].VInt? then counts[i].i else 0);
        var ints' := seq(|counts| - 1, i requires 0 <= i < |counts| - 1 => if counts[1..][i].VInt? then counts[1..][i].i else 0);
        assert ints[1..] == ints';
      }
    }
  }

  /** The attributes `report[key]` can return. */
  datatype Attribute<Resp> =
    | IntAttribute(n: int)
    | ResponsesAttribute(responses: seq<Resp>)
    | ValueAttribute(v: Value)
    | MethodAttribute(name: string)

  /** `report[key]`: the attribute of that name, or `AttributeError`. */
  function GetItem<Resp>(r: Report<Resp>, key: string): (a: Result<Attribute<Resp>>)
    ensures a.Err? <==> key !in {"x_total_count", "consumed_records", "responses", "generator_size",
                                 "request_params", "resource", "session",
                                 "set_x_total_count", "add_consumed_count", "add_response"}
    ensures a.Err? ==> a.error == AttributeError
  {
    match key
    case "x_total_count" => Ok(IntAttribute(r.xTotalCount))
    case "consumed_records" => Ok(IntAttribute(r.consumedRecords))
    case "responses" => Ok(ResponsesAttribute(r.responses))
    case "generator_size" => Ok(ValueAttribute(r.generatorSize))
    case "request_params" => Ok(ValueAttribute(r.requestParams))
    case "resource" => Ok(ValueAttribute(r.resource))
    case "session" => Ok(ValueAttribute(r.session))
    case "set_x_total_count" => Ok(MethodAttribute(key))
    case "add_consumed_count" => Ok(MethodAttribute(key))
    case "add_response" => Ok(MethodAttribute(key))
    case _ => Err(AttributeError)
  }

  /** Subscripting reads back what the setters stored. */
  lemma GetItemReadsBack<Resp>(r: Report<Resp>, count: int, response: Resp)
    ensures GetItem(SetXTotalCount(r, VInt(count)).value, "x_total_count") == Ok(IntAttribute(count))
    ensures GetItem(AddConsumedCount(r, VInt(count)).value, "consumed_records") == Ok(IntAttribute(r.consumedRecords + count))
    ensures GetItem(AddResponse(r, response), "responses") == Ok(ResponsesAttribute(r.responses + [response]))
  {
  }
}
