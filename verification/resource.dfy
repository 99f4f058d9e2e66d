/**
 * The string logic of `pysnow.resource.Resource`: its path, the check and
 * the rebuilt URL behind `attachments`, and record links.
 */
module Resource {
  import opened Strings
  import opened Values
  import U = URLBuilder

  /** A resource: the parts it was created from and its URL builder. */
  datatype Resource = Resource(baseUrl: string, basePath: string, apiPath: string, urlBuilder: U.Builder)

  function New(baseUrl: string, basePath: string, apiPath: string): (r: Resource)
    ensures r.baseUrl == baseUrl && r.basePath == basePath && r.apiPath == apiPath
    ensures U.GetUrl(r.urlBuilder) == baseUrl + basePath + apiPath
  {
    Resource(baseUrl, basePath, apiPath, U.New(baseUrl, basePath, apiPath))
  }

  /** The `path` property: the base path followed by the API path. */
  function Path(r: Resource): string {
    r.basePath + r.apiPath
  }

  /** The resource URL is the base URL followed by the path. */
  lemma UrlIsBaseAndPath(baseUrl: string, basePath: string, apiPath: string)
    ensures U.GetUrl(New(baseUrl, basePath, apiPath).urlBuilder) == baseUrl + Path(New(baseUrl, basePath, apiPath))
  {
  }

  /** The attachment API: a copy of the resource with a new URL builder, and a table name. */
  datatype Attachment = Attachment(resource: Resource, table: string)

  /** The `/`-separated components of the API path, outer slashes stripped. */
  function Components(apiPath: string): (parts: seq<string>)
    ensures |parts| >= 1
  {
    Split(Strip(apiPath, '/'), '/')
  }

  /**
   * The `attachments` property. The URL builder is rebuilt for
   * `/attachment` before the check, and the copy keeps the old API path;
   * a first component other than `table` raises `InvalidUsage`, a missing
   * second one `IndexError`.
   */
  function Attachments(r: Resource): (a: Result<Attachment>)
    ensures a.Ok? <==> Components(r.apiPath)[0] == "table" && |Components(r.apiPath)| >= 2
    ensures Components(r.apiPath)[0] != "table" ==> a == Err(InvalidUsage)
    ensures Components(r.apiPath)[0] == "table" && |Components(r.apiPath)| < 2 ==> a == Err(IndexError)
    ensures a.Ok? ==> a.value.table == Components(r.apiPath)[1]
    ensures a.Ok? ==> a.value.resource == r.(urlBuilder := U.New(r.baseUrl, r.basePath, "/attachment"))
  {
    var resource := r.(urlBuilder := U.New(r.baseUrl, r.basePath, "/attachment"));
    var path := Components(r.apiPath);
    if path[0] != "table" then Err(InvalidUsage)
    else if |path| < 2 then Err(IndexError)
    else Ok(Attachment(resource, path[1]))
  }

  /**
   * For a table resource `/table/<name>` the attachment API is given the
   * table name and points at `<base url><base path>/attachment`, while its
   * `path` still names the table.
   */
  lemma {:induction false} TableAttachments(baseUrl: string, basePath: string, table: string)
    requires |table| > 0 && '/' !in table
    ensures Attachments(New(baseUrl, basePath, "/table/" + table)).Ok?
    ensures var a := Attachments(New(baseUrl, basePath, "/table/" + table)).value;
            a.table == table
            && U.GetUrl(a.resource.urlBuilder) == baseUrl + basePath + "/attachment"
            && Path(a.resource) == basePath + "/table/" + table
  {
    var api := "/table/" + table;
    var inner := "table/" + table;
    assert api == "/" + inner && api[1..] == inner;
    assert LStrip(inner, '/') == inner;
    assert LStrip(api, '/') == inner;
    assert inner[|inner| - 1] == table[|table| - 1];
    assert RStrip(inner, '/') == inner;
    assert Join("/", ["table", table]) == inner;
    JoinSplit(["table", table], '/');
    assert Components(api) == ["table", table];
  }

  /** An API path outside the table API is refused. */
  lemma {:induction false} OtherApiRefused(baseUrl: string, basePath: string, rest: string)
    ensures Attachments(New(baseUrl, basePath, "/stats" + rest)) == Err(InvalidUsage)
  {
    var api := "/stats" + rest;
    var inner := "stats" + rest;
    assert api == "/" + inner && api[1..] == inner;
    assert LStrip(inner, '/') == inner;
    assert LStrip(api, '/') == inner;
    var stripped := RStrip(inner, '/');
    assert |stripped| > 0 ==> stripped[0] == 's';
    var parts := Split(stripped, '/');
    if |stripped| > 0 {
      assert parts[0][0] == 's';
    }
    assert parts[0] != "table";
  }

  /** `get_record_link(sys_id)`: the resource URL, a slash, and the id as `str()` renders it. */
  function GetRecordLink(r: Resource, sysId: Value): (link: Result<string>)
    ensures link.Ok? <==> Str(sysId).Ok?
    ensures link.Ok? ==> StartsWith(link.value, U.GetUrl(r.urlBuilder) + "/")
    ensures link.Ok? ==> link.value[|U.GetUrl(r.urlBuilder)| + 1..] == Str(sysId).value
  {
    var id :- Str(sysId);
    var prefix := U.GetUrl(r.urlBuilder) + "/";
    assert (prefix + id)[..|prefix|] == prefix && (prefix + id)[|prefix|..] == id;
    Ok(prefix + id)
  }
}
