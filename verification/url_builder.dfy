/**
 * `pysnow.url_builder.URLBuilder`: the resource URL and the validation of
 * custom path components against `^/(?:[._a-zA-Z0-9-]/?)+[^/]$` under
 * `re.match`.
 */
module URLBuilder {
  import opened Options
  import opened Strings
  import opened Values

  /** The character class `[._a-zA-Z0-9-]`. */
  predicate PathChar(c: char) {
    ('a' <= c <= 'z') || ('A' <= c <= 'Z') || ('0' <= c <= '9') || c == '.' || c == '_' || c == '-'
  }

  /**
   * `(?:[._a-zA-Z0-9-]/?)+` matching all of `x`, read off the grammar: one
   * unit (a path character, optionally followed by `/`), then either
   * nothing or more units.
   */
  predicate Units(x: string)
    decreases |x|
  {
    |x| > 0 && PathChar(x[0])
    && (|x| == 1 || Units(x[1..]) || (x[1] == '/' && (|x| == 2 || Units(x[2..]))))
  }

  /** The whole pattern matching all of `t`: `/`, the units, one last character other than `/`. */
  predicate Pattern(t: string) {
    |t| >= 3 && t[0] == '/' && Units(t[1..|t| - 1]) && t[|t| - 1] != '/'
  }

  /**
   * `re.match` with the anchors `^` and `$`: `$` also matches just before
   * a final newline, so the pattern may stop one character short of the
   * end when that character is `\n`.
   */
  predicate Matches(s: string) {
    Pattern(s) || (|s| > 0 && s[|s| - 1] == '\n' && Pattern(s[..|s| - 1]))
  }

  /** Position `j` of a run of units: a path character, or a `/` right after one. */
  predicate UnitAt(x: string, j: int)
    requires 0 <= j < |x|
  {
    PathChar(x[j]) || (x[j] == '/' && j > 0 && PathChar(x[j - 1]))
  }

  /** The units, described position by position: no leading `/` and no `//`. */
  ghost predicate Flat(x: string) {
    |x| > 0 && forall j :: 0 <= j < |x| ==> UnitAt(x, j)
  }

  /** The grammar and the positional description agree. */
  lemma {:induction false} UnitsFlat(x: string)
    ensures Units(x) <==> Flat(x)
    decreases |x|
  {
    if |x| <= 1 {
      if |x| == 1 {
        forall j | 0 <= j < |x| ensures UnitAt(x, j) <==> PathChar(x[0]) {
          assert j == 0;
        }
        assert Flat(x) ==> UnitAt(x, 0);
      }
      return;
    }
    var tail := x[1..];
    assert forall j :: 1 <= j < |x| ==> x[j] == tail[j - 1];
    UnitsFlat(tail);
    if |x| > 2 {
      var tail2 := x[2..];
      assert forall j :: 2 <= j < |x| ==> x[j] == tail2[j - 2];
      UnitsFlat(tail2);
    }
    if Units(x) {
      forall j | 0 <= j < |x| ensures UnitAt(x, j) {
        if j > 0 && Units(tail) {
          assert UnitAt(tail, j - 1);
          assert tail[j - 1] == x[j];
          if j > 1 {
            assert tail[j - 2] == x[j - 1];
          }
        } else if j > 1 && !Units(tail) {
          assert UnitAt(x[2..], j - 2);
          assert x[2..][j - 2] == x[j];
          if j > 2 {
            assert x[2..][j - 3] == x[j - 1];
          }
        }
      }
    }
    if Flat(x) {
      assert UnitAt(x, 0);
      if PathChar(x[1]) {
        forall j | 0 <= j < |tail| ensures UnitAt(tail, j) {
          assert UnitAt(x, j + 1);
        }
      } else {
        assert UnitAt(x, 1);
      }
      if !PathChar(x[1]) && |x| > 2 {
        assert UnitAt(x, 2);
        forall j | 0 <= j < |x| - 2 ensures UnitAt(x[2..], j) {
          assert UnitAt(x, j + 2);
          assert x[2..][j] == x[j + 2];
          if j > 0 {
            assert x[2..][j - 1] == x[j + 1];
          }
        }
        assert Units(x[2..]);
      }
    }
  }

  /** Scans `t` once and decides `Pattern(t)`. */
  method ScanPattern(t: string) returns (ok: bool)
    ensures ok <==> Pattern(t)
  {
    if |t| < 3 || t[0] != '/' || t[|t| - 1] == '/' {
      return false;
    }
    var x := t[1..|t| - 1];
    ok := true;
    var i := 0;
    while i < |x|
      invariant 0 <= i <= |x|
      invariant ok <==> forall j :: 0 <= j < i ==> UnitAt(x, j)
    {
      ok := ok && UnitAt(x, i);
      i := i + 1;
    }
    UnitsFlat(x);
  }

  /**
   * The failure of `validate_path`: the message is formatted with
   * `% path` before `InvalidUsage` is raised, so a tuple of any length
   * other than one (or a value whose `str()` raises) raises from the
   * formatting instead.
   */
  function PathRefused(path: Value): (r: Error)
    ensures path.VStr? ==> r == InvalidUsage
    ensures path.VTuple? && |path.items| != 1 ==> r == TypeError
    ensures PercentS(path).Ok? ==> r == InvalidUsage
  {
    match PercentS(path)
    case Ok(_) => InvalidUsage
    case Err(e) => e
  }

  /**
   * `validate_path(path)`: `True` for a string the pattern matches; any
   * other value raises, `InvalidUsage` unless formatting the message fails.
   */
  method ValidatePath(path: Value) returns (r: Result<bool>)
    ensures r.Ok? <==> path.VStr? && Matches(path.s)
    ensures r.Ok? ==> r.value
    ensures r.Err? ==> r.error == PathRefused(path)
    ensures r.Err? && (path.VStr? || (!path.VTuple? && Str(path).Ok?)) ==> r.error == InvalidUsage
    ensures path.VTuple? && |path.items| != 1 ==> r == Err(TypeError)
  {
    if !path.VStr? {
      return Err(PathRefused(path));
    }
    var s := path.s;
    var whole := ScanPattern(s);
    var matched := whole;
    if !whole && |s| > 0 && s[|s| - 1] == '\n' {
      matched := ScanPattern(s[..|s| - 1]);
    }
    r := if matched then Ok(true) else Err(PathRefused(path));
  }

  /**
   * What an accepted path looks like: it starts with `/`, does not end
   * with `/`, has a path character after the leading `/`, and holds no `//`.
   */
  lemma AcceptedShape(s: string)
    requires Matches(s)
    ensures |s| >= 3 && s[0] == '/' && PathChar(s[1]) && s[|s| - 1] != '/'
    ensures forall j :: 0 <= j < |s| - 1 ==> !(s[j] == '/' && s[j + 1] == '/')
  {
    var t := if Pattern(s) then s else s[..|s| - 1];
    assert Pattern(t);
    assert forall j :: 0 <= j < |t| ==> t[j] == s[j];
    var x := t[1..|t| - 1];
    assert forall j :: 0 <= j < |x| ==> x[j] == s[j + 1];
    UnitsFlat(x);
    assert UnitAt(x, 0);
    forall j | 0 <= j < |s| - 1 ensures !(s[j] == '/' && s[j + 1] == '/') {
      if j == 0 {
        assert s[1] == x[0];
      } else if j < |t| - 2 {
        assert UnitAt(x, j);
        assert s[j] == x[j - 1] && s[j + 1] == x[j];
      } else if j == |t| - 2 {
        assert s[j + 1] == t[|t| - 1];
      } else {
        assert s[j + 1] == s[|s| - 1];
      }
    }
  }

  /** Examples: components are accepted, a trailing slash and `//` are not, and a final newline is let through. */
  lemma Examples()
    ensures Matches("/ab") && Matches("/a/b")
    ensures !Matches("/ab/") && !Matches("//a") && !Matches("abc")
    ensures Matches("/ab\n")
  {
    assert Units("/ab"[1..2]);
    assert Units("/a/b"[1..3]);
    assert !Units("//a"[1..2]);
    assert "/ab\n"[..3] == "/ab";
  }

  /** `get_base_url`: an instance name wins over a host; `https` only for `use_ssl is True`. */
  function GetBaseUrl(useSsl: Value, instance: Option<string>, host: Option<string>): (r: string)
    ensures IsTrue(useSsl) ==> StartsWith(r, "https://")
    ensures !IsTrue(useSsl) ==> StartsWith(r, "http://")
    ensures instance.Some? ==> r == (if IsTrue(useSsl) then "https://" else "http://") + instance.value + ".service-now.com"
    ensures instance.None? && host.Some? ==> r == (if IsTrue(useSsl) then "https://" else "http://") + host.value
  {
    var name := if instance.Some? then RStrip(instance.value + ".service-now.com", '/')
                else if host.Some? then host.value else "None";
    assert instance.Some? ==> name == instance.value + ".service-now.com";
    if IsTrue(useSsl) then "https://" + name else "http://" + name
  }

  /** The builder: the parts it was given and the resource URL they make. */
  datatype Builder = Builder(baseUrl: string, basePath: string, apiPath: string, fullPath: string, resourceUrl: string)

  function New(baseUrl: string, basePath: string, apiPath: string): (b: Builder)
    ensures b.baseUrl == baseUrl && b.basePath == basePath && b.apiPath == apiPath
    ensures b.fullPath == basePath + apiPath
    ensures b.resourceUrl == baseUrl + basePath + apiPath
  {
    Builder(baseUrl, basePath, apiPath, basePath + apiPath, baseUrl + (basePath + apiPath))
  }

  /** `get_url()`. */
  function GetUrl(b: Builder): string {
    b.resourceUrl
  }

  /** `get_appended_custom(component)`: validated, then appended to the resource URL. */
  function GetAppendedCustom(b: Builder, component: Value): (r: Result<string>)
    ensures r.Ok? <==> component.VStr? && Matches(component.s)
    ensures r.Err? ==> r.error == PathRefused(component)
    ensures r.Err? && component.VStr? ==> r.error == InvalidUsage
    ensures component.VTuple? && |component.items| != 1 ==> r == Err(TypeError)
    ensures r.Ok? ==> r.value == GetUrl(b) + component.s
  {
    if component.VStr? && Matches(component.s) then Ok(b.resourceUrl + component.s) else Err(PathRefused(component))
  }

  /** The URL a builder returns is the one its parts spell out, and a custom component only extends it. */
  lemma {:induction false} UrlParts(baseUrl: string, basePath: string, apiPath: string, component: string)
    requires Matches(component)
    ensures GetUrl(New(baseUrl, basePath, apiPath)) == baseUrl + basePath + apiPath
    ensures GetAppendedCustom(New(baseUrl, basePath, apiPath), VStr(component))
            == Ok(baseUrl + basePath + apiPath + component)
    ensures StartsWith(GetAppendedCustom(New(baseUrl, basePath, apiPath), VStr(component)).value, GetUrl(New(baseUrl, basePath, apiPath)))
  {
    var u := baseUrl + basePath + apiPath;
    assert (u + component)[..|u|] == u;
  }
}
