/**
 * The `sysparm_query` text five modules compute alike from a caller's
 * query argument: a builder's `str()`, a dict's `k=v` pairs joined with
 * `^` in iteration order, or a string passed through. Each module accepts
 * a different set of builder classes, which is the parameter here.
 */
module QueryParams {
  import opened Strings
  import opened Values

  /** `["%s=%s" % (k, v) for k, v in items]`. */
  function Pairs(entries: seq<(string, Value)>): (r: Result<seq<string>>)
    ensures r.Ok? <==> forall i :: 0 <= i < |entries| ==> Str(entries[i].1).Ok?
    ensures r.Ok? ==> |r.value| == |entries|
    ensures r.Ok? ==> forall i :: 0 <= i < |entries| ==> r.value[i] == entries[i].0 + "=" + Str(entries[i].1).value
  {
    if |entries| == 0 then Ok([])
    else
      assert forall i :: 1 <= i < |entries| ==> entries[i] == entries[1..][i - 1];
      var v :- Str(entries[0].1);
      var rest :- Pairs(entries[1..]);
      Ok([entries[0].0 + "=" + v] + rest)
  }

  /** A dict-type query: the pairs joined with `^`. */
  function DictQuery(entries: seq<(string, Value)>): Result<string> {
    var pairs :- Pairs(entries);
    Ok(Join("^", pairs))
  }

  /**
   * `stringify_query`: a builder of an accepted class gives its `str()`,
   * a dict its pairs, a string itself; any other value (a builder of the
   * other lineage, a bool, an int, a tuple, ...) is refused.
   */
  function Stringify(q: Value, builders: set<Lineage>): (r: Result<string>)
    ensures q.VStr? ==> r == Ok(q.s)
    ensures q.VBuilder? && q.lineage in builders ==> r == q.rendering
    ensures q.VDict? ==> r == DictQuery(q.entries)
    ensures !q.VStr? && !q.VDict? && !(q.VBuilder? && q.lineage in builders) ==> r == Err(InvalidUsage)
  {
    if q.VBuilder? && q.lineage in builders then Str(q)
    else if q.VDict? then DictQuery(q.entries)
    else if q.VStr? then Ok(q.s)
    else Err(InvalidUsage)
  }

  /**
   * A dict of string values free of `^` splits back, at `^`, into exactly
   * its `k=v` pairs, one per entry and in order.
   */
  lemma {:induction false} DictQuerySplit(entries: seq<(string, Value)>)
    requires |entries| > 0
    requires forall i :: 0 <= i < |entries| ==> entries[i].1.VStr?
    requires forall i :: 0 <= i < |entries| ==> '^' !in entries[i].0 && '^' !in entries[i].1.s
    ensures DictQuery(entries).Ok?
    ensures Split(DictQuery(entries).value, '^')
            == seq(|entries|, i requires 0 <= i < |entries| => entries[i].0 + "=" + entries[i].1.s)
  {
    var pairs := Pairs(entries).value;
    assert forall i :: 0 <= i < |pairs| ==> pairs[i] == entries[i].0 + "=" + entries[i].1.s;
    forall i | 0 <= i < |pairs|
      ensures '^' !in pairs[i]
    {
      assert pairs[i] == entries[i].0 + ("=" + entries[i].1.s);
    }
    JoinSplit(pairs, '^');
  }

  /** Only the accepted builder class is stringified; the other lineage is refused. */
  lemma OtherLineageRefused(l: Lineage, rendering: Result<string>)
    ensures Stringify(VBuilder(l, rendering), {l}) == rendering
    ensures Stringify(VBuilder(l, rendering), {}) == Err(InvalidUsage)
    ensures Stringify(VBool(true), {l}) == Err(InvalidUsage)
  {
  }
}
