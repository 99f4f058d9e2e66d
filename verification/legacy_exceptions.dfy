/**
 * `pysnow.legacy_exceptions.UnexpectedResponse`: the message chosen from
 * the expected and actual status codes, and the fields it keeps.
 */
module LegacyExceptions {
  import opened Options
  import opened Strings
  import opened Json
  import V = Values

  /** The message: the server's summary when the codes agree, both codes otherwise. */
  function Message(expected: int, actual: int, verb: string, summary: Json): string {
    if expected == actual then "Unexpected response on HTTP " + verb + " from server: " + Str(summary)
    else "Unexpected HTTP " + verb + " response code. Expected " + IntToString(expected) + ", got " + IntToString(actual)
  }

  /** `UnexpectedResponse(code_expected, code_actual, http_method, error_summary, error_details)`. */
  function NewUnexpectedResponse(expected: int, actual: int, verb: string, summary: Json, details: Json): (e: V.Error)
    ensures e.UnexpectedResponse?
    ensures e.statusCode == Some(actual)
    ensures e.summary == summary && e.details == details
    ensures expected == actual ==> e.text == "Unexpected response on HTTP " + verb + " from server: " + Str(summary)
    ensures expected != actual ==> e.text == "Unexpected HTTP " + verb + " response code. Expected "
                                            + IntToString(expected) + ", got " + IntToString(actual)
  {
    V.UnexpectedResponse(Message(expected, actual, verb, summary), Some(actual), summary, details)
  }

  /** With differing codes the message does not depend on what the server said. */
  lemma MismatchIgnoresSummary(expected: int, actual: int, verb: string, s1: Json, s2: Json, d1: Json, d2: Json)
    requires expected != actual
    ensures NewUnexpectedResponse(expected, actual, verb, s1, d1).text
            == NewUnexpectedResponse(expected, actual, verb, s2, d2).text
  {
  }

  /**
   * The text tells the two cases apart: the twelfth character is `r` for
   * agreeing codes and `H` for differing ones, whatever the method.
   */
  lemma {:induction false} CasesDistinguishable(expected: int, actual: int, verb: string, summary: Json)
    ensures |Message(expected, actual, verb, summary)| > 11
    ensures Message(expected, actual, verb, summary)[11] == if expected == actual then 'r' else 'H'
  {
    if expected == actual {
      var a := "Unexpected response on HTTP ";
      var b := a + verb;
      var c := b + " from server: ";
      assert Message(expected, actual, verb, summary) == c + Str(summary);
      assert c[11] == b[11] == a[11] == 'r';
    } else {
      var a := "Unexpected HTTP ";
      var b := a + verb;
      var c := b + " response code. Expected ";
      var d := c + IntToString(expected);
      var e := d + ", got ";
      assert Message(expected, actual, verb, summary) == e + IntToString(actual);
      assert e[11] == d[11] == c[11] == b[11] == a[11] == 'H';
    }
  }
}
