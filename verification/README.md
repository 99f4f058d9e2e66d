# pysnow in Dafny

A model of the pure logic inside pysnow, a Python client for the ServiceNow
REST API. The HTTP plumbing around it is not modelled. The model covers four groups:

- **Encoded-query construction.**
  - Two generations of the fluent `QueryBuilder` (`pysnow/query_builder.py` and the older `pysnow/query.py`).
    Each is a state record of tokens, current field and pending-comparison flag. Every condition, logical
    operator or order call is a transition that either raises a typed error or appends one token; `field()`
    only sets the current field.
  - The immutable `Criterion` expression tree (`pysnow/criterion.py`) and the operator tables it renders
    with (`pysnow/enums.py`).
- **Request-parameter assembly.**
  - `ParamsBuilder` and the class-level `Sysparms` store.
  - The `_get_formatted_query` functions of the three request generations (`pysnow/legacy_request.py`,
    `pysnow/request.py` and the single-module first release `pysnow.py`).
  - Each function's query stringification, `^ORDERBY` suffixes and dict layering are modelled.
- **Response interpretation.**
  - The event-driven consumer of `pysnow/response.py`. It reads a stream of ijson
    `(prefix, event, value)` events, which is taken as the input.
  - The cardinality accessors `first`, `one` and their `_or_none` forms.
  - The buffered `_get_content` decision tables of the three request generations.
  - The exception message builders.
- **Small utilities.** URL and path validation (`pysnow/url_builder.py`), resource path helpers
  (`pysnow/resource.py`) and the `Report` counters.

Python values a caller hands in are the `Values.Value` datatype, so that
`isinstance(x, int)` (which admits `bool`), `type(x) in types` (which does not),
`x is True`, truthiness, `str()`, `in` and `len` are explicit functions.
Decoded JSON bodies are `Json.Json`. A raised exception is the `Err` arm of
`Values.Result`. Dicts are association lists that keep insertion order
(`Dicts.Put` keeps a key's position, `Dicts.Update` is `dict.update`), because
the order of `k=v` pairs in a dict query is observable.

The generations of one feature are kept apart as the library ships them:
- `NOT LIKE` versus `NOTLIKE`;
- `[{}]` versus an empty list on an empty result;
- `MultipleResults` versus `NotImplementedError`.

Lemmas relate the generations where they agree and show the inputs where they part.

Clocks, the network, pytz and the JSON tokenizer are parameters or are left
out (see below). Datetimes are records with an optional fixed UTC offset in
minutes.

`Sysparms` keeps both of its dicts as class attributes, so every instance
shares them. The model therefore threads one `Sysparms.Store` value through
every operation instead of giving instances state.

`URLBuilder.validate_path` is modelled against the regular expression
`^/(?:[._a-zA-Z0-9-]/?)+[^/]$` under `re.match`:
- `URLBuilder.Units` is the grammar of the repeated group;
- `URLBuilder.Matches` adds the anchors, including `$` matching before a final newline;
- the method `URLBuilder.ValidatePath` decides it with one scan, proved equal to the grammar.

## Model

| member | source | states |
|---|---|---|
| QueryBuilder.New | pysnow/query_builder.py:19-23 | a fresh builder has no tokens, no field and no pending comparison |
| QueryBuilder.SetField | pysnow/query_builder.py:25-32 | field() accepts any value as the current field and leaves the tokens and the pending flag alone |
| QueryBuilder.AddCondition | pysnow/query_builder.py:236-271 | a missing or empty field raises QueryMissingField, then a disallowed operand type QueryTypeError, then a pending comparison QueryMultipleExpressions; otherwise exactly one token field+operator+operand is appended, the field is kept and a comparison becomes pending |
| QueryBuilder.AddLogical | pysnow/query_builder.py:273-291 | without a pending comparison AND/OR/NQ raise QueryExpressionError; otherwise `^`, `^OR` or `^NQ` is appended and both the field and the pending flag are cleared |
| QueryBuilder.OrderBy | pysnow/query_builder.py:34-46 | ordering appends `ORDERBY<field>` / `ORDERBYDESC<field>` and marks a comparison pending without the missing-field or multiple-expression checks |
| QueryBuilder.TextCondition | pysnow/query_builder.py:48-78 | starts_with / ends_with / contains / not_contains succeed exactly when a string operand meets a set field with nothing pending; a missing field raises QueryMissingField first, then a non-string QueryTypeError, then a pending comparison QueryMultipleExpressions; success appends field + STARTSWITH/ENDSWITH/LIKE/NOT LIKE + value |
| QueryBuilder.EmptinessCondition | pysnow/query_builder.py:80-88 | is_empty / is_not_empty succeed exactly when a field is set and nothing is pending (otherwise QueryMissingField or QueryMultipleExpressions) and append field + ISEMPTY / ISNOTEMPTY with an empty operand |
| QueryBuilder.EqualsCondition | pysnow/query_builder.py:90-105 | a string renders `=`, a list renders `IN` with each element stringified and comma-joined, and every other type, int included, raises QueryTypeError before the field is looked at; a string or a stringifiable list succeeds exactly when a field is set and nothing is pending |
| QueryBuilder.NotEqualsCondition | pysnow/query_builder.py:107-122 | a string renders `!=`, a list of strings `NOT IN` comma-joined (a non-string element raises TypeError), anything else QueryTypeError; a string or a list of strings succeeds exactly when a field is set and nothing is pending |
| QueryBuilder.OrderingOperand | pysnow/query_builder.py:124-194 | a string raises QueryTypeError; a datetime is converted to UTC when it carries an offset and formatted `%Y-%m-%d %H:%M:%S`; an int passes unchanged |
| QueryBuilder.OrderingCondition | pysnow/query_builder.py:124-194 | a string raises QueryTypeError and a datetime that leaves the calendar in UTC OverflowError before the field is looked at; the four comparisons succeed exactly for an int or a convertible datetime on a set field with nothing pending, and append field + operator + the int in decimal or the UTC `%Y-%m-%d %H:%M:%S` text |
| QueryBuilder.BetweenOperand | pysnow/query_builder.py:196-222 | two ints give `a@b`, two datetimes two dateGenerate tokens joined by `@` without UTC conversion, any other pair fails |
| QueryBuilder.BetweenCondition | pysnow/query_builder.py:196-222 | a bad pair raises QueryTypeError before the field is looked at, then QueryMissingField and QueryMultipleExpressions; it succeeds exactly for a good pair on a set field with nothing pending, appends field + BETWEEN + the operand and leaves a comparison pending |
| QueryBuilder.Render | pysnow/query_builder.py:293-312 | no tokens raises QueryEmpty, then no field QueryMissingField, then no pending comparison QueryExpressionError; it succeeds exactly when none applies |
| QueryBuilder.AsValue | pysnow/query_builder.py:293-312 | the builder handed to a request renders through `str()` to what `__str__` returns |
| QueryBuilder.GrammaticalAdjacent | pysnow/query_builder.py:224-291 | in a well-formed sequence of emitted pieces every logical operator directly follows an expression |
| QueryBuilder.ApplyShaped | pysnow/query_builder.py:236-291 | every call that does not raise keeps the invariant: one token per emitted piece, operators follow expressions, and a comparison is pending exactly when the last piece is an expression |
| QueryBuilder.ApplyAppendsOne | pysnow/query_builder.py:236-271 | a condition that does not raise appends exactly one token to the query and leaves a comparison pending |
| QueryBuilder.RunStep | pysnow/query_builder.py:236-291 | a successful call chain is its first call followed by the rest, and its pieces are the first call's followed by the rest's |
| QueryBuilder.RunShaped | pysnow/query_builder.py:236-291 | the invariant holds after any successful chain of calls |
| QueryBuilder.RenderedShape | pysnow/query_builder.py:224-312 | a rendered query is the separator-free concatenation of one token per emitting call; its operators are never first, never last and never adjacent |
| QueryBuilder.OrQueryExample | pysnow/query_builder.py:224-312 | `field('test').equals('test').OR().field('test2').equals('test')` renders `test=test^ORtest2=test` |
| QueryBuilder.OrQueryTokens | pysnow/query_builder.py:90-234 | that call chain leaves exactly the three tokens `test=test`, `^OR`, `test2=test` with a comparison pending |
| QueryBuilder.TrailingOperatorExample | pysnow/query_builder.py:293-312 | a query ending in a logical operator cannot be rendered: `__str__` raises QueryMissingField |
| Query.TextCondition | pysnow/query.py:40-54 | the older builder's text conditions succeed exactly for a string operand on a set field with nothing pending (a missing field raises QueryMissingField, a non-string QueryTypeError), and not_contains uses `NOTLIKE` without a space |
| Query.IsEmpty | pysnow/query.py:56-58 | is_empty appends field + ISEMPTY exactly as the newer builder does |
| Query.EqualityCondition | pysnow/query.py:60-66 | equals / not_equals succeed exactly for an int or a string (a bool is refused) on a set field with nothing pending, and render `=` / `!=` |
| Query.OrderingOperand | pysnow/query.py:68-84 | a string raises QueryTypeError; a datetime is formatted `%Y-%m-%d %H:%M:%S` with no UTC conversion |
| Query.OrderingCondition | pysnow/query.py:68-84 | a string raises QueryTypeError first; greater_than / less_than succeed exactly for an int or a datetime on a set field with nothing pending, and append field + `>`/`<` + the int in decimal or the datetime's own `%Y-%m-%d %H:%M:%S` text |
| Query.OrderingIgnoresOffset | pysnow/query.py:68-84 | the older builder renders an offset-carrying datetime as the same wall-clock time with the offset dropped |
| Query.BetweenCondition | pysnow/query.py:86-110 | between renders like the newer builder and raises QueryTypeError for mixed or other types |
| Query.EqualsIntDiffers | pysnow/query.py:60-66 | the two generations part on an int passed to equals: the older accepts it, the newer raises QueryTypeError |
| Query.AsValue | pysnow/query.py:157-177 | `str()` of an older builder (or its alias `Query`) is its `__str__`, which checks in the same order as the newer one |
| Criterion.WrapConstant | pysnow/criterion.py:17-50 | a scalar that is not already a wrapper is wrapped exactly when its exact type is allowed; a list-typed operand must be a list or tuple; every failure is QueryTypeError; the wrapped value unwraps to the input |
| Criterion.TestTypes | pysnow/criterion.py:52-122 | every comparison method passes a well-formed table of allowed types |
| Criterion.Compare | pysnow/criterion.py:52-153 | a comparison builds a basic node with the method's comparator, the field on the left and the wrapped operand on the right, and fails exactly when wrapping fails |
| Criterion.Checking | pysnow/criterion.py:70-118 | the unary checks build the matching node on any field |
| Criterion.BetweenOf | pysnow/criterion.py:79-84 | between accepts each bound that is exactly an int or a datetime, mixed pairs included |
| Criterion.OnDate | pysnow/criterion.py:156-164 | on / not_on accept a DateTimeOn member or a datetime and nothing else |
| Criterion.Ordering | pysnow/criterion.py:168-169 | order builds an order node for any direction; the direction is checked only at render |
| Criterion.Combine | pysnow/criterion.py:179-198 | AND / OR / NQ and `&`, `\|`, `^` build a new connective node from unchanged operands |
| Criterion.Fold | pysnow/criterion.py:200-230 | any / all fold the terms from an empty start that returns the first term unchanged; no terms give no criterion |
| Criterion.TableField | pysnow/criterion.py:470-500 | a table attribute or item is a field whose query is its name |
| Criterion.RenderConnective | pysnow/criterion.py:255-260 | a connective node renders its two rendered sides around `^`, `^OR` or `^NQ` with no whitespace |
| Criterion.Range | pysnow/criterion.py:310-329 | a between node with mixed int and datetime bounds raises QueryTypeError at render |
| Criterion.Render | pysnow/criterion.py:255-477 | fields render to their name, int wrappers to their int and everything else to a string |
| Criterion.CompareStrRenders | pysnow/criterion.py:233-260 | a field compared with a string renders as name + comparator + string, the comparator being the Equality value or the literal the method passes |
| Criterion.CompareIntRenders | pysnow/criterion.py:233-260 | a field compared with an int renders as name + comparator + the int in decimal |
| Criterion.InRenders | pysnow/criterion.py:106-114 | is_in / not_in of ints and strings render `IN` / `NOT IN` and the elements' `str()` joined by commas |
| Criterion.CheckRenders | pysnow/criterion.py:263-300 | is_empty / is_not_empty / is_anything / is_empty_string render the field's name followed by ISEMPTY, ISNOTEMPTY, ANYTHING or EMPTYSTRING |
| Criterion.AndExample | tests/test_criterion.py:22-32 | `test` equal to `test` renders `test=test`, and joined by AND with `test2` equal to `test` renders `test=test^test2=test` |
| Criterion.NotLikeExample | tests/test_criterion.py:128-135 | not_like of `val` renders `testNOT LIKEval` |
| Criterion.IsEmptyExample | tests/test_criterion.py:137-141 | is_empty renders `testISEMPTY` |
| Criterion.WrappedRenders | pysnow/criterion.py:400-467 | a wrapped constant renders as itself (int, string), as dateGenerate of its UTC text (datetime) or comma-joined (list) |
| Criterion.FoldJoins | pysnow/criterion.py:200-230 | any / all of rendered terms renders as the queries joined with `^OR` / `^` |
| Criterion.BetweenInts | pysnow/criterion.py:310-329 | two ints render `<field>BETWEEN<a>@<b>` |
| Criterion.BetweenDates | pysnow/criterion.py:310-329 | two datetimes render two UTC dateGenerate tokens joined by `@` |
| Criterion.PlainDate | pysnow/criterion.py:433-449 | a datetime renders as `javascript:gs.dateGenerate("%Y-%m-%d %H:%M:%S")` of its UTC value |
| Criterion.BetweenMixed | pysnow/criterion.py:311-327 | a mixed int/datetime pair passes construction; its query raises OverflowError when the datetime bound has no UTC reading and QueryTypeError otherwise |
| Criterion.OnShape | pysnow/criterion.py:332-367 | on a datetime renders `ONcustom@` / `NOTONcustom@` with the start and end dateGenerate tokens of its date |
| Criterion.OrderShape | pysnow/criterion.py:376-392 | `asc`/`desc` in any case or the Order members give ORDERBY / ORDERBYDESC, anything else QueryTypeError |
| Enums.RelativeEqualityMember | pysnow/enums.py:92-98 | the member a name denotes has that name's value |
| Enums.RelativeEqualityAliases | pysnow/enums.py:92-98 | `eq` is an alias of `ee` (same value `EE`); every other name is its own member |
| Enums.PartsFreeOfAt | pysnow/enums.py:29-89 | no caption or window name of a DateTimeOn member contains `@` |
| Enums.OnWindowSplits | pysnow/enums.py:29-89 | a window value splits at `@` into caption, `javascript:gs.beginningOf<X>()` and `javascript:gs.endOf<X>()` |
| Enums.OnValueSplits | pysnow/enums.py:29-89 | every DateTimeOn value has the three-part shape with the same window function at both ends |
| DateTimes.AsUtc | pysnow/query_builder.py:315-318 | a naive datetime is returned unchanged; an aware one is moved by its offset to the same instant at offset zero |
| DateTimes.AsUtcOverflow | pysnow/criterion.py:503-506 | the conversion overflows exactly at the edges of the representable years |
| DateTimes.NextDayOrdinal | pysnow/query_builder.py:315-318 | the calendar step used by the conversion advances the day ordinal by one |
| DateTimes.NextPrev | pysnow/query_builder.py:315-318 | stepping a day forward and back returns the date |
| DateTimes.FormatDateFields | pysnow/criterion.py:437 | `%Y-%m-%d` has the zero-padded year, month and day at fixed positions |
| DateTimes.FormatDateTimeFields | pysnow/query_builder.py:133 | `%Y-%m-%d %H:%M:%S` is 19 characters with each field zero-padded at its position |
| Exceptions.ClassOf | pysnow/exceptions.py:4-73 | the pysnow exceptions are exactly the errors that have a pysnow class |
| Exceptions.AllDeriveFromPysnowException | pysnow/exceptions.py:4-73 | every pysnow exception class derives directly from PysnowException |
| Exceptions.Field | pysnow/exceptions.py:12-20 | message and detail default to `<empty>` and are replaced only by a truthy value under their key |
| Exceptions.NewResponseError | pysnow/exceptions.py:16-20 | a ResponseError keeps the defaulted message and detail; a non-container error raises TypeError |
| Exceptions.EmptyErrorText | pysnow/exceptions.py:12-26 | an empty error object reads `Error in response. Message: <empty>, Details: <empty>` |
| Exceptions.ErrorText | pysnow/exceptions.py:22-26 | with a non-empty message and detail the text is exactly `Error in response. Message: <m>, Details: <d>` |
| Exceptions.FalsyMessageKeepsDefault | pysnow/exceptions.py:16-20 | a null or empty message keeps the `<empty>` default |
| Response.SetCount | pysnow/response.py:31-36 | the count setter stores an int that is not a bool and raises TypeError otherwise |
| Response.Step | pysnow/response.py:59-98 | one event never unsets a seen marker, yields at most one record, raises only a stream error, and counts every yield |
| Response.Run | pysnow/response.py:41-98 | over any event run, records only grow by appending, the count rises by one per record and a raised error stops the run |
| Response.RunConcat | pysnow/response.py:41-98 | consuming two event runs in turn is consuming their concatenation |
| Response.Parse | pysnow/response.py:41-98 | the count rises by the number of records yielded; the stream ends normally, with a stream error, or with MissingResult and no records |
| Response.BuilderRoundTrip | pysnow/response.py:41-98 | the object builder fed the events of any JSON value builds that value |
| Response.FeedAllConcat | pysnow/response.py:41-98 | feeding two event runs in turn is feeding their concatenation |
| Response.ParseMany | pysnow/response.py:59-76 | a `result` array of objects yields every element in stream order and counts each |
| Response.ParseSingle | pysnow/response.py:59-82 | a `result` object is yielded exactly once and counts one |
| Response.ParseError | pysnow/response.py:55-89 | an `error` object raises ResponseError carrying the built object, with no records |
| Response.ParseMissing | pysnow/response.py:94-98 | a body with neither `result` nor `error` raises MissingResult after the last event |
| Response.All | pysnow/response.py:100-128 | a DELETE answered 204 yields `{'status': 'record deleted'}` without parsing; an error status raises; everything else is parsed |
| Response.First | pysnow/response.py:130-145 | the first record, or NoResults when the stream ends without one; a stream error propagates |
| Response.One | pysnow/response.py:159-184 | the sole record; zero records raise NoResults, a second record MultipleResults |
| Response.OrNone | pysnow/response.py:147-199 | only NoResults becomes None; every other error propagates |
| Response.FirstOrNone | pysnow/response.py:147-157 | None exactly when there is no record |
| Response.OneOrNone | pysnow/response.py:186-199 | MultipleResults still propagates; None exactly on an empty stream |
| Response.EmptyResult | pysnow/response.py:130-145 | an empty `result` array ends with no records: first raises NoResults and one_or_none gives None |
| Dicts.Put | pysnow/legacy_request.py:437-451 | assigning a key sets it and leaves every other key as it was |
| Dicts.UpdateGet | pysnow/params_builder.py:183-193 | after `d.update(e)` a key reads from `e` when present there and from `d` otherwise |
| Dicts.UpdateTwice | pysnow/params_builder.py:183-193 | updating with the same dict twice equals updating once |
| Strings.JoinSplit | pysnow/legacy_request.py:381-403 | separator-free pieces joined with `/` split back into the same pieces |
| Strings.SplitJoin | pysnow/resource.py:68 | the pieces of a split joined with the separator give back the string |
| QueryParams.Pairs | pysnow/params_builder.py:40 | a dict gives one `k=v` text per entry, in iteration order |
| QueryParams.Stringify | pysnow/params_builder.py:28-47 | an accepted builder gives its `str()`, a dict its pairs joined by `^`, a string itself; anything else raises InvalidUsage |
| QueryParams.DictQuerySplit | pysnow/sysparms.py:36 | a dict query of `^`-free strings splits back at `^` into exactly its `k=v` pairs |
| QueryParams.OtherLineageRefused | pysnow/request.py:327-339 | only the builder class a module imports is stringified; the other generation is refused |
| ParamsBuilder.New | pysnow/params_builder.py:13-25 | a fresh builder reads query `""`, limit 10000, offset None, display, suppress and exclude False, view `""`, fields `[]` and no custom parameters |
| ParamsBuilder.StringifyQuery | pysnow/params_builder.py:27-47 | a newer QueryBuilder, a dict or a string is stringified; a bool, int, tuple or other value raises InvalidUsage |
| ParamsBuilder.AddCustom | pysnow/params_builder.py:49-58 | a non-dict raises InvalidUsage; a dict is merged so that its keys win and other custom keys are kept |
| ParamsBuilder.SetDisplayValue | pysnow/params_builder.py:70-80 | display_value accepts a bool, `"all"` or a criterion Field (whose `==` answers with a truthy criterion) and raises InvalidUsage otherwise, leaving the builder unchanged |
| ParamsBuilder.SetQuery | pysnow/params_builder.py:87-95 | the query setter stores the stringified query and raises as stringification does |
| ParamsBuilder.SetLimit | pysnow/params_builder.py:101-111 | limit stores an int that is not a bool; anything else raises InvalidUsage and nothing changes |
| ParamsBuilder.SetOffset | pysnow/params_builder.py:118-130 | offset stores an int that is not a bool; anything else raises InvalidUsage and nothing changes |
| ParamsBuilder.SetFields | pysnow/params_builder.py:137-149 | fields requires a list and stores it comma-joined |
| ParamsBuilder.SetExcludeReferenceLink | pysnow/params_builder.py:156-165 | exclude_reference_link accepts only a bool |
| ParamsBuilder.SetSuppressPaginationHeader | pysnow/params_builder.py:172-181 | suppress_pagination_header accepts only a bool |
| ParamsBuilder.LimitRoundTrip | pysnow/params_builder.py:96-111 | a limit set is the limit read back, and a bool is refused although Python counts it as an int |
| ParamsBuilder.AsDict | pysnow/params_builder.py:183-193 | the result is the sysparms overlaid with the custom parameters, custom winning, and it replaces the stored sysparms |
| ParamsBuilder.AsDictIdempotent | pysnow/params_builder.py:183-193 | a second as_dict returns the same dict although the first changed the store |
| ParamsBuilder.AddCustomDistinct | pysnow/params_builder.py:49-58 | custom parameters merged into a fresh builder keep distinct keys |
| Sysparms.StringifyQuery | pysnow/sysparms.py:24-41 | a newer QueryBuilder, a dict or a str is stringified; anything else raises InvalidUsage |
| Sysparms.AddForeign | pysnow/sysparms.py:47-51 | a non-dict raises TypeError; a dict is merged into the shared foreign parameters, its keys winning |
| Sysparms.SetQuery | pysnow/sysparms.py:57-59 | the query setter stores the stringified query in the shared store |
| Sysparms.SetOffset | pysnow/sysparms.py:72-77 | offset stores an int that is not a bool, else InvalidUsage |
| Sysparms.SetLimit | pysnow/sysparms.py:109-120 | limit stores an int that is not a bool, else InvalidUsage |
| Sysparms.SetFields | pysnow/sysparms.py:83-95 | fields requires a list (else InvalidUsage) and stores it comma-joined |
| Sysparms.Paginate | pysnow/sysparms.py:97-99 | paginate reads the negated truth of the stored suppress flag |
| Sysparms.SetPaginate | pysnow/sysparms.py:101-103 | the setter stores the negation of its argument's truth value and changes nothing else |
| Sysparms.PaginateRoundTrip | pysnow/sysparms.py:97-103 | reading paginate after setting it gives the truth value set; the initial store paginates |
| Sysparms.AsDict | pysnow/sysparms.py:122-131 | the result is the sysparms overlaid with the foreign parameters, foreign winning, written back into the shared store |
| Sysparms.ForeignOverridesPaginate | pysnow/sysparms.py:122-131 | a foreign suppress flag decides paginate once as_dict has run |
| Sysparms.AsDictIdempotent | pysnow/sysparms.py:122-131 | a second as_dict returns the same dict |
| LegacyExceptions.NewUnexpectedResponse | pysnow/legacy_exceptions.py:54-72 | equal codes give `Unexpected response on HTTP <m> from server: <summary>`, different ones `Unexpected HTTP <m> response code. Expected <e>, got <a>`; status_code is the actual code; summary and details are kept |
| LegacyExceptions.MismatchIgnoresSummary | pysnow/legacy_exceptions.py:62-67 | with differing codes the message does not depend on the server's summary |
| LegacyExceptions.CasesDistinguishable | pysnow/legacy_exceptions.py:57-67 | the two messages differ in their twelfth character for every method |
| RequestCommon.Optional | pysnow/legacy_request.py:320-324 | a key present in the error object is read, an absent key leaves None |
| RequestCommon.ReadServerError | pysnow/legacy_request.py:316-326 | without `error` the summary and details are None; an `error` object supplies message and detail; `in` on a non-container raises TypeError |
| RequestCommon.EmptyResult | pysnow/legacy_request.py:351-353 | the empty-result test holds exactly when `result` is present with length zero; `len` of a number raises TypeError |
| RequestCommon.ReadBody | pysnow/legacy_request.py:318-327 | a body that is not JSON reads as `{}` with no server error |
| RequestCommon.Flatten | pysnow/legacy_request.py:248-252 | a dict with a `value` key becomes that value; anything else is kept |
| RequestCommon.FillGet | pysnow/legacy_request.py:242-252 | after the clone loop a field holds its flattened value unless its name is listed in reset_fields or the list holds a criterion Field (which compares equal to every name); every other key reads as before |
| RequestCommon.ClonePayloadGet | pysnow/legacy_request.py:240-252 | the clone payload holds exactly the record's fields that are not reset, flattened; a field is reset when its name is listed or when the list holds a criterion Field |
| RequestCommon.FieldResetsAll | pysnow/legacy_request.py:242-247 | a criterion Field in reset_fields makes `field in reset_fields` true for every field, so the loop adds nothing |
| RequestCommon.ClonePayloadOfField | pysnow/legacy_request.py:240-252 | with a criterion Field in reset_fields the clone payload is `{}` |
| RequestCommon.CloneOutcome | pysnow/legacy_request.py:254-260 | a 403 on the clone's insert is re-raised with the unique-field hint; everything else is unchanged |
| LegacyRequest.OrderSuffix | pysnow/legacy_request.py:431-435 | an entry starting with `-` appends `^ORDERBYDESC<rest>`, another `^ORDERBY<entry>`; an empty string raises IndexError, a non-string TypeError |
| LegacyRequest.OrderSuffixes | pysnow/legacy_request.py:431-435 | the suffixes succeed exactly when every entry is a non-empty string |
| LegacyRequest.OrderMarker | pysnow/legacy_request.py:431-435 | a name sorts ascending as itself and descending when prefixed with `-`, which is stripped |
| LegacyRequest.OrderSuffixesConcat | pysnow/legacy_request.py:431-435 | sorting by `a` then `b` appends `a`'s suffixes then `b`'s, in list order |
| LegacyRequest.QueryText | pysnow/legacy_request.py:418-435 | a query that is not a builder, dict or string raises before `order_by` is read; otherwise the text exists exactly when every `order_by` entry is a non-empty string, and it begins with the stringified query |
| LegacyRequest.FormattedQuery | pysnow/legacy_request.py:405-451 | a non-list order_by, then a non-list fields, raise InvalidUsage; the query must stringify; then the parameters are built |
| LegacyRequest.Layering | pysnow/legacy_request.py:437-451 | every key reads from the last layer that set it: query, request params, limit with the pagination header, offset, then non-empty fields |
| LegacyRequest.ResultOf | pysnow/legacy_request.py:362-367 | a missing `result` raises MissingResult, otherwise it is returned |
| LegacyRequest.Content | pysnow/legacy_request.py:304-370 | the whole decision table: a body whose error summary cannot be read fails first; a DELETE returns success exactly on 204 and otherwise raises UnexpectedResponse expecting 204; a POST not answered 201 raises UnexpectedResponse expecting 201; an empty result or a 404 raises NoResults when raise_on_empty is True and otherwise returns the `result`; an `error` body raises UnexpectedResponse expecting 200 with the server's summary; otherwise the `result`, MissingResult when absent |
| LegacyRequest.ListResult | pysnow/legacy_request.py:351-370 | a GET with a non-empty `result` list and no error returns that list |
| LegacyRequest.EmptyList | pysnow/legacy_request.py:351-355 | an empty result raises only for `raise_on_empty is True`; other settings get the empty list |
| LegacyRequest.NotFoundWithoutBody | pysnow/legacy_request.py:325-367 | a 404 without JSON is NoResults, or MissingResult when not raising |
| LegacyRequest.ErrorBody | pysnow/legacy_request.py:356-363 | an error object with status 200 raises UnexpectedResponse with the server's message and detail |
| LegacyRequest.GetOne | pysnow/legacy_request.py:146-154 | more than one record raises MultipleResults, none gives `{}`, otherwise the first record |
| LegacyRequest.Locate | pysnow/legacy_request.py:175-184 | the record must carry a sys_id; MultipleResults and NoResults are re-raised with the operation's message |
| LegacyRequest.UrlComponents | pysnow/legacy_request.py:381-403 | below the base URL the address splits into api, now, resource, item and the sys_id when present |
| LegacyRequest.DeleteUrl | pysnow/legacy_request.py:166-186 | delete addresses the table URL with the located record's sys_id |
| LegacyRequest.UpdateUrl | pysnow/legacy_request.py:188-214 | update addresses the located record and refuses a non-dict payload afterwards |
| LegacyRequest.Clone | pysnow/legacy_request.py:216-252 | a non-list reset_fields raises InvalidUsage before the fetch; the payload is the located record's fields that are not reset (by name, or all of them when a criterion Field is listed), flattened |
| Request.QueryText | pysnow/request.py:327-339 | the older `pysnow.query` builder, a dict joined by `^` or a string; anything else raises InvalidUsage |
| Request.FormattedQuery | pysnow/request.py:321-353 | request params overlay the query, a limit adds the pagination header, non-empty fields must be a list and are comma-joined |
| Request.Layering | pysnow/request.py:341-353 | every key reads from the last layer that set it |
| Request.Content | pysnow/request.py:236-290 | the same decision table, except that an empty result or a 404 gives `[{}]` (TypeError on a non-dict body) for `raise_on_empty is False` and NoResults for every other setting, and that a missing `result` fails on the subscript |
| Request.ContentGenerations | pysnow/request.py:236-290 | the later and the legacy `_get_content` answer every response alike, except in the empty-result branch when raise_on_empty is not True and where the legacy one raises MissingResult |
| Request.EmptyListDiverges | pysnow/request.py:279-283 | on an empty list the generations part: the legacy request raises only for True, this one returns `[{}]` only for False |
| Request.ListResultAgrees | pysnow/request.py:279-290 | on a non-empty result without error both generations return the same list |
| Request.GetOne | pysnow/request.py:93-99 | more than one record raises MultipleResults, otherwise the first element |
| Request.GetOneOfNothing | pysnow/request.py:93-99 | with raise_on_empty False an empty result reads the placeholder `{}` |
| Request.Locate | pysnow/request.py:118-127 | several records become NotImplementedError, a record without sys_id NoResults with the operation's message |
| Request.LocateGenerations | pysnow/request.py:118-148 | the generations agree on a located record and differ only in the class of the multiple-records error |
| Request.UrlIsLegacyOnInstance | pysnow/request.py:298-319 | the address equals the legacy one with base URL `https://<instance>.service-now.com` |
| Request.DeleteUrl | pysnow/request.py:110-129 | delete addresses the located record |
| Request.UpdateUrl | pysnow/request.py:131-154 | update addresses the located record and then refuses a non-dict payload |
| Request.Clone | pysnow/request.py:156-194 | a non-list reset_fields raises InvalidUsage; the payload is the located record's fields that are not reset (by name, or all of them when a criterion Field is listed), flattened |
| Pysnow.NewUnexpectedResponse | pysnow.py:14-30 | the same two messages as the later modules, with no status code kept |
| Pysnow.NewClient | pysnow.py:63-64 | a default payload that is not a dict raises InvalidUsage |
| Pysnow.FormattedQuery | pysnow.py:348-375 | a dict or string query (no builder), overlaid by the default payload, then non-empty fields as a comma-joined list |
| Pysnow.FormattedQueryAsLater | pysnow.py:348-375 | for dict and string queries the parameters equal the later Request's without a limit |
| Pysnow.Content | pysnow.py:252-303 | a body that is not JSON raises ValueError; otherwise the later Request's decision table |
| Pysnow.ContentAsLater | pysnow.py:252-303 | on a JSON body the first release decides as the later Request, its errors lacking only the status code |
| Pysnow.GetOne | pysnow.py:165-171 | more than one record raises MultipleResults, otherwise `content[0]` |
| Pysnow.DeleteSysId | pysnow.py:189-195 | a missing sys_id becomes NoResults, several records NotImplementedError |
| Pysnow.UpdateSysId | pysnow.py:207-213 | a missing sys_id becomes InvalidUsage, several records NotImplementedError |
| Pysnow.MissingRecordDiffers | pysnow.py:189-213 | delete and update fail alike except that a missing record is NoResults for one and InvalidUsage for the other |
| Pysnow.DeleteUrl | pysnow.py:182-197 | delete addresses the record's URL |
| Pysnow.UpdateUrl | pysnow.py:199-219 | update addresses the record and refuses a non-dict payload afterwards |
| Pysnow.TableUrl | pysnow.py:305-328 | a table other than attachment has the later Request's table URL |
| Pysnow.AttachmentUrls | pysnow.py:312-346 | the attachment table drops `/table`, and the upload URL is its URL plus `/upload` |
| URLBuilder.UnitsFlat | pysnow/url_builder.py:28-29 | the repeated group matches exactly the strings that start with a path character, use only path characters and `/`, and hold no `//` |
| URLBuilder.ScanPattern | pysnow/url_builder.py:28-29 | one left-to-right scan decides whether the whole pattern matches |
| URLBuilder.ValidatePath | pysnow/url_builder.py:19-36 | True exactly for a string the anchored pattern matches; any other string or a non-string raises InvalidUsage, except that a tuple of length other than one makes the message's `% path` raise TypeError |
| URLBuilder.AcceptedShape | pysnow/url_builder.py:28-29 | an accepted path starts with `/` and a path character, does not end with `/` and holds no `//` |
| URLBuilder.Examples | pysnow/url_builder.py:28-29 | `/ab` and `/a/b` pass; `/ab/`, `//a` and `abc` fail; `/ab` followed by a newline passes |
| URLBuilder.GetBaseUrl | pysnow/url_builder.py:38-51 | an instance gives `<instance>.service-now.com` and wins over a host; the scheme is https exactly when use_ssl is True |
| URLBuilder.New | pysnow/url_builder.py:9-17 | the resource URL is base_url + base_path + api_path |
| URLBuilder.GetAppendedCustom | pysnow/url_builder.py:53-61 | the component is validated first, with the same errors as validate_path; an accepted one is appended to the resource URL |
| URLBuilder.UrlParts | pysnow/url_builder.py:53-68 | get_url returns the three parts concatenated, and a custom URL extends it by the component |
| Resource.New | pysnow/resource.py:26-33 | the resource's URL builder gives base_url + base_path + api_path |
| Resource.UrlIsBaseAndPath | pysnow/resource.py:46-53 | the resource URL is the base URL followed by the path property |
| Resource.Components | pysnow/resource.py:68 | the API path split at `/` after stripping outer slashes has at least one component |
| Resource.Attachments | pysnow/resource.py:55-73 | a first component other than `table` raises InvalidUsage, a missing table name IndexError; otherwise the copy points at `/attachment` and receives the second component |
| Resource.TableAttachments | pysnow/resource.py:55-73 | for `/table/<name>` the attachment API gets `<name>` and the URL `<base url><base path>/attachment`, while its path still names the table |
| Resource.OtherApiRefused | pysnow/resource.py:68-71 | an API path outside the table API is refused |
| Resource.GetRecordLink | pysnow/resource.py:91-98 | the record link is the resource URL, `/`, then the sys_id as `str()` renders it |
| Report.New | pysnow/report.py:12-18 | a new report has x_total_count -1, no consumed records and no responses |
| Report.SetXTotalCount | pysnow/report.py:20-31 | an int that is not a bool is stored and nothing else changes; anything else raises TypeError |
| Report.AddConsumedCount | pysnow/report.py:33-44 | the same check, then the running total grows by the count |
| Report.AddResponse | pysnow/report.py:46-51 | a response is appended at the end and earlier entries are unchanged |
| Report.ConsumedAccumulates | pysnow/report.py:33-44 | a run of counts succeeds exactly when every one is an int, and adds their sum |
| Report.GetItem | pysnow/report.py:53-54 | subscripting returns the attribute of that name and raises AttributeError for any other |
| Report.GetItemReadsBack | pysnow/report.py:20-54 | subscripting reads back what the setters stored |

## Left out

- HTTP transport is not modelled because it is network I/O: sessions, `raise_for_status` (modelled as the rule `400 <= status < 600`), Link-header pagination (`_all_inner`) and `client.py`.
- `oauth_client.py` is not modelled because it consists of foreign-library token calls.
- `attachment.py` and the `attach` methods are not modelled because they read files and sniff MIME types.
- The ijson tokenizer is not modelled. Its event stream is the input, and a reference encoder `Response.Encode` produces the streams the lemmas use.
- pytz is not modelled. A datetime carries an optional fixed offset in minutes, and the tz database is not modelled.
- Microseconds are not modelled. The formats that print them are never used by the modelled code.
- `repr` escaping is simplified. A string is quoted with `'`, or with `"` when it holds a `'` and no `"`, and no backslash escape is written.
- Caller-name text produced through `inspect` is not modelled, because it only appears in messages.
- The message texts of InvalidUsage and the Query* errors are not modelled; only the error class is.
- `warnings` and logging, `__repr__` of resources and reports, and `setup.py` are not modelled.
- `RelativeTimeWindows` and `RelativeDirection` are not modelled, because no modelled code uses them.
- Dict keys are strings. A query dict with non-string keys is not modelled.
- `str.lower` is modelled on ASCII letters only.
- Records taken from a decoded body are JSON values. Caller payloads are `Value`.
- The `status_code` side effect of the first release's `_get_content` is not modelled, because nothing modelled reads it.
- `pysnow/request.py` imports `UnexpectedResponse` from `pysnow/exceptions.py`, which does not define it. The model gives the later request the legacy exception's shape (with a status code).
- Resource paths are strings. A `None` base or API path, which makes the URL builder raise TypeError, is not modelled.
- URLBuilder.GetBaseUrl: instance and host are strings or absent. An absent host renders as `None`. Non-string instances are not modelled.
- LegacyRequest.OrderSuffix: an `order_by` entry that is not a string is modelled as TypeError. In Python a list or dict entry would be indexed instead.
- RequestCommon.Fill: cloning a record that is not a JSON object is not modelled.
- Criterion.Render: its own contract states only the kind of value each node writes. The text each kind of node writes is stated by Criterion.CompareStrRenders, Criterion.CompareIntRenders, Criterion.InRenders, Criterion.CheckRenders, Criterion.WrappedRenders, Criterion.FoldJoins, Criterion.BetweenInts, Criterion.BetweenDates, Criterion.OnShape and Criterion.OrderShape.
- Report.New: the resource, session and request parameters are opaque values.
- Report.GetItem: dunder attributes reached through `report[...]` are not modelled.
- Criterion.WrapConstant: a `ValueWrapper` instance handed in, which is returned as it is when its `type_` is allowed, is not modelled. `Values.Value` has no wrapper variant, because only the library's own code creates wrappers.
- Fractional JSON numbers are not modelled. `Json.JNum` holds an integer, so a record carrying a non-integer number (which ijson yields as a `Decimal`) has no representation.
- `datetime.date` values are not modelled. A date also has `strftime`, so the ordering comparisons would take their datetime branch, and `datetime_as_utc` would then raise AttributeError on it.
- DateTimes.Year4: `%Y` zero-pads a year below 1000 to four digits; CPython on glibc writes such a year without padding. Years below 1000 do not occur in ServiceNow records.
- Response.Parse: the error raised by ijson on malformed JSON is not modelled, because the tokenizer is not modelled.
