/**
 * The token tables of the encoded-query grammar: sort directions,
 * comparison and logical operators, the relative date windows offered by
 * the platform's `ON` filter and the relative comparison codes.
 */
module Enums {
  import opened Strings

  /** `Order`: sort direction. */
  datatype Order = Asc | Desc

  function OrderValue(o: Order): string {
    match o
    case Asc => "ASC"
    case Desc => "DESC"
  }

  function OrderName(o: Order): string {
    match o
    case Asc => "asc"
    case Desc => "desc"
  }

  /** `Equality`: the comparison operators. */
  datatype Equality = Eq | Ne | Gt | Gte | Lt | Lte

  function EqualityValue(e: Equality): string {
    match e
    case Eq => "="
    case Ne => "!="
    case Gt => ">"
    case Gte => ">="
    case Lt => "<"
    case Lte => "<="
  }

  /** `Boolean`: the connectives joining two conditions. */
  datatype Boolean = And | Or | Nq

  function BooleanValue(b: Boolean): string {
    match b
    case And => "^"
    case Or => "^OR"
    case Nq => "^NQ"
  }

  /** `DateTimeOn`: the relative date windows of the `ON` / `NOTON` filter. */
  datatype DateTimeOn =
      Today | Yesterday | Tomorrow | ThisWeek | LastWeek | NextWeek | ThisMonth
    | LastMonth | NextMonth | Last3Months | Last6Months | Last9Months | Last12Months
    | ThisQuarter | LastQuarter | Last2Quarters | NextQuarter | Next2Quarter | ThisYear
    | NextYear | LastYesr | Last2Years | Last7Days | Last30Days | Last60Days | Last90Days
    | Last120Days | ThisHour | LastHour | Last2Hours | ThisMinute | LastMinute
    | Last15Minutes | Last30Minutes | Last45Minutes | OneYearAgo

  /**
   * The member's value: the string the platform expects after `ON`. Every
   * member of the source spells out `<caption>@javascript:gs.beginningOf<X>()@javascript:gs.endOf<X>()`
   * for one caption and one window function `X`, listed in `DateTimeOnParts`.
   */
  function DateTimeOnValue(d: DateTimeOn): string {
    var (caption, window) := DateTimeOnParts(d);
    OnWindow(caption, window)
  }

  /** The member's Python attribute name. */
  function DateTimeOnName(d: DateTimeOn): string {
    match d
    case Today => "today"
    case Yesterday => "yesterday"
    case Tomorrow => "tomorrow"
    case ThisWeek => "this_week"
    case LastWeek => "last_week"
    case NextWeek => "next_week"
    case ThisMonth => "this_month"
    case LastMonth => "last_month"
    case NextMonth => "next_month"
    case Last3Months => "last_3_months"
    case Last6Months => "last_6_months"
    case Last9Months => "last_9_months"
    case Last12Months => "last_12_months"
    case ThisQuarter => "this_quarter"
    case LastQuarter => "last_quarter"
    case Last2Quarters => "last_2_quarters"
    case NextQuarter => "next_quarter"
    case Next2Quarter => "next_2_quarter"
    case ThisYear => "this_year"
    case NextYear => "next_year"
    case LastYesr => "last_yesr"
    case Last2Years => "last_2_years"
    case Last7Days => "last_7_days"
    case Last30Days => "last_30_days"
    case Last60Days => "last_60_days"
    case Last90Days => "last_90_days"
    case Last120Days => "last_120_days"
    case ThisHour => "this_hour"
    case LastHour => "last_hour"
    case Last2Hours => "last_2_hours"
    case ThisMinute => "this_minute"
    case LastMinute => "last_minute"
    case Last15Minutes => "last_15_minutes"
    case Last30Minutes => "last_30_minutes"
    case Last45Minutes => "last_45_minutes"
    case OneYearAgo => "one_year_ago"
  }

  /** The caption shown by the platform and the `gs` window function suffix of each member. */
  function DateTimeOnParts(d: DateTimeOn): (string, string) {
    match d
    case Today => ("Today", "Today")
    case Yesterday => ("Yesterday", "Yesterday")
    case Tomorrow => ("Tomorrow", "Tomorrow")
    case ThisWeek => ("This week", "ThisWeek")
    case LastWeek => ("Last week", "LastWeek")
    case NextWeek => ("Next week", "NextWeek")
    case ThisMonth => ("This month", "ThisMonth")
    case LastMonth => ("Last month", "LastMonth")
    case NextMonth => ("Next month", "NextMonth")
    case Last3Months => ("Last 3 months", "Last3Months")
    case Last6Months => ("Last 6 months", "Last6Months")
    case Last9Months => ("Last 9 months", "Last9Months")
    case Last12Months => ("Last 12 months", "Last12Months")
    case ThisQuarter => ("This quarter", "ThisQuarter")
    case LastQuarter => ("Last quarter", "LastQuarter")
    case Last2Quarters => ("Last 2 quarters", "Last2Quarters")
    case NextQuarter => ("Next quarter", "NextQuarter")
    case Next2Quarter => ("Next 2 quarters", "Next2Quarters")
    case ThisYear => ("This year", "ThisYear")
    case NextYear => ("Next year", "NextYear")
    case LastYesr => ("Last year", "LastYear")
    case Last2Years => ("Last 2 years", "Last2Years")
    case Last7Days => ("Last 7 days", "Last7Days")
    case Last30Days => ("Last 30 days", "Last30Days")
    case Last60Days => ("Last 60 days", "Last60Days")
    case Last90Days => ("Last 90 days", "Last90Days")
    case Last120Days => ("Last 120 days", "Last120Days")
    case ThisHour => ("Current hour", "CurrentHour")
    case LastHour => ("Last hour", "LastHour")
    case Last2Hours => ("Last 2 hours", "Last2Hours")
    case ThisMinute => ("Current minute", "CurrentMinute")
    case LastMinute => ("Last minute", "LastMinute")
    case Last15Minutes => ("Last 15 minutes", "Last15Minutes")
    case Last30Minutes => ("Last 30 minutes", "Last30Minutes")
    case Last45Minutes => ("Last 45 minutes", "Last45Minutes")
    case OneYearAgo => ("One year ago", "OneYearAgo")
  }

  /** The shape every `ON` value takes: a caption, then the begin and end of one window function. */
  function OnWindow(caption: string, window: string): string {
    caption + "@" + WindowStart(window) + "@" + WindowEnd(window)
  }

  /** The call that opens a window. */
  function WindowStart(window: string): string {
    "javascript:gs.beginningOf" + window + "()"
  }

  /** The call that closes a window. */
  function WindowEnd(window: string): string {
    "javascript:gs.endOf" + window + "()"
  }

  /** Six members at a time, to keep each '@'-freeness proof small. */
  function Group(d: DateTimeOn): (g: nat)
    ensures g < 6
  {
    match d
    case Today | Yesterday | Tomorrow | ThisWeek | LastWeek | NextWeek => 0
    case ThisMonth | LastMonth | NextMonth | Last3Months | Last6Months | Last9Months => 1
    case Last12Months | ThisQuarter | LastQuarter | Last2Quarters | NextQuarter | Next2Quarter => 2
    case ThisYear | NextYear | LastYesr | Last2Years | Last7Days | Last30Days => 3
    case Last60Days | Last90Days | Last120Days | ThisHour | LastHour | Last2Hours => 4
    case ThisMinute | LastMinute | Last15Minutes | Last30Minutes | Last45Minutes | OneYearAgo => 5
  }

  /** No caption or window name of the members in group `g` holds an `@`. */
  lemma GroupFreeOfAt0(d: DateTimeOn)
    requires Group(d) == 0
    ensures '@' !in DateTimeOnParts(d).0 && '@' !in DateTimeOnParts(d).1
  {
  }

  lemma GroupFreeOfAt1(d: DateTimeOn)
    requires Group(d) == 1
    ensures '@' !in DateTimeOnParts(d).0 && '@' !in DateTimeOnParts(d).1
  {
  }

  lemma GroupFreeOfAt2(d: DateTimeOn)
    requires Group(d) == 2
    ensures '@' !in DateTimeOnParts(d).0 && '@' !in DateTimeOnParts(d).1
  {
  }

  lemma GroupFreeOfAt3(d: DateTimeOn)
    requires Group(d) == 3
    ensures '@' !in DateTimeOnParts(d).0 && '@' !in DateTimeOnParts(d).1
  {
  }

  lemma GroupFreeOfAt4(d: DateTimeOn)
    requires Group(d) == 4
    ensures '@' !in DateTimeOnParts(d).0 && '@' !in DateTimeOnParts(d).1
  {
  }

  lemma GroupFreeOfAt5(d: DateTimeOn)
    requires Group(d) == 5
    ensures '@' !in DateTimeOnParts(d).0 && '@' !in DateTimeOnParts(d).1
  {
  }

  /** No caption and no window function name holds an `@`. */
  lemma PartsFreeOfAt(d: DateTimeOn)
    ensures '@' !in DateTimeOnParts(d).0 && '@' !in DateTimeOnParts(d).1
  {
    match Group(d)
    case 0 => GroupFreeOfAt0(d);
    case 1 => GroupFreeOfAt1(d);
    case 2 => GroupFreeOfAt2(d);
    case 3 => GroupFreeOfAt3(d);
    case 4 => GroupFreeOfAt4(d);
    case 5 => GroupFreeOfAt5(d);
  }

  /** The text around the window function name holds no `@`. */
  lemma CallsFreeOfAt(window: string)
    requires '@' !in window
    ensures '@' !in WindowStart(window) && '@' !in WindowEnd(window)
  {
    var open := "javascript:gs.beginningOf";
    var close := "javascript:gs.endOf";
    assert forall i :: 0 <= i < |open| ==> open[i] != '@';
    assert forall i :: 0 <= i < |close| ==> close[i] != '@';
  }

  /** A window value splits at `@` into its caption and its two calls. */
  lemma {:induction false} OnWindowSplits(caption: string, window: string)
    requires '@' !in caption && '@' !in window
    ensures Split(OnWindow(caption, window), '@') == [caption, WindowStart(window), WindowEnd(window)]
  {
    var begin := WindowStart(window);
    var end := WindowEnd(window);
    CallsFreeOfAt(window);
    SplitNoSeparator(end, '@');
    SplitConcat(begin, end, '@');
    SplitConcat(caption, begin + (['@'] + end), '@');
    assert OnWindow(caption, window) == caption + (['@'] + (begin + (['@'] + end)));
  }

  /**
   * Every `ON` value splits at `@` into exactly three pieces: the caption,
   * the call opening the window and the call closing the same window.
   */
  lemma OnValueSplits(d: DateTimeOn)
    ensures Split(DateTimeOnValue(d), '@')
            == [DateTimeOnParts(d).0, WindowStart(DateTimeOnParts(d).1), WindowEnd(DateTimeOnParts(d).1)]
  {
    PartsFreeOfAt(d);
    OnWindowSplits(DateTimeOnParts(d).0, DateTimeOnParts(d).1);
  }

  /** The names declared in `RelativeEquality`, in declaration order. */
  datatype RelativeEqualityName = ee | eq | gt | gte | lt | lte

  function RelativeEqualityDeclared(n: RelativeEqualityName): string {
    match n
    case ee => "EE"
    case eq => "EE"
    case gt => "GT"
    case gte => "GE"
    case lt => "LT"
    case lte => "LTE"
  }

  /**
   * The member a name denotes. Python's `Enum` turns a later name whose
   * value repeats an earlier one into an alias of the earlier member.
   */
  function RelativeEqualityMember(n: RelativeEqualityName): (m: RelativeEqualityName)
    ensures RelativeEqualityDeclared(m) == RelativeEqualityDeclared(n)
  {
    var order := [ee, eq, gt, gte, lt, lte];
    FirstWithValue(order, RelativeEqualityDeclared(n), n)
  }

  function FirstWithValue(order: seq<RelativeEqualityName>, v: string, fallback: RelativeEqualityName): (m: RelativeEqualityName)
    requires RelativeEqualityDeclared(fallback) == v
    ensures RelativeEqualityDeclared(m) == v
  {
    if |order| == 0 then fallback
    else if RelativeEqualityDeclared(order[0]) == v then order[0]
    else FirstWithValue(order[1..], v, fallback)
  }

  /** `RelativeEquality.eq` is the same member as `RelativeEquality.ee`; every other name is its own member. */
  lemma RelativeEqualityAliases(n: RelativeEqualityName)
    ensures RelativeEqualityMember(n) == if n == eq then ee else n
  {
    assert RelativeEqualityDeclared(gt) != RelativeEqualityDeclared(ee);
    assert RelativeEqualityDeclared(gte) != RelativeEqualityDeclared(ee);
    assert RelativeEqualityDeclared(lt) != RelativeEqualityDeclared(ee);
    assert RelativeEqualityDeclared(lte) != RelativeEqualityDeclared(ee);
    assert RelativeEqualityDeclared(lte) != RelativeEqualityDeclared(lt);
  }
}
