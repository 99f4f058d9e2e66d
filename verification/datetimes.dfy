/**
 * Calendar date-times as the query builders receive them: a wall-clock
 * reading with an optional fixed UTC offset (a "tz-aware" value) or none
 * (a "naive" value). Only what the builders do with them is modelled:
 * conversion to UTC and `strftime` with the two formats they use.
 */
module DateTimes {
  import opened Options
  import opened Strings

  predicate IsLeap(y: int) {
    y % 4 == 0 && (y % 100 != 0 || y % 400 == 0)
  }

  function DaysIn(y: int, m: int): int
    requires 1 <= m <= 12
  {
    if m == 2 then (if IsLeap(y) then 29 else 28)
    else if m == 4 || m == 6 || m == 9 || m == 11 then 30
    else 31
  }

  /** `datetime.MINYEAR` and `datetime.MAXYEAR`. */
  const MinYear := 1
  const MaxYear := 9999

  /** Minutes in a day; a UTC offset must be strictly smaller in magnitude. */
  const DayMinutes := 1440

  datatype Date = Date(year: int, month: int, day: int)

  predicate ValidDate(d: Date) {
    MinYear <= d.year <= MaxYear && 1 <= d.month <= 12 && 1 <= d.day <= DaysIn(d.year, d.month)
  }

  datatype Stamp = Stamp(date: Date, hour: int, minute: int, second: int, offset: Option<int>)

  predicate ValidStamp(s: Stamp) {
    && ValidDate(s.date)
    && 0 <= s.hour < 24 && 0 <= s.minute < 60 && 0 <= s.second < 60
    && (s.offset.Some? ==> -DayMinutes < s.offset.value < DayMinutes)
  }

  /** A `datetime` value; `offset` is its UTC offset in minutes, `None` for a naive value. */
  type DateTime = s: Stamp | ValidStamp(s) witness Stamp(Date(1970, 1, 1), 0, 0, 0, None)

  /** The day after `d`, or `None` past `MAXYEAR` (Python raises `OverflowError`). */
  function NextDay(d: Date): (r: Option<Date>)
    requires ValidDate(d)
    ensures r.Some? ==> ValidDate(r.value)
    ensures r.None? <==> d == Date(MaxYear, 12, 31)
  {
    if d.day < DaysIn(d.year, d.month) then Some(Date(d.year, d.month, d.day + 1))
    else if d.month < 12 then Some(Date(d.year, d.month + 1, 1))
    else if d.year < MaxYear then Some(Date(d.year + 1, 1, 1))
    else None
  }

  /** The day before `d`, or `None` before `MINYEAR`. */
  function PrevDay(d: Date): (r: Option<Date>)
    requires ValidDate(d)
    ensures r.Some? ==> ValidDate(r.value)
    ensures r.None? <==> d == Date(MinYear, 1, 1)
  {
    if d.day > 1 then Some(Date(d.year, d.month, d.day - 1))
    else if d.month > 1 then Some(Date(d.year, d.month - 1, DaysIn(d.year, d.month - 1)))
    else if d.year > MinYear then Some(Date(d.year - 1, 12, 31))
    else None
  }

  function YearLength(y: int): int {
    if IsLeap(y) then 366 else 365
  }

  /** Days in the years before `y`, counted from year 1: the reference day count. */
  function DaysBeforeYear(y: int): int
    decreases y
  {
    if y <= MinYear then 0 else DaysBeforeYear(y - 1) + YearLength(y - 1)
  }

  function DaysBeforeMonth(y: int, m: int): int
    requires 1 <= m <= 13
    decreases m
  {
    if m == 1 then 0 else DaysBeforeMonth(y, m - 1) + DaysIn(y, m - 1)
  }

  /** Proleptic Gregorian ordinal of a date (1 for 0001-01-01), as `date.toordinal`. */
  function Ordinal(d: Date): int
    requires 1 <= d.month <= 12
  {
    DaysBeforeYear(d.year) + DaysBeforeMonth(d.year, d.month) + d.day
  }

  lemma FullYear(y: int)
    ensures DaysBeforeMonth(y, 13) == YearLength(y)
  {
  }

  /** `NextDay` moves the ordinal forward by exactly one. */
  lemma NextDayOrdinal(d: Date)
    requires ValidDate(d) && NextDay(d).Some?
    ensures Ordinal(NextDay(d).value) == Ordinal(d) + 1
  {
    if d.day == DaysIn(d.year, d.month) && d.month == 12 {
      FullYear(d.year);
    }
  }

  /** `PrevDay` undoes `NextDay`, so the two are inverse on valid dates. */
  lemma NextPrev(d: Date)
    requires ValidDate(d) && NextDay(d).Some?
    ensures PrevDay(NextDay(d).value) == Some(d)
  {
  }

  /** `NextDay` undoes `PrevDay`. */
  lemma PrevNext(d: Date)
    requires ValidDate(d) && PrevDay(d).Some?
    ensures NextDay(PrevDay(d).value) == Some(d)
  {
  }

  lemma PrevDayOrdinal(d: Date)
    requires ValidDate(d) && PrevDay(d).Some?
    ensures Ordinal(PrevDay(d).value) + 1 == Ordinal(d)
  {
    PrevNext(d);
    NextDayOrdinal(PrevDay(d).value);
  }

  /** Minutes since 0001-01-01 00:00 of the wall clock (seconds are never shifted). */
  function WallMinutes(s: Stamp): int
    requires 1 <= s.date.month <= 12
  {
    Ordinal(s.date) * DayMinutes + s.hour * 60 + s.minute
  }

  /** The clock reading `m` minutes into day `date`. */
  function ClockAt(date: Date, m: int, second: int, offset: Option<int>): (r: DateTime)
    requires ValidDate(date) && 0 <= m < DayMinutes && 0 <= second < 60
    requires offset.Some? ==> -DayMinutes < offset.value < DayMinutes
    ensures WallMinutes(r) == Ordinal(date) * DayMinutes + m
    ensures r.date == date && r.second == second && r.offset == offset
  {
    Stamp(date, m / 60, m % 60, second, offset)
  }

  /**
   * The wall clock moved by `delta` minutes, with `offset` as the new UTC
   * offset; `None` when the result leaves the representable years.
   */
  function Shift(s: DateTime, delta: int, offset: Option<int>): (r: Option<DateTime>)
    requires -DayMinutes < delta < DayMinutes
    requires offset.Some? ==> -DayMinutes < offset.value < DayMinutes
    ensures r.Some? ==> WallMinutes(r.value) == WallMinutes(s) + delta
    ensures r.Some? ==> r.value.second == s.second && r.value.offset == offset
  {
    var m := s.hour * 60 + s.minute + delta;
    if m < 0 then
      match PrevDay(s.date)
      case None => None
      case Some(p) =>
        PrevDayOrdinal(s.date);
        Some(ClockAt(p, m + DayMinutes, s.second, offset))
    else if m >= DayMinutes then
      match NextDay(s.date)
      case None => None
      case Some(n) =>
        NextDayOrdinal(s.date);
        Some(ClockAt(n, m - DayMinutes, s.second, offset))
    else
      Some(ClockAt(s.date, m, s.second, offset))
  }

  /**
   * `datetime_as_utc`: a naive value is returned unchanged; an aware one is
   * converted to UTC (offset zero). `None` stands for the `OverflowError`
   * Python raises when the conversion leaves years 1..9999.
   */
  function AsUtc(d: DateTime): (r: Option<DateTime>)
    ensures d.offset.None? ==> r == Some(d)
    ensures d.offset.Some? && r.Some? ==>
      r.value.offset == Some(0) && WallMinutes(r.value) == WallMinutes(d) - d.offset.value
  {
    match d.offset
    case None => Some(d)
    case Some(o) => Shift(d, -o, Some(0))
  }

  /** Converting an aware value to UTC fails exactly when it would leave the calendar's first or last day. */
  lemma AsUtcOverflow(d: DateTime)
    ensures AsUtc(d).None? <==>
      d.offset.Some? &&
      var m := d.hour * 60 + d.minute - d.offset.value;
      (d.date == Date(MinYear, 1, 1) && m < 0) || (d.date == Date(MaxYear, 12, 31) && m >= DayMinutes)
  {
  }

  /** strftime `%Y`: the year zero-padded to four digits. */
  function Year4(y: nat): string {
    ZeroPad(y, 4)
  }

  function Two(n: nat): string {
    ZeroPad(n, 2)
  }

  /** `strftime("%Y-%m-%d")`. */
  function FormatDate(d: Date): string
    requires ValidDate(d)
  {
    Year4(d.year) + "-" + Two(d.month) + "-" + Two(d.day)
  }

  /** `strftime("%Y-%m-%d %H:%M:%S")`; the offset is not printed. */
  function FormatDateTime(d: DateTime): string {
    FormatDate(d.date) + " " + FormatTime(d.hour, d.minute, d.second)
  }

  /** The `+HH:MM` / `-HH:MM` suffix `isoformat` writes for a UTC offset. */
  function OffsetText(o: int): string
    requires -DayMinutes < o < DayMinutes
  {
    var a := if o < 0 then -o else o;
    (if o < 0 then "-" else "+") + Two(a / 60) + ":" + Two(a % 60)
  }

  /** `str(datetime)`, that is `isoformat(" ")`. */
  function IsoText(d: DateTime): string {
    FormatDateTime(d) + (match d.offset case None => "" case Some(o) => OffsetText(o))
  }

  /** `repr` of the fixed-offset `tzinfo`, a `datetime.timezone`. */
  function TimezoneRepr(o: int): string
    requires -DayMinutes < o < DayMinutes
  {
    if o == 0 then "datetime.timezone.utc"
    else if o > 0 then "datetime.timezone(datetime.timedelta(seconds=" + NatToString(o * 60) + "))"
    else "datetime.timezone(datetime.timedelta(days=-1, seconds=" + NatToString(86400 + o * 60) + "))"
  }

  /** `repr(datetime)`: the seconds field is dropped when zero. */
  function DateTimeRepr(d: DateTime): string {
    "datetime.datetime(" + NatToString(d.date.year) + ", " + NatToString(d.date.month) + ", "
      + NatToString(d.date.day) + ", " + NatToString(d.hour) + ", " + NatToString(d.minute)
      + (if d.second != 0 then ", " + NatToString(d.second) else "")
      + (match d.offset case None => "" case Some(o) => ", tzinfo=" + TimezoneRepr(o))
      + ")"
  }

  // ---- Reading a formatted date-time back ----

  function Pow10(k: nat): nat {
    if k == 0 then 1 else 10 * Pow10(k - 1)
  }

  lemma {:induction false} NatToStringLength(n: nat, k: nat)
    requires 1 <= k && n < Pow10(k)
    ensures |NatToString(n)| <= k
  {
    if n >= 10 {
      NatToStringLength(n / 10, k - 1);
    }
  }

  lemma {:induction false} ZerosValue(s: string)
    requires forall i :: 0 <= i < |s| ==> s[i] == '0'
    ensures forall i :: 0 <= i < |s| ==> IsDigit(s[i])
    ensures DigitsValue(s) == 0
  {
    if |s| > 0 {
      ZerosValue(s[..|s| - 1]);
    }
  }

  /** Leading zeros do not change the value of a digit string. */
  lemma {:induction false} LeadingZeros(z: string, s: string)
    requires forall i :: 0 <= i < |z| ==> z[i] == '0'
    requires forall i :: 0 <= i < |s| ==> IsDigit(s[i])
    ensures forall i :: 0 <= i < |z + s| ==> IsDigit((z + s)[i])
    ensures DigitsValue(z + s) == DigitsValue(s)
    decreases |s|
  {
    if |s| == 0 {
      assert z + s == z;
      ZerosValue(z);
    } else {
      var t := z + s;
      assert t[..|t| - 1] == z + s[..|s| - 1];
      LeadingZeros(z, s[..|s| - 1]);
    }
  }

  /** A zero-padded field of width `k` is exactly `k` digits and reads back as `n`. */
  lemma ZeroPadValue(n: nat, k: nat)
    requires 1 <= k && n < Pow10(k)
    ensures |ZeroPad(n, k)| == k
    ensures DigitsValue(ZeroPad(n, k)) == n
  {
    NatToStringLength(n, k);
    NatToStringValue(n);
    var digits := NatToString(n);
    if |digits| < k {
      LeadingZeros(Zeros(k - |digits|), digits);
    }
  }

  /** `%Y-%m-%d` is ten characters whose digit fields read back as the date. */
  lemma FormatDateFields(d: Date)
    requires ValidDate(d)
    ensures var s := FormatDate(d);
      |s| == 10 && s[4] == '-' && s[7] == '-'
      && DigitsValue(s[0..4]) == d.year && DigitsValue(s[5..7]) == d.month && DigitsValue(s[8..10]) == d.day
  {
    assert Pow10(2) == 100;
    assert Pow10(4) == 10000;
    ZeroPadValue(d.year, 4);
    ZeroPadValue(d.month, 2);
    ZeroPadValue(d.day, 2);
    var s := FormatDate(d);
    assert s[0..4] == Year4(d.year);
    assert s[5..7] == Two(d.month);
    assert s[8..10] == Two(d.day);
  }

  function FormatTime(h: nat, m: nat, sec: nat): string {
    Two(h) + ":" + Two(m) + ":" + Two(sec)
  }

  lemma FormatTimeFields(h: nat, m: nat, sec: nat)
    requires h < 100 && m < 100 && sec < 100
    ensures var s := FormatTime(h, m, sec);
      |s| == 8 && s[2] == ':' && s[5] == ':'
      && DigitsValue(s[0..2]) == h && DigitsValue(s[3..5]) == m && DigitsValue(s[6..8]) == sec
  {
    assert Pow10(2) == 100;
    ZeroPadValue(h, 2);
    ZeroPadValue(m, 2);
    ZeroPadValue(sec, 2);
    var s := FormatTime(h, m, sec);
    assert s[0..2] == Two(h);
    assert s[3..5] == Two(m);
    assert s[6..8] == Two(sec);
  }

  /**
   * `%Y-%m-%d %H:%M:%S` is a fixed-width rendering: 19 characters from
   * which every field of the date-time can be read back.
   */
  lemma FormatDateTimeFields(d: DateTime)
    ensures |FormatDateTime(d)| == 19
    ensures var s := FormatDateTime(d);
      s[4] == '-' && s[7] == '-' && s[10] == ' ' && s[13] == ':' && s[16] == ':'
      && DigitsValue(s[0..4]) == d.date.year && DigitsValue(s[5..7]) == d.date.month
      && DigitsValue(s[8..10]) == d.date.day && DigitsValue(s[11..13]) == d.hour
      && DigitsValue(s[14..16]) == d.minute && DigitsValue(s[17..19]) == d.second
  {
    FormatDateFields(d.date);
    FormatTimeFields(d.hour, d.minute, d.second);
    var date, time := FormatDate(d.date), FormatTime(d.hour, d.minute, d.second);
    var s := FormatDateTime(d);
    assert s == date + " " + time;
    assert s[0..4] == date[0..4] && s[5..7] == date[5..7] && s[8..10] == date[8..10];
    assert s[11..13] == time[0..2] && s[14..16] == time[3..5] && s[17..19] == time[6..8];
  }
}
