/** Calendar dates and clock times, and Python's `datetime.strptime` for the
    three formats the project uses: "%d/%m/%Y", "%H:%M:%S" and "%H:%M".
    strptime matches each directive against a fixed regular expression and
    then builds a `date`/`time`, whose constructor rejects impossible values. */
module Calendar {
  import opened Wrappers
  import opened Text

  datatype Date = Date(year: int, month: int, day: int)
  datatype Time = Time(hour: int, minute: int, second: int)

  predicate IsLeap(y: int) {
    y % 4 == 0 && (y % 100 != 0 || y % 400 == 0)
  }

  function DaysInMonth(y: int, m: int): int
    requires 1 <= m <= 12
  {
    if m == 2 then (if IsLeap(y) then 29 else 28)
    else if m == 4 || m == 6 || m == 9 || m == 11 then 30
    else 31
  }

  /** What `datetime.date(y, m, d)` accepts (MINYEAR 1, MAXYEAR 9999). */
  predicate ValidDate(d: Date) {
    1 <= d.year <= 9999 && 1 <= d.month <= 12 && 1 <= d.day <= DaysInMonth(d.year, d.month)
  }

  /** What `datetime.time(h, m, s)` accepts. */
  predicate ValidTime(t: Time) {
    0 <= t.hour <= 23 && 0 <= t.minute <= 59 && 0 <= t.second <= 59
  }

  // ------------------------------------------------------------ fields

  function IndexOf(s: string, c: char): (k: nat)
    ensures k <= |s| && (k < |s| ==> s[k] == c)
    ensures forall i :: 0 <= i < k ==> s[i] != c
  {
    if s == [] || s[0] == c then 0 else 1 + IndexOf(s[1..], c)
  }

  /** The pieces of s between occurrences of the separator c. */
  function Fields(s: string, c: char): (f: seq<string>)
    ensures |f| > 0
    ensures forall i :: 0 <= i < |f| ==> c !in f[i]
    decreases |s|
  {
    var k := IndexOf(s, c);
    if k == |s| then [s] else [s[..k]] + Fields(s[k + 1..], c)
  }

  /** A text without the separator, then the separator, then the rest,
      splits into that text followed by the rest's pieces. */
  lemma FieldsCons(a: string, c: char, rest: string)
    requires c !in a
    ensures Fields(a + [c] + rest, c) == [a] + Fields(rest, c)
  {
    var s := a + [c] + rest;
    IndexOfAbsent(a, c, [c] + rest);
    assert s == a + ([c] + rest);
    assert s[..|a|] == a && s[|a| + 1..] == rest;
  }

  lemma FieldsSingle(a: string, c: char)
    requires c !in a
    ensures Fields(a, c) == [a]
  {
    IndexOfAbsent(a, c, []);
    assert a + [] == a;
  }

  lemma {:induction false} IndexOfAbsent(a: string, c: char, tail: string)
    requires c !in a && (tail == [] || tail[0] == c)
    ensures IndexOf(a + tail, c) == |a|
    decreases |a|
  {
    if a == [] {
      assert a + tail == tail;
    } else {
      assert (a + tail)[1..] == a[1..] + tail;
      IndexOfAbsent(a[1..], c, tail);
    }
  }

  // ------------------------------------------------------------ directives

  /** `%d`: "3[01]|[12]\d|0[1-9]|[1-9]| [1-9]". */
  predicate DayText(t: string) {
    || (|t| == 1 && '1' <= t[0] <= '9')
    || (|t| == 2 && AllDigits(t) && 1 <= DigitsValue(t) <= 31)
    || (|t| == 2 && t[0] == ' ' && '1' <= t[1] <= '9')
  }

  function DayValue(t: string): int
    requires DayText(t)
  {
    if t[0] == ' ' then DigitValue(t[1]) else DigitsValue(t)
  }

  /** `%m`: "1[0-2]|0[1-9]|[1-9]". */
  predicate MonthText(t: string) {
    || (|t| == 1 && '1' <= t[0] <= '9')
    || (|t| == 2 && AllDigits(t) && 1 <= DigitsValue(t) <= 12)
  }

  /** `%Y`: four digits. */
  predicate YearText(t: string) {
    |t| == 4 && AllDigits(t)
  }

  /** A one- or two-digit field whose two-digit form is at most `max`:
      `%H` (max 23), `%M` (max 59), `%S` (max 61). */
  predicate ClockText(t: string, max: nat) {
    || (|t| == 1 && IsDigit(t[0]))
    || (|t| == 2 && AllDigits(t) && DigitsValue(t) <= max)
  }

  lemma ClockTextValue(t: string, max: nat)
    requires ClockText(t, max) && max >= 9
    ensures DigitsValue(t) <= max
  {
    if |t| == 1 {
      assert t[..0] == [];
    }
  }

  /** `datetime.strptime(s, "%d/%m/%Y").date()`, None for a ValueError. */
  function ParseDate(s: string): (r: Option<Date>)
    ensures r.Some? ==> ValidDate(r.value)
  {
    var f := Fields(s, '/');
    if |f| == 3 && DayText(f[0]) && MonthText(f[1]) && YearText(f[2]) then
      var d := Date(DigitsValue(f[2]), DigitsValue(f[1]), DayValue(f[0]));
      if ValidDate(d) then Some(d) else None
    else None
  }

  /** `datetime.strptime(s, "%H:%M:%S").time()`; seconds 60 and 61 pass the
      pattern but not the time constructor. */
  function ParseTime(s: string): (r: Option<Time>)
    ensures r.Some? ==> ValidTime(r.value)
  {
    var f := Fields(s, ':');
    if |f| == 3 && ClockText(f[0], 23) && ClockText(f[1], 59) && ClockText(f[2], 61) then
      var t := Time(DigitsValue(f[0]), DigitsValue(f[1]), DigitsValue(f[2]));
      if ValidTime(t) then Some(t) else None
    else None
  }

  /** `datetime.strptime(s, "%H:%M").time()`. */
  function ParseHourMinute(s: string): (r: Option<Time>)
    ensures r.Some? ==> ValidTime(r.value) && r.value.second == 0
  {
    var f := Fields(s, ':');
    if |f| == 2 && ClockText(f[0], 23) && ClockText(f[1], 59) then
      ClockTextValue(f[0], 23);
      ClockTextValue(f[1], 59);
      Some(Time(DigitsValue(f[0]), DigitsValue(f[1]), 0))
    else None
  }

  // ------------------------------------------------------------ rendering

  function Pad4(n: nat): (r: string)
    requires n < 10000
    ensures |r| == 4 && AllDigits(r) && DigitsValue(r) == n
  {
    DigitsValueConcat(Pad2(n / 100), Pad2(n % 100));
    Pad2(n / 100) + Pad2(n % 100)
  }

  /** `strftime("%d/%m/%Y")`, the form the CSV export uses. */
  function FormatDate(d: Date): string
    requires ValidDate(d)
  {
    Pad2(d.day) + "/" + Pad2(d.month) + "/" + Pad4(d.year)
  }

  /** `strftime("%H:%M:%S")`. */
  function FormatTime(t: Time): string
    requires ValidTime(t)
  {
    Pad2(t.hour) + ":" + Pad2(t.minute) + ":" + Pad2(t.second)
  }

  /** Parsing a rendered date gives the date back. */
  lemma ParseFormatDate(d: Date)
    requires ValidDate(d)
    ensures ParseDate(FormatDate(d)) == Some(d)
  {
    var a, b, c := Pad2(d.day), Pad2(d.month), Pad4(d.year);
    assert FormatDate(d) == a + ['/'] + (b + ['/'] + c);
    FieldsCons(a, '/', b + ['/'] + c);
    FieldsCons(b, '/', c);
    FieldsSingle(c, '/');
    assert Fields(FormatDate(d), '/') == [a, b, c];
  }

  /** Parsing a rendered time gives the time back. */
  lemma ParseFormatTime(t: Time)
    requires ValidTime(t)
    ensures ParseTime(FormatTime(t)) == Some(t)
  {
    var a, b, c := Pad2(t.hour), Pad2(t.minute), Pad2(t.second);
    assert FormatTime(t) == a + [':'] + (b + [':'] + c);
    FieldsCons(a, ':', b + [':'] + c);
    FieldsCons(b, ':', c);
    FieldsSingle(c, ':');
    assert Fields(FormatTime(t), ':') == [a, b, c];
  }

  /** `strptime(f"{hour}:00", "%H:%M")` succeeds exactly for the hours of a day. */
  lemma ParseWholeHour(hour: nat)
    ensures ParseHourMinute(NatToString(hour) + ":00") ==
            (if hour <= 23 then Some(Time(hour, 0, 0)) else None)
  {
    var a := NatToString(hour);
    HourFields(a);
    MinuteZero();
    if hour >= 100 {
      NatToStringLong(hour);
    } else {
      HourText(hour);
    }
  }

  lemma HourFields(a: string)
    requires IsDigitText(a)
    ensures Fields(a + ":00", ':') == [a, "00"]
  {
    assert a + ":00" == a + [':'] + "00";
    FieldsCons(a, ':', "00");
    FieldsSingle("00", ':');
  }

  lemma MinuteZero()
    ensures ClockText("00", 59) && DigitsValue("00") == 0
  {
    assert "00"[..1] == "0";
  }

  /** An hour below 100 renders as one or two digits that read back as the
      hour, and is a valid `%H` exactly up to 23. */
  lemma HourText(hour: nat)
    requires hour < 100
    ensures DigitsValue(NatToString(hour)) == hour
    ensures ClockText(NatToString(hour), 23) <==> hour <= 23
  {
    var a := NatToString(hour);
    NatToStringValue(hour);
    if hour >= 10 {
      assert a == NatToString(hour / 10) + [DigitChar(hour % 10)];
      assert |a| == 2;
    }
  }

  /** From 100 on, `str(n)` has at least three digits. */
  lemma NatToStringLong(n: nat)
    requires n >= 100
    ensures |NatToString(n)| >= 3
  {
    assert NatToString(n) == NatToString(n / 10) + [DigitChar(n % 10)];
    assert NatToString(n / 10) == NatToString(n / 100) + [DigitChar(n / 10 % 10)];
  }

}
