/** Calendar dates as Python's `datetime` module handles them: the proleptic
    Gregorian calendar from year 1 to year 9999, the text form
    `strftime('%Y-%m-%d')` writes, the `YYYY-MM-DD` date part that
    `datetime.fromisoformat` reads, the more lenient `strptime(s, '%Y-%m-%d')`,
    and the one-day step `+ timedelta(days=1)`. */
module Calendar {
  import opened Common

  datatype Date = Date(year: int, month: int, day: int)

  predicate IsLeapYear(y: int) {
    y % 4 == 0 && (y % 100 != 0 || y % 400 == 0)
  }

  function DaysInMonth(y: int, m: int): (n: int)
    requires 1 <= m <= 12
    ensures 28 <= n <= 31
    ensures n == 29 <==> m == 2 && IsLeapYear(y)
  {
    if m == 2 then (if IsLeapYear(y) then 29 else 28)
    else if m == 4 || m == 6 || m == 9 || m == 11 then 30
    else 31
  }

  /** A date `datetime.date` accepts: MINYEAR is 1, MAXYEAR is 9999. */
  predicate Valid(d: Date) {
    1 <= d.year <= 9999 && 1 <= d.month <= 12 && 1 <= d.day <= DaysInMonth(d.year, d.month)
  }

  type CalendarDate = d: Date | Valid(d) witness Date(1970, 1, 1)

  /** The largest date Python can represent; one day after it overflows. */
  const LastDate: CalendarDate := Date(9999, 12, 31)

  /** Chronological order, which is how `datetime` objects compare. */
  predicate Before(a: Date, b: Date) {
    a.year < b.year || (a.year == b.year && (a.month < b.month || (a.month == b.month && a.day < b.day)))
  }

  predicate AtOrBefore(a: Date, b: Date) {
    a == b || Before(a, b)
  }

  // ---------------------------------------------------------------------
  // The one-day step
  // ---------------------------------------------------------------------

  /** `d + timedelta(days=1)`; `None` is the OverflowError past 9999-12-31. */
  function NextDay(d: CalendarDate): (n: Option<CalendarDate>)
    ensures n.Some? ==> Before(d, n.value)
    ensures n.None? <==> d == LastDate
  {
    if d.day < DaysInMonth(d.year, d.month) then Some(Date(d.year, d.month, d.day + 1))
    else if d.month < 12 then Some(Date(d.year, d.month + 1, 1))
    else if d.year < 9999 then Some(Date(d.year + 1, 1, 1))
    else None
  }

  /** The step skips no date: whatever valid date lies after `d` lies at or
      after the next day. */
  lemma NoDateSkipped(d: CalendarDate, x: CalendarDate)
    requires Before(d, x)
    ensures NextDay(d).Some? && AtOrBefore(NextDay(d).value, x)
  {
  }

  /** Every valid date lies at or before the last one. */
  lemma AtOrBeforeLast(x: CalendarDate)
    ensures AtOrBefore(x, LastDate)
  {
  }

  lemma BeforeTransitive(a: Date, b: Date, c: Date)
    requires Before(a, b) && Before(b, c)
    ensures Before(a, c)
  {
  }

  /** A number that grows with the date; the walk below decreases the
      distance between two of them. */
  function DayIndex(d: Date): int {
    d.year * 372 + d.month * 31 + d.day
  }

  lemma BeforeDayIndex(a: CalendarDate, b: CalendarDate)
    requires Before(a, b)
    ensures DayIndex(a) < DayIndex(b)
  {
  }

  /** The dates `from`, the day after, and so on while they are at or before
      `to`: the dates a loop `while current <= to: ...; current += 1 day`
      visits. The walk stops after 9999-12-31, where the step overflows. */
  function DateRange(from: CalendarDate, to: CalendarDate): (r: seq<CalendarDate>)
    ensures r == [] <==> Before(to, from)
    ensures r != [] ==> r[0] == from && r[|r| - 1] == to
    ensures forall i :: 0 <= i < |r| ==> AtOrBefore(from, r[i]) && AtOrBefore(r[i], to)
    decreases DayIndex(to) - DayIndex(from)
  {
    if Before(to, from) then []
    else
      match NextDay(from)
      case None => [from]
      case Some(n) =>
        BeforeDayIndex(from, n);
        if Before(to, n) then
          assert from == to by {
            if from != to {
              NoDateSkipped(from, to);
            }
          }
          [from]
        else
          [from] + DateRange(n, to)
  }

  /** One step of the walk: the first date, then the walk from the next
      day (nothing after the last representable date). */
  lemma DateRangeStep(from: CalendarDate, to: CalendarDate)
    requires AtOrBefore(from, to)
    ensures NextDay(from).None? ==> DateRange(from, to) == [from]
    ensures NextDay(from).Some? ==> DateRange(from, to) == [from] + DateRange(NextDay(from).value, to)
  {
  }

  lemma SeqAssociative<T>(a: seq<T>, b: seq<T>, c: seq<T>)
    ensures a + (b + c) == (a + b) + c
  {
  }

  /** The walk's loop invariant carried over one step: the dates already
      visited, followed by the rest of the walk, are the whole walk. */
  lemma DateRangeAdvance(done: seq<CalendarDate>, from: CalendarDate, current: CalendarDate, to: CalendarDate)
    requires done + DateRange(current, to) == DateRange(from, to)
    requires AtOrBefore(current, to)
    ensures NextDay(current).None? ==> done + [current] == DateRange(from, to)
    ensures NextDay(current).Some? ==> (done + [current]) + DateRange(NextDay(current).value, to) == DateRange(from, to)
  {
    DateRangeStep(current, to);
    var whole := DateRange(current, to);
    if NextDay(current).Some? {
      var rest := DateRange(NextDay(current).value, to);
      assert whole == [current] + rest;
      SeqAssociative(done, [current], rest);
    } else {
      assert whole == [current];
    }
  }

  /** No date between the two ends is missed. */
  lemma {:induction false} DateRangeComplete(from: CalendarDate, to: CalendarDate, x: CalendarDate)
    requires AtOrBefore(from, x) && AtOrBefore(x, to)
    ensures x in DateRange(from, to)
    decreases DayIndex(to) - DayIndex(from)
  {
    if x != from {
      NoDateSkipped(from, x);
      var n := NextDay(from).value;
      BeforeDayIndex(from, n);
      DateRangeComplete(n, to, x);
      assert DateRange(from, to) == [from] + DateRange(n, to);
    }
  }

  /** Each date is visited once: the walk is strictly increasing. */
  lemma {:induction false} DateRangeIncreasing(from: CalendarDate, to: CalendarDate)
    ensures var r := DateRange(from, to);
      forall i, j :: 0 <= i < j < |r| ==> Before(r[i], r[j])
    decreases DayIndex(to) - DayIndex(from)
  {
    var r := DateRange(from, to);
    if r != [] && NextDay(from).Some? && !Before(to, NextDay(from).value) {
      var n := NextDay(from).value;
      BeforeDayIndex(from, n);
      DateRangeIncreasing(n, to);
      assert r == [from] + DateRange(n, to);
      forall i, j | 0 <= i < j < |r| ensures Before(r[i], r[j]) {
        if i == 0 && j > 1 {
          BeforeTransitive(from, n, r[j]);
        }
      }
    }
  }

  // ---------------------------------------------------------------------
  // Digits
  // ---------------------------------------------------------------------

  predicate IsDigit(c: char) {
    '0' <= c <= '9'
  }

  function DigitValue(c: char): (n: int)
    requires IsDigit(c)
    ensures 0 <= n <= 9
  {
    c as int - '0' as int
  }

  function DigitChar(n: int): (c: char)
    requires 0 <= n <= 9
    ensures IsDigit(c) && DigitValue(c) == n
  {
    ('0' as int + n) as char
  }

  /** The number two digit characters spell. */
  function Value2(a: char, b: char): (n: int)
    requires IsDigit(a) && IsDigit(b)
    ensures 0 <= n <= 99
  {
    DigitValue(a) * 10 + DigitValue(b)
  }

  /** Two digits spelling a number no larger than `max`. */
  predicate DigitsUpTo(a: char, b: char, max: int) {
    IsDigit(a) && IsDigit(b) && Value2(a, b) <= max
  }

  // ---------------------------------------------------------------------
  // The canonical text form
  // ---------------------------------------------------------------------

  /** `YYYY-MM-DD`: four digits, a hyphen, two digits, a hyphen, two digits. */
  predicate FullDateShape(s: string) {
    && |s| == 10
    && IsDigit(s[0]) && IsDigit(s[1]) && IsDigit(s[2]) && IsDigit(s[3])
    && s[4] == '-' && IsDigit(s[5]) && IsDigit(s[6])
    && s[7] == '-' && IsDigit(s[8]) && IsDigit(s[9])
  }

  /** The date a text of that shape spells, valid or not. */
  function Spelled(s: string): Date
    requires FullDateShape(s)
  {
    Date(Value2(s[0], s[1]) * 100 + Value2(s[2], s[3]), Value2(s[5], s[6]), Value2(s[8], s[9]))
  }

  /** The date part `datetime.fromisoformat` reads: `YYYY-MM-DD` naming a
      real calendar date, `None` otherwise. */
  function ParseFullDate(s: string): (r: Option<CalendarDate>)
    ensures r.Some? ==> FullDateShape(s)
  {
    if FullDateShape(s) && Valid(Spelled(s)) then Some(Spelled(s)) else None
  }

  /** `strftime('%Y-%m-%d')`. Its text reads back as the same date. */
  function Format(d: CalendarDate): (s: string)
    ensures FullDateShape(s)
    ensures ParseFullDate(s) == Some(d)
  {
    var hi, lo := d.year / 100, d.year % 100;
    [DigitChar(hi / 10), DigitChar(hi % 10), DigitChar(lo / 10), DigitChar(lo % 10), '-',
     DigitChar(d.month / 10), DigitChar(d.month % 10), '-',
     DigitChar(d.day / 10), DigitChar(d.day % 10)]
  }

  lemma DigitsOfValue(a: char, b: char)
    requires IsDigit(a) && IsDigit(b)
    ensures DigitChar(Value2(a, b) / 10) == a && DigitChar(Value2(a, b) % 10) == b
  {
  }

  /** The other half of the round trip: a date text that parses is exactly
      the text of the date it names. */
  lemma FormatOfParse(s: string)
    requires ParseFullDate(s).Some?
    ensures Format(ParseFullDate(s).value) == s
  {
    var d := Spelled(s);
    DigitsOfValue(s[0], s[1]);
    DigitsOfValue(s[2], s[3]);
    DigitsOfValue(s[5], s[6]);
    DigitsOfValue(s[8], s[9]);
    var hi, lo := Value2(s[0], s[1]), Value2(s[2], s[3]);
    assert d.year / 100 == hi && d.year % 100 == lo;
  }

  /** Distinct dates have distinct texts. */
  lemma FormatInjective(a: CalendarDate, b: CalendarDate)
    requires Format(a) == Format(b)
    ensures a == b
  {
  }

  // ---------------------------------------------------------------------
  // strptime(s, '%Y-%m-%d')
  // ---------------------------------------------------------------------

  /** The `%m` token of `strptime` in its two-character forms `1[0-2]` and
      `0[1-9]`. */
  predicate IsTwoDigitMonth(a: char, b: char) {
    (a == '1' && '0' <= b <= '2') || (a == '0' && '1' <= b <= '9')
  }

  /** The `%d` token of `strptime`: `3[01]`, `[12]\d`, `0[1-9]`, `[1-9]` or
      ` [1-9]`, and nothing may follow it. */
  function DayToken(t: string): (r: Option<int>)
    ensures r.Some? ==> 1 <= r.value <= 31
  {
    if |t| == 1 && '1' <= t[0] <= '9' then Some(DigitValue(t[0]))
    else if |t| == 2 && t[0] == ' ' && '1' <= t[1] <= '9' then Some(DigitValue(t[1]))
    else if |t| == 2 && ((t[0] == '3' && '0' <= t[1] <= '1')
                         || ('1' <= t[0] <= '2' && IsDigit(t[1]))
                         || (t[0] == '0' && '1' <= t[1] <= '9'))
    then Some(Value2(t[0], t[1]))
    else None
  }

  function WithDay(year: int, month: int, t: string): Option<CalendarDate> {
    match DayToken(t)
    case None => None
    case Some(day) =>
      var d := Date(year, month, day);
      if Valid(d) then Some(d) else None
  }

  /** `datetime.strptime(s, '%Y-%m-%d')`: four digits, `-`, a month of one or
      two digits, `-`, a day of one or two digits (or a space and a digit),
      and a date that exists; `None` is the ValueError. */
  function Strptime(s: string): (r: Option<CalendarDate>)
    ensures r.Some? ==> 8 <= |s| <= 10
  {
    if |s| < 7 || !(IsDigit(s[0]) && IsDigit(s[1]) && IsDigit(s[2]) && IsDigit(s[3])) || s[4] != '-' then None
    else
      var year := Value2(s[0], s[1]) * 100 + Value2(s[2], s[3]);
      if |s| >= 8 && IsTwoDigitMonth(s[5], s[6]) && s[7] == '-' then
        WithDay(year, Value2(s[5], s[6]), s[8..])
      else if '1' <= s[5] <= '9' && s[6] == '-' then
        WithDay(year, DigitValue(s[5]), s[7..])
      else None
  }

  /** `strptime` reads back what `strftime` wrote. */
  lemma StrptimeOfFormat(d: CalendarDate)
    ensures Strptime(Format(d)) == Some(d)
  {
    var s := Format(d);
    assert s[8..] == [s[8], s[9]];
  }

  /** What the walk visits: exactly the dates from `from` to `to`, in
      increasing order, and none when `from` is after `to`. */
  lemma DateRangeExactly(from: CalendarDate, to: CalendarDate)
    ensures var r := DateRange(from, to);
      && (forall x: CalendarDate :: x in r <==> AtOrBefore(from, x) && AtOrBefore(x, to))
      && (forall i, j :: 0 <= i < j < |r| ==> Before(r[i], r[j]))
      && (r == [] <==> Before(to, from))
  {
    DateRangeIncreasing(from, to);
    forall x: CalendarDate | AtOrBefore(from, x) && AtOrBefore(x, to) ensures x in DateRange(from, to) {
      DateRangeComplete(from, to, x);
    }
  }
}
