/** The timestamp handling of `clean_transaction_data`: the feed's `date`
    text has every `Z` replaced by `+00:00`, is read by
    `datetime.fromisoformat`, and is written back as `YYYY-MM-DD`; text that
    does not read falls back to the processing date. */
module IsoTimestamp {
  import opened Common
  import opened Calendar

  /** `str.replace('Z', '+00:00')`: every `Z`, not only a trailing one. */
  function ReplaceZ(s: string): (r: string)
    ensures 'Z' !in r
    ensures 'Z' !in s ==> r == s
    ensures |r| >= |s|
  {
    if s == [] then [] else (if s[0] == 'Z' then "+00:00" else [s[0]]) + ReplaceZ(s[1..])
  }

  lemma {:induction false} ReplaceZAppend(a: string, b: string)
    ensures ReplaceZ(a + b) == ReplaceZ(a) + ReplaceZ(b)
  {
    if a == [] {
      assert a + b == b;
    } else {
      var head := if a[0] == 'Z' then "+00:00" else [a[0]];
      var ab := a + b;
      assert ab[0] == a[0] && ab[1..] == a[1..] + b;
      assert ReplaceZ(ab) == head + ReplaceZ(a[1..] + b);
      ReplaceZAppend(a[1..], b);
      SeqAssociative(head, ReplaceZ(a[1..]), ReplaceZ(b));
    }
  }

  /** The replacement leaves a leading run of characters other than `+`
      where it was: a prefix of the result without `+` is a prefix of the
      input. */
  lemma {:induction false} ReplaceZKeepsPrefix(s: string, k: nat)
    requires k <= |ReplaceZ(s)|
    requires forall i :: 0 <= i < k ==> ReplaceZ(s)[i] != '+'
    ensures k <= |s| && s[..k] == ReplaceZ(s)[..k]
  {
    if k > 0 {
      assert s != [];
      assert ReplaceZ(s)[0] != '+';
      assert s[0] != 'Z';
      var t := ReplaceZ(s[1..]);
      assert ReplaceZ(s) == [s[0]] + t;
      forall i | 0 <= i < k - 1 ensures t[i] != '+' {
        assert t[i] == ReplaceZ(s)[i + 1];
      }
      ReplaceZKeepsPrefix(s[1..], k - 1);
      assert s[..k] == [s[0]] + s[1..][..k - 1];
    }
  }

  // ---------------------------------------------------------------------
  // The accepted forms
  // ---------------------------------------------------------------------

  /** `HH:MM:SS` at position `i`, with hour 00-23, minute and second 00-59. */
  predicate ClockTimeAt(t: string, i: nat) {
    && i + 8 <= |t|
    && DigitsUpTo(t[i], t[i + 1], 23) && t[i + 2] == ':'
    && DigitsUpTo(t[i + 3], t[i + 4], 59) && t[i + 5] == ':'
    && DigitsUpTo(t[i + 6], t[i + 7], 59)
  }

  /** `.` and `n` digits at position `i`. */
  predicate FractionAt(t: string, i: nat, n: nat) {
    i + 1 + n <= |t| && t[i] == '.' && forall k :: i + 1 <= k < i + 1 + n ==> IsDigit(t[k])
  }

  /** `+HH:MM` or `-HH:MM` ending the text at position `i`. */
  predicate OffsetEndsAt(t: string, i: nat) {
    && i + 6 == |t|
    && (t[i] == '+' || t[i] == '-')
    && DigitsUpTo(t[i + 1], t[i + 2], 23) && t[i + 3] == ':' && DigitsUpTo(t[i + 4], t[i + 5], 59)
  }

  /** From position `i` to the end: nothing, an offset, a fraction of three
      or six digits, or such a fraction and then an offset. */
  predicate ZoneTail(t: string, i: nat) {
    || i == |t|
    || OffsetEndsAt(t, i)
    || (FractionAt(t, i, 3) && (i + 4 == |t| || OffsetEndsAt(t, i + 4)))
    || (FractionAt(t, i, 6) && (i + 7 == |t| || OffsetEndsAt(t, i + 7)))
  }

  /** The text `datetime.fromisoformat` is modelled to accept: the full-date
      and date-time forms of RFC 3339 section 5.6 once `Z` is spelled
      `+00:00`, with a fraction of three or six digits. */
  predicate Accepted(t: string) {
    && |t| >= 10 && ParseFullDate(t[..10]).Some?
    && (|t| == 10 || (t[10] == 'T' && ClockTimeAt(t, 11) && ZoneTail(t, 19)))
  }

  // ---------------------------------------------------------------------
  // The date normalisation
  // ---------------------------------------------------------------------

  /** Lines 125-131 of `clean_transaction_data`: `fromisoformat` after the
      `Z` replacement, then `strftime('%Y-%m-%d')`; any failure gives the
      processing date `today`. The result is always a real calendar date in
      `YYYY-MM-DD` form; a timestamp that reads keeps its own leading date,
      with no time-zone conversion. */
  function NormalizeDate(raw: string, today: CalendarDate): (r: string)
    ensures ParseFullDate(r).Some?
    ensures Accepted(ReplaceZ(raw)) ==> |raw| >= 10 && r == raw[..10]
    ensures !Accepted(ReplaceZ(raw)) ==> r == Format(today)
  {
    var t := ReplaceZ(raw);
    if Accepted(t) then
      var d := ParseFullDate(t[..10]).value;
      FormatOfParse(t[..10]);
      assert forall i :: 0 <= i < 10 ==> t[i] != '+' by {
        forall i | 0 <= i < 10 ensures t[i] != '+' {
          assert t[..10][i] == t[i];
        }
      }
      ReplaceZKeepsPrefix(raw, 10);
      Format(d)
    else
      Format(today)
  }

  /** The text of a UTC timestamp: a date, `T`, a clock time and an
      optional three-digit fraction. */
  predicate UtcParts(date: string, time: string, fraction: string) {
    && ParseFullDate(date).Some?
    && ClockTimeAt(time, 0) && |time| == 8
    && (fraction == [] || (FractionAt(fraction, 0, 3) && |fraction| == 4))
  }

  /** Such a text holds no `Z`, so the replacement only rewrites the
      trailing one. */
  lemma UtcReplaceZ(date: string, time: string, fraction: string)
    requires UtcParts(date, time, fraction)
    ensures ReplaceZ(date + "T" + time + fraction + "Z") == date + "T" + time + fraction + "+00:00"
  {
    var a := date + "T" + time + fraction;
    assert 'Z' !in a by {
      assert forall i :: 0 <= i < 10 ==> a[i] == date[i];
      assert forall i :: 11 <= i < 19 ==> a[i] == time[i - 11];
      assert forall i :: 19 <= i < |a| ==> a[i] == fraction[i - 19];
    }
    ReplaceZAppend(a, "Z");
    assert ReplaceZ("Z") == "+00:00" + ReplaceZ([]);
  }

  /** After the replacement the text is an accepted date-time. */
  lemma UtcAccepted(date: string, time: string, fraction: string)
    requires UtcParts(date, time, fraction)
    ensures Accepted(date + "T" + time + fraction + "+00:00")
  {
    var a := date + "T" + time + fraction;
    var t := a + "+00:00";
    assert t[..10] == date;
    assert ClockTimeAt(t, 11) by {
      assert forall k :: 0 <= k < 8 ==> t[11 + k] == time[k];
    }
    assert OffsetEndsAt(t, |a|);
    if fraction != [] {
      assert forall k :: 0 <= k < 4 ==> t[19 + k] == fraction[k];
      assert FractionAt(t, 19, 3);
    }
  }

  /** A UTC timestamp written with `Z` keeps its own date, whether or not it
      carries a fraction. */
  lemma NormalizeUtcTimestamp(date: string, time: string, fraction: string, today: CalendarDate)
    requires UtcParts(date, time, fraction)
    ensures NormalizeDate(date + "T" + time + fraction + "Z", today) == date
  {
    var raw := date + "T" + time + fraction + "Z";
    UtcReplaceZ(date, time, fraction);
    UtcAccepted(date, time, fraction);
    assert raw[..10] == date;
  }

  /** The feed's own timestamp forms keep their date: a trailing `Z`, with
      or without milliseconds, and a bare date. */
  lemma NormalizeZulu(today: CalendarDate)
    ensures NormalizeDate("2024-01-15T14:30:00Z", today) == "2024-01-15"
  {
    var date, time := "2024-01-15", "14:30:00";
    assert ParseFullDate(date).Some?;
    assert ClockTimeAt(time, 0);
    assert date + "T" + time + [] + "Z" == "2024-01-15T14:30:00Z";
    NormalizeUtcTimestamp(date, time, [], today);
  }

  lemma NormalizeZuluMillis(today: CalendarDate)
    ensures NormalizeDate("2024-01-15T14:30:00.000Z", today) == "2024-01-15"
  {
    var date, time, fraction := "2024-01-15", "14:30:00", ".000";
    assert ParseFullDate(date).Some?;
    assert ClockTimeAt(time, 0);
    assert FractionAt(fraction, 0, 3);
    assert date + "T" + time + fraction + "Z" == "2024-01-15T14:30:00.000Z";
    NormalizeUtcTimestamp(date, time, fraction, today);
  }

  /** A bare `YYYY-MM-DD` date that names a real day is kept as it is. */
  lemma NormalizeFullDate(date: string, today: CalendarDate)
    requires ParseFullDate(date).Some?
    ensures NormalizeDate(date, today) == date
  {
    assert 'Z' !in date by {
      assert forall i :: 0 <= i < |date| ==> IsDigit(date[i]) || date[i] == '-';
    }
    assert date[..10] == date;
  }

  lemma NormalizeBareDate(today: CalendarDate)
    ensures NormalizeDate("2024-01-15", today) == "2024-01-15"
  {
    assert ParseFullDate("2024-01-15").Some?;
    NormalizeFullDate("2024-01-15", today);
  }

  /** Text that does not read gives the processing date: the sentinel that
      an empty date has become, and the `Mon DD, YYYY` form, which
      `fromisoformat` does not accept. */
  lemma NormalizeUnreadable(raw: string, today: CalendarDate)
    requires raw == "Unknown" || raw == "Jul 03, 2025"
    ensures NormalizeDate(raw, today) == Format(today)
  {
    assert 'Z' !in raw;
    if raw == "Jul 03, 2025" {
      assert raw[..10][0] == 'J';
      assert !IsDigit('J');
    }
    assert !Accepted(raw);
  }
}
