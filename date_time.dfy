/** The two timestamp formats the library writes into file names: the
    custom .NET format "yyyy-MM-ddTHHmmss.fff" (24-hour clock) and the variant
    with "hh" (12-hour clock, no AM/PM designator). */
module DateTimes {
  import opened Primitives

  /** A UTC calendar instant to the millisecond (a DateTime of kind Utc). */
  datatype DateTime = DateTime(
    year: nat, month: nat, day: nat,
    hour: nat, minute: nat, second: nat, millisecond: nat)
  {
    predicate Valid() {
      && 1 <= year <= 9999
      && 1 <= month <= 12
      && 1 <= day <= 31
      && hour < 24
      && minute < 60
      && second < 60
      && millisecond < 1000
    }
  }

  /** A DateTimeOffset as read from the local clock: the UTC instant and the
      offset of the local time zone, in minutes. */
  datatype DateTimeOffset = DateTimeOffset(utcDateTime: DateTime, offsetMinutes: int)

  function Pow10(w: nat): (p: nat)
    ensures p >= 1
  {
    if w == 0 then 1 else 10 * Pow10(w - 1)
  }

  /** The lowest `w` decimal digits of `n`, most significant first; for
      `n < 10^w` this is `n` zero-padded to width `w`. */
  function Digits(n: nat, w: nat): (s: string)
    ensures |s| == w && AllDigits(s)
  {
    if w == 0 then "" else Digits(n / 10, w - 1) + [DigitChar(n % 10)]
  }

  lemma {:induction false} DigitsValueOfDigits(n: nat, w: nat)
    requires n < Pow10(w)
    ensures DigitsValue(Digits(n, w)) == n
  {
    if w > 0 {
      var s := Digits(n, w);
      assert s[..|s| - 1] == Digits(n / 10, w - 1);
      DigitsValueOfDigits(n / 10, w - 1);
    }
  }

  /** Fixed-width digits of a value below 10^w identify the value. */
  lemma DigitsInjective(n: nat, m: nat, w: nat)
    requires n < Pow10(w) && m < Pow10(w)
    requires Digits(n, w) == Digits(m, w)
    ensures n == m
  {
    DigitsValueOfDigits(n, w);
    DigitsValueOfDigits(m, w);
  }

  /** The hour as the "hh" specifier shows it: 12, 1, ..., 11, 12, 1, ..., 11. */
  function Hour12(hour: nat): (h: nat)
    ensures 1 <= h <= 12
    ensures h % 12 == hour % 12
  {
    if hour % 12 == 0 then 12 else hour % 12
  }

  /** `ToString("yyyy-MM-ddTHHmmss.fff")`. */
  function Format(d: DateTime): (s: string)
    ensures |s| == 21
  {
    Digits(d.year, 4) + "-" + Digits(d.month, 2) + "-" + Digits(d.day, 2) + "T"
    + Digits(d.hour, 2) + Digits(d.minute, 2) + Digits(d.second, 2) + "." + Digits(d.millisecond, 3)
  }

  /** `ToString("yyyy-MM-ddThhmmss.fff")`, the stamp of the crash log file name
      as the source writes it. */
  function FormatCrashStampAsWritten(d: DateTime): (s: string)
    ensures |s| == 21
  {
    Digits(d.year, 4) + "-" + Digits(d.month, 2) + "-" + Digits(d.day, 2) + "T"
    + Digits(Hour12(d.hour), 2) + Digits(d.minute, 2) + Digits(d.second, 2) + "." + Digits(d.millisecond, 3)
  }

  /** The 24-hour stamp names every valid instant differently. */
  lemma FormatInjective(a: DateTime, b: DateTime)
    requires a.Valid() && b.Valid()
    requires Format(a) == Format(b)
    ensures a == b
  {
    var s, t := Format(a), Format(b);
    assert s[0..4] == Digits(a.year, 4) && t[0..4] == Digits(b.year, 4);
    assert s[5..7] == Digits(a.month, 2) && t[5..7] == Digits(b.month, 2);
    assert s[8..10] == Digits(a.day, 2) && t[8..10] == Digits(b.day, 2);
    assert s[11..13] == Digits(a.hour, 2) && t[11..13] == Digits(b.hour, 2);
    assert s[13..15] == Digits(a.minute, 2) && t[13..15] == Digits(b.minute, 2);
    assert s[15..17] == Digits(a.second, 2) && t[15..17] == Digits(b.second, 2);
    assert s[18..21] == Digits(a.millisecond, 3) && t[18..21] == Digits(b.millisecond, 3);
    assert Pow10(2) == 100 && Pow10(3) == 1000 && Pow10(4) == 10000;
    DigitsInjective(a.year, b.year, 4);
    DigitsInjective(a.month, b.month, 2);
    DigitsInjective(a.day, b.day, 2);
    DigitsInjective(a.hour, b.hour, 2);
    DigitsInjective(a.minute, b.minute, 2);
    DigitsInjective(a.second, b.second, 2);
    DigitsInjective(a.millisecond, b.millisecond, 3);
  }

  /** With "hh", 01:00 and 13:00 of the same day give the same stamp. */
  lemma CrashStampAsWrittenCollides()
    ensures var morning := DateTime(2021, 3, 14, 1, 0, 0, 0);
            var afternoon := DateTime(2021, 3, 14, 13, 0, 0, 0);
            && morning.Valid() && afternoon.Valid() && morning != afternoon
            && FormatCrashStampAsWritten(morning) == FormatCrashStampAsWritten(afternoon)
  {
    assert Hour12(1) == Hour12(13) == 1;
  }

  /** The two forms agree exactly on the hours 1 to 12. */
  lemma CrashStampAsWrittenAgreesFromOneToTwelve(d: DateTime)
    requires 1 <= d.hour <= 12
    ensures FormatCrashStampAsWritten(d) == Format(d)
  {
  }
}
