/**
 * `System.DateTime` as calendar components (year, month, day and the ticks elapsed since
 * midnight), the ordering the validators compare with, and the "yyyyMMdd" format.
 */
module DateTimes {
  import opened Text

  /** 100-nanosecond ticks in one day. */
  const TicksPerDay: int := 864_000_000_000

  datatype DateTimeParts = DateTimeParts(year: int, month: int, day: int, tickOfDay: int)

  predicate IsLeapYear(year: int) {
    (year % 4 == 0 && year % 100 != 0) || year % 400 == 0
  }

  function DaysInMonth(year: int, month: int): int {
    if month == 2 then (if IsLeapYear(year) then 29 else 28)
    else if month == 4 || month == 6 || month == 9 || month == 11 then 30
    else 31
  }

  /** The range a .NET `DateTime` can hold: 0001-01-01 to 9999-12-31, any time of day. */
  predicate IsValid(d: DateTimeParts) {
    && 1 <= d.year <= 9999
    && 1 <= d.month <= 12
    && 1 <= d.day <= DaysInMonth(d.year, d.month)
    && 0 <= d.tickOfDay < TicksPerDay
  }

  type DateTime = d: DateTimeParts | IsValid(d) witness DateTimeParts(1, 1, 1, 0)

  /** `default(DateTime)` = `DateTime.MinValue`, what an unset `SaleDate` holds. */
  const MinValue: DateTime := DateTimeParts(1, 1, 1, 0)

  /** `a < b`. .NET compares the tick counts, which for valid dates orders exactly as the
      components do, most significant first. */
  predicate Before(a: DateTime, b: DateTime) {
    || a.year < b.year
    || (a.year == b.year && a.month < b.month)
    || (a.year == b.year && a.month == b.month && a.day < b.day)
    || (a.year == b.year && a.month == b.month && a.day == b.day && a.tickOfDay < b.tickOfDay)
  }

  predicate SameDay(a: DateTime, b: DateTime) {
    a.year == b.year && a.month == b.month && a.day == b.day
  }

  /** `$"{d:yyyyMMdd}"`: four-digit year, two-digit month, two-digit day. */
  function FormatYyyyMMdd(d: DateTime): (s: string)
    ensures |s| == 8
    ensures forall i :: 0 <= i < 8 ==> IsDecimalDigit(s[i])
  {
    Digits(d.year, 4, 10) + Digits(d.month, 2, 10) + Digits(d.day, 2, 10)
  }

  /** The eight digits decode back to the date they were formatted from. */
  lemma FormatYyyyMMddRoundTrip(d: DateTime)
    ensures var s := FormatYyyyMMdd(d);
            Value(s[..4], 10) == d.year && Value(s[4..6], 10) == d.month && Value(s[6..], 10) == d.day
  {
    var s := FormatYyyyMMdd(d);
    assert s[..4] == Digits(d.year, 4, 10);
    assert s[4..6] == Digits(d.month, 2, 10);
    assert s[6..] == Digits(d.day, 2, 10);
    assert Pow(10, 2) == 100 && Pow(10, 4) == 10000;
    DigitsRoundTrip(d.year, 4, 10);
    DigitsRoundTrip(d.month, 2, 10);
    DigitsRoundTrip(d.day, 2, 10);
  }

  /** Two readings of the clock on the same day format to the same digits. */
  lemma SameDaySameDigits(a: DateTime, b: DateTime)
    requires SameDay(a, b)
    ensures FormatYyyyMMdd(a) == FormatYyyyMMdd(b)
  {
  }
}
