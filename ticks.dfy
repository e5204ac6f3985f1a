/** Conversion of a JavaScript date to a .NET tick count: 100-nanosecond
    intervals since 0001-01-01T00:00:00 in the proleptic Gregorian calendar. */
module Ticks {
  import opened Records

  /** One millisecond is ten thousand 100-nanosecond ticks. */
  const TicksPerMillisecond: int := 10000

  /** Ticks in one day of 86400 seconds. */
  const TicksPerDay: int := 86400 * 1000 * TicksPerMillisecond

  /** Tick count of the Unix epoch 1970-01-01T00:00:00; see UnixEpochIsYear1970. */
  const UnixEpochTicks: int := 621355968000000000

  /** Tick count of a date. Exact integer arithmetic on the milliseconds of the date. */
  function GetTicks(dateTime: DateTime): (ticks: int)
    ensures ticks % TicksPerMillisecond == 0
    ensures (ticks - UnixEpochTicks) / TicksPerMillisecond == dateTime.epochMs
  {
    dateTime.epochMs * TicksPerMillisecond + UnixEpochTicks
  }

  /** The milliseconds of a date, read back from its tick count. */
  function MillisecondsOf(ticks: int): int
  {
    (ticks - UnixEpochTicks) / TicksPerMillisecond
  }

  /** No two dates share a tick count: the conversion can be undone. */
  lemma GetTicksRoundTrip(d: DateTime)
    ensures DateTime(MillisecondsOf(GetTicks(d))) == d
  {
  }

  /** The Unix epoch maps to UnixEpochTicks. */
  lemma GetTicksAtEpoch()
    ensures GetTicks(DateTime(0)) == 621355968000000000
  {
  }

  /** Later dates have larger tick counts, and only they do. */
  lemma GetTicksStrictlyIncreasing(a: DateTime, b: DateTime)
    ensures a.epochMs < b.epochMs <==> GetTicks(a) < GetTicks(b)
  {
  }

  /** The conversion is affine: differences scale by TicksPerMillisecond. */
  lemma GetTicksDifference(a: DateTime, b: DateTime)
    ensures GetTicks(a) - GetTicks(b) == TicksPerMillisecond * (a.epochMs - b.epochMs)
  {
  }

  predicate IsLeapYear(y: int)
  {
    y % 4 == 0 && (y % 100 != 0 || y % 400 == 0)
  }

  function DaysInYear(y: int): int
  {
    if IsLeapYear(y) then 366 else 365
  }

  /** Days from 0001-01-01 to January 1 of year y, summed year by year. */
  function DaysBeforeYear(y: int): int
    requires y >= 1
  {
    if y == 1 then 0 else DaysBeforeYear(y - 1) + DaysInYear(y - 1)
  }

  /** Going from n - 1 to n, the quotient by a leap-rule divisor grows by one
      exactly when the divisor divides n. */
  lemma QuotientStep(n: int, k: int)
    requires n >= 1 && (k == 4 || k == 100 || k == 400)
    ensures n / k - (n - 1) / k == if n % k == 0 then 1 else 0
  {
  }

  /** The day count before year y has the closed form of the Gregorian leap-year rule. */
  lemma {:induction false} DaysBeforeYearClosedForm(y: int)
    requires y >= 1
    ensures DaysBeforeYear(y) == 365 * (y - 1) + (y - 1) / 4 - (y - 1) / 100 + (y - 1) / 400
  {
    if y > 1 {
      DaysBeforeYearClosedForm(y - 1);
      var n := y - 1;
      QuotientStep(n, 4);
      QuotientStep(n, 100);
      QuotientStep(n, 400);
      LeapRuleByQuotients(n);
    }
  }

  /** A year is a leap year exactly when the three quotient steps add up to one. */
  lemma LeapRuleByQuotients(n: int)
    ensures (if n % 4 == 0 then 1 else 0) - (if n % 100 == 0 then 1 else 0) + (if n % 400 == 0 then 1 else 0)
            == DaysInYear(n) - 365
  {
  }

  /** UnixEpochTicks is the tick count of 1970-01-01: 719162 whole days after 0001-01-01. */
  lemma UnixEpochIsYear1970()
    ensures DaysBeforeYear(1970) == 719162
    ensures UnixEpochTicks == DaysBeforeYear(1970) * TicksPerDay
  {
    DaysBeforeYearClosedForm(1970);
  }
}
