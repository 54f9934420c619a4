/**
 * The UTC calendar year of an instant, in the proleptic Gregorian calendar
 * of ISO-8601: what `instant.atZone(ZoneId.of("UTC")).getYear()` yields.
 *
 * An instant is modelled as a whole number of seconds since
 * 1970-01-01T00:00:00Z (negative before it); fractions of a second never
 * change the year.  Days are counted from 0000-01-01 (year zero is the
 * proleptic year 1 BC, a leap year).
 */
module Calendar {

  const SecondsPerDay: int := 86400
  /** Days from 0000-01-01 to 1970-01-01. */
  const DaysFromYearZeroToEpoch: int := 719528

  /** Gregorian leap-year rule. */
  predicate IsLeapYear(y: int) {
    y % 4 == 0 && (y % 100 != 0 || y % 400 == 0)
  }

  /**
   * Days from 0000-01-01 to y-01-01 (negative for y < 0).  Each quotient
   * counts the years in [0, y) divisible by 4, 100 and 400.
   */
  function DaysBeforeYear(y: int): int {
    365 * y + (y + 3) / 4 - (y + 99) / 100 + (y + 399) / 400
  }

  /** The day count agrees with the leap-year rule, year by year. */
  lemma YearLength(y: int)
    ensures DaysBeforeYear(y + 1) - DaysBeforeYear(y) == if IsLeapYear(y) then 366 else 365
  {
    assert (y + 4) / 4 - (y + 3) / 4 == if y % 4 == 0 then 1 else 0;
    assert (y + 100) / 100 - (y + 99) / 100 == if y % 100 == 0 then 1 else 0;
    assert (y + 400) / 400 - (y + 399) / 400 == if y % 400 == 0 then 1 else 0;
    if y % 400 == 0 {
      assert y % 100 == 0 && y % 4 == 0;
    } else if y % 100 == 0 {
      assert y % 4 == 0;
    }
  }

  /** The origin of the count, and the epoch 1970-01-01. */
  lemma DayCountAnchors()
    ensures DaysBeforeYear(0) == 0
    ensures DaysBeforeYear(1970) == DaysFromYearZeroToEpoch
  {
  }

  /** 400 * DaysBeforeYear(y) stays within a few hundred days of 146097 * y. */
  lemma DaysBeforeYearBounds(y: int)
    ensures 146097 * y - 396 <= 400 * DaysBeforeYear(y) <= 146097 * y + 699
  {
    var q4, q100, q400 := (y + 3) / 4, (y + 99) / 100, (y + 399) / 400;
    assert y <= 4 * q4 <= y + 3;
    assert y <= 100 * q100 <= y + 99;
    assert y <= 400 * q400 <= y + 399;
    assert 400 * DaysBeforeYear(y) == 146000 * y + 100 * (4 * q4) - 4 * (100 * q100) + 400 * q400;
  }

  /** Day numbers since 1970-01-01 of the instant: floor division, as Math.floorDiv does. */
  function EpochDay(seconds: int): (d: int)
    ensures d * SecondsPerDay <= seconds < (d + 1) * SecondsPerDay
  {
    seconds / SecondsPerDay
  }

  /** The year holding day number d since 1970-01-01. */
  function YearOfEpochDay(d: int): (y: int)
    ensures DaysBeforeYear(y) <= d + DaysFromYearZeroToEpoch < DaysBeforeYear(y + 1)
  {
    var z := d + DaysFromYearZeroToEpoch;
    var est := (400 * z) / 146097;
    DaysBeforeYearBounds(est - 1);
    DaysBeforeYearBounds(est + 2);
    if z < DaysBeforeYear(est) then est - 1
    else if z < DaysBeforeYear(est + 1) then est
    else est + 1
  }

  /** A day lies in exactly one year: the bracket of YearOfEpochDay pins its result. */
  lemma YearOfEpochDayUnique(d: int, y: int)
    requires DaysBeforeYear(y) <= d + DaysFromYearZeroToEpoch < DaysBeforeYear(y + 1)
    ensures YearOfEpochDay(d) == y
  {
    var x := YearOfEpochDay(d);
    if x < y {
      DaysBeforeYearBounds(x + 1);
      DaysBeforeYearBounds(y);
    } else if y < x {
      DaysBeforeYearBounds(y + 1);
      DaysBeforeYearBounds(x);
    }
  }

  /** The UTC calendar year of an instant given in seconds since the epoch. */
  function UtcYear(seconds: int): (y: int)
    ensures DaysBeforeYear(y) * SecondsPerDay <= seconds + DaysFromYearZeroToEpoch * SecondsPerDay
    ensures seconds + DaysFromYearZeroToEpoch * SecondsPerDay < DaysBeforeYear(y + 1) * SecondsPerDay
  {
    YearOfEpochDay(EpochDay(seconds))
  }

  /**
   * 2023-01-21T05:47:26Z and 2022-01-21T05:47:26Z, and the first and last
   * seconds of 1970 and the second before the epoch.
   */
  lemma UtcYearExamples()
    ensures UtcYear(1674280046) == 2023
    ensures UtcYear(1642744046) == 2022
    ensures UtcYear(0) == 1970 && UtcYear(31535999) == 1970 && UtcYear(31536000) == 1971
    ensures UtcYear(-1) == 1969
  {
    YearOfEpochDayUnique(19378, 2023);
    YearOfEpochDayUnique(19013, 2022);
    YearOfEpochDayUnique(0, 1970);
    YearOfEpochDayUnique(364, 1970);
    YearOfEpochDayUnique(365, 1971);
    YearOfEpochDayUnique(-1, 1969);
  }
}
