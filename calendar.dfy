/** Calendar dates and the part of java.time's `Period.between` that the
    lease pricing reads: the whole number of months between two dates. */
module Calendar {

  /** A LocalDate as (year, month 1..12, day of month). */
  datatype Date = Date(year: int, month: int, day: int)

  /** LocalDate.getProlepticMonth: months counted from year 0. */
  function MonthIndex(d: Date): int {
    d.year * 12 + (d.month - 1)
  }

  /** Java's `/` on integers truncates toward zero. */
  function JavaDiv(a: int, b: int): int
    requires b > 0
  {
    if a >= 0 then a / b else -((-a) / b)
  }

  /** Java's `%` on integers takes the sign of the dividend. */
  function JavaRem(a: int, b: int): int
    requires b > 0
  {
    if a >= 0 then a % b else -((-a) % b)
  }

  lemma JavaDivRem(a: int, b: int)
    requires b > 0
    ensures JavaDiv(a, b) * b + JavaRem(a, b) == a
    ensures -b < JavaRem(a, b) < b
    ensures a >= 0 ==> JavaRem(a, b) >= 0 && JavaDiv(a, b) >= 0
    ensures a <= 0 ==> JavaRem(a, b) <= 0 && JavaDiv(a, b) <= 0
  {
    var q, r := (-a) / b, (-a) % b;
    assert q * b + r == -a && 0 <= r < b;
    if a < 0 {
      assert JavaDiv(a, b) * b == -(q * b);
      assert q >= 0;
    } else {
      assert a / b * b + a % b == a;
    }
  }

  /** The years and months of `Period.between(start, end)`. */
  datatype MonthsPeriod = MonthsPeriod(years: int, months: int)

  /** Period.between: the month distance, moved one month toward zero when
      the day of month has not been reached yet, then split into years and
      months with Java's truncating division. */
  function PeriodBetween(start: Date, end: Date): MonthsPeriod {
    var total := MonthIndex(end) - MonthIndex(start);
    var days := end.day - start.day;
    var adjusted :=
      if total > 0 && days < 0 then total - 1
      else if total < 0 && days > 0 then total + 1
      else total;
    MonthsPeriod(JavaDiv(adjusted, 12), JavaRem(adjusted, 12))
  }

  /** `getYears() * 12 + getMonths()` of the period. */
  function PeriodInMonths(start: Date, end: Date): int {
    var p := PeriodBetween(start, end);
    p.years * 12 + p.months
  }

  /** The lexicographic order of dates on (month index, day of month). */
  predicate NotAfter(a: Date, b: Date) {
    MonthIndex(a) < MonthIndex(b) || (MonthIndex(a) == MonthIndex(b) && a.day <= b.day)
  }

  /** n whole months fit between start and end: start moved n months
      forward (same day of month) is not after end. */
  predicate MonthsFit(start: Date, end: Date, n: int) {
    MonthIndex(start) + n < MonthIndex(end)
    || (MonthIndex(start) + n == MonthIndex(end) && start.day <= end.day)
  }

  /** The period in months is the month distance, less one when end's day of
      month is still before start's (start not after end). */
  lemma PeriodInMonthsIsAdjustedDistance(start: Date, end: Date)
    requires NotAfter(start, end)
    ensures PeriodInMonths(start, end)
            == MonthIndex(end) - MonthIndex(start) - (if end.day < start.day then 1 else 0)
  {
    var total := MonthIndex(end) - MonthIndex(start);
    var adjusted := if total > 0 && end.day - start.day < 0 then total - 1 else total;
    JavaDivRem(adjusted, 12);
  }

  /** A partial trailing month is dropped: for start not after end the
      period is the largest whole number of months that fits. */
  lemma PeriodTruncates(start: Date, end: Date)
    requires NotAfter(start, end)
    ensures PeriodInMonths(start, end) >= 0
    ensures MonthsFit(start, end, PeriodInMonths(start, end))
    ensures !MonthsFit(start, end, PeriodInMonths(start, end) + 1)
  {
    PeriodInMonthsIsAdjustedDistance(start, end);
  }

  /** Swapping the dates negates the period. */
  lemma PeriodAntisymmetric(start: Date, end: Date)
    ensures PeriodInMonths(end, start) == -PeriodInMonths(start, end)
  {
    var total := MonthIndex(end) - MonthIndex(start);
    var days := end.day - start.day;
    var adjusted :=
      if total > 0 && days < 0 then total - 1
      else if total < 0 && days > 0 then total + 1
      else total;
    JavaDivRem(adjusted, 12);
    JavaDivRem(-adjusted, 12);
  }
}
