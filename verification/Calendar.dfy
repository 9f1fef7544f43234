/** Date arithmetic in UTC on millisecond timestamps, with the overflow rules of JavaScript's setters. */
module Calendar {

  const MS_PER_DAY := 86_400_000

  datatype Interval = WEEKLY | MONTHLY | YEARLY

  predicate IsLeap(y: int) {
    y % 4 == 0 && (y % 100 != 0 || y % 400 == 0)
  }

  function YearLength(y: int): int {
    if IsLeap(y) then 366 else 365
  }

  /** Days from 1970-01-01 to the first of January of y, in the proleptic Gregorian calendar. */
  function DayFromYear(y: int): int {
    365 * (y - 1970) + (y - 1969) / 4 - (y - 1901) / 100 + (y - 1601) / 400
  }

  /** Months count from 0; month 12 of a year is month 0 of the next. */
  function MonthLength(y: int, m: int): (n: int)
    requires 0 <= m < 12
    ensures 28 <= n <= 31
  {
    if m == 1 then (if IsLeap(y) then 29 else 28)
    else if m == 3 || m == 5 || m == 8 || m == 10 then 30
    else 31
  }

  /** Days of the year before month m. */
  function MonthStart(y: int, m: int): int
    requires 0 <= m <= 12
    decreases m, y
  {
    if m == 0 then 0 else MonthStart(y, m - 1) + MonthLength(y, m - 1)
  }

  function YearOf(day: int): int {
    var y := 1970 + day * 400 / 146097;
    if DayFromYear(y + 1) <= day then y + 1
    else if day < DayFromYear(y) then y - 1
    else y
  }

  /** The last month from m downwards that has started by the given day of the year. */
  function MonthDown(y: int, dayInYear: int, m: int): (r: int)
    requires 0 <= m < 12 && 0 <= dayInYear
    ensures 0 <= r <= m && MonthStart(y, r) <= dayInYear
    ensures r < m ==> dayInYear < MonthStart(y, r + 1)
  {
    if m == 0 || MonthStart(y, m) <= dayInYear then m else MonthDown(y, dayInYear, m - 1)
  }

  /** Year, month from 0, day of the month from 1. */
  datatype Civil = Civil(year: int, month: int, day: int)

  predicate ValidCivil(c: Civil) {
    0 <= c.month < 12 && 1 <= c.day <= MonthLength(c.year, c.month)
  }

  /** The day number of day d of month m; d may lie outside the month. */
  function MakeDay(y: int, m: int, d: int): int
    requires 0 <= m <= 12
  {
    if m == 12 then DayFromYear(y + 1) + d - 1 else DayFromYear(y) + MonthStart(y, m) + d - 1
  }

  function CivilOf(day: int): Civil {
    YearOfIsRight(day);
    var y := YearOf(day);
    var inYear := day - DayFromYear(y);
    var m := MonthDown(y, inYear, 11);
    Civil(y, m, inYear - MonthStart(y, m) + 1)
  }

  /** n / k grows by one exactly at the multiples of k. */
  lemma QuotientStep(n: int, k: int)
    requires k > 0
    ensures n / k == (n - 1) / k + if n % k == 0 then 1 else 0
  {
    var q, r := n / k, n % k;
    assert n == q * k + r;
    if r == 0 {
      assert n - 1 == (q - 1) * k + (k - 1);
      QuotientUnique(n - 1, k, q - 1, k - 1);
    } else {
      QuotientUnique(n - 1, k, q, r - 1);
    }
  }

  lemma QuotientUnique(n: int, k: int, q: int, r: int)
    requires k > 0 && n == q * k + r && 0 <= r < k
    ensures n / k == q
  {
    var d := q - n / k;
    assert d * k == n % k - r;
  }

  lemma RemainderShift(n: int, k: int, c: int)
    requires k > 0
    ensures (n - c * k) % k == n % k
  {
    var q := n / k;
    assert n - c * k == (q - c) * k + n % k;
    QuotientUnique(n - c * k, k, q - c, n % k);
  }

  lemma LeapDivisors(y: int)
    ensures y % 400 == 0 ==> y % 100 == 0
    ensures y % 100 == 0 ==> y % 4 == 0
  {
  }

  lemma YearStep(y: int)
    ensures DayFromYear(y + 1) == DayFromYear(y) + YearLength(y)
  {
    QuotientStep(y - 1968, 4);
    QuotientStep(y - 1900, 100);
    QuotientStep(y - 1600, 400);
    RemainderShift(y, 4, 492);
    RemainderShift(y, 100, 19);
    RemainderShift(y, 400, 4);
    LeapDivisors(y);
  }

  lemma YearLengths(y: int)
    ensures DayFromYear(y + 1) == DayFromYear(y) + YearLength(y)
    ensures MonthStart(y, 12) == YearLength(y)
  {
    YearStep(y);
    MonthStarts(y);
  }

  lemma MonthStarts(y: int)
    ensures var f := if IsLeap(y) then 1 else 0;
            && MonthStart(y, 1) == 31 && MonthStart(y, 2) == 59 + f && MonthStart(y, 3) == 90 + f
            && MonthStart(y, 4) == 120 + f && MonthStart(y, 5) == 151 + f && MonthStart(y, 6) == 181 + f
            && MonthStart(y, 7) == 212 + f && MonthStart(y, 8) == 243 + f && MonthStart(y, 9) == 273 + f
            && MonthStart(y, 10) == 304 + f && MonthStart(y, 11) == 334 + f && MonthStart(y, 12) == 365 + f
  {
    assert MonthStart(y, 1) == 31;
    assert MonthStart(y, 2) == MonthStart(y, 1) + MonthLength(y, 1);
    assert MonthStart(y, 3) == MonthStart(y, 2) + 31;
    assert MonthStart(y, 4) == MonthStart(y, 3) + 30;
    assert MonthStart(y, 5) == MonthStart(y, 4) + 31;
    assert MonthStart(y, 6) == MonthStart(y, 5) + 30;
    assert MonthStart(y, 7) == MonthStart(y, 6) + 31;
    assert MonthStart(y, 8) == MonthStart(y, 7) + 31;
    assert MonthStart(y, 9) == MonthStart(y, 8) + 30;
    assert MonthStart(y, 10) == MonthStart(y, 9) + 31;
    assert MonthStart(y, 11) == MonthStart(y, 10) + 30;
    assert MonthStart(y, 12) == MonthStart(y, 11) + 31;
  }

  lemma YearEstimate(day: int, y: int)
    requires 146097 * (y - 1970) <= 400 * day < 146097 * (y - 1969)
    ensures DayFromYear(y - 1) <= day < DayFromYear(y + 2)
  {
    assert 4 * ((y - 1970) / 4) <= y - 1970 && y - 1967 - 3 <= 4 * ((y - 1967) / 4);
    assert 100 * ((y - 1902) / 100) >= y - 1902 - 99 && 100 * ((y - 1899) / 100) <= y - 1899;
    assert 400 * ((y - 1602) / 400) <= y - 1602 && 400 * ((y - 1599) / 400) >= y - 1599 - 399;
  }

  lemma YearOfIsRight(day: int)
    ensures DayFromYear(YearOf(day)) <= day < DayFromYear(YearOf(day) + 1)
  {
    var y := 1970 + day * 400 / 146097;
    assert 146097 * (y - 1970) <= 400 * day < 146097 * (y - 1969);
    YearEstimate(day, y);
  }

  /** The calendar fields of a day number determine it, and are those of a real date. */
  lemma CivilOfIsRight(day: int)
    ensures ValidCivil(CivilOf(day))
    ensures var c := CivilOf(day); MakeDay(c.year, c.month, c.day) == day
  {
    YearOfIsRight(day);
    var y := YearOf(day);
    var inYear := day - DayFromYear(y);
    YearLengths(y);
    var m := MonthDown(y, inYear, 11);
    assert MonthStart(y, m + 1) == MonthStart(y, m) + MonthLength(y, m);
    assert inYear < MonthStart(y, m + 1);
  }

  lemma {:induction false} MonthStartMonotone(y: int, m: int, m': int)
    requires 0 <= m <= m' <= 12
    ensures MonthStart(y, m) <= MonthStart(y, m')
  {
    if m == m' {
    } else {
      MonthStartMonotone(y, m, m' - 1);
    }
  }

  lemma YearUnique(y: int, day: int)
    requires DayFromYear(y) <= day < DayFromYear(y + 1)
    ensures YearOf(day) == y
  {
    YearOfIsRight(day);
    var z := YearOf(day);
    if z < y {
      YearsMonotone(z + 1, y);
    } else if y < z {
      YearsMonotone(y + 1, z);
    }
  }

  lemma YearsMonotone(y: int, z: int)
    requires y <= z
    ensures DayFromYear(y) <= DayFromYear(z)
  {
    assert (y - 1969) / 4 <= (z - 1969) / 4;
    assert (y - 1601) / 400 <= (z - 1601) / 400;
    assert (z - 1901) / 100 - (y - 1901) / 100 <= z - y;
  }

  lemma MonthUnique(y: int, m: int, inYear: int)
    requires 0 <= m < 12 && MonthStart(y, m) <= inYear < MonthStart(y, m + 1)
    ensures 0 <= inYear && MonthDown(y, inYear, 11) == m
  {
    MonthStartMonotone(y, 0, m);
    var r := MonthDown(y, inYear, 11);
    if r < m {
      MonthStartMonotone(y, r + 1, m);
    } else if m < r {
      MonthStartMonotone(y, m + 1, r);
    }
  }

  /** Every real date is the date of its day number. */
  lemma CivilRoundTrip(c: Civil)
    requires ValidCivil(c)
    ensures CivilOf(MakeDay(c.year, c.month, c.day)) == c
  {
    var inYear := MonthStart(c.year, c.month) + c.day - 1;
    var day := DayFromYear(c.year) + inYear;
    assert MakeDay(c.year, c.month, c.day) == day;
    MonthUnique(c.year, c.month, inYear);
    MonthStartMonotone(c.year, c.month + 1, 12);
    YearLengths(c.year);
    YearUnique(c.year, day);
  }

  // ---- the end of the next billing period ------------------------------------------------------

  function AdvanceDay(day: int, interval: Interval): int {
    var c := CivilOf(day);
    CivilOfIsRight(day);
    match interval
    case WEEKLY => MakeDay(c.year, c.month, c.day + 7)
    case MONTHLY => MakeDay(c.year, c.month + 1, c.day)
    case YEARLY => MakeDay(c.year + 1, c.month, c.day)
  }

  function Advance(t: int, interval: Interval): int {
    AdvanceDay(t / MS_PER_DAY, interval) * MS_PER_DAY + t % MS_PER_DAY
  }

  /** The days an interval adds: for MONTHLY exactly the length of the current month. */
  function DaysAdded(day: int, interval: Interval): (n: int)
    ensures 7 <= n <= 366
  {
    var c := CivilOf(day);
    CivilOfIsRight(day);
    match interval
    case WEEKLY => 7
    case MONTHLY => MonthLength(c.year, c.month)
    case YEARLY => YearLength(if c.month < 2 then c.year else c.year + 1)
  }

  lemma NextMonthAdds(y: int, m: int, d: int)
    requires 0 <= m < 12
    ensures MakeDay(y, m + 1, d) == MakeDay(y, m, d) + MonthLength(y, m)
  {
    assert MonthStart(y, m + 1) == MonthStart(y, m) + MonthLength(y, m);
    if m == 11 {
      YearLengths(y);
    }
  }

  lemma NextYearAdds(y: int, m: int, d: int)
    requires 0 <= m < 12
    ensures MakeDay(y + 1, m, d) == MakeDay(y, m, d) + YearLength(if m < 2 then y else y + 1)
  {
    YearStep(y);
    MonthStartInLeapYear(y, m);
    MonthStartInLeapYear(y + 1, m);
  }

  lemma AdvanceDayAdds(day: int, interval: Interval)
    ensures AdvanceDay(day, interval) == day + DaysAdded(day, interval)
  {
    var c := CivilOf(day);
    CivilOfIsRight(day);
    match interval
    case WEEKLY =>
    case MONTHLY => NextMonthAdds(c.year, c.month, c.day);
    case YEARLY => NextYearAdds(c.year, c.month, c.day);
  }

  lemma MonthStartInLeapYear(y: int, m: int)
    requires 0 <= m < 12
    ensures MonthStart(y, m) == MonthStart(1970, m) + if m >= 2 && IsLeap(y) then 1 else 0
  {
    MonthStarts(y);
    MonthStarts(1970);
  }

  /** The clock time is kept and whole days are added: at least 7, at most 366. */
  lemma AdvanceAddsDays(t: int, interval: Interval)
    ensures Advance(t, interval) == t + MS_PER_DAY * DaysAdded(t / MS_PER_DAY, interval) > t
  {
    AdvanceDayAdds(t / MS_PER_DAY, interval);
  }

  function NextMonth(c: Civil): (int, int) {
    if c.month == 11 then (c.year + 1, 0) else (c.year, c.month + 1)
  }

  lemma SameMonthNumber(y: int, m: int, d: int)
    requires 0 <= m < 12
    ensures var (y', m') := NextMonth(Civil(y, m, d)); MakeDay(y, m + 1, d) == MakeDay(y', m', d)
  {
    assert MonthStart(y + 1, 0) == 0;
  }

  /** A monthly advance keeps the day of the month exactly when the next month has that day. */
  lemma MonthlyKeepsDayIff(day: int)
    ensures var c := CivilOf(day);
            var (y, m) := NextMonth(c);
            ValidCivil(c)
            && (CivilOf(AdvanceDay(day, MONTHLY)) == Civil(y, m, c.day) <==> c.day <= MonthLength(y, m))
  {
    var c := CivilOf(day);
    CivilOfIsRight(day);
    var (y, m) := NextMonth(c);
    var next := MakeDay(y, m, c.day);
    SameMonthNumber(c.year, c.month, c.day);
    CivilOfIsRight(next);
    if c.day <= MonthLength(y, m) {
      CivilRoundTrip(Civil(y, m, c.day));
    }
  }

  /** The month after the end of January reaches into March. */
  lemma JanuaryEnd(y: int)
    ensures AdvanceDay(MakeDay(y, 0, 31), MONTHLY) == MakeDay(y, 2, if IsLeap(y) then 2 else 3)
  {
    var day := MakeDay(y, 0, 31);
    CivilRoundTrip(Civil(y, 0, 31));
    AdvanceDayAdds(day, MONTHLY);
    assert MonthStart(y, 2) == MonthStart(y, 1) + MonthLength(y, 1);
    assert MonthStart(y, 1) == 31;
  }

  /** An input where it is not: a month from 31 January is a day of March, in every year. */
  lemma MonthEndExample(y: int)
    ensures var day := MakeDay(y, 0, 31);
            && CivilOf(day) == Civil(y, 0, 31)
            && CivilOf(AdvanceDay(day, MONTHLY)) == Civil(y, 2, if IsLeap(y) then 2 else 3)
  {
    JanuaryEnd(y);
    CivilRoundTrip(Civil(y, 0, 31));
    CivilRoundTrip(Civil(y, 2, if IsLeap(y) then 2 else 3));
  }
}
