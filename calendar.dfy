/** The Gregorian calendar, and JavaScript's `Date` arithmetic on it. */
module Calendar {

  predicate IsLeapYear(y: int) {
    y % 4 == 0 && (y % 100 != 0 || y % 400 == 0)
  }

  /** Number of days of month `m` (1 = January) of year `y`; Python's
      `calendar.monthrange(y, m)[1]`. */
  function DaysInMonth(y: int, m: int): (d: int)
    requires 1 <= m <= 12
    ensures 28 <= d <= 31
    ensures m == 2 ==> (d == 29 <==> IsLeapYear(y))
    ensures m != 2 ==> (d == 30 <==> m in {4, 6, 9, 11})
  {
    if m == 2 then (if IsLeapYear(y) then 29 else 28)
    else if m == 4 || m == 6 || m == 9 || m == 11 then 30
    else 31
  }

  /** `new Date(year, month, 0).getDate()`: day 0 of the zero-based month `month` is the last
      day of the month before it. A year from 0 to 99 is read as 1900 to 1999, and a month
      outside 0..11 carries into the year, as `Date` does. */
  function JsLastDayBefore(year: int, month: int): (d: int)
    ensures 28 <= d <= 31
  {
    var y := if 0 <= year <= 99 then 1900 + year else year;
    var k := month - 1;
    DaysInMonth(y + k / 12, k % 12 + 1)
  }

  /** For a month 1..12 and a four-digit-or-later year, this is that month's length. */
  lemma JsLastDayIsMonthLength(year: int, month: int)
    requires 1 <= month <= 12 && year >= 100
    ensures JsLastDayBefore(year, month) == DaysInMonth(year, month)
  {
  }
}
