/** `System.DateTime` reduced to what the domain uses: a calendar date, a
    time of day, comparison of the date parts (`.Date`) and of whole instants. */
module Calendar {

  /** Ticks (100 ns) in one day: the range of the time of day. */
  const TicksPerDay: int := 864_000_000_000

  datatype CalendarTime = CalendarTime(year: int, month: int, day: int, tick: int)

  predicate IsLeapYear(year: int) {
    year % 4 == 0 && (year % 100 != 0 || year % 400 == 0)
  }

  function DaysInMonth(year: int, month: int): (n: int)
    requires 1 <= month <= 12
    ensures 28 <= n <= 31
  {
    if month == 2 then (if IsLeapYear(year) then 29 else 28)
    else if month == 4 || month == 6 || month == 9 || month == 11 then 30
    else 31
  }

  /** The range `DateTime` can represent: years 1 to 9999 of the Gregorian calendar. */
  predicate IsValid(t: CalendarTime) {
    && 1 <= t.year <= 9999
    && 1 <= t.month <= 12
    && 1 <= t.day <= DaysInMonth(t.year, t.month)
    && 0 <= t.tick < TicksPerDay
  }

  type DateTime = t: CalendarTime | IsValid(t) witness CalendarTime(1, 1, 1, 0)

  /** `t.Date` as a number: equal for the same calendar day and increasing with it. */
  function DayOrdinal(t: DateTime): int {
    (t.year * 13 + t.month) * 32 + t.day
  }

  /** The whole instant as a number, the key `OrderBy(i => i.InvoiceDate)` sorts on. */
  function TimeOrdinal(t: DateTime): int {
    DayOrdinal(t) * TicksPerDay + t.tick
  }

  /** `DayOrdinal` orders days as the calendar does and identifies exactly the
      instants that fall on the same date. */
  lemma DayOrdinalIsCalendarOrder(a: DateTime, b: DateTime)
    ensures DayOrdinal(a) < DayOrdinal(b) <==>
      a.year < b.year || (a.year == b.year && (a.month < b.month || (a.month == b.month && a.day < b.day)))
    ensures DayOrdinal(a) == DayOrdinal(b) <==> a.year == b.year && a.month == b.month && a.day == b.day
  {
  }

  /** Instants with the same `TimeOrdinal` are the same instant; a later day
      always has a larger `TimeOrdinal`, whatever the time of day. */
  lemma TimeOrdinalIsInstantOrder(a: DateTime, b: DateTime)
    ensures TimeOrdinal(a) == TimeOrdinal(b) ==> a == b
    ensures DayOrdinal(a) < DayOrdinal(b) ==> TimeOrdinal(a) < TimeOrdinal(b)
  {
    DayOrdinalIsCalendarOrder(a, b);
  }
}
