/** The date-range choice of the dashboard (`getDateRange`): the selected
    period picks the first day of the history request; the last day is
    always today.

    Days are integers (day numbers). The two calendar facts the source takes
    from JavaScript's Date (the same day one month back, as `setMonth`
    computes it, and January 1 of the current year) come in with today. */
module DateRange {

  /** Today's day number with the two calendar days derived from it. */
  datatype Clock = Clock(today: int, sameDayLastMonth: int, januaryFirst: int)

  /** What a real calendar guarantees of a Clock: January 1 of this year is
      not after today, and stepping the month back with `setMonth` lands 28
      to 31 days earlier (a day that does not exist in the previous month
      rolls over into the current one). */
  predicate WellFormed(clock: Clock) {
    && clock.januaryFirst <= clock.today
    && clock.today - 31 <= clock.sameDayLastMonth <= clock.today - 28
  }

  /** The `{startDate, endDate}` pair the history request is issued with. */
  datatype Range = Range(startDate: int, endDate: int)

  /** `getDateRange()` for the selected period. */
  function GetDateRange(selectedTimePeriod: string, clock: Clock): (r: Range)
    ensures r.endDate == clock.today
    ensures selectedTimePeriod == "7days" ==> r.startDate == clock.today - 7
    ensures selectedTimePeriod == "14days" ==> r.startDate == clock.today - 14
    ensures selectedTimePeriod == "yearStart" ==> r.startDate == clock.januaryFirst
    ensures selectedTimePeriod !in {"7days", "14days", "yearStart"} ==> r.startDate == clock.sameDayLastMonth
  {
    var startDate :=
      match selectedTimePeriod
      case "7days" => clock.today - 7
      case "14days" => clock.today - 14
      case "month" => clock.sameDayLastMonth
      case "yearStart" => clock.januaryFirst
      case _ => clock.sameDayLastMonth;
    Range(startDate, clock.today)
  }

  /** Any period the switch does not name gets the range of 'month'. */
  lemma UnknownPeriodIsMonth(selectedTimePeriod: string, clock: Clock)
    requires selectedTimePeriod !in {"7days", "14days", "month", "yearStart"}
    ensures GetDateRange(selectedTimePeriod, clock) == GetDateRange("month", clock)
  {
  }

  /** On a real calendar the range never starts after it ends, and never
      reaches back further than January 1 or 31 days, whichever is earlier. */
  lemma RangeIsOrdered(selectedTimePeriod: string, clock: Clock)
    requires WellFormed(clock)
    ensures var r := GetDateRange(selectedTimePeriod, clock);
      && r.startDate <= r.endDate
      && (r.startDate >= clock.januaryFirst || r.startDate >= clock.today - 31)
  {
  }
}
