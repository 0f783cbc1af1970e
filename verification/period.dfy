/** The period calculator of src/Services/Period.php: a start instant, an
    interval unit and a repeat count give an end instant. */
module Periods {
  import opened Base

  const SecondsPerDay: int := 86400

  datatype Interval = Day | Week | Month | Year

  /** The calendar arithmetic of the date library for the units whose
      length varies. The only property relied on is MovesForward. */
  datatype Calendar = Calendar(addMonths: (int, int) -> int, addYears: (int, int) -> int)

  /** Advancing by one or more months or years moves strictly forward. */
  ghost predicate MovesForward(cal: Calendar) {
    && (forall t: int, n: int :: n >= 1 ==> t < cal.addMonths(t, n))
    && (forall t: int, n: int :: n >= 1 ==> t < cal.addYears(t, n))
  }

  /** The unit whose `add<Unit>s` method the constructor calls, if any. */
  function ParseInterval(name: string): (r: Option<Interval>)
    ensures r == Some(Day) <==> name == "day"
    ensures r == Some(Week) <==> name == "week"
    ensures r == Some(Month) <==> name == "month"
    ensures r == Some(Year) <==> name == "year"
  {
    if name == "day" then Some(Day)
    else if name == "week" then Some(Week)
    else if name == "month" then Some(Month)
    else if name == "year" then Some(Year)
    else None
  }

  /** `t` advanced by `n` units of `unit`. */
  function Advance(cal: Calendar, t: int, unit: Interval, n: int): int {
    match unit
    case Day => t + n * SecondsPerDay
    case Week => t + n * 7 * SecondsPerDay
    case Month => cal.addMonths(t, n)
    case Year => cal.addYears(t, n)
  }

  /** A constructed period; the fields are what getStartDate, getEndDate,
      getInterval and getIntervalCount return. */
  datatype Period = Period(startDate: int, endDate: int, interval: string, intervalCount: int)

  /** `new Period($start, $interval, $count)`, with the clock reading
      `now` passed in. An absent start means now; a non-positive count
      leaves the default count of 1; the end is computed on a copy of
      the start. */
  function NewPeriod(cal: Calendar, now: int, start: Option<int> := None,
                     interval: string := "month", count: int := 1): (r: Result<Period>)
    ensures r.Failure? <==> ParseInterval(interval).None?
    ensures r.Failure? ==> r.error == UnknownInterval(interval)
    ensures r.Success? ==> r.value.interval == interval
    ensures r.Success? ==> r.value.startDate == start.GetOr(now)
    ensures r.Success? ==> r.value.intervalCount >= 1
    ensures r.Success? && count > 0 ==> r.value.intervalCount == count
    ensures r.Success? && count <= 0 ==> r.value.intervalCount == 1
    ensures r.Success? && MovesForward(cal) ==> r.value.startDate < r.value.endDate
    ensures r.Success? && interval == "day" ==>
              r.value.endDate == r.value.startDate + r.value.intervalCount * 86400
    ensures r.Success? && interval == "week" ==>
              r.value.endDate == r.value.startDate + r.value.intervalCount * 7 * 86400
    ensures r.Success? && interval == "month" ==>
              r.value.endDate == cal.addMonths(r.value.startDate, r.value.intervalCount)
    ensures r.Success? && interval == "year" ==>
              r.value.endDate == cal.addYears(r.value.startDate, r.value.intervalCount)
  {
    var startDate := if start.Some? then start.value else now;
    var intervalCount := if count > 0 then count else 1;
    match ParseInterval(interval)
    case None => Failure(UnknownInterval(interval))
    case Some(unit) =>
      Success(Period(startDate, Advance(cal, startDate, unit, intervalCount), interval, intervalCount))
  }

  /** The constructor's defaults: a one-month period starting now. */
  lemma DefaultIsOneMonthFromNow(cal: Calendar, now: int)
    ensures NewPeriod(cal, now).Success?
    ensures NewPeriod(cal, now).value == Period(now, cal.addMonths(now, 1), "month", 1)
  {
  }

  /** For days and weeks, a period of `a + b` units ends where a period of
      `b` units ends when started at the end of a period of `a` units. */
  lemma ExactUnitsCompose(cal: Calendar, start: int, interval: string, a: int, b: int)
    requires interval == "day" || interval == "week"
    requires a >= 1 && b >= 1
    ensures NewPeriod(cal, start, Some(start), interval, a).Success?
    ensures NewPeriod(cal, start, Some(start), interval, a + b).value.endDate
         == NewPeriod(cal, start, Some(NewPeriod(cal, start, Some(start), interval, a).value.endDate),
                      interval, b).value.endDate
  {
  }
}
