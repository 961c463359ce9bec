/** The horizontal (time) axis of the chart: how wide the visible window is
    for a period token, a symmetrically padded date range, and the scroll
    domain handed to the charting widget. Dates are seconds. */
module ChartScaling {
  import opened Basics

  /** The calendar step that defines the width of every period except "All";
      an unrecognised token falls back to three months. */
  function PeriodStep(period: string): (CalendarUnit, int)
  {
    if period == "1W" then (WeekOfYear, 1)
    else if period == "1M" then (Month, 1)
    else if period == "3M" then (Month, 3)
    else if period == "6M" then (Month, 6)
    else if period == "1Y" then (Year, 1)
    else (Month, 3)
  }

  /** The source force-unwraps the calendar's answer, so the calendar must be
      able to add the period's step to `maxDate` (not needed for "All"). */
  predicate CalendarCanStep(cal: Calendar, period: string, maxDate: real)
  {
    period == "All" || cal(PeriodStep(period).0, PeriodStep(period).1, maxDate).Some?
  }

  function VisibleWidth(period: string, minDate: real, maxDate: real, cal: Calendar): (w: real)
    requires CalendarCanStep(cal, period, maxDate)
    ensures period == "All" ==> w == (maxDate - minDate) * 1.04
    ensures period == "1W" ==> w == cal(WeekOfYear, 1, maxDate).value - maxDate
    ensures period == "1M" ==> w == cal(Month, 1, maxDate).value - maxDate
    ensures period == "3M" ==> w == cal(Month, 3, maxDate).value - maxDate
    ensures period == "6M" ==> w == cal(Month, 6, maxDate).value - maxDate
    ensures period == "1Y" ==> w == cal(Year, 1, maxDate).value - maxDate
  {
    if period == "All" then
      // the real data span with 2% padding on both sides
      (maxDate - minDate) * 1.04
    else
      var (unit, n) := PeriodStep(period);
      cal(unit, n, maxDate).value - maxDate
  }

  predicate IsKnownPeriod(period: string)
  {
    period in {"1W", "1M", "3M", "6M", "1Y", "All"}
  }

  /** Any unrecognised token is exactly as wide as "3M". */
  lemma UnknownPeriodIsThreeMonths(period: string, minDate: real, maxDate: real, cal: Calendar)
    requires !IsKnownPeriod(period)
    requires CalendarCanStep(cal, period, maxDate)
    ensures CalendarCanStep(cal, "3M", maxDate)
    ensures VisibleWidth(period, minDate, maxDate, cal) == VisibleWidth("3M", minDate, maxDate, cal)
  {
  }

  /** Only "All" looks at `minDate`. */
  lemma CalendarWidthIgnoresMinDate(period: string, min1: real, min2: real, maxDate: real, cal: Calendar)
    requires period != "All"
    requires CalendarCanStep(cal, period, maxDate)
    ensures VisibleWidth(period, min1, maxDate, cal) == VisibleWidth(period, min2, maxDate, cal)
  {
  }

  function PaddedRange(minDate: real, maxDate: real, percent: real): (r: Range)
    ensures var pad := Max(maxDate - minDate, 1.0) * Max(percent, 0.0);
      r.lower == minDate - pad && r.upper == maxDate + pad
    ensures minDate - r.lower == r.upper - maxDate >= 0.0
    ensures percent <= 0.0 ==> r == Range(minDate, maxDate)
    ensures minDate <= maxDate ==> r.WellFormed() && r.Contains(minDate) && r.Contains(maxDate)
    ensures minDate == maxDate && percent > 0.0 ==> r.lower < r.upper
  {
    var span := Max(maxDate - minDate, 1.0);
    var pad := span * Max(percent, 0.0);
    Range(minDate - pad, maxDate + pad)
  }

  /** The scroll domain. Before the view's first positioning it is anchored
      to the right edge; "All" always shows the padded full span. */
  function ScrollDomain(minDate: real, maxDate: real, period: string, hasInitialized: bool, cal: Calendar): (r: Range)
    requires period != "All" && !hasInitialized ==> CalendarCanStep(cal, period, maxDate)
    ensures period == "All" ==> r == PaddedRange(minDate, maxDate, 0.02)
    ensures period != "All" ==> r.upper == maxDate
    ensures period != "All" && hasInitialized ==> r.lower == minDate
    ensures period != "All" && !hasInitialized ==>
      r.lower == Max(maxDate - VisibleWidth(period, minDate, maxDate, cal), minDate)
    ensures period != "All" ==> r.lower >= minDate
  {
    if period == "All" then PaddedRange(minDate, maxDate, 0.02)
    else if hasInitialized then Range(minDate, maxDate)
    else
      var width := VisibleWidth(period, minDate, maxDate, cal);
      Range(Max(maxDate - width, minDate), maxDate)
  }

  /** "All" ignores the initialisation flag. */
  lemma AllScrollDomainIgnoresInitialization(minDate: real, maxDate: real, cal: Calendar)
    ensures ScrollDomain(minDate, maxDate, "All", true, cal) == ScrollDomain(minDate, maxDate, "All", false, cal)
  {
  }

  /** When the data span is ordered and the calendar moves forward, the
      scroll domain is a proper range lying inside `[minDate, maxDate]`
      (for every period except "All", which pads outward). */
  lemma ScrollDomainWithinData(minDate: real, maxDate: real, period: string, hasInitialized: bool, cal: Calendar)
    requires minDate <= maxDate && period != "All"
    requires !hasInitialized ==> CalendarCanStep(cal, period, maxDate)
    requires !hasInitialized ==> cal(PeriodStep(period).0, PeriodStep(period).1, maxDate).value >= maxDate
    ensures var r := ScrollDomain(minDate, maxDate, period, hasInitialized, cal);
      r.WellFormed() && minDate <= r.lower && r.upper == maxDate
  {
  }
}
