/** The data-entry form's own copy of the reading checks. */
module InputValidation {
  import opened Basics
  import Readings

  function IsValidGripStrength(value: Option<real>): (ok: bool)
    ensures ok <==> value.Some? && 0.0 < value.value <= 200.0
  {
    match value
    case None => false
    case Some(v) => v > 0.0 && v <= 200.0
  }

  function IsValidDate(date: real, now: real, cal: Calendar): (ok: bool)
    ensures cal(Year, -1, now).Some? ==> (ok <==> cal(Year, -1, now).value <= date <= now)
    ensures cal(Year, -1, now).None? ==> (ok <==> Readings.DistantPast <= date <= now)
  {
    var oneYearAgo := match cal(Year, -1, now) case Some(d) => d case None => Readings.DistantPast;
    date >= oneYearAgo && date <= now
  }

  /** The form and the model accept exactly the same inputs. */
  lemma AgreesWithReading(value: Option<real>, date: real, now: real, cal: Calendar)
    ensures IsValidGripStrength(value) == Readings.IsValidGripStrength(value)
    ensures IsValidDate(date, now, cal) == Readings.IsValidDate(date, now, cal)
  {
  }
}
