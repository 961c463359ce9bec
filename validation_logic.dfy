/** `ValidationLogic.validateAndUpdate`: applies the baseline text fields of
    the settings screen to the settings, keeping the minimum at or below the
    maximum, and tells the screen whether to rewrite the maximum field.

    The two texts arrive already parsed (`NumberFormatting.parseDecimal` is
    not part of this model): `None` is a text that did not parse. */
module BaselineValidation {
  import opened Basics
  import opened Settings

  /** The new baseline and what the screen is told. */
  datatype Outcome = Outcome(newMin: real, newMax: real, updatedMax: Option<real>, shouldUpdateMaxText: bool)

  /** What `validateAndUpdate` does to a baseline `oldMin`..`oldMax`: first
      the minimum step, then the maximum step, which sees the new minimum. */
  function Validate(oldMin: real, oldMax: real, minVal: Option<real>, maxVal: Option<real>): (o: Outcome)
    // Neither text parses: nothing changes and nothing is reported.
    ensures minVal.None? && maxVal.None? ==> o == Outcome(oldMin, oldMax, None, false)
    // A parsed minimum is stored as it is; otherwise the minimum stays.
    ensures o.newMin == (if minVal.Some? then minVal.value else oldMin)
    // Once either text parses, the minimum is at or below the maximum.
    ensures minVal.Some? || maxVal.Some? ==> o.newMin <= o.newMax
    // A parsed maximum is stored, raised to the new minimum when below it.
    ensures maxVal.Some? ==> o.newMax == Max(maxVal.value, o.newMin)
    // With no parsed maximum, the maximum moves only when the new minimum exceeds it.
    ensures maxVal.None? ==> o.newMax == (if minVal.Some? && minVal.value > oldMax then minVal.value else oldMax)
    // The flag is raised exactly when a value is reported.
    ensures o.shouldUpdateMaxText <==> o.updatedMax.Some?
    // A value is reported exactly when the maximum was pushed up to the new
    // minimum or the parsed maximum was clamped.
    ensures o.updatedMax.Some? <==>
      (minVal.Some? && minVal.value > oldMax) || (maxVal.Some? && maxVal.value < o.newMin)
    // The reported value is the clamped maximum when the maximum was
    // clamped, and otherwise the new minimum.
    ensures maxVal.Some? && maxVal.value < o.newMin ==> o.updatedMax == Some(o.newMin)
    ensures o.updatedMax.Some? && !(maxVal.Some? && maxVal.value < o.newMin) ==> o.updatedMax == minVal
  {
    var afterMin :=
      if minVal.None? then Outcome(oldMin, oldMax, None, false)
      else if minVal.value > oldMax then Outcome(minVal.value, minVal.value, Some(minVal.value), true)
      else Outcome(minVal.value, oldMax, None, false);
    if maxVal.None? then afterMin
    else
      var newMax := Max(maxVal.value, afterMin.newMin);
      if newMax != maxVal.value then afterMin.(newMax := newMax, updatedMax := Some(newMax), shouldUpdateMaxText := true)
      else afterMin.(newMax := newMax)
  }

  /** The reported value and the stored maximum can disagree: a new minimum
      above the old maximum reports the minimum, but a parsed maximum at or
      above that minimum is what is stored. The screen then shows the
      minimum in the maximum field while the settings hold the typed
      maximum. */
  lemma ReportedMaxCanDifferFromStored(oldMin: real, oldMax: real, mn: real, mx: real)
    requires mn > oldMax && mx >= mn
    ensures Validate(oldMin, oldMax, Some(mn), Some(mx)).updatedMax == Some(mn)
    ensures Validate(oldMin, oldMax, Some(mn), Some(mx)).newMax == mx
    ensures mx != mn ==> Validate(oldMin, oldMax, Some(mn), Some(mx)).updatedMax != Some(Validate(oldMin, oldMax, Some(mn), Some(mx)).newMax)
  {
  }

  /** `validateAndUpdate`: writes the new baseline into `settings` step by
      step and returns what the screen is told. */
  method ValidateAndUpdate(settings: AppSettings, minVal: Option<real>, maxVal: Option<real>)
      returns (updatedMax: Option<real>, shouldUpdateMaxText: bool)
    modifies settings
    ensures var o := Validate(old(settings.baselineMin), old(settings.baselineMax), minVal, maxVal);
      settings.baselineMin == o.newMin && settings.baselineMax == o.newMax
      && updatedMax == o.updatedMax && shouldUpdateMaxText == o.shouldUpdateMaxText
    ensures settings.chartPeriod == old(settings.chartPeriod) && settings.chartScale == old(settings.chartScale)
    ensures settings.smaWindow == old(settings.smaWindow)
  {
    updatedMax := None;
    shouldUpdateMaxText := false;

    if minVal.Some? {
      settings.baselineMin := minVal.value;
      if minVal.value > settings.baselineMax {
        settings.baselineMax := minVal.value;
        updatedMax := minVal;
        shouldUpdateMaxText := true;
      }
    }

    if maxVal.Some? {
      var newMax := Max(maxVal.value, settings.baselineMin);
      settings.baselineMax := newMax;
      if newMax != maxVal.value {
        updatedMax := Some(newMax);
        shouldUpdateMaxText := true;
      }
    }
  }
}
