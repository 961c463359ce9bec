/** The SMA-window stepper of the chart settings: whatever value the binding
    is given, the stored window is clamped to 1..30 days. */
module SmaConfiguration {
  import opened Settings

  const MinSmaWindow: int := 1
  const MaxSmaWindow: int := 30

  /** `max(1, min(30, newValue))` */
  function ClampSmaWindow(n: int): (w: int)
    ensures MinSmaWindow <= w <= MaxSmaWindow
    ensures MinSmaWindow <= n <= MaxSmaWindow ==> w == n
    ensures n < MinSmaWindow ==> w == MinSmaWindow
    ensures n > MaxSmaWindow ==> w == MaxSmaWindow
  {
    var upper := if n < MaxSmaWindow then n else MaxSmaWindow;
    if upper > MinSmaWindow then upper else MinSmaWindow
  }

  /** Clamping a clamped window changes nothing, and a larger request never
      gives a smaller window. */
  lemma ClampIsIdempotentAndMonotone(m: int, n: int)
    ensures ClampSmaWindow(ClampSmaWindow(n)) == ClampSmaWindow(n)
    ensures m <= n ==> ClampSmaWindow(m) <= ClampSmaWindow(n)
  {
  }

  /** The binding's setter: stores the clamped window and nothing else. */
  method SetSmaWindow(settings: AppSettings, newValue: int)
    modifies settings
    ensures settings.smaWindow == ClampSmaWindow(newValue)
    ensures settings.baselineMin == old(settings.baselineMin) && settings.baselineMax == old(settings.baselineMax)
    ensures settings.chartPeriod == old(settings.chartPeriod) && settings.chartScale == old(settings.chartScale)
  {
    settings.smaWindow := ClampSmaWindow(newValue);
  }
}
