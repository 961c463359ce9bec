/** The trend of the latest readings: the mean of the first `window`
    readings against the mean of the next `window`, with a 5% dead band. */
module TrendAnalysis {
  import opened Basics
  import opened Readings

  datatype TrendDirection = Improving | Declining | Stable
  {
    /** The name shown for a direction; each direction has its own. */
    function Description(): (d: string)
      ensures d == "Improving" <==> this == Improving
      ensures d == "Declining" <==> this == Declining
      ensures d == "Stable" <==> this == Stable
    {
      match this
      case Improving => "Improving"
      case Declining => "Declining"
      case Stable => "Stable"
    }
  }

  const DefaultWindow: nat := 7
  const ThresholdFraction: real := 0.05

  function Average(s: seq<real>): real
    requires |s| > 0
  {
    Sum(s) / (|s| as real)
  }

  /** Mean of the first `window` readings. */
  function RecentAverage(readings: seq<Reading>, window: nat): real
    requires 0 < window <= |readings|
  {
    Average(Values(readings[..window]))
  }

  /** Mean of the `window` readings after those. */
  function PreviousAverage(readings: seq<Reading>, window: nat): real
    requires 0 < window && 2 * window <= |readings|
  {
    Average(Values(readings[window..2 * window]))
  }

  function CalculateTrend(readings: seq<Reading>, window: nat): (t: TrendDirection)
    ensures |readings| < 2 * window ==> t == Stable
    ensures window == 0 ==> t == Stable
    ensures 0 < window && 2 * window <= |readings| ==>
      var diff := RecentAverage(readings, window) - PreviousAverage(readings, window);
      var threshold := PreviousAverage(readings, window) * 0.05;
      (t == Improving <==> diff > threshold)
      && (t == Declining <==> !(diff > threshold) && diff < -threshold)
  {
    if |readings| < window * 2 then Stable
    // a zero window averages nothing: 0 / 0 is NaN in the source, and every
    // comparison with NaN is false
    else if window == 0 then Stable
    else
      var recentAvg := Average(Values(readings[..window]));
      var previousAvg := Average(Values(readings[window..2 * window]));
      var difference := recentAvg - previousAvg;
      var threshold := previousAvg * ThresholdFraction;
      if difference > threshold then Improving
      else if difference < -threshold then Declining
      else Stable
  }

  /** Only the first `2 * window` readings matter. */
  lemma OnlyLeadingReadingsMatter(a: seq<Reading>, b: seq<Reading>, window: nat)
    requires 2 * window <= |a| && 2 * window <= |b|
    requires a[..2 * window] == b[..2 * window]
    ensures CalculateTrend(a, window) == CalculateTrend(b, window)
  {
    if window > 0 {
      assert a[..window] == a[..2 * window][..window] == b[..2 * window][..window] == b[..window];
      assert a[window..2 * window] == a[..2 * window][window..] == b[..2 * window][window..] == b[window..2 * window];
    }
  }

  /** With a non-negative previous mean the dead band is symmetric, so
      "declining" means a drop of more than 5%. */
  lemma DecliningMeansFivePercentDrop(readings: seq<Reading>, window: nat)
    requires 0 < window && 2 * window <= |readings|
    requires PreviousAverage(readings, window) >= 0.0
    ensures CalculateTrend(readings, window) == Declining <==>
      RecentAverage(readings, window) - PreviousAverage(readings, window) < -(PreviousAverage(readings, window) * 0.05)
  {
  }

  /** Equal means with a non-negative previous mean give "stable". */
  lemma EqualAveragesAreStable(readings: seq<Reading>, window: nat)
    requires 0 < window && 2 * window <= |readings|
    requires RecentAverage(readings, window) == PreviousAverage(readings, window) >= 0.0
    ensures CalculateTrend(readings, window) == Stable
  {
  }
}
