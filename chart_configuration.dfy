/** Which chart points count as "on screen" around a scroll position, and
    the vertical (value) axis domain computed from them, frozen while the
    hash of the visible data stays the same. */
module ChartConfiguration {
  import opened Basics
  import opened ChartStates
  import opened Settings
  import opened GuidanceLogic

  datatype ChartDataPoint = ChartDataPoint(date: real, value: real, smaValue: Option<real>)

  const SecondsPerDay: real := 86400.0
  const Padding: real := 1.0
  const EmptyPadding: real := 5.0

  // ---------------------------------------------------------------------
  // Visible data

  /** Lookup width in days; "1W" and unknown tokens fall to the default. */
  function VisibleDaysForPeriod(period: string): (days: real)
    ensures period == "1M" ==> days == 30.0
    ensures period == "3M" ==> days == 90.0
    ensures period == "6M" ==> days == 180.0
    ensures period == "1Y" ==> days == 365.0
    ensures period !in {"1M", "6M", "1Y"} ==> days == 90.0
  {
    if period == "1M" then 30.0
    else if period == "3M" then 90.0
    else if period == "6M" then 180.0
    else if period == "1Y" then 365.0
    else if period == "All" then 90.0
    else 90.0
  }

  /** The lookup window: `days` worth of seconds centred on the scroll position. */
  function VisibleDateRange(period: string, scrollPosition: real): (r: Range)
    ensures r.upper - r.lower == VisibleDaysForPeriod(period) * SecondsPerDay
    ensures scrollPosition - r.lower == r.upper - scrollPosition > 0.0
  {
    var halfWidth := VisibleDaysForPeriod(period) * SecondsPerDay / 2.0;
    Range(scrollPosition - halfWidth, scrollPosition + halfWidth)
  }

  predicate InWindow(p: ChartDataPoint, window: Range)
  {
    window.Contains(p.date)
  }

  /** `chartData.filter { window.lower <= $0.date <= window.upper }` */
  function FilterPointsInRange(data: seq<ChartDataPoint>, window: Range): (r: seq<ChartDataPoint>)
    ensures |r| <= |data|
    ensures forall i :: 0 <= i < |r| ==> InWindow(r[i], window) && r[i] in data
    ensures forall i :: 0 <= i < |data| && InWindow(data[i], window) ==> data[i] in r
  {
    if data == [] then []
    else if InWindow(data[0], window) then [data[0]] + FilterPointsInRange(data[1..], window)
    else FilterPointsInRange(data[1..], window)
  }

  /** The filter keeps the original order: it distributes over concatenation. */
  lemma {:induction false} FilterKeepsOrder(a: seq<ChartDataPoint>, b: seq<ChartDataPoint>, window: Range)
    ensures FilterPointsInRange(a + b, window) == FilterPointsInRange(a, window) + FilterPointsInRange(b, window)
  {
    if a != [] {
      assert (a + b)[1..] == a[1..] + b;
      FilterKeepsOrder(a[1..], b, window);
    } else {
      assert a + b == b;
    }
  }

  function Distance(p: ChartDataPoint, scrollPosition: real): real
  {
    Abs(p.date - scrollPosition)
  }

  /** The index `chartData.min(by:)` settles on: it scans left to right and
      replaces its candidate only by a strictly nearer point, so the first
      of several equally near points wins. */
  function NearestIndex(data: seq<ChartDataPoint>, scrollPosition: real): (k: nat)
    requires |data| > 0
    ensures k < |data|
    ensures forall j :: 0 <= j < |data| ==> Distance(data[k], scrollPosition) <= Distance(data[j], scrollPosition)
    ensures forall j :: 0 <= j < k ==> Distance(data[j], scrollPosition) > Distance(data[k], scrollPosition)
  {
    if |data| == 1 then 0
    else
      var last := |data| - 1;
      var k := NearestIndex(data[..last], scrollPosition);
      assert forall j :: 0 <= j < last ==> data[..last][j] == data[j];
      if Distance(data[last], scrollPosition) < Distance(data[k], scrollPosition) then last else k
  }

  function FindNearestPoint(data: seq<ChartDataPoint>, scrollPosition: real): (r: seq<ChartDataPoint>)
    ensures data == [] ==> r == []
    ensures data != [] ==> |r| == 1 && r[0] == data[NearestIndex(data, scrollPosition)]
  {
    if data == [] then [] else [data[NearestIndex(data, scrollPosition)]]
  }

  /** The points on screen: those inside the lookup window, or, when the
      window holds none, the single nearest point. */
  function VisibleChartData(data: seq<ChartDataPoint>, period: string, scrollPosition: real): (r: seq<ChartDataPoint>)
    ensures data == [] ==> r == []
    ensures (exists i :: 0 <= i < |data| && InWindow(data[i], VisibleDateRange(period, scrollPosition))) ==>
      r == FilterPointsInRange(data, VisibleDateRange(period, scrollPosition))
    ensures data != [] && (forall i :: 0 <= i < |data| ==> !InWindow(data[i], VisibleDateRange(period, scrollPosition))) ==>
      r == [data[NearestIndex(data, scrollPosition)]]
    ensures data != [] ==> r != []
  {
    if data == [] then []
    else
      var window := VisibleDateRange(period, scrollPosition);
      var visible := FilterPointsInRange(data, window);
      if visible != [] then
        assert InWindow(visible[0], window) && visible[0] in data;
        visible
      else FindNearestPoint(data, scrollPosition)
  }

  // ---------------------------------------------------------------------
  // Y-axis domain

  /** Every `value`, then every non-nil `smaValue`. */
  function ExtractAllValues(visible: seq<ChartDataPoint>): (vs: seq<real>)
    ensures |vs| >= |visible|
    ensures forall i :: 0 <= i < |visible| ==> visible[i].value in vs
    ensures forall i :: 0 <= i < |visible| && visible[i].smaValue.Some? ==> visible[i].smaValue.value in vs
    ensures forall x :: x in vs ==> exists i :: 0 <= i < |visible| && (x == visible[i].value || visible[i].smaValue == Some(x))
  {
    PointValues(visible) + SmaValues(visible)
  }

  function PointValues(visible: seq<ChartDataPoint>): (vs: seq<real>)
    ensures |vs| == |visible|
    ensures forall i :: 0 <= i < |visible| ==> vs[i] == visible[i].value
  {
    seq(|visible|, i requires 0 <= i < |visible| => visible[i].value)
  }

  /** `compactMap(\.smaValue)` */
  function SmaValues(visible: seq<ChartDataPoint>): (vs: seq<real>)
    ensures forall i :: 0 <= i < |visible| && visible[i].smaValue.Some? ==> visible[i].smaValue.value in vs
    ensures forall x :: x in vs ==> exists i :: 0 <= i < |visible| && visible[i].smaValue == Some(x)
  {
    if visible == [] then []
    else
      var rest := SmaValues(visible[1..]);
      assert forall x :: x in rest ==> exists i :: 1 <= i < |visible| && visible[i].smaValue == Some(x) by {
        forall x | x in rest ensures exists i :: 1 <= i < |visible| && visible[i].smaValue == Some(x) {
          var j :| 0 <= j < |visible[1..]| && visible[1..][j].smaValue == Some(x);
          assert visible[j + 1].smaValue == Some(x);
        }
      }
      match visible[0].smaValue
      case Some(v) => [v] + rest
      case None => rest
  }

  /** The domain around a non-empty set of visible values: one unit below
      the smaller of the data and the baseline minimum, one unit above the
      larger of the data and the baseline maximum. */
  function DomainFromValues(values: seq<real>, baseline: Corridor): (r: Range)
    requires |values| > 0
    ensures r.lower == Min(SeqMin(values), baseline.min) - Padding
    ensures r.upper == Max(SeqMax(values), baseline.max) + Padding
    ensures forall i :: 0 <= i < |values| ==> r.lower < values[i] < r.upper
    ensures r.lower < baseline.min && baseline.max < r.upper
  {
    var dataMin := SeqMin(values);
    var dataMax := SeqMax(values);
    Range(Min(dataMin - Padding, baseline.min - Padding), Max(dataMax + Padding, baseline.max + Padding))
  }

  /** The fallback when there is nothing visible and no stored domain. */
  function EmptyDataDomain(baseline: Corridor): (r: Range)
    ensures r.lower == Min(baseline.min, baseline.max) - EmptyPadding
    ensures r.upper == Max(baseline.min, baseline.max) + EmptyPadding
    ensures r.lower < baseline.min < r.upper && r.lower < baseline.max < r.upper
  {
    Range(Min(baseline.min, baseline.max) - EmptyPadding, Max(baseline.min, baseline.max) + EmptyPadding)
  }

  /** `hashValue` of the joined `"<date>_<value>"` strings: the hash sees
      each point's date and value, not its moving average. */
  type DataHasher = seq<(real, real)> -> int

  /** The date and value of each point, in order. */
  function HashKeys(visible: seq<ChartDataPoint>): (keys: seq<(real, real)>)
    ensures |keys| == |visible|
    ensures forall i :: 0 <= i < |visible| ==> keys[i] == (visible[i].date, visible[i].value)
  {
    seq(|visible|, i requires 0 <= i < |visible| => (visible[i].date, visible[i].value))
  }

  function CreateDataHash(visible: seq<ChartDataPoint>, hasher: DataHasher): (h: int)
    ensures visible == [] ==> h == hasher([])
    ensures |visible| == 1 ==> h == hasher([(visible[0].date, visible[0].value)])
  {
    if |visible| == 1 then
      assert HashKeys(visible) == [(visible[0].date, visible[0].value)];
      hasher(HashKeys(visible))
    else
      assert visible == [] ==> HashKeys(visible) == [];
      hasher(HashKeys(visible))
  }

  lemma HashIgnoresMovingAverage(a: seq<ChartDataPoint>, b: seq<ChartDataPoint>, hasher: DataHasher)
    requires |a| == |b|
    requires forall i :: 0 <= i < |a| ==> a[i].date == b[i].date && a[i].value == b[i].value
    ensures CreateDataHash(a, hasher) == CreateDataHash(b, hasher)
  {
    assert HashKeys(a) == HashKeys(b);
  }

  /** The domain returned for one request, and the write it schedules. */
  datatype DomainAnswer = DomainAnswer(domain: Range, scheduled: Option<Deferred>)

  /** One domain request against the stored domain and hash: the stored
      domain while the hash is unchanged; otherwise a domain recomputed from
      the values (or the stored domain / the baseline fallback when there
      are none), scheduled for storage with the hash it belongs to. */
  function ResolveYDomain(values: seq<real>, baseline: Corridor, stable: Option<Range>, lastHash: int, hash: int): (a: DomainAnswer)
    ensures stable.Some? && hash == lastHash ==> a == DomainAnswer(stable.value, None)
    ensures !(stable.Some? && hash == lastHash) && values != [] ==>
      a == DomainAnswer(DomainFromValues(values, baseline), Some(StoreStableDomain(a.domain, hash)))
    ensures values == [] && stable.Some? ==> a == DomainAnswer(stable.value, None)
    ensures values == [] && stable.None? ==>
      a == DomainAnswer(EmptyDataDomain(baseline), Some(StoreStableDomain(a.domain, hash)))
    ensures a.scheduled.Some? ==> a.scheduled == Some(StoreStableDomain(a.domain, hash))
  {
    if stable.Some? && hash == lastHash then DomainAnswer(stable.value, None)
    else if values == [] then
      if stable.Some? then DomainAnswer(stable.value, None)
      else DomainAnswer(EmptyDataDomain(baseline), Some(StoreStableDomain(EmptyDataDomain(baseline), hash)))
    else
      var d := DomainFromValues(values, baseline);
      DomainAnswer(d, Some(StoreStableDomain(d, hash)))
  }

  /** Anti-jitter: once the write scheduled by a request has run, the same
      request answers with the same domain and schedules nothing. */
  lemma {:induction false} ResolvedDomainIsStable(values: seq<real>, baseline: Corridor, stable: Option<Range>, lastHash: int, hash: int)
    ensures var a := ResolveYDomain(values, baseline, stable, lastHash, hash);
      var after := match a.scheduled
        case Some(StoreStableDomain(d, h)) => (Some(d), h)
        case _ => (stable, lastHash);
      ResolveYDomain(values, baseline, after.0, after.1, hash) == DomainAnswer(a.domain, None)
  {
    var a := ResolveYDomain(values, baseline, stable, lastHash, hash);
    if a.scheduled.Some? {
      assert a.scheduled == Some(StoreStableDomain(a.domain, hash));
    }
  }

  /** A recomputed domain strictly contains every visible value and moving
      average and the whole baseline corridor. */
  lemma RecomputedDomainContainsVisible(visible: seq<ChartDataPoint>, baseline: Corridor, i: nat)
    requires i < |visible|
    ensures var d := DomainFromValues(ExtractAllValues(visible), baseline);
      d.lower < visible[i].value < d.upper
      && (visible[i].smaValue.Some? ==> d.lower < visible[i].smaValue.value < d.upper)
      && d.lower < baseline.min && baseline.max < d.upper
  {
    var vs := ExtractAllValues(visible);
    var j :| 0 <= j < |vs| && vs[j] == visible[i].value;
    if visible[i].smaValue.Some? {
      var k :| 0 <= k < |vs| && vs[k] == visible[i].smaValue.value;
    }
  }

  /** `calculateYDomain`: reads the state, answers, and schedules the store. */
  method CalculateYDomain(chartData: seq<ChartDataPoint>, settings: AppSettings, state: ChartState, hasher: DataHasher)
    returns (domain: Range)
    modifies state
    ensures var visible := VisibleChartData(chartData, settings.chartPeriod, old(state.scrollPosition));
      var a := ResolveYDomain(ExtractAllValues(visible), settings.Baseline(), old(state.stableYDomain),
                              old(state.lastVisibleDataHash), CreateDataHash(visible, hasher));
      domain == a.domain
      && state.pending == old(state.pending) + (if a.scheduled.Some? then [a.scheduled.value] else [])
    ensures state.scrollPosition == old(state.scrollPosition) && state.hasInitialized == old(state.hasInitialized)
    ensures state.stableYDomain == old(state.stableYDomain)
    ensures state.lastVisibleDataHash == old(state.lastVisibleDataHash)
  {
    var visible := VisibleChartData(chartData, settings.chartPeriod, state.scrollPosition);
    var visibleHash := CreateDataHash(visible, hasher);
    if state.stableYDomain.Some? && visibleHash == state.lastVisibleDataHash {
      return state.stableYDomain.value;
    }
    var values := ExtractAllValues(visible);
    if values == [] {
      if state.stableYDomain.Some? {
        return state.stableYDomain.value;
      }
      domain := EmptyDataDomain(settings.Baseline());
    } else {
      domain := DomainFromValues(values, settings.Baseline());
    }
    state.UpdateStableDomain(domain, visibleHash);
  }

  // ---------------------------------------------------------------------
  // Styling

  datatype PointColor = Red | Green | Gray

  function BaselineColor(value: real, baseline: Corridor): (c: PointColor)
    ensures c == Red <==> value < baseline.min
    ensures c == Green <==> value >= baseline.min && value > baseline.max
    ensures c == Gray <==> baseline.min <= value <= baseline.max
  {
    if value < baseline.min then Red
    else if value > baseline.max then Green
    else Gray
  }

  /** The chart's point colours follow the guidance classification. */
  lemma BaselineColorMatchesClassification(value: real, baseline: Corridor)
    ensures BaselineColor(value, baseline) == Red <==> Classify(value, baseline) == Below
    ensures BaselineColor(value, baseline) == Green <==> Classify(value, baseline) == Above
    ensures BaselineColor(value, baseline) == Gray <==> Classify(value, baseline) == Within
  {
  }
}
