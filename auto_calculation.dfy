/** The automatic baseline: the median of the readings, widened by 5% on
    each side, with the lower bound never negative. */
module AutoCalculation {
  import opened Basics
  import opened Sorting
  import opened Readings

  /** Baseline suggested to new users. */
  const DefaultMin: real := 35.0
  const DefaultMax: real := 45.0

  lemma DefaultsAreOrdered()
    ensures DefaultMin <= DefaultMax
  {
  }

  /** The median of an ascending sequence: the middle element, or the mean
      of the two middle elements when the count is even. */
  function Median(sorted: seq<real>): (m: real)
    requires |sorted| > 0
    ensures SortedBy(sorted, RealKey) ==> sorted[0] <= m <= sorted[|sorted| - 1]
  {
    var n := |sorted|;
    if n % 2 == 1 then sorted[n / 2]
    else (sorted[n / 2 - 1] + sorted[n / 2]) / 2.0
  }

  /** How many elements are at most `m`. */
  function CountAtMost(s: seq<real>, m: real): nat
  {
    if s == [] then 0 else (if s[0] <= m then 1 else 0) + CountAtMost(s[1..], m)
  }

  /** How many elements are at least `m`. */
  function CountAtLeast(s: seq<real>, m: real): nat
  {
    if s == [] then 0 else (if s[0] >= m then 1 else 0) + CountAtLeast(s[1..], m)
  }

  lemma {:induction false} PrefixAtMost(s: seq<real>, m: real, k: nat)
    requires k <= |s|
    requires forall i :: 0 <= i < k ==> s[i] <= m
    ensures CountAtMost(s, m) >= k
  {
    if k > 0 {
      PrefixAtMost(s[1..], m, k - 1);
    } else if s != [] {
      PrefixAtMost(s[1..], m, 0);
    }
  }

  lemma {:induction false} SuffixAtLeast(s: seq<real>, m: real, k: nat)
    requires k <= |s|
    requires forall i :: |s| - k <= i < |s| ==> s[i] >= m
    ensures CountAtLeast(s, m) >= k
  {
    if s != [] {
      if k == |s| {
        SuffixAtLeast(s[1..], m, k - 1);
      } else {
        SuffixAtLeast(s[1..], m, k);
      }
    }
  }

  /** The median splits an ascending sequence in half: at least half the
      elements (rounded up) are at most it and at least half are at least
      it; with an odd count it is the middle element itself, with an even
      count it lies between the two middle ones. */
  lemma MedianSplitsInHalf(sorted: seq<real>)
    requires |sorted| > 0
    requires SortedBy(sorted, RealKey)
    ensures CountAtMost(sorted, Median(sorted)) >= (|sorted| + 1) / 2
    ensures CountAtLeast(sorted, Median(sorted)) >= (|sorted| + 1) / 2
    ensures |sorted| % 2 == 1 ==> Median(sorted) == sorted[|sorted| / 2]
    ensures |sorted| % 2 == 0 ==> sorted[|sorted| / 2 - 1] <= Median(sorted) <= sorted[|sorted| / 2]
  {
    var n, m := |sorted|, Median(sorted);
    var lo, hi := (n - 1) / 2, n / 2;
    assert RealKey(sorted[lo]) <= RealKey(sorted[hi]);
    assert sorted[lo] <= m <= sorted[hi];
    forall i | 0 <= i < lo + 1 ensures sorted[i] <= m {
      if i < lo {
        assert RealKey(sorted[i]) <= RealKey(sorted[lo]);
      }
    }
    PrefixAtMost(sorted, m, lo + 1);
    forall i | n - (n - hi) <= i < n ensures sorted[i] >= m {
      if hi < i {
        assert RealKey(sorted[hi]) <= RealKey(sorted[i]);
      }
    }
    SuffixAtLeast(sorted, m, n - hi);
  }

  function MedianValue(readings: seq<Reading>): real
    requires readings != []
  {
    Median(SortBy(Values(readings), RealKey))
  }

  function CalculateBaseline(readings: seq<Reading>): (r: Option<Corridor>)
    ensures r.None? <==> readings == []
    ensures r.Some? ==> r.value.min >= 0.0
    ensures r.Some? ==> r.value.min == Max(0.0, MedianValue(readings) * 0.95)
    ensures r.Some? ==> r.value.max == MedianValue(readings) * 1.05
  {
    if readings == [] then None
    else
      var median := MedianValue(readings);
      Some(Corridor(Max(0.0, median * 0.95), median * 1.05))
  }

  /** The median lies between the smallest and the largest reading. */
  lemma MedianWithinReadings(readings: seq<Reading>)
    requires readings != []
    ensures SeqMin(Values(readings)) <= MedianValue(readings) <= SeqMax(Values(readings))
  {
    var vs := Values(readings);
    var sorted := SortBy(vs, RealKey);
    assert sorted[0] in multiset(vs);
    assert sorted[|sorted| - 1] in multiset(vs);
  }

  /** The baseline does not depend on the order of the readings. */
  lemma BaselineIsOrderIndependent(a: seq<Reading>, b: seq<Reading>)
    requires multiset(a) == multiset(b)
    ensures CalculateBaseline(a) == CalculateBaseline(b)
  {
    if a == [] {
      assert |b| == |multiset(b)| == 0;
    } else {
      assert a[0] in multiset(b);
      ValuesOfPermutation(a, b);
      SortRealsIsOrderIndependent(Values(a), Values(b));
      assert MedianValue(a) == MedianValue(b);
    }
  }

  /** For a non-negative median the corridor brackets it. */
  lemma CorridorBracketsMedian(readings: seq<Reading>)
    requires readings != []
    requires MedianValue(readings) >= 0.0
    ensures CalculateBaseline(readings).value.min <= MedianValue(readings) <= CalculateBaseline(readings).value.max
  {
  }
}
