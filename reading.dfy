/** A grip-strength reading and the checks a new reading must pass: a value
    in (0, 200] kg and a date within the past year, never in the future.
    The clock and the calendar are parameters. */
module Readings {
  import opened Basics

  datatype Reading = Reading(date: real, value: real)

  /** `Date.distantPast` (1 January of year 1), in seconds since the reference date. */
  const DistantPast: real := -63114076800.0

  const MaxGripStrength: real := 200.0

  function IsValidGripStrength(value: Option<real>): (ok: bool)
    ensures ok <==> value.Some? && 0.0 < value.value <= 200.0
  {
    match value
    case None => false
    case Some(v) => v > 0.0 && v <= MaxGripStrength
  }

  /** One calendar year before `now`, or the distant past when the calendar
      cannot subtract a year. */
  function OneYearAgo(now: real, cal: Calendar): (d: real)
    ensures cal(Year, -1, now).Some? ==> d == cal(Year, -1, now).value
    ensures cal(Year, -1, now).None? ==> d == DistantPast
  {
    match cal(Year, -1, now)
    case Some(d) => d
    case None => DistantPast
  }

  function IsValidDate(date: real, now: real, cal: Calendar): (ok: bool)
    ensures ok <==> OneYearAgo(now, cal) <= date <= now
  {
    date >= OneYearAgo(now, cal) && date <= now
  }

  function IsValid(r: Reading, now: real, cal: Calendar): (ok: bool)
    ensures ok <==> 0.0 < r.value <= 200.0 && OneYearAgo(now, cal) <= r.date <= now
  {
    IsValidGripStrength(Some(r.value)) && IsValidDate(r.date, now, cal)
  }

  function Create(date: real, value: real, now: real, cal: Calendar): (r: Option<Reading>)
    ensures r.None? <==> !IsValidGripStrength(Some(value)) || !IsValidDate(date, now, cal)
    ensures r.Some? ==> r.value == Reading(date, value) && IsValid(r.value, now, cal)
  {
    if !(IsValidGripStrength(Some(value)) && IsValidDate(date, now, cal)) then None
    else Some(Reading(date, value))
  }

  /** `readings.map(\.value)` */
  function Values(rs: seq<Reading>): (vs: seq<real>)
    ensures |vs| == |rs|
    ensures forall i :: 0 <= i < |rs| ==> vs[i] == rs[i].value
  {
    if rs == [] then [] else [rs[0].value] + Values(rs[1..])
  }

  lemma {:induction false} ValuesOfConcat(a: seq<Reading>, b: seq<Reading>)
    ensures Values(a + b) == Values(a) + Values(b)
  {
    assert |Values(a + b)| == |Values(a) + Values(b)|;
    forall i | 0 <= i < |a + b|
      ensures Values(a + b)[i] == (Values(a) + Values(b))[i]
    {
    }
  }

  /** Reordering the readings reorders their values the same way. */
  lemma {:induction false} ValuesOfPermutation(a: seq<Reading>, b: seq<Reading>)
    requires multiset(a) == multiset(b)
    ensures multiset(Values(a)) == multiset(Values(b))
    decreases |a|
  {
    if a == [] {
      assert |b| == |multiset(b)| == 0;
    } else {
      var x := a[0];
      assert x in multiset(b);
      var k :| 0 <= k < |b| && b[k] == x;
      var rest := RemoveAt(b, k);
      assert multiset(rest) == multiset(a[1..]) by {
        assert a == [x] + a[1..];
      }
      ValuesOfPermutation(a[1..], rest);
      ValuesOfRemoveAt(b, k);
      assert Values(a) == [x.value] + Values(a[1..]);
    }
  }

  function RemoveAt<T>(s: seq<T>, k: nat): (r: seq<T>)
    requires k < |s|
    ensures multiset(r) == multiset(s) - multiset{s[k]}
  {
    assert s == s[..k] + [s[k]] + s[k + 1..];
    s[..k] + s[k + 1..]
  }

  lemma ValuesOfRemoveAt(b: seq<Reading>, k: nat)
    requires k < |b|
    ensures multiset(Values(b)) == multiset(Values(RemoveAt(b, k))) + multiset{b[k].value}
  {
    var front, back := b[..k], b[k + 1..];
    var x := b[k];
    SplitAt(b, k);
    ValuesOfConcat(front + [x], back);
    ValuesOfConcat(front, [x]);
    ValuesOfConcat(front, back);
    assert Values([x]) == [x.value];
    assert Values(b) == Values(front) + [x.value] + Values(back);
    assert Values(RemoveAt(b, k)) == Values(front) + Values(back);
    MultisetWithout(Values(front), x.value, Values(back));
  }

  lemma SplitAt<T>(s: seq<T>, k: nat)
    requires k < |s|
    ensures s == s[..k] + [s[k]] + s[k + 1..]
  {
  }

  lemma MultisetWithout<T>(f: seq<T>, x: T, b: seq<T>)
    ensures multiset(f + [x] + b) == multiset(f + b) + multiset{x}
  {
  }

  /** The bounds are sharp: 0 kg is rejected, 200 kg accepted. */
  lemma GripStrengthBounds()
    ensures !IsValidGripStrength(Some(0.0)) && IsValidGripStrength(Some(200.0))
    ensures !IsValidGripStrength(None)
  {
  }
}
