/**
  The data side of the trend chart: the day keys of the historical-rates
  object sorted as strings, one value per day for the target currency, the
  indices that get a labelled marker, and the padded value range.
 */
module Chart {
  import opened Wrappers
  import opened Text

  /** One day of the historical-rates object: currency code to rate. */
  type Day = map<string, real>

  predicate Distinct(s: seq<string>)
  {
    forall i, j :: 0 <= i < j < |s| ==> s[i] != s[j]
  }

  function Elements(s: seq<string>): set<string>
  {
    set x | x in s
  }

  lemma ElementsEmpty(s: seq<string>)
    ensures Elements(s) == {} <==> |s| == 0
  {
    if |s| > 0 {
      assert s[0] in Elements(s);
    }
  }

  predicate StrictlySorted(s: seq<string>)
  {
    forall i, j :: 0 <= i < j < |s| ==> Below(s[i], s[j])
  }

  /** Insert `x` into the sorted `s`, before the first key it is not above. */
  function Insert(x: string, s: seq<string>): (r: seq<string>)
    ensures multiset(r) == multiset(s) + multiset{x}
    ensures |r| == |s| + 1
  {
    if |s| == 0 then [x]
    else
      assert s == [s[0]] + s[1..];
      if Below(s[0], x) then [s[0]] + Insert(x, s[1..]) else [x] + s
  }

  /** `keys.sort()`: insertion sort under the default string order. */
  function Sort(keys: seq<string>): (r: seq<string>)
    ensures multiset(r) == multiset(keys)
    ensures |r| == |keys|
  {
    if |keys| == 0 then []
    else
      assert keys == [keys[0]] + keys[1..];
      Insert(keys[0], Sort(keys[1..]))
  }

  lemma {:induction false} InsertSorted(x: string, s: seq<string>)
    requires StrictlySorted(s) && x !in s
    ensures StrictlySorted(Insert(x, s))
    decreases |s|
  {
    if |s| > 0 {
      if Below(s[0], x) {
        InsertSorted(x, s[1..]);
        var r := Insert(x, s[1..]);
        forall k | 0 <= k < |r| ensures Below(s[0], r[k]) {
          assert r[k] in multiset(r);
          if r[k] != x {
            assert r[k] in multiset(s[1..]);
            var j :| 0 <= j < |s[1..]| && s[1..][j] == r[k];
            assert s[j + 1] == r[k];
          }
        }
      } else {
        assert x != s[0];
        BelowTotal(x, s[0]);
        forall j | 0 < j < |s| ensures Below(x, s[j]) {
          BelowTransitive(x, s[0], s[j]);
        }
      }
    }
  }

  /** Sorting distinct keys gives them strictly ascending. */
  lemma {:induction false} SortSorted(keys: seq<string>)
    requires Distinct(keys)
    ensures StrictlySorted(Sort(keys))
    decreases |keys|
  {
    if |keys| > 0 {
      var rest := keys[1..];
      SortSorted(rest);
      assert keys[0] !in multiset(Sort(rest));
      InsertSorted(keys[0], Sort(rest));
    }
  }

  /** Two strictly ascending lists of the same keys are the same list. */
  lemma {:induction false} SortedUnique(a: seq<string>, b: seq<string>)
    requires StrictlySorted(a) && StrictlySorted(b) && Elements(a) == Elements(b)
    ensures a == b
    decreases |a|
  {
    ElementsEmpty(a);
    ElementsEmpty(b);
    if |a| > 0 {
      assert a[0] in Elements(b);
      assert b[0] in Elements(a);
      var i :| 0 <= i < |a| && a[i] == b[0];
      var j :| 0 <= j < |b| && b[j] == a[0];
      if a[0] != b[0] {
        assert Below(a[0], a[i]) && Below(b[0], b[j]);
        BelowTotal(a[0], b[0]);
        assert false;
      }
      BelowIrreflexive(a[0]);
      assert a[0] !in a[1..];
      assert b[0] !in b[1..];
      assert Elements(a[1..]) == Elements(a) - {a[0]} by {
        assert a == [a[0]] + a[1..];
      }
      assert Elements(b[1..]) == Elements(b) - {b[0]} by {
        assert b == [b[0]] + b[1..];
      }
      SortedUnique(a[1..], b[1..]);
      assert a == [a[0]] + a[1..] && b == [b[0]] + b[1..];
    }
  }

  /** `keys` is an enumeration of the object's own keys, as `Object.keys` gives one. */
  predicate Enumerates(keys: seq<string>, rates: map<string, Day>)
  {
    Distinct(keys) && Elements(keys) == rates.Keys
  }

  /** What `renderChart` computes before drawing: nothing to plot, or the sorted series with its markers. */
  datatype Plot = NoData | Plot(dates: seq<string>, values: seq<Option<real>>, markers: seq<nat>)

  /** `rates[date][to]`: undefined when that day has no rate for `to`. */
  function ValueOn(day: Day, to: string): Option<real>
  {
    if to in day then Some(day[to]) else None
  }

  /** The labelled markers from index `i` on: `i % 5 == 0 || i == n - 1`. */
  function MarkersFrom(i: nat, n: nat): (r: seq<nat>)
    ensures forall k :: 0 <= k < |r| ==> i <= r[k] < n
    decreases n - i
  {
    if i >= n then []
    else (if i % 5 == 0 || i == n - 1 then [i] else []) + MarkersFrom(i + 1, n)
  }

  function Markers(n: nat): seq<nat>
  {
    MarkersFrom(0, n)
  }

  lemma {:induction false} MarkersFromExactly(i: nat, n: nat, k: nat)
    ensures k in MarkersFrom(i, n) <==> i <= k < n && (k % 5 == 0 || k == n - 1)
    decreases n - i
  {
    if i < n {
      MarkersFromExactly(i + 1, n, k);
    }
  }

  lemma {:induction false} MarkersFromAscending(i: nat, n: nat)
    ensures forall a, b :: 0 <= a < b < |MarkersFrom(i, n)| ==> MarkersFrom(i, n)[a] < MarkersFrom(i, n)[b]
    decreases n - i
  {
    if i < n {
      MarkersFromAscending(i + 1, n);
    }
  }

  /** A marker stands at index k exactly when k % 5 == 0 or k is the last index, in index order. */
  lemma MarkersExactly(n: nat)
    ensures forall k: nat :: k in Markers(n) <==> k < n && (k % 5 == 0 || k == n - 1)
    ensures forall a, b :: 0 <= a < b < |Markers(n)| ==> Markers(n)[a] < Markers(n)[b]
  {
    forall k: nat ensures k in Markers(n) <==> k < n && (k % 5 == 0 || k == n - 1) {
      MarkersFromExactly(0, n, k);
    }
    MarkersFromAscending(0, n);
  }

  /** The series part of `renderChart`. */
  function RenderChart(rates: map<string, Day>, keys: seq<string>, to: string): (p: Plot)
    requires Enumerates(keys, rates)
    ensures p.NoData? <==> rates == map[]
    ensures p.Plot? ==>
              && StrictlySorted(p.dates) && Elements(p.dates) == rates.Keys
              && |p.values| == |p.dates| == |keys|
              && (forall i :: 0 <= i < |p.dates| ==> p.dates[i] in rates && p.values[i] == ValueOn(rates[p.dates[i]], to))
              && p.markers == Markers(|p.dates|)
  {
    var dates := Sort(keys);
    SortSorted(keys);
    assert forall d :: d in dates <==> d in multiset(keys);
    assert forall d :: d in dates ==> d in keys;
    var values := seq(|dates|, i requires 0 <= i < |dates| => ValueOn(rates[dates[i]], to));
    if |values| == 0 then
      assert forall d :: d !in keys;
      NoData
    else
      assert keys[0] in rates;
      Plot(dates, values, Markers(|dates|))
  }

  /** The plot does not depend on the order in which the object's keys are enumerated. */
  lemma RenderChartIgnoresKeyOrder(rates: map<string, Day>, keys1: seq<string>, keys2: seq<string>, to: string)
    requires Enumerates(keys1, rates) && Enumerates(keys2, rates)
    ensures RenderChart(rates, keys1, to) == RenderChart(rates, keys2, to)
  {
    var p1, p2 := RenderChart(rates, keys1, to), RenderChart(rates, keys2, to);
    if p1.Plot? && p2.Plot? {
      SortedUnique(p1.dates, p2.dates);
      assert p1.values == p2.values;
    }
  }

  /** The smallest value. */
  function Min(vs: seq<real>): (m: real)
    requires |vs| > 0
    ensures m in vs && forall v :: v in vs ==> m <= v
  {
    if |vs| == 1 then vs[0]
    else
      var rest := Min(vs[1..]);
      assert forall v :: v in vs ==> v == vs[0] || v in vs[1..];
      if vs[0] <= rest then vs[0] else rest
  }

  /** The largest value. */
  function Max(vs: seq<real>): (m: real)
    requires |vs| > 0
    ensures m in vs && forall v :: v in vs ==> v <= m
  {
    if |vs| == 1 then vs[0]
    else
      var rest := Max(vs[1..]);
      assert forall v :: v in vs ==> v == vs[0] || v in vs[1..];
      if vs[0] >= rest then vs[0] else rest
  }

  /** `Math.min(...values) * 0.999` and `Math.max(...values) * 1.001`. */
  function PaddedRange(vs: seq<real>): (real, real)
    requires |vs| > 0
  {
    (Min(vs) * 0.999, Max(vs) * 1.001)
  }

  /**
    For positive rates every plotted value lies inside the padded range and
    the range is never empty, so the y-scale never divides by zero.
   */
  lemma PaddedRangeContains(vs: seq<real>)
    requires |vs| > 0 && forall v :: v in vs ==> v > 0.0
    ensures var (lo, hi) := PaddedRange(vs);
            lo < hi && forall v :: v in vs ==> lo <= v <= hi
  {
  }

  /** For a negative minimum the padding moves the bound inward: that value falls below the range. */
  lemma PaddedRangeNegative(vs: seq<real>)
    requires |vs| > 0 && Min(vs) < 0.0
    ensures PaddedRange(vs).0 > Min(vs)
  {
  }
}
