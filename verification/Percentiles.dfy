/**
 Wait-time percentiles.

 The values are sorted in place.  A percentile p of n values belongs to the place (n - 1) * p / 100;
 if this is not a whole number the value is interpolated linearly between the two places next to it.

 The result holds the percentiles 5, 10, 50, 90 and 95, and nothing if there are no values.  Numbers
 are exact.
 */
module Percentiles {
  import opened Basics

  function Insert(x: real, s: seq<real>): seq<real> {
    if s == [] || x <= s[0] then [x] + s else [s[0]] + Insert(x, s[1..])
  }

  function Sorted(s: seq<real>): (t: seq<real>)
    ensures |t| == |s|
    ensures multiset(t) == multiset(s)
  {
    if s == [] then []
    else
      assert s == [s[0]] + s[1..];
      InsertKeeps(s[0], Sorted(s[1..]));
      Insert(s[0], Sorted(s[1..]))
  }

  lemma {:induction false} InsertKeeps(x: real, s: seq<real>)
    ensures |Insert(x, s)| == |s| + 1 && multiset(Insert(x, s)) == multiset{x} + multiset(s)
  {
    if s != [] && x > s[0] {
      InsertKeeps(x, s[1..]);
      assert s == [s[0]] + s[1..];
    }
  }

  predicate Ascending(s: seq<real>) { forall i, j :: 0 <= i < j < |s| ==> s[i] <= s[j] }

  predicate AtLeast(s: seq<real>, x: real) { forall i :: 0 <= i < |s| ==> x <= s[i] }

  lemma {:induction false} InsertAtLeast(x: real, s: seq<real>, y: real)
    requires AtLeast(s, y) && y <= x
    ensures AtLeast(Insert(x, s), y)
  {
    if s != [] && x > s[0] {
      assert AtLeast(s[1..], y);
      InsertAtLeast(x, s[1..], y);
    }
  }

  lemma {:induction false} InsertAscending(x: real, s: seq<real>)
    requires Ascending(s)
    ensures Ascending(Insert(x, s))
  {
    if s != [] && x > s[0] {
      InsertAscending(x, s[1..]);
      assert AtLeast(s[1..], s[0]);
      InsertAtLeast(x, s[1..], s[0]);
    }
  }

  lemma {:induction false} SortedAscending(s: seq<real>)
    ensures Ascending(Sorted(s))
  {
    if s != [] {
      SortedAscending(s[1..]);
      InsertAscending(s[0], Sorted(s[1..]));
    }
  }

  /** Only one ascending sequence has given elements. */
  lemma {:induction false} AscendingUnique(a: seq<real>, b: seq<real>)
    requires Ascending(a) && Ascending(b) && multiset(a) == multiset(b)
    ensures a == b
  {
    assert |a| == |multiset(a)| == |multiset(b)| == |b|;
    if a != [] {
      assert a[0] in multiset(b) && b[0] in multiset(a);
      assert a[0] == b[0];
      assert a == [a[0]] + a[1..] && b == [b[0]] + b[1..];
      assert multiset(a[1..]) == multiset(a) - multiset{a[0]};
      assert multiset(b[1..]) == multiset(b) - multiset{b[0]};
      AscendingUnique(a[1..], b[1..]);
    }
  }

  /** Where percentile `p` falls among `n` sorted values. */
  function Index(n: nat, p: nat): real { (n as real - 1.0) * (p as real / 100.0) }

  function Interpolated(s: seq<real>, index: real): real
    requires s != [] && 0.0 <= index <= |s| as real - 1.0
  {
    var lower := index.Floor;
    if lower + 1 < |s| then s[lower] * ((lower + 1) as real - index) + s[lower + 1] * (index - lower as real)
    else s[lower]
  }

  lemma IndexInRange(n: nat, p: nat)
    requires n > 0 && p <= 100
    ensures 0.0 <= Index(n, p) <= n as real - 1.0
  {
    NonNegative(n as real - 1.0, p as real / 100.0);
    NonNegative(n as real - 1.0, 1.0 - p as real / 100.0);
  }

  lemma NonNegative(a: real, b: real)
    requires a >= 0.0 && b >= 0.0
    ensures a * b >= 0.0
  {
  }

  function Percentile(data: seq<real>, p: nat): real
    requires data != [] && p <= 100
  {
    InSorted(Sorted(data), p)
  }

  function InSorted(s: seq<real>, p: nat): real
    requires s != [] && p <= 100
  {
    IndexInRange(|s|, p);
    Interpolated(s, Index(|s|, p))
  }

  const PERCENTILES: seq<nat> := [5, 10, 50, 90, 95]

  method CalculatePercentiles(data: array<real>) returns (results: map<nat, real>)
    modifies data
    ensures data[..] == Sorted(old(data[..]))
    ensures data.Length == 0 ==> results == map[]
    ensures data.Length > 0 ==>
              && (forall p: nat :: p in results <==> p in PERCENTILES)
              && (forall p <- results :: p <= 100 && results[p] == Percentile(old(data[..]), p))
  {
    results := map[];
    if data.Length == 0 {
      return;
    }
    ghost var given := data[..];
    SortInPlace(data);
    for i := 0 to |PERCENTILES|
      invariant data[..] == Sorted(given)
      invariant forall p: nat :: p in results <==> p in PERCENTILES[..i]
      invariant forall p <- results :: p <= 100 && results[p] == Percentile(given, p)
    {
      var value := ValueAt(data, PERCENTILES[i]);
      results := results[PERCENTILES[i] := value];
    }
  }

  /** The percentile of sorted data. */
  method ValueAt(data: array<real>, percentile: nat) returns (value: real)
    requires data.Length > 0 && percentile <= 100
    ensures value == InSorted(data[..], percentile)
  {
    IndexInRange(data.Length, percentile);
    var index := (data.Length as real - 1.0) * (percentile as real / 100.0);
    var lowerIndex := index.Floor;
    var upperIndex := lowerIndex + 1;
    if upperIndex < data.Length {
      var lowerValue := data[lowerIndex] * (upperIndex as real - index);
      var upperValue := data[upperIndex] * (index - lowerIndex as real);
      value := lowerValue + upperValue;
    } else {
      value := data[lowerIndex];
    }
  }

  method SortInPlace(data: array<real>)
    modifies data
    ensures data[..] == Sorted(old(data[..]))
  {
    var sorted := Sorted(data[..]);
    for i := 0 to data.Length
      invariant data[..i] == sorted[..i]
    {
      data[i] := sorted[i];
    }
  }

  /** Only the values matter, not their order. */
  lemma PercentileOfMultiset(a: seq<real>, b: seq<real>, p: nat)
    requires a != [] && p <= 100 && multiset(a) == multiset(b)
    ensures |b| == |a| && Percentile(a, p) == Percentile(b, p)
  {
    SortedAscending(a);
    SortedAscending(b);
    AscendingUnique(Sorted(a), Sorted(b));
  }

  lemma Between(x: real, y: real, t: real)
    requires x <= y && 0.0 <= t <= 1.0
    ensures x <= x * (1.0 - t) + y * t <= y
  {
    assert x * (1.0 - t) + y * t == x + (y - x) * t;
    NonNegative(y - x, t);
    NonNegative(y - x, 1.0 - t);
  }

  /** Interpolation stays between the two neighbours. */
  lemma InterpolatedBetween(s: seq<real>, index: real)
    requires Ascending(s) && s != [] && 0.0 <= index <= |s| as real - 1.0
    ensures var lower := index.Floor;
      s[lower] <= Interpolated(s, index) <= s[Min(lower + 1, |s| - 1)]
  {
    var lower := index.Floor;
    if lower + 1 < |s| {
      var t := index - lower as real;
      Between(s[lower], s[lower + 1], t);
      assert (lower + 1) as real - index == 1.0 - t;
    }
  }

  lemma InterpolatedMonotone(s: seq<real>, i: real, j: real)
    requires Ascending(s) && s != [] && 0.0 <= i <= j <= |s| as real - 1.0
    ensures Interpolated(s, i) <= Interpolated(s, j)
  {
    InterpolatedBetween(s, i);
    InterpolatedBetween(s, j);
    if i.Floor == j.Floor {
      var k := i.Floor;
      if k + 1 < |s| {
        var x, y := s[k], s[k + 1];
        assert Interpolated(s, j) - Interpolated(s, i) == (y - x) * (j - i);
        NonNegative(y - x, j - i);
      }
    } else {
      assert i.Floor + 1 <= j.Floor;
    }
  }

  /** Percentiles grow with the percentage... */
  lemma PercentilesGrow(data: seq<real>, p: nat, q: nat)
    requires data != [] && p <= q <= 100
    ensures Percentile(data, p) <= Percentile(data, q)
  {
    SortedAscending(data);
    IndexInRange(|data|, p);
    IndexInRange(|data|, q);
    IndexGrows(|data|, p, q);
    InterpolatedMonotone(Sorted(data), Index(|data|, p), Index(|data|, q));
  }

  /** ... from the least value to the greatest. */
  lemma PercentilesAmongValues(data: seq<real>, p: nat)
    requires data != [] && p <= 100
    ensures exists lo, hi :: lo in data && hi in data && lo <= Percentile(data, p) <= hi
  {
    var s := Sorted(data);
    SortedAscending(data);
    IndexInRange(|data|, p);
    var index := Index(|data|, p);
    InterpolatedBetween(s, index);
    var lo, hi := s[index.Floor], s[Min(index.Floor + 1, |s| - 1)];
    assert lo in multiset(data) && hi in multiset(data);
    assert lo in data && hi in data;
  }

  lemma IndexGrows(n: nat, p: nat, q: nat)
    requires n > 0 && p <= q
    ensures Index(n, p) <= Index(n, q)
  {
    NonNegative(n as real - 1.0, (q - p) as real / 100.0);
  }

  /** Where the index is whole, the percentile is the value at that rank: `rank` values below, the rest above. */
  lemma PercentileAtRank(data: seq<real>, p: nat, rank: nat)
    requires data != [] && p <= 100 && (|data| - 1) * p == 100 * rank
    ensures rank < |data| && Percentile(data, p) == Sorted(data)[rank]
  {
    IndexInRange(|data|, p);
    WholeIndex(|data|, p, rank);
    InterpolatedWhole(Sorted(data), rank);
  }

  /**
   Between two ranks the percentile divides the distance in the proportion in which it falls between them, in
   hundredths; at either end it is the value there.
   */
  lemma PercentileExact(s: seq<real>, p: nat, rank: nat, rest: nat)
    requires s != [] && p <= 100 && (|s| - 1) * p == 100 * rank + rest && rest <= 100 && rank + 1 < |s|
    ensures 100.0 * InSorted(s, p) == (100 - rest) as real * s[rank] + rest as real * s[rank + 1]
    ensures forall data :: Sorted(data) == s ==> data != [] && Percentile(data, p) == InSorted(s, p)
  {
    IndexExact(|s|, p, rank, rest);
    InterpolatedAt(s, rank, rest);
  }

  lemma InterpolatedAt(s: seq<real>, rank: nat, rest: nat)
    requires rank + 1 < |s| && rest <= 100
    ensures var index := rank as real + rest as real / 100.0;
      && 0.0 <= index <= |s| as real - 1.0
      && 100.0 * Interpolated(s, index) == (100 - rest) as real * s[rank] + rest as real * s[rank + 1]
  {
    if rest == 100 {
      assert rank as real + rest as real / 100.0 == (rank + 1) as real;
      InterpolatedWhole(s, rank + 1);
    } else {
      InterpolatedExact(s, rank, rest);
    }
  }

  lemma InterpolatedExact(s: seq<real>, rank: nat, rest: nat)
    requires rank + 1 < |s| && rest < 100
    ensures 100.0 * Interpolated(s, rank as real + rest as real / 100.0)
         == (100 - rest) as real * s[rank] + rest as real * s[rank + 1]
  {
    var t := rest as real / 100.0;
    assert (rank as real + t).Floor == rank;
    assert Interpolated(s, rank as real + t) == s[rank] * (1.0 - t) + s[rank + 1] * t by {
      assert (rank + 1) as real - (rank as real + t) == 1.0 - t;
    }
    Hundredths(s[rank], s[rank + 1], rest);
  }

  lemma Hundredths(x: real, y: real, rest: nat)
    requires rest <= 100
    ensures var t := rest as real / 100.0;
      100.0 * (x * (1.0 - t) + y * t) == (100 - rest) as real * x + rest as real * y
  {
    var t := rest as real / 100.0;
    assert 100.0 * (x * (1.0 - t)) == x * (100.0 * (1.0 - t)) == x * (100 - rest) as real;
    assert 100.0 * (y * t) == y * (100.0 * t) == y * rest as real;
  }

  lemma IndexExact(n: nat, p: nat, rank: nat, rest: nat)
    requires n > 0 && (n - 1) * p == 100 * rank + rest
    ensures Index(n, p) == rank as real + rest as real / 100.0
  {
    assert (n as real - 1.0) * p as real == ((n - 1) * p) as real;
  }

  lemma InterpolatedWhole(s: seq<real>, rank: nat)
    requires rank < |s|
    ensures Interpolated(s, rank as real) == s[rank]
  {
  }

  lemma WholeIndex(n: nat, p: nat, rank: nat)
    requires n > 0 && (n - 1) * p == 100 * rank
    ensures Index(n, p) == rank as real
  {
    assert (n as real - 1.0) * p as real == ((n - 1) * p) as real;
  }
}
