/** Latency percentiles and averages over an arbitrarily ordered sample of milliseconds.
    A percentile is given by an exact fraction; averages are counted in hundredths. */
module Percentiles {
  import opened Arith
  import opened Counting

  ghost predicate IsSorted(s: seq<int>) {
    forall i, j | 0 <= i < j < |s| :: s[i] <= s[j]
  }

  /** The first position of the sorted sequence `s` whose value is not below `x`. */
  function Position(s: seq<int>, x: int): (k: nat)
    requires IsSorted(s)
    ensures k <= |s|
    ensures forall i | 0 <= i < k :: s[i] < x
    ensures forall i | k <= i < |s| :: x <= s[i]
  {
    if s == [] || s[|s| - 1] < x then |s| else Position(s[..|s| - 1], x)
  }

  function Insert(s: seq<int>, x: int): seq<int>
    requires IsSorted(s)
  {
    var k := Position(s, x);
    s[..k] + [x] + s[k..]
  }

  lemma SplitLast(s: seq<int>)
    requires s != []
    ensures multiset(s) == multiset(s[..|s| - 1]) + multiset{s[|s| - 1]}
    ensures multiset(s[..|s| - 1]) == multiset(s) - multiset{s[|s| - 1]}
  {
    assert s == s[..|s| - 1] + [s[|s| - 1]];
  }

  lemma InsertSorts(s: seq<int>, x: int)
    requires IsSorted(s)
    ensures IsSorted(Insert(s, x))
  {
  }

  lemma InsertKeeps(s: seq<int>, x: int)
    requires IsSorted(s)
    ensures multiset(Insert(s, x)) == multiset(s) + multiset{x}
  {
    var k := Position(s, x);
    assert s == s[..k] + s[k..];
  }

  function Sorted(s: seq<int>): (r: seq<int>)
    ensures IsSorted(r) && multiset(r) == multiset(s) && |r| == |s|
  {
    if s == [] then []
    else
      var m := |s| - 1;
      var t := Sorted(s[..m]);
      InsertSorts(t, s[m]);
      InsertKeeps(t, s[m]);
      SplitLast(s);
      Insert(t, s[m])
  }

  lemma TopOfSorted(a: seq<int>, b: seq<int>)
    requires IsSorted(a) && multiset(a) == multiset(b) && b != []
    ensures a != [] && b[|b| - 1] <= a[|a| - 1]
  {
    assert b[|b| - 1] in multiset(a);
  }

  /** There is only one sorted arrangement of given elements. */
  lemma {:induction false} SortedUnique(a: seq<int>, b: seq<int>)
    requires IsSorted(a) && IsSorted(b) && multiset(a) == multiset(b)
    ensures a == b
  {
    SameSize(a, b);
    if a != [] {
      var m := |a| - 1;
      TopOfSorted(a, b);
      TopOfSorted(b, a);
      SplitLast(a);
      SplitLast(b);
      SortedUnique(a[..m], b[..m]);
      assert a == a[..m] + [a[m]];
    }
  }

  lemma SameSize(a: seq<int>, b: seq<int>)
    requires multiset(a) == multiset(b)
    ensures |a| == |b|
  {
    assert |multiset(a)| == |a| && |multiset(b)| == |b|;
  }

  /** A fraction of the way through a sample. */
  datatype Fraction = Fraction(num: int, den: nat)

  const P50 := Fraction(1, 2)
  const P90 := Fraction(9, 10)
  const P95 := Fraction(19, 20)
  const P99 := Fraction(99, 100)

  /** The position the percentile reads in a sorted sample of `n` values. */
  function Rank(n: nat, p: Fraction): (k: nat)
    requires n > 0 && p.den > 0
    ensures k < n
  {
    if p.num <= 0 then 0
    else if p.num >= p.den then n - 1
    else
      RankInRange(n, p);
      p.num * (n - 1) / p.den
  }

  lemma RankInRange(n: nat, p: Fraction)
    requires n > 0 && 0 < p.num < p.den
    ensures 0 <= p.num * (n - 1) / p.den < n
  {
    MulMono(n - 1, p.num, p.den);
    DivMono(p.num * (n - 1), p.den * (n - 1), p.den);
    DivModUnique(p.den * (n - 1), p.den, n - 1, 0);
    assert 0 <= p.num * (n - 1) by { MulMono(n - 1, 0, p.num); }
    DivMono(0, p.num * (n - 1), p.den);
  }

  function PercentileMs(sorted: seq<int>, p: Fraction): int
    requires p.den > 0
  {
    if sorted == [] then 0 else sorted[Rank(|sorted|, p)]
  }

  /** Rounding a quotient to the nearest integer, halves away from zero. */
  function RoundHalfAway(a: int, b: int): int
    requires b > 0
  {
    if a >= 0 then (2 * a + b) / (2 * b) else -((2 * -a + b) / (2 * b))
  }

  /** The mean of a non-empty sample in hundredths. */
  function AverageHundredths(s: seq<int>): int
    requires s != []
  {
    RoundHalfAway(100 * Sum(s), |s|)
  }

  /** Every value lies in a closed range. */
  ghost predicate Within(s: seq<int>, lo: int, hi: int) {
    forall i | 0 <= i < |s| :: lo <= s[i] <= hi
  }

  lemma ExtremesOfSorted(s: seq<int>)
    requires s != []
    ensures Within(s, Sorted(s)[0], Sorted(s)[|s| - 1])
    ensures Sorted(s)[0] in s && Sorted(s)[|s| - 1] in s
  {
    var t := Sorted(s);
    assert t[0] in multiset(s) && t[|s| - 1] in multiset(s);
    forall i | 0 <= i < |s| ensures t[0] <= s[i] <= t[|s| - 1] {
      assert s[i] in multiset(t);
    }
  }

  datatype Summary = Summary(avgHundredths: int, p90: int, p95: int, p99: int)

  function Summarize(s: seq<int>): Summary {
    if s == [] then Summary(0, 0, 0, 0)
    else
      var t := Sorted(s);
      Summary(AverageHundredths(s), PercentileMs(t, P90), PercentileMs(t, P95), PercentileMs(t, P99))
  }

  // ---------------------------------------------------------------- the imperative form

  /** Stands for the library sort of a slice. */
  method SortInPlace(a: array<int>)
    modifies a
    ensures a[..] == Sorted(old(a[..]))
  {
    var t := Sorted(a[..]);
    forall i | 0 <= i < a.Length {
      a[i] := t[i];
    }
  }

  method SortedCopy(sample: array<int>) returns (sorted: array<int>)
    ensures fresh(sorted) && sorted[..] == Sorted(sample[..])
  {
    sorted := new int[sample.Length];
    forall i | 0 <= i < sample.Length {
      sorted[i] := sample[i];
    }
    assert sorted[..] == sample[..];
    SortInPlace(sorted);
  }

  /** The sample itself is only read: the copy is what gets sorted. */
  method ComputeSummary(sample: array<int>) returns (avgHundredths: int, p90: int, p95: int, p99: int)
    ensures Summary(avgHundredths, p90, p95, p99) == Summarize(sample[..])
  {
    if sample.Length == 0 {
      return 0, 0, 0, 0;
    }
    var sum := 0;
    for i := 0 to sample.Length
      invariant sum == Sum(sample[..i])
    {
      sum := sum + sample[i];
      assert sample[..i + 1][..i] == sample[..i];
    }
    assert sample[..sample.Length] == sample[..];
    avgHundredths := RoundHalfAway(100 * sum, sample.Length);
    var sorted := SortedCopy(sample);
    p90 := PercentileMs(sorted[..], P90);
    p95 := PercentileMs(sorted[..], P95);
    p99 := PercentileMs(sorted[..], P99);
  }

  method ComputeP50P95Max(sample: array<int>) returns (p50: int, p95: int, max: int)
    ensures sample.Length == 0 ==> p50 == p95 == max == 0
    ensures sample.Length > 0 ==> p50 == PercentileMs(Sorted(sample[..]), P50) && p95 == PercentileMs(Sorted(sample[..]), P95)
    ensures sample.Length > 0 ==> max in sample[..] && forall i | 0 <= i < sample.Length :: sample[i] <= max
  {
    if sample.Length == 0 {
      return 0, 0, 0;
    }
    var sorted := SortedCopy(sample);
    p50 := PercentileMs(sorted[..], P50);
    p95 := PercentileMs(sorted[..], P95);
    max := sorted[sorted.Length - 1];
    ExtremesOfSorted(sample[..]);
  }

  // ---------------------------------------------------------------- what the numbers mean

  function AtMost(v: int): int -> bool {
    (x: int) => x <= v
  }

  function AtLeast(v: int): int -> bool {
    (x: int) => x >= v
  }

  lemma RankInSorted(t: seq<int>, k: nat)
    requires IsSorted(t) && k < |t|
    ensures Count(t, AtMost(t[k])) >= k + 1 && Count(t, AtLeast(t[k])) >= |t| - k
  {
    assert t == t[..k + 1] + t[k + 1..] && t == t[..k] + t[k..];
    CountConcat(t[..k + 1], t[k + 1..], AtMost(t[k]));
    CountAll(t[..k + 1], AtMost(t[k]));
    CountConcat(t[..k], t[k..], AtLeast(t[k]));
    CountAll(t[k..], AtLeast(t[k]));
  }

  /** A percentile is a value of the sample, with Rank+1 values no larger and n-Rank values no smaller. */
  lemma PercentileRank(s: seq<int>, p: Fraction)
    requires s != [] && p.den > 0
    ensures var v, k := PercentileMs(Sorted(s), p), Rank(|s|, p);
            && v in s
            && Count(s, AtMost(v)) >= k + 1
            && Count(s, AtLeast(v)) >= |s| - k
  {
    var t := Sorted(s);
    var v := PercentileMs(t, p);
    RankInSorted(t, Rank(|t|, p));
    CountPermuted(t, s, AtMost(v));
    CountPermuted(t, s, AtLeast(v));
    assert v in multiset(s);
  }

  lemma RankMono(n: nat, p: Fraction, q: Fraction)
    requires n > 0 && p.den > 0 && q.den > 0 && p.num * q.den <= q.num * p.den
    requires 0 < p.num < p.den && 0 < q.num < q.den
    ensures Rank(n, p) <= Rank(n, q)
  {
    var m := n - 1;
    var a, b := p.num * m / p.den, q.num * m / q.den;
    DivBounds(p.num * m, p.den);
    DivBounds(q.num * m, q.den);
    CrossMultiply(p.num, p.den, q.num, q.den, m, a);
    if b + 1 <= a {
      MulMono(q.den, b + 1, a);
      Distribute(q.den, b, 1);
    }
  }

  lemma Cancel(d: int, x: int, y: int)
    requires d > 0 && d * x <= d * y
    ensures x <= y
  {
    if y + 1 <= x {
      MulMono(d, y + 1, x);
      Distribute(d, y, 1);
    }
  }

  lemma CrossMultiply(pn: int, pd: int, qn: int, qd: int, m: nat, a: int)
    requires 0 < pd && 0 < qd && pn * qd <= qn * pd && pd * a <= pn * m
    ensures qd * a <= qn * m
  {
    MulMono(qd, pd * a, pn * m);
    MulMono(m, pn * qd, qn * pd);
    assert pd * (qd * a) == qd * (pd * a);
    assert qd * (pn * m) == m * (pn * qd);
    assert m * (qn * pd) == pd * (qn * m);
    Cancel(pd, qd * a, qn * m);
  }

  lemma PercentileMono(s: seq<int>, p: Fraction, q: Fraction)
    requires s != [] && p.den > 0 && q.den > 0 && p.num * q.den <= q.num * p.den
    requires 0 < p.num < p.den && 0 < q.num < q.den
    ensures PercentileMs(Sorted(s), p) <= PercentileMs(Sorted(s), q)
  {
    RankMono(|s|, p, q);
  }

  /** The four percentiles are ordered, between the extremes of the sample. */
  lemma PercentilesOrdered(s: seq<int>, lo: int, hi: int)
    requires s != [] && Within(s, lo, hi)
    ensures var t := Sorted(s);
            lo <= PercentileMs(t, P50) <= PercentileMs(t, P90) <= PercentileMs(t, P95) <= PercentileMs(t, P99) <= hi
  {
    PercentileMono(s, P50, P90);
    PercentileMono(s, P90, P95);
    PercentileMono(s, P95, P99);
    ExtremesOfSorted(s);
  }

  lemma RoundNear(a: int, b: int)
    requires b > 0
    ensures -b <= 2 * (b * RoundHalfAway(a, b) - a) <= b
  {
    var x := if a >= 0 then a else -a;
    var q := (2 * x + b) / (2 * b);
    DivBounds(2 * x + b, 2 * b);
    assert (2 * b) * q == 2 * (b * q);
    assert b * -q == -(b * q);
  }

  /** The average is the mean rounded to two decimals: within 0.005 of it and within the sample's range. */
  lemma AverageMeaning(s: seq<int>, lo: int, hi: int)
    requires s != [] && Within(s, lo, hi)
    ensures var a := AverageHundredths(s);
            && -|s| <= 2 * (|s| * a - 100 * Sum(s)) <= |s|
            && 100 * lo <= a <= 100 * hi
  {
    RoundNear(100 * Sum(s), |s|);
    SumBounds(s, lo, hi);
    NearestStaysAbove(|s|, AverageHundredths(s), 100 * Sum(s), lo);
    NearestStaysBelow(|s|, AverageHundredths(s), 100 * Sum(s), hi);
  }

  lemma NearestStaysAbove(n: int, a: int, total: int, lo: int)
    requires n > 0 && 2 * (n * a - total) >= -n && total >= 100 * (lo * n)
    ensures 100 * lo <= a
  {
    assert n * (100 * lo) == 100 * (lo * n);
    if a + 1 <= 100 * lo {
      MulMono(n, a + 1, 100 * lo);
      Distribute(n, a, 1);
    }
  }

  lemma NearestStaysBelow(n: int, a: int, total: int, hi: int)
    requires n > 0 && 2 * (n * a - total) <= n && total <= 100 * (hi * n)
    ensures a <= 100 * hi
  {
    assert n * (100 * hi) == 100 * (hi * n);
    if 100 * hi + 1 <= a {
      MulMono(n, 100 * hi + 1, a);
      Distribute(n, 100 * hi, 1);
    }
  }

  /** The order in which latencies were collected does not matter. */
  lemma SummaryIgnoresOrder(a: seq<int>, b: seq<int>)
    requires multiset(a) == multiset(b)
    ensures Sorted(a) == Sorted(b) && Summarize(a) == Summarize(b)
  {
    SortedUnique(Sorted(a), Sorted(b));
    assert |multiset(a)| == |a| && |multiset(b)| == |b|;
    SumPermuted(a, b);
  }

  /** A sample below a threshold has every summary figure below it. */
  lemma SummaryBelow(s: seq<int>, threshold: int)
    requires threshold > 0 && forall i | 0 <= i < |s| :: s[i] < threshold
    ensures var m := Summarize(s);
            m.p90 < threshold && m.p95 < threshold && m.p99 < threshold && m.avgHundredths < 100 * threshold
  {
    if s != [] {
      var lo := Sorted(s)[0];
      ExtremesOfSorted(s);
      PercentilesOrdered(s, lo, threshold - 1);
      AverageMeaning(s, lo, threshold - 1);
    }
  }

  /** Halves are rounded up where the sum is not negative, as rounding away from zero does. */
  lemma RoundHalfUp(a: int, b: int)
    requires b > 0 && a >= 0
    ensures -b < 2 * (b * RoundHalfAway(a, b) - a) <= b
  {
    var q := (2 * a + b) / (2 * b);
    DivBounds(2 * a + b, 2 * b);
    assert (2 * b) * q == 2 * (b * q);
  }

  /** What each figure of a summary is, in numbers: the values at nine, nineteen and ninety-nine of ten, twenty and a
      hundred parts of the way through the sample, and the mean to the nearest hundredth. */
  lemma SummaryMeaning(s: seq<int>)
    requires s != []
    ensures var m, n := Summarize(s), |s|;
            && m.p90 in s && Count(s, AtMost(m.p90)) >= 9 * (n - 1) / 10 + 1 && Count(s, AtLeast(m.p90)) >= n - 9 * (n - 1) / 10
            && m.p95 in s && Count(s, AtMost(m.p95)) >= 19 * (n - 1) / 20 + 1 && Count(s, AtLeast(m.p95)) >= n - 19 * (n - 1) / 20
            && m.p99 in s && Count(s, AtMost(m.p99)) >= 99 * (n - 1) / 100 + 1 && Count(s, AtLeast(m.p99)) >= n - 99 * (n - 1) / 100
            && m.p90 <= m.p95 <= m.p99
            && -n <= 2 * (n * m.avgHundredths - 100 * Sum(s)) <= n
            && (Sum(s) >= 0 ==> -n < 2 * (n * m.avgHundredths - 100 * Sum(s)))
  {
    ExtremesOfSorted(s);
    PercentileRank(s, P90);
    PercentileRank(s, P95);
    PercentileRank(s, P99);
    PercentilesOrdered(s, Sorted(s)[0], Sorted(s)[|s| - 1]);
    RoundNear(100 * Sum(s), |s|);
    if Sum(s) >= 0 {
      RoundHalfUp(100 * Sum(s), |s|);
    }
  }

  /** The median is the value half way through the sample. */
  lemma MedianMeaning(s: seq<int>)
    requires s != []
    ensures var p50, n := PercentileMs(Sorted(s), P50), |s|;
            p50 in s && Count(s, AtMost(p50)) >= (n - 1) / 2 + 1 && Count(s, AtLeast(p50)) >= n - (n - 1) / 2
  {
    PercentileRank(s, P50);
  }

  /** A sample without values has a summary of zeros. */
  lemma EmptySummary()
    ensures Summarize([]) == Summary(0, 0, 0, 0)
  {
  }
}
