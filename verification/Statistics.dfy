/** The statistics of the measurement scripts, over exact reals.

    The standard deviation is represented by its square, the sample variance.
 */
module Statistics {
  import opened Sorting

  datatype Option<+T> = None | Some(value: T)

  predicate RealLe(x: real, y: real) {
    x <= y
  }

  ghost predicate Ascending(s: seq<real>) {
    forall i, j :: 0 <= i < j < |s| ==> s[i] <= s[j]
  }

  function SortReals(values: seq<real>): (r: seq<real>)
    ensures |r| == |values|
  {
    Sort(RealLe, values)
  }

  // ---------------------------------------------------------------------------
  // Percentiles
  // ---------------------------------------------------------------------------

  function Ceiling(x: real): int {
    -((-x).Floor)
  }

  /** The value at the fractional index `k`: exact at integers, interpolated in between. */
  function At(s: seq<real>, k: real): real
    requires s != [] && 0.0 <= k <= (|s| - 1) as real
  {
    var f, c := k.Floor, Ceiling(k);
    if f == c then s[f]
    else s[f] * (c as real - k) + s[c] * (k - f as real)
  }

  function Index(n: nat, p: real): (k: real)
    requires n > 0 && 0.0 <= p <= 100.0
    ensures 0.0 <= k <= (n - 1) as real
  {
    (n - 1) as real * (p / 100.0)
  }

  /** `percentile(sorted_values, p)`. */
  function Percentile(sorted: seq<real>, p: real): Option<real>
    requires 0.0 <= p <= 100.0
  {
    if sorted == [] then None
    else if |sorted| == 1 then Some(sorted[0])
    else Some(At(sorted, Index(|sorted|, p)))
  }

  lemma FloorCeiling(k: real)
    ensures k.Floor as real <= k < k.Floor as real + 1.0
    ensures Ceiling(k) == if k == k.Floor as real then k.Floor else k.Floor + 1
  {
  }

  lemma Lerp(a: real, b: real, t: real)
    requires a <= b && 0.0 <= t <= 1.0
    ensures a <= a * (1.0 - t) + b * t <= b
  {
  }

  lemma LerpMonotone(a: real, b: real, t: real, u: real)
    requires a <= b && t <= u
    ensures a * (1.0 - t) + b * t <= a * (1.0 - u) + b * u
  {
  }

  /** Between its neighbours. */
  lemma AtIsBetween(s: seq<real>, k: real)
    requires Ascending(s) && s != [] && 0.0 <= k <= (|s| - 1) as real
    ensures s[k.Floor] <= At(s, k)
    ensures k.Floor + 1 < |s| ==> At(s, k) <= s[k.Floor + 1]
    ensures k.Floor + 1 == |s| ==> At(s, k) == s[k.Floor]
  {
    FloorCeiling(k);
    if k != k.Floor as real {
      Lerp(s[k.Floor], s[k.Floor + 1], k - k.Floor as real);
    }
  }

  lemma AtIsMonotone(s: seq<real>, j: real, k: real)
    requires Ascending(s) && s != [] && 0.0 <= j <= k <= (|s| - 1) as real
    ensures At(s, j) <= At(s, k)
  {
    FloorCeiling(j);
    FloorCeiling(k);
    AtIsBetween(s, j);
    AtIsBetween(s, k);
    if j.Floor == k.Floor {
      var f := j.Floor;
      if f + 1 < |s| {
        LerpMonotone(s[f], s[f + 1], j - f as real, k - f as real);
      }
    } else {
      assert s[j.Floor + 1] <= s[k.Floor];
    }
  }

  lemma IndexIsMonotone(n: nat, p: real, q: real)
    requires n > 0 && 0.0 <= p <= q <= 100.0
    ensures Index(n, p) <= Index(n, q)
    ensures Index(n, 0.0) == 0.0 && Index(n, 100.0) == (n - 1) as real
    ensures Index(n, 50.0) == (n - 1) as real / 2.0
  {
    var m := (n - 1) as real;
    assert m * (q / 100.0) - m * (p / 100.0) == m * (q / 100.0 - p / 100.0) >= 0.0;
  }

  /** For sorted data `percentile` rises with `p`, from the least to the greatest value. */
  lemma PercentileIsMonotone(s: seq<real>, p: real, q: real)
    requires Ascending(s) && s != [] && 0.0 <= p <= q <= 100.0
    ensures Percentile(s, p).value <= Percentile(s, q).value
    ensures s[0] <= Percentile(s, p).value <= s[|s| - 1]
    ensures Percentile(s, 0.0).value == s[0] && Percentile(s, 100.0).value == s[|s| - 1]
  {
    IndexIsMonotone(|s|, 0.0, p);
    IndexIsMonotone(|s|, p, q);
    IndexIsMonotone(|s|, q, 100.0);
    if |s| > 1 {
      FloorCeiling(0.0);
      FloorCeiling((|s| - 1) as real);
      AtIsMonotone(s, Index(|s|, p), Index(|s|, q));
      AtIsMonotone(s, 0.0, Index(|s|, p));
      AtIsMonotone(s, Index(|s|, p), (|s| - 1) as real);
    }
  }

  /** Raising data points never lowers a percentile. */
  lemma PercentileFollowsData(s: seq<real>, t: seq<real>, p: real)
    requires |s| == |t| && s != [] && 0.0 <= p <= 100.0
    requires forall i :: 0 <= i < |s| ==> s[i] <= t[i]
    ensures Percentile(s, p).value <= Percentile(t, p).value
  {
  }

  // ---------------------------------------------------------------------------
  // compute_stats
  // ---------------------------------------------------------------------------

  function Sum(values: seq<real>): real {
    if values == [] then 0.0 else values[0] + Sum(values[1..])
  }

  function Mean(values: seq<real>): real
    requires values != []
  {
    Sum(values) / |values| as real
  }

  /** `statistics.median`: the middle value, or the mean of the two in the middle. */
  function Median(values: seq<real>): real
    requires values != []
  {
    var s, n := SortReals(values), |values|;
    if n % 2 == 1 then s[n / 2] else (s[n / 2 - 1] + s[n / 2]) / 2.0
  }

  function Square(x: real): real {
    x * x
  }

  /** Sum of the squared deviations from `mean`. */
  function Deviation(values: seq<real>, mean: real): real {
    if values == [] then 0.0 else Square(values[0] - mean) + Deviation(values[1..], mean)
  }

  /** The square of `statistics.stdev`, and 0 for a single value. */
  function Variance(values: seq<real>): real
    requires values != []
  {
    if |values| > 1 then Deviation(values, Mean(values)) / (|values| - 1) as real else 0.0
  }

  function Least(values: seq<real>): real
    requires values != []
  {
    if |values| == 1 then values[0]
    else if values[0] <= Least(values[1..]) then values[0] else Least(values[1..])
  }

  function Greatest(values: seq<real>): real
    requires values != []
  {
    if |values| == 1 then values[0]
    else if values[0] >= Greatest(values[1..]) then values[0] else Greatest(values[1..])
  }

  datatype Stats = Stats(
    count: nat, mean: real, median: real, variance: real, p25: real, p50: real, p95: real, min: real, max: real)

  function ComputeStats(values: seq<real>): Option<Stats> {
    if values == [] then None
    else
      var s := SortReals(values);
      Some(Stats(|values|, Mean(values), Median(values), Variance(values),
                 Percentile(s, 25.0).value, Percentile(s, 50.0).value, Percentile(s, 95.0).value,
                 Least(values), Greatest(values)))
  }

  lemma RealOrder()
    ensures TotalPreorder(RealLe)
    ensures forall m: multiset<real> :: Antisymmetric(RealLe, m)
  {
  }

  lemma SortRealsSorts(values: seq<real>)
    ensures Ascending(SortReals(values)) && multiset(SortReals(values)) == multiset(values)
  {
    RealOrder();
    SortSorts(RealLe, values);
    assert forall i, j :: 0 <= i < j < |values| ==> RealLe(SortReals(values)[i], SortReals(values)[j]);
  }

  lemma {:induction false} LeastGreatestBound(values: seq<real>)
    requires values != []
    ensures Least(values) in values && Greatest(values) in values
    ensures forall i :: 0 <= i < |values| ==> Least(values) <= values[i] <= Greatest(values)
  {
    if |values| > 1 {
      LeastGreatestBound(values[1..]);
    }
  }

  lemma {:induction false} LeastIsFirst(values: seq<real>)
    requires values != []
    ensures Least(values) == SortReals(values)[0]
    ensures Greatest(values) == SortReals(values)[|values| - 1]
  {
    hide SortReals; hide Least; hide Greatest;
    var s := SortReals(values);
    SortRealsSorts(values);
    LeastGreatestBound(values);
    EndsBound(s, values, Least(values));
    EndsBound(s, values, Greatest(values));
    assert s[0] in multiset(s) && s[|s| - 1] in multiset(s);
    var i :| 0 <= i < |values| && values[i] == s[0];
    var j :| 0 <= j < |values| && values[j] == s[|s| - 1];
  }

  lemma EndsBound(s: seq<real>, values: seq<real>, x: real)
    requires Ascending(s) && multiset(s) == multiset(values) && x in values
    ensures s != [] && s[0] <= x <= s[|s| - 1]
  {
    assert x in multiset(s);
    var i :| 0 <= i < |s| && s[i] == x;
  }

  lemma HalfIndex(n: nat)
    requires n > 1
    ensures var k := (n - 1) as real / 2.0;
            && (n % 2 == 1 ==> k == (n / 2) as real && k.Floor == n / 2)
            && (n % 2 == 0 ==> k == (n / 2 - 1) as real + 0.5 && k.Floor == n / 2 - 1)
  {
  }

  /** The interpolated 50th percentile is the median, for odd and even counts. */
  lemma MedianIsP50(values: seq<real>)
    requires values != []
    ensures Percentile(SortReals(values), 50.0) == Some(Median(values))
  {
    var n := |values|;
    if n > 1 {
      IndexIsMonotone(n, 50.0, 50.0);
      HalfIndex(n);
      AtHalf(SortReals(values), (n - 1) as real / 2.0);
    }
  }

  /** At an integer index the value itself, half way the mean of its neighbours. */
  lemma AtHalf(s: seq<real>, k: real)
    requires s != [] && 0.0 <= k <= (|s| - 1) as real
    ensures k == k.Floor as real ==> At(s, k) == s[k.Floor]
    ensures k == k.Floor as real + 0.5 ==> k.Floor + 1 < |s| && At(s, k) == (s[k.Floor] + s[k.Floor + 1]) / 2.0
  {
    FloorCeiling(k);
    if k == k.Floor as real + 0.5 {
      assert Ceiling(k) as real - k == 0.5;
    }
  }

  /** min <= p25 <= p50 == median <= p95 <= max. */
  lemma StatsAreOrdered(values: seq<real>)
    requires values != []
    ensures var r := ComputeStats(values).value;
            r.min <= r.p25 <= r.p50 == r.median <= r.p95 <= r.max
  {
    var s := SortReals(values);
    SortRealsSorts(values);
    LeastIsFirst(values);
    MedianIsP50(values);
    PercentileIsMonotone(s, 25.0, 50.0);
    PercentileIsMonotone(s, 50.0, 95.0);
    PercentileIsMonotone(s, 95.0, 95.0);
  }

  lemma {:induction false} SumIsBetween(values: seq<real>, lo: real, hi: real)
    requires forall i :: 0 <= i < |values| ==> lo <= values[i] <= hi
    ensures Times(|values| as real, lo) <= Sum(values) <= Times(|values| as real, hi)
  {
    if values != [] {
      SumIsBetween(values[1..], lo, hi);
      OneMoreTime(|values|, lo);
      OneMoreTime(|values|, hi);
    }
  }

  lemma OneMoreTime(n: nat, x: real)
    requires n > 0
    ensures Times(n as real, x) == x + Times((n - 1) as real, x)
  {
  }

  lemma QuotientIsBetween(n: real, lo: real, sum: real, hi: real)
    requires n > 0.0 && Times(n, lo) <= sum <= Times(n, hi)
    ensures lo <= sum / n <= hi
  {
    var q := sum / n;
    assert n * q == sum;
    assert n * (q - lo) >= 0.0 && n * (hi - q) >= 0.0;
  }

  lemma MeanIsBetween(values: seq<real>)
    requires values != []
    ensures Least(values) <= Mean(values) <= Greatest(values)
  {
    LeastGreatestBound(values);
    SumIsBetween(values, Least(values), Greatest(values));
    QuotientIsBetween(|values| as real, Least(values), Sum(values), Greatest(values));
  }

  lemma {:induction false} DeviationIsZero(values: seq<real>, mean: real)
    ensures Deviation(values, mean) >= 0.0
    ensures Deviation(values, mean) == 0.0 <==> forall i :: 0 <= i < |values| ==> values[i] == mean
  {
    if values != [] {
      var x, rest := values[0], values[1..];
      DeviationIsZero(rest, mean);
      SquareIsZero(x - mean);
      assert values == [x] + rest;
      assert forall i :: 0 <= i < |rest| ==> rest[i] == values[i + 1];
    }
  }

  lemma SquareIsZero(x: real)
    ensures Square(x) >= 0.0 && (Square(x) == 0.0 <==> x == 0.0)
  {
    if x > 0.0 {
      SmallerRoot(0.0, x);
    } else if x < 0.0 {
      SmallerRoot(0.0, -x);
      SquareOfNegation(x);
    }
  }

  lemma SmallerRoot(x: real, y: real)
    requires 0.0 <= x < y
    ensures Square(x) < Square(y)
  {
    var d, e := y - x, y + x;
    assert d * e > 0.0;
    assert Square(y) == Square(x) + d * e;
  }

  lemma SquareOfNegation(x: real)
    ensures Square(-x) == Square(x)
  {
  }

  /** The mean is never outside the data, and the deviation is 0 exactly for equal values. */
  lemma MeanAndDeviation(values: seq<real>)
    requires values != []
    ensures var r := ComputeStats(values).value;
            && r.min <= r.mean <= r.max && r.variance >= 0.0
            && (r.variance == 0.0 <==> r.min == r.max)
  {
    hide Percentile; hide SortReals; hide Median; hide Deviation; hide Least; hide Greatest; hide Mean;
    MeanIsBetween(values);
    LeastGreatestBound(values);
    var mean := Mean(values);
    DeviationIsZero(values, mean);
    if |values| > 1 {
      QuotientIsZero(Deviation(values, mean), (|values| - 1) as real);
    } else {
      assert values[0] in values;
    }
  }

  lemma QuotientIsZero(x: real, n: real)
    requires x >= 0.0 && n > 0.0
    ensures x / n >= 0.0 && (x / n == 0.0 <==> x == 0.0)
  {
    assert n * (x / n) == x;
  }

  // ---------------------------------------------------------------------------
  // The order of the measurements does not matter
  // ---------------------------------------------------------------------------

  lemma {:induction false} SumOfInsert(x: real, s: seq<real>)
    ensures Sum(Insert(RealLe, x, s)) == x + Sum(s)
  {
    if s != [] {
      if RealLe(x, s[0]) {
        assert ([x] + s)[1..] == s;
      } else {
        SumOfInsert(x, s[1..]);
        assert ([s[0]] + Insert(RealLe, x, s[1..]))[1..] == Insert(RealLe, x, s[1..]);
      }
    } else {
      assert [x][1..] == [];
    }
  }

  lemma {:induction false} SumOfSort(values: seq<real>)
    ensures Sum(SortReals(values)) == Sum(values)
  {
    if values != [] {
      SumOfSort(values[1..]);
      SumOfInsert(values[0], SortReals(values[1..]));
    }
  }

  lemma {:induction false} SortRealsForgetsOrder(a: seq<real>, b: seq<real>)
    requires multiset(a) == multiset(b)
    ensures SortReals(a) == SortReals(b) && |a| == |b| && Sum(a) == Sum(b)
  {
    RealOrder();
    SortForgetsOrder(RealLe, a, b);
    SumOfSort(a);
    SumOfSort(b);
    SameLength(a, b);
  }

  lemma {:induction false} DeviationOfInsert(x: real, s: seq<real>, mean: real)
    ensures Deviation(Insert(RealLe, x, s), mean) == Square(x - mean) + Deviation(s, mean)
  {
    if s == [] {
      assert [x][1..] == [];
    } else if RealLe(x, s[0]) {
      assert ([x] + s)[1..] == s;
    } else {
      DeviationOfInsert(x, s[1..], mean);
      assert ([s[0]] + Insert(RealLe, x, s[1..]))[1..] == Insert(RealLe, x, s[1..]);
    }
  }

  lemma {:induction false} DeviationOfSort(values: seq<real>, mean: real)
    ensures Deviation(SortReals(values), mean) == Deviation(values, mean)
  {
    if values != [] {
      DeviationOfSort(values[1..], mean);
      DeviationOfInsert(values[0], SortReals(values[1..]), mean);
    }
  }

  /** `compute_stats` depends on which values were measured, not on their order. */
  lemma StatsForgetOrder(a: seq<real>, b: seq<real>)
    requires multiset(a) == multiset(b)
    ensures ComputeStats(a) == ComputeStats(b)
  {
    SortRealsForgetsOrder(a, b);
    if a != [] {
      LeastIsFirst(a);
      LeastIsFirst(b);
      DeviationOfSort(a, Mean(a));
      DeviationOfSort(b, Mean(b));
    }
  }

  // ---------------------------------------------------------------------------
  // Scaling: from seconds to milliseconds
  // ---------------------------------------------------------------------------

  function Times(c: real, x: real): real {
    c * x
  }

  function Scale(c: real, values: seq<real>): (r: seq<real>)
    ensures |r| == |values| && forall i :: 0 <= i < |r| ==> r[i] == Times(c, values[i])
  {
    if values == [] then [] else [Times(c, values[0])] + Scale(c, values[1..])
  }

  lemma ScaleOrder(c: real, x: real, y: real)
    requires c > 0.0
    ensures Times(c, x) <= Times(c, y) <==> x <= y
  {
  }

  lemma {:induction false} InsertScales(c: real, x: real, s: seq<real>)
    requires c > 0.0
    ensures Insert(RealLe, Times(c, x), Scale(c, s)) == Scale(c, Insert(RealLe, x, s))
  {
    if s == [] {
      assert [x][1..] == [];
    } else {
      ScaleOrder(c, x, s[0]);
      InsertScales(c, x, s[1..]);
      assert Scale(c, s)[1..] == Scale(c, s[1..]);
      assert ([x] + s)[1..] == s;
      assert ([s[0]] + Insert(RealLe, x, s[1..]))[1..] == Insert(RealLe, x, s[1..]);
    }
  }

  lemma {:induction false} SortScales(c: real, values: seq<real>)
    requires c > 0.0
    ensures SortReals(Scale(c, values)) == Scale(c, SortReals(values))
  {
    if values != [] {
      assert Scale(c, values)[1..] == Scale(c, values[1..]);
      SortScales(c, values[1..]);
      InsertScales(c, values[0], SortReals(values[1..]));
    }
  }

  lemma {:induction false} SumScales(c: real, values: seq<real>)
    ensures Sum(Scale(c, values)) == Times(c, Sum(values))
  {
    if values != [] {
      assert Scale(c, values)[1..] == Scale(c, values[1..]);
      SumScales(c, values[1..]);
    }
  }

  lemma {:induction false} DeviationScales(c: real, values: seq<real>, mean: real)
    ensures Deviation(Scale(c, values), Times(c, mean)) == Times(c * c, Deviation(values, mean))
  {
    if values != [] {
      assert Scale(c, values)[1..] == Scale(c, values[1..]);
      DeviationScales(c, values[1..], mean);
      var d := values[0] - mean;
      assert Times(c, values[0]) - Times(c, mean) == c * d;
      assert Square(c * d) == Times(c * c, Square(d));
    }
  }

  lemma {:induction false} AtScales(c: real, s: seq<real>, k: real)
    requires s != [] && 0.0 <= k <= (|s| - 1) as real
    ensures At(Scale(c, s), k) == Times(c, At(s, k))
  {
    FloorCeiling(k);
    var f := k.Floor;
    if k != f as real {
      var u := k - f as real;
      assert Times(c, s[f]) * (1.0 - u) == c * (s[f] * (1.0 - u));
      assert Times(c, s[f + 1]) * u == c * (s[f + 1] * u);
    }
  }

  lemma {:induction false} PercentileScales(c: real, s: seq<real>, p: real)
    requires s != [] && 0.0 <= p <= 100.0
    ensures Percentile(Scale(c, s), p) == Some(Times(c, Percentile(s, p).value))
  {
    if |s| > 1 {
      AtScales(c, s, Index(|s|, p));
    }
  }

  lemma Quotients(c: real, x: real, n: real)
    requires n > 0.0
    ensures Times(c, x) / n == Times(c, x / n)
  {
  }

  /** Every statistic scaled, the variance by the square; the count stays. */
  function ScaleStats(c: real, r: Stats): Stats {
    Stats(r.count, Times(c, r.mean), Times(c, r.median), Times(c * c, r.variance),
          Times(c, r.p25), Times(c, r.p50), Times(c, r.p95), Times(c, r.min), Times(c, r.max))
  }

  lemma MeanScales(c: real, values: seq<real>)
    requires values != []
    ensures Mean(Scale(c, values)) == Times(c, Mean(values))
    ensures Variance(Scale(c, values)) == Times(c * c, Variance(values))
  {
    SumScales(c, values);
    Quotients(c, Sum(values), |values| as real);
    DeviationScales(c, values, Mean(values));
    if |values| > 1 {
      Quotients(c * c, Deviation(values, Mean(values)), (|values| - 1) as real);
    }
  }

  /** The statistics of scaled values are the scaled statistics. */
  lemma StatsScale(c: real, values: seq<real>)
    requires c > 0.0 && values != []
    ensures ComputeStats(Scale(c, values)) == Some(ScaleStats(c, ComputeStats(values).value))
  {
    var s := SortReals(values);
    SortScales(c, values);
    PercentileScales(c, s, 25.0);
    PercentileScales(c, s, 50.0);
    PercentileScales(c, s, 95.0);
    MedianIsP50(values);
    MedianIsP50(Scale(c, values));
    LeastIsFirst(values);
    LeastIsFirst(Scale(c, values));
    MeanScales(c, values);
  }

  // ---------------------------------------------------------------------------
  // Interpolation
  // ---------------------------------------------------------------------------

  /** From `s[f]` the part `u` of the way to the next value, when there is one. */
  function LineFrom(s: seq<real>, f: nat, u: real): real
    requires f < |s|
  {
    if f + 1 == |s| then s[f] else s[f] + Times(u, s[f + 1] - s[f])
  }

  /** The straight line through two neighbours of the fractional index `k`. */
  function OnLine(s: seq<real>, k: real): real
    requires s != [] && 0.0 <= k <= (|s| - 1) as real
  {
    LineFrom(s, k.Floor, k - k.Floor as real)
  }

  lemma AtIsOnLine(s: seq<real>, k: real)
    requires s != [] && 0.0 <= k <= (|s| - 1) as real
    ensures At(s, k) == OnLine(s, k)
  {
    FloorCeiling(k);
    var f := k.Floor;
    if k != f as real {
      Blend(s[f], s[f + 1], k - f as real);
    }
  }

  lemma Blend(x: real, y: real, u: real)
    ensures x * (1.0 - u) + y * u == x + Times(u, y - x)
  {
  }

  /** Between two neighbours the percentile moves along the straight line through them. */
  lemma PercentileInterpolates(s: seq<real>, p: real)
    requires s != [] && 0.0 <= p <= 100.0
    ensures Index(|s|, p) == (|s| - 1) as real * p / 100.0
    ensures Percentile(s, p) == Some(OnLine(s, Index(|s|, p)))
  {
    hide At; hide OnLine;
    IndexIsFraction(|s|, p);
    AtIsOnLine(s, Index(|s|, p));
    if |s| == 1 { SingleOnLine(s); }
  }

  lemma SingleOnLine(s: seq<real>)
    requires |s| == 1
    ensures OnLine(s, 0.0) == s[0]
  {
  }

  lemma IndexIsFraction(n: nat, p: real)
    requires n > 0 && 0.0 <= p <= 100.0
    ensures Index(n, p) == (n - 1) as real * p / 100.0
  {
    var m := (n - 1) as real;
    assert m * (p / 100.0) == m * p / 100.0;
  }

  function Plus(s: seq<real>, t: seq<real>): (r: seq<real>)
    requires |s| == |t|
    ensures |r| == |s| && forall i :: 0 <= i < |r| ==> r[i] == s[i] + t[i]
  {
    if s == [] then [] else [s[0] + t[0]] + Plus(s[1..], t[1..])
  }

  lemma LinesAddUp(s: seq<real>, t: seq<real>, k: real)
    requires s != [] && |s| == |t| && 0.0 <= k <= (|s| - 1) as real
    ensures OnLine(Plus(s, t), k) == OnLine(s, k) + OnLine(t, k)
  {
    hide Plus; hide LineFrom;
    LinesFromAddUp(s, t, k.Floor, k - k.Floor as real);
  }

  lemma LinesFromAddUp(s: seq<real>, t: seq<real>, f: nat, u: real)
    requires |s| == |t| && f < |s|
    ensures LineFrom(Plus(s, t), f, u) == LineFrom(s, f, u) + LineFrom(t, f, u)
  {
    hide Plus; hide Times;
    if f + 1 < |s| { LineThroughSums(s[f], s[f + 1], t[f], t[f + 1], u); }
  }

  lemma LineThroughSums(x0: real, x1: real, y0: real, y1: real, u: real)
    ensures (x0 + y0) + Times(u, (x1 + y1) - (x0 + y0)) == (x0 + Times(u, x1 - x0)) + (y0 + Times(u, y1 - y0))
  {
    hide Times;
    Distribute(u, x1 - x0, y1 - y0);
    assert (x1 + y1) - (x0 + y0) == (x1 - x0) + (y1 - y0);
  }

  /** Percentiles of lists of one length add up. */
  lemma PercentilesAddUp(s: seq<real>, t: seq<real>, p: real)
    requires s != [] && |s| == |t| && 0.0 <= p <= 100.0
    ensures Percentile(Plus(s, t), p) == Some(Percentile(s, p).value + Percentile(t, p).value)
  {
    hide Percentile; hide Index; hide Plus; hide OnLine;
    PercentileInterpolates(s, p);
    PercentileInterpolates(t, p);
    PercentileInterpolates(Plus(s, t), p);
    LinesAddUp(s, t, Index(|s|, p));
  }

  lemma Distribute(u: real, x: real, y: real)
    ensures Times(u, x + y) == Times(u, x) + Times(u, y)
  {
  }

  /** a, a + b, a + 2b, ... */
  function Progression(a: real, b: real, n: nat): (r: seq<real>)
    ensures |r| == n && forall i :: 0 <= i < n ==> r[i] == a + Times(b, i as real)
  {
    if n == 0 then [] else Progression(a, b, n - 1) + [a + Times(b, (n - 1) as real)]
  }

  /** On an arithmetic progression every percentile is on the line. */
  lemma PercentileOfProgression(a: real, b: real, n: nat, p: real)
    requires n > 0 && 0.0 <= p <= 100.0
    ensures Percentile(Progression(a, b, n), p) == Some(a + Times(b, (n - 1) as real * p / 100.0))
  {
    hide Percentile; hide Progression; hide Index; hide OnLine; hide Times;
    var s := Progression(a, b, n);
    PercentileInterpolates(s, p);
    IndexIsFraction(n, p);
    LineOfProgression(a, b, n, Index(n, p));
    assert Percentile(s, p) == Some(OnLine(s, Index(n, p)));
  }

  lemma LineOfProgression(a: real, b: real, n: nat, k: real)
    requires n > 0 && 0.0 <= k <= (n - 1) as real
    ensures OnLine(Progression(a, b, n), k) == a + Times(b, k)
  {
    hide Progression; hide Times; hide LineFrom;
    var u := k - k.Floor as real;
    LineFromProgression(a, b, n, k.Floor, u);
    assert k.Floor as real + u == k;
  }

  lemma LineFromProgression(a: real, b: real, n: nat, f: nat, u: real)
    requires f < n && (f + 1 == n ==> u == 0.0)
    ensures LineFrom(Progression(a, b, n), f, u) == a + Times(b, f as real + u)
  {
    hide Progression; hide Times;
    if f + 1 < n {
      LineStep(a, b, f as real, f as real + u);
      assert (f + 1) as real == f as real + 1.0 && f as real + u - f as real == u;
    }
  }

  lemma LineStep(a: real, b: real, f: real, k: real)
    ensures (a + Times(b, f)) + Times(k - f, (a + Times(b, f + 1.0)) - (a + Times(b, f))) == a + Times(b, k)
  {
    assert b * (f + 1.0) == b * f + b;
    assert (k - f) * b == b * k - b * f;
  }

  lemma ProgressionIsSorted(a: real, b: real, n: nat, values: seq<real>)
    requires b >= 0.0 && multiset(values) == multiset(Progression(a, b, n))
    ensures SortReals(values) == Progression(a, b, n)
  {
    hide Progression; hide SortReals; hide Times;
    var s := Progression(a, b, n);
    forall i, j | 0 <= i < j < n
      ensures s[i] <= s[j]
    {
      TimesGrows(b, i as real, j as real);
    }
    SortRealsSorts(values);
    RealOrder();
    assert Sorted(RealLe, s) && Sorted(RealLe, SortReals(values));
    SortedIsUnique(RealLe, SortReals(values), s);
  }

  lemma TimesGrows(b: real, x: real, y: real)
    requires b >= 0.0 && x <= y
    ensures Times(b, x) <= Times(b, y)
  {
    assert b * (y - x) >= 0.0;
  }

  lemma {:induction false} SumOfProgression(a: real, b: real, n: nat)
    ensures 2.0 * Sum(Progression(a, b, n)) == Times(n as real, 2.0 * a + Times(b, n as real - 1.0))
  {
    hide Sum; hide Times;
    if n == 0 {
      NoSum(Progression(a, b, n));
      NoTimes(2.0 * a + Times(b, -1.0), 0.0);
    } else {
      var m := (n - 1) as real;
      SumOfProgression(a, b, n - 1);
      SumOfLast(Progression(a, b, n - 1), a + Times(b, m));
      GaussStep(a, b, m);
      assert n as real == m + 1.0;
    }
  }

  lemma NoSum(s: seq<real>)
    requires s == []
    ensures Sum(s) == 0.0
  {
  }

  lemma GaussStep(a: real, b: real, m: real)
    ensures Times(m, 2.0 * a + Times(b, m - 1.0)) + 2.0 * (a + Times(b, m)) == Times(m + 1.0, 2.0 * a + Times(b, m))
  {
  }

  lemma {:induction false} SumOfLast(s: seq<real>, x: real)
    ensures Sum(s + [x]) == Sum(s) + x
  {
    if s == [] {
      assert [] + [x] == [x] && [x][1..] == [];
    } else {
      assert (s + [x])[1..] == s[1..] + [x];
      SumOfLast(s[1..], x);
    }
  }

  /** The statistics of the numbers a, a + b, ..., in any order, as explicit numbers. */
  lemma {:induction false} StatsOfProgression(a: real, b: real, n: nat, values: seq<real>)
    requires n > 0 && b >= 0.0 && multiset(values) == multiset(Progression(a, b, n))
    ensures ComputeStats(values).Some?
    ensures var r, m := ComputeStats(values).value, (n - 1) as real;
            && r.count == n
            && r.mean == a + b * m / 2.0 && r.median == a + b * m / 2.0
            && r.min == a && r.p25 == a + b * m / 4.0 && r.p50 == a + b * m / 2.0
            && r.p95 == a + b * m * 0.95 && r.max == a + b * m
  {
    hide Percentile; hide SortReals; hide Progression; hide Median; hide Least; hide Greatest; hide Variance; hide Sum;
    hide Times;
    var s, m := Progression(a, b, n), (n - 1) as real;
    SameLength(values, s);
    ProgressionIsSorted(a, b, n, values);
    PercentileOfProgression(a, b, n, 25.0);
    PercentileOfProgression(a, b, n, 50.0);
    PercentileOfProgression(a, b, n, 95.0);
    Fractions(b, m);
    MedianIsP50(values);
    LeastIsFirst(values);
    SortRealsForgetsOrder(values, s);
    SumOfProgression(a, b, n);
    MeanOfLine(a, b, n as real, Sum(values));
    assert n as real - 1.0 == m;
  }

  lemma Fractions(b: real, m: real)
    ensures Times(b, m * 25.0 / 100.0) == b * m / 4.0 && Times(b, m * 50.0 / 100.0) == b * m / 2.0
    ensures Times(b, m * 95.0 / 100.0) == b * m * 0.95 && Times(b, m) == b * m && Times(b, 0.0) == 0.0
  {
  }

  lemma MeanOfLine(a: real, b: real, n: real, sum: real)
    requires n > 0.0 && 2.0 * sum == Times(n, 2.0 * a + Times(b, n - 1.0))
    ensures sum / n == a + Times(b, n - 1.0) / 2.0
  {
    var q := a + Times(b, n - 1.0) / 2.0;
    assert n * q == sum;
    assert sum / n == q;
  }

  // ---------------------------------------------------------------------------
  // The variance by pairs
  // ---------------------------------------------------------------------------

  /** Sum of the squares of all differences between an element of `s` and one of `t`. */
  function PairSquares(s: seq<real>, t: seq<real>): real {
    if s == [] then 0.0 else Deviation(t, s[0]) + PairSquares(s[1..], t)
  }

  function SumOfSquares(s: seq<real>): real {
    if s == [] then 0.0 else Square(s[0]) + SumOfSquares(s[1..])
  }

  lemma {:induction false} DeviationExpands(s: seq<real>, y: real)
    ensures Deviation(s, y) == Times(|s| as real, Square(y)) - 2.0 * Times(y, Sum(s)) + SumOfSquares(s)
  {
    hide Times; hide Square;
    if s == [] {
      NoTimes(Square(y), y);
    } else {
      DeviationExpands(s[1..], y);
      SquareOfDifference(s[0], y);
      OneMoreTime(|s|, Square(y));
      Distribute(y, s[0], Sum(s[1..]));
    }
  }

  lemma NoTimes(x: real, y: real)
    ensures Times(0.0, x) == 0.0 && Times(y, 0.0) == 0.0
  {
  }

  lemma SquareOfDifference(x: real, y: real)
    ensures Square(x - y) == Square(x) - 2.0 * Times(y, x) + Square(y)
  {
  }

  lemma TimesCommutes(x: real, y: real)
    ensures Times(x, y) == Times(y, x)
  {
  }

  lemma {:induction false} PairsExpand(s: seq<real>, t: seq<real>)
    ensures PairSquares(s, t)
            == Times(|t| as real, SumOfSquares(s)) - 2.0 * Times(Sum(t), Sum(s)) + Times(|s| as real, SumOfSquares(t))
  {
    hide Times; hide Square; hide Deviation;
    if s == [] {
      NoTimes(SumOfSquares(t), |t| as real);
      NoTimes(SumOfSquares(t), Sum(t));
    } else {
      PairsExpand(s[1..], t);
      DeviationExpands(t, s[0]);
      TimesCommutes(s[0], Sum(t));
      Distribute(|t| as real, Square(s[0]), SumOfSquares(s[1..]));
      Distribute(Sum(t), s[0], Sum(s[1..]));
      OneMoreTime(|s|, SumOfSquares(t));
    }
  }

  lemma VarianceOf(values: seq<real>)
    requires |values| > 1
    ensures ComputeStats(values).Some? && ComputeStats(values).value.variance == Variance(values)
    ensures Variance(values) == Deviation(values, Mean(values)) / (|values| as real - 1.0)
    ensures Mean(values) == Sum(values) / |values| as real
  {
    hide Percentile; hide SortReals; hide Median; hide Least; hide Greatest; hide Deviation; hide Sum;
  }

  /** The sample variance without a mean: n (n - 1) times twice the variance is the sum of the
      squares of all differences of two values. */
  lemma VarianceByPairs(values: seq<real>)
    requires |values| > 1
    ensures var n := |values| as real;
            2.0 * n * (n - 1.0) * ComputeStats(values).value.variance == PairSquares(values, values)
  {
    hide ComputeStats; hide Variance; hide Mean; hide Deviation; hide Sum; hide SumOfSquares; hide PairSquares;
    VarianceOf(values);
    var n, sum, q, mean := |values| as real, Sum(values), SumOfSquares(values), Mean(values);
    PairsExpand(values, values);
    DeviationExpands(values, mean);
    PairAlgebra(n, sum, q, mean, Deviation(values, mean), Variance(values));
  }

  lemma PairAlgebra(n: real, sum: real, q: real, mean: real, deviation: real, variance: real)
    requires n > 1.0 && mean == sum / n && variance == deviation / (n - 1.0)
    requires deviation == Times(n, Square(mean)) - 2.0 * Times(mean, sum) + q
    ensures 2.0 * n * (n - 1.0) * variance == Times(n, q) - 2.0 * Times(sum, sum) + Times(n, q)
  {
    assert n * mean == sum;
    assert (n - 1.0) * variance == deviation;
    assert n * Square(mean) == sum * mean;
    assert n * (sum * mean) == sum * sum;
    assert 2.0 * n * (n - 1.0) * variance == 2.0 * n * deviation;
    assert deviation == q - mean * sum;
  }
}
