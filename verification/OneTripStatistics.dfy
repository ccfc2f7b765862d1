/**
 The trimmed statistics of CalculateOneTripDuration, over the reals and on the variance (the program
 reports its square root). The first and the last sample are dropped, but the divisor still counts
 them: with n samples, m and v the mean and the population variance of the n - 2 in the middle, the
 program computes m * (n - 2) / n and ((n - 2) / n) * (v + d * d), where d = 2 * m / n.
 */
module OneTripStatistics {
  /** `variance` is the square of the standard deviation. */
  datatype Statistics = Statistics(average: real, variance: real)

  /** A failed AKCHECK stops the program. With exactly one sample it passes the check and then hands
      std::accumulate a range whose end lies before its beginning, which C++ leaves undefined. */
  datatype Outcome = Computed(value: Statistics) | Stopped | Undefined

  function Sum(s: seq<real>): real {
    if s == [] then 0.0 else Sum(s[..|s| - 1]) + s[|s| - 1]
  }

  function Squares(s: seq<real>, a: real): (r: seq<real>)
    ensures |r| == |s|
  {
    seq(|s|, i requires 0 <= i < |s| => (s[i] - a) * (s[i] - a))
  }

  /** The sum of squared deviations from a. */
  function Deviations(s: seq<real>, a: real): real {
    Sum(Squares(s, a))
  }

  /** m is the mean of k samples. */
  predicate IsMean(s: seq<real>, k: real, m: real) {
    k == |s| as real && k * m == Sum(s)
  }

  /** v is their population variance. */
  predicate IsVariance(s: seq<real>, k: real, m: real, v: real) {
    IsMean(s, k, m) && k * v == Deviations(s, m)
  }

  /** All samples but the first and the last. */
  function Middle(s: seq<real>): seq<real>
    requires |s| >= 2
  {
    s[1..|s| - 1]
  }

  lemma MiddleIs(s: seq<real>)
    requires |s| >= 2
    ensures |Middle(s)| == |s| - 2
    ensures forall i :: 0 <= i < |s| - 2 ==> Middle(s)[i] == s[i + 1]
  {
  }

  lemma {:induction false} SumFirst(x: real, s: seq<real>)
    ensures Sum([x] + s) == x + Sum(s)
    decreases |s|
  {
    if s != [] {
      assert ([x] + s)[..|s|] == [x] + s[..|s| - 1];
      SumFirst(x, s[..|s| - 1]);
    } else {
      assert ([x] + s)[..0] == [];
    }
  }

  /** The middle sums to what all samples sum to, less the first and the last. */
  lemma SumOfMiddleIs(s: seq<real>)
    requires |s| >= 2
    ensures Sum(Middle(s)) == Sum(s) - s[0] - s[|s| - 1]
  {
    SumOfEnds(s[0], Middle(s), s[|s| - 1]);
    BetweenEnds(s);
  }

  lemma BetweenEnds<T>(s: seq<T>)
    requires |s| >= 2
    ensures [s[0]] + s[1..|s| - 1] + [s[|s| - 1]] == s
  {
  }

  lemma SumOfEnds(x: real, middle: seq<real>, y: real)
    ensures Sum([x] + middle + [y]) == x + Sum(middle) + y
  {
    SumFirst(x, middle);
    SumOneMore([x] + middle, y);
  }

  // ---------------------------------------------------------------- the program

  /** What the program makes of the samples it keeps, when it has n in all. */
  function Report(middle: seq<real>, n: real): Statistics
    requires n > 0.0
  {
    var average := Sum(middle) / n;
    Statistics(average, Deviations(middle, average) / n)
  }

  method CalculateOneTripDuration(durations: array<real>) returns (r: Outcome)
    ensures r.Stopped? <==> durations.Length == 0
    ensures r.Undefined? <==> durations.Length == 1
    ensures durations.Length >= 2 ==> r == Computed(Report(Middle(durations[..]), durations.Length as real))
    ensures durations.Length >= 2 ==>
      r.value.average * (durations.Length as real)
      == Sum(durations[..]) - durations[0] - durations[durations.Length - 1]
  {
    if durations.Length < 1 {
      return Stopped;
    }
    var n := durations.Length;
    if n - 1 < 1 {
      return Undefined;
    }
    var sum := SumOfMiddle(durations);
    var average := sum / (n as real);
    SumOfMiddleIs(durations[..]);
    QuotientBack(average, n as real, sum);
    var deviations := DeviationsOfMiddle(durations, average);
    return Computed(Statistics(average, deviations / (n as real)));
  }

  method SumOfMiddle(durations: array<real>) returns (sum: real)
    requires durations.Length >= 2
    ensures sum == Sum(Middle(durations[..]))
  {
    ghost var middle := Middle(durations[..]);
    sum := 0.0;
    for i := 1 to durations.Length - 1
      invariant sum == Sum(middle[..i - 1])
    {
      Grow(middle, i - 1, durations[i], 0.0);
      sum := sum + durations[i];
    }
    assert middle[..durations.Length - 2] == middle;
  }

  method DeviationsOfMiddle(durations: array<real>, average: real) returns (deviations: real)
    requires durations.Length >= 2
    ensures deviations == Deviations(Middle(durations[..]), average)
  {
    ghost var middle := Middle(durations[..]);
    deviations := 0.0;
    for i := 1 to durations.Length - 1
      invariant deviations == Deviations(middle[..i - 1], average)
    {
      Grow(middle, i - 1, durations[i], average);
      deviations := deviations + (durations[i] - average) * (durations[i] - average);
    }
    assert middle[..durations.Length - 2] == middle;
  }

  lemma Grow(s: seq<real>, i: nat, x: real, a: real)
    requires i < |s| && x == s[i]
    ensures Sum(s[..i + 1]) == Sum(s[..i]) + x
    ensures Deviations(s[..i + 1], a) == Deviations(s[..i], a) + (x - a) * (x - a)
  {
    SumOneMore(s[..i], x);
    assert s[..i + 1] == s[..i] + [x];
    SquaresOneMore(s[..i], x, a);
    SumOneMore(Squares(s[..i], a), (x - a) * (x - a));
  }

  lemma SquaresOneMore(s: seq<real>, x: real, a: real)
    ensures Squares(s + [x], a) == Squares(s, a) + [(x - a) * (x - a)]
  {
    forall i | 0 <= i < |s|
      ensures Squares(s + [x], a)[i] == Squares(s, a)[i]
    {
      assert (s + [x])[i] == s[i];
    }
    assert Squares(s + [x], a)[|s|] == (x - a) * (x - a);
  }

  lemma SumOneMore(s: seq<real>, x: real)
    ensures Sum(s + [x]) == Sum(s) + x
  {
    assert (s + [x])[..|s|] == s;
  }

  // ---------------------------------------------------------------- why

  lemma Square(x: real, m: real, d: real)
    ensures (x - (m - d)) * (x - (m - d)) == (x - m) * (x - m) + (2.0 * d * (x - m) + d * d)
  {
  }

  lemma Distribute(c: real, a: real, b: real)
    ensures c * (a + b) == c * a + c * b
  {
  }

  lemma OneMore(k: real, c: real)
    ensures (k + 1.0) * c == k * c + c
  {
  }

  /** Sums of sequences add up element by element. */
  lemma {:induction false} SumOfSums(u: seq<real>, v: seq<real>, w: seq<real>)
    requires |u| == |v| == |w| && forall i :: 0 <= i < |u| ==> u[i] == v[i] + w[i]
    ensures Sum(u) == Sum(v) + Sum(w)
  {
    if u != [] {
      var n := |u| - 1;
      SumOfSums(u[..n], v[..n], w[..n]);
    }
  }

  /** What each square gains when the centre moves. */
  function Gains(s: seq<real>, m: real, c: real, e: real): (r: seq<real>)
    ensures |r| == |s|
  {
    seq(|s|, i requires 0 <= i < |s| => c * (s[i] - m) + e)
  }

  /** How much the squares grow when their centre moves from m to a = m - d. */
  lemma Shift(s: seq<real>, m: real, a: real, d: real, c: real, e: real)
    requires a == m - d && c == 2.0 * d && e == d * d
    ensures Deviations(s, a) == Deviations(s, m) + Sum(Gains(s, m, c, e))
  {
    forall i | 0 <= i < |s|
      ensures Squares(s, a)[i] == Squares(s, m)[i] + Gains(s, m, c, e)[i]
    {
      Square(s[i], m, d);
    }
    SumOfSums(Squares(s, a), Squares(s, m), Gains(s, m, c, e));
  }

  lemma GainOfOneMore(k: real, sum: real, x: real, m: real, c: real, e: real)
    ensures c * (sum + x - (k + 1.0) * m) + (k + 1.0) * e == c * (sum - k * m) + k * e + (c * (x - m) + e)
  {
    OneMore(k, m);
    OneMore(k, e);
    assert sum + x - (k + 1.0) * m == (sum - k * m) + (x - m);
    Distribute(c, sum - k * m, x - m);
  }

  lemma GainsOneMore(s: seq<real>, x: real, m: real, c: real, e: real)
    ensures Gains(s + [x], m, c, e) == Gains(s, m, c, e) + [c * (x - m) + e]
  {
    forall i | 0 <= i < |s|
      ensures Gains(s + [x], m, c, e)[i] == Gains(s, m, c, e)[i]
    {
      assert (s + [x])[i] == s[i];
    }
    assert Gains(s + [x], m, c, e)[|s|] == c * (x - m) + e;
  }

  lemma NoGains(m: real, c: real, e: real)
    ensures c * (0.0 - 0.0 * m) + 0.0 * e == 0.0
  {
  }

  lemma {:induction false} SumOfGains(s: seq<real>, k: real, m: real, c: real, e: real)
    requires k == |s| as real
    ensures Sum(Gains(s, m, c, e)) == c * (Sum(s) - k * m) + k * e
  {
    if s == [] {
      NoGains(m, c, e);
    } else {
      var front, x := s[..|s| - 1], s[|s| - 1];
      assert s == front + [x];
      SumOfGains(front, k - 1.0, m, c, e);
      GainsGrow(front, k - 1.0, k, x, m, c, e);
    }
  }

  lemma GainsGrow(front: seq<real>, k: real, k': real, x: real, m: real, c: real, e: real)
    requires k' == k + 1.0
    requires Sum(Gains(front, m, c, e)) == c * (Sum(front) - k * m) + k * e
    ensures Sum(Gains(front + [x], m, c, e)) == c * (Sum(front + [x]) - k' * m) + k' * e
  {
    SumOneMore(front, x);
    SumOneMore(Gains(front, m, c, e), c * (x - m) + e);
    GainsOneMore(front, x, m, c, e);
    GainOfOneMore(k, Sum(front), x, m, c, e);
  }

  lemma GainsAroundMean(s: seq<real>, k: real, m: real, c: real, e: real)
    requires IsMean(s, k, m)
    ensures Sum(Gains(s, m, c, e)) == k * e
  {
    SumOfGains(s, k, m, c, e);
    assert Sum(s) - k * m == 0.0;
  }

  /** Around their own mean the mixed term vanishes. */
  lemma AroundMean(s: seq<real>, k: real, m: real, a: real, d: real, c: real, e: real)
    requires IsMean(s, k, m) && a == m - d && c == 2.0 * d && e == d * d
    ensures Deviations(s, a) == Deviations(s, m) + k * e
  {
    Shift(s, m, a, d, c, e);
    GainsAroundMean(s, k, m, c, e);
  }

  lemma QuotientIs(q: real, k: real, x: real)
    requires k > 0.0 && q * k == x
    ensures q == x / k
  {
  }

  lemma QuotientBack(q: real, k: real, x: real)
    requires k > 0.0 && q == x / k
    ensures q * k == x
  {
  }

  lemma QuotientTimes(k: real, n: real, w: real)
    requires n > 0.0
    ensures k * w / n == k / n * w
  {
    var q := k / n;
    assert q * n == k;
    assert (q * w) * n == (q * n) * w;
    QuotientIs(q * w, n, k * w);
  }

  /** The average, and how far it is from the mean. */
  lemma AverageFormula(k: real, n: real, sum: real, m: real, d: real)
    requires k > 0.0 && n == k + 2.0 && k * m == sum && d * n == 2.0 * m
    ensures sum / n == m - d == m * (n - 2.0) / n
  {
    assert (m - d) * n == m * n - 2.0 * m == m * (n - 2.0) == sum;
    QuotientIs(m - d, n, sum);
    QuotientIs(m - d, n, m * (n - 2.0));
  }

  lemma VarianceFormula(k: real, n: real, deviations: real, v: real, q: real)
    requires k > 0.0 && n == k + 2.0 && k * v == deviations
    ensures (deviations + k * q) / n == (n - 2.0) / n * (v + q)
  {
    Distribute(k, v, q);
    QuotientTimes(k, n, v + q);
  }

  /** The squares around the average that the program uses. */
  lemma AroundAverage(middle: seq<real>, k: real, n: real, m: real, d: real, e: real)
    requires IsMean(middle, k, m) && k > 0.0 && n == k + 2.0 && d * n == 2.0 * m && e == d * d
    ensures Deviations(middle, Sum(middle) / n) == Deviations(middle, m) + k * e
  {
    AverageFormula(k, n, Sum(middle), m, d);
    AroundMean(middle, k, m, Sum(middle) / n, d, 2.0 * d, e);
  }

  lemma TrimmedVariance(middle: seq<real>, k: real, n: real, m: real, v: real, d: real, e: real)
    requires IsVariance(middle, k, m, v) && k > 0.0 && n == k + 2.0 && d * n == 2.0 * m && e == d * d
    ensures Deviations(middle, Sum(middle) / n) / n == (n - 2.0) / n * (v + e)
  {
    AroundAverage(middle, k, n, m, d, e);
    VarianceFormula(k, n, Deviations(middle, m), v, e);
  }

  /** The average and the variance that come out, for any number of samples from three on: the average
      is off by d = 2 * m / n, and e = d * d goes into the variance. */
  lemma Trimmed(durations: seq<real>, k: real, n: real, m: real, v: real, d: real, e: real)
    requires |durations| >= 3 && n == |durations| as real && k == n - 2.0
    requires IsVariance(Middle(durations), k, m, v) && d * n == 2.0 * m && e == d * d
    ensures Report(Middle(durations), n) == Statistics(m * (n - 2.0) / n, (n - 2.0) / n * (v + e))
  {
    AverageFormula(k, n, Sum(Middle(durations)), m, d);
    TrimmedVariance(Middle(durations), k, n, m, v, d, e);
  }

  /** Every non-empty list of samples has a mean and a variance. */
  lemma MeanExists(s: seq<real>) returns (m: real, v: real)
    requires s != []
    ensures IsVariance(s, |s| as real, m, v)
  {
    m := Sum(s) / (|s| as real);
    v := Deviations(s, m) / (|s| as real);
  }

  /** The comment in the source speaks of the average of the filtered durations. That is what comes
      out if and only if they sum to zero. */
  lemma AverageIsMeanIff(durations: seq<real>, k: real, n: real, m: real)
    requires |durations| >= 3 && n == |durations| as real && k == n - 2.0
    requires IsMean(Middle(durations), k, m)
    ensures Report(Middle(durations), n).average == m <==> Sum(Middle(durations)) == 0.0
  {
    var sum := Sum(Middle(durations));
    var a := sum / n;
    assert a * n == sum == n * m - 2.0 * m;
    if a == m {
      assert m == 0.0;
    }
  }

  lemma {:induction false} SumPositive(s: seq<real>)
    requires forall i :: 0 <= i < |s| ==> s[i] > 0.0
    ensures s != [] ==> Sum(s) > 0.0
  {
    if |s| > 1 {
      SumPositive(s[..|s| - 1]);
    }
  }

  /** Of positive durations the reported average is too small, by the factor (n - 2) / n. */
  lemma AverageTooSmall(durations: seq<real>, k: real, n: real, m: real)
    requires |durations| >= 3 && n == |durations| as real && k == n - 2.0
    requires IsMean(Middle(durations), k, m)
    requires forall i :: 0 <= i < |durations| ==> durations[i] > 0.0
    ensures 0.0 < Report(Middle(durations), n).average < m
    ensures Report(Middle(durations), n).average * n == m * k
  {
    SumPositive(Middle(durations));
    var a := Sum(Middle(durations)) / n;
    assert a * n == k * m && k * m > 0.0;
    SmallerFactor(a, m, k, n);
  }

  lemma SmallerFactor(a: real, m: real, k: real, n: real)
    requires 0.0 < k < n && a * n == k * m && k * m > 0.0
    ensures 0.0 < a < m
  {
    assert m > 0.0;
    assert a > 0.0;
    assert m * k < m * n;
  }

  /** Of 4, 1 and 7 only the 1 is kept; the average is a third and the variance 4/27. */
  lemma ThreeSamples()
    ensures Report(Middle([4.0, 1.0, 7.0]), 3.0) == Statistics(1.0 / 3.0, 4.0 / 27.0)
  {
    var a := 1.0 / 3.0;
    assert Middle([4.0, 1.0, 7.0]) == [1.0];
    SumOne(1.0);
    assert Squares([1.0], a) == [(1.0 - a) * (1.0 - a)];
    SumOne((1.0 - a) * (1.0 - a));
  }

  lemma SumOne(x: real)
    ensures Sum([x]) == x
  {
    SumOneMore([], x);
    assert [] + [x] == [x];
  }

  /** Three equal samples for which the comment is wrong. */
  lemma AverageDiffers() returns (durations: seq<real>, m: real)
    ensures durations == [1.0, 1.0, 1.0] && IsMean(Middle(durations), 1.0, m)
    ensures Report(Middle(durations), 3.0).average != m
  {
    durations := [1.0, 1.0, 1.0];
    assert Middle(durations) == [1.0];
    var v;
    m, v := MeanExists(Middle(durations));
    AverageIsMeanIff(durations, 1.0, 3.0, m);
  }
}
