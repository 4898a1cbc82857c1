/**
 What the truncated average does to the master's spread (mirror_server.cpp:236-242): it is
 never less than the true sum of squared deviations, and exceeds it by less than the number of
 files.  All is stated without division, times the number of files.
 */
module SpreadBound {
  import opened Folds
  import opened MirrorModel

  function Squares(xs: seq<int>): int {
    Total(xs, (x: int) => x * x)
  }

  /** `n * sum (x - S/n)^2`, the exact one, is `n * sum x^2 - S^2`. */
  function ExactTimesN(xs: seq<int>): int {
    |xs| * Squares(xs) - Sum(xs) * Sum(xs)
  }

  lemma {:induction false} DeviationExpands(xs: seq<int>, a: int)
    ensures Deviation(xs, a) == Squares(xs) - 2 * a * Sum(xs) + |xs| * a * a
  {
    if xs != [] {
      var k := |xs| - 1;
      var x := xs[k];
      DeviationExpands(xs[..k], a);
      Expand(Squares(xs[..k]), Sum(xs[..k]), k, x, a);
    }
  }

  lemma Expand(q: int, s: int, k: int, x: int, a: int)
    ensures q - 2 * a * s + k * a * a + (x - a) * (x - a) == (q + x * x) - 2 * a * (s + x) + (k + 1) * a * a
  {
  }

  /** The master's loop over the sizes (mirror_server.cpp:238-242). */
  method SumSpread(spread: seq<int>, avg: int) returns (actual: int)
    ensures actual == Deviation(spread, avg)
    ensures actual == Squares(spread) - 2 * avg * Sum(spread) + |spread| * avg * avg
  {
    actual := 0;
    for i := 0 to |spread|
      invariant actual == Deviation(spread[..i], avg)
    {
      assert spread[..i + 1][..i] == spread[..i];
      actual := actual + (spread[i] - avg) * (spread[i] - avg);
    }
    assert spread[..|spread|] == spread;
    DeviationExpands(spread, avg);
  }

  /** The remainder of the average. */
  function Remainder(xs: seq<int>): int
    requires xs != []
  {
    Sum(xs) - |xs| * Truncate(Sum(xs), |xs|)
  }

  lemma SpreadTimesN(xs: seq<int>)
    requires xs != []
    ensures |xs| * Deviation(xs, Truncate(Sum(xs), |xs|)) == ExactTimesN(xs) + Remainder(xs) * Remainder(xs)
  {
    var avg := Truncate(Sum(xs), |xs|);
    var r := Remainder(xs);
    assert r == Sum(xs) - |xs| * avg;
    hide *;
    DeviationExpands(xs, avg);
    Arithmetic(|xs|, Squares(xs), Sum(xs), avg, r);
    ExactIs(xs);
  }

  /**
   The spread that the report sends, against the exact one: too much by `r^2 / n`, where `r` is the
   average's remainder.
   */
  lemma SpreadIsClose(xs: seq<int>, files: int, bytes: int)
    requires files == |xs| > 0 && bytes == Sum(xs) >= 0
    ensures var t := MakeReport(files, bytes, xs).deviation;
            var r := Remainder(xs);
            && 0 <= r < files
            && files * t == ExactTimesN(xs) + r * r
            && ExactTimesN(xs) <= files * t < ExactTimesN(xs) + files * files
  {
    assert MakeReport(files, bytes, xs).deviation == Deviation(xs, Truncate(bytes, files));
    assert 0 <= Remainder(xs) < files;
    hide *;
    SpreadTimesN(xs);
    SquareLess(Remainder(xs), files);
  }

  lemma ExactIs(xs: seq<int>)
    ensures ExactTimesN(xs) == |xs| * Squares(xs) - Sum(xs) * Sum(xs)
  {
  }

  lemma Arithmetic(n: int, q: int, s: int, a: int, r: int)
    requires r == s - n * a
    ensures n * (q - 2 * a * s + n * a * a) == n * q - s * s + r * r
  {
    assert r * r == s * s - 2 * (n * a) * s + (n * a) * (n * a);
  }

  lemma SquareLess(r: int, n: int)
    requires 0 <= r < n
    ensures 0 <= r * r < n * n
  {
  }
}
