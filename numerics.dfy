/** Sums, means and trailing windows over real-valued columns, and the
    `Indicator` values that stand for the composite indicator `s`. */
module Numerics {

  /** A value of the composite indicator `s`: a real number, or `Singular`
      where the master equation divided by a zero raw count. */
  datatype Indicator = Defined(value: real) | Singular

  /** Python's `min([a, b])`: the first element unless the second is smaller. */
  function Min(a: real, b: real): (m: real)
    ensures m <= a && m <= b
    ensures m == a || m == b
  {
    if b < a then b else a
  }

  function Max(a: real, b: real): (m: real)
    ensures a <= m && b <= m
    ensures m == a || m == b
  {
    if a < b then b else a
  }

  /** Sum of a column, peeling the last entry. */
  function Sum(xs: seq<real>): real
    decreases |xs|
  {
    if |xs| == 0 then 0.0 else Sum(xs[..|xs| - 1]) + xs[|xs| - 1]
  }

  function Mean(xs: seq<real>): real
    requires |xs| > 0
  {
    Sum(xs) / (|xs| as real)
  }

  /** First index of the window of at most seven entries that ends at `i`
      (pandas `rolling(7, min_periods=1)`: the window only grows to seven). */
  function WindowStart(i: nat): nat
  {
    if i < 6 then 0 else i - 6
  }

  /** Mean of the trailing window of at most seven entries ending at `i`. */
  function TrailingMean(xs: seq<real>, i: nat): real
    requires i < |xs|
  {
    Mean(xs[WindowStart(i)..i + 1])
  }

  /** The rolling 7-day mean column (pandas `rolling(7, min_periods=1).mean()`):
      entry i times the window's length is the difference of the prefix sums
      up to i and before the window's start. */
  function RollingMeans(xs: seq<real>): (r: seq<real>)
    ensures |r| == |xs|
    ensures forall i :: 0 <= i < |xs| ==> r[i] == TrailingMean(xs, i)
    ensures forall i :: 0 <= i < |xs| ==>
              r[i] * ((i + 1 - WindowStart(i)) as real) == Sum(xs[..i + 1]) - Sum(xs[..WindowStart(i)])
  {
    TrailingMeansPrefix(xs);
    seq(|xs|, i requires 0 <= i < |xs| => TrailingMean(xs, i))
  }

  /** Every trailing mean, in terms of prefix sums. */
  lemma TrailingMeansPrefix(xs: seq<real>)
    ensures forall i :: 0 <= i < |xs| ==>
              TrailingMean(xs, i) * ((i + 1 - WindowStart(i)) as real) == Sum(xs[..i + 1]) - Sum(xs[..WindowStart(i)])
  {
    forall i | 0 <= i < |xs|
      ensures TrailingMean(xs, i) * ((i + 1 - WindowStart(i)) as real) == Sum(xs[..i + 1]) - Sum(xs[..WindowStart(i)])
    {
      TrailingMeanPrefix(xs, i);
    }
  }

  lemma TrailingMeanPrefix(xs: seq<real>, i: nat)
    requires i < |xs|
    ensures TrailingMean(xs, i) * ((i + 1 - WindowStart(i)) as real) == Sum(xs[..i + 1]) - Sum(xs[..WindowStart(i)])
  {
    var lo := WindowStart(i);
    PrefixSplit(xs, lo, i + 1);
    ScaledQuotient(TrailingMean(xs, i), Sum(xs[..i + 1]), Sum(xs[..lo]), Sum(xs[lo..i + 1]), (i + 1 - lo) as real);
  }

  /** A prefix sum is the sum of a shorter prefix plus the slice between. */
  lemma PrefixSplit(xs: seq<real>, lo: nat, hi: nat)
    requires lo <= hi <= |xs|
    ensures Sum(xs[..hi]) == Sum(xs[..lo]) + Sum(xs[lo..hi])
  {
    assert xs[..lo] + xs[lo..hi] == xs[..hi];
    SumAppend(xs[..lo], xs[lo..hi]);
  }

  /** If m = c / n and a = b + c, then m n = a - b. */
  lemma ScaledQuotient(m: real, a: real, b: real, c: real, n: real)
    requires 0.0 < n && m == c / n && a == b + c
    ensures m * n == a - b
  {
  }

  /** The real parts of a column of indicators (0 stands in for `Singular`). */
  function Reals(xs: seq<Indicator>): (r: seq<real>)
    ensures |r| == |xs|
    ensures forall i :: 0 <= i < |xs| && xs[i].Defined? ==> r[i] == xs[i].value
  {
    seq(|xs|, i requires 0 <= i < |xs| => if xs[i].Defined? then xs[i].value else 0.0)
  }

  predicate AllDefined(xs: seq<Indicator>)
  {
    forall i :: 0 <= i < |xs| ==> xs[i].Defined?
  }

  /** Sum of a column of indicators: singular as soon as one entry is. */
  function SumInd(xs: seq<Indicator>): (r: Indicator)
    ensures r.Defined? <==> AllDefined(xs)
    ensures r.Defined? ==> r.value == Sum(Reals(xs))
    decreases |xs|
  {
    if |xs| == 0 then Defined(0.0)
    else
      var front := SumInd(xs[..|xs| - 1]);
      assert Reals(xs)[..|xs| - 1] == Reals(xs[..|xs| - 1]);
      assert AllDefined(xs) ==> AllDefined(xs[..|xs| - 1]);
      if front.Defined? && xs[|xs| - 1].Defined? then Defined(front.value + xs[|xs| - 1].value)
      else Singular
  }

  /** Mean of a column of indicators (numpy's `mean` propagates nan and inf). */
  function MeanInd(xs: seq<Indicator>): (r: Indicator)
    requires |xs| > 0
    ensures r.Defined? <==> AllDefined(xs)
    ensures r.Defined? ==> r.value == Mean(Reals(xs))
  {
    var total := SumInd(xs);
    if total.Defined? then Defined(total.value / (|xs| as real)) else Singular
  }

  function TrailingMeanInd(xs: seq<Indicator>, i: nat): Indicator
    requires i < |xs|
  {
    MeanInd(xs[WindowStart(i)..i + 1])
  }

  /** Summing a concatenation sums its parts. */
  lemma {:induction false} SumAppend(a: seq<real>, b: seq<real>)
    ensures Sum(a + b) == Sum(a) + Sum(b)
    decreases |b|
  {
    if |b| > 0 {
      var b' := b[..|b| - 1];
      assert (a + b)[..|a + b| - 1] == a + b';
      SumAppend(a, b');
    } else {
      assert a + b == a;
    }
  }

  /** A sum of n entries that are all at least lo is at least n * lo. */
  lemma {:induction false} SumLower(xs: seq<real>, lo: real)
    requires forall i :: 0 <= i < |xs| ==> lo <= xs[i]
    ensures (|xs| as real) * lo <= Sum(xs)
    decreases |xs|
  {
    if |xs| > 0 {
      var front := xs[..|xs| - 1];
      SumLower(front, lo);
      assert (|xs| as real) * lo == (|front| as real) * lo + lo;
    }
  }

  /** A sum of n entries that are all at most hi is at most n * hi. */
  lemma {:induction false} SumUpper(xs: seq<real>, hi: real)
    requires forall i :: 0 <= i < |xs| ==> xs[i] <= hi
    ensures Sum(xs) <= (|xs| as real) * hi
    decreases |xs|
  {
    if |xs| > 0 {
      var front := xs[..|xs| - 1];
      SumUpper(front, hi);
      assert (|xs| as real) * hi == (|front| as real) * hi + hi;
    }
  }

  /** A mean of entries that are all at least lo is at least lo. */
  lemma MeanLower(xs: seq<real>, lo: real)
    requires |xs| > 0
    requires forall i :: 0 <= i < |xs| ==> lo <= xs[i]
    ensures lo <= Mean(xs)
  {
    SumLower(xs, lo);
    assert Mean(xs) * (|xs| as real) == Sum(xs);
  }

  /** A mean of entries that are all at most hi is at most hi. */
  lemma MeanUpper(xs: seq<real>, hi: real)
    requires |xs| > 0
    requires forall i :: 0 <= i < |xs| ==> xs[i] <= hi
    ensures Mean(xs) <= hi
  {
    SumUpper(xs, hi);
    assert Mean(xs) * (|xs| as real) == Sum(xs);
  }

  /** A mean of entries that all lie in [lo, hi] lies in [lo, hi]. */
  lemma MeanBounds(xs: seq<real>, lo: real, hi: real)
    requires |xs| > 0
    requires forall i :: 0 <= i < |xs| ==> lo <= xs[i] <= hi
    ensures lo <= Mean(xs) <= hi
  {
    MeanLower(xs, lo);
    MeanUpper(xs, hi);
  }

  /** The trailing mean of a column stays within the column's bounds. */
  lemma TrailingMeanBounds(xs: seq<real>, i: nat, lo: real, hi: real)
    requires i < |xs|
    requires forall j :: 0 <= j < |xs| ==> lo <= xs[j] <= hi
    ensures lo <= TrailingMean(xs, i) <= hi
  {
    var w := xs[WindowStart(i)..i + 1];
    assert forall j :: 0 <= j < |w| ==> w[j] == xs[WindowStart(i) + j];
    MeanBounds(w, lo, hi);
  }

  /** The trailing mean of a column whose entries are at least lo is at least lo. */
  lemma TrailingMeanLower(xs: seq<real>, i: nat, lo: real)
    requires i < |xs|
    requires forall j :: 0 <= j < |xs| ==> lo <= xs[j]
    ensures lo <= TrailingMean(xs, i)
  {
    var w := xs[WindowStart(i)..i + 1];
    assert forall j :: 0 <= j < |w| ==> w[j] == xs[WindowStart(i) + j];
    MeanLower(w, lo);
  }
}
