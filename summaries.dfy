/** The arithmetic every summary of the backend shares: accuracy as
    correct/total, the mean of a list of response times, and the
    recommendation chosen by the fixed thresholds 0.8 and 0.6. */
module Summaries {

  /** `correct / total if total > 0 else 0`. */
  function Accuracy(correct: nat, total: nat): (r: real)
    ensures total == 0 ==> r == 0.0
    ensures total > 0 ==> r * total as real == correct as real
    ensures correct <= total ==> 0.0 <= r <= 1.0
  {
    if total > 0 then correct as real / total as real else 0.0
  }

  /** `sum(xs)` over response times. */
  function Sum(xs: seq<real>): (r: real)
    ensures (forall i :: 0 <= i < |xs| ==> xs[i] >= 0.0) ==> r >= 0.0
  {
    if xs == [] then 0.0 else Sum(xs[..|xs| - 1]) + xs[|xs| - 1]
  }

  /** The arithmetic mean, 0 for an empty list. */
  function Mean(xs: seq<real>): (r: real)
    ensures xs != [] ==> r * |xs| as real == Sum(xs)
    ensures xs == [] ==> r == 0.0
  {
    if xs == [] then 0.0 else Sum(xs) / |xs| as real
  }

  /** Every element in [lo, hi] puts the sum in [lo * n, hi * n]. */
  lemma {:induction false} SumBounds(xs: seq<real>, lo: real, hi: real)
    requires forall i :: 0 <= i < |xs| ==> lo <= xs[i] <= hi
    ensures lo * |xs| as real <= Sum(xs) <= hi * |xs| as real
  {
    if xs != [] {
      var n := |xs| - 1;
      var prefix := xs[..n];
      assert forall i :: 0 <= i < |prefix| ==> prefix[i] == xs[i];
      SumBounds(prefix, lo, hi);
      assert Sum(xs) == Sum(prefix) + xs[n];
      assert lo * |xs| as real == lo * n as real + lo;
      assert hi * |xs| as real == hi * n as real + hi;
    }
  }

  /** The mean of times that all lie in [lo, hi] lies in [lo, hi] too. */
  lemma MeanBounds(xs: seq<real>, lo: real, hi: real)
    requires xs != []
    requires forall i :: 0 <= i < |xs| ==> lo <= xs[i] <= hi
    ensures lo <= Mean(xs) <= hi
  {
    SumBounds(xs, lo, hi);
    QuotientBounds(Mean(xs), |xs| as real, lo, hi, Sum(xs));
  }

  /** Bounds on `m * n` for a positive `n` divide down to bounds on `m`. */
  lemma QuotientBounds(m: real, n: real, lo: real, hi: real, total: real)
    requires n > 0.0 && m * n == total
    requires lo * n <= total <= hi * n
    ensures lo <= m <= hi
  {
    ScaleStrict(lo, m, n);
    ScaleStrict(m, hi, n);
  }

  datatype Recommendation = Excellent | GoodProgress | Fundamentals

  /** The recommendation for an accuracy: above 0.8, above 0.6, or otherwise. */
  function Recommend(accuracy: real): (r: Recommendation)
    ensures r == Excellent <==> accuracy > 0.8
    ensures r == GoodProgress <==> 0.6 < accuracy <= 0.8
    ensures r == Fundamentals <==> accuracy <= 0.6
  {
    if accuracy > 0.8 then Excellent
    else if accuracy > 0.6 then GoodProgress
    else Fundamentals
  }

  /** The text returned for each recommendation. Each text opens with its own
      headline, so the three never coincide. */
  function Message(r: Recommendation): (m: string)
    ensures r == Excellent <==> |m| >= 10 && m[..10] == "Excellent!"
    ensures r == GoodProgress <==> |m| >= 14 && m[..14] == "Good progress!"
    ensures r == Fundamentals <==> |m| >= 8 && m[..8] == "Consider"
  {
    match r
    case Excellent =>
      var m := "Excellent!" + " You're ready for more challenging problems!";
      assert m[0] == 'E';
      m
    case GoodProgress =>
      var m := "Good progress!" + " Keep practicing to improve consistency.";
      assert m[0] == 'G';
      m
    case Fundamentals =>
      var m := "Consider" + " focusing on fundamental concepts. You'll get better with practice!";
      assert m[0] == 'C';
      m
  }

  /** The thresholds as integer inequalities on the counts:
      accuracy > 0.8 iff 5 * correct > 4 * total, accuracy > 0.6 iff 5 * correct > 3 * total. */
  lemma RecommendByCounts(correct: nat, total: nat)
    requires total > 0
    ensures Recommend(Accuracy(correct, total)) == Excellent <==> 5 * correct > 4 * total
    ensures Recommend(Accuracy(correct, total)) == GoodProgress <==> 3 * total < 5 * correct <= 4 * total
    ensures Recommend(Accuracy(correct, total)) == Fundamentals <==> 5 * correct <= 3 * total
  {
    var c, t := correct as real, total as real;
    RatioAbove(c, t, 0.8);
    RatioAbove(c, t, 0.6);
    assert Accuracy(correct, total) == c / t;
  }

  /** `c / t > k` compared without the division. */
  lemma RatioAbove(c: real, t: real, k: real)
    requires t > 0.0
    ensures c / t > k <==> c > k * t
  {
    ScaleStrict(c / t, k, t);
    assert (c / t) * t == c;
  }

  /** Scaling by a positive factor keeps a strict comparison. */
  lemma ScaleStrict(x: real, y: real, t: real)
    requires t > 0.0
    ensures x > y <==> x * t > y * t
  {
    assert x * t - y * t == (x - y) * t;
    if x > y {
      assert (x - y) * t > 0.0;
    } else {
      assert (y - x) * t >= 0.0;
    }
  }

  /** Exactly 4 of 5 correct is "Good progress": the 0.8 bound is exclusive. */
  lemma FourOfFiveIsGoodProgress()
    ensures Recommend(Accuracy(4, 5)) == GoodProgress
  {
    RecommendByCounts(4, 5);
  }
}
