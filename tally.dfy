/**
 * The statistics both result stores compute with `filter(...).length` and
 * `reduce`: a count per verdict and the mean confidence
 * (`getResultStats` in src/lib/deepfakeDetector.ts,
 * `getResultStatsFromDatabase` in src/lib/databaseService.ts).
 */
module Tally {
  import opened Types

  /** `s.filter(x => verdictOf(x) === v).length`. */
  function CountVerdict<T>(s: seq<T>, verdictOf: T -> Verdict, v: Verdict): nat {
    if s == [] then 0
    else (if verdictOf(s[0]) == v then 1 else 0) + CountVerdict(s[1..], verdictOf, v)
  }

  /** `s.reduce((acc, x) => acc + confidenceOf(x), 0)`. */
  function SumOf<T>(s: seq<T>, confidenceOf: T -> real): real {
    if s == [] then 0.0 else confidenceOf(s[0]) + SumOf(s[1..], confidenceOf)
  }

  /**
   * The statistics record. The local store calls the fourth field
   * `uncertainResults`, the database layer `uncertainDetected`.
   */
  datatype Stats = Stats(
    totalAnalyzed: nat,
    realDetected: nat,
    fakeDetected: nat,
    uncertain: nat,
    averageConfidence: real)

  function StatsOf<T>(s: seq<T>, verdictOf: T -> Verdict, confidenceOf: T -> real): Stats {
    Stats(
      |s|,
      CountVerdict(s, verdictOf, Real),
      CountVerdict(s, verdictOf, Fake),
      CountVerdict(s, verdictOf, Uncertain),
      if |s| > 0 then SumOf(s, confidenceOf) / |s| as real else 0.0)
  }

  /** Every element has exactly one verdict, so the three counts add up to the total. */
  lemma {:induction false} CountsPartition<T>(s: seq<T>, verdictOf: T -> Verdict)
    ensures CountVerdict(s, verdictOf, Real) + CountVerdict(s, verdictOf, Fake)
          + CountVerdict(s, verdictOf, Uncertain) == |s|
  {
    if s != [] {
      CountsPartition(s[1..], verdictOf);
    }
  }

  /** Confidences within [lo, hi] sum to a value within [n * lo, n * hi]. */
  lemma {:induction false} SumBounds<T>(s: seq<T>, confidenceOf: T -> real, lo: real, hi: real)
    requires forall i :: 0 <= i < |s| ==> lo <= confidenceOf(s[i]) <= hi
    ensures |s| as real * lo <= SumOf(s, confidenceOf) <= |s| as real * hi
  {
    if s != [] {
      assert forall i :: 0 <= i < |s[1..]| ==> s[1..][i] == s[i + 1];
      SumBounds(s[1..], confidenceOf, lo, hi);
    }
  }

  /**
   * The statistics of any list: counts that add up to the total, and an
   * average confidence that is 0 for an empty list and otherwise lies
   * within the bounds of the individual confidences.
   */
  lemma StatsProperties<T>(s: seq<T>, verdictOf: T -> Verdict, confidenceOf: T -> real, lo: real, hi: real)
    requires forall i :: 0 <= i < |s| ==> lo <= confidenceOf(s[i]) <= hi
    ensures var st := StatsOf(s, verdictOf, confidenceOf);
      && st.totalAnalyzed == |s|
      && st.realDetected + st.fakeDetected + st.uncertain == st.totalAnalyzed
      && (s == [] ==> st.averageConfidence == 0.0)
      && (s != [] ==> lo <= st.averageConfidence <= hi)
  {
    CountsPartition(s, verdictOf);
    SumBounds(s, confidenceOf, lo, hi);
    if s != [] {
      MeanBounds(SumOf(s, confidenceOf), |s| as real, lo, hi);
    }
  }

  /** A sum within [n * lo, n * hi] has its mean within [lo, hi]. */
  lemma MeanBounds(sum: real, n: real, lo: real, hi: real)
    requires n > 0.0 && n * lo <= sum <= n * hi
    ensures lo <= sum / n <= hi
  {
    assert sum / n * n == sum;
  }

  /** Adding an element in front adds one to its verdict's count and its confidence to the sum. */
  lemma PrependTally<T>(x: T, s: seq<T>, verdictOf: T -> Verdict, confidenceOf: T -> real, v: Verdict)
    ensures CountVerdict([x] + s, verdictOf, v) == CountVerdict(s, verdictOf, v) + (if verdictOf(x) == v then 1 else 0)
    ensures SumOf([x] + s, confidenceOf) == confidenceOf(x) + SumOf(s, confidenceOf)
  {
    assert ([x] + s)[1..] == s;
  }
}
