/**
 * The fallback synthesiser `performBalancedMockAnalysis`
 * (src/lib/deepfakeDetector.ts): one draw picks an outcome bucket, one more
 * sets its score, and five more set the feature values.
 */
module Fallback {
  import opened Types
  import opened Scoring

  /** The seven `Math.random()` values the fallback consumes, in call order. */
  datatype FallbackDraws = FallbackDraws(
    bucket: Draw, score: Draw,
    face: Draw, sync: Draw, texture: Draw, blinking: Draw, movements: Draw)

  /** The scores and the hard-coded verdict of one bucket. */
  datatype Scores = Scores(realScore: real, fakeScore: real, verdict: Verdict)

  /** The progress values the fallback reports, in order. */
  const FallbackTrace: seq<int> := [10, 30, 50, 75, 95, 100]

  function BucketScores(u: Draw, s: Draw): Scores {
    if u < 0.6 then
      var realScore := 0.7 + s * 0.3;
      Scores(realScore, 1.0 - realScore, Real)
    else if u < 0.9 then
      var fakeScore := 0.7 + s * 0.3;
      Scores(1.0 - fakeScore, fakeScore, Fake)
    else
      var realScore := 0.4 + s * 0.2;
      Scores(realScore, 1.0 - realScore, Uncertain)
  }

  /** The three buckets, their score ranges, and the complementary score. */
  lemma BucketRanges(u: Draw, s: Draw)
    ensures BucketScores(u, s).realScore + BucketScores(u, s).fakeScore == 1.0
    ensures u < 0.6 ==>
      BucketScores(u, s).verdict == Real && 0.7 <= BucketScores(u, s).realScore < 1.0
    ensures 0.6 <= u < 0.9 ==>
      BucketScores(u, s).verdict == Fake && 0.7 <= BucketScores(u, s).fakeScore < 1.0
    ensures 0.9 <= u ==>
      BucketScores(u, s).verdict == Uncertain && 0.4 <= BucketScores(u, s).realScore < 0.6
  {
  }

  /**
   * The hard-coded verdict of every bucket is the one the general verdict
   * rule gives for the drawn scores, with confidence at least 80 in the
   * `real` and `fake` buckets and at most 40 in the `uncertain` one (exactly
   * 40 when the score draw is 0).
   */
  lemma BucketVerdictAgrees(u: Draw, s: Draw)
    ensures BucketScores(u, s).verdict
         == VerdictOf(BucketScores(u, s).realScore, BucketScores(u, s).fakeScore)
    ensures BucketScores(u, s).verdict != Uncertain ==>
      Confidence(BucketScores(u, s).realScore, BucketScores(u, s).fakeScore) >= 80.0
    ensures BucketScores(u, s).verdict == Uncertain ==>
      Confidence(BucketScores(u, s).realScore, BucketScores(u, s).fakeScore) <= 40.0
  {
    var sc := BucketScores(u, s);
    var r := sc.realScore;
    assert sc.fakeScore == 1.0 - r;
    ComplementaryVerdict(r);
    if r >= 0.5 {
      assert Abs(r - (1.0 - r)) == 2.0 * r - 1.0;
    } else {
      assert Abs(r - (1.0 - r)) == 1.0 - 2.0 * r;
    }
  }

  /** One feature value: `Math.random() * 30` for `real`, else `60 + Math.random() * 40`. */
  function FeatureValue(verdict: Verdict, d: Draw): real {
    if verdict == Real then d * 30.0 else 60.0 + d * 40.0
  }

  function FallbackFeatures(verdict: Verdict, draws: FallbackDraws): (f: Features)
    ensures verdict == Real ==> f.AllInHalfOpen(0.0, 30.0)
    ensures verdict != Real ==> f.AllInHalfOpen(60.0, 100.0)
  {
    Features(
      FeatureValue(verdict, draws.face),
      FeatureValue(verdict, draws.sync),
      FeatureValue(verdict, draws.texture),
      FeatureValue(verdict, draws.blinking),
      FeatureValue(verdict, draws.movements))
  }

  /**
   * The whole fallback run. `start`, `end` and `stamp` are the three clock
   * readings the fallback takes itself (milliseconds since the epoch).
   */
  function MockAnalysis(id: string, filename: string, draws: FallbackDraws,
                        start: int, end: int, stamp: int): (run: Call)
    ensures run.trace == FallbackTrace
    ensures run.result.Some?
    ensures run.result.value.realScore + run.result.value.fakeScore == 1.0
    ensures run.result.value.confidence == Confidence(run.result.value.realScore, run.result.value.fakeScore)
    ensures run.result.value.verdict == VerdictOf(run.result.value.realScore, run.result.value.fakeScore)
    ensures run.result.value.verdict == Real ==> run.result.value.features.AllInHalfOpen(0.0, 30.0)
    ensures run.result.value.verdict != Real ==> run.result.value.features.AllInHalfOpen(60.0, 100.0)
    ensures run.result.value.metadata == Some(FallbackInfo(true, FallbackReason))
    ensures run.result.value.detectionTime == (end - start) as real / 1000.0
    ensures run.result.value.id == id && run.result.value.filename == filename && run.result.value.timestamp == stamp
  {
    var sc := BucketScores(draws.bucket, draws.score);
    BucketRanges(draws.bucket, draws.score);
    BucketVerdictAgrees(draws.bucket, draws.score);
    Call(FallbackTrace,
        Some(DetectionResult(
          id, filename, stamp,
          sc.realScore, sc.fakeScore,
          Confidence(sc.realScore, sc.fakeScore),
          sc.verdict,
          FallbackFeatures(sc.verdict, draws),
          (end - start) as real / 1000.0,
          Some(FallbackInfo(true, FallbackReason)))))
  }

  /** Fixed draws covering the three buckets give the bucket's verdict. */
  lemma BucketExamples(s: Draw)
    ensures BucketScores(0.1, s).verdict == Real
    ensures BucketScores(0.7, s).verdict == Fake
    ensures BucketScores(0.95, s).verdict == Uncertain
  {
  }
}
