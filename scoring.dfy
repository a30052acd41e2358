/**
 * The score algebra of the detector: confidence, the verdict rule, and the
 * model path's scores and feature projection (src/lib/deepfakeDetector.ts).
 */
module Scoring {
  import opened Types

  function Abs(x: real): real {
    if x < 0.0 then -x else x
  }

  function Min(a: real, b: real): real {
    if a <= b then a else b
  }

  /** `Math.min(100, Math.abs(realScore - fakeScore) * 200)`. */
  function Confidence(realScore: real, fakeScore: real): (c: real)
    ensures 0.0 <= c <= 100.0
    ensures c == 100.0 <==> Abs(realScore - fakeScore) >= 0.5
  {
    Min(100.0, Abs(realScore - fakeScore) * 200.0)
  }

  /** The verdict rule shared by the model path and the fallback. */
  function VerdictOf(realScore: real, fakeScore: real): Verdict {
    if Confidence(realScore, fakeScore) < 50.0 then Uncertain
    else if realScore > fakeScore then Real
    else Fake
  }

  /**
   * For complementary scores the verdict depends on the real score alone:
   * `real` from 0.625 up, `fake` up to 0.375, `uncertain` strictly between.
   */
  lemma ComplementaryVerdict(realScore: real)
    ensures VerdictOf(realScore, 1.0 - realScore) == Real <==> realScore >= 0.625
    ensures VerdictOf(realScore, 1.0 - realScore) == Fake <==> realScore <= 0.375
    ensures VerdictOf(realScore, 1.0 - realScore) == Uncertain <==> 0.375 < realScore < 0.625
  {
    var c := Confidence(realScore, 1.0 - realScore);
    if realScore >= 0.5 {
      assert Abs(realScore - (1.0 - realScore)) == 2.0 * realScore - 1.0;
      assert c < 50.0 <==> realScore < 0.625;
    } else {
      assert Abs(realScore - (1.0 - realScore)) == 1.0 - 2.0 * realScore;
      assert c < 50.0 <==> realScore > 0.375;
    }
  }

  /** Swapping the two scores swaps `real` and `fake` and keeps `uncertain`. */
  lemma VerdictSwap(realScore: real, fakeScore: real)
    ensures VerdictOf(realScore, fakeScore) == Real <==> VerdictOf(fakeScore, realScore) == Fake
    ensures VerdictOf(realScore, fakeScore) == Uncertain <==> VerdictOf(fakeScore, realScore) == Uncertain
  {
  }

  /** `realScore = 0.6 + Math.random() * 0.3` on the model path. */
  function ModelRealScore(r: Draw): (s: real)
    ensures 0.6 <= s < 0.9
  {
    0.6 + r * 0.3
  }

  /**
   * On the model path the verdict is never `fake`, and it is `uncertain`
   * exactly when the real score is below 0.625, i.e. when the draw is below 1/12.
   */
  lemma ModelVerdict(r: Draw)
    ensures VerdictOf(ModelRealScore(r), 1.0 - ModelRealScore(r)) != Fake
    ensures VerdictOf(ModelRealScore(r), 1.0 - ModelRealScore(r)) == Uncertain <==> ModelRealScore(r) < 0.625
    ensures ModelRealScore(r) < 0.625 <==> r < 1.0 / 12.0
    ensures Confidence(ModelRealScore(r), 1.0 - ModelRealScore(r)) >= 40.0
  {
    var s := ModelRealScore(r);
    ComplementaryVerdict(s);
    assert Abs(s - (1.0 - s)) == 2.0 * s - 1.0;
  }

  /** The weights multiplying the fake score, one per feature key. */
  const FeatureWeights: seq<real> := [120.0, 110.0, 130.0, 100.0, 120.0]

  /** The model path's features: `Math.min(100, fakeScore * w)` per key. */
  function ModelFeatures(fakeScore: real): (f: Features)
    ensures forall i :: 0 <= i < 5 ==> f.Values()[i] <= 100.0
    ensures fakeScore >= 0.0 ==> f.AllIn(0.0, 100.0)
  {
    Features(
      Min(100.0, fakeScore * FeatureWeights[0]),
      Min(100.0, fakeScore * FeatureWeights[1]),
      Min(100.0, fakeScore * FeatureWeights[2]),
      Min(100.0, fakeScore * FeatureWeights[3]),
      Min(100.0, fakeScore * FeatureWeights[4]))
  }

  /** A higher fake score never lowers any feature. */
  lemma ModelFeaturesMonotone(a: real, b: real)
    requires a <= b
    ensures forall i :: 0 <= i < 5 ==> ModelFeatures(a).Values()[i] <= ModelFeatures(b).Values()[i]
  {
  }

  /**
   * The invariants every `DetectionResult` is meant to satisfy: complementary
   * scores in [0, 1], confidence and verdict given by the shared rule, and
   * every feature in [0, 100].
   */
  predicate WellFormed(r: DetectionResult) {
    && 0.0 <= r.realScore <= 1.0
    && r.realScore + r.fakeScore == 1.0
    && r.confidence == Confidence(r.realScore, r.fakeScore)
    && r.verdict == VerdictOf(r.realScore, r.fakeScore)
    && r.features.AllIn(0.0, 100.0)
  }
}
