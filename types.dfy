/** Value types shared by the detection pipeline, the result stores and the pages. */
module Types {

  datatype Option<+T> = None | Some(value: T)

  /** A value returned by `Math.random()`: a real number in [0, 1). */
  type Draw = r: real | 0.0 <= r < 1.0 witness 0.0

  datatype Verdict = Real | Fake | Uncertain

  /** The five feature-anomaly scores of a result, each meant to lie in [0, 100]. */
  datatype Features = Features(
    faceInconsistencies: real,
    audioVisualSync: real,
    textureAnomalies: real,
    unnaturalEyeBlinking: real,
    unnaturalMovements: real)
  {
    /** The feature values in the order the result object lists its keys. */
    function Values(): (vs: seq<real>)
      ensures |vs| == 5
    {
      [faceInconsistencies, audioVisualSync, textureAnomalies, unnaturalEyeBlinking, unnaturalMovements]
    }

    predicate AllIn(lo: real, hi: real) {
      forall i :: 0 <= i < 5 ==> lo <= Values()[i] <= hi
    }

    predicate AllInHalfOpen(lo: real, hi: real) {
      forall i :: 0 <= i < 5 ==> lo <= Values()[i] < hi
    }
  }

  /** The feature keys of a result, in declaration order. */
  const FeatureKeys: seq<string> :=
    ["faceInconsistencies", "audioVisualSync", "textureAnomalies", "unnaturalEyeBlinking", "unnaturalMovements"]

  /**
   * The free-form `metadata` record. The detector writes one of two shapes;
   * `Empty` is the `{}` the database layer substitutes for a missing one.
   */
  datatype Metadata =
    | Empty
    | ModelInfo(predictionsCount: nat, modelUsed: string)
    | FallbackInfo(fallbackMode: bool, reason: string)

  const ModelName: string := "huggingface-transformers"
  const FallbackReason: string := "Model prediction failed"

  datatype DetectionResult = DetectionResult(
    id: string,
    filename: string,
    timestamp: int,
    realScore: real,
    fakeScore: real,
    confidence: real,
    verdict: Verdict,
    features: Features,
    detectionTime: real,
    metadata: Option<Metadata>)

  /**
   * One analysis call as the caller sees it: the progress values reported,
   * then the result its promise resolves with, or `None` when it never settles.
   */
  datatype Call = Call(trace: seq<int>, result: Option<DetectionResult>)

  /** The parts of a browser `File` the application looks at. */
  datatype VideoFile = VideoFile(name: string, mimeType: string, size: nat)

  /** A signed-in user as the auth context exposes it. */
  datatype User = User(id: string)
}
