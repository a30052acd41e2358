/**
 * `analyzeVideo` (src/lib/deepfakeDetector.ts): load the classifier, extract
 * frames, classify each frame, and turn the outcome into a result, routing
 * every failure to the fallback synthesiser. The classifier, the frame
 * sampler, the random source and the clock are replaced by one record of
 * their outcomes.
 */
module Orchestrator {
  import opened Types
  import opened Scoring
  import opened Fallback

  /**
   * What happened to one frame: the blob conversion or the classifier threw
   * (`Failed`), the classifier returned a falsy value (`NoPrediction`), or it
   * returned a prediction.
   */
  datatype FrameOutcome = Failed | NoPrediction | Prediction

  /**
   * The promise of `extractFrames`: rejected, resolved with one outcome per
   * frame, or never settled. The last happens when the timeout fires after a
   * frame was captured (it then neither revokes nor rejects) and neither a
   * further seek completes nor an error event arrives:
   * `FrameSampler.StallAfterOneFrame`, `FrameSampler.ErrorAfterStall`.
   */
  datatype Extraction = ExtractionFailed | Extracted(frames: seq<FrameOutcome>) | ExtractionPending

  /**
   * Clock readings in milliseconds: the orchestrator's start, the fallback's
   * own start, the reading `detectionTime` is measured at, and the one stored
   * as `timestamp`.
   */
  datatype Clock = Clock(start: int, fallbackStart: int, end: int, stamp: int)

  /**
   * Everything the collaborators of one `analyzeVideo` call decide: whether
   * the classifier loads, how the extraction ends, the random draws and the
   * clock readings.
   */
  datatype Outcome = Outcome(
    modelLoads: bool,
    extraction: Extraction,
    scoreDraw: Draw,
    fallbackDraws: FallbackDraws,
    clock: Clock)

  /** The progress reported after frame `i` of `n`: `50 + floor((i + 1) / n * 40)`. */
  function FrameProgress(i: nat, n: nat): int
    requires i < n
  {
    50 + (i + 1) * 40 / n
  }

  /** The number of predictions pushed while classifying the first `i` frames. */
  function Predictions(frames: seq<FrameOutcome>, i: nat): nat
    requires i <= |frames|
  {
    if i == 0 then 0
    else Predictions(frames, i - 1) + (if frames[i - 1] == Prediction then 1 else 0)
  }

  /** The progress values reported while classifying the first `i` frames. */
  function LoopTrace(frames: seq<FrameOutcome>, i: nat): seq<int>
    requires i <= |frames|
  {
    if i == 0 then []
    else LoopTrace(frames, i - 1) + (if frames[i - 1] != Failed then [FrameProgress(i - 1, |frames|)] else [])
  }

  /** The per-frame loop: classify every frame, count predictions and report progress. */
  method ClassifyFrames(frames: seq<FrameOutcome>) returns (predictions: nat, trace: seq<int>)
    ensures predictions == Predictions(frames, |frames|)
    ensures trace == LoopTrace(frames, |frames|)
    ensures predictions <= |frames|
  {
    predictions, trace := 0, [];
    var i := 0;
    while i < |frames|
      invariant 0 <= i <= |frames|
      invariant predictions == Predictions(frames, i) <= i
      invariant trace == LoopTrace(frames, i)
    {
      match frames[i] {
        case Failed =>
        case NoPrediction =>
          trace := trace + [FrameProgress(i, |frames|)];
        case Prediction =>
          predictions := predictions + 1;
          trace := trace + [FrameProgress(i, |frames|)];
      }
      i := i + 1;
    }
  }

  /** Whether the run ends in the fallback synthesiser. */
  predicate UsesFallback(o: Outcome) {
    || !o.modelLoads
    || o.extraction.ExtractionFailed?
    || (o.extraction.Extracted? &&
        (|o.extraction.frames| == 0 || Predictions(o.extraction.frames, |o.extraction.frames|) == 0))
  }

  /** Whether `await extractFrames(videoFile)` waits forever, so that `analyzeVideo` never returns. */
  predicate Stalls(o: Outcome) {
    o.modelLoads && o.extraction.ExtractionPending?
  }


  /** The result of the model path, built from the score draw and the prediction count. */
  function ModelResult(id: string, filename: string, o: Outcome, predictions: nat): DetectionResult {
    var realScore := ModelRealScore(o.scoreDraw);
    var fakeScore := 1.0 - realScore;
    DetectionResult(
      id, filename, o.clock.stamp,
      realScore, fakeScore,
      Confidence(realScore, fakeScore),
      VerdictOf(realScore, fakeScore),
      ModelFeatures(fakeScore),
      (o.clock.end - o.clock.start) as real / 1000.0,
      Some(ModelInfo(predictions, ModelName)))
  }

  /** A whole `analyzeVideo` call: the progress values reported and the result returned. */
  function AnalyzeVideo(id: string, filename: string, o: Outcome): Call {
    var fallback := MockAnalysis(id, filename, o.fallbackDraws, o.clock.fallbackStart, o.clock.end, o.clock.stamp);
    if !o.modelLoads then
      Call([10, 30] + fallback.trace, fallback.result)
    else match o.extraction
      case ExtractionFailed =>
        Call([10, 30] + fallback.trace, fallback.result)
      case ExtractionPending =>
        Call([10, 30], None)
      case Extracted(frames) =>
        if |frames| == 0 then
          Call([10, 30] + fallback.trace, fallback.result)
        else
          var predictions := Predictions(frames, |frames|);
          var loop := LoopTrace(frames, |frames|);
          if predictions == 0 then
            Call([10, 30, 50] + loop + fallback.trace, fallback.result)
          else
            Call([10, 30, 50] + loop + [90, 100], Some(ModelResult(id, filename, o, predictions)))
  }

  predicate NonDecreasing(s: seq<int>) {
    forall i, j :: 0 <= i < j < |s| ==> s[i] <= s[j]
  }

  predicate AllBetween(s: seq<int>, lo: int, hi: int) {
    forall i :: 0 <= i < |s| ==> lo <= s[i] <= hi
  }

  lemma {:induction false} MulMonotone(n: nat, x: int, y: int)
    requires x <= y
    ensures n * x <= n * y
  {
    if n > 0 {
      MulMonotone(n - 1, x, y);
      assert n * x == (n - 1) * x + x;
      assert n * y == (n - 1) * y + y;
    }
  }

  lemma MulCancel(n: nat, x: int, y: int)
    requires n > 0 && n * x < n * y
    ensures x < y
  {
    if x >= y {
      MulMonotone(n, y, x);
    }
  }

  lemma DivMonotone(a: nat, b: nat, n: nat)
    requires a <= b && n > 0
    ensures a / n <= b / n
  {
    var qa, qb := a / n, b / n;
    assert n * qa <= a;
    assert b < n * qb + n == n * (qb + 1);
    MulCancel(n, qa, qb + 1);
  }

  /** Frame progress lies in [50, 90] and grows with the frame index. */
  lemma FrameProgressBounds(i: nat, j: nat, n: nat)
    requires i <= j < n
    ensures 50 <= FrameProgress(i, n) <= FrameProgress(j, n) <= 90
  {
    DivMonotone((i + 1) * 40, (j + 1) * 40, n);
    DivMonotone((j + 1) * 40, n * 40, n);
    assert n * 40 / n == 40;
  }

  /** The per-frame progress values are non-decreasing, lie in [50, 90], one per completed frame. */
  lemma {:induction false} LoopTraceShape(frames: seq<FrameOutcome>, i: nat)
    requires i <= |frames|
    ensures NonDecreasing(LoopTrace(frames, i))
    ensures AllBetween(LoopTrace(frames, i), 50, 90)
    ensures i > 0 ==> forall k :: 0 <= k < |LoopTrace(frames, i)| ==>
      LoopTrace(frames, i)[k] <= FrameProgress(i - 1, |frames|)
    ensures |LoopTrace(frames, i)| <= i
  {
    if i > 0 {
      LoopTraceShape(frames, i - 1);
      var prev := LoopTrace(frames, i - 1);
      FrameProgressBounds(i - 1, i - 1, |frames|);
      if i > 1 {
        FrameProgressBounds(i - 2, i - 1, |frames|);
      }
    }
  }

  /** At most one prediction per frame. */
  lemma {:induction false} PredictionsBounded(frames: seq<FrameOutcome>, i: nat)
    requires i <= |frames|
    ensures Predictions(frames, i) <= i
  {
    if i > 0 {
      PredictionsBounded(frames, i - 1);
    }
  }

  /**
   * The call returns exactly when the extraction settles. Every failure
   * point routes to the fallback, whose result the caller gets unchanged;
   * otherwise the result records how many predictions were made, at least
   * one and at most one per frame.
   */
  lemma AnalyzeRouting(id: string, filename: string, o: Outcome)
    ensures AnalyzeVideo(id, filename, o).result.None? <==> Stalls(o)
    ensures !(Stalls(o) && UsesFallback(o))
    ensures var r := AnalyzeVideo(id, filename, o).result;
      r.Some? ==> (r.value.metadata == Some(FallbackInfo(true, FallbackReason)) <==> UsesFallback(o))
    ensures UsesFallback(o) ==>
      (AnalyzeVideo(id, filename, o).result
       == MockAnalysis(id, filename, o.fallbackDraws, o.clock.fallbackStart, o.clock.end, o.clock.stamp).result)
    ensures !UsesFallback(o) && !Stalls(o) ==>
      var n := |o.extraction.frames|;
      var r := AnalyzeVideo(id, filename, o).result;
      && r.Some?
      && r.value.metadata == Some(ModelInfo(Predictions(o.extraction.frames, n), ModelName))
      && 0 < Predictions(o.extraction.frames, n) <= n
      && r.value.detectionTime == (o.clock.end - o.clock.start) as real / 1000.0
    ensures var r := AnalyzeVideo(id, filename, o).result;
      r.Some? ==> r.value.id == id && r.value.filename == filename
  {
    if !UsesFallback(o) && !Stalls(o) {
      PredictionsBounded(o.extraction.frames, |o.extraction.frames|);
    }
  }

  /** Whatever result the call returns satisfies the invariants of a `DetectionResult`. */
  lemma AnalyzeWellFormed(id: string, filename: string, o: Outcome)
    ensures var r := AnalyzeVideo(id, filename, o).result;
      r.Some? ==> WellFormed(r.value)
  {
    if Stalls(o) {
    } else if !UsesFallback(o) {
      ModelVerdict(o.scoreDraw);
    } else {
      var r := AnalyzeVideo(id, filename, o).result.value;
      BucketRanges(o.fallbackDraws.bucket, o.fallbackDraws.score);
      assert r.features.AllIn(0.0, 100.0);
    }
  }

  /** On the model path the verdict is never `fake`; it is `uncertain` exactly when the real score is below 0.625. */
  lemma ModelPathVerdict(id: string, filename: string, o: Outcome)
    requires !UsesFallback(o) && !Stalls(o)
    ensures AnalyzeVideo(id, filename, o).result.Some?
    ensures AnalyzeVideo(id, filename, o).result.value.verdict != Fake
    ensures AnalyzeVideo(id, filename, o).result.value.verdict == Uncertain
        <==> AnalyzeVideo(id, filename, o).result.value.realScore < 0.625
    ensures 0.6 <= AnalyzeVideo(id, filename, o).result.value.realScore < 0.9
  {
    ModelVerdict(o.scoreDraw);
  }

  /**
   * Every value reported lies in [0, 100], and the last one is 100 exactly
   * when the extraction settles: a stalled extraction leaves progress at 30
   * for good. The trace is non-decreasing exactly off the fallback paths:
   * the fallback starts its own trace again at 10 after the orchestrator
   * has reported 30.
   */
  lemma AnalyzeTrace(id: string, filename: string, o: Outcome)
    ensures var t := AnalyzeVideo(id, filename, o).trace;
      |t| > 0 && AllBetween(t, 0, 100) && (t[|t| - 1] == 100 <==> !Stalls(o))
    ensures Stalls(o) ==> AnalyzeVideo(id, filename, o).trace == [10, 30]
    ensures NonDecreasing(AnalyzeVideo(id, filename, o).trace) <==> !UsesFallback(o)
  {
    if Stalls(o) {
    } else if o.modelLoads && o.extraction.Extracted? && |o.extraction.frames| > 0 {
      var frames := o.extraction.frames;
      var loop := LoopTrace(frames, |frames|);
      LoopTraceShape(frames, |frames|);
      if UsesFallback(o) {
        FallbackTraceShape([10, 30, 50] + loop);
      } else {
        ModelTraceShape(loop);
      }
    } else {
      FallbackTraceShape([10, 30]);
    }
  }

  /** The model path's trace around a per-frame trace in [50, 90]. */
  lemma ModelTraceShape(loop: seq<int>)
    requires NonDecreasing(loop) && AllBetween(loop, 50, 90)
    ensures var t := [10, 30, 50] + loop + [90, 100];
      NonDecreasing(t) && AllBetween(t, 0, 100) && t[|t| - 1] == 100
  {
    var t := [10, 30, 50] + loop + [90, 100];
    forall i, j | 0 <= i < j < |t| ensures t[i] <= t[j] {
      if i >= 3 && j < 3 + |loop| {
        assert t[i] == loop[i - 3] && t[j] == loop[j - 3];
      } else if i >= 3 && i < 3 + |loop| {
        assert t[i] == loop[i - 3];
      } else if i < 3 && 3 <= j < 3 + |loop| {
        assert t[j] == loop[j - 3];
      }
    }
    forall i | 0 <= i < |t| ensures 0 <= t[i] <= 100 {
      if 3 <= i < 3 + |loop| {
        assert t[i] == loop[i - 3];
      }
    }
  }

  /** A trace that reported 30 before the fallback's own trace starts at 10 again. */
  lemma FallbackTraceShape(prefix: seq<int>)
    requires |prefix| >= 2 && prefix[1] == 30 && AllBetween(prefix, 0, 100)
    ensures var t := prefix + FallbackTrace;
      !NonDecreasing(t) && AllBetween(t, 0, 100) && t[|t| - 1] == 100
  {
    var t := prefix + FallbackTrace;
    assert t[1] == 30 && t[|prefix|] == 10;
    forall i | 0 <= i < |t| ensures 0 <= t[i] <= 100 {
      if i >= |prefix| {
        assert t[i] == FallbackTrace[i - |prefix|];
      }
    }
  }

  /** A classifier that fails to load: progress reaches 30, then the fallback runs its own trace. */
  lemma LoadFailureScenario(id: string, filename: string, o: Outcome)
    requires !o.modelLoads
    ensures AnalyzeVideo(id, filename, o).trace == [10, 30, 10, 30, 50, 75, 95, 100]
    ensures AnalyzeVideo(id, filename, o).result.Some?
    ensures AnalyzeVideo(id, filename, o).result.value.metadata == Some(FallbackInfo(true, FallbackReason))
    ensures AnalyzeVideo(id, filename, o).result.value.detectionTime
         == (o.clock.end - o.clock.fallbackStart) as real / 1000.0
  {
  }
}
