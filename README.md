# Deepfake detection pipeline: a Dafny model

This project models the core of a browser application that takes a user's
video and returns a verdict: `real`, `fake` or `uncertain`. Each verdict comes
with a confidence in [0, 100] and five feature-anomaly scores. The model
covers these parts:

- **Detection pipeline** (`src/lib/deepfakeDetector.ts`):
  - the frame sampler `extractFrames`, as an event-driven class
    (`frame_sampler.dfy`);
  - the orchestrator `analyzeVideo`, as a function over the outcomes of its
    collaborators, with its per-frame loop as a method (`orchestrator.dfy`);
  - the score algebra: confidence, the verdict rule and the feature
    projection (`scoring.dfy`);
  - the fallback synthesiser `performBalancedMockAnalysis` (`fallback.dfy`);
  - the local result store and its statistics (`result_store.dfy`,
    `tally.dfy`).
- **Database layer** (`src/lib/databaseService.ts`): the row mapping, the
  filtered and ordered query, deletion by owner and the statistics, over an
  abstract table (`database.dfy`).
- **Detect page** (`src/pages/Detect.tsx`): its state fields and handlers, the
  verdict text and the progress-message bands (`detect_page.dfy`).
- **Upload widget** (`src/components/VideoUploader.tsx`): the file validator,
  the drag state and `clearVideo` (`video_uploader.dfy`).
- **Result detail page** (`src/pages/ResultDetail.tsx`): the not-found rule,
  the feature status bands and the feature label transform
  (`result_detail.dfy`).
- **Header** (`src/components/Header.tsx`): the links shown and the
  active-link rule (`header.dfy`).

Scores are Dafny `real`s, so `1 - x` is exact. Every `Math.random()` value is
a parameter of type `Draw`, a real in [0, 1). Clock readings, result ids and
object URLs are parameters too. The classifier is an oracle that reports, per
frame, a failure, a falsy answer or a prediction. The browser's video element
is replaced by the events its handlers receive.

Three behaviours of the code that a caller may not expect; the model follows
the code:

- The progress trace is not always non-decreasing. When the fallback starts
  after 30 has been reported, it starts its own trace again at 10.
  `Orchestrator.AnalyzeTrace` proves this happens exactly on the fallback
  paths.
- On a fallback, `detectionTime` is measured from the fallback's own start,
  not from the start of the whole run (`Orchestrator.LoadFailureScenario`).
- The frame extraction's timeout rejects only when no frame has been captured.
  If a seek then never completes and no error event arrives, the extraction
  never settles:
  `analyzeVideo` stops at progress 30 and never returns, and the Detect page
  stays in its analysing state (`FrameSampler.StallAfterOneFrame`,
  `Orchestrator.AnalyzeTrace`, `DetectPage.Page.HandleAnalyze`).

## Model

| member | source | states |
|---|---|---|
| `Scoring.VerdictOf` | src/lib/deepfakeDetector.ts:207-213 | the verdict rule: `uncertain` below confidence 50, else the larger score wins; its properties are proved in `Scoring.ComplementaryVerdict` and `Scoring.VerdictSwap` |
| `Scoring.Confidence` | src/lib/deepfakeDetector.ts:203-205 | confidence lies in [0, 100] and is 100 exactly when the scores differ by at least 0.5 |
| `Scoring.ComplementaryVerdict` | src/lib/deepfakeDetector.ts:204-213 | for complementary scores the verdict is `real` iff realScore ≥ 0.625, `fake` iff realScore ≤ 0.375, and `uncertain` strictly between |
| `Scoring.VerdictSwap` | src/lib/deepfakeDetector.ts:207-213 | swapping distinct scores swaps `real` and `fake` and keeps `uncertain` |
| `Scoring.ModelRealScore` | src/lib/deepfakeDetector.ts:200 | the model path's real score lies in [0.6, 0.9) for every draw |
| `Scoring.ModelVerdict` | src/lib/deepfakeDetector.ts:200-213 | on the model path the verdict is never `fake`; it is `uncertain` iff realScore < 0.625, i.e. iff the draw is below 1/12; confidence is at least 40 |
| `Scoring.ModelFeatures` | src/lib/deepfakeDetector.ts:216-222 | every feature is at most 100, and lies in [0, 100] for a non-negative fake score |
| `Scoring.ModelFeaturesMonotone` | src/lib/deepfakeDetector.ts:216-222 | a higher fake score never lowers any of the five features |
| `Fallback.BucketScores` | src/lib/deepfakeDetector.ts:299-317 | the fallback's three score buckets; `Fallback.BucketRanges` and `Fallback.BucketVerdictAgrees` state their ranges and verdicts |
| `Fallback.BucketRanges` | src/lib/deepfakeDetector.ts:299-317 | u < 0.6 gives `real` with realScore in [0.7, 1); 0.6 ≤ u < 0.9 gives `fake` with fakeScore in [0.7, 1); otherwise `uncertain` with realScore in [0.4, 0.6); the scores sum to 1 |
| `Fallback.BucketVerdictAgrees` | src/lib/deepfakeDetector.ts:299-319 | the hard-coded verdict equals the general verdict rule on the drawn scores; confidence is ≥ 80 in the `real` and `fake` buckets and ≤ 40 in the `uncertain` one |
| `Fallback.FallbackFeatures` | src/lib/deepfakeDetector.ts:322-343 | features lie in [0, 30) for `real` and in [60, 100) otherwise, `uncertain` included |
| `Fallback.MockAnalysis` | src/lib/deepfakeDetector.ts:272-364 | the fallback reports 10, 30, 50, 75, 95, 100; its result is consistent with the verdict rule, carries `{fallbackMode: true, reason: "Model prediction failed"}`, and times itself from its own start |
| `Fallback.BucketExamples` | src/lib/deepfakeDetector.ts:302-317 | draws 0.1, 0.7 and 0.95 select `real`, `fake` and `uncertain` |
| `FrameSampler.Sampler.constructor` | src/lib/deepfakeDetector.ts:37-41 | a fresh sampler is pending, with no frames, time 0 and the URL not revoked |
| `FrameSampler.Sampler.OnLoadedMetadata` | src/lib/deepfakeDetector.ts:43-74 | metadata fixes the step duration / numFrames, resets the counter and seeks to 0 |
| `FrameSampler.Sampler.OnSeeked` | src/lib/deepfakeDetector.ts:47-70 | without a 2-D context the promise rejects and the URL stays unrevoked; otherwise the frame at the current time is captured, and the sampler seeks one step on until numFrames frames exist, then revokes the URL and resolves |
| `FrameSampler.Sampler.CaptureFrame` | src/lib/deepfakeDetector.ts:56-69 | with a context, the frame at the current time is pushed and counted; below numFrames the sampler seeks one step on, at numFrames it revokes the URL and resolves a pending promise with the frames |
| `FrameSampler.OffsetIsProduct` | src/lib/deepfakeDetector.ts:65 | k seeks of `currentTime += frameInterval` from 0 reach k·frameInterval |
| `FrameSampler.Sampler.OnError` | src/lib/deepfakeDetector.ts:76-80 | an error revokes the URL and rejects a pending promise |
| `FrameSampler.Sampler.OnTimeout` | src/lib/deepfakeDetector.ts:82-89 | the timeout revokes and rejects only when no frame was captured |
| `FrameSampler.Sampler.Dispatch` | src/lib/deepfakeDetector.ts:43-89 | a settled promise never changes again and a revoked URL stays revoked |
| `FrameSampler.Extract` | src/lib/deepfakeDetector.ts:33-91 | a resolved extraction holds exactly numFrames frames, the k-th captured at k·duration/numFrames, with the URL revoked; an error or timeout rejection also revokes it |
| `FrameSampler.StallAfterOneFrame` | src/lib/deepfakeDetector.ts:56-89 | after one captured frame the timeout neither revokes nor rejects: the promise stays pending with the URL unrevoked |
| `FrameSampler.ErrorAfterStall` | src/lib/deepfakeDetector.ts:76-89 | after one frame and the timeout, an error event still revokes the URL and rejects with the video error |
| `FrameSampler.CanvasFailureKeepsUrl` | src/lib/deepfakeDetector.ts:50-55 | a missing context after one captured frame rejects with the canvas error, and the later timeout leaves the URL unrevoked |
| `Orchestrator.ClassifyFrames` | src/lib/deepfakeDetector.ts:144-186 | the per-frame loop counts the predictions, at most one per frame, and reports one progress value per frame whose classify call completed |
| `Orchestrator.FrameProgressBounds` | src/lib/deepfakeDetector.ts:169-177 | per-frame progress `50 + (i+1)·40/n` lies in [50, 90] and grows with the frame index |
| `Orchestrator.LoopTraceShape` | src/lib/deepfakeDetector.ts:144-186 | the loop's progress values are non-decreasing, lie in [50, 90], and number at most one per frame |
| `Orchestrator.PredictionsBounded` | src/lib/deepfakeDetector.ts:145-166 | predictionsCount ≤ frames.length: a failed frame is only skipped |
| `Orchestrator.AnalyzeVideo` | src/lib/deepfakeDetector.ts:94-268 | one whole call: its progress trace and its result, or no result when the extraction never settles; `Orchestrator.AnalyzeRouting`, `Orchestrator.AnalyzeTrace` and `Orchestrator.AnalyzeWellFormed` state its properties |
| `Orchestrator.ModelResult` | src/lib/deepfakeDetector.ts:199-250 | the model path's result; `Orchestrator.ModelPathVerdict` and `Orchestrator.AnalyzeWellFormed` state its properties |
| `Orchestrator.AnalyzeRouting` | src/lib/deepfakeDetector.ts:94-268 | the call returns a result iff the extraction settles; load failure, extraction failure, zero frames or zero predictions each return the fallback's result; otherwise the result records 0 < predictionsCount ≤ frames and the model name |
| `Orchestrator.AnalyzeWellFormed` | src/lib/deepfakeDetector.ts:199-250 | every result returned has complementary scores in [0, 1], the rule's confidence and verdict, and features in [0, 100] |
| `Orchestrator.ModelPathVerdict` | src/lib/deepfakeDetector.ts:199-213 | a model-path result has realScore in [0.6, 0.9), is never `fake`, and is `uncertain` iff realScore < 0.625 |
| `Orchestrator.AnalyzeTrace` | src/lib/deepfakeDetector.ts:100-268 | every run reports values in [0, 100]; it ends with 100 iff the extraction settles, and a stalled one reports exactly 10, 30; the trace is non-decreasing exactly off the fallback paths |
| `Orchestrator.ModelTraceShape` | src/lib/deepfakeDetector.ts:141-224 | 10, 30, 50, the per-frame values, 90, 100 form a non-decreasing trace ending at 100 |
| `Orchestrator.FallbackTraceShape` | src/lib/deepfakeDetector.ts:281-295 | a trace that reached 30 and then runs the fallback drops back to 10 |
| `Orchestrator.LoadFailureScenario` | src/lib/deepfakeDetector.ts:118-127 | a load failure reports 10, 30, 10, 30, 50, 75, 95, 100 and returns a fallback result timed from the fallback's start |
| `ResultStore.FindById` | src/lib/deepfakeDetector.ts:397-400 | the lookup finds nothing iff no stored result has the id; otherwise it returns the first, i.e. newest, result with that id |
| `ResultStore.LocalStore.constructor` | src/lib/deepfakeDetector.ts:387-395 | with nothing stored the list is empty |
| `ResultStore.LocalStore.SaveResult` | src/lib/deepfakeDetector.ts:377-385 | the new result is at index 0 and the old list follows unchanged |
| `ResultStore.LocalStore.GetResults` | src/lib/deepfakeDetector.ts:387-395 | returns the stored list |
| `ResultStore.LocalStore.GetResultById` | src/lib/deepfakeDetector.ts:397-400 | returns the first stored result with the id |
| `ResultStore.LocalStore.ClearResults` | src/lib/deepfakeDetector.ts:402-404 | after clearing the list is empty |
| `ResultStore.LocalStore.GetResultStats` | src/lib/deepfakeDetector.ts:406-430 | the three counts sum to totalAnalyzed = the list's length; averageConfidence is 0 on an empty list |
| `ResultStore.SaveThenFind` | src/lib/deepfakeDetector.ts:377-400 | after a save, looking up its id finds the saved result |
| `ResultStore.SavePreservesOtherIds` | src/lib/deepfakeDetector.ts:377-400 | a save does not change what other ids find |
| `ResultStore.ClearedStats` | src/lib/deepfakeDetector.ts:402-430 | after clearing, no id is found and all statistics are 0 |
| `ResultStore.ResultStatsProperties` | src/lib/deepfakeDetector.ts:406-430 | counts sum to the total; the average is 0 on an empty list and otherwise lies in [0, 100] for confidences in [0, 100] |
| `ResultStore.SaveUpdatesStats` | src/lib/deepfakeDetector.ts:377-430 | a save adds one to the total and one to the saved verdict's count |
| `Tally.CountsPartition` | src/lib/deepfakeDetector.ts:409-414 | real, fake and uncertain counts add up to the list's length |
| `Tally.SumBounds` | src/lib/deepfakeDetector.ts:416-419 | n confidences within [lo, hi] sum to within [n·lo, n·hi] |
| `Tally.StatsProperties` | src/lib/deepfakeDetector.ts:406-430 | counts partition the total; the mean is 0 on an empty list, else within the confidences' bounds |
| `Tally.PrependTally` | src/lib/deepfakeDetector.ts:410-419 | prepending an element adds one to its verdict's count and its confidence to the sum |
| `Database.ToRow` | src/lib/databaseService.ts:18-34 | the row written for a result; `Database.RowRoundTrip` and `Database.RowIgnoresScores` state what it keeps and drops |
| `Database.RowRoundTrip` | src/lib/databaseService.ts:18-34 | the row copies id, filename, verdict, confidence, features and timestamp, maps detectionTime, sets user_id to the given owner; a missing metadata becomes `{}`; a result with metadata comes back from its row plus its two scores |
| `Database.RowIgnoresScores` | src/lib/databaseService.ts:22-34 | realScore and fakeScore are not part of the persisted row |
| `Database.Where` | src/lib/databaseService.ts:51-54 | an `.eq` filter keeps exactly the table's rows that match, whether on user_id here or on id in `getResultById` |
| `Database.InsertDescProperties` | src/lib/databaseService.ts:56 | inserting into a timestamp-descending list keeps it descending and keeps every row |
| `Database.SortDescProperties` | src/lib/databaseService.ts:56 | ordering by timestamp descending yields a descending permutation |
| `Database.SortDesc` | src/lib/databaseService.ts:56 | `order('timestamp', { ascending: false })` as a stable insertion sort; `Database.SortDescProperties` states it |
| `Database.Query` | src/lib/databaseService.ts:46-56 | the optional user filter followed by the ordering; `Database.QueryProperties` states it |
| `Database.QueryProperties` | src/lib/databaseService.ts:46-56 | a null or empty userId returns all rows, otherwise exactly that user's rows, each as often as stored, newest first |
| `Database.WithoutUser` | src/lib/databaseService.ts:81-85 | after the delete, a row remains iff it was in the table and its user_id differs |
| `Database.WithoutUserKeepsOthers` | src/lib/databaseService.ts:81-92 | what remains and that user's rows together are the table, as a multiset and so in number; a table without that user's rows is unchanged, order included |
| `Database.InsertDescTally` | src/lib/databaseService.ts:95-106 | inserting a row in order changes neither counts nor confidence sum |
| `Database.SortDescTally` | src/lib/databaseService.ts:95-106 | ordering changes neither counts nor confidence sum |
| `Database.QueryStats` | src/lib/databaseService.ts:95-109 | the statistics are those of the matching rows; counts sum to totalAnalyzed; the average is 0 when nothing matches |
| `Database.Table.SaveResultToDatabase` | src/lib/databaseService.ts:18-44 | on success the row is inserted and its id returned; a reported error is thrown and the table is unchanged |
| `Database.Table.GetResultsFromDatabase` | src/lib/databaseService.ts:46-64 | returns the query's rows, or throws the reported error |
| `Database.Table.GetResultById` | src/lib/databaseService.ts:66-79 | succeeds iff no error is reported and exactly one row has the id, and then returns that row |
| `Database.Table.ClearResultsForUser` | src/lib/databaseService.ts:81-93 | removes exactly that user's rows and returns true, or throws the reported error with the table unchanged |
| `Database.Table.GetResultStatsFromDatabase` | src/lib/databaseService.ts:95-109 | the statistics of the query's rows, or the query's error |
| `DetectPage.VerdictText` | src/pages/Detect.tsx:115-126 | the verdict's heading; `DetectPage.VerdictTextInjective` states that it tells the verdicts apart |
| `DetectPage.BandOf` | src/pages/Detect.tsx:184-197 | the progress message band as one cascade; `DetectPage.ExactlyOneBand` ties it to `DetectPage.Shows` |
| `DetectPage.Shows` | src/pages/Detect.tsx:184-197 | the five conditions under which each message renders; `DetectPage.ExactlyOneBand` shows they partition the integers |
| `DetectPage.OwnerOf` | src/pages/Detect.tsx:54 | an empty user id is stored as no owner (null); used by `DetectPage.Page.HandleAnalyze` |
| `DetectPage.ProgressMessage` | src/pages/Detect.tsx:184-197 | the message under the progress bar is the one of whichever band's condition holds |
| `DetectPage.VerdictTextInjective` | src/pages/Detect.tsx:115-126 | real, fake and uncertain map to three distinct texts |
| `DetectPage.ExactlyOneBand` | src/pages/Detect.tsx:184-197 | the five message conditions partition the integers: exactly one shows for any progress |
| `DetectPage.Page.constructor` | src/pages/Detect.tsx:16-19 | no video, not analysing, progress 0, no result |
| `DetectPage.Page.HandleVideoSelect` | src/pages/Detect.tsx:23-26 | stores the file and clears any previous result |
| `DetectPage.Page.HandleReset` | src/pages/Detect.tsx:109-113 | video and result become null and progress 0 |
| `DetectPage.Page.HandleAnalyze` | src/pages/Detect.tsx:28-101 | without a video nothing changes; otherwise the page passes through analysing with progress 0 and then each reported value; if the analysis settles it ends not analysing with the result set and saves a row only for a signed-in user whose save succeeds; if it stalls the page stays analysing at 30 with the earlier result and the table untouched |
| `DetectPage.Page.FollowProgress` | src/pages/Detect.tsx:42-44 | the page shows each reported progress value in turn and ends on the last one |
| `VideoUploader.Validate` | src/components/VideoUploader.tsx:40-49 | the type check, then the size check; `VideoUploader.ValidateSpec` and `VideoUploader.SizeBoundary` state them |
| `VideoUploader.ValidateSpec` | src/components/VideoUploader.tsx:40-49 | a file is accepted iff its type starts with `video/` and its size is at most 104857600; a non-video file gets the type error whatever its size |
| `VideoUploader.SizeBoundary` | src/components/VideoUploader.tsx:46-49 | exactly 104857600 bytes passes, one more byte does not; a large non-video gets the type error |
| `VideoUploader.Uploader.constructor` | src/components/VideoUploader.tsx:14-16 | no drag, no file, no preview |
| `VideoUploader.Uploader.HandleDrag` | src/components/VideoUploader.tsx:19-28 | `dragenter` and `dragover` set dragActive, `dragleave` clears it, other types leave it |
| `VideoUploader.Uploader.HandleFileChange` | src/components/VideoUploader.tsx:40-55 | a rejected file changes nothing and selects nothing; an accepted one becomes videoFile with a preview and is handed to `onVideoSelect` |
| `VideoUploader.Uploader.HandleDrop` | src/components/VideoUploader.tsx:30-38 | a drop clears dragActive and considers only the first file |
| `VideoUploader.Uploader.ClearVideo` | src/components/VideoUploader.tsx:57-67 | revokes the preview URL if any; videoFile and videoPreview become null |
| `ResultDetail.DetailView` | src/pages/ResultDetail.tsx:23-27 | the result the page shows, if any; `ResultDetail.NotFoundCondition` states when there is none |
| `ResultDetail.FeatureStatus` | src/pages/ResultDetail.tsx:63-67 | the status of one feature score; `ResultDetail.FeatureStatusBands` and `ResultDetail.FeatureStatusMonotone` state it |
| `ResultDetail.Label` | src/pages/ResultDetail.tsx:209 | the caption of a feature key; `ResultDetail.LabelRoundTrip` states that it loses nothing but spaces |
| `ResultDetail.NotFoundCondition` | src/pages/ResultDetail.tsx:23-27 | the not-found view shows iff the id is missing or empty or no stored result has it |
| `ResultDetail.FeatureStatusBands` | src/pages/ResultDetail.tsx:63-67 | < 30 is `good`/"Normal", [30, 70) `warning`/"Suspicious", ≥ 70 `bad`/"Anomalous" |
| `ResultDetail.FeatureStatusMonotone` | src/pages/ResultDetail.tsx:63-67 | a higher score never yields a better status |
| `ResultDetail.RemoveSpacesUndoesInsertion` | src/pages/ResultDetail.tsx:209 | deleting spaces undoes the space insertion on a key without spaces |
| `ResultDetail.LabelRoundTrip` | src/pages/ResultDetail.tsx:209 | for a key without white space the label is the spaced key minus a leading space, and removing spaces gives the key back |
| `ResultDetail.OneHumpLabel` | src/pages/ResultDetail.tsx:209 | a lower-case head, one capital and a lower-case tail get exactly one space before the capital |
| `ResultDetail.FaceInconsistenciesLabel` | src/pages/ResultDetail.tsx:209 | `faceInconsistencies` is shown as "face Inconsistencies" |
| `ResultDetail.FeatureRowsSpec` | src/pages/ResultDetail.tsx:208-223 | five rows in key order; removing the spaces from a row's caption gives its key, and its text is "Normal", "Suspicious" or "Anomalous" iff that score is below 30, in [30, 70) or at least 70 |
| `ResultDetail.FallbackFeatureRows` | src/pages/ResultDetail.tsx:208-223 | for fallback-range features a `real` result shows every feature as "Normal" and any other verdict none |
| `Header.DefaultIsPrefix` | src/components/Header.tsx:86-87 | a link given without `exact` is active on its own path and iff the path starts with `to` |
| `Header.IsActive` | src/components/Header.tsx:87 | the highlight rule; `Header.IsActiveSpec` and `Header.ExactImpliesPrefix` state it |
| `Header.IsActiveSpec` | src/components/Header.tsx:87 | an exact link is active iff the path equals `to`; a non-exact link iff the path starts with `to` |
| `Header.ExactImpliesPrefix` | src/components/Header.tsx:87 | exact-active implies non-exact-active |
| `Header.NavLinks` | src/components/Header.tsx:36-41 | Home is always shown; Detect and Results iff a user is signed in |
| `Header.LinkExamples` | src/components/Header.tsx:36-41 | Home is active only at "/"; Results stays active on `/results/abc`, where Detect and Home are not |
| `Header.AtMostOneActive` | src/components/Header.tsx:36-41 | for any path at most one shown link is active |

## Left out

- The browser's video, canvas and object-URL APIs are replaced by the
  sampler's events and its `revoked` flag. Frames are known only by the time
  they were drawn at.
- The HuggingFace `pipeline` is an oracle. It reports, per frame, a failure, a
  falsy answer or a prediction. Prediction contents are never scored, so only
  their count is modelled.
- `Math.random`, `Date.now` and `setTimeout` become parameters. The
  fallback's artificial delays are dropped.
- `generateId` is not modelled: ids are opaque parameters.
- Floating point is not modelled: scores are exact reals. The in-loop
  progress `Math.floor((i + 1) / n * 40)` is the integer `(i + 1) * 40 / n`.
- The Supabase client, its `fetch` patch and the `.single()` error messages
  are not modelled. Whether a database call reports an error is a parameter.
- `localStorage`, JSON serialisation and the swallowed storage exceptions are
  not modelled. The local store is a sequence field, and a stored result is
  assumed to read back unchanged.
- Toasts, console logging, JSX rendering and navigation are not modelled.
- `async`/`await` runs as plain sequential steps; interleavings are not
  modelled.
- `Orchestrator.AnalyzeRouting`: a processing error other than a frame
  extraction rejection is not modelled. A frame whose blob conversion or
  classification throws is modelled as a skipped frame. An exception thrown
  by the progress callback is not modelled either: from the call at
  src/lib/deepfakeDetector.ts:102 it would be caught at :261, from :114 at
  :118, from the in-loop call at :170 at :179 (skipping that frame), and from
  :141, :196 and :224 at :251.
- `DetectPage.Page.HandleAnalyze`: the catch branch for a failed analysis is
  not modelled, because the modelled `analyzeVideo` either returns a result
  or never settles; it never rejects.
- `Database.Table.GetResultsFromDatabase`: rows with equal timestamps come
  back in one fixed order, the one a stable insertion sort gives. The
  database leaves that order open. What is proved about the ordering
  (descending timestamps, the same rows) is true of any order it picks.
- `FrameSampler.Sampler.OnLoadedMetadata`: requires that metadata has not
  loaded yet, since a media element fires this event once per source. The
  sampler also requires at least one requested frame; the only caller asks
  for 10.
- src/pages/Results.tsx, src/pages/Index.tsx, src/pages/Login.tsx,
  src/components/Footer.tsx and src/pages/NotFound.tsx are not part of this
  model. They are presentation and authentication wiring.
- The two result stores are not reconciled. The Detect page saves to the
  database, while the detail page reads the local store.
