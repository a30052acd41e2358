/**
 * The Detect page (src/pages/Detect.tsx): its four state fields, the three
 * handlers that change them, the verdict text and the progress message.
 */
module DetectPage {
  import opened Types
  import opened Orchestrator
  import Database

  /** `renderVerdictText`. */
  function VerdictText(v: Verdict): string {
    match v
    case Real => "Likely Authentic (Real Video)"
    case Fake => "Likely Manipulated (Deepfake)"
    case Uncertain => "Uncertain Results"
  }

  /** The three verdicts read differently. */
  lemma VerdictTextInjective(a: Verdict, b: Verdict)
    ensures VerdictText(a) == VerdictText(b) <==> a == b
  {
    if a != b {
      assert VerdictText(a)[0..6] != VerdictText(b)[0..6] || VerdictText(a)[9] != VerdictText(b)[9];
    }
  }

  /** The five progress messages under the progress bar. */
  datatype Band = Loading | Running | Processing | Calculating | Finalizing

  /** The condition under which each message is rendered, as the page writes it. */
  predicate Shows(b: Band, progress: int) {
    match b
    case Loading => progress < 30
    case Running => progress >= 30 && progress < 60
    case Processing => progress >= 60 && progress < 80
    case Calculating => progress >= 80 && progress < 95
    case Finalizing => progress >= 95
  }

  function BandMessage(b: Band): string {
    match b
    case Loading => "Loading AI model and preparing video frames..."
    case Running => "Running AI analysis on video frames..."
    case Processing => "Processing predictions..."
    case Calculating => "Calculating authenticity metrics..."
    case Finalizing => "Finalizing verdict and generating report..."
  }

  /** The message band a progress value falls in. */
  function BandOf(progress: int): Band {
    if progress < 30 then Loading
    else if progress < 60 then Running
    else if progress < 80 then Processing
    else if progress < 95 then Calculating
    else Finalizing
  }

  /** The message shown under the progress bar: the one whose condition holds. */
  function ProgressMessage(progress: int): (m: string)
    ensures forall b :: Shows(b, progress) ==> m == BandMessage(b)
  {
    ExactlyOneBand(progress, BandOf(progress));
    BandMessage(BandOf(progress))
  }

  /** The five conditions partition the numbers: exactly one message is shown for any progress. */
  lemma ExactlyOneBand(progress: int, b: Band)
    ensures Shows(b, progress) <==> b == BandOf(progress)
  {
  }

  /** `user.id || null`: an empty id is stored as no owner. */
  function OwnerOf(user: User): Option<string> {
    if user.id == "" then None else Some(user.id)
  }

  class Page {
    var selectedVideo: Option<VideoFile>
    var isAnalyzing: bool
    var progress: int
    var result: Option<DetectionResult>

    constructor ()
      ensures selectedVideo == None && !isAnalyzing && progress == 0 && result == None
    {
      selectedVideo := None;
      isAnalyzing := false;
      progress := 0;
      result := None;
    }

    /** `handleVideoSelect`: keep the file and drop any earlier result. */
    method HandleVideoSelect(file: VideoFile)
      modifies this
      ensures selectedVideo == Some(file) && result == None
      ensures isAnalyzing == old(isAnalyzing) && progress == old(progress)
    {
      selectedVideo := Some(file);
      result := None;
    }

    /** `handleReset`: forget the video and the result and zero the progress. */
    method HandleReset()
      modifies this
      ensures selectedVideo == None && result == None && progress == 0
      ensures isAnalyzing == old(isAnalyzing)
    {
      selectedVideo := None;
      result := None;
      progress := 0;
    }

    /**
     * `handleAnalyze`. Without a selected video nothing changes. Otherwise
     * the page marks itself analysing with progress 0, follows every
     * progress value the analysis reports, saves the result to `db` only for
     * a signed-in user (a failed save still shows the result), and ends not
     * analysing. When the analysis never settles the page stays analysing at
     * the last progress value reported, with the earlier result and the table
     * untouched; the method then returns the state the page is left in for
     * good. `observed` lists each `(isAnalyzing, progress)` the page passes
     * through while the analysis runs.
     */
    method HandleAnalyze(o: Outcome, id: string, user: Option<User>,
                         db: Database.Table, insertError: Option<string>)
      returns (ghost observed: seq<(bool, int)>)
      modifies this, db
      ensures old(selectedVideo).None? ==>
        && selectedVideo == old(selectedVideo) && isAnalyzing == old(isAnalyzing)
        && progress == old(progress) && result == old(result) && db.rows == old(db.rows)
      ensures old(selectedVideo).Some? ==>
        var run := AnalyzeVideo(id, old(selectedVideo).value.name, o);
        && selectedVideo == old(selectedVideo)
        && |observed| == |run.trace| + 1
        && observed[0] == (true, 0)
        && (forall k :: 0 <= k < |run.trace| ==> observed[k + 1] == (true, run.trace[k]))
      ensures old(selectedVideo).Some? && !Stalls(o) ==>
        var run := AnalyzeVideo(id, old(selectedVideo).value.name, o);
        && !isAnalyzing
        && result == run.result
        && progress == 100
        && db.rows == if user.Some? && insertError.None?
                      then old(db.rows) + [Database.ToRow(run.result.value, OwnerOf(user.value))]
                      else old(db.rows)
      ensures old(selectedVideo).Some? && Stalls(o) ==>
        isAnalyzing && progress == 30 && result == old(result) && db.rows == old(db.rows)
    {
      observed := [];
      if selectedVideo.None? {
        return;
      }
      isAnalyzing := true;
      progress := 0;
      var run := AnalyzeVideo(id, selectedVideo.value.name, o);
      AnalyzeTrace(id, selectedVideo.value.name, o);
      AnalyzeRouting(id, selectedVideo.value.name, o);
      var followed := FollowProgress(run.trace);
      observed := [(true, 0)] + followed;
      if run.result.None? {
        return;
      }
      if user.Some? {
        var _ := db.SaveResultToDatabase(run.result.value, OwnerOf(user.value), insertError);
      }
      result := run.result;
      isAnalyzing := false;
    }

    /** The `onProgress` callback: the page shows each reported value in turn. */
    method FollowProgress(trace: seq<int>) returns (ghost observed: seq<(bool, int)>)
      modifies this`progress
      ensures |observed| == |trace|
      ensures forall k :: 0 <= k < |trace| ==> observed[k] == (isAnalyzing, trace[k])
      ensures progress == if trace == [] then old(progress) else trace[|trace| - 1]
    {
      observed := [];
      var k := 0;
      while k < |trace|
        invariant 0 <= k <= |trace|
        invariant |observed| == k
        invariant forall j :: 0 <= j < k ==> observed[j] == (isAnalyzing, trace[j])
        invariant progress == if k == 0 then old(progress) else trace[k - 1]
      {
        progress := trace[k];
        observed := observed + [(isAnalyzing, progress)];
        k := k + 1;
      }
    }
  }
}
