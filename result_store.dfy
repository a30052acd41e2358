/**
 * The local result store of src/lib/deepfakeDetector.ts: a list of results,
 * newest first, under one storage key. Serialisation is left out; the list
 * is a field the operations reassign.
 */
module ResultStore {
  import opened Types
  import opened Tally

  /** `results.find(r => r.id === id)`: the first result with that id. */
  function FindById(results: seq<DetectionResult>, id: string): (found: Option<DetectionResult>)
    ensures found.None? <==> forall k :: 0 <= k < |results| ==> results[k].id != id
    ensures found.Some? ==> found.value.id == id
    ensures found.Some? ==>
      exists k :: 0 <= k < |results| && results[k] == found.value &&
        forall j :: 0 <= j < k ==> results[j].id != id
  {
    if results == [] then None
    else if results[0].id == id then Some(results[0])
    else
      var rest := FindById(results[1..], id);
      assert forall k :: 0 < k < |results| ==> results[k] == results[1..][k - 1];
      if rest.Some? then
        ghost var k' :| 0 <= k' < |results[1..]| && results[1..][k'] == rest.value
          && forall j :: 0 <= j < k' ==> results[1..][j].id != id;
        assert results[k' + 1] == rest.value;
        rest
      else
        rest
  }

  function ResultVerdict(r: DetectionResult): Verdict { r.verdict }

  function ResultConfidence(r: DetectionResult): real { r.confidence }

  /** `getResultStats` over a list of results. */
  function ResultStats(results: seq<DetectionResult>): Stats {
    StatsOf(results, ResultVerdict, ResultConfidence)
  }

  class LocalStore {
    /** The stored list, newest first. */
    var results: seq<DetectionResult>

    constructor ()
      ensures results == []
    {
      results := [];
    }

    /** `saveResult`: the new result goes in front of the old list. */
    method SaveResult(r: DetectionResult)
      modifies this
      ensures results == [r] + old(results)
    {
      results := [r] + results;
    }

    /** `getResults`. */
    method GetResults() returns (rs: seq<DetectionResult>)
      ensures rs == results
    {
      rs := results;
    }

    /** `getResultById`. */
    method GetResultById(id: string) returns (found: Option<DetectionResult>)
      ensures found == FindById(results, id)
    {
      found := FindById(results, id);
    }

    /** `clearResults`. */
    method ClearResults()
      modifies this
      ensures results == []
    {
      results := [];
    }

    /** `getResultStats`: one count per verdict, adding up to the total, and the mean confidence. */
    function GetResultStats(): (st: Stats)
      reads this
      ensures st.totalAnalyzed == |results|
      ensures st.realDetected + st.fakeDetected + st.uncertain == st.totalAnalyzed
      ensures results == [] ==> st.averageConfidence == 0.0
    {
      CountsPartition(results, ResultVerdict);
      ResultStats(results)
    }
  }

  /** After a save, looking up the saved id finds the saved result, the newest one. */
  lemma SaveThenFind(r: DetectionResult, results: seq<DetectionResult>)
    ensures FindById([r] + results, r.id) == Some(r)
  {
  }

  /** A save does not change what other ids find. */
  lemma SavePreservesOtherIds(r: DetectionResult, results: seq<DetectionResult>, id: string)
    requires r.id != id
    ensures FindById([r] + results, id) == FindById(results, id)
  {
    assert ([r] + results)[1..] == results;
  }

  /** After clearing nothing is found and the statistics are all zero. */
  lemma ClearedStats(id: string)
    ensures FindById([], id) == None
    ensures ResultStats([]) == Stats(0, 0, 0, 0, 0.0)
  {
  }

  /** The counts of a list add up to its length and a list of well-formed results averages within [0, 100]. */
  lemma ResultStatsProperties(results: seq<DetectionResult>)
    requires forall i :: 0 <= i < |results| ==> 0.0 <= results[i].confidence <= 100.0
    ensures var st := ResultStats(results);
      && st.totalAnalyzed == |results|
      && st.realDetected + st.fakeDetected + st.uncertain == st.totalAnalyzed
      && (results == [] ==> st.averageConfidence == 0.0)
      && (results != [] ==> 0.0 <= st.averageConfidence <= 100.0)
  {
    StatsProperties(results, ResultVerdict, ResultConfidence, 0.0, 100.0);
  }

  /** A save adds one to the total and to the saved verdict's count. */
  lemma SaveUpdatesStats(r: DetectionResult, results: seq<DetectionResult>)
    ensures ResultStats([r] + results).totalAnalyzed == |results| + 1
    ensures ResultStats([r] + results).realDetected
         == ResultStats(results).realDetected + (if r.verdict == Real then 1 else 0)
    ensures ResultStats([r] + results).fakeDetected
         == ResultStats(results).fakeDetected + (if r.verdict == Fake then 1 else 0)
    ensures ResultStats([r] + results).uncertain
         == ResultStats(results).uncertain + (if r.verdict == Uncertain then 1 else 0)
  {
    PrependTally(r, results, ResultVerdict, ResultConfidence, Real);
    PrependTally(r, results, ResultVerdict, ResultConfidence, Fake);
    PrependTally(r, results, ResultVerdict, ResultConfidence, Uncertain);
  }
}
