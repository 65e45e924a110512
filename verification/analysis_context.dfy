/**
 * The analysis state machine (context/AnalysisContext.tsx): one shared record of
 * selected files, results, active tab, status and error, five setters, and
 * `startAnalysis`, which here is split into the synchronous part (`Begin`) and
 * the two ways the awaited work can end (`Succeed`, `Fail`).
 */
module AnalysisContext {
  import opened Types

  const InitialTab := "Ki67"
  const AnalyzedImagePlaceholder := "/path-to-analyzed-image.png"
  const AnalysisErrorMessage := "An error occurred during analysis"

  /** A value `Math.random()` can return. */
  predicate IsRandomValue(u: real) {
    0.0 <= u < 1.0
  }

  /**
   * Everything the environment supplies while one file's result is built: the
   * eight `Math.random()` values, in the order the source draws them, and the
   * object URL `URL.createObjectURL(file)` hands out.
   */
  datatype RandomDraw = RandomDraw(
    iaKi67: real, iaTotal: real, iaPositive: real, iaNegative: real,
    ki67: real, total: real, positive: real, negative: real,
    objectUrl: string)

  predicate ValidDraw(d: RandomDraw) {
    IsRandomValue(d.iaKi67) && IsRandomValue(d.iaTotal) && IsRandomValue(d.iaPositive)
    && IsRandomValue(d.iaNegative) && IsRandomValue(d.ki67) && IsRandomValue(d.total)
    && IsRandomValue(d.positive) && IsRandomValue(d.negative)
  }

  predicate ValidDraws(draws: seq<RandomDraw>) {
    forall i :: 0 <= i < |draws| ==> ValidDraw(draws[i])
  }

  /** `Math.floor(Math.random() * n)`: a cell count below `n`. */
  function RandomCount(u: real, n: nat): (r: int)
    requires IsRandomValue(u) && 0 < n
    ensures 0 <= r < n
  {
    assert u * (n as real) < n as real by {
      assert (1.0 - u) * (n as real) > 0.0;
    }
    (u * n as real).Floor
  }

  /** Cell counts the mocked engine can report: total in [0,499], positive in [0,99], negative in [0,399]. */
  predicate CountsInRange(r: AnalysisResult) {
    0 <= r.iaTotalCells < 500 && 0 <= r.iaPositiveCells < 100 && 0 <= r.iaNegativeCells < 400
    && 0 <= r.totalCells < 500 && 0 <= r.positiveCells < 100 && 0 <= r.negativeCells < 400
  }

  /** Ratios the mocked engine can report. */
  predicate RatiosInRange(r: AnalysisResult) {
    IsRandomValue(r.iaKi67) && IsRandomValue(r.ki67)
  }

  /** The result the mocked engine fabricates for one file. */
  function MakeResult(file: File, d: RandomDraw): (r: AnalysisResult)
    requires ValidDraw(d)
    ensures r.filename == file.name
    ensures CountsInRange(r) && RatiosInRange(r)
    ensures r.originalImageUrl == d.objectUrl
    ensures r.analyzedImageUrl == AnalyzedImagePlaceholder
  {
    AnalysisResult(
      filename := file.name,
      iaKi67 := d.iaKi67,
      iaTotalCells := RandomCount(d.iaTotal, 500),
      iaPositiveCells := RandomCount(d.iaPositive, 100),
      iaNegativeCells := RandomCount(d.iaNegative, 400),
      ki67 := d.ki67,
      totalCells := RandomCount(d.total, 500),
      positiveCells := RandomCount(d.positive, 100),
      negativeCells := RandomCount(d.negative, 400),
      originalImageUrl := d.objectUrl,
      analyzedImageUrl := AnalyzedImagePlaceholder)
  }

  /** `selectedFiles.map(file => ({...}))`: one result per file, in order. */
  function BuildResults(files: seq<File>, draws: seq<RandomDraw>): (rs: seq<AnalysisResult>)
    requires |draws| == |files| && ValidDraws(draws)
    ensures |rs| == |files|
    ensures forall i :: 0 <= i < |rs| ==> rs[i].filename == files[i].name
    ensures forall i :: 0 <= i < |rs| ==> CountsInRange(rs[i]) && RatiosInRange(rs[i])
    ensures forall i :: 0 <= i < |rs| ==>
      rs[i].originalImageUrl == draws[i].objectUrl && rs[i].analyzedImageUrl == AnalyzedImagePlaceholder
  {
    if files == [] then []
    else [MakeResult(files[0], draws[0])] + BuildResults(files[1..], draws[1..])
  }

  /** How the awaited part of `startAnalysis` ends: it builds the results, or something in it throws. */
  datatype AnalysisOutcome = Succeeds(draws: seq<RandomDraw>) | Throws

  predicate OutcomeFits(outcome: AnalysisOutcome, files: seq<File>) {
    outcome.Succeeds? ==> |outcome.draws| == |files| && ValidDraws(outcome.draws)
  }

  /** The provider of the shared analysis state. */
  class AnalysisProvider {
    var state: AnalysisState

    constructor ()
      ensures state.selectedFiles == [] && state.analysisResults == []
      ensures state.activeTab == InitialTab && state.status == Idle && state.error == None
    {
      state := AnalysisState([], [], InitialTab, Idle, None);
    }

    /** Replaces the selection; nothing else changes (the status in particular). */
    method SetSelectedFiles(files: seq<File>)
      modifies this
      ensures state == old(state).(selectedFiles := files)
    {
      state := state.(selectedFiles := files);
    }

    method SetAnalysisResults(results: seq<AnalysisResult>)
      modifies this
      ensures state == old(state).(analysisResults := results)
    {
      state := state.(analysisResults := results);
    }

    method SetActiveTab(tab: string)
      modifies this
      ensures state == old(state).(activeTab := tab)
    {
      state := state.(activeTab := tab);
    }

    method SetStatus(status: AnalysisStatus)
      modifies this
      ensures state == old(state).(status := status)
    {
      state := state.(status := status);
    }

    method SetError(error: Option<string>)
      modifies this
      ensures state == old(state).(error := error)
    {
      state := state.(error := error);
    }

    /**
     * The synchronous start of `startAnalysis`: status becomes processing and the
     * error is cleared. The returned job is the selection the callback closed over.
     */
    method Begin() returns (job: seq<File>)
      modifies this
      ensures job == old(state.selectedFiles)
      ensures state == old(state).(status := Processing, error := None)
    {
      job := state.selectedFiles;
      SetStatus(Processing);
      SetError(None);
    }

    /**
     * The awaited work succeeds: one result per file of the job, in order,
     * replacing the previous results outright, and status complete.
     */
    method Succeed(job: seq<File>, draws: seq<RandomDraw>)
      requires |draws| == |job| && ValidDraws(draws)
      modifies this
      ensures state == old(state).(analysisResults := BuildResults(job, draws), status := Complete)
      ensures |state.analysisResults| == |job|
      ensures forall i :: 0 <= i < |job| ==> state.analysisResults[i].filename == job[i].name
    {
      var results := BuildResults(job, draws);
      SetAnalysisResults(results);
      SetStatus(Complete);
    }

    /** The catch branch: a fixed message and status error; results and selection stay. */
    method Fail()
      modifies this
      ensures state == old(state).(error := Some(AnalysisErrorMessage), status := Error)
    {
      SetError(Some(AnalysisErrorMessage));
      SetStatus(Error);
    }

    /** One whole, non-overlapping run of `startAnalysis`. */
    method StartAnalysis(outcome: AnalysisOutcome)
      requires OutcomeFits(outcome, state.selectedFiles)
      modifies this
      ensures outcome.Succeeds? ==> state == old(state).(
        analysisResults := BuildResults(old(state.selectedFiles), outcome.draws),
        status := Complete, error := None)
      ensures outcome.Throws? ==> state == old(state).(
        status := Error, error := Some(AnalysisErrorMessage))
    {
      var job := Begin();
      match outcome {
        case Succeeds(draws) => Succeed(job, draws);
        case Throws => Fail();
      }
    }
  }

  /**
   * A batch of three images, started and completed, from a fresh provider:
   * status complete, three results named after the files, no error.
   */
  method ThreeImagesScenario(draws: seq<RandomDraw>) returns (state: AnalysisState)
    requires |draws| == 3 && ValidDraws(draws)
    ensures state.status == Complete && state.error == None
    ensures |state.analysisResults| == 3
    ensures state.analysisResults[0].filename == "a.png"
    ensures state.analysisResults[1].filename == "b.png"
    ensures state.analysisResults[2].filename == "c.jpg"
  {
    var p := new AnalysisProvider();
    var files := [File("a.png", "image/png"), File("b.png", "image/png"), File("c.jpg", "image/jpeg")];
    p.SetSelectedFiles(files);
    p.StartAnalysis(Succeeds(draws));
    state := p.state;
  }

  /** Starting with nothing selected is not rejected: it completes with no results. */
  method EmptySelectionScenario() returns (state: AnalysisState)
    ensures state.status == Complete && state.analysisResults == [] && state.error == None
  {
    var p := new AnalysisProvider();
    p.StartAnalysis(Succeeds([]));
    state := p.state;
  }

  /**
   * The results follow the selection captured when the analysis began, even if
   * the selection is replaced while the work is pending.
   */
  method SnapshotScenario(d: RandomDraw) returns (state: AnalysisState)
    requires ValidDraw(d)
    ensures |state.analysisResults| == 1 && state.analysisResults[0].filename == "first.png"
    ensures state.selectedFiles == [] && state.status == Complete
  {
    var p := new AnalysisProvider();
    p.SetSelectedFiles([File("first.png", "image/png")]);
    var job := p.Begin();
    p.SetSelectedFiles([]);
    p.Succeed(job, [d]);
    state := p.state;
  }

  /** A failed run keeps the results of an earlier successful run (stale results stay visible). */
  method FailureKeepsResultsScenario(d: RandomDraw) returns (before: seq<AnalysisResult>, state: AnalysisState)
    requires ValidDraw(d)
    ensures |before| == 1 && state.analysisResults == before
    ensures state.status == Error && state.error == Some(AnalysisErrorMessage)
    ensures |state.selectedFiles| == 1
  {
    var p := new AnalysisProvider();
    p.SetSelectedFiles([File("slide.tif", "image/tiff")]);
    p.StartAnalysis(Succeeds([d]));
    before := p.state.analysisResults;
    p.StartAnalysis(Throws);
    state := p.state;
  }
}
