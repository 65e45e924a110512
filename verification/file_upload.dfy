/**
 * The upload view's logic (components/FileUpload.tsx): all-or-nothing
 * validation of a batch by MIME type, the selection and previews it writes, the
 * picker's null guard, and the guard around starting an analysis.
 */
module FileUpload {
  import opened Types
  import opened LanguageContext
  import opened AnalysisContext

  const ImagePrefix := "image/"
  const SpanishRejection := "Por favor, suba solo archivos de imagen."
  const EnglishRejection := "Please upload only image files."

  /** `file.type.startsWith('image/')`. */
  predicate IsImage(f: File) {
    ImagePrefix <= f.mimeType
  }

  predicate AllImages(files: seq<File>) {
    forall i :: 0 <= i < |files| ==> IsImage(files[i])
  }

  /** The files of the batch that are not images (membership both ways; order is not stated). */
  function InvalidFiles(files: seq<File>): (bad: seq<File>)
    ensures |bad| <= |files|
    ensures forall f :: f in bad ==> f in files && !IsImage(f)
    ensures forall i :: 0 <= i < |files| && !IsImage(files[i]) ==> files[i] in bad
    ensures bad == [] <==> AllImages(files)
  {
    if files == [] then []
    else
      var rest := InvalidFiles(files[1..]);
      assert forall i :: 1 <= i < |files| ==> files[i] == files[1..][i - 1];
      if IsImage(files[0]) then rest else [files[0]] + rest
  }

  /** The rejection message: the Spanish text exactly when the language is Spanish. */
  function RejectionMessage(language: Language): (msg: string)
    ensures msg == SpanishRejection <==> language == Es
    ensures msg == EnglishRejection <==> language != Es
  {
    assert SpanishRejection[1] != EnglishRejection[1];
    if language == Es then SpanishRejection else EnglishRejection
  }

  /** The upload component with its local error and previews. */
  class FileUpload {
    var error: Option<string>
    var previews: seq<string>
    const analysis: AnalysisProvider
    const languages: LanguageProvider
    /** The language at mount: the one the drop handler's memoised closure keeps seeing. */
    const mountLanguage: Language

    constructor (analysis: AnalysisProvider, languages: LanguageProvider)
      ensures error == None && previews == []
      ensures this.analysis == analysis && this.languages == languages
      ensures mountLanguage == languages.language
    {
      error := None;
      previews := [];
      this.analysis := analysis;
      this.languages := languages;
      mountLanguage := languages.language;
    }

    /**
     * `processFiles` as seen by a closure that captured `language`. A batch with
     * any non-image is rejected whole: the error is set and the selection and
     * previews stay. Otherwise the batch, in order, becomes the selection and
     * `urls` (one object URL per file) the previews.
     */
    method ProcessFiles(files: seq<File>, urls: seq<string>, language: Language)
      requires |urls| == |files|
      modifies this, analysis
      ensures !AllImages(files) ==>
        error == Some(RejectionMessage(language)) && previews == old(previews)
        && analysis.state == old(analysis.state)
      ensures AllImages(files) ==>
        error == None && previews == urls && |previews| == |files|
        && analysis.state == old(analysis.state).(selectedFiles := files)
    {
      error := None;
      var invalid := InvalidFiles(files);
      if |invalid| > 0 {
        error := Some(RejectionMessage(language));
        return;
      }
      analysis.SetSelectedFiles(files);
      previews := urls;
    }

    /** The picker's change handler: no file list means no change at all. */
    method OnChange(files: Option<seq<File>>, urls: seq<string>)
      requires files.Some? ==> |urls| == |files.value|
      modifies this, analysis
      ensures files.None? ==>
        error == old(error) && previews == old(previews) && analysis.state == old(analysis.state)
      ensures files.Some? && !AllImages(files.value) ==>
        error == Some(RejectionMessage(languages.language)) && previews == old(previews)
        && analysis.state == old(analysis.state)
      ensures files.Some? && AllImages(files.value) ==>
        error == None && previews == urls
        && analysis.state == old(analysis.state).(selectedFiles := files.value)
    {
      if files.None? {
        return;
      }
      ProcessFiles(files.value, urls, languages.language);
    }

    /** The drop handler, with the rejection message in the current language. */
    method OnDrop(files: seq<File>, urls: seq<string>)
      requires |urls| == |files|
      modifies this, analysis
      ensures !AllImages(files) ==>
        error == Some(RejectionMessage(languages.language)) && previews == old(previews)
        && analysis.state == old(analysis.state)
      ensures AllImages(files) ==>
        error == None && previews == urls
        && analysis.state == old(analysis.state).(selectedFiles := files)
    {
      ProcessFiles(files, urls, languages.language);
    }

    /**
     * The drop handler as written: memoised with no dependencies, it runs the
     * first render's `processFiles` and so words a rejection in the mount-time
     * language.
     */
    method OnDropAsWritten(files: seq<File>, urls: seq<string>)
      requires |urls| == |files|
      modifies this, analysis
      ensures !AllImages(files) ==>
        error == Some(RejectionMessage(mountLanguage)) && previews == old(previews)
        && analysis.state == old(analysis.state)
      ensures AllImages(files) ==>
        error == None && previews == urls
        && analysis.state == old(analysis.state).(selectedFiles := files)
    {
      ProcessFiles(files, urls, mountLanguage);
    }

    /** The start button is rendered only when something is selected. */
    predicate StartOffered()
      reads this, analysis
    {
      |analysis.state.selectedFiles| > 0
    }

    /** The start button is disabled while an analysis is processing. */
    predicate StartEnabled()
      reads this, analysis
    {
      analysis.state.status != Processing
    }

    /**
     * A click on the start button followed by the confirmation dialog: the
     * analysis begins only when the button is offered and enabled and the user
     * confirms. The returned job is the snapshot the pending work will use.
     */
    method ClickStartAnalysis(confirmed: bool) returns (job: Option<seq<File>>)
      modifies analysis
      ensures job.Some? <==> old(StartOffered() && StartEnabled()) && confirmed
      ensures job.Some? ==>
        job.value == old(analysis.state.selectedFiles) && |job.value| > 0
        && analysis.state == old(analysis.state).(status := Processing, error := None)
      ensures job.None? ==> analysis.state == old(analysis.state)
    {
      if StartOffered() && StartEnabled() && confirmed {
        var snapshot := analysis.Begin();
        job := Some(snapshot);
      } else {
        job := None;
      }
    }
  }

  /**
   * Two images and one PDF picked on a fresh page: the batch is rejected whole,
   * nothing is selected, there are no previews and the Spanish message shows.
   */
  method MixedBatchScenario() returns (selected: seq<File>, previews: seq<string>, error: Option<string>, status: AnalysisStatus)
    ensures |selected| == 0 && previews == []
    ensures error == Some(SpanishRejection) && status == Idle
  {
    var analysis := new AnalysisProvider();
    var languages := new LanguageProvider();
    var upload := new FileUpload(analysis, languages);
    var batch := [File("a.png", "image/png"), File("report.pdf", "application/pdf"), File("b.png", "image/png")];
    assert batch[1].mimeType[0] != ImagePrefix[0];
    upload.OnChange(Some(batch), ["blob:1", "blob:2", "blob:3"]);
    selected, previews, error, status := analysis.state.selectedFiles, upload.previews, upload.error, analysis.state.status;
  }

  /** An empty file list from the picker is accepted and empties the selection. */
  method EmptyBatchScenario() returns (selected: seq<File>, error: Option<string>)
    ensures selected == [] && error == None
  {
    var analysis := new AnalysisProvider();
    var languages := new LanguageProvider();
    var upload := new FileUpload(analysis, languages);
    upload.OnChange(Some([File("a.png", "image/png")]), ["blob:1"]);
    upload.OnChange(Some([]), []);
    selected, error := analysis.state.selectedFiles, upload.error;
  }

  /**
   * The page mounts in Spanish, the user switches to English and drops a PDF:
   * as written the message is still Spanish; the corrected handler says it in
   * English.
   */
  method StaleDropLanguageWitness() returns (current: Language, asWritten: Option<string>, corrected: Option<string>)
    ensures current == En
    ensures asWritten == Some(SpanishRejection) && asWritten != Some(RejectionMessage(current))
    ensures corrected == Some(EnglishRejection) && corrected == Some(RejectionMessage(current))
  {
    var analysis := new AnalysisProvider();
    var languages := new LanguageProvider();
    var upload := new FileUpload(analysis, languages);
    languages.ToggleLanguage();
    var pdf := [File("report.pdf", "application/pdf")];
    assert pdf[0].mimeType[0] != ImagePrefix[0];
    upload.OnDropAsWritten(pdf, ["blob:1"]);
    asWritten := upload.error;
    upload.OnDrop(pdf, ["blob:2"]);
    corrected := upload.error;
    current := languages.language;
  }

  /**
   * Select three images, confirm the start and let the work finish: three
   * results, in the order of the files, and status complete.
   */
  method UploadAndAnalyseScenario(draws: seq<RandomDraw>) returns (state: AnalysisState)
    requires |draws| == 3 && ValidDraws(draws)
    ensures state.status == Complete && state.error == None
    ensures |state.analysisResults| == 3
    ensures state.analysisResults[0].filename == "a.png"
    ensures state.analysisResults[1].filename == "b.png"
    ensures state.analysisResults[2].filename == "c.png"
  {
    var analysis := new AnalysisProvider();
    var languages := new LanguageProvider();
    var upload := new FileUpload(analysis, languages);
    var batch := [File("a.png", "image/png"), File("b.png", "image/png"), File("c.png", "image/png")];
    assert AllImages(batch);
    upload.OnChange(Some(batch), ["blob:1", "blob:2", "blob:3"]);
    var job := upload.ClickStartAnalysis(true);
    analysis.Succeed(job.value, draws);
    state := analysis.state;
  }
}
