/** The records shared by the analysis state machine and the views (types.ts). */
module Types {

  /** `T | null` in the source. */
  datatype Option<T> = None | Some(value: T)

  /** A browser `File` as far as the core looks at it: its name and its MIME type. */
  datatype File = File(name: string, mimeType: string)

  /** One analysed image: an "automated" (ia*) and a "confirmed" group of measurements. */
  datatype AnalysisResult = AnalysisResult(
    filename: string,
    iaKi67: real,
    iaTotalCells: int,
    iaPositiveCells: int,
    iaNegativeCells: int,
    ki67: real,
    totalCells: int,
    positiveCells: int,
    negativeCells: int,
    originalImageUrl: string,
    analyzedImageUrl: string)

  datatype AnalysisStatus = Idle | Processing | Complete | Error

  /** The one record the analysis provider keeps. */
  datatype AnalysisState = AnalysisState(
    selectedFiles: seq<File>,
    analysisResults: seq<AnalysisResult>,
    activeTab: string,
    status: AnalysisStatus,
    error: Option<string>)
}
