/**
 * The export step every feature ends with: the session's preset and file
 * type, the ExportFormat table, and the mapping from the session's final
 * status to the Result handed to the completion handler.
 */
module Export {
  import opened Wrappers
  import opened Media
  import opened Timeline
  import opened AudioMix
  import opened Transforms

  /** The AVAssetExportSession presets the features use. */
  datatype Preset = HighestQuality | AppleM4A | Passthrough

  /** The AVFileType values the features use. */
  datatype FileType = Mp4 | Mov | M4a | Wav

  /** The file name extension that goes with a file type. */
  function Extension(fileType: FileType): string {
    match fileType
    case Mp4 => "mp4"
    case Mov => "mov"
    case M4a => "m4a"
    case Wav => "wav"
  }

  /** Distinct file types have distinct extensions. */
  lemma ExtensionInjective(f1: FileType, f2: FileType)
    ensures Extension(f1) == Extension(f2) <==> f1 == f2
  {
    if f1 != f2 {
      var e1, e2 := Extension(f1), Extension(f2);
      assert e1[0] != e2[0] || e1[1] != e2[1] || e1[2] != e2[2];
    }
  }

  /** One row of ExportFormat's switch: the preset, the file type and the extension. */
  datatype FormatChoice = FormatChoice(preset: Preset, fileType: FileType, ext: string)

  /**
   * ExportFormat's switch on the requested format: exactly the four known
   * format names have a row, and a row's extension is the format name itself
   * and the extension of its file type.
   */
  function FormatTable(format: string): (r: Option<FormatChoice>)
    ensures r.Some? <==> format in {"mp4", "mov", "m4a", "wav"}
    ensures r.Some? ==> r.value.ext == format && Extension(r.value.fileType) == format
  {
    match format
    case "mp4" => Some(FormatChoice(HighestQuality, Mp4, "mp4"))
    case "mov" => Some(FormatChoice(HighestQuality, Mov, "mov"))
    case "m4a" => Some(FormatChoice(AppleM4A, M4a, "m4a"))
    case "wav" => Some(FormatChoice(Passthrough, Wav, "wav"))
    case _ => None
  }

  /**
   * The presets of the table: the two video containers export at the
   * highest quality, m4a through the AppleM4A preset and wav as passthrough.
   */
  lemma FormatPresets()
    ensures FormatTable("mp4").value.preset == HighestQuality && FormatTable("mp4").value.fileType == Mp4
    ensures FormatTable("mov").value.preset == HighestQuality && FormatTable("mov").value.fileType == Mov
    ensures FormatTable("m4a").value.preset == AppleM4A && FormatTable("m4a").value.fileType == M4a
    ensures FormatTable("wav").value.preset == Passthrough && FormatTable("wav").value.fileType == Wav
  {
  }

  /** What the session exports: a file as it is, or a composition built from tracks. */
  datatype ExportSource = WholeAsset(url: string) | Composed(tracks: seq<CompositionTrack>)

  /**
   * A configured AVAssetExportSession and what its completion handler will
   * do: the source and preset it was created with, the output file type and
   * the suffix of the output file name, the optional time range, video
   * composition, audio mix and metadata, the type of the asset reported on
   * success, and the error domain and code reported when the session fails
   * without an error of its own.
   */
  datatype ExportJob = ExportJob(
    source: ExportSource,
    preset: Preset,
    fileType: FileType,
    fileSuffix: string,
    timeRange: Option<TimeRange>,
    videoComposition: Option<VideoComposition>,
    audioMix: seq<VolumeCommand>,
    metadata: Option<seq<string>>,
    resultType: AssetType,
    domain: string,
    fallbackCode: int)

  /** AVAssetExportSession.Status */
  datatype ExportStatus = Unknown | Waiting | Exporting | Completed | Failed | Cancelled

  /**
   * The completion handler: success with the output file, typed as the job
   * says, exactly when the session completed; otherwise the session's own
   * error, or the job's fallback error when the session has none.
   */
  function Completion(job: ExportJob, status: ExportStatus, sessionError: Option<Error>, outputUrl: string)
    : (r: Result<Asset>)
    ensures r.Success? <==> status == Completed
    ensures r.Success? ==> r.value == Asset(outputUrl, job.resultType)
    ensures r.Failure? && sessionError.Some? ==> r.error == sessionError.value
    ensures r.Failure? && sessionError.None? ==> r.error == Error(job.domain, job.fallbackCode)
  {
    if status == Completed then Success(Asset(outputUrl, job.resultType))
    else Failure(sessionError.GetOr(Error(job.domain, job.fallbackCode)))
  }

  /** A file name suffix that ends in ".ext". */
  predicate EndsWithExtension(suffix: string, fileType: FileType) {
    var tail := "." + Extension(fileType);
    |tail| <= |suffix| && forall i :: 0 <= i < |tail| ==> suffix[|suffix| - |tail| + i] == tail[i]
  }
}
