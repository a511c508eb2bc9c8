/**
 * What each feature's `run(on:params:completion:)` does with its asset and
 * parameters up to the export: the error it reports at once, or the export
 * session it configures and starts, whose final status Export.Completion
 * turns into the Result.
 */
module Runs {
  import opened Wrappers
  import opened Geometry
  import opened Media
  import opened Timeline
  import opened AudioMix
  import opened Transforms
  import opened Export
  import opened Features

  /**
   * What the media framework and the platform supply: what AVAsset(url:)
   * finds in a file, whether AVAssetExportSession(asset:presetName:) returns
   * a session, and the cosine and sine of an angle.
   */
  datatype Env = Env(probe: string -> SourceInfo, sessionCreated: bool, cos: real -> real, sin: real -> real)

  /**
   * How a run goes before the completion handler: it fails at once with an
   * error, starts an export session, or hands the work to code this model
   * does not include (CoreImage, the image generator, the file manager).
   */
  datatype Step = Fail(error: Error) | StartExport(job: ExportJob) | External

  /** Whether the file has the first track of that media type that a feature looks up. */
  predicate HasTrack(source: SourceInfo, mediaType: MediaType) {
    match mediaType
    case VideoMedia => source.video.Some?
    case AudioMedia => source.hasAudio
  }

  /** The timeline view of the assets a concatenation walks. */
  function ClipsOf(assets: seq<Asset>, probe: string -> SourceInfo, mediaType: MediaType): (clips: seq<Clip>)
    ensures |clips| == |assets|
    ensures forall i :: 0 <= i < |assets| ==>
      clips[i] == Clip(assets[i].url, probe(assets[i].url).duration, HasTrack(probe(assets[i].url), mediaType))
  {
    seq(|assets|, i requires 0 <= i < |assets| =>
      Clip(assets[i].url, probe(assets[i].url).duration, HasTrack(probe(assets[i].url), mediaType)))
  }

  /** A job exporting the asset's own file, without composition or mix. */
  function WholeFile(url: string, preset: Preset, fileType: FileType, suffix: string,
                     resultType: AssetType, domain: string, fallbackCode: int): ExportJob
  {
    ExportJob(WholeAsset(url), preset, fileType, suffix, None, None, [], None, resultType, domain, fallbackCode)
  }

  // --- Trim and AudioTrim -----------------------------------------------------

  /** Trim: export [start, start + duration) of the video as a .mov. */
  function RunTrim(url: string, params: Params, env: Env): (r: Step)
    ensures r.Fail? || r.StartExport?
    ensures r.Fail? ==> r.error.domain == "Trim" && 1 <= r.error.code <= 2
    ensures r == Fail(Error("Trim", 1)) <==> !Conforms(params, Schema(TrimFeature))
    ensures r == Fail(Error("Trim", 2)) <==> Conforms(params, Schema(TrimFeature)) && !env.sessionCreated
    ensures r.StartExport? ==> AsDouble(params, "start").Some? && AsDouble(params, "duration").Some?
    ensures r.StartExport? ==>
      var start, duration := AsDouble(params, "start").value, AsDouble(params, "duration").value;
      && r.job.source == WholeAsset(url)
      && r.job.timeRange.Some?
      && r.job.timeRange.value.start == start && r.job.timeRange.value.End() == start + duration
      && r.job.preset == HighestQuality && r.job.fileType == Mov && r.job.fileSuffix == "_trim.mov"
      && r.job.resultType == Video && r.job.domain == "Trim" && r.job.fallbackCode == 3
      && r.job.videoComposition.None? && r.job.audioMix == [] && r.job.metadata.None?
  {
    ConformsTwo(params, Requirement("start", TDouble), Requirement("duration", TDouble));
    CastSucceedsIffMeets(params, "start");
    CastSucceedsIffMeets(params, "duration");
    if AsDouble(params, "start").None? || AsDouble(params, "duration").None? then Fail(Error("Trim", 1))
    else if !env.sessionCreated then Fail(Error("Trim", 2))
    else
      var start, duration := AsDouble(params, "start").value, AsDouble(params, "duration").value;
      StartExport(WholeFile(url, HighestQuality, Mov, "_trim.mov", Video, "Trim", 3)
                  .(timeRange := Some(TimeRange(start, duration))))
  }

  /** AudioTrim: export [start, start + duration) of the audio as an .m4a. */
  function RunAudioTrim(url: string, params: Params, env: Env): (r: Step)
    ensures r.Fail? || r.StartExport?
    ensures r.Fail? ==> r.error.domain == "AudioTrim" && 1 <= r.error.code <= 2
    ensures r == Fail(Error("AudioTrim", 1)) <==> !Conforms(params, Schema(AudioTrimFeature))
    ensures r == Fail(Error("AudioTrim", 2)) <==> Conforms(params, Schema(AudioTrimFeature)) && !env.sessionCreated
    ensures r.StartExport? ==> AsDouble(params, "start").Some? && AsDouble(params, "duration").Some?
    ensures r.StartExport? ==>
      var start, duration := AsDouble(params, "start").value, AsDouble(params, "duration").value;
      && r.job.source == WholeAsset(url)
      && r.job.timeRange.Some?
      && r.job.timeRange.value.start == start && r.job.timeRange.value.End() == start + duration
      && r.job.preset == AppleM4A && r.job.fileType == M4a && r.job.fileSuffix == "_audiotrim.m4a"
      && r.job.resultType == Audio && r.job.domain == "AudioTrim" && r.job.fallbackCode == 3
      && r.job.videoComposition.None? && r.job.audioMix == [] && r.job.metadata.None?
  {
    ConformsTwo(params, Requirement("start", TDouble), Requirement("duration", TDouble));
    CastSucceedsIffMeets(params, "start");
    CastSucceedsIffMeets(params, "duration");
    if AsDouble(params, "start").None? || AsDouble(params, "duration").None? then Fail(Error("AudioTrim", 1))
    else if !env.sessionCreated then Fail(Error("AudioTrim", 2))
    else
      var start, duration := AsDouble(params, "start").value, AsDouble(params, "duration").value;
      StartExport(WholeFile(url, AppleM4A, M4a, "_audiotrim.m4a", Audio, "AudioTrim", 3)
                  .(timeRange := Some(TimeRange(start, duration))))
  }

  // --- Concat and MergeAudio ------------------------------------------------

  /**
   * Concat: the video tracks of the asset and then of the listed assets,
   * laid end to end, skipping files without a video track.
   */
  function RunConcat(asset: Asset, params: Params, env: Env): (r: Step)
    ensures r.Fail? || r.StartExport?
    ensures r.Fail? ==> r.error.domain == "Concat" && 1 <= r.error.code <= 2
    ensures r == Fail(Error("Concat", 1)) <==> !Conforms(params, Schema(ConcatFeature))
    ensures r == Fail(Error("Concat", 2)) <==> Conforms(params, Schema(ConcatFeature)) && !env.sessionCreated
    ensures r.StartExport? ==> AsAssetList(params, "assets").Some?
    ensures r.StartExport? ==>
      var clips := ClipsOf([asset] + AsAssetList(params, "assets").value, env.probe, VideoMedia);
      && r.job.source == Composed(ConcatTracks(clips, VideoMedia))
      && r.job.preset == HighestQuality && r.job.fileType == Mov && r.job.fileSuffix == "_concat.mov"
      && r.job.resultType == Video && r.job.domain == "Concat" && r.job.fallbackCode == 3
      && r.job.timeRange.None? && r.job.videoComposition.None? && r.job.audioMix == [] && r.job.metadata.None?
  {
    ConformsOne(params, Requirement("assets", TAssetList));
    CastSucceedsIffMeets(params, "assets");
    if AsAssetList(params, "assets").None? then Fail(Error("Concat", 1))
    else if !env.sessionCreated then Fail(Error("Concat", 2))
    else
      var clips := ClipsOf([asset] + AsAssetList(params, "assets").value, env.probe, VideoMedia);
      StartExport(WholeFile(asset.url, HighestQuality, Mov, "_concat.mov", Video, "Concat", 3)
                  .(source := Composed(ConcatTracks(clips, VideoMedia))))
  }

  /**
   * MergeAudio: the audio tracks of the asset and then of the listed assets,
   * laid end to end, skipping files without an audio track.
   */
  function RunMergeAudio(asset: Asset, params: Params, env: Env): (r: Step)
    ensures r.Fail? || r.StartExport?
    ensures r.Fail? ==> r.error.domain == "MergeAudio" && 1 <= r.error.code <= 2
    ensures r == Fail(Error("MergeAudio", 1)) <==> !Conforms(params, Schema(MergeAudioFeature))
    ensures r == Fail(Error("MergeAudio", 2)) <==> Conforms(params, Schema(MergeAudioFeature)) && !env.sessionCreated
    ensures r.StartExport? ==> AsAssetList(params, "assets").Some?
    ensures r.StartExport? ==>
      var clips := ClipsOf([asset] + AsAssetList(params, "assets").value, env.probe, AudioMedia);
      && r.job.source == Composed(ConcatTracks(clips, AudioMedia))
      && r.job.preset == AppleM4A && r.job.fileType == M4a && r.job.fileSuffix == "_mergeaudio.m4a"
      && r.job.resultType == Audio && r.job.domain == "MergeAudio" && r.job.fallbackCode == 3
      && r.job.timeRange.None? && r.job.videoComposition.None? && r.job.audioMix == [] && r.job.metadata.None?
  {
    ConformsOne(params, Requirement("assets", TAssetList));
    CastSucceedsIffMeets(params, "assets");
    if AsAssetList(params, "assets").None? then Fail(Error("MergeAudio", 1))
    else if !env.sessionCreated then Fail(Error("MergeAudio", 2))
    else
      var clips := ClipsOf([asset] + AsAssetList(params, "assets").value, env.probe, AudioMedia);
      StartExport(WholeFile(asset.url, AppleM4A, M4a, "_mergeaudio.m4a", Audio, "MergeAudio", 3)
                  .(source := Composed(ConcatTracks(clips, AudioMedia))))
  }

  // --- Crop, Upscale, Rotate, Flip, ChangeCanvas -----------------------------

  /** Crop: render the w by h rectangle whose corner is (x, y). */
  function RunCrop(url: string, params: Params, env: Env): (r: Step)
    ensures r.Fail? || r.StartExport?
    ensures r.Fail? ==> r.error.domain == "Crop" && 1 <= r.error.code <= 2
    ensures r == Fail(Error("Crop", 1)) <==> !Conforms(params, Schema(CropFeature))
    ensures r == Fail(Error("Crop", 2)) <==>
      Conforms(params, Schema(CropFeature)) && (env.probe(url).video.None? || !env.sessionCreated)
    ensures r.StartExport? ==>
      && AsCGFloat(params, "x").Some? && AsCGFloat(params, "y").Some?
      && AsCGFloat(params, "w").Some? && AsCGFloat(params, "h").Some?
      && env.probe(url).video.Some? && r.job.videoComposition.Some?
    ensures r.StartExport? ==>
      var x, y := AsCGFloat(params, "x").value, AsCGFloat(params, "y").value;
      var w, h := AsCGFloat(params, "w").value, AsCGFloat(params, "h").value;
      var vc := r.job.videoComposition.value;
      && vc == CropComposition(env.probe(url), env.probe(url).video.value, x, y, w, h)
      && vc.renderSize == Size(w, h)
      && Apply(vc.transform, Point(x, y)) == Point(0.0, 0.0)
      && vc.instructionRange == TimeRange(0.0, env.probe(url).duration)
      && r.job.source == WholeAsset(url)
      && r.job.preset == HighestQuality && r.job.fileType == Mov && r.job.fileSuffix == "_crop.mov"
      && r.job.resultType == Video && r.job.domain == "Crop" && r.job.fallbackCode == 3
      && r.job.timeRange.None? && r.job.audioMix == [] && r.job.metadata.None?
  {
    ConformsFour(params, Requirement("x", TCGFloat), Requirement("y", TCGFloat),
                 Requirement("w", TCGFloat), Requirement("h", TCGFloat));
    CastSucceedsIffMeets(params, "x");
    CastSucceedsIffMeets(params, "y");
    CastSucceedsIffMeets(params, "w");
    CastSucceedsIffMeets(params, "h");
    var source := env.probe(url);
    if AsCGFloat(params, "x").None? || AsCGFloat(params, "y").None?
       || AsCGFloat(params, "w").None? || AsCGFloat(params, "h").None?
    then Fail(Error("Crop", 1))
    else if source.video.None? || !env.sessionCreated then Fail(Error("Crop", 2))
    else
      var x, y := AsCGFloat(params, "x").value, AsCGFloat(params, "y").value;
      var w, h := AsCGFloat(params, "w").value, AsCGFloat(params, "h").value;
      assert Apply(CropTransform(x, y), Point(x, y)) == Point(0.0, 0.0);
      StartExport(WholeFile(url, HighestQuality, Mov, "_crop.mov", Video, "Crop", 3)
                  .(videoComposition := Some(CropComposition(source, source.video.value, x, y, w, h))))
  }

  /** Upscale: render at width by height, stretching the natural frame to fill it. */
  function RunUpscale(url: string, params: Params, env: Env): (r: Step)
    ensures r.Fail? || r.StartExport?
    ensures r.Fail? ==> r.error.domain == "Upscale" && 1 <= r.error.code <= 2
    ensures r == Fail(Error("Upscale", 1)) <==> !Conforms(params, Schema(UpscaleFeature))
    ensures r == Fail(Error("Upscale", 2)) <==>
      Conforms(params, Schema(UpscaleFeature)) && (env.probe(url).video.None? || !env.sessionCreated)
    ensures r.StartExport? ==>
      AsCGFloat(params, "width").Some? && AsCGFloat(params, "height").Some?
      && env.probe(url).video.Some? && r.job.videoComposition.Some?
    ensures r.StartExport? ==>
      var width, height := AsCGFloat(params, "width").value, AsCGFloat(params, "height").value;
      var n := env.probe(url).video.value.naturalSize;
      var vc := r.job.videoComposition.value;
      && vc == UpscaleComposition(env.probe(url), env.probe(url).video.value, width, height)
      && vc.renderSize == Size(width, height)
      && Apply(vc.transform, Point(n.width, n.height)) == Point(width, height)
      && vc.instructionRange == TimeRange(0.0, env.probe(url).duration)
      && r.job.source == WholeAsset(url)
      && r.job.preset == HighestQuality && r.job.fileType == Mov && r.job.fileSuffix == "_upscale.mov"
      && r.job.resultType == Video && r.job.domain == "Upscale" && r.job.fallbackCode == 3
      && r.job.timeRange.None? && r.job.audioMix == [] && r.job.metadata.None?
  {
    ConformsTwo(params, Requirement("width", TCGFloat), Requirement("height", TCGFloat));
    CastSucceedsIffMeets(params, "width");
    CastSucceedsIffMeets(params, "height");
    var source := env.probe(url);
    if AsCGFloat(params, "width").None? || AsCGFloat(params, "height").None? then Fail(Error("Upscale", 1))
    else if source.video.None? || !env.sessionCreated then Fail(Error("Upscale", 2))
    else
      var width, height := AsCGFloat(params, "width").value, AsCGFloat(params, "height").value;
      var n := source.video.value.naturalSize;
      assert (width / n.width) * n.width == width && (height / n.height) * n.height == height;
      StartExport(WholeFile(url, HighestQuality, Mov, "_upscale.mov", Video, "Upscale", 3)
                  .(videoComposition := Some(UpscaleComposition(source, source.video.value, width, height))))
  }

  /** Rotate: the natural render size and a rotation by the given angle. */
  function RunRotate(url: string, params: Params, env: Env): (r: Step)
    ensures r.Fail? || r.StartExport?
    ensures r.Fail? ==> r.error.domain == "Rotate" && 1 <= r.error.code <= 2
    ensures r == Fail(Error("Rotate", 1)) <==> !Conforms(params, Schema(RotateFeature))
    ensures r == Fail(Error("Rotate", 2)) <==>
      Conforms(params, Schema(RotateFeature)) && (env.probe(url).video.None? || !env.sessionCreated)
    ensures r.StartExport? ==>
      AsCGFloat(params, "angle").Some? && env.probe(url).video.Some? && r.job.videoComposition.Some?
    ensures r.StartExport? ==>
      var angle := AsCGFloat(params, "angle").value;
      var vc := r.job.videoComposition.value;
      && vc == RotateComposition(env.probe(url), env.probe(url).video.value, env.cos(angle), env.sin(angle))
      && vc.renderSize == env.probe(url).video.value.naturalSize
      && vc.transform == Rotation(env.cos(angle), env.sin(angle))
      && vc.instructionRange == TimeRange(0.0, env.probe(url).duration)
      && r.job.source == WholeAsset(url)
      && r.job.preset == HighestQuality && r.job.fileType == Mov && r.job.fileSuffix == "_rot.mov"
      && r.job.resultType == Video && r.job.domain == "Rotate" && r.job.fallbackCode == 3
      && r.job.timeRange.None? && r.job.audioMix == [] && r.job.metadata.None?
  {
    ConformsOne(params, Requirement("angle", TCGFloat));
    CastSucceedsIffMeets(params, "angle");
    var source := env.probe(url);
    if AsCGFloat(params, "angle").None? then Fail(Error("Rotate", 1))
    else if source.video.None? || !env.sessionCreated then Fail(Error("Rotate", 2))
    else
      var angle := AsCGFloat(params, "angle").value;
      StartExport(WholeFile(url, HighestQuality, Mov, "_rot.mov", Video, "Rotate", 3)
                  .(videoComposition := Some(RotateComposition(source, source.video.value,
                                                                env.cos(angle), env.sin(angle)))))
  }

  /** Flip: the natural render size and a mirror image along the requested axes. */
  function RunFlip(url: string, params: Params, env: Env): (r: Step)
    ensures r.Fail? || r.StartExport?
    ensures r.Fail? ==> r.error.domain == "Flip" && 1 <= r.error.code <= 2
    ensures r == Fail(Error("Flip", 1)) <==> !Conforms(params, Schema(FlipFeature))
    ensures r == Fail(Error("Flip", 2)) <==>
      Conforms(params, Schema(FlipFeature)) && (env.probe(url).video.None? || !env.sessionCreated)
    ensures r.StartExport? ==>
      AsBool(params, "horizontal").Some? && AsBool(params, "vertical").Some?
      && env.probe(url).video.Some? && r.job.videoComposition.Some?
    ensures r.StartExport? ==>
      var horizontal, vertical := AsBool(params, "horizontal").value, AsBool(params, "vertical").value;
      var n := env.probe(url).video.value.naturalSize;
      var vc := r.job.videoComposition.value;
      && vc == FlipComposition(env.probe(url), env.probe(url).video.value, horizontal, vertical)
      && vc.renderSize == n
      && vc.transform == FlipTransformOf(horizontal, vertical, n.width, n.height)
      && vc.instructionRange == TimeRange(0.0, env.probe(url).duration)
      && r.job.source == WholeAsset(url)
      && r.job.preset == HighestQuality && r.job.fileType == Mov && r.job.fileSuffix == "_flip.mov"
      && r.job.resultType == Video && r.job.domain == "Flip" && r.job.fallbackCode == 3
      && r.job.timeRange.None? && r.job.audioMix == [] && r.job.metadata.None?
  {
    ConformsTwo(params, Requirement("horizontal", TBool), Requirement("vertical", TBool));
    CastSucceedsIffMeets(params, "horizontal");
    CastSucceedsIffMeets(params, "vertical");
    var source := env.probe(url);
    if AsBool(params, "horizontal").None? || AsBool(params, "vertical").None? then Fail(Error("Flip", 1))
    else if source.video.None? || !env.sessionCreated then Fail(Error("Flip", 2))
    else
      var horizontal, vertical := AsBool(params, "horizontal").value, AsBool(params, "vertical").value;
      StartExport(WholeFile(url, HighestQuality, Mov, "_flip.mov", Video, "Flip", 3)
                  .(videoComposition := Some(FlipComposition(source, source.video.value, horizontal, vertical))))
  }

  /** ChangeCanvas: a width by height canvas with the natural frame centred on it. */
  function RunChangeCanvas(url: string, params: Params, env: Env): (r: Step)
    ensures r.Fail? || r.StartExport?
    ensures r.Fail? ==> r.error.domain == "ChangeCanvas" && 1 <= r.error.code <= 2
    ensures r == Fail(Error("ChangeCanvas", 1)) <==> !Conforms(params, Schema(ChangeCanvasFeature))
    ensures r == Fail(Error("ChangeCanvas", 2)) <==>
      Conforms(params, Schema(ChangeCanvasFeature)) && (env.probe(url).video.None? || !env.sessionCreated)
    ensures r.StartExport? ==>
      AsCGFloat(params, "width").Some? && AsCGFloat(params, "height").Some?
      && env.probe(url).video.Some? && r.job.videoComposition.Some?
    ensures r.StartExport? ==>
      var width, height := AsCGFloat(params, "width").value, AsCGFloat(params, "height").value;
      var n := env.probe(url).video.value.naturalSize;
      var vc := r.job.videoComposition.value;
      && vc == CanvasComposition(env.probe(url), env.probe(url).video.value, width, height)
      && vc.renderSize == Size(width, height)
      && Apply(vc.transform, Point(n.width / 2.0, n.height / 2.0)) == Point(width / 2.0, height / 2.0)
      && vc.instructionRange == TimeRange(0.0, env.probe(url).duration)
      && r.job.source == WholeAsset(url)
      && r.job.preset == HighestQuality && r.job.fileType == Mov && r.job.fileSuffix == "_canvas.mov"
      && r.job.resultType == Video && r.job.domain == "ChangeCanvas" && r.job.fallbackCode == 3
      && r.job.timeRange.None? && r.job.audioMix == [] && r.job.metadata.None?
  {
    ConformsTwo(params, Requirement("width", TCGFloat), Requirement("height", TCGFloat));
    CastSucceedsIffMeets(params, "width");
    CastSucceedsIffMeets(params, "height");
    var source := env.probe(url);
    if AsCGFloat(params, "width").None? || AsCGFloat(params, "height").None? then Fail(Error("ChangeCanvas", 1))
    else if source.video.None? || !env.sessionCreated then Fail(Error("ChangeCanvas", 2))
    else
      var width, height := AsCGFloat(params, "width").value, AsCGFloat(params, "height").value;
      StartExport(WholeFile(url, HighestQuality, Mov, "_canvas.mov", Video, "ChangeCanvas", 3)
                  .(videoComposition := Some(CanvasComposition(source, source.video.value, width, height))))
  }

  // --- Speed ----------------------------------------------------------------

  /** The factor Speed divides by: a zero factor is the caller's mistake. */
  predicate SpeedFactorNonZero(params: Params) {
    AsFloat(params, "factor") != Some(0.0)
  }

  /** Speed: the whole video, inserted at zero and stretched to duration / factor. */
  function RunSpeed(url: string, params: Params, env: Env): (r: Step)
    requires SpeedFactorNonZero(params)
    ensures r.Fail? || r.StartExport?
    ensures r.Fail? ==> r.error.domain == "Speed" && 1 <= r.error.code <= 3
    ensures r == Fail(Error("Speed", 1)) <==> !Conforms(params, Schema(SpeedFeature))
    ensures r == Fail(Error("Speed", 2)) <==> Conforms(params, Schema(SpeedFeature)) && env.probe(url).video.None?
    ensures r == Fail(Error("Speed", 3)) <==>
      Conforms(params, Schema(SpeedFeature)) && env.probe(url).video.Some? && !env.sessionCreated
    ensures r.StartExport? ==> AsFloat(params, "factor").Some? && r.job.source.Composed?
    ensures r.StartExport? ==>
      var factor := AsFloat(params, "factor").value;
      var tracks := r.job.source.tracks;
      && |tracks| == 1 && tracks[0].mediaType == VideoMedia && tracks[0].source == url
      && tracks[0].sourceRange == TimeRange(0.0, env.probe(url).duration) && tracks[0].at == 0.0
      && tracks[0].length * factor == env.probe(url).duration
      && r.job.preset == HighestQuality && r.job.fileType == Mov && r.job.fileSuffix == "_speed.mov"
      && r.job.resultType == Video && r.job.domain == "Speed" && r.job.fallbackCode == 4
      && r.job.timeRange.None? && r.job.videoComposition.None? && r.job.audioMix == [] && r.job.metadata.None?
  {
    ConformsOne(params, Requirement("factor", TFloat));
    CastSucceedsIffMeets(params, "factor");
    var source := env.probe(url);
    if AsFloat(params, "factor").None? then Fail(Error("Speed", 1))
    else if source.video.None? then Fail(Error("Speed", 2))
    else if !env.sessionCreated then Fail(Error("Speed", 3))
    else
      var factor := AsFloat(params, "factor").value;
      SpeedRescales(url, source.duration, factor);
      StartExport(WholeFile(url, HighestQuality, Mov, "_speed.mov", Video, "Speed", 4)
                  .(source := Composed(SpeedTracks(url, source.duration, factor))))
  }

  // --- FadeAudio, Volume, AudioFadeIn, AudioFadeOut ---------------------------

  /** FadeAudio: a fade-in and a fade-out ramp on the first audio track, exported as .m4a. */
  function RunFadeAudio(url: string, params: Params, env: Env): (r: Step)
    ensures r.Fail? || r.StartExport?
    ensures r.Fail? ==> r.error.domain == "FadeAudio" && 1 <= r.error.code <= 3
    ensures r == Fail(Error("FadeAudio", 1)) <==> !Conforms(params, Schema(FadeAudioFeature))
    ensures r == Fail(Error("FadeAudio", 2)) <==> Conforms(params, Schema(FadeAudioFeature)) && !env.probe(url).hasAudio
    ensures r == Fail(Error("FadeAudio", 3)) <==>
      Conforms(params, Schema(FadeAudioFeature)) && env.probe(url).hasAudio && !env.sessionCreated
    ensures r.StartExport? ==> AsDouble(params, "fadeIn").Some? && AsDouble(params, "fadeOut").Some?
    ensures r.StartExport? ==>
      var fadeIn, fadeOut := AsDouble(params, "fadeIn").value, AsDouble(params, "fadeOut").value;
      && r.job.audioMix == FadeMix(env.probe(url).duration, fadeIn, fadeOut)
      && r.job.source == WholeAsset(url)
      && r.job.preset == AppleM4A && r.job.fileType == M4a && r.job.fileSuffix == "_fadeaudio.m4a"
      && r.job.resultType == Audio && r.job.domain == "FadeAudio" && r.job.fallbackCode == 4
      && r.job.timeRange.None? && r.job.videoComposition.None? && r.job.metadata.None?
  {
    ConformsTwo(params, Requirement("fadeIn", TDouble), Requirement("fadeOut", TDouble));
    CastSucceedsIffMeets(params, "fadeIn");
    CastSucceedsIffMeets(params, "fadeOut");
    var source := env.probe(url);
    if AsDouble(params, "fadeIn").None? || AsDouble(params, "fadeOut").None? then Fail(Error("FadeAudio", 1))
    else if !source.hasAudio then Fail(Error("FadeAudio", 2))
    else if !env.sessionCreated then Fail(Error("FadeAudio", 3))
    else
      var fadeIn, fadeOut := AsDouble(params, "fadeIn").value, AsDouble(params, "fadeOut").value;
      StartExport(WholeFile(url, AppleM4A, M4a, "_fadeaudio.m4a", Audio, "FadeAudio", 4)
                  .(audioMix := FadeMix(source.duration, fadeIn, fadeOut)))
  }

  /** Volume: one volume level from time zero on the first audio track, exported as .m4a. */
  function RunVolume(url: string, params: Params, env: Env): (r: Step)
    ensures r.Fail? || r.StartExport?
    ensures r.Fail? ==> r.error.domain == "Volume" && 1 <= r.error.code <= 3
    ensures r == Fail(Error("Volume", 1)) <==> !Conforms(params, Schema(VolumeFeature))
    ensures r == Fail(Error("Volume", 2)) <==> Conforms(params, Schema(VolumeFeature)) && !env.probe(url).hasAudio
    ensures r == Fail(Error("Volume", 3)) <==>
      Conforms(params, Schema(VolumeFeature)) && env.probe(url).hasAudio && !env.sessionCreated
    ensures r.StartExport? ==> AsFloat(params, "volume").Some?
    ensures r.StartExport? ==>
      && r.job.audioMix == VolumeMix(AsFloat(params, "volume").value)
      && r.job.source == WholeAsset(url)
      && r.job.preset == AppleM4A && r.job.fileType == M4a && r.job.fileSuffix == "_volume.m4a"
      && r.job.resultType == Audio && r.job.domain == "Volume" && r.job.fallbackCode == 4
      && r.job.timeRange.None? && r.job.videoComposition.None? && r.job.metadata.None?
  {
    ConformsOne(params, Requirement("volume", TFloat));
    CastSucceedsIffMeets(params, "volume");
    var source := env.probe(url);
    if AsFloat(params, "volume").None? then Fail(Error("Volume", 1))
    else if !source.hasAudio then Fail(Error("Volume", 2))
    else if !env.sessionCreated then Fail(Error("Volume", 3))
    else
      StartExport(WholeFile(url, AppleM4A, M4a, "_volume.m4a", Audio, "Volume", 4)
                  .(audioMix := VolumeMix(AsFloat(params, "volume").value)))
  }

  /** AudioFadeIn: the fade-in ramp alone. */
  function RunAudioFadeIn(url: string, params: Params, env: Env): (r: Step)
    ensures r.Fail? || r.StartExport?
    ensures r.Fail? ==> r.error.domain == "AudioFadeIn" && 1 <= r.error.code <= 3
    ensures r == Fail(Error("AudioFadeIn", 1)) <==> !Conforms(params, Schema(AudioFadeInFeature))
    ensures r == Fail(Error("AudioFadeIn", 2)) <==>
      Conforms(params, Schema(AudioFadeInFeature)) && !env.probe(url).hasAudio
    ensures r == Fail(Error("AudioFadeIn", 3)) <==>
      Conforms(params, Schema(AudioFadeInFeature)) && env.probe(url).hasAudio && !env.sessionCreated
    ensures r.StartExport? ==> AsDouble(params, "fadeIn").Some?
    ensures r.StartExport? ==>
      && r.job.audioMix == [FadeInRamp(AsDouble(params, "fadeIn").value)]
      && r.job.source == WholeAsset(url)
      && r.job.preset == AppleM4A && r.job.fileType == M4a && r.job.fileSuffix == "_fadein.m4a"
      && r.job.resultType == Audio && r.job.domain == "AudioFadeIn" && r.job.fallbackCode == 4
      && r.job.timeRange.None? && r.job.videoComposition.None? && r.job.metadata.None?
  {
    ConformsOne(params, Requirement("fadeIn", TDouble));
    CastSucceedsIffMeets(params, "fadeIn");
    var source := env.probe(url);
    if AsDouble(params, "fadeIn").None? then Fail(Error("AudioFadeIn", 1))
    else if !source.hasAudio then Fail(Error("AudioFadeIn", 2))
    else if !env.sessionCreated then Fail(Error("AudioFadeIn", 3))
    else
      StartExport(WholeFile(url, AppleM4A, M4a, "_fadein.m4a", Audio, "AudioFadeIn", 4)
                  .(audioMix := [FadeInRamp(AsDouble(params, "fadeIn").value)]))
  }

  /** AudioFadeOut: the fade-out ramp alone, ending at the asset's duration. */
  function RunAudioFadeOut(url: string, params: Params, env: Env): (r: Step)
    ensures r.Fail? || r.StartExport?
    ensures r.Fail? ==> r.error.domain == "AudioFadeOut" && 1 <= r.error.code <= 3
    ensures r == Fail(Error("AudioFadeOut", 1)) <==> !Conforms(params, Schema(AudioFadeOutFeature))
    ensures r == Fail(Error("AudioFadeOut", 2)) <==>
      Conforms(params, Schema(AudioFadeOutFeature)) && !env.probe(url).hasAudio
    ensures r == Fail(Error("AudioFadeOut", 3)) <==>
      Conforms(params, Schema(AudioFadeOutFeature)) && env.probe(url).hasAudio && !env.sessionCreated
    ensures r.StartExport? ==> AsDouble(params, "fadeOut").Some?
    ensures r.StartExport? ==>
      && r.job.audioMix == [FadeOutRamp(env.probe(url).duration, AsDouble(params, "fadeOut").value)]
      && r.job.audioMix[0].range.End() == env.probe(url).duration
      && r.job.source == WholeAsset(url)
      && r.job.preset == AppleM4A && r.job.fileType == M4a && r.job.fileSuffix == "_fadeout.m4a"
      && r.job.resultType == Audio && r.job.domain == "AudioFadeOut" && r.job.fallbackCode == 4
      && r.job.timeRange.None? && r.job.videoComposition.None? && r.job.metadata.None?
  {
    ConformsOne(params, Requirement("fadeOut", TDouble));
    CastSucceedsIffMeets(params, "fadeOut");
    var source := env.probe(url);
    if AsDouble(params, "fadeOut").None? then Fail(Error("AudioFadeOut", 1))
    else if !source.hasAudio then Fail(Error("AudioFadeOut", 2))
    else if !env.sessionCreated then Fail(Error("AudioFadeOut", 3))
    else
      StartExport(WholeFile(url, AppleM4A, M4a, "_fadeout.m4a", Audio, "AudioFadeOut", 4)
                  .(audioMix := [FadeOutRamp(source.duration, AsDouble(params, "fadeOut").value)]))
  }

  // --- ExportFormat ---------------------------------------------------------

  /** ExportFormat: re-export in one of four known formats, keeping the asset's type. */
  function RunExportFormat(asset: Asset, params: Params, env: Env): (r: Step)
    ensures r.Fail? || r.StartExport?
    ensures r.Fail? ==> r.error.domain == "ExportFormat" && 1 <= r.error.code <= 3
    ensures r == Fail(Error("ExportFormat", 1)) <==> !Conforms(params, Schema(ExportFormatFeature))
    ensures r == Fail(Error("ExportFormat", 2)) <==>
      Conforms(params, Schema(ExportFormatFeature)) && AsString(params, "format").Some?
      && AsString(params, "format").value !in {"mp4", "mov", "m4a", "wav"}
    ensures r == Fail(Error("ExportFormat", 3)) <==>
      Conforms(params, Schema(ExportFormatFeature)) && AsString(params, "format").Some?
      && AsString(params, "format").value in {"mp4", "mov", "m4a", "wav"} && !env.sessionCreated
    ensures r.StartExport? ==>
      AsString(params, "format").Some? && FormatTable(AsString(params, "format").value).Some?
    ensures r.StartExport? ==>
      var format := AsString(params, "format").value;
      var choice := FormatTable(format).value;
      && r.job.preset == choice.preset && r.job.fileType == choice.fileType
      && r.job.fileSuffix == "_export." + format
      && r.job.resultType == asset.kind
      && r.job.source == WholeAsset(asset.url) && r.job.domain == "ExportFormat" && r.job.fallbackCode == 4
      && r.job.timeRange.None? && r.job.videoComposition.None? && r.job.audioMix == [] && r.job.metadata.None?
  {
    ConformsOne(params, Requirement("format", TString));
    CastSucceedsIffMeets(params, "format");
    if AsString(params, "format").None? then Fail(Error("ExportFormat", 1))
    else
      match FormatTable(AsString(params, "format").value)
      case None => Fail(Error("ExportFormat", 2))
      case Some(choice) =>
        if !env.sessionCreated then Fail(Error("ExportFormat", 3))
        else StartExport(WholeFile(asset.url, choice.preset, choice.fileType, "_export." + choice.ext,
                                   asset.kind, "ExportFormat", 4))
  }

  // --- AddAudio, RemoveAudio, ExtractAudio, AudioToWav ------------------------

  /** AddAudio: the video's video track and the other file's audio track over the video's duration. */
  function RunAddAudio(url: string, params: Params, env: Env): (r: Step)
    ensures r.Fail? || r.StartExport?
    ensures r.Fail? ==> r.error.domain == "AddAudio" && 1 <= r.error.code <= 2
    ensures r == Fail(Error("AddAudio", 1)) <==> !Conforms(params, Schema(AddAudioFeature))
    ensures r == Fail(Error("AddAudio", 2)) <==> Conforms(params, Schema(AddAudioFeature)) && !env.sessionCreated
    ensures r.StartExport? ==> AsAsset(params, "audio").Some?
    ensures r.StartExport? ==>
      var audio := AsAsset(params, "audio").value;
      && r.job.source
         == Composed(AddAudioTracks(url, env.probe(url), audio.url, env.probe(audio.url)))
      && r.job.preset == HighestQuality && r.job.fileType == Mov && r.job.fileSuffix == "_addaudio.mov"
      && r.job.resultType == Video && r.job.domain == "AddAudio" && r.job.fallbackCode == 3
      && r.job.timeRange.None? && r.job.videoComposition.None? && r.job.audioMix == [] && r.job.metadata.None?
  {
    ConformsOne(params, Requirement("audio", TAsset));
    CastSucceedsIffMeets(params, "audio");
    if AsAsset(params, "audio").None? then Fail(Error("AddAudio", 1))
    else if !env.sessionCreated then Fail(Error("AddAudio", 2))
    else
      var audio := AsAsset(params, "audio").value;
      StartExport(WholeFile(url, HighestQuality, Mov, "_addaudio.mov", Video, "AddAudio", 3)
                  .(source := Composed(AddAudioTracks(url, env.probe(url), audio.url, env.probe(audio.url)))))
  }

  /** RemoveAudio: a composition of the video track alone. */
  function RunRemoveAudio(url: string, env: Env): (r: Step)
    ensures r.Fail? <==> !env.sessionCreated
    ensures r.Fail? ==> r.error == Error("RemoveAudio", 1)
    ensures r.StartExport? ==>
      && r.job.source == Composed(VideoOnlyTracks(url, env.probe(url)))
      && r.job.preset == HighestQuality && r.job.fileType == Mov && r.job.fileSuffix == "_removeaudio.mov"
      && r.job.resultType == Video && r.job.domain == "RemoveAudio" && r.job.fallbackCode == 2
      && r.job.timeRange.None? && r.job.videoComposition.None? && r.job.audioMix == [] && r.job.metadata.None?
  {
    if !env.sessionCreated then Fail(Error("RemoveAudio", 1))
    else
      StartExport(WholeFile(url, HighestQuality, Mov, "_removeaudio.mov", Video, "RemoveAudio", 2)
                  .(source := Composed(VideoOnlyTracks(url, env.probe(url)))))
  }

  /** ExtractAudio: the whole file's duration exported through the AppleM4A preset. */
  function RunExtractAudio(url: string, env: Env): (r: Step)
    ensures r.Fail? <==> !env.sessionCreated
    ensures r.Fail? ==> r.error == Error("ExtractAudio", 1)
    ensures r.StartExport? ==>
      && r.job.timeRange == Some(TimeRange(0.0, env.probe(url).duration))
      && r.job.source == WholeAsset(url)
      && r.job.preset == AppleM4A && r.job.fileType == M4a && r.job.fileSuffix == "_extractaudio.m4a"
      && r.job.resultType == Audio && r.job.domain == "ExtractAudio" && r.job.fallbackCode == 2
      && r.job.videoComposition.None? && r.job.audioMix == [] && r.job.metadata.None?
  {
    if !env.sessionCreated then Fail(Error("ExtractAudio", 1))
    else
      StartExport(WholeFile(url, AppleM4A, M4a, "_extractaudio.m4a", Audio, "ExtractAudio", 2)
                  .(timeRange := Some(TimeRange(0.0, env.probe(url).duration))))
  }

  /** AudioToWav: a passthrough export to .wav. */
  function RunAudioToWav(url: string, env: Env): (r: Step)
    ensures r.Fail? <==> !env.sessionCreated
    ensures r.Fail? ==> r.error == Error("AudioToWav", 1)
    ensures r.StartExport? ==>
      && r.job.source == WholeAsset(url)
      && r.job.preset == Passthrough && r.job.fileType == Wav && r.job.fileSuffix == ".wav"
      && r.job.resultType == Audio && r.job.domain == "AudioToWav" && r.job.fallbackCode == 2
      && r.job.timeRange.None? && r.job.videoComposition.None? && r.job.audioMix == [] && r.job.metadata.None?
  {
    if !env.sessionCreated then Fail(Error("AudioToWav", 1))
    else StartExport(WholeFile(url, Passthrough, Wav, ".wav", Audio, "AudioToWav", 2))
  }

  // --- SaveMetadata, RemoveMetadata -----------------------------------------

  /** The container the metadata features write: .m4a for audio, .mov for anything else. */
  function MetadataFileType(kind: AssetType): FileType {
    if kind == Audio then M4a else Mov
  }

  /** SaveMetadata: a passthrough export carrying the given metadata items. */
  function RunSaveMetadata(asset: Asset, params: Params, env: Env): (r: Step)
    ensures r.Fail? || r.StartExport?
    ensures r.Fail? ==> r.error.domain == "SaveMetadata" && 1 <= r.error.code <= 2
    ensures r == Fail(Error("SaveMetadata", 1)) <==> !Conforms(params, Schema(SaveMetadataFeature))
    ensures r == Fail(Error("SaveMetadata", 2)) <==> Conforms(params, Schema(SaveMetadataFeature)) && !env.sessionCreated
    ensures r.StartExport? ==> AsMetadata(params, "metadata").Some?
    ensures r.StartExport? ==>
      && r.job.metadata == Some(AsMetadata(params, "metadata").value)
      && r.job.fileType == MetadataFileType(asset.kind)
      && r.job.fileSuffix == "_meta." + Extension(r.job.fileType)
      && r.job.resultType == asset.kind
      && r.job.source == WholeAsset(asset.url) && r.job.preset == Passthrough
      && r.job.domain == "SaveMetadata" && r.job.fallbackCode == 3
      && r.job.timeRange.None? && r.job.videoComposition.None? && r.job.audioMix == []
  {
    ConformsOne(params, Requirement("metadata", TMetadata));
    CastSucceedsIffMeets(params, "metadata");
    if AsMetadata(params, "metadata").None? then Fail(Error("SaveMetadata", 1))
    else if !env.sessionCreated then Fail(Error("SaveMetadata", 2))
    else
      var ext := if asset.kind == Audio then "m4a" else "mov";
      StartExport(WholeFile(asset.url, Passthrough, MetadataFileType(asset.kind), "_meta." + ext,
                            asset.kind, "SaveMetadata", 3)
                  .(metadata := Some(AsMetadata(params, "metadata").value)))
  }

  /** RemoveMetadata: a passthrough export with an empty metadata list. */
  function RunRemoveMetadata(asset: Asset, env: Env): (r: Step)
    ensures r.Fail? <==> !env.sessionCreated
    ensures r.Fail? ==> r.error == Error("RemoveMetadata", 1)
    ensures r.StartExport? ==>
      && r.job.metadata == Some([])
      && r.job.fileType == MetadataFileType(asset.kind)
      && r.job.fileSuffix == "_nometa." + Extension(r.job.fileType)
      && r.job.resultType == asset.kind
      && r.job.source == WholeAsset(asset.url) && r.job.preset == Passthrough
      && r.job.domain == "RemoveMetadata" && r.job.fallbackCode == 2
      && r.job.timeRange.None? && r.job.videoComposition.None? && r.job.audioMix == []
  {
    if !env.sessionCreated then Fail(Error("RemoveMetadata", 1))
    else
      var ext := if asset.kind == Audio then "m4a" else "mov";
      StartExport(WholeFile(asset.url, Passthrough, MetadataFileType(asset.kind), "_nometa." + ext,
                            asset.kind, "RemoveMetadata", 2)
                  .(metadata := Some([])))
  }

  // --- FrameExport, the image filters, the placeholders ----------------------

  /** FrameExport: after its guard, the image generator and JPEG encoding take over. */
  function RunFrameExport(params: Params): (r: Step)
    ensures r == Fail(Error("FrameExport", 1)) <==> !Conforms(params, Schema(FrameExportFeature))
    ensures r != Fail(Error("FrameExport", 1)) ==> r == External
  {
    ConformsOne(params, Requirement("time", TDouble));
    CastSucceedsIffMeets(params, "time");
    if AsDouble(params, "time").None? then Fail(Error("FrameExport", 1)) else External
  }

  /** An image filter: CoreImage for an image, error 99 for anything else. */
  function RunImageFilter(domain: string, asset: Asset): (r: Step)
    ensures r.Fail? <==> asset.kind != Image
    ensures r.Fail? ==> r.error == Error(domain, 99)
    ensures !r.Fail? ==> r == External
  {
    if asset.kind == Image then External else Fail(Error(domain, 99))
  }

  /** What a call of `run` may ask of its caller: Speed divides by its factor. */
  predicate Callable(f: Feature, params: Params) {
    f == SpeedFeature ==> SpeedFactorNonZero(params)
  }

  // --- Dispatch ------------------------------------------------------------------

  function RunTiming(f: Feature, url: string, params: Params, env: Env): Step
    requires FamilyOf(f) == Timing && Callable(f, params)
  {
    if f == TrimFeature then RunTrim(url, params, env)
    else if f == AudioTrimFeature then RunAudioTrim(url, params, env)
    else if f == SpeedFeature then RunSpeed(url, params, env)
    else RunFrameExport(params)
  }

  function RunComposing(f: Feature, asset: Asset, params: Params, env: Env): Step
    requires FamilyOf(f) == Composing
  {
    if f == ConcatFeature then RunConcat(asset, params, env)
    else if f == MergeAudioFeature then RunMergeAudio(asset, params, env)
    else if f == AddAudioFeature then RunAddAudio(asset.url, params, env)
    else RunRemoveAudio(asset.url, env)
  }

  function RunFraming(f: Feature, url: string, params: Params, env: Env): Step
    requires FamilyOf(f) == Framing
  {
    if f == CropFeature then RunCrop(url, params, env)
    else if f == UpscaleFeature then RunUpscale(url, params, env)
    else if f == RotateFeature then RunRotate(url, params, env)
    else if f == FlipFeature then RunFlip(url, params, env)
    else RunChangeCanvas(url, params, env)
  }

  function RunMixing(f: Feature, url: string, params: Params, env: Env): Step
    requires FamilyOf(f) == Mixing
  {
    if f == FadeAudioFeature then RunFadeAudio(url, params, env)
    else if f == VolumeFeature then RunVolume(url, params, env)
    else if f == AudioFadeInFeature then RunAudioFadeIn(url, params, env)
    else RunAudioFadeOut(url, params, env)
  }

  function RunConverting(f: Feature, asset: Asset, params: Params, env: Env): Step
    requires FamilyOf(f) == Converting
  {
    if f == ExportFormatFeature then RunExportFormat(asset, params, env)
    else if f == ExtractAudioFeature then RunExtractAudio(asset.url, env)
    else if f == AudioToWavFeature then RunAudioToWav(asset.url, env)
    else if f == SaveMetadataFeature then RunSaveMetadata(asset, params, env)
    else RunRemoveMetadata(asset, env)
  }

  /** `feature.run(on: asset, params: params, completion:)` up to the export. */
  function Run(f: Feature, asset: Asset, params: Params, env: Env): Step
    requires Callable(f, params)
  {
    match FamilyOf(f)
    case Timing => RunTiming(f, asset.url, params, env)
    case Composing => RunComposing(f, asset, params, env)
    case Framing => RunFraming(f, asset.url, params, env)
    case Mixing => RunMixing(f, asset.url, params, env)
    case Converting => RunConverting(f, asset, params, env)
    case Copying => External
    case Filtering => RunImageFilter(Domain(f), asset)
    case Placeholder => Fail(Error(Domain(f), 99))
  }
}
