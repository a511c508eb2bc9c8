/**
 * Properties shared by the features' `run` methods: the parameter guard
 * comes first, the placeholders always fail, errors and output names fit
 * the feature and the file type, the completion mapping, and the asset type
 * check that `run` never makes.
 *
 * Each property is proved for one family of features at a time (the family
 * functions of Runs) and then lifted to Run.
 */
module Behaviour {
  import opened Wrappers
  import opened Geometry
  import opened Media
  import opened Timeline
  import opened Transforms
  import opened Export
  import opened Features
  import opened Runs

  /** The Result the completion handler receives, when the run is one this model follows. */
  function Outcome(step: Step, status: ExportStatus, sessionError: Option<Error>, outputUrl: string)
    : (r: Option<Result<Asset>>)
    ensures r.None? <==> step.External?
    ensures step.Fail? ==> r == Some(Failure(step.error))
    ensures step.StartExport? ==> r.Some? && (r.value.Success? <==> status == Completed)
  {
    match step
    case Fail(e) => Some(Failure(e))
    case StartExport(job) => Some(Completion(job, status, sessionError, outputUrl))
    case External => None
  }

  // --- The parameter guard ----------------------------------------------------

  /**
   * A missing or mistyped required parameter fails with code 1 in the
   * feature's own domain, and for a feature with parameters nothing else
   * fails with code 1.
   */
  predicate GuardFirst(f: Feature, params: Params, step: Step) {
    && (!Conforms(params, Schema(f)) ==> !IsCopy(f) && step == Fail(Error(Domain(f), 1)))
    && (|Schema(f)| > 0 && Conforms(params, Schema(f)) ==> !IsCopy(f) && step != Fail(Error(Domain(f), 1)))
  }

  /**
   * Every feature checks its parameters before anything else: whatever the
   * file and the session would have been, a missing or mistyped parameter
   * gives code 1, and code 1 means exactly that.
   */
  lemma GuardFailsFirst(f: Feature, asset: Asset, params: Params, env: Env)
    requires Callable(f, params)
    ensures GuardFirst(f, params, Run(f, asset, params, env))
  {
    match FamilyOf(f)
    case Timing => TimingGuardFirst(f, asset.url, params, env);
    case Composing => ComposingGuardFirst(f, asset, params, env);
    case Framing => FramingGuardFirst(f, asset.url, params, env);
    case Mixing => MixingGuardFirst(f, asset.url, params, env);
    case Converting => ConvertingGuardFirst(f, asset, params, env);
    case Copying | Filtering | Placeholder =>
      NoParameters(f, params);
  }

  /** The features outside the five modelled families take no parameters. */
  lemma NoParameters(f: Feature, params: Params)
    requires FamilyOf(f) == Copying || FamilyOf(f) == Filtering || FamilyOf(f) == Placeholder
    ensures Schema(f) == [] && Conforms(params, Schema(f))
  {
  }

  lemma TimingGuardFirst(f: Feature, url: string, params: Params, env: Env)
    requires FamilyOf(f) == Timing && Callable(f, params)
    ensures GuardFirst(f, params, RunTiming(f, url, params, env))
  {
    if f == TrimFeature {
    } else if f == AudioTrimFeature {
    } else if f == SpeedFeature {
    } else if f == FrameExportFeature {
    }
  }

  lemma ComposingGuardFirst(f: Feature, asset: Asset, params: Params, env: Env)
    requires FamilyOf(f) == Composing
    ensures GuardFirst(f, params, RunComposing(f, asset, params, env))
  {
    if f == ConcatFeature {
    } else if f == MergeAudioFeature {
    } else if f == AddAudioFeature {
    } else if f == RemoveAudioFeature {
    }
  }

  lemma FramingGuardFirst(f: Feature, url: string, params: Params, env: Env)
    requires FamilyOf(f) == Framing
    ensures GuardFirst(f, params, RunFraming(f, url, params, env))
  {
    if f == CropFeature {
    } else if f == UpscaleFeature {
    } else if f == RotateFeature {
    } else if f == FlipFeature {
    } else if f == ChangeCanvasFeature {
    }
  }

  lemma MixingGuardFirst(f: Feature, url: string, params: Params, env: Env)
    requires FamilyOf(f) == Mixing
    ensures GuardFirst(f, params, RunMixing(f, url, params, env))
  {
    if f == FadeAudioFeature {
    } else if f == VolumeFeature {
    } else if f == AudioFadeInFeature {
    } else if f == AudioFadeOutFeature {
    }
  }

  lemma ConvertingGuardFirst(f: Feature, asset: Asset, params: Params, env: Env)
    requires FamilyOf(f) == Converting
    ensures GuardFirst(f, params, RunConverting(f, asset, params, env))
  {
    if f == ExportFormatFeature {
    } else if f == ExtractAudioFeature {
    } else if f == AudioToWavFeature {
    } else if f == SaveMetadataFeature {
    } else if f == RemoveMetadataFeature {
    }
  }

  // --- Placeholders and image filters -------------------------------------------

  /** The placeholder features fail with code 99 on every asset and every parameter map. */
  lemma StubsAlwaysFail(f: Feature, asset: Asset, params: Params, env: Env)
    requires IsStub(f)
    ensures Callable(f, params) && !IsCopy(f)
    ensures Run(f, asset, params, env) == Fail(Error(Domain(f), 99))
  {
  }

  /** The image filters fail with code 99 on anything that is not an image. */
  lemma ImageFiltersFailOnVideo(f: Feature, asset: Asset, params: Params, env: Env)
    requires IsImageFilter(f)
    ensures Callable(f, params) && !IsCopy(f)
    ensures Run(f, asset, params, env).Fail? <==> asset.kind != Image
    ensures asset.kind != Image ==> Run(f, asset, params, env) == Fail(Error(Domain(f), 99))
  {
  }

  // --- Error domains and output names -------------------------------------------

  /**
   * What every run that reports an error or starts an export keeps to: the
   * error, and the fallback error of the export, are in the feature's own
   * domain, and the output file name ends in the extension of the file type
   * it is exported as.
   */
  predicate Consistent(f: Feature, step: Step) {
    (step.Fail? || step.StartExport?) ==>
      && !IsCopy(f)
      && (step.Fail? ==> step.error.domain == Domain(f))
      && (step.StartExport? ==>
            && step.job.domain == Domain(f)
            && EndsWithExtension(step.job.fileSuffix, step.job.fileType))
  }

  /** Every failure is in the feature's domain, and every output name matches its file type. */
  lemma RunIsConsistent(f: Feature, asset: Asset, params: Params, env: Env)
    requires Callable(f, params)
    ensures Consistent(f, Run(f, asset, params, env))
  {
    match FamilyOf(f)
    case Timing => TimingConsistent(f, asset.url, params, env);
    case Composing => ComposingConsistent(f, asset, params, env);
    case Framing => FramingConsistent(f, asset.url, params, env);
    case Mixing => MixingConsistent(f, asset.url, params, env);
    case Converting => ConvertingConsistent(f, asset, params, env);
    case Copying | Filtering | Placeholder =>
  }

  /** A name built as stem, dot, extension ends in that extension. */
  lemma BuiltNameMatchesItsType(stem: string, fileType: FileType)
    ensures EndsWithExtension(stem + "." + Extension(fileType), fileType)
  {
  }

  lemma TimingConsistent(f: Feature, url: string, params: Params, env: Env)
    requires FamilyOf(f) == Timing && Callable(f, params)
    ensures Consistent(f, RunTiming(f, url, params, env))
  {
    assert EndsWithExtension("_trim.mov", Mov);
    assert EndsWithExtension("_audiotrim.m4a", M4a);
    assert EndsWithExtension("_speed.mov", Mov);
  }

  lemma ComposingConsistent(f: Feature, asset: Asset, params: Params, env: Env)
    requires FamilyOf(f) == Composing
    ensures Consistent(f, RunComposing(f, asset, params, env))
  {
    assert EndsWithExtension("_concat.mov", Mov);
    assert EndsWithExtension("_mergeaudio.m4a", M4a);
    assert EndsWithExtension("_addaudio.mov", Mov);
    assert EndsWithExtension("_removeaudio.mov", Mov);
  }

  lemma FramingConsistent(f: Feature, url: string, params: Params, env: Env)
    requires FamilyOf(f) == Framing
    ensures Consistent(f, RunFraming(f, url, params, env))
  {
    assert EndsWithExtension("_crop.mov", Mov);
    assert EndsWithExtension("_upscale.mov", Mov);
    assert EndsWithExtension("_rot.mov", Mov);
    assert EndsWithExtension("_flip.mov", Mov);
    assert EndsWithExtension("_canvas.mov", Mov);
  }

  lemma MixingConsistent(f: Feature, url: string, params: Params, env: Env)
    requires FamilyOf(f) == Mixing
    ensures Consistent(f, RunMixing(f, url, params, env))
  {
    assert EndsWithExtension("_fadeaudio.m4a", M4a);
    assert EndsWithExtension("_volume.m4a", M4a);
    assert EndsWithExtension("_fadein.m4a", M4a);
    assert EndsWithExtension("_fadeout.m4a", M4a);
  }

  lemma ConvertingConsistent(f: Feature, asset: Asset, params: Params, env: Env)
    requires FamilyOf(f) == Converting
    ensures Consistent(f, RunConverting(f, asset, params, env))
  {
    assert EndsWithExtension("_extractaudio.m4a", M4a);
    assert EndsWithExtension(".wav", Wav);
    var r := RunConverting(f, asset, params, env);
    if r.StartExport? {
      var job := r.job;
      if f == ExportFormatFeature {
        BuiltNameMatchesItsType("_export", job.fileType);
        assert job.fileSuffix == "_export" + "." + Extension(job.fileType);
      } else if f == SaveMetadataFeature {
        BuiltNameMatchesItsType("_meta", job.fileType);
        assert job.fileSuffix == "_meta" + "." + Extension(job.fileType);
      } else if f == RemoveMetadataFeature {
        BuiltNameMatchesItsType("_nometa", job.fileType);
        assert job.fileSuffix == "_nometa" + "." + Extension(job.fileType);
      }
    }
  }

  // --- ExportFormat ----------------------------------------------------------------

  /**
   * ExportFormat: an unknown format name fails with code 2 whether or not a
   * session could be created, and a completed export keeps the input
   * asset's type and uses the requested name as its extension.
   */
  lemma ExportFormatKeepsTheAssetType(asset: Asset, params: Params, env: Env,
                                      status: ExportStatus, sessionError: Option<Error>, outputUrl: string)
    ensures AsString(params, "format").Some? && FormatTable(AsString(params, "format").value).None?
        ==> Run(ExportFormatFeature, asset, params, env) == Fail(Error("ExportFormat", 2))
    ensures Run(ExportFormatFeature, asset, params, env).StartExport? ==>
      var job := Run(ExportFormatFeature, asset, params, env).job;
      && Extension(job.fileType) == AsString(params, "format").value
      && (Completion(job, status, sessionError, outputUrl).Success? <==> status == Completed)
      && (status == Completed ==> Completion(job, status, sessionError, outputUrl).value.kind == asset.kind)
  {
    ConformsOne(params, Requirement("format", TString));
    CastSucceedsIffMeets(params, "format");
  }

  // --- The asset type ------------------------------------------------------------

  /** The features whose `run` looks at the asset's type. */
  predicate ReadsAssetType(f: Feature) {
    IsImageFilter(f) || f == ExportFormatFeature || f == SaveMetadataFeature || f == RemoveMetadataFeature
  }

  /** The clips of a concatenation depend on the files' locations only. */
  lemma ClipsOfUsesLocationsOnly(a1: seq<Asset>, a2: seq<Asset>, probe: string -> SourceInfo, mediaType: MediaType)
    requires |a1| == |a2| && forall i :: 0 <= i < |a1| ==> a1[i].url == a2[i].url
    ensures ClipsOf(a1, probe, mediaType) == ClipsOf(a2, probe, mediaType)
  {
  }

  /**
   * `run` never consults `canRun(on:)`: apart from the features that pick
   * their output by the asset's type, the outcome is the same whatever type
   * the asset is labelled with, so Crop runs on an "audio" asset exactly as
   * on a video.
   */
  lemma RunIgnoresCanRun(f: Feature, url: string, k1: AssetType, k2: AssetType, params: Params, env: Env)
    requires Callable(f, params) && !ReadsAssetType(f)
    ensures Run(f, Asset(url, k1), params, env) == Run(f, Asset(url, k2), params, env)
  {
    match FamilyOf(f)
    case Composing => ComposingIgnoresType(f, url, k1, k2, params, env);
    case Converting => ConvertingIgnoresType(f, url, k1, k2, params, env);
    case Timing | Framing | Mixing | Copying | Filtering | Placeholder =>
  }

  lemma ComposingIgnoresType(f: Feature, url: string, k1: AssetType, k2: AssetType, params: Params, env: Env)
    requires FamilyOf(f) == Composing
    ensures RunComposing(f, Asset(url, k1), params, env) == RunComposing(f, Asset(url, k2), params, env)
  {
    if (f == ConcatFeature || f == MergeAudioFeature) && AsAssetList(params, "assets").Some? {
      var others := AsAssetList(params, "assets").value;
      ClipsOfUsesLocationsOnly([Asset(url, k1)] + others, [Asset(url, k2)] + others, env.probe, VideoMedia);
      ClipsOfUsesLocationsOnly([Asset(url, k1)] + others, [Asset(url, k2)] + others, env.probe, AudioMedia);
    }
  }

  lemma ConvertingIgnoresType(f: Feature, url: string, k1: AssetType, k2: AssetType, params: Params, env: Env)
    requires FamilyOf(f) == Converting && !ReadsAssetType(f)
    ensures RunConverting(f, Asset(url, k1), params, env) == RunConverting(f, Asset(url, k2), params, env)
  {
    if f == ExtractAudioFeature {
    } else {
      assert f == AudioToWavFeature;
    }
  }
  // --- The exported geometry -------------------------------------------------------

  /**
   * What Crop exports: a source point lands in the w by h output frame
   * exactly when it lies in the requested rectangle.
   */
  lemma CropExportKeepsExactlyTheRectangle(url: string, params: Params, env: Env, p: Point)
    requires RunCrop(url, params, env).StartExport?
    ensures var vc := RunCrop(url, params, env).job.videoComposition.value;
      var x, y := AsCGFloat(params, "x").value, AsCGFloat(params, "y").value;
      var w, h := AsCGFloat(params, "w").value, AsCGFloat(params, "h").value;
      InRect(Apply(vc.transform, p), 0.0, 0.0, w, h) <==> InRect(p, x, y, w, h)
  {
    var x, y := AsCGFloat(params, "x").value, AsCGFloat(params, "y").value;
    var w, h := AsCGFloat(params, "w").value, AsCGFloat(params, "h").value;
    CropKeepsExactlyTheRectangle(env.probe(url), env.probe(url).video.value, x, y, w, h, p);
  }

  /**
   * What Upscale exports, for a positive requested size: a point lies in
   * the natural frame exactly when its image lies in the render frame.
   */
  lemma UpscaleExportFillsTheFrame(url: string, params: Params, env: Env, p: Point)
    requires RunUpscale(url, params, env).StartExport?
    requires AsCGFloat(params, "width").value > 0.0 && AsCGFloat(params, "height").value > 0.0
    ensures var vc := RunUpscale(url, params, env).job.videoComposition.value;
      var n := env.probe(url).video.value.naturalSize;
      var size := vc.renderSize;
      InRect(p, 0.0, 0.0, n.width, n.height) <==> InRect(Apply(vc.transform, p), 0.0, 0.0, size.width, size.height)
  {
    var width, height := AsCGFloat(params, "width").value, AsCGFloat(params, "height").value;
    UpscaleFillsTheFrame(env.probe(url), env.probe(url).video.value, width, height, p);
  }

  /**
   * What Flip exports maps the frame onto itself, and applying its
   * transform twice gives back every point.
   */
  lemma FlipExportIsAnInvolution(url: string, params: Params, env: Env, p: Point)
    requires RunFlip(url, params, env).StartExport?
    ensures var vc := RunFlip(url, params, env).job.videoComposition.value;
      var n := vc.renderSize;
      && Apply(vc.transform, Apply(vc.transform, p)) == p
      && (InRect(p, 0.0, 0.0, n.width, n.height) <==> InRect(Apply(vc.transform, p), 0.0, 0.0, n.width, n.height))
  {
    var horizontal, vertical := AsBool(params, "horizontal").value, AsBool(params, "vertical").value;
    FlipIsAnInvolutionOfTheFrame(env.probe(url), env.probe(url).video.value, horizontal, vertical, p);
  }

  /**
   * What ChangeCanvas exports keeps the frame's size and leaves equal
   * margins on opposite sides of the canvas.
   */
  lemma CanvasExportCentres(url: string, params: Params, env: Env)
    requires RunChangeCanvas(url, params, env).StartExport?
    ensures var vc := RunChangeCanvas(url, params, env).job.videoComposition.value;
      var n := env.probe(url).video.value.naturalSize;
      var lo := Apply(vc.transform, Point(0.0, 0.0));
      var hi := Apply(vc.transform, Point(n.width, n.height));
      && hi.x - lo.x == n.width && hi.y - lo.y == n.height
      && lo.x == vc.renderSize.width - hi.x && lo.y == vc.renderSize.height - hi.y
  {
    var width, height := AsCGFloat(params, "width").value, AsCGFloat(params, "height").value;
    CanvasCentres(env.probe(url), env.probe(url).video.value, width, height, Point(0.0, 0.0));
  }
}
