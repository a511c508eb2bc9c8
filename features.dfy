/**
 * The catalogue of editing features: which feature classes exist, their ids,
 * the asset types their `canRun(on:)` accepts, the domain of their errors,
 * and the parameters their `run` guards require.
 */
module Features {
  import opened Media

  /** The registered features, one constructor per feature class. */
  datatype Feature =
    | TrimFeature
    | ConcatFeature
    | CropFeature
    | SpeedFeature
    | UpscaleFeature
    | RotateFeature
    | FlipFeature
    | FadeAudioFeature
    | VolumeFeature
    | FrameExportFeature
    | ExportFormatFeature
    | BWFilterFeature
    | SepiaFilterFeature
    | InvertFilterFeature
    | PosterizeFilterFeature
    | VignetteFeature
    | SharpenFeature
    | BlurFeature
    | PixelateFeature
    | BrightnessFeature
    | ContrastFeature
    | SaturationFeature
    | ExposureFeature
    | GammaFeature
    | AddAudioFeature
    | RemoveAudioFeature
    | MergeAudioFeature
    | ExtractAudioFeature
    | AudioToWavFeature
    | FadeVideoFeature
    | AddTextFeature
    | AddImageOverlayFeature
    | AddWatermarkFeature
    | AddBorderFeature
    | AddBackgroundFeature
    | ResizeFeature
    | ChangeFPSFeature
    | ChangeBitrateFeature
    | ChangeCanvasFeature
    | SaveMetadataFeature
    | RemoveMetadataFeature
    | AudioReverseFeature
    | VideoReverseFeature
    | AudioTrimFeature
    | AudioPanFeature
    | AudioEQFeature
    | AudioFadeInFeature
    | AudioFadeOutFeature
    | ExportGifFeature
    | ExportFrameSequenceFeature
    | AspectRatioCropFeature
    | DuplicateVideoFeature
    | DuplicateAudioFeature
    | SimpleTransitionFeature
    | ChromaticAberrationFeature
    | ColorGradingFeature
    | KadrForSocialFeature
    | TextStrokeFeature
    | TitleAnimationFeature
    | ImageAnimationFeature
    | MirrorFeature
    | BlurredBackgroundFeature
    | ColoredBackgroundFeature
    | AudioResampleFeature
    | AudioFormatConvertFeature
    | VideoFormatConvertFeature

  /** Each feature's `id`. */
  function Id(f: Feature): string {
    match f
    case TrimFeature => "trim"
    case ConcatFeature => "concat"
    case CropFeature => "crop"
    case SpeedFeature => "speed"
    case UpscaleFeature => "upscale"
    case RotateFeature => "rotate"
    case FlipFeature => "flip"
    case FadeAudioFeature => "fade_audio"
    case VolumeFeature => "volume"
    case FrameExportFeature => "frame_export"
    case ExportFormatFeature => "export_format"
    case BWFilterFeature => "bw_filter"
    case SepiaFilterFeature => "sepia_filter"
    case InvertFilterFeature => "invert_filter"
    case PosterizeFilterFeature => "posterize_filter"
    case VignetteFeature => "vignette_filter"
    case SharpenFeature => "sharpen_filter"
    case BlurFeature => "blur_filter"
    case PixelateFeature => "pixelate_filter"
    case BrightnessFeature => "brightness"
    case ContrastFeature => "contrast"
    case SaturationFeature => "saturation"
    case ExposureFeature => "exposure"
    case GammaFeature => "gamma"
    case AddAudioFeature => "add_audio"
    case RemoveAudioFeature => "remove_audio"
    case MergeAudioFeature => "merge_audio"
    case ExtractAudioFeature => "extract_audio"
    case AudioToWavFeature => "audio_to_wav"
    case FadeVideoFeature => "fade_video"
    case AddTextFeature => "add_text"
    case AddImageOverlayFeature => "add_image_overlay"
    case AddWatermarkFeature => "add_watermark"
    case AddBorderFeature => "add_border"
    case AddBackgroundFeature => "add_background"
    case ResizeFeature => "resize"
    case ChangeFPSFeature => "change_fps"
    case ChangeBitrateFeature => "change_bitrate"
    case ChangeCanvasFeature => "change_canvas"
    case SaveMetadataFeature => "save_metadata"
    case RemoveMetadataFeature => "remove_metadata"
    case AudioReverseFeature => "audio_reverse"
    case VideoReverseFeature => "video_reverse"
    case AudioTrimFeature => "audio_trim"
    case AudioPanFeature => "audio_pan"
    case AudioEQFeature => "audio_eq"
    case AudioFadeInFeature => "audio_fade_in"
    case AudioFadeOutFeature => "audio_fade_out"
    case ExportGifFeature => "export_gif"
    case ExportFrameSequenceFeature => "export_frame_sequence"
    case AspectRatioCropFeature => "aspect_ratio_crop"
    case DuplicateVideoFeature => "duplicate_video"
    case DuplicateAudioFeature => "duplicate_audio"
    case SimpleTransitionFeature => "simple_transition"
    case ChromaticAberrationFeature => "chromatic_aberration"
    case ColorGradingFeature => "color_grading"
    case KadrForSocialFeature => "kadr_for_social"
    case TextStrokeFeature => "text_stroke"
    case TitleAnimationFeature => "title_animation"
    case ImageAnimationFeature => "image_animation"
    case MirrorFeature => "mirror"
    case BlurredBackgroundFeature => "blurred_background"
    case ColoredBackgroundFeature => "colored_background"
    case AudioResampleFeature => "audio_resample"
    case AudioFormatConvertFeature => "audio_format_convert"
    case VideoFormatConvertFeature => "video_format_convert"
  }

  /** How a feature's `run` does its work. */
  datatype Family =
    | Timing      // cut, retime or take a frame from the asset
    | Composing   // build a composition from the tracks of several files
    | Framing     // render the video through a video composition
    | Mixing      // export the audio through an audio mix
    | Converting  // re-export the file as it is, in another container or with other metadata
    | Copying     // copy the file with the file manager
    | Filtering   // apply a CoreImage filter to an image
    | Placeholder // always fail with code 99

  /** The family each feature belongs to. */
  function FamilyOf(f: Feature): Family {
    match f
    case TrimFeature | AudioTrimFeature | SpeedFeature | FrameExportFeature => Timing
    case ConcatFeature | MergeAudioFeature | AddAudioFeature | RemoveAudioFeature => Composing
    case CropFeature | UpscaleFeature | RotateFeature | FlipFeature | ChangeCanvasFeature => Framing
    case FadeAudioFeature | VolumeFeature | AudioFadeInFeature | AudioFadeOutFeature => Mixing
    case ExportFormatFeature | ExtractAudioFeature | AudioToWavFeature | SaveMetadataFeature |
      RemoveMetadataFeature => Converting
    case DuplicateVideoFeature | DuplicateAudioFeature => Copying
    case BWFilterFeature | SepiaFilterFeature | InvertFilterFeature | PosterizeFilterFeature |
      VignetteFeature | SharpenFeature | BlurFeature | PixelateFeature | BrightnessFeature |
      ContrastFeature | SaturationFeature | ExposureFeature | GammaFeature => Filtering
    case FadeVideoFeature | AddTextFeature | AddImageOverlayFeature | AddWatermarkFeature |
      AddBorderFeature | AddBackgroundFeature | ResizeFeature | ChangeFPSFeature |
      ChangeBitrateFeature | AudioReverseFeature | VideoReverseFeature | AudioPanFeature |
      AudioEQFeature | ExportGifFeature | ExportFrameSequenceFeature | AspectRatioCropFeature |
      SimpleTransitionFeature | ChromaticAberrationFeature | ColorGradingFeature |
      KadrForSocialFeature | TextStrokeFeature | TitleAnimationFeature | ImageAnimationFeature |
      MirrorFeature | BlurredBackgroundFeature | ColoredBackgroundFeature | AudioResampleFeature |
      AudioFormatConvertFeature | VideoFormatConvertFeature => Placeholder
  }

  /** The features that copy a file and never build an NSError of their own. */
  predicate IsCopy(f: Feature) {
    FamilyOf(f) == Copying
  }

  /** The domain of the NSErrors a feature builds. */
  function Domain(f: Feature): string
    requires !IsCopy(f)
  {
    match f
    case TrimFeature => "Trim"
    case ConcatFeature => "Concat"
    case CropFeature => "Crop"
    case SpeedFeature => "Speed"
    case UpscaleFeature => "Upscale"
    case RotateFeature => "Rotate"
    case FlipFeature => "Flip"
    case FadeAudioFeature => "FadeAudio"
    case VolumeFeature => "Volume"
    case FrameExportFeature => "FrameExport"
    case ExportFormatFeature => "ExportFormat"
    case BWFilterFeature => "BWFilter"
    case SepiaFilterFeature => "SepiaFilter"
    case InvertFilterFeature => "InvertFilter"
    case PosterizeFilterFeature => "PosterizeFilter"
    case VignetteFeature => "VignetteFilter"
    case SharpenFeature => "SharpenFilter"
    case BlurFeature => "BlurFilter"
    case PixelateFeature => "PixelateFilter"
    case BrightnessFeature => "Brightness"
    case ContrastFeature => "Contrast"
    case SaturationFeature => "Saturation"
    case ExposureFeature => "Exposure"
    case GammaFeature => "Gamma"
    case AddAudioFeature => "AddAudio"
    case RemoveAudioFeature => "RemoveAudio"
    case MergeAudioFeature => "MergeAudio"
    case ExtractAudioFeature => "ExtractAudio"
    case AudioToWavFeature => "AudioToWav"
    case FadeVideoFeature => "FadeVideo"
    case AddTextFeature => "AddText"
    case AddImageOverlayFeature => "AddImageOverlay"
    case AddWatermarkFeature => "AddWatermark"
    case AddBorderFeature => "AddBorder"
    case AddBackgroundFeature => "AddBackground"
    case ResizeFeature => "Resize"
    case ChangeFPSFeature => "ChangeFPS"
    case ChangeBitrateFeature => "ChangeBitrate"
    case ChangeCanvasFeature => "ChangeCanvas"
    case SaveMetadataFeature => "SaveMetadata"
    case RemoveMetadataFeature => "RemoveMetadata"
    case AudioReverseFeature => "AudioReverse"
    case VideoReverseFeature => "VideoReverse"
    case AudioTrimFeature => "AudioTrim"
    case AudioPanFeature => "AudioPan"
    case AudioEQFeature => "AudioEQ"
    case AudioFadeInFeature => "AudioFadeIn"
    case AudioFadeOutFeature => "AudioFadeOut"
    case ExportGifFeature => "ExportGif"
    case ExportFrameSequenceFeature => "ExportFrameSequence"
    case AspectRatioCropFeature => "AspectRatioCrop"
    case SimpleTransitionFeature => "SimpleTransition"
    case ChromaticAberrationFeature => "ChromaticAberration"
    case ColorGradingFeature => "ColorGrading"
    case KadrForSocialFeature => "KadrForSocial"
    case TextStrokeFeature => "TextStroke"
    case TitleAnimationFeature => "TitleAnimation"
    case ImageAnimationFeature => "ImageAnimation"
    case MirrorFeature => "Mirror"
    case BlurredBackgroundFeature => "BlurredBackground"
    case ColoredBackgroundFeature => "ColoredBackground"
    case AudioResampleFeature => "AudioResample"
    case AudioFormatConvertFeature => "AudioFormatConvert"
    case VideoFormatConvertFeature => "VideoFormatConvert"
  }

  /** Each feature's `canRun(on:)`: a test of the asset's type alone. */
  predicate CanRun(f: Feature, asset: Asset) {
    match f
    case TrimFeature | ConcatFeature | CropFeature | SpeedFeature | UpscaleFeature |
      RotateFeature | FlipFeature | FrameExportFeature | AddAudioFeature | RemoveAudioFeature |
      ExtractAudioFeature | FadeVideoFeature | ChangeFPSFeature | ChangeBitrateFeature |
      ChangeCanvasFeature | VideoReverseFeature | ExportGifFeature | ExportFrameSequenceFeature |
      DuplicateVideoFeature | SimpleTransitionFeature | TitleAnimationFeature |
      ImageAnimationFeature | VideoFormatConvertFeature
      => asset.kind == Video
    case FadeAudioFeature | VolumeFeature | ExportFormatFeature | SaveMetadataFeature |
      RemoveMetadataFeature
      => asset.kind == Video || asset.kind == Audio
    case BWFilterFeature | SepiaFilterFeature | InvertFilterFeature | PosterizeFilterFeature |
      VignetteFeature | SharpenFeature | BlurFeature | PixelateFeature | BrightnessFeature |
      ContrastFeature | SaturationFeature | ExposureFeature | GammaFeature | AddTextFeature |
      AddImageOverlayFeature | AddWatermarkFeature | AddBorderFeature | AddBackgroundFeature |
      ResizeFeature | AspectRatioCropFeature | ChromaticAberrationFeature | ColorGradingFeature |
      KadrForSocialFeature | TextStrokeFeature | MirrorFeature | BlurredBackgroundFeature |
      ColoredBackgroundFeature
      => asset.kind == Video || asset.kind == Image
    case MergeAudioFeature | AudioToWavFeature | AudioReverseFeature | AudioTrimFeature |
      AudioPanFeature | AudioEQFeature | AudioFadeInFeature | AudioFadeOutFeature |
      DuplicateAudioFeature | AudioResampleFeature | AudioFormatConvertFeature
      => asset.kind == Audio
  }

  /** The image filters: CoreImage on an image, the placeholder error 99 on anything else. */
  predicate IsImageFilter(f: Feature) {
    FamilyOf(f) == Filtering
  }

  /** The placeholder features whose `run` always fails with code 99. */
  predicate IsStub(f: Feature) {
    FamilyOf(f) == Placeholder
  }

  /**
   * The parameters each `run` casts in its first guard, in the order of the
   * guard; a feature whose first guard is not about parameters requires none.
   */
  function Schema(f: Feature): seq<Requirement> {
    match f
    case TrimFeature | AudioTrimFeature => [Requirement("start", TDouble), Requirement("duration", TDouble)]
    case ConcatFeature | MergeAudioFeature => [Requirement("assets", TAssetList)]
    case CropFeature =>
      [Requirement("x", TCGFloat), Requirement("y", TCGFloat), Requirement("w", TCGFloat), Requirement("h", TCGFloat)]
    case SpeedFeature => [Requirement("factor", TFloat)]
    case UpscaleFeature | ChangeCanvasFeature => [Requirement("width", TCGFloat), Requirement("height", TCGFloat)]
    case RotateFeature => [Requirement("angle", TCGFloat)]
    case FlipFeature => [Requirement("horizontal", TBool), Requirement("vertical", TBool)]
    case FadeAudioFeature => [Requirement("fadeIn", TDouble), Requirement("fadeOut", TDouble)]
    case VolumeFeature => [Requirement("volume", TFloat)]
    case FrameExportFeature => [Requirement("time", TDouble)]
    case ExportFormatFeature => [Requirement("format", TString)]
    case AddAudioFeature => [Requirement("audio", TAsset)]
    case SaveMetadataFeature => [Requirement("metadata", TMetadata)]
    case AudioFadeInFeature => [Requirement("fadeIn", TDouble)]
    case AudioFadeOutFeature => [Requirement("fadeOut", TDouble)]
    case _ => []
  }

  /** Every feature accepts some asset type, and none accepts all three. */
  lemma CanRunAcceptsOneOrTwoTypes(f: Feature, url: string)
    ensures exists kind: AssetType :: CanRun(f, Asset(url, kind))
    ensures !(CanRun(f, Asset(url, Video)) && CanRun(f, Asset(url, Audio)) && CanRun(f, Asset(url, Image)))
  {
    if CanRun(f, Asset(url, Video)) {
    } else {
      assert CanRun(f, Asset(url, Audio));
    }
  }

  /** `canRun(on:)` looks at the asset's type and nothing else. */
  lemma CanRunDependsOnTypeOnly(f: Feature, a1: Asset, a2: Asset)
    requires a1.kind == a2.kind
    ensures CanRun(f, a1) <==> CanRun(f, a2)
  {
  }

  /** The image filters accept a video although their `run` has nothing but error 99 for it. */
  lemma ImageFiltersAcceptVideoAndImage(f: Feature, url: string)
    requires IsImageFilter(f)
    ensures CanRun(f, Asset(url, Video)) && CanRun(f, Asset(url, Image)) && !CanRun(f, Asset(url, Audio))
  {
  }

  /** Crop accepts video only; FadeAudio accepts video or audio. */
  lemma CanRunExamples(url: string)
    ensures CanRun(CropFeature, Asset(url, Video)) && !CanRun(CropFeature, Asset(url, Audio))
    ensures !CanRun(CropFeature, Asset(url, Image))
    ensures CanRun(FadeAudioFeature, Asset(url, Video)) && CanRun(FadeAudioFeature, Asset(url, Audio))
    ensures !CanRun(FadeAudioFeature, Asset(url, Image))
  {
  }
}
