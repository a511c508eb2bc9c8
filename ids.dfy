/**
 * The ids of the registered features: every feature's id names that
 * feature alone, so the ids registerAllFeatures registers are pairwise
 * distinct and feature(withId:) finds each feature by its id.
 */
module RegisteredIds {
  import opened Wrappers
  import opened Features
  import opened Registry

  /**
   * The feature an id belongs to, if any: the candidates are narrowed by the
   * id's length and then by characters that tell them apart, and the
   * remaining candidate is taken only if its id is the whole string.
   */
  function FeatureOfId(id: string): (r: Option<Feature>)
  {
    match |id|
    case 4 => (match id[0]
      case 'c' => if id == "crop" then Some(CropFeature) else None
      case 'f' => if id == "flip" then Some(FlipFeature) else None
      case 't' => if id == "trim" then Some(TrimFeature) else None
      case _ => None)
    case 5 => (match id[0]
      case 'g' => if id == "gamma" then Some(GammaFeature) else None
      case 's' => if id == "speed" then Some(SpeedFeature) else None
      case _ => None)
    case 6 => (match id[2]
      case 'l' => if id == "volume" then Some(VolumeFeature) else None
      case 'n' => if id == "concat" then Some(ConcatFeature) else None
      case 'r' => if id == "mirror" then Some(MirrorFeature) else None
      case 's' => if id == "resize" then Some(ResizeFeature) else None
      case 't' => if id == "rotate" then Some(RotateFeature) else None
      case _ => None)
    case 7 => if id == "upscale" then Some(UpscaleFeature) else None
    case 8 => (match id[1]
      case 'd' => if id == "add_text" then Some(AddTextFeature) else None
      case 'o' => if id == "contrast" then Some(ContrastFeature) else None
      case 'u' => if id == "audio_eq" then Some(AudioEQFeature) else None
      case 'x' => if id == "exposure" then Some(ExposureFeature) else None
      case _ => None)
    case 9 => (match id[1]
      case 'd' => if id == "add_audio" then Some(AddAudioFeature) else None
      case 'u' => if id == "audio_pan" then Some(AudioPanFeature) else None
      case 'w' => if id == "bw_filter" then Some(BWFilterFeature) else None
      case _ => None)
    case 10 => (match id[3]
      case '_' => if id == "add_border" then Some(AddBorderFeature) else None
      case 'e' => (match id[5]
        case 'a' => if id == "fade_audio" then Some(FadeAudioFeature) else None
        case 'v' => if id == "fade_video" then Some(FadeVideoFeature) else None
        case _ => None)
      case 'g' => if id == "brightness" then Some(BrightnessFeature) else None
      case 'i' => if id == "audio_trim" then Some(AudioTrimFeature) else None
      case 'n' => if id == "change_fps" then Some(ChangeFPSFeature) else None
      case 'o' => if id == "export_gif" then Some(ExportGifFeature) else None
      case 'u' => if id == "saturation" then Some(SaturationFeature) else None
      case _ => None)
    case 11 => (match id[0]
      case 'b' => if id == "blur_filter" then Some(BlurFeature) else None
      case 'm' => if id == "merge_audio" then Some(MergeAudioFeature) else None
      case 't' => if id == "text_stroke" then Some(TextStrokeFeature) else None
      case _ => None)
    case 12 => (match id[0]
      case 'a' => if id == "audio_to_wav" then Some(AudioToWavFeature) else None
      case 'f' => if id == "frame_export" then Some(FrameExportFeature) else None
      case 'r' => if id == "remove_audio" then Some(RemoveAudioFeature) else None
      case 's' => if id == "sepia_filter" then Some(SepiaFilterFeature) else None
      case _ => None)
    case 13 => (match id[12]
      case 'a' => if id == "save_metadata" then Some(SaveMetadataFeature) else None
      case 'e' => (match id[0]
        case 'a' => if id == "audio_reverse" then Some(AudioReverseFeature) else None
        case 'v' => if id == "video_reverse" then Some(VideoReverseFeature) else None
        case _ => None)
      case 'g' => if id == "color_grading" then Some(ColorGradingFeature) else None
      case 'k' => if id == "add_watermark" then Some(AddWatermarkFeature) else None
      case 'n' => if id == "audio_fade_in" then Some(AudioFadeInFeature) else None
      case 'o' => if id == "extract_audio" then Some(ExtractAudioFeature) else None
      case 'r' => if id == "invert_filter" then Some(InvertFilterFeature) else None
      case 's' => if id == "change_canvas" then Some(ChangeCanvasFeature) else None
      case 't' => if id == "export_format" then Some(ExportFormatFeature) else None
      case _ => None)
    case 14 => (match id[6]
      case '_' => if id == "change_bitrate" then Some(ChangeBitrateFeature) else None
      case 'c' => if id == "add_background" then Some(AddBackgroundFeature) else None
      case 'f' => if id == "audio_fade_out" then Some(AudioFadeOutFeature) else None
      case 'n' => if id == "sharpen_filter" then Some(SharpenFeature) else None
      case 'r' => if id == "audio_resample" then Some(AudioResampleFeature) else None
      case _ => None)
    case 15 => (match id[0]
      case 'd' => (match id[10]
        case 'a' => if id == "duplicate_audio" then Some(DuplicateAudioFeature) else None
        case 'v' => if id == "duplicate_video" then Some(DuplicateVideoFeature) else None
        case _ => None)
      case 'i' => if id == "image_animation" then Some(ImageAnimationFeature) else None
      case 'k' => if id == "kadr_for_social" then Some(KadrForSocialFeature) else None
      case 'p' => if id == "pixelate_filter" then Some(PixelateFeature) else None
      case 'r' => if id == "remove_metadata" then Some(RemoveMetadataFeature) else None
      case 't' => if id == "title_animation" then Some(TitleAnimationFeature) else None
      case 'v' => if id == "vignette_filter" then Some(VignetteFeature) else None
      case _ => None)
    case 16 => if id == "posterize_filter" then Some(PosterizeFilterFeature) else None
    case 17 => (match id[1]
      case 'd' => if id == "add_image_overlay" then Some(AddImageOverlayFeature) else None
      case 'i' => if id == "simple_transition" then Some(SimpleTransitionFeature) else None
      case 's' => if id == "aspect_ratio_crop" then Some(AspectRatioCropFeature) else None
      case _ => None)
    case 18 => (match id[0]
      case 'b' => if id == "blurred_background" then Some(BlurredBackgroundFeature) else None
      case 'c' => if id == "colored_background" then Some(ColoredBackgroundFeature) else None
      case _ => None)
    case 20 => (match id[0]
      case 'a' => if id == "audio_format_convert" then Some(AudioFormatConvertFeature) else None
      case 'c' => if id == "chromatic_aberration" then Some(ChromaticAberrationFeature) else None
      case 'v' => if id == "video_format_convert" then Some(VideoFormatConvertFeature) else None
      case _ => None)
    case 21 => if id == "export_frame_sequence" then Some(ExportFrameSequenceFeature) else None
    case _ => None
  }

  /** Each feature's id leads back to it. */
  lemma FeatureOfIdInvertsId(f: Feature)
    ensures FeatureOfId(Id(f)) == Some(f)
  {
    var i := Position(f);
    if i < 11 {
      InvertsIdInGroup0(f);
    } else if i < 22 {
      InvertsIdInGroup1(f);
    } else if i < 33 {
      InvertsIdInGroup2(f);
    } else if i < 44 {
      InvertsIdInGroup3(f);
    } else if i < 55 {
      InvertsIdInGroup4(f);
    } else {
      InvertsIdInGroup5(f);
    }
  }

  lemma InvertsIdInGroup0(f: Feature)
    requires 0 <= Position(f) < 11
    ensures FeatureOfId(Id(f)) == Some(f)
  {
  }

  lemma InvertsIdInGroup1(f: Feature)
    requires 11 <= Position(f) < 22
    ensures FeatureOfId(Id(f)) == Some(f)
  {
  }

  lemma InvertsIdInGroup2(f: Feature)
    requires 22 <= Position(f) < 33
    ensures FeatureOfId(Id(f)) == Some(f)
  {
  }

  lemma InvertsIdInGroup3(f: Feature)
    requires 33 <= Position(f) < 44
    ensures FeatureOfId(Id(f)) == Some(f)
  {
  }

  lemma InvertsIdInGroup4(f: Feature)
    requires 44 <= Position(f) < 55
    ensures FeatureOfId(Id(f)) == Some(f)
  {
  }

  lemma InvertsIdInGroup5(f: Feature)
    requires 55 <= Position(f) < 66
    ensures FeatureOfId(Id(f)) == Some(f)
  {
  }

  /** Two features share an id only if they are the same feature. */
  lemma IdInjective(f1: Feature, f2: Feature)
    ensures Id(f1) == Id(f2) <==> f1 == f2
  {
    FeatureOfIdInvertsId(f1);
    FeatureOfIdInvertsId(f2);
  }

  /** The ids registerAllFeatures registers are pairwise distinct. */
  lemma IdsPairwiseDistinct(i: nat, j: nat)
    requires i < j < |RegistrationOrder|
    ensures Id(RegistrationOrder[i]) != Id(RegistrationOrder[j])
  {
    PositionOfEntry(i);
    PositionOfEntry(j);
    IdInjective(RegistrationOrder[i], RegistrationOrder[j]);
  }

  /** In a list without repeats, each entry's id resolves to that entry. */
  lemma DistinctEntryResolves(fs: seq<Feature>, i: nat)
    requires i < |fs|
    requires forall j :: 0 <= j < i ==> fs[j] != fs[i]
    ensures FirstWithId(fs, Id(fs[i])) == Some(fs[i])
  {
    forall j | 0 <= j < i
      ensures Id(fs[j]) != Id(fs[i])
    {
      IdInjective(fs[j], fs[i]);
    }
    FirstWithIdFindsFirstMatch(fs, Id(fs[i]), i);
  }

  /** After registerAllFeatures, every feature's id resolves to that feature. */
  lemma EveryIdResolvesToItsFeature(f: Feature)
    ensures FirstWithId(RegistrationOrder, Id(f)) == Some(f)
  {
    PositionLocates(f);
    var i := Position(f);
    forall j | 0 <= j < i
      ensures RegistrationOrder[j] != RegistrationOrder[i]
    {
      PositionOfEntry(j);
    }
    DistinctEntryResolves(RegistrationOrder, i);
  }

  /** After registerAllFeatures, a lookup fails exactly when no feature has that id. */
  lemma LookupFailsIffUnknown(id: string)
    ensures FirstWithId(RegistrationOrder, id).None? <==> forall f: Feature :: Id(f) != id
  {
    FirstWithIdNoneIffAbsent(RegistrationOrder, id);
    if !forall f: Feature :: Id(f) != id {
      var f: Feature :| Id(f) == id;
      EveryIdResolvesToItsFeature(f);
    }
  }
}
