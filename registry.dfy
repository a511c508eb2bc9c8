/**
 * The operation registry: EditingEngine keeps the registered features in an
 * array, `register` appends to it and `feature(withId:)` returns the first
 * feature with the requested id; `registerAllFeatures` registers every
 * feature once.
 */
module Registry {
  import opened Wrappers
  import opened Features

  /** `first(where: { $0.id == id })` on a list of features. */
  function FirstWithId(fs: seq<Feature>, id: string): (r: Option<Feature>)
    ensures r.Some? ==> Id(r.value) == id && r.value in fs
  {
    if fs == [] then None
    else if Id(fs[0]) == id then Some(fs[0])
    else FirstWithId(fs[1..], id)
  }

  /** The lookup returns the feature at the first index with that id. */
  lemma {:induction false} FirstWithIdFindsFirstMatch(fs: seq<Feature>, id: string, i: nat)
    requires i < |fs| && Id(fs[i]) == id
    requires forall j :: 0 <= j < i ==> Id(fs[j]) != id
    ensures FirstWithId(fs, id) == Some(fs[i])
  {
    if i > 0 {
      assert Id(fs[0]) != id;
      forall j | 0 <= j < i - 1
        ensures Id(fs[1..][j]) != id
      {
        assert fs[1..][j] == fs[j + 1];
      }
      FirstWithIdFindsFirstMatch(fs[1..], id, i - 1);
    }
  }

  /** The lookup finds nothing exactly when no feature has that id. */
  lemma {:induction false} FirstWithIdNoneIffAbsent(fs: seq<Feature>, id: string)
    ensures FirstWithId(fs, id).None? <==> forall i :: 0 <= i < |fs| ==> Id(fs[i]) != id
  {
    if fs != [] {
      FirstWithIdNoneIffAbsent(fs[1..], id);
      assert forall i :: 1 <= i < |fs| ==> fs[i] == fs[1..][i - 1];
    }
  }

  /**
   * Registering one more feature leaves every lookup that already succeeded
   * unchanged; a lookup that failed now finds the new feature if it has that
   * id.
   */
  lemma {:induction false} AppendKeepsEarlierLookups(fs: seq<Feature>, f: Feature, id: string)
    ensures FirstWithId(fs, id).Some? ==> FirstWithId(fs + [f], id) == FirstWithId(fs, id)
    ensures FirstWithId(fs, id).None? ==>
      FirstWithId(fs + [f], id) == (if Id(f) == id then Some(f) else None)
  {
    if fs == [] {
      assert [] + [f] == [f];
      assert [f][1..] == [];
    } else {
      assert (fs + [f])[1..] == fs[1..] + [f];
      AppendKeepsEarlierLookups(fs[1..], f, id);
    }
  }

  /** EditingEngine: the registered features, in registration order. */
  class EditingEngine {
    var features: seq<Feature>

    constructor ()
      ensures features == []
    {
      features := [];
    }

    /** register(feature:) appends; nothing is rejected, duplicates included. */
    method Register(feature: Feature)
      modifies this
      ensures features == old(features) + [feature]
    {
      features := features + [feature];
    }

    /** feature(withId:): a linear search from the front. */
    method FeatureWithId(id: string) returns (r: Option<Feature>)
      ensures r == FirstWithId(features, id)
    {
      var i := 0;
      assert features[0..] == features;
      while i < |features|
        invariant 0 <= i <= |features|
        invariant FirstWithId(features[i..], id) == FirstWithId(features, id)
      {
        assert features[i..][1..] == features[i + 1..];
        if Id(features[i]) == id {
          return Some(features[i]);
        }
        i := i + 1;
      }
      return None;
    }
  }

  /*
   * The features registerAllFeatures registers, in its order, in six groups
   * of eleven consecutive registrations (the groups only keep the proofs
   * about the 66-long list small).
   */
  const Group0: seq<Feature> := [
    TrimFeature, ConcatFeature, CropFeature, SpeedFeature, UpscaleFeature, RotateFeature,
    FlipFeature, FadeAudioFeature, VolumeFeature, FrameExportFeature, ExportFormatFeature
  ]

  const Group1: seq<Feature> := [
    BWFilterFeature, SepiaFilterFeature, InvertFilterFeature, PosterizeFilterFeature,
    VignetteFeature, SharpenFeature, BlurFeature, PixelateFeature, BrightnessFeature,
    ContrastFeature, SaturationFeature
  ]

  const Group2: seq<Feature> := [
    ExposureFeature, GammaFeature, AddAudioFeature, RemoveAudioFeature, MergeAudioFeature,
    ExtractAudioFeature, AudioToWavFeature, FadeVideoFeature, AddTextFeature,
    AddImageOverlayFeature, AddWatermarkFeature
  ]

  const Group3: seq<Feature> := [
    AddBorderFeature, AddBackgroundFeature, ResizeFeature, ChangeFPSFeature, ChangeBitrateFeature,
    ChangeCanvasFeature, SaveMetadataFeature, RemoveMetadataFeature, AudioReverseFeature,
    VideoReverseFeature, AudioTrimFeature
  ]

  const Group4: seq<Feature> := [
    AudioPanFeature, AudioEQFeature, AudioFadeInFeature, AudioFadeOutFeature, ExportGifFeature,
    ExportFrameSequenceFeature, AspectRatioCropFeature, DuplicateVideoFeature,
    DuplicateAudioFeature, SimpleTransitionFeature, ChromaticAberrationFeature
  ]

  const Group5: seq<Feature> := [
    ColorGradingFeature, KadrForSocialFeature, TextStrokeFeature, TitleAnimationFeature,
    ImageAnimationFeature, MirrorFeature, BlurredBackgroundFeature, ColoredBackgroundFeature,
    AudioResampleFeature, AudioFormatConvertFeature, VideoFormatConvertFeature
  ]

  /** The features registerAllFeatures registers, in its order. */
  const RegistrationOrder: seq<Feature> := Group0 + Group1 + Group2 + Group3 + Group4 + Group5

  /** registerAllFeatures, on the engine it fills (the shared one in the app). */
  method RegisterAllFeatures(engine: EditingEngine)
    modifies engine
    ensures engine.features == old(engine.features) + RegistrationOrder
  {
    ghost var before := engine.features;
    RegisterGroup0(engine);
    RegisterGroup1(engine);
    RegisterGroup2(engine);
    RegisterGroup3(engine);
    RegisterGroup4(engine);
    RegisterGroup5(engine);
    assert engine.features == before + Group0 + Group1 + Group2 + Group3 + Group4 + Group5;
    AppendAssociative(before, Group0, Group1);
    AppendAssociative(before, Group0 + Group1, Group2);
    AppendAssociative(before, Group0 + Group1 + Group2, Group3);
    AppendAssociative(before, Group0 + Group1 + Group2 + Group3, Group4);
    AppendAssociative(before, Group0 + Group1 + Group2 + Group3 + Group4, Group5);
  }

  lemma AppendAssociative(a: seq<Feature>, b: seq<Feature>, c: seq<Feature>)
    ensures a + (b + c) == a + b + c
  {
  }

  /** Registrations 0 to 10 of registerAllFeatures, one call each. */
  method RegisterGroup0(engine: EditingEngine)
    modifies engine
    ensures engine.features == old(engine.features) + Group0
  {
    engine.Register(TrimFeature);
    engine.Register(ConcatFeature);
    engine.Register(CropFeature);
    engine.Register(SpeedFeature);
    engine.Register(UpscaleFeature);
    engine.Register(RotateFeature);
    engine.Register(FlipFeature);
    engine.Register(FadeAudioFeature);
    engine.Register(VolumeFeature);
    engine.Register(FrameExportFeature);
    engine.Register(ExportFormatFeature);
  }

  /** Registrations 11 to 21 of registerAllFeatures, one call each. */
  method RegisterGroup1(engine: EditingEngine)
    modifies engine
    ensures engine.features == old(engine.features) + Group1
  {
    engine.Register(BWFilterFeature);
    engine.Register(SepiaFilterFeature);
    engine.Register(InvertFilterFeature);
    engine.Register(PosterizeFilterFeature);
    engine.Register(VignetteFeature);
    engine.Register(SharpenFeature);
    engine.Register(BlurFeature);
    engine.Register(PixelateFeature);
    engine.Register(BrightnessFeature);
    engine.Register(ContrastFeature);
    engine.Register(SaturationFeature);
  }

  /** Registrations 22 to 32 of registerAllFeatures, one call each. */
  method RegisterGroup2(engine: EditingEngine)
    modifies engine
    ensures engine.features == old(engine.features) + Group2
  {
    engine.Register(ExposureFeature);
    engine.Register(GammaFeature);
    engine.Register(AddAudioFeature);
    engine.Register(RemoveAudioFeature);
    engine.Register(MergeAudioFeature);
    engine.Register(ExtractAudioFeature);
    engine.Register(AudioToWavFeature);
    engine.Register(FadeVideoFeature);
    engine.Register(AddTextFeature);
    engine.Register(AddImageOverlayFeature);
    engine.Register(AddWatermarkFeature);
  }

  /** Registrations 33 to 43 of registerAllFeatures, one call each. */
  method RegisterGroup3(engine: EditingEngine)
    modifies engine
    ensures engine.features == old(engine.features) + Group3
  {
    engine.Register(AddBorderFeature);
    engine.Register(AddBackgroundFeature);
    engine.Register(ResizeFeature);
    engine.Register(ChangeFPSFeature);
    engine.Register(ChangeBitrateFeature);
    engine.Register(ChangeCanvasFeature);
    engine.Register(SaveMetadataFeature);
    engine.Register(RemoveMetadataFeature);
    engine.Register(AudioReverseFeature);
    engine.Register(VideoReverseFeature);
    engine.Register(AudioTrimFeature);
  }

  /** Registrations 44 to 54 of registerAllFeatures, one call each. */
  method RegisterGroup4(engine: EditingEngine)
    modifies engine
    ensures engine.features == old(engine.features) + Group4
  {
    engine.Register(AudioPanFeature);
    engine.Register(AudioEQFeature);
    engine.Register(AudioFadeInFeature);
    engine.Register(AudioFadeOutFeature);
    engine.Register(ExportGifFeature);
    engine.Register(ExportFrameSequenceFeature);
    engine.Register(AspectRatioCropFeature);
    engine.Register(DuplicateVideoFeature);
    engine.Register(DuplicateAudioFeature);
    engine.Register(SimpleTransitionFeature);
    engine.Register(ChromaticAberrationFeature);
  }

  /** Registrations 55 to 65 of registerAllFeatures, one call each. */
  method RegisterGroup5(engine: EditingEngine)
    modifies engine
    ensures engine.features == old(engine.features) + Group5
  {
    engine.Register(ColorGradingFeature);
    engine.Register(KadrForSocialFeature);
    engine.Register(TextStrokeFeature);
    engine.Register(TitleAnimationFeature);
    engine.Register(ImageAnimationFeature);
    engine.Register(MirrorFeature);
    engine.Register(BlurredBackgroundFeature);
    engine.Register(ColoredBackgroundFeature);
    engine.Register(AudioResampleFeature);
    engine.Register(AudioFormatConvertFeature);
    engine.Register(VideoFormatConvertFeature);
  }

  /** Where registerAllFeatures registers a feature. */
  function Position(f: Feature): (i: nat)
    ensures i < |RegistrationOrder|
  {
    match f
    case TrimFeature => 0
    case ConcatFeature => 1
    case CropFeature => 2
    case SpeedFeature => 3
    case UpscaleFeature => 4
    case RotateFeature => 5
    case FlipFeature => 6
    case FadeAudioFeature => 7
    case VolumeFeature => 8
    case FrameExportFeature => 9
    case ExportFormatFeature => 10
    case BWFilterFeature => 11
    case SepiaFilterFeature => 12
    case InvertFilterFeature => 13
    case PosterizeFilterFeature => 14
    case VignetteFeature => 15
    case SharpenFeature => 16
    case BlurFeature => 17
    case PixelateFeature => 18
    case BrightnessFeature => 19
    case ContrastFeature => 20
    case SaturationFeature => 21
    case ExposureFeature => 22
    case GammaFeature => 23
    case AddAudioFeature => 24
    case RemoveAudioFeature => 25
    case MergeAudioFeature => 26
    case ExtractAudioFeature => 27
    case AudioToWavFeature => 28
    case FadeVideoFeature => 29
    case AddTextFeature => 30
    case AddImageOverlayFeature => 31
    case AddWatermarkFeature => 32
    case AddBorderFeature => 33
    case AddBackgroundFeature => 34
    case ResizeFeature => 35
    case ChangeFPSFeature => 36
    case ChangeBitrateFeature => 37
    case ChangeCanvasFeature => 38
    case SaveMetadataFeature => 39
    case RemoveMetadataFeature => 40
    case AudioReverseFeature => 41
    case VideoReverseFeature => 42
    case AudioTrimFeature => 43
    case AudioPanFeature => 44
    case AudioEQFeature => 45
    case AudioFadeInFeature => 46
    case AudioFadeOutFeature => 47
    case ExportGifFeature => 48
    case ExportFrameSequenceFeature => 49
    case AspectRatioCropFeature => 50
    case DuplicateVideoFeature => 51
    case DuplicateAudioFeature => 52
    case SimpleTransitionFeature => 53
    case ChromaticAberrationFeature => 54
    case ColorGradingFeature => 55
    case KadrForSocialFeature => 56
    case TextStrokeFeature => 57
    case TitleAnimationFeature => 58
    case ImageAnimationFeature => 59
    case MirrorFeature => 60
    case BlurredBackgroundFeature => 61
    case ColoredBackgroundFeature => 62
    case AudioResampleFeature => 63
    case AudioFormatConvertFeature => 64
    case VideoFormatConvertFeature => 65
  }

  /** Every feature is registered, at its position. */
  lemma PositionLocates(f: Feature)
    ensures Position(f) < |RegistrationOrder| && RegistrationOrder[Position(f)] == f
  {
    var i := Position(f);
    if i < 21 {
      PositionLocatesFrom0(f);
    } else if i < 30 {
      PositionLocatesFrom21(f);
    } else if i < 37 {
      PositionLocatesFrom30(f);
    } else if i < 43 {
      PositionLocatesFrom37(f);
    } else if i < 48 {
      PositionLocatesFrom43(f);
    } else if i < 53 {
      PositionLocatesFrom48(f);
    } else if i < 57 {
      PositionLocatesFrom53(f);
    } else if i < 61 {
      PositionLocatesFrom57(f);
    } else if i < 64 {
      PositionLocatesFrom61(f);
    } else {
      PositionLocatesFrom64(f);
    }
  }

  lemma PositionLocatesFrom0(f: Feature)
    requires 0 <= Position(f) < 21
    ensures RegistrationOrder[Position(f)] == f
  {
  }

  lemma PositionLocatesFrom21(f: Feature)
    requires 21 <= Position(f) < 30
    ensures RegistrationOrder[Position(f)] == f
  {
  }

  lemma PositionLocatesFrom30(f: Feature)
    requires 30 <= Position(f) < 37
    ensures RegistrationOrder[Position(f)] == f
  {
  }

  lemma PositionLocatesFrom37(f: Feature)
    requires 37 <= Position(f) < 43
    ensures RegistrationOrder[Position(f)] == f
  {
  }

  lemma PositionLocatesFrom43(f: Feature)
    requires 43 <= Position(f) < 48
    ensures RegistrationOrder[Position(f)] == f
  {
  }

  lemma PositionLocatesFrom48(f: Feature)
    requires 48 <= Position(f) < 53
    ensures RegistrationOrder[Position(f)] == f
  {
  }

  lemma PositionLocatesFrom53(f: Feature)
    requires 53 <= Position(f) < 57
    ensures RegistrationOrder[Position(f)] == f
  {
  }

  lemma PositionLocatesFrom57(f: Feature)
    requires 57 <= Position(f) < 61
    ensures RegistrationOrder[Position(f)] == f
  {
  }

  lemma PositionLocatesFrom61(f: Feature)
    requires 61 <= Position(f) < 64
    ensures RegistrationOrder[Position(f)] == f
  {
  }

  lemma PositionLocatesFrom64(f: Feature)
    requires 64 <= Position(f) < 66
    ensures RegistrationOrder[Position(f)] == f
  {
  }

  /** The feature registered at index i has position i, so no feature is registered twice. */
  lemma PositionOfEntry(i: nat)
    requires i < |RegistrationOrder|
    ensures Position(RegistrationOrder[i]) == i
  {
    if i < 21 {
      PositionOfEntryFrom0(i);
    } else if i < 30 {
      PositionOfEntryFrom21(i);
    } else if i < 37 {
      PositionOfEntryFrom30(i);
    } else if i < 43 {
      PositionOfEntryFrom37(i);
    } else if i < 48 {
      PositionOfEntryFrom43(i);
    } else if i < 53 {
      PositionOfEntryFrom48(i);
    } else if i < 57 {
      PositionOfEntryFrom53(i);
    } else if i < 61 {
      PositionOfEntryFrom57(i);
    } else if i < 64 {
      PositionOfEntryFrom61(i);
    } else {
      PositionOfEntryFrom64(i);
    }
  }

  // Position is a 66-way match: each lemma below evaluates it for a few
  // consecutive registrations, fewer where the match is deeper.

  lemma PositionOfEntryFrom0(i: nat)
    requires 0 <= i < 21
    ensures Position(RegistrationOrder[i]) == i
  {
  }

  lemma PositionOfEntryFrom21(i: nat)
    requires 21 <= i < 30
    ensures Position(RegistrationOrder[i]) == i
  {
  }

  lemma PositionOfEntryFrom30(i: nat)
    requires 30 <= i < 37
    ensures Position(RegistrationOrder[i]) == i
  {
  }

  lemma PositionOfEntryFrom37(i: nat)
    requires 37 <= i < 43
    ensures Position(RegistrationOrder[i]) == i
  {
  }

  lemma PositionOfEntryFrom43(i: nat)
    requires 43 <= i < 48
    ensures Position(RegistrationOrder[i]) == i
  {
  }

  lemma PositionOfEntryFrom48(i: nat)
    requires 48 <= i < 53
    ensures Position(RegistrationOrder[i]) == i
  {
  }

  lemma PositionOfEntryFrom53(i: nat)
    requires 53 <= i < 57
    ensures Position(RegistrationOrder[i]) == i
  {
  }

  lemma PositionOfEntryFrom57(i: nat)
    requires 57 <= i < 61
    ensures Position(RegistrationOrder[i]) == i
  {
  }

  lemma PositionOfEntryFrom61(i: nat)
    requires 61 <= i < 64
    ensures Position(RegistrationOrder[i]) == i
  {
  }

  lemma PositionOfEntryFrom64(i: nat)
    requires 64 <= i < 66
    ensures Position(RegistrationOrder[i]) == i
  {
  }
}
