/**
 * The audio mixes of FadeAudio, Volume, AudioFadeIn and AudioFadeOut: the
 * volume commands set on the input parameters of the asset's first audio
 * track.
 */
module AudioMix {
  import opened Timeline

  /** One command on AVMutableAudioMixInputParameters. */
  datatype VolumeCommand =
    | Ramp(startVolume: real, endVolume: real, range: TimeRange)   // setVolumeRamp(fromStartVolume:toEndVolume:timeRange:)
    | SetVolume(volume: real, at: real)                            // setVolume(_:at:)

  /** The volume a ramp prescribes at time t inside its range: linear interpolation. */
  function VolumeAt(ramp: VolumeCommand, t: real): real
    requires ramp.Ramp? && ramp.range.duration > 0.0
  {
    var progress := (t - ramp.range.start) / ramp.range.duration;
    ramp.startVolume + (ramp.endVolume - ramp.startVolume) * progress
  }

  /** The fade-in ramp: from silence to full volume over [0, fadeIn). */
  function FadeInRamp(fadeIn: real): VolumeCommand {
    Ramp(0.0, 1.0, TimeRange(0.0, fadeIn))
  }

  /** The fade-out ramp: from full volume to silence over the last fadeOut seconds. */
  function FadeOutRamp(duration: real, fadeOut: real): VolumeCommand {
    Ramp(1.0, 0.0, TimeRange(duration - fadeOut, fadeOut))
  }

  /** FadeAudio: the fade-in ramp, then the fade-out ramp, on the same track. */
  function FadeMix(duration: real, fadeIn: real, fadeOut: real): seq<VolumeCommand> {
    [FadeInRamp(fadeIn), FadeOutRamp(duration, fadeOut)]
  }

  /** Volume: one level, set at time zero. */
  function VolumeMix(volume: real): seq<VolumeCommand> {
    [SetVolume(volume, 0.0)]
  }

  /**
   * The fade-in starts silent at time zero, reaches full volume exactly at
   * fadeIn, and never gets quieter in between.
   */
  lemma FadeInShape(fadeIn: real, t1: real, t2: real)
    requires fadeIn > 0.0
    requires 0.0 <= t1 <= t2 <= fadeIn
    ensures FadeInRamp(fadeIn).range.start == 0.0 && FadeInRamp(fadeIn).range.End() == fadeIn
    ensures VolumeAt(FadeInRamp(fadeIn), 0.0) == 0.0
    ensures VolumeAt(FadeInRamp(fadeIn), fadeIn) == 1.0
    ensures 0.0 <= VolumeAt(FadeInRamp(fadeIn), t1) <= VolumeAt(FadeInRamp(fadeIn), t2) <= 1.0
  {
    DivisionMonotone(t1, t2, fadeIn);
    DivisionMonotone(t2, fadeIn, fadeIn);
    DivisionMonotone(0.0, t1, fadeIn);
  }

  /**
   * The fade-out starts at full volume fadeOut seconds before the end, lasts
   * fadeOut seconds, so ends exactly at the asset's duration in silence, and
   * never gets louder in between.
   */
  lemma FadeOutShape(duration: real, fadeOut: real, t1: real, t2: real)
    requires fadeOut > 0.0
    requires duration - fadeOut <= t1 <= t2 <= duration
    ensures FadeOutRamp(duration, fadeOut).range.start == duration - fadeOut
    ensures FadeOutRamp(duration, fadeOut).range.duration == fadeOut
    ensures FadeOutRamp(duration, fadeOut).range.End() == duration
    ensures VolumeAt(FadeOutRamp(duration, fadeOut), duration - fadeOut) == 1.0
    ensures VolumeAt(FadeOutRamp(duration, fadeOut), duration) == 0.0
    ensures 0.0 <= VolumeAt(FadeOutRamp(duration, fadeOut), t2)
              <= VolumeAt(FadeOutRamp(duration, fadeOut), t1) <= 1.0
  {
    var s := duration - fadeOut;
    DivisionMonotone(t1 - s, t2 - s, fadeOut);
    DivisionMonotone(t2 - s, fadeOut, fadeOut);
    DivisionMonotone(0.0, t1 - s, fadeOut);
  }

  /**
   * The two ramps of FadeAudio, for non-negative lengths, are disjoint
   * exactly when the fades fit in the duration; the ramps are passed on as
   * they are, overlapping or not.
   */
  lemma FadeRampsDisjointIff(duration: real, fadeIn: real, fadeOut: real)
    requires fadeIn >= 0.0 && fadeOut >= 0.0
    ensures var mix := FadeMix(duration, fadeIn, fadeOut);
      && |mix| == 2 && mix[0] == FadeInRamp(fadeIn) && mix[1] == FadeOutRamp(duration, fadeOut)
      && (mix[0].range.End() <= mix[1].range.start <==> fadeIn + fadeOut <= duration)
  {
  }

  /** Volume sets one level, at time zero, and nothing else. */
  lemma VolumeMixSingleLevel(volume: real)
    ensures |VolumeMix(volume)| == 1
    ensures VolumeMix(volume)[0].SetVolume?
    ensures VolumeMix(volume)[0].volume == volume && VolumeMix(volume)[0].at == 0.0
  {
  }

  lemma DivisionMonotone(x: real, y: real, d: real)
    requires d > 0.0 && x <= y
    ensures x / d <= y / d
  {
    assert y / d - x / d == (y - x) / d;
  }
}
