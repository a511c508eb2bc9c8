/**
 * Timelines built on an AVMutableComposition: consecutive insertion for
 * Concat and MergeAudio, time rescaling for Speed, and the video-plus-audio
 * layouts of AddAudio and RemoveAudio.
 */
module Timeline {
  import opened Wrappers
  import opened Media

  /** AVMediaType: the kind of a composition track. */
  datatype MediaType = VideoMedia | AudioMedia

  /** CMTimeRange over seconds. */
  datatype TimeRange = TimeRange(start: real, duration: real) {
    function End(): real {
      start + duration
    }
  }

  /**
   * One track of a composition holding one inserted range of a source file:
   * `sourceRange` of the file at `source` plays from composition time `at`
   * for `length` seconds (the range's own duration unless it was rescaled).
   */
  datatype CompositionTrack = CompositionTrack(
    mediaType: MediaType, source: string, sourceRange: TimeRange, at: real, length: real)
  {
    function CompositionRange(): TimeRange {
      TimeRange(at, length)
    }
  }

  /**
   * A source asset on the way into a concatenation: its location, its
   * duration, and whether it has a track of the kind being concatenated.
   */
  datatype Clip = Clip(url: string, duration: Duration, hasTrack: bool)

  /** addMutableTrack + insertTimeRange(0..duration, of: track, at: offset) */
  function Insertion(mediaType: MediaType, clip: Clip, offset: real): (t: CompositionTrack)
  {
    CompositionTrack(mediaType, clip.url, TimeRange(0.0, clip.duration), offset, clip.duration)
  }

  /** The clips that have the track, in their original order. */
  function Included(clips: seq<Clip>): seq<Clip> {
    if clips == [] then []
    else
      var last := clips[|clips| - 1];
      Included(clips[..|clips| - 1]) + (if last.hasTrack then [last] else [])
  }

  /** The sum of the durations of the given clips. */
  function Sum(clips: seq<Clip>): real {
    if clips == [] then 0.0 else Sum(clips[..|clips| - 1]) + clips[|clips| - 1].duration
  }

  /**
   * The tracks Concat and MergeAudio add, one per clip that has the track: a
   * clip without it is skipped and does not move the insertion point; every
   * other clip is inserted where the previous ones end.
   */
  function ConcatTracks(clips: seq<Clip>, mediaType: MediaType): seq<CompositionTrack> {
    if clips == [] then []
    else
      var init, last := clips[..|clips| - 1], clips[|clips| - 1];
      ConcatTracks(init, mediaType)
        + (if last.hasTrack then [Insertion(mediaType, last, Sum(Included(init)))] else [])
  }

  lemma {:induction false} SumAppend(clips: seq<Clip>, c: Clip)
    ensures Sum(clips + [c]) == Sum(clips) + c.duration
  {
    assert (clips + [c])[..|clips|] == clips;
  }

  lemma {:induction false} SumNonNegative(clips: seq<Clip>)
    ensures Sum(clips) >= 0.0
  {
    if clips != [] {
      SumNonNegative(clips[..|clips| - 1]);
    }
  }

  lemma {:induction false} SumPrefixMonotone(clips: seq<Clip>, i: nat, j: nat)
    requires i <= j <= |clips|
    ensures Sum(clips[..i]) <= Sum(clips[..j])
    decreases j - i
  {
    if i < j {
      SumPrefixMonotone(clips, i + 1, j);
      assert clips[..i + 1] == clips[..i] + [clips[i]];
      SumAppend(clips[..i], clips[i]);
    }
  }

  /**
   * The k-th track of a concatenation comes from the k-th clip that has the
   * track and starts at the sum of the durations of the included clips
   * before it.
   */
  lemma {:induction false} ConcatTrackAt(clips: seq<Clip>, mediaType: MediaType, k: nat)
    requires k < |Included(clips)|
    ensures |ConcatTracks(clips, mediaType)| == |Included(clips)|
    ensures ConcatTracks(clips, mediaType)[k]
         == Insertion(mediaType, Included(clips)[k], Sum(Included(clips)[..k]))
  {
    var init, last := clips[..|clips| - 1], clips[|clips| - 1];
    ConcatLength(init, mediaType);
    if k < |Included(init)| {
      ConcatTrackAt(init, mediaType, k);
      assert Included(clips)[..k] == Included(init)[..k];
    } else {
      assert Included(clips)[..k] == Included(init);
    }
  }

  lemma {:induction false} ConcatLength(clips: seq<Clip>, mediaType: MediaType)
    ensures |ConcatTracks(clips, mediaType)| == |Included(clips)|
  {
    if clips != [] {
      ConcatLength(clips[..|clips| - 1], mediaType);
    }
  }

  /**
   * Consecutive tracks of a concatenation touch: each starts exactly where
   * the previous one ends.
   */
  lemma ConcatContiguous(clips: seq<Clip>, mediaType: MediaType, k: nat)
    requires k + 1 < |ConcatTracks(clips, mediaType)|
    ensures ConcatTracks(clips, mediaType)[k].CompositionRange().End()
         == ConcatTracks(clips, mediaType)[k + 1].at
  {
    var inc := Included(clips);
    ConcatLength(clips, mediaType);
    ConcatTrackAt(clips, mediaType, k);
    ConcatTrackAt(clips, mediaType, k + 1);
    assert inc[..k + 1] == inc[..k] + [inc[k]];
    SumAppend(inc[..k], inc[k]);
  }

  /** Tracks of a concatenation never overlap, and none starts before time zero. */
  lemma ConcatDisjoint(clips: seq<Clip>, mediaType: MediaType, i: nat, j: nat)
    requires i < j < |ConcatTracks(clips, mediaType)|
    ensures ConcatTracks(clips, mediaType)[i].at >= 0.0
    ensures ConcatTracks(clips, mediaType)[i].CompositionRange().End()
         <= ConcatTracks(clips, mediaType)[j].at
  {
    var inc := Included(clips);
    ConcatLength(clips, mediaType);
    ConcatTrackAt(clips, mediaType, i);
    ConcatTrackAt(clips, mediaType, j);
    SumNonNegative(inc[..i]);
    assert inc[..i + 1] == inc[..i] + [inc[i]];
    SumAppend(inc[..i], inc[i]);
    SumPrefixMonotone(inc, i + 1, j);
  }

  /**
   * After the last track the insertion point is the sum of the durations
   * of all included clips.
   */
  lemma ConcatEndsAtTotal(clips: seq<Clip>, mediaType: MediaType)
    requires |ConcatTracks(clips, mediaType)| > 0
    ensures ConcatTracks(clips, mediaType)[|ConcatTracks(clips, mediaType)| - 1].CompositionRange().End()
         == Sum(Included(clips))
  {
    var inc := Included(clips);
    var n := |inc|;
    ConcatLength(clips, mediaType);
    ConcatTrackAt(clips, mediaType, n - 1);
    assert inc[..n - 1] + [inc[n - 1]] == inc;
    SumAppend(inc[..n - 1], inc[n - 1]);
  }

  /** AVMutableComposition: the tracks added so far, in order. */
  class MutableComposition {
    var tracks: seq<CompositionTrack>

    constructor ()
      ensures tracks == []
    {
      tracks := [];
    }

    /** addMutableTrack followed by insertTimeRange on the new track. */
    method AddTrack(track: CompositionTrack)
      modifies this
      ensures tracks == old(tracks) + [track]
    {
      tracks := tracks + [track];
    }
  }

  /**
   * The loop of Concat and MergeAudio over `[asset] + others` with its
   * running `insertTime`.
   */
  method Concatenate(composition: MutableComposition, clips: seq<Clip>, mediaType: MediaType)
    returns (insertTime: real)
    modifies composition
    ensures composition.tracks == old(composition.tracks) + ConcatTracks(clips, mediaType)
    ensures insertTime == Sum(Included(clips))
  {
    insertTime := 0.0;
    for i := 0 to |clips|
      invariant composition.tracks == old(composition.tracks) + ConcatTracks(clips[..i], mediaType)
      invariant insertTime == Sum(Included(clips[..i]))
    {
      ConcatStep(clips, i, mediaType);
      var clip := clips[i];
      if !clip.hasTrack {
        continue;
      }
      composition.AddTrack(Insertion(mediaType, clip, insertTime));
      SumAppend(Included(clips[..i]), clip);
      insertTime := insertTime + clip.duration;
    }
    assert clips[..|clips|] == clips;
  }

  /** One more clip: what the i-th iteration of the loop adds. */
  lemma ConcatStep(clips: seq<Clip>, i: nat, mediaType: MediaType)
    requires i < |clips|
    ensures clips[i].hasTrack ==>
      && Included(clips[..i + 1]) == Included(clips[..i]) + [clips[i]]
      && ConcatTracks(clips[..i + 1], mediaType)
         == ConcatTracks(clips[..i], mediaType) + [Insertion(mediaType, clips[i], Sum(Included(clips[..i])))]
    ensures !clips[i].hasTrack ==>
      && Included(clips[..i + 1]) == Included(clips[..i])
      && ConcatTracks(clips[..i + 1], mediaType) == ConcatTracks(clips[..i], mediaType)
  {
    assert clips[..i + 1][..i] == clips[..i];
    assert Included(clips[..i]) + [] == Included(clips[..i]);
    assert ConcatTracks(clips[..i], mediaType) + [] == ConcatTracks(clips[..i], mediaType);
  }

  /** scaleTimeRange(track's range, toDuration:): the track now plays for `toDuration`. */
  function Rescaled(track: CompositionTrack, toDuration: real): CompositionTrack {
    track.(length := toDuration)
  }

  /**
   * Speed's composition: the whole video track inserted at zero, then
   * rescaled to `duration * (1 / factor)`.
   */
  function SpeedTracks(url: string, duration: Duration, factor: real): (tracks: seq<CompositionTrack>)
    requires factor != 0.0
  {
    [Rescaled(Insertion(VideoMedia, Clip(url, duration, true), 0.0), duration * (1.0 / factor))]
  }

  /**
   * The rescaled track plays the whole source from time zero, and playing
   * it at `factor` times normal speed takes the source's duration.
   */
  lemma SpeedRescales(url: string, duration: Duration, factor: real)
    requires factor != 0.0
    ensures |SpeedTracks(url, duration, factor)| == 1
    ensures SpeedTracks(url, duration, factor)[0].sourceRange == TimeRange(0.0, duration)
    ensures SpeedTracks(url, duration, factor)[0].at == 0.0
    ensures SpeedTracks(url, duration, factor)[0].length * factor == duration
  {
    var len := duration * (1.0 / factor);
    calc {
      len * factor;
      duration * ((1.0 / factor) * factor);
      duration;
    }
  }

  /** Double speed halves the duration; half speed doubles it. */
  lemma SpeedExamples(url: string, duration: Duration)
    ensures SpeedTracks(url, duration, 2.0)[0].length == duration / 2.0
    ensures SpeedTracks(url, duration, 0.5)[0].length == 2.0 * duration
  {
  }

  /**
   * AddAudio's composition: the video's video track and the audio file's
   * audio track, both inserted at zero for the video's duration. Either is
   * left out when its file has no such track.
   */
  function AddAudioTracks(videoUrl: string, video: SourceInfo, audioUrl: string, audio: SourceInfo)
    : seq<CompositionTrack>
  {
    (if video.video.Some? then [Insertion(VideoMedia, Clip(videoUrl, video.duration, true), 0.0)] else [])
    + (if audio.hasAudio
       then [CompositionTrack(AudioMedia, audioUrl, TimeRange(0.0, video.duration), 0.0, video.duration)]
       else [])
  }

  /**
   * Every track AddAudio lays down spans exactly the video's duration from
   * time zero, and there is an audio track iff the audio file has one.
   */
  lemma AddAudioAligned(videoUrl: string, video: SourceInfo, audioUrl: string, audio: SourceInfo)
    ensures var tracks := AddAudioTracks(videoUrl, video, audioUrl, audio);
      && |tracks| == (if video.video.Some? then 1 else 0) + (if audio.hasAudio then 1 else 0)
      && (forall k :: 0 <= k < |tracks| ==>
            tracks[k].CompositionRange() == TimeRange(0.0, video.duration)
            && tracks[k].sourceRange == TimeRange(0.0, video.duration))
      && (audio.hasAudio <==> exists k :: 0 <= k < |tracks| && tracks[k].mediaType == AudioMedia)
      && (forall k :: 0 <= k < |tracks| && tracks[k].mediaType == AudioMedia ==> tracks[k].source == audioUrl)
      && (video.video.Some? <==> exists k :: 0 <= k < |tracks| && tracks[k].mediaType == VideoMedia)
      && (forall k :: 0 <= k < |tracks| && tracks[k].mediaType == VideoMedia ==> tracks[k].source == videoUrl)
  {
    var tracks := AddAudioTracks(videoUrl, video, audioUrl, audio);
    if audio.hasAudio {
      assert tracks[|tracks| - 1].mediaType == AudioMedia;
    }
    if video.video.Some? {
      assert tracks[0].mediaType == VideoMedia;
    }
  }

  /** RemoveAudio's composition: only the video track, inserted at zero. */
  function VideoOnlyTracks(url: string, source: SourceInfo): (tracks: seq<CompositionTrack>)
    ensures forall k :: 0 <= k < |tracks| ==> tracks[k].mediaType == VideoMedia
    ensures |tracks| == 1 <==> source.video.Some?
    ensures source.video.Some? ==>
      tracks == [CompositionTrack(VideoMedia, url, TimeRange(0.0, source.duration), 0.0, source.duration)]
    ensures source.video.None? ==> tracks == []
  {
    if source.video.Some? then [Insertion(VideoMedia, Clip(url, source.duration, true), 0.0)] else []
  }
}
