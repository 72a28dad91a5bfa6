/**
 * `concatenate_videoclips`: the clips are played one after another, each
 * starting when the previous one ends, with no gaps, overlaps or reordering.
 */
module Timeline {
  import opened Clips

  /** A clip placed on the timeline at `start` seconds. */
  datatype Segment = Segment(start: real, clip: VideoClip)

  /** The concatenated video: its segments in play order and its total length. */
  datatype Video = Video(segments: seq<Segment>, duration: real)

  /** Summed length of the clips. */
  function TotalDuration(clips: seq<VideoClip>): (t: real)
    ensures t >= 0.0
    ensures clips != [] ==> t > 0.0
  {
    if clips == [] then 0.0 else clips[0].duration + TotalDuration(clips[1..])
  }

  /** Summed length of the clips' audio tracks. */
  function TotalAudioDuration(clips: seq<VideoClip>): real
  {
    if clips == [] then 0.0 else clips[0].audio.duration + TotalAudioDuration(clips[1..])
  }

  /** Each clip starts at the summed length of the clips before it. */
  function Concatenate(clips: seq<VideoClip>): (v: Video)
    ensures |v.segments| == |clips|
    ensures forall k :: 0 <= k < |clips| ==> v.segments[k].clip == clips[k]
    ensures clips != [] ==> v.segments[0].start == 0.0 && v.duration > 0.0
  {
    Video(seq(|clips|, k requires 0 <= k < |clips| => Segment(TotalDuration(clips[..k]), clips[k])),
          TotalDuration(clips))
  }

  lemma {:induction false} TotalDurationAppend(a: seq<VideoClip>, b: seq<VideoClip>)
    ensures TotalDuration(a + b) == TotalDuration(a) + TotalDuration(b)
    decreases |a|
  {
    if a == [] {
      assert a + b == b;
    } else {
      assert (a + b)[0] == a[0];
      assert (a + b)[1..] == a[1..] + b;
      TotalDurationAppend(a[1..], b);
    }
  }

  /**
   * The segments are back to back: each one starts where the one before it
   * ends, and the last one ends where the video ends.
   */
  lemma {:induction false} SegmentsBackToBack(clips: seq<VideoClip>, k: nat)
    requires k < |clips|
    ensures var v := Concatenate(clips);
      && (k + 1 < |clips| ==> v.segments[k + 1].start == v.segments[k].start + clips[k].duration)
      && (k + 1 == |clips| ==> v.segments[k].start + clips[k].duration == v.duration)
  {
    assert clips[..k + 1] == clips[..k] + [clips[k]];
    TotalDurationAppend(clips[..k], [clips[k]]);
    assert TotalDuration([clips[k]]) == clips[k].duration + TotalDuration([]);
    if k + 1 == |clips| {
      assert clips[..k + 1] == clips;
    }
  }

  /** Play order is clip order: a later clip starts strictly later. */
  lemma {:induction false} SegmentsInOrder(clips: seq<VideoClip>, j: nat, k: nat)
    requires j < k < |clips|
    ensures Concatenate(clips).segments[j].start < Concatenate(clips).segments[k].start
  {
    assert clips[..k] == clips[..j] + clips[j..k];
    TotalDurationAppend(clips[..j], clips[j..k]);
  }

  /** When every clip is synchronised, the video is exactly as long as all the audio together. */
  lemma {:induction false} VideoLengthIsAudioLength(clips: seq<VideoClip>)
    requires forall k :: 0 <= k < |clips| ==> Synchronized(clips[k])
    ensures Concatenate(clips).duration == TotalAudioDuration(clips)
    decreases |clips|
  {
    if clips != [] {
      assert Synchronized(clips[0]);
      VideoLengthIsAudioLength(clips[1..]);
    }
  }
}
