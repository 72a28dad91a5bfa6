/**
 * What one press of "Generate Video" does: ask for a story, cut it into
 * chunks, build one clip per chunk, and either write the concatenated
 * video or report why none was produced.
 */
module Pipeline {
  import opened Wrappers
  import opened Chunking
  import opened Alternation
  import opened Bubble
  import opened Clips
  import opened Assembly
  import opened Timeline

  /**
   * The foreign calls of a run: the story service (prompt in, story out),
   * the calls made per chunk, and the video writer (video and frame rate
   * in, file contents out).
   */
  datatype Services = Services(
    generate: string -> Option<string>,
    media: Media,
    encode: (Video, nat) -> Option<seq<bv8>>)

  /** What the page ends up showing. */
  datatype Outcome =
    | NoPrompt                                      // the prompt was empty: nothing happens
    | ErrorGeneratingVideo(cause: Failure)          // "Error generating video: ..."
    | NoValidClips(story: string)                   // "No valid video clips were created. ..."
    | ErrorCreatingFinalVideo(story: string)        // "Error creating final video: ..."
    | Played(story: string, video: Video, file: seq<bv8>)

  /** The outcome of one run, step by step as the page script takes them. */
  function RunOutcome(prompt: string, voice: string, svc: Services): Outcome
  {
    if prompt == [] then NoPrompt
    else
      match svc.generate(prompt)
      case None => ErrorGeneratingVideo(GenerationFailed)
      case Some(story) =>
        match BuildClips(Chunks(story), voice, svc.media)
        case Failure(e) => ErrorGeneratingVideo(e)
        case Success(videoClips) =>
          if videoClips == [] then NoValidClips(story)
          else
            var video := Concatenate(videoClips);
            match svc.encode(video, FrameRate)
            case None => ErrorCreatingFinalVideo(story)
            case Some(file) => Played(story, video, file)
  }

  /** The button handler. */
  method GenerateVideo(prompt: string, voice: string, svc: Services) returns (o: Outcome)
    ensures o == RunOutcome(prompt, voice, svc)
  {
    if prompt == [] {
      return NoPrompt;
    }
    var story := svc.generate(prompt);
    if story.None? {
      return ErrorGeneratingVideo(GenerationFailed);
    }
    var dialogues := Chunks(story.value);
    var videoClips := ProcessDialogues(dialogues, voice, svc.media);
    if videoClips.Failure? {
      return ErrorGeneratingVideo(videoClips.error);
    }
    if videoClips.value != [] {
      var finalVideo := Concatenate(videoClips.value);
      var file := svc.encode(finalVideo, FrameRate);
      if file.None? {
        o := ErrorCreatingFinalVideo(story.value);
      } else {
        o := Played(story.value, finalVideo, file.value);
      }
    } else {
      o := NoValidClips(story.value);
    }
  }

  /** "No valid video clips" is reported exactly when the story came back empty. */
  lemma NoValidClipsIffEmptyStory(prompt: string, voice: string, svc: Services)
    ensures RunOutcome(prompt, voice, svc).NoValidClips? <==> prompt != [] && svc.generate(prompt) == Some([])
  {
  }

  /**
   * The run aborts with "Error generating video" exactly when the story
   * request fails or some chunk fails; when a chunk is to blame, the error
   * shown is that of the first failing chunk, and every chunk before it
   * succeeded.
   */
  lemma RunAbortsIffSomeStepFails(prompt: string, voice: string, svc: Services)
    requires prompt != []
    ensures RunOutcome(prompt, voice, svc).ErrorGeneratingVideo? <==>
      || svc.generate(prompt).None?
      || var dialogues := Chunks(svc.generate(prompt).value);
         exists k :: 0 <= k < |dialogues| && ProcessChunk(k, dialogues[k], voice, svc.media).Failure?
    ensures svc.generate(prompt).None? ==> RunOutcome(prompt, voice, svc) == ErrorGeneratingVideo(GenerationFailed)
    ensures RunOutcome(prompt, voice, svc).ErrorGeneratingVideo? && svc.generate(prompt).Some? ==>
      var dialogues := Chunks(svc.generate(prompt).value);
      exists k :: (
        && 0 <= k < |dialogues|
        && (forall j :: 0 <= j < k ==> ProcessChunk(j, dialogues[j], voice, svc.media).Success?)
        && ProcessChunk(k, dialogues[k], voice, svc.media) == Failure(RunOutcome(prompt, voice, svc).cause))
  {
    if svc.generate(prompt).Some? {
      BuildClipsOutcome(Chunks(svc.generate(prompt).value), voice, svc.media);
    }
  }

  /**
   * The video writer is reached exactly when the story is non-empty and every
   * chunk produced its clip; it then decides between a played video and
   * "Error creating final video".
   */
  lemma EncodeReachedIff(prompt: string, voice: string, svc: Services)
    ensures var o := RunOutcome(prompt, voice, svc);
      (o.Played? || o.ErrorCreatingFinalVideo?) <==>
        && prompt != []
        && svc.generate(prompt).Some?
        && svc.generate(prompt).value != []
        && BuildClips(Chunks(svc.generate(prompt).value), voice, svc.media).Success?
    ensures var o := RunOutcome(prompt, voice, svc);
      (o.Played? || o.ErrorCreatingFinalVideo?) ==>
        var clips := BuildClips(Chunks(svc.generate(prompt).value), voice, svc.media).value;
        && clips != []
        && (o.Played? <==> svc.encode(Concatenate(clips), FrameRate).Some?)
        && (o.Played? ==> o.video == Concatenate(clips) && o.file == svc.encode(o.video, FrameRate).value)
  {
    if prompt != [] && svc.generate(prompt).Some? {
      BuildClipsOutcome(Chunks(svc.generate(prompt).value), voice, svc.media);
    }
  }

  /** The text shown in each segment of the video, in play order. */
  function Captions(video: Video): (texts: seq<string>)
    ensures |texts| == |video.segments|
  {
    seq(|video.segments|, k requires 0 <= k < |video.segments| => video.segments[k].clip.frame.text)
  }

  /**
   * A played video has one segment per chunk, in chunk order; segment `k`
   * shows chunk `k` in the colour of its parity, with the audio of chunk `k`
   * spoken in the selected voice and lasting as long as the decoder says; the captions read back the
   * whole story; and the video lasts exactly as long as its audio.
   */
  lemma PlayedVideoTellsTheStory(prompt: string, voice: string, svc: Services)
    requires RunOutcome(prompt, voice, svc).Played?
    ensures var o := RunOutcome(prompt, voice, svc);
      var dialogues := Chunks(o.story);
      var segments := o.video.segments;
      && svc.generate(prompt) == Some(o.story)
      && |segments| == |dialogues| > 0
      && (forall k :: 0 <= k < |segments| ==>
            && segments[k].clip.frame.text == dialogues[k]
            && segments[k].clip.frame.bubbleColor == BubbleColor(IsSent(k))
            && svc.media.speak(dialogues[k], voice) == Some(segments[k].clip.audio.data)
            && svc.media.decode(segments[k].clip.audio.data) == Some(segments[k].clip.duration)
            && segments[k].clip.fps == FrameRate
            && segments[k].clip.frame == DrawFrame(dialogues[k], Character(k), IsSent(k), svc.media)
            && segments[k].clip.frame.bubble == BubbleRect(svc.media.textHeight(dialogues[k]))
            && Synchronized(segments[k].clip))
      && Concat(Captions(o.video)) == o.story
      && o.video.duration == TotalAudioDuration(BuildClips(dialogues, voice, svc.media).value)
  {
    var o := RunOutcome(prompt, voice, svc);
    var dialogues := Chunks(o.story);
    OneClipPerChunk(dialogues, voice, svc.media);
    var clips := BuildClips(dialogues, voice, svc.media).value;
    assert Captions(o.video) == dialogues;
    ConcatChunks(o.story);
    VideoLengthIsAudioLength(clips);
  }
}
