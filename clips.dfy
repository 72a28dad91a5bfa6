/**
 * One chunk's audio-visual clip: the chunk is spoken by the speech service,
 * the returned audio is decoded for its duration, the chunk's frame is
 * drawn, passed through a temporary image file, and shown for exactly that
 * long with the audio as its sound track.
 */
module Clips {
  import opened Wrappers
  import opened Alternation
  import opened Bubble
  import opened ImageFile

  /** A decoded audio duration: the decoder reports a strictly positive length. */
  type Seconds = r: real | r > 0.0 witness 1.0

  /** Frame rate of every image clip and of the written video. */
  const FrameRate: nat := 24

  /** A decoded audio track. */
  datatype AudioClip = AudioClip(data: seq<bv8>, duration: Seconds)

  /** A still frame shown for `duration` seconds with `audio` as its sound. */
  datatype VideoClip = VideoClip(frame: Image, fps: nat, duration: Seconds, audio: AudioClip)

  /** Why the run stopped; each is raised by a collaborator call. */
  datatype Failure =
    | GenerationFailed    // the story request failed
    | SpeechFailed        // the speech request for a chunk failed
    | AudioUnreadable     // the returned audio could not be opened
    | FrameUnreadable     // the frame's image file could not be opened as a clip

  /**
   * The foreign calls made while building clips: the speech service
   * (text and voice in, encoded audio out), the audio decoder's duration,
   * the font renderer's height and glyph mask of a text, the PNG writer's
   * encoding of a frame (what follows the signature), and whether the image
   * reader's decoder accepts such an encoding.
   */
  datatype Media = Media(
    speak: (string, string) -> Option<seq<bv8>>,
    decode: seq<bv8> -> Option<Seconds>,
    textHeight: string -> nat,
    glyphs: string -> ((int, int) -> bool),
    pngBody: Image -> seq<bv8>,
    pngReadable: seq<bv8> -> bool)

  /** The synchronisation invariant: the picture lasts exactly as long as the sound. */
  predicate Synchronized(c: VideoClip)
  {
    c.duration == c.audio.duration
  }

  /** The frame `create_video_clip` draws for a text. */
  function DrawFrame(text: string, character: string, isSent: bool, media: Media): Image
  {
    CreateImageWithText(text, character, isSent, media.textHeight(text))
  }

  /**
   * The image decoder accepts the frame's PNG encoding; by `PngStreamOpens`
   * this is exactly when a file holding the frame's PNG stream opens.
   */
  predicate FrameLoads(frame: Image, media: Media)
  {
    media.pngReadable(media.pngBody(frame))
  }

  /**
   * `create_video_clip` with the frame's PNG stream in the temporary image
   * file: decode the audio, draw the frame, open the file as a one-frame
   * clip and show it for the audio's duration.
   */
  function CreateVideoClip(text: string, audioData: seq<bv8>, character: string, isSent: bool, media: Media)
    : (r: Result<VideoClip, Failure>)
    ensures r.Success? <==>
      media.decode(audioData).Some? && FrameLoads(DrawFrame(text, character, isSent, media), media)
    ensures r.Failure? ==>
      r.error == if media.decode(audioData).None? then AudioUnreadable else FrameUnreadable
    ensures r.Success? ==>
      && Synchronized(r.value)
      && r.value.duration == media.decode(audioData).value
      && r.value.audio.data == audioData
      && r.value.fps == FrameRate
      && r.value.frame == DrawFrame(text, character, isSent, media)
      && r.value.frame.text == text
      && r.value.frame.bubbleColor == BubbleColor(isSent)
  {
    match media.decode(audioData)
    case None => Failure(AudioUnreadable)
    case Some(duration) =>
      var audioClip := AudioClip(audioData, duration);
      var frame := CreateImageWithText(text, character, isSent, media.textHeight(text));
      var imageFile := PngStream(media.pngBody(frame));
      PngStreamOpens(media.pngBody(frame), media.pngReadable);
      if !OpensAsPng(imageFile, media.pngReadable) then Failure(FrameUnreadable)
      else Success(VideoClip(frame, FrameRate, audioClip.duration, audioClip))
  }

  /**
   * `create_video_clip` as written: the temporary ".png" file receives the
   * frame's raw pixel array, not its PNG stream.
   */
  function CreateVideoClipAsWritten(text: string, audioData: seq<bv8>, character: string, isSent: bool, media: Media)
    : (r: Result<VideoClip, Failure>)
    ensures r.Failure? ==>
      r.error == if media.decode(audioData).None? then AudioUnreadable else FrameUnreadable
  {
    match media.decode(audioData)
    case None => Failure(AudioUnreadable)
    case Some(duration) =>
      var audioClip := AudioClip(audioData, duration);
      var frame := CreateImageWithText(text, character, isSent, media.textHeight(text));
      var imageFile := RawPixels(frame, media.glyphs(text));
      if !OpensAsPng(imageFile, media.pngReadable) then Failure(FrameUnreadable)
      else Success(VideoClip(frame, FrameRate, audioClip.duration, audioClip))
  }

  /**
   * As written, no clip is ever built: whenever the audio decodes, the image
   * file fails to open, whatever the image reader's decoder accepts.
   */
  lemma AsWrittenClipNeverBuilt(text: string, audioData: seq<bv8>, character: string, isSent: bool, media: Media)
    ensures CreateVideoClipAsWritten(text, audioData, character, isSent, media).Failure?
    ensures media.decode(audioData).Some? ==>
      CreateVideoClipAsWritten(text, audioData, character, isSent, media) == Failure(FrameUnreadable)
  {
    RawPixelsAreNotPng(text, character, isSent, media.textHeight(text), media.glyphs(text));
  }

  /** One pass of the loop body for chunk `i`: speak it with the selected voice, then build its clip. */
  function ProcessChunk(i: nat, dialogue: string, voice: string, media: Media): (r: Result<VideoClip, Failure>)
    ensures r.Success? <==>
      && media.speak(dialogue, voice).Some?
      && media.decode(media.speak(dialogue, voice).value).Some?
      && FrameLoads(DrawFrame(dialogue, Character(i), IsSent(i), media), media)
    ensures r.Failure? ==>
      r.error == if media.speak(dialogue, voice).None? then SpeechFailed
                 else if media.decode(media.speak(dialogue, voice).value).None? then AudioUnreadable
                 else FrameUnreadable
    ensures r.Success? ==>
      && Synchronized(r.value)
      && r.value.audio.data == media.speak(dialogue, voice).value
      && r.value.duration == media.decode(media.speak(dialogue, voice).value).value
      && r.value.fps == FrameRate
      && r.value.frame == DrawFrame(dialogue, Character(i), IsSent(i), media)
      && r.value.frame.bubble == BubbleRect(media.textHeight(dialogue))
      && r.value.frame.text == dialogue
      && r.value.frame.bubbleColor == BubbleColor(i % 2 == 0)
  {
    var character := Character(i);
    match media.speak(dialogue, voice)
    case None => Failure(SpeechFailed)
    case Some(audioData) =>
      var isSent := i % 2 == 0;
      CreateVideoClip(dialogue, audioData, character, isSent, media)
  }

  /**
   * The voice does not alternate: every chunk is spoken by the same request
   * whatever its index, so speech and audio decoding succeed or fail the same
   * way and two successful clips of one chunk carry the same audio; the
   * index reaches the clip only through its parity.
   */
  lemma SameVoiceAtEveryIndex(i: nat, j: nat, dialogue: string, voice: string, media: Media)
    ensures (ProcessChunk(i, dialogue, voice, media) == Failure(SpeechFailed)) ==
            (ProcessChunk(j, dialogue, voice, media) == Failure(SpeechFailed))
    ensures (ProcessChunk(i, dialogue, voice, media) == Failure(AudioUnreadable)) ==
            (ProcessChunk(j, dialogue, voice, media) == Failure(AudioUnreadable))
    ensures ProcessChunk(i, dialogue, voice, media).Success? && ProcessChunk(j, dialogue, voice, media).Success? ==>
      ProcessChunk(i, dialogue, voice, media).value.audio == ProcessChunk(j, dialogue, voice, media).value.audio
    ensures i % 2 == j % 2 ==> ProcessChunk(i, dialogue, voice, media) == ProcessChunk(j, dialogue, voice, media)
  {
  }
}
