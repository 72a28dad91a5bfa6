/**
 * The loop that turns the dialogue chunks into `video_clips`: for each chunk,
 * in order, one clip is built and appended. The first failing call ends the
 * loop by raising, and the clips built so far are dropped with it.
 */
module Assembly {
  import opened Wrappers
  import opened Clips

  /** Puts already-built clips in front of the outcome of the rest of the loop. */
  function Prepend(done: seq<VideoClip>, rest: Result<seq<VideoClip>, Failure>): (r: Result<seq<VideoClip>, Failure>)
  {
    match rest
    case Failure(e) => Failure(e)
    case Success(cs) => Success(done + cs)
  }

  lemma PrependNothing(rest: Result<seq<VideoClip>, Failure>)
    ensures Prepend([], rest) == rest
  {
    if rest.Success? {
      assert [] + rest.value == rest.value;
    }
  }

  lemma PrependTwice(a: seq<VideoClip>, b: seq<VideoClip>, rest: Result<seq<VideoClip>, Failure>)
    ensures Prepend(a, Prepend(b, rest)) == Prepend(a + b, rest)
  {
    if rest.Success? {
      assert a + (b + rest.value) == (a + b) + rest.value;
    }
  }

  /** What building the clip of chunk `i` with text `d` yields. */
  type ChunkStep = (nat, string) -> Result<VideoClip, Failure>

  /** The loop body of app.py as a step: `ProcessChunk` with the selected voice. */
  function StepFor(voice: string, media: Media): ChunkStep
  {
    (i: nat, d: string) => ProcessChunk(i, d, voice, media)
  }

  /** What the loop yields when started at chunk `start`: the clips of the remaining chunks, or the first failure. */
  function BuildClipsFrom(dialogues: seq<string>, start: nat, step: ChunkStep)
    : (r: Result<seq<VideoClip>, Failure>)
    requires start <= |dialogues|
    decreases |dialogues| - start
  {
    if start == |dialogues| then Success([])
    else
      match step(start, dialogues[start])
      case Failure(e) => Failure(e)
      case Success(c) => Prepend([c], BuildClipsFrom(dialogues, start + 1, step))
  }

  /** The whole loop over `enumerate(dialogues)`. */
  function BuildClips(dialogues: seq<string>, voice: string, media: Media): (r: Result<seq<VideoClip>, Failure>)
  {
    BuildClipsFrom(dialogues, 0, StepFor(voice, media))
  }

  /** The loop of app.py: append one clip per chunk, in chunk order. */
  method ProcessDialogues(dialogues: seq<string>, voice: string, media: Media)
    returns (r: Result<seq<VideoClip>, Failure>)
    ensures r == BuildClips(dialogues, voice, media)
  {
    ghost var step := StepFor(voice, media);
    var videoClips: seq<VideoClip> := [];
    PrependNothing(BuildClips(dialogues, voice, media));
    for i := 0 to |dialogues|
      invariant BuildClips(dialogues, voice, media) == Prepend(videoClips, BuildClipsFrom(dialogues, i, step))
    {
      assert step(i, dialogues[i]) == ProcessChunk(i, dialogues[i], voice, media);
      var character := Alternation.Character(i);
      var audioData := media.speak(dialogues[i], voice);
      if audioData.None? {
        return Failure(SpeechFailed);
      }
      var isSent := i % 2 == 0;
      var clip := CreateVideoClip(dialogues[i], audioData.value, character, isSent, media);
      if clip.Failure? {
        return Failure(clip.error);
      }
      PrependTwice(videoClips, [clip.value], BuildClipsFrom(dialogues, i + 1, step));
      videoClips := videoClips + [clip.value];
    }
    r := Success(videoClips);
    assert videoClips + [] == videoClips;
  }

  /**
   * The loop succeeds exactly when every remaining chunk succeeds, and then
   * it holds one clip per chunk: clip `k` is the clip of chunk `start + k`.
   */
  lemma {:induction false} BuildClipsFromSuccess(dialogues: seq<string>, start: nat, step: ChunkStep)
    requires start <= |dialogues|
    ensures BuildClipsFrom(dialogues, start, step).Success? <==>
      forall k :: start <= k < |dialogues| ==> step(k, dialogues[k]).Success?
    ensures BuildClipsFrom(dialogues, start, step).Success? ==>
      var cs := BuildClipsFrom(dialogues, start, step).value;
      && |cs| == |dialogues| - start
      && forall k :: start <= k < |dialogues| ==> step(k, dialogues[k]) == Success(cs[k - start])
    decreases |dialogues| - start
  {
    if start < |dialogues| {
      BuildClipsFromSuccess(dialogues, start + 1, step);
    }
  }

  /**
   * When the loop fails, it fails with the error of the first failing chunk,
   * and every chunk before that one succeeded.
   */
  lemma {:induction false} BuildClipsFromFailure(dialogues: seq<string>, start: nat, step: ChunkStep)
    requires start <= |dialogues|
    requires BuildClipsFrom(dialogues, start, step).Failure?
    ensures exists k :: (
      && start <= k < |dialogues|
      && (forall j :: start <= j < k ==> step(j, dialogues[j]).Success?)
      && step(k, dialogues[k]) == Failure(BuildClipsFrom(dialogues, start, step).error))
    decreases |dialogues| - start
  {
    if step(start, dialogues[start]).Success? {
      BuildClipsFromFailure(dialogues, start + 1, step);
    } else {
      assert step(start, dialogues[start]) == Failure(BuildClipsFrom(dialogues, start, step).error);
    }
  }

  /**
   * The loop over all chunks succeeds exactly when every chunk does, and
   * otherwise reports the first failing chunk's error.
   */
  lemma BuildClipsOutcome(dialogues: seq<string>, voice: string, media: Media)
    ensures BuildClips(dialogues, voice, media).Success? <==>
      forall k :: 0 <= k < |dialogues| ==> ProcessChunk(k, dialogues[k], voice, media).Success?
    ensures BuildClips(dialogues, voice, media).Failure? ==>
      exists k :: (
        && 0 <= k < |dialogues|
        && (forall j :: 0 <= j < k ==> ProcessChunk(j, dialogues[j], voice, media).Success?)
        && ProcessChunk(k, dialogues[k], voice, media) == Failure(BuildClips(dialogues, voice, media).error))
  {
    var step := StepFor(voice, media);
    BuildClipsFromSuccess(dialogues, 0, step);
    forall k | 0 <= k < |dialogues| ensures step(k, dialogues[k]) == ProcessChunk(k, dialogues[k], voice, media) { }
    if BuildClips(dialogues, voice, media).Failure? {
      BuildClipsFromFailure(dialogues, 0, step);
    }
  }

  /** After the loop, `video_clips` holds exactly one clip per chunk, clip `k` from chunk `k`, each synchronised with its audio. */
  lemma OneClipPerChunk(dialogues: seq<string>, voice: string, media: Media)
    requires BuildClips(dialogues, voice, media).Success?
    ensures var cs := BuildClips(dialogues, voice, media).value;
      && |cs| == |dialogues|
      && forall k :: 0 <= k < |cs| ==>
           && ProcessChunk(k, dialogues[k], voice, media) == Success(cs[k])
           && cs[k].frame.text == dialogues[k]
           && Synchronized(cs[k])
  {
    var step := StepFor(voice, media);
    BuildClipsFromSuccess(dialogues, 0, step);
    var cs := BuildClips(dialogues, voice, media).value;
    forall k | 0 <= k < |cs|
      ensures ProcessChunk(k, dialogues[k], voice, media) == Success(cs[k])
      ensures cs[k].frame.text == dialogues[k] && Synchronized(cs[k])
    {
      assert step(k, dialogues[k]) == Success(cs[k]);
    }
  }
}
