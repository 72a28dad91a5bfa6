# streamlitvideo — the dialogue-to-clip assembly, modelled in Dafny

The application asks a language model for a short story, cuts the story
into 300-character dialogue chunks, has each chunk spoken by a speech
service, draws each chunk on a 640x480 frame as a speech bubble, shows that
frame for exactly as long as its audio lasts, concatenates the clips in
chunk order and writes the result as a 24 fps video. This project models
that assembly in `app.py` and proves what it guarantees.

Modules, in dependency order:

- `Wrappers` (`wrappers.dfy`): `Option` and `Result`.
- `Chunking` (`chunking.dfy`): the fixed-window splitter of line 137. It follows
  Python's slice semantics, with the end clamped to the length.
- `Alternation` (`alternation.dfy`): the speaker label, `is_sent` and the bubble
  colour, all chosen by the chunk index.
- `Bubble` (`bubble.dfy`): the frame drawn by `create_image_with_text`, with its
  bubble geometry.
- `ImageFile` (`imagefile.dfy`): the temporary image file between the drawn
  frame and the clip. It holds a frame's raw pixel bytes and the PNG
  signature check a PNG reader applies.
- `Clips` (`clips.dfy`): `create_video_clip` and one pass of the loop body.
  These foreign calls are function-valued fields of `Media`:
  - the speech service;
  - the audio decoder;
  - the font's text height and glyph mask;
  - the PNG writer and the image decoder.
- `Assembly` (`assembly.dfy`): the `for i, dialogue in enumerate(dialogues)` loop.
  It is an imperative method, proved equal to the specification function
  `BuildClips`.
- `Timeline` (`timeline.dfy`): `concatenate_videoclips`. Each clip starts at the
  summed length of the clips before it.
- `Pipeline` (`pipeline.dfy`): the "Generate Video" handler and the five outcomes
  the page can show.

The model follows the code. The turns are fixed 300-character windows, not
`Speaker: text` lines. All chunks are spoken with the one voice picked in the
select box. Only the label, `is_sent` and the colour alternate. Any failing
call inside the loop aborts the whole run, through the outer `except`. No
chunk is skipped and no partial video is produced. The one departure is the temporary
image file. As written, it cannot hold a loadable frame (see "## Findings").
The clips of the model are built from the file that holds the frame's PNG
stream.

## Model

| member | source | states |
|---|---|---|
| `Chunking.Slice` | app.py:137 | `story[i:i + 300]` keeps characters `i` onwards and at most up to the end of the story |
| `Chunking.Chunks` | app.py:137 | no chunks exactly for the empty story; the count is ⌈len/300⌉; every chunk is non-empty and at most 300 long; every chunk but the last is exactly 300 long |
| `Chunking.ChunksStep` | app.py:137 | a story of at most 300 characters is one chunk; a longer one is its first 300 characters followed by the chunks of the rest |
| `Chunking.ConcatChunks` | app.py:137 | joining the chunks in order reproduces the story exactly |
| `Chunking.ChunksOfConcat` | app.py:137 | conversely, chunking the join of any well-chunked list gives that list back, so the split is the unique one of that shape |
| `Chunking.ChunkStart` | app.py:137 | the chunks before chunk `k` cover exactly the first `300*k` characters, and chunk `k` is the text at offset `300*k`; chunks are disjoint and in increasing order |
| `Alternation.Character` | app.py:138-142 | the label is "Alice" iff the index is even and "Bob" iff it is odd |
| `Alternation.IsSent` | app.py:144 | `is_sent` holds exactly for the chunks labelled with the first name |
| `Alternation.BubbleColor` | app.py:59 | "#d4f1f4" iff sent, "#f1f1f1" iff not |
| `Alternation.Alternates` | app.py:142-144 | neighbouring chunks differ in label, `is_sent` and colour; chunks two apart agree |
| `Bubble.BubbleRect` | app.py:57-69 | the bubble is 600 wide and text height + 2·10 high. The text origin (30, 30) is 10 inside its left and top edges, and its bottom edge is 10 below the origin plus the text height |
| `Bubble.BubbleFitsCanvas` | app.py:49-69 | with inclusive corners, the bubble's columns 20..620 lie inside the canvas's columns 0..639. Its rows lie inside rows 0..479 iff the text is at most 439 pixels high |
| `Bubble.CreateImageWithText` | app.py:48-77 | a 640x480 white frame. Its bubble is exactly `BubbleRect` of the text height: x 20..620, top 20. The bubble is "#d4f1f4" iff sent and "#f1f1f1" iff not. The text is drawn in black at (30, 30) |
| `ImageFile.PngStream` | app.py:74-75 | what the PNG writer produces always carries the PNG signature |
| `ImageFile.PngStreamOpens` | app.py:74-75 | a file holding a PNG stream passes the signature check; whether it opens is up to the decoder alone |
| `ImageFile.RawPixels` | app.py:89-93 | the pixel array of a frame has width × height × 3 bytes |
| `ImageFile.RawPixelsAreNotPng` | app.py:49-93 | the pixel array of every frame the application draws starts with the white top-left pixel (0xFF), not the PNG signature, so no PNG reader opens it |
| `Bubble.ImageIgnoresCharacter` | app.py:48-72 | the speaker label passed in has no effect on the frame |
| `Clips.CreateVideoClip` | app.py:80-102 | with the PNG stream in the image file, it succeeds iff the audio decodes and the frame file opens. On failure the error names the first step that failed. On success the clip lasts exactly the decoded audio duration, carries that audio, runs at 24 fps and shows the drawn frame |
| `Clips.CreateVideoClipAsWritten` | app.py:80-102 | the same step with the raw pixel array in the image file. A failure is `AudioUnreadable` when the audio does not decode, and `FrameUnreadable` otherwise |
| `Clips.AsWrittenClipNeverBuilt` | app.py:88-96 | as written, no clip is ever built: whenever the audio decodes, the image file fails to open |
| `Clips.ProcessChunk` | app.py:142-145 | a chunk succeeds iff speech, audio decoding and the frame file all succeed, and the error names the first step that failed. The clip shows the frame drawn for the chunk: bubble `BubbleRect` of the text height, in the colour of its parity, at 24 fps. It carries the audio spoken in the selected voice and lasts as long as the decoder says |
| `Clips.SameVoiceAtEveryIndex` | app.py:126-145 | every chunk is spoken by the same request whatever its index, so speech and audio decoding fail alike at every index. Two successful clips of one chunk carry the same audio, and the index reaches the clip only through its parity |
| `Assembly.ProcessDialogues` | app.py:140-146 | the loop's result equals the specification `BuildClips`: the clips of all chunks appended in order, or the first failure |
| `Assembly.BuildClipsFromSuccess` | app.py:140-146 | for any per-chunk step, the loop from chunk `start` on succeeds iff every remaining chunk's step succeeds. Clip `k` is then exactly the step's clip of chunk `start + k` |
| `Assembly.BuildClipsFromFailure` | app.py:140-146 | for any per-chunk step, a failed loop reports the error of the first failing chunk, and all chunks before that one succeeded |
| `Assembly.BuildClipsOutcome` | app.py:140-146 | with the loop body of app.py as the step, the loop succeeds iff every chunk's `ProcessChunk` succeeds. Otherwise it reports the error of the first failing chunk |
| `Assembly.OneClipPerChunk` | app.py:140-146 | after the loop `video_clips` has one clip per chunk; clip `k` shows chunk `k` and lasts as long as its audio |
| `Timeline.TotalDuration` | app.py:152 | the summed length is never negative, and it is positive for a non-empty clip list |
| `Timeline.Concatenate` | app.py:152 | one segment per clip, in clip order; the first starts at 0 and a non-empty video has positive length |
| `Timeline.SegmentsBackToBack` | app.py:152 | each segment starts where the previous one ends, and the last one ends where the video ends |
| `Timeline.SegmentsInOrder` | app.py:152 | a later clip starts strictly later |
| `Timeline.VideoLengthIsAudioLength` | app.py:86-97 | when every clip is synchronised, the video lasts exactly as long as all the audio together |
| `Pipeline.GenerateVideo` | app.py:128-162 | the handler's outcome equals the specification `RunOutcome` |
| `Pipeline.NoValidClipsIffEmptyStory` | app.py:137-160 | "No valid video clips" is shown iff the prompt is non-empty and the story comes back empty |
| `Pipeline.RunAbortsIffSomeStepFails` | app.py:130-162 | "Error generating video" is shown iff the story request fails or some chunk fails. The error shown is then the story request's or the first failing chunk's |
| `Pipeline.EncodeReachedIff` | app.py:149-158 | the video writer is reached iff the story is non-empty and every chunk produced its clip. The video is then played iff the writer succeeds, and "Error creating final video" is shown otherwise |
| `Pipeline.PlayedVideoTellsTheStory` | app.py:132-154 | a played video has one segment per chunk, in order. Segment `k` shows the frame drawn for chunk `k`, with the bubble `BubbleRect` of its text height in the colour of its parity, at 24 fps. It carries chunk `k`'s audio in the selected voice and the decoded duration. The captions join back into the story, and the video lasts exactly as long as its audio |

## Findings

| source | as written | input that shows it | evidently intended | confidence | as-written member | corrected member |
|---|---|---|---|---|---|---|
| app.py:88-96 | the frame is encoded as PNG (line 75) and decoded into a pixel array (line 89). Then `img_array.tobytes()`, the raw RGB pixels, is written into the temporary `.png` file that `ImageSequenceClip` opens | any story with at least one chunk whose speech and audio decoding succeed: the file starts with the white pixel 0xFF FF FF instead of the PNG signature, so the clip cannot be built and the run ends in "Error generating video" | the file holds the PNG stream of the frame, which passes the signature check and opens whenever the decoder accepts it | medium; not executed | `Clips.CreateVideoClipAsWritten`, `Clips.AsWrittenClipNeverBuilt` | `Clips.CreateVideoClip`, `ImageFile.PngStreamOpens` |

The rest of the model builds clips with `Clips.CreateVideoClip`.

## Left out

- The services answer the same request the same way: `Media.speak`, `Media.decode` and the other collaborators are functions. A real HTTP call can fail on one chunk and succeed on the next with the same text, or return different audio. `Clips.SameVoiceAtEveryIndex` speaks of the request only, which is (chunk text, selected voice) whatever the index.
- The HTTP calls to the story and speech services (app.py:11-45) are parameters of type `string -> Option<string>` and `(string, string) -> Option<seq<bv8>>`. `None` stands for any raised exception: a non-2xx status or a network error.
- Font loading and `textbbox` (app.py:52-64) are left out. The text height is an opaque natural number given by `Media.textHeight`. `text_width` is computed by the source but never used, and text wider than the bubble is not modelled.
- PIL's rasteriser (app.py:69-72) is modelled only by `ImageFile.PixelAt`: the font's glyph mask over the bubble fill over the white background. It is used only for the as-written pixel array. PNG encoding (app.py:74-77) is the signature followed by the opaque `Media.pngBody`.
- Audio decoding by `AudioFileClip` (app.py:85-86) is a parameter returning an abstract positive duration (`Seconds`). Floating-point durations are modelled as exact reals.
- The temporary audio and video files are left out (app.py:81-83, 153-156), and so is the removal of the image file (app.py:100). The image file itself is modelled by its contents only.
- `Bubble.BubbleRect`: the 10-pixel padding around the text assumes the text's bounding box starts at its drawing origin. The box offset (bbox[0], bbox[1]) returned by `textbbox` (app.py:62) is not modelled. With an offset, the text occupies rows 30+bbox[1]..30+bbox[3], and the top and bottom padding shift by bbox[1].
- `Clips.CreateVideoClip`: the image decoder's verdict on a PNG stream is the parameter `Media.pngReadable`. A clip built from a file that opens shows the drawn frame, and lossy decoding is not modelled.
- `ImageFile.RawPixels`: glyph shapes are the font's mask `Media.glyphs`. Anti-aliased glyph edges are drawn as solid black.
- `write_videofile` (app.py:154) is the parameter `Services.encode`. Its failure, and a failure inside `concatenate_videoclips`, both become `ErrorCreatingFinalVideo`.
- The Streamlit UI is left out: the sidebar, the API-key handling in `st.session_state`, the progress messages and `st.video` (app.py:107-127, 133-134, 147, 155). The selected voice is any string. The select box limits it to the six names of line 105, and the model does not enforce that.
- A decoded duration of zero is not modelled. `Seconds` is strictly positive, whereas the source never checks the duration.
