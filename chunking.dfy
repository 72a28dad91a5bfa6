/**
 * The fixed-window splitter that turns the generated story into dialogue
 * chunks: `story[i:i + 300] for i in range(0, len(story), 300)`.
 */
module Chunking {

  /** Width, in characters, of one dialogue chunk. */
  const ChunkSize: nat := 300

  function Min(a: int, b: int): int { if a <= b then a else b }

  /** Python's `s[lo:hi]` for non-negative bounds: both ends are clamped to the length. */
  function Slice(s: string, lo: nat, hi: nat): (r: string)
    ensures |r| == if lo < hi && lo < |s| then Min(hi, |s|) - lo else 0
    ensures forall j :: 0 <= j < |r| ==> r[j] == s[lo + j]
  {
    if lo < hi && lo < |s| then s[lo..Min(hi, |s|)] else []
  }

  /** Number of elements of `range(0, n, ChunkSize)`. */
  function NumChunks(n: nat): nat
  {
    (n + ChunkSize - 1) / ChunkSize
  }

  /** The dialogue chunks of a story, one per start offset `ChunkSize * k`. */
  function Chunks(story: string): (r: seq<string>)
    ensures |r| == 0 <==> |story| == 0
    ensures |r| > 0 ==> (|r| - 1) * ChunkSize < |story| <= |r| * ChunkSize
    ensures forall k :: 0 <= k < |r| ==> 0 < |r[k]| <= ChunkSize
    ensures forall k :: 0 <= k < |r| - 1 ==> |r[k]| == ChunkSize
  {
    seq(NumChunks(|story|), k requires 0 <= k < NumChunks(|story|) =>
      Slice(story, ChunkSize * k, ChunkSize * k + ChunkSize))
  }

  /** Joins chunks back together in order (Python's `"".join(chunks)`). */
  function Concat(chunks: seq<string>): (s: string)
  {
    if chunks == [] then [] else chunks[0] + Concat(chunks[1..])
  }

  /** The shape every output of `Chunks` has: full windows, then one non-empty tail. */
  ghost predicate WellChunked(chunks: seq<string>)
  {
    forall k :: 0 <= k < |chunks| ==>
      0 < |chunks[k]| <= ChunkSize && (k < |chunks| - 1 ==> |chunks[k]| == ChunkSize)
  }

  /** Chunking peels off one window at a time. */
  lemma ChunksStep(story: string)
    requires |story| > 0
    ensures |story| <= ChunkSize ==> Chunks(story) == [story]
    ensures |story| > ChunkSize ==>
      Chunks(story) == [story[..ChunkSize]] + Chunks(story[ChunkSize..])
  {
    var r := Chunks(story);
    if |story| <= ChunkSize {
      assert |r| == 1;
      assert r[0] == story;
    } else {
      var rest := story[ChunkSize..];
      var t := Chunks(rest);
      assert NumChunks(|story|) == NumChunks(|rest|) + 1;
      assert r[0] == story[..ChunkSize];
      forall k | 1 <= k < |r|
        ensures r[k] == t[k - 1]
      {
        var a, b := r[k], t[k - 1];
        assert |a| == |b|;
        forall j | 0 <= j < |a| ensures a[j] == b[j] {
          assert a[j] == story[ChunkSize * k + j];
          assert b[j] == rest[ChunkSize * (k - 1) + j];
        }
      }
      assert r == [story[..ChunkSize]] + t;
    }
  }

  /** Joining the chunks in order gives back the story, character for character. */
  lemma {:induction false} ConcatChunks(story: string)
    ensures Concat(Chunks(story)) == story
    decreases |story|
  {
    if |story| == 0 {
    } else if |story| <= ChunkSize {
      ChunksStep(story);
      assert Concat([story]) == story + Concat([]);
    } else {
      ChunksStep(story);
      var rest := story[ChunkSize..];
      ConcatChunks(rest);
      var r := [story[..ChunkSize]] + Chunks(rest);
      assert r[1..] == Chunks(rest);
      assert story == story[..ChunkSize] + rest;
    }
  }

  /** Chunking is the only well-chunked split: chunking the join gives the same chunks back. */
  lemma {:induction false} ChunksOfConcat(chunks: seq<string>)
    requires WellChunked(chunks)
    ensures Chunks(Concat(chunks)) == chunks
    decreases |chunks|
  {
    if chunks == [] {
    } else {
      var tail := chunks[1..];
      assert WellChunked(tail) by {
        forall k | 0 <= k < |tail|
          ensures 0 < |tail[k]| <= ChunkSize && (k < |tail| - 1 ==> |tail[k]| == ChunkSize)
        {
          assert tail[k] == chunks[k + 1];
        }
      }
      var s := Concat(chunks);
      assert s == chunks[0] + Concat(tail);
      if tail == [] {
        assert s == chunks[0];
        ChunksStep(s);
      } else {
        ChunksOfConcat(tail);
        assert |chunks[0]| == ChunkSize;
        assert |Concat(tail)| > 0 by {
          assert Concat(tail) == tail[0] + Concat(tail[1..]);
        }
        ChunksStep(s);
        assert s[..ChunkSize] == chunks[0];
        assert s[ChunkSize..] == Concat(tail);
        assert chunks == [chunks[0]] + tail;
      }
    }
  }

  /** The chunks before chunk `k` cover exactly the first `ChunkSize * k` characters. */
  lemma {:induction false} ChunkStart(story: string, k: nat)
    requires k < |Chunks(story)|
    ensures Concat(Chunks(story)[..k]) == story[..ChunkSize * k]
    ensures story[ChunkSize * k..][..|Chunks(story)[k]|] == Chunks(story)[k]
    decreases k
  {
    var r := Chunks(story);
    if k == 0 {
      assert r[..0] == [];
      ChunksStep(story);
    } else {
      ChunksStep(story);
      var rest := story[ChunkSize..];
      var t := Chunks(rest);
      assert r == [story[..ChunkSize]] + t;
      ChunkStart(rest, k - 1);
      assert r[..k] == [story[..ChunkSize]] + t[..k - 1];
      assert r[..k][1..] == t[..k - 1];
      assert Concat(r[..k]) == story[..ChunkSize] + rest[..ChunkSize * (k - 1)];
      assert story[..ChunkSize * k] == story[..ChunkSize] + rest[..ChunkSize * (k - 1)];
      assert story[ChunkSize * k..] == rest[ChunkSize * (k - 1)..];
      assert r[k] == t[k - 1];
    }
  }
}
