/**
 * The temporary image file through which a frame reaches the video clip.
 * A PNG reader recognises its input by the 8-byte PNG signature (section 5.2
 * of the PNG specification) before decoding the rest; what it does with the
 * rest is the image library's business and stays a parameter.
 */
module ImageFile {
  import opened Bubble

  /** The first eight bytes of every PNG stream. */
  const PngSignature: seq<bv8> := [0x89, 0x50, 0x4E, 0x47, 0x0D, 0x0A, 0x1A, 0x0A]

  predicate IsPng(bytes: seq<bv8>)
  {
    |bytes| >= |PngSignature| && bytes[..|PngSignature|] == PngSignature
  }

  /**
   * Opening an image file as a PNG: the signature must be there, and the
   * library's decoder (`readable`) must accept what follows it.
   */
  predicate OpensAsPng(bytes: seq<bv8>, readable: seq<bv8> -> bool)
  {
    IsPng(bytes) && readable(bytes[|PngSignature|..])
  }

  /** What the PNG writer produces: the signature, then the encoded image. */
  function PngStream(body: seq<bv8>): (bytes: seq<bv8>)
    ensures IsPng(bytes)
  {
    PngSignature + body
  }

  /**
   * A file holding a PNG stream always passes the signature check: whether
   * it opens is decided by the decoder alone.
   */
  lemma PngStreamOpens(body: seq<bv8>, readable: seq<bv8> -> bool)
    ensures OpensAsPng(PngStream(body), readable) == readable(body)
  {
    assert PngStream(body)[|PngSignature|..] == body;
  }

  function HexValue(c: char): bv8
  {
    if '0' <= c <= '9' then (c as int - '0' as int) as bv8
    else if 'a' <= c <= 'f' then (c as int - 'a' as int + 10) as bv8
    else if 'A' <= c <= 'F' then (c as int - 'A' as int + 10) as bv8
    else 0
  }

  /** The pixel value of a colour name the drawing calls use: "black" or "#rrggbb". */
  function ParseColor(name: string): Rgb
  {
    if |name| == 7 && name[0] == '#' then
      Rgb(HexValue(name[1]) * 16 + HexValue(name[2]),
          HexValue(name[3]) * 16 + HexValue(name[4]),
          HexValue(name[5]) * 16 + HexValue(name[6]))
    else Rgb(0, 0, 0)
  }

  /**
   * The colour of pixel (x, y) of a drawn frame. `ink` is the font's glyph
   * mask, relative to the point where the text is drawn; text is drawn over
   * the bubble, and the bubble over the background.
   */
  function PixelAt(img: Image, ink: (int, int) -> bool, x: int, y: int): Rgb
  {
    if img.textAt.x <= x && img.textAt.y <= y && ink(x - img.textAt.x, y - img.textAt.y) then
      ParseColor(img.textColor)
    else if img.bubble.left <= x <= img.bubble.right && img.bubble.top <= y <= img.bubble.bottom then
      ParseColor(img.bubbleColor)
    else
      img.background
  }

  function Channel(p: Rgb, c: nat): bv8
  {
    if c == 0 then p.red else if c == 1 then p.green else p.blue
  }

  /**
   * The bytes of the frame's pixel array (height x width x 3, row by row):
   * byte `3 * (y * width + x) + c` is channel `c` of pixel (x, y).
   */
  function RawPixels(img: Image, ink: (int, int) -> bool): (bytes: seq<bv8>)
    ensures |bytes| == img.width * img.height * 3
  {
    if img.width == 0 then []
    else
      seq(img.width * img.height * 3, j requires 0 <= j < img.width * img.height * 3 =>
        Channel(PixelAt(img, ink, (j / 3) % img.width, (j / 3) / img.width), j % 3))
  }

  /**
   * The pixel array of any frame the application draws starts with the
   * white top-left pixel (0xFF), never with the PNG signature (0x89), so a
   * PNG reader refuses it whatever its decoder would accept.
   */
  lemma RawPixelsAreNotPng(text: string, character: string, isSent: bool, textHeight: nat, ink: (int, int) -> bool)
    ensures var bytes := RawPixels(CreateImageWithText(text, character, isSent, textHeight), ink);
      && |bytes| > 0 && bytes[0] == 0xFF
      && !IsPng(bytes)
      && forall readable: seq<bv8> -> bool :: !OpensAsPng(bytes, readable)
  {
    var img := CreateImageWithText(text, character, isSent, textHeight);
    var bytes := RawPixels(img, ink);
    assert img.width == 640 && img.height == 480;
    assert bytes[0] == Channel(PixelAt(img, ink, 0, 0), 0);
    assert PixelAt(img, ink, 0, 0) == White;
    assert bytes[..|PngSignature|][0] == bytes[0];
  }
}
