/**
 * The frame drawn for one chunk by `create_image_with_text`: a white
 * 640x480 canvas with one coloured speech bubble and the chunk's text.
 * Font metrics come from the font renderer; only the text height is used.
 */
module Bubble {
  import opened Alternation

  const CanvasWidth: nat := 640
  const CanvasHeight: nat := 480
  /** A colour as the three bytes of one pixel. */
  datatype Rgb = Rgb(red: bv8, green: bv8, blue: bv8)

  /** The canvas colour, given as the tuple (255, 255, 255). */
  const White: Rgb := Rgb(255, 255, 255)
  const TextColor: string := "black"

  /** The bubble's top-left corner. */
  const BubbleLeft: int := 20
  const BubbleTop: int := 20
  const BubbleWidth: nat := 600
  const BubblePadding: nat := 10

  /** Where the text is drawn. */
  const TextLeft: int := 30
  const TextTop: int := 30

  /** An axis-aligned rectangle given by two opposite corners, inclusive. */
  datatype Rect = Rect(left: int, top: int, right: int, bottom: int)

  datatype Point = Point(x: int, y: int)

  /** What the drawing calls put on the canvas. */
  datatype Image = Image(
    width: nat, height: nat, background: Rgb,
    bubble: Rect, bubbleColor: string,
    text: string, textAt: Point, textColor: string)

  /** The bubble for a text of the given rendered height. */
  function BubbleRect(textHeight: nat): (r: Rect)
    ensures r.right - r.left == BubbleWidth
    ensures r.bottom - r.top == textHeight + 2 * BubblePadding
    // the text box sits inside the bubble, padded on the left, top and bottom
    ensures r.left + BubblePadding == TextLeft
    ensures r.top + BubblePadding == TextTop
    ensures TextTop + textHeight + BubblePadding == r.bottom
  {
    var bubbleHeight := textHeight + 2 * BubblePadding;
    Rect(BubbleLeft, BubbleTop, BubbleLeft + BubbleWidth, BubbleTop + bubbleHeight)
  }

  /**
   * Corners are inclusive, so the canvas has columns 0..639 and rows 0..479:
   * the bubble always lies inside it horizontally, and vertically exactly
   * when the text is at most 439 pixels high.
   */
  lemma BubbleFitsCanvas(textHeight: nat)
    ensures 0 <= BubbleRect(textHeight).left && BubbleRect(textHeight).right < CanvasWidth
    ensures 0 <= BubbleRect(textHeight).top
    ensures BubbleRect(textHeight).bottom < CanvasHeight <==> textHeight <= 439
  {
  }

  /** The frame for one chunk; `character` is accepted but never drawn. */
  function CreateImageWithText(text: string, character: string, isSent: bool, textHeight: nat): (img: Image)
    ensures img.width == CanvasWidth && img.height == CanvasHeight
    ensures img.background == White
    ensures img.bubble == BubbleRect(textHeight)
    ensures img.bubble.left == BubbleLeft && img.bubble.right == BubbleLeft + BubbleWidth && img.bubble.top == BubbleTop
    ensures img.bubble.bottom - img.bubble.top == textHeight + 2 * BubblePadding
    ensures img.bubbleColor == BubbleColor(isSent)
    ensures img.bubbleColor == SentColor <==> isSent
    ensures img.bubbleColor == ReceivedColor <==> !isSent
    ensures img.text == text && img.textAt == Point(TextLeft, TextTop) && img.textColor == TextColor
  {
    Image(CanvasWidth, CanvasHeight, White,
          BubbleRect(textHeight), BubbleColor(isSent),
          text, Point(TextLeft, TextTop), TextColor)
  }

  /** The speaker label has no effect on the frame. */
  lemma ImageIgnoresCharacter(text: string, c1: string, c2: string, isSent: bool, textHeight: nat)
    ensures CreateImageWithText(text, c1, isSent, textHeight) == CreateImageWithText(text, c2, isSent, textHeight)
  {
  }
}
