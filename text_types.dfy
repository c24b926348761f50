/**
 * The record types of text/types.go that the placement walk produces and
 * consumes.
 */
module TextTypes {
  import opened Maths
  import Fonts

  /** `CharMetric`: one label character with its advance-plus-spacing width and its glyph metrics. */
  datatype CharMetric = CharMetric(ch: char, width: real, metrics: Fonts.GlyphMetrics)

  /** `LetterPosition`: where one character is drawn, and at what angle (degrees). */
  datatype LetterPosition = LetterPosition(ch: char, x: real, y: real, angle: real)

  /** `LineData`: one path segment as its displacement, direction (degrees) and length. */
  datatype LineData = LineData(pos: Point, angle: real, length: real)
}
