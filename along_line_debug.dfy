/**
 * The debugging aid of text/text_along_line_debug.go: around each placed
 * character, the box its glyph occupies (full width by full height, padded
 * by the stroke width), turned about the letter's anchor by the letter's
 * angle. The outlines are returned instead of being stroked onto an image.
 */
module AlongLineDebug {
  import opened Maths
  import opened Fonts
  import opened TextTypes
  import opened AlongLine

  /** `getFullWidth`: the advance of the glyph. */
  function FullWidth(gm: GlyphMetrics): (w: real) {
    gm.advance
  }

  /** `getFullHeight`: the ascent of the glyph. */
  function FullHeight(gm: GlyphMetrics): (h: real) {
    gm.ascent
  }

  /**
   * A glyph outline: the corners bottom-left, top-left, top-right and
   * bottom-right; the drawn line string closes back on `bl`.
   */
  datatype Quad = Quad(bl: Point, tl: Point, tr: Point, br: Point)

  /**
   * The unrotated box of a glyph anchored at (x, y): its bottom edge one
   * stroke width below the anchor, as wide as the advance plus one stroke
   * width and as tall as the ascent plus two. The sides are axis-parallel
   * and the bottom-right corner, although reached from the top by adding
   * the height back, lies level with the bottom-left one.
   */
  function GlyphBox(x: real, y: real, gm: GlyphMetrics, strokeWidth: real): (q: Quad)
    ensures q.bl == Point(x, y + strokeWidth)
    ensures q.tl.x == q.bl.x && q.br.x == q.tr.x
    ensures q.tl.y == q.tr.y && q.br.y == q.bl.y
    ensures q.tr.x - q.tl.x == FullWidth(gm) + strokeWidth
    ensures q.bl.y - q.tl.y == FullHeight(gm) + 2.0 * strokeWidth
  {
    var blx := x;
    var bly := y + strokeWidth;
    var tlx := blx;
    var tly := bly - FullHeight(gm) - strokeWidth * 2.0;
    var trx := tlx + FullWidth(gm) + strokeWidth;
    var try := tly;
    var brx := trx;
    var bry := try + FullHeight(gm) + strokeWidth * 2.0;
    Quad(Point(blx, bly), Point(tlx, tly), Point(trx, try), Point(brx, bry))
  }

  /** `rotateAroundPoint`: `p` turned about `origin` by `radians`. */
  function RotateAroundPoint(t: Trig, p: Point, origin: Point, radians: real): (r: Point)
    ensures p == origin ==> r == origin
  {
    var dx := p.x - origin.x;
    var dy := p.y - origin.y;
    Point(origin.x + dx * t.cos(radians) - dy * t.sin(radians),
          origin.y + dx * t.sin(radians) + dy * t.cos(radians))
  }

  /**
   * Away from 26.6 overflow, the full width of a glyph's box is its advance,
   * which spans the left bearing, the ink and the right bearing, and its full
   * height is the ascent, from the baseline to the top of the ink.
   */
  lemma {:induction false} FullSizeOfGlyph(face: Face, ch: char)
    requires var g := face.glyphBounds(ch);
      && g.bounds.minX != MinInt32 && g.bounds.minY != MinInt32
      && g.bounds.maxY != MinInt32 && g.advance != MinInt32
      && -0x8000_0000 < g.advance - g.bounds.maxX < 0x8000_0000
    ensures var g, gm := face.glyphBounds(ch), GlyphMetricsOf(face, ch);
      && FullWidth(gm) == gm.bearingLeft + (g.bounds.maxX - g.bounds.minX) as real / 64.0 + gm.bearingRight
      && FullHeight(gm) == -(g.bounds.minY as real) / 64.0
  {
    GlyphMetricsGeometry(face, ch);
  }

  /** The squared distance between two points. */
  function Dist2(p: Point, q: Point): (d: real) {
    (p.x - q.x) * (p.x - q.x) + (p.y - q.y) * (p.y - q.y)
  }

  /** (a·c − b·s)² + (a·s + b·c)² = (a² + b²)(c² + s²) */
  lemma {:induction false} RotatedNorm(a: real, b: real, c: real, s: real)
    ensures (a * c - b * s) * (a * c - b * s) + (a * s + b * c) * (a * s + b * c)
         == (a * a + b * b) * (c * c + s * s)
  {
    assert (a * c - b * s) * (a * c - b * s) == a * a * (c * c) - 2.0 * (a * c) * (b * s) + b * b * (s * s);
    assert (a * s + b * c) * (a * s + b * c) == a * a * (s * s) + 2.0 * (a * s) * (b * c) + b * b * (c * c);
    assert (a * c) * (b * s) == (a * s) * (b * c);
  }

  /** Turning two displacements by the same (c, s) keeps the distance between them when c² + s² = 1. */
  lemma {:induction false} TurnedDistance(a1: real, b1: real, a2: real, b2: real, c: real, s: real)
    requires c * c + s * s == 1.0
    ensures var dx, dy := (a1 * c - b1 * s) - (a2 * c - b2 * s), (a1 * s + b1 * c) - (a2 * s + b2 * c);
      dx * dx + dy * dy == (a1 - a2) * (a1 - a2) + (b1 - b2) * (b1 - b2)
  {
    var a, b := a1 - a2, b1 - b2;
    assert (a1 * c - b1 * s) - (a2 * c - b2 * s) == a * c - b * s;
    assert (a1 * s + b1 * c) - (a2 * s + b2 * c) == a * s + b * c;
    RotatedNorm(a, b, c, s);
  }

  /** Turning two points about the same origin keeps the distance between them. */
  lemma {:induction false} RotatePreservesDistance(t: Trig, p: Point, q: Point, origin: Point, radians: real)
    requires Pythagorean(t)
    ensures Dist2(RotateAroundPoint(t, p, origin, radians), RotateAroundPoint(t, q, origin, radians))
         == Dist2(p, q)
  {
    var c, s := t.cos(radians), t.sin(radians);
    assert c * c + s * s == 1.0;
    var a1, b1, a2, b2 := p.x - origin.x, p.y - origin.y, q.x - origin.x, q.y - origin.y;
    TurnedDistance(a1, b1, a2, b2, c, s);
    assert a1 - a2 == p.x - q.x && b1 - b2 == p.y - q.y;
  }

  /** Turning by an angle and then back by its opposite returns the point. */
  lemma {:induction false} RotateBack(t: Trig, p: Point, origin: Point, radians: real)
    requires Pythagorean(t) && Parity(t)
    ensures RotateAroundPoint(t, RotateAroundPoint(t, p, origin, radians), origin, -radians) == p
  {
    var c, s := t.cos(radians), t.sin(radians);
    assert t.cos(-radians) == c && t.sin(-radians) == -s;
    assert c * c + s * s == 1.0;
    var a, b := p.x - origin.x, p.y - origin.y;
    var u, v := a * c - b * s, a * s + b * c;
    var r := RotateAroundPoint(t, p, origin, radians);
    assert r.x - origin.x == u && r.y - origin.y == v;
    assert u * c + v * s == a * (c * c + s * s) by {
      assert u * c == a * c * c - b * s * c;
      assert v * s == a * s * s + b * c * s;
    }
    assert -(u * s) + v * c == b * (c * c + s * s) by {
      assert u * s == a * c * s - b * s * s;
      assert v * c == a * s * c + b * c * c;
    }
    var back := RotateAroundPoint(t, r, origin, -radians);
    assert back.x == origin.x + u * c - v * -s;
    assert back.y == origin.y + u * -s + v * c;
  }

  /**
   * The outline drawn for a letter: its glyph box turned about the anchor by
   * the letter's angle. With no stroke the box starts at the anchor, which
   * the rotation leaves in place.
   */
  function Outline(t: Trig, lp: LetterPosition, gm: GlyphMetrics, strokeWidth: real): (o: Quad)
    ensures strokeWidth == 0.0 ==> o.bl == Point(lp.x, lp.y)
  {
    var box := GlyphBox(lp.x, lp.y, gm, strokeWidth);
    var anchor := Point(lp.x, lp.y);
    var radians := Radians(t, lp.angle);
    Quad(RotateAroundPoint(t, box.bl, anchor, radians), RotateAroundPoint(t, box.tl, anchor, radians),
         RotateAroundPoint(t, box.tr, anchor, radians), RotateAroundPoint(t, box.br, anchor, radians))
  }

  /** Two points level with each other, or one above the other, are as far apart as their offset. */
  lemma {:induction false} AxisDistance(p: Point, q: Point, d: real)
    requires (p.y == q.y && p.x - q.x == d) || (p.x == q.x && p.y - q.y == d)
    ensures Dist2(p, q) == d * d && Dist2(q, p) == d * d
  {
  }

  /** A glyph box has sides of its width and height, and equal diagonals. */
  lemma {:induction false} GlyphBoxSides(x: real, y: real, gm: GlyphMetrics, strokeWidth: real)
    ensures var q := GlyphBox(x, y, gm, strokeWidth);
      var w, h := FullWidth(gm) + strokeWidth, FullHeight(gm) + 2.0 * strokeWidth;
      && Dist2(q.bl, q.tl) == h * h && Dist2(q.tr, q.br) == h * h
      && Dist2(q.tl, q.tr) == w * w && Dist2(q.br, q.bl) == w * w
      && Dist2(q.bl, q.tr) == Dist2(q.tl, q.br)
  {
    var q := GlyphBox(x, y, gm, strokeWidth);
    var w, h := FullWidth(gm) + strokeWidth, FullHeight(gm) + 2.0 * strokeWidth;
    AxisDistance(q.bl, q.tl, h);
    AxisDistance(q.br, q.tr, h);
    AxisDistance(q.tr, q.tl, w);
    AxisDistance(q.br, q.bl, w);
    assert Dist2(q.bl, q.tr) == w * w + h * h;
    assert Dist2(q.tl, q.br) == w * w + h * h;
  }

  /**
   * Whatever the angle, an outline is a rectangle of the glyph box's size:
   * its sides are as long as the box is wide and tall, opposite sides are
   * equal, and its diagonals are equal.
   */
  lemma {:induction false} OutlineIsBoxSized(t: Trig, lp: LetterPosition, gm: GlyphMetrics, strokeWidth: real)
    requires Pythagorean(t)
    ensures var q := Outline(t, lp, gm, strokeWidth);
      var w, h := FullWidth(gm) + strokeWidth, FullHeight(gm) + 2.0 * strokeWidth;
      && Dist2(q.bl, q.tl) == h * h && Dist2(q.tr, q.br) == h * h
      && Dist2(q.tl, q.tr) == w * w && Dist2(q.br, q.bl) == w * w
      && Dist2(q.bl, q.tr) == Dist2(q.tl, q.br)
  {
    var box := GlyphBox(lp.x, lp.y, gm, strokeWidth);
    var anchor := Point(lp.x, lp.y);
    var radians := Radians(t, lp.angle);
    GlyphBoxSides(lp.x, lp.y, gm, strokeWidth);
    RotatePreservesDistance(t, box.bl, box.tl, anchor, radians);
    RotatePreservesDistance(t, box.tr, box.br, anchor, radians);
    RotatePreservesDistance(t, box.tl, box.tr, anchor, radians);
    RotatePreservesDistance(t, box.br, box.bl, anchor, radians);
    RotatePreservesDistance(t, box.bl, box.tr, anchor, radians);
    RotatePreservesDistance(t, box.tl, box.br, anchor, radians);
  }

  /** A letter at angle 0 (cos 0 = 1, sin 0 = 0) is outlined by its unrotated glyph box. */
  lemma {:induction false} LevelOutlineIsBox(t: Trig, lp: LetterPosition, gm: GlyphMetrics, strokeWidth: real)
    requires t.cos(0.0) == 1.0 && t.sin(0.0) == 0.0
    requires lp.angle == 0.0
    ensures Outline(t, lp, gm, strokeWidth) == GlyphBox(lp.x, lp.y, gm, strokeWidth)
  {
    assert Radians(t, lp.angle) == 0.0;
  }

  /**
   * `DrawGlyphOutlines`: the outline of every character of the label at its
   * letter position, when every character was placed; nothing otherwise.
   * The "does not fit" error of `GetLetterPositions` is not looked at.
   */
  method DrawGlyphOutlines(cache: MetricsCache, text: string, lineCoords: seq<Point>, tf: TypeFace, t: Trig,
                           ghost faces: (string, real) -> Face)
    returns (outlines: seq<Quad>)
    requires cache.Coherent(faces) && Resolved(tf, faces)
    modifies cache`glyphMetrics, cache`faceMetrics
    ensures cache.Coherent(faces)
    ensures old(cache.glyphMetrics).Keys <= cache.glyphMetrics.Keys && cache.HoldsGlyphs(tf, text)
    ensures old(cache.faceMetrics).Keys <= cache.faceMetrics.Keys && FaceKey(tf.name, tf.size) in cache.faceMetrics
    ensures var positions := LetterPositionsOf(tf.face, tf.spacing, text, lineCoords, t);
      && (|positions| < |text| ==> outlines == [])
      && (|positions| >= |text| ==> |outlines| == |text| && forall i :: 0 <= i < |text| ==>
            outlines[i] == Outline(t, positions[i], GlyphMetricsOf(tf.face, text[i]), tf.strokeWidth))
  {
    var letterPositions, _ := GetLetterPositions(cache, text, lineCoords, tf, t, faces);
    outlines := [];
    if |letterPositions| >= |text| {
      outlines := OutlineLetters(cache, text, letterPositions, tf, t, faces);
    }
  }

  /** The loop of `DrawGlyphOutlines` over the label's characters. */
  method OutlineLetters(cache: MetricsCache, text: string, letterPositions: seq<LetterPosition>, tf: TypeFace,
                        t: Trig, ghost faces: (string, real) -> Face)
    returns (outlines: seq<Quad>)
    requires cache.Coherent(faces) && Resolved(tf, faces)
    requires |letterPositions| >= |text|
    modifies cache`glyphMetrics
    ensures cache.Coherent(faces)
    ensures old(cache.glyphMetrics).Keys <= cache.glyphMetrics.Keys && cache.HoldsGlyphs(tf, text)
    ensures |outlines| == |text|
    ensures forall i :: 0 <= i < |text| ==>
      outlines[i] == Outline(t, letterPositions[i], GlyphMetricsOf(tf.face, text[i]), tf.strokeWidth)
  {
    outlines := [];
    for i := 0 to |text|
      invariant cache.Coherent(faces)
      invariant old(cache.glyphMetrics).Keys <= cache.glyphMetrics.Keys
      invariant forall j :: 0 <= j < i ==> GlyphCacheKey(tf, text[j]).0 in cache.glyphMetrics
      invariant |outlines| == i
      invariant forall j :: 0 <= j < i ==>
        outlines[j] == Outline(t, letterPositions[j], GlyphMetricsOf(tf.face, text[j]), tf.strokeWidth)
    {
      ghost var before := cache.glyphMetrics;
      var gm := cache.GetGlyphMetrics(tf, text[i]);
      MetricsLookup(before, cache.glyphMetrics, faces, tf, text[i], gm);
      HeldStep(before, cache.glyphMetrics, tf, text, i);
      var quad := TurnBox(t, letterPositions[i], gm, tf.strokeWidth);
      outlines := outlines + [quad];
    }
  }

  /** One letter's step of the loop: the box corners, each turned about the anchor. */
  method TurnBox(t: Trig, lp: LetterPosition, gm: GlyphMetrics, strokeWidth: real) returns (quad: Quad)
    ensures quad == Outline(t, lp, gm, strokeWidth)
  {
    var x := lp.x;
    var y := lp.y;
    var radians := Radians(t, lp.angle);
    var box := GlyphBox(x, y, gm, strokeWidth);
    var anchor := Point(x, y);
    quad := Quad(RotateAroundPoint(t, box.bl, anchor, radians), RotateAroundPoint(t, box.tl, anchor, radians),
                 RotateAroundPoint(t, box.tr, anchor, radians), RotateAroundPoint(t, box.br, anchor, radians));
  }
}
