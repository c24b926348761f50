/**
 * Placement of a label's characters along a polyline (text/text_along_line.go).
 *
 * The path is cut into segments (`GetLineData`). The walk then goes through
 * the segments in order and places characters on each while the length left
 * on the segment exceeds half the next character's width. It carries a
 * "nudge" across a vertex, so that a character that did not fit at the end
 * of one segment starts the next one where the previous character ended.
 *
 * The specification is functional: `Greedy` fills one segment from a
 * starting remainder and pen, `PlaceOnSegment` adds the segment's start-up
 * (pen reset, nudge) and the nudge it leaves behind, and `WalkFrom` folds
 * over the segments. The methods follow the Go loops statement by statement
 * and are proved equal to these functions.
 */
module AlongLine {
  import opened Maths
  import opened Fonts
  import opened TextTypes

  datatype Option<T> = None | Some(value: T)

  /** The error `GetLetterPositions` reports when the label does not fit. */
  datatype DoesNotFit = DoesNotFit(text: string, placed: nat, length: nat, height: real, spacing: real)

  /** `TextGlyph`: a character, its anchor, and its rotation in degrees. */
  datatype TextGlyph = TextGlyph(ch: char, pos: Point, rotation: real)

  /* ---------------------------------------------------------------- segments */

  /** The segment from `p` to `q`: displacement, `Atan2` angle in degrees, and `Sqrt(dx² + dy²)`. */
  function Segment(t: Trig, p: Point, q: Point): (line: LineData)
    ensures Point(p.x + line.pos.x, p.y + line.pos.y) == q
    ensures line.angle == Atan2Deg(t, line.pos.y, line.pos.x)
    ensures line.length == Hypot(t, line.pos.x, line.pos.y)
  {
    var x, y := q.x - p.x, q.y - p.y;
    LineData(Point(x, y), Atan2Deg(t, y, x), Hypot(t, x, y))
  }

  /**
   * `GetLineData`: one segment per pair of consecutive vertices, zero-length
   * segments included.
   */
  function GetLineData(t: Trig, lineCoords: seq<Point>): (lineData: seq<LineData>)
    ensures |lineData| == if |lineCoords| == 0 then 0 else |lineCoords| - 1
    ensures forall i :: 0 <= i < |lineData| ==>
      lineData[i].pos == Point(lineCoords[i + 1].x - lineCoords[i].x, lineCoords[i + 1].y - lineCoords[i].y)
  {
    if |lineCoords| <= 1 then []
    else seq(|lineCoords| - 1, i requires 0 <= i < |lineCoords| - 1 => Segment(t, lineCoords[i], lineCoords[i + 1]))
  }

  /* ------------------------------------------------------------ char metrics */

  /** `getCharMetrics` on an ASCII label: one entry per character, width = rounded advance + spacing. */
  function CharMetricsOf(face: Face, spacing: real, text: string): (cm: seq<CharMetric>)
    ensures |cm| == |text|
    ensures forall i :: 0 <= i < |text| ==>
      cm[i].ch == text[i] && cm[i].width == GlyphWidth(face, text[i]) + spacing
  {
    seq(|text|, i requires 0 <= i < |text| =>
      CharMetric(text[i], GlyphWidth(face, text[i]) + spacing, GlyphMetricsOf(face, text[i])))
  }

  /** The metrics of a longer prefix extend those of the shorter one by the next character's. */
  lemma CharMetricsOfStep(face: Face, spacing: real, text: string, i: nat)
    requires i < |text|
    ensures CharMetricsOf(face, spacing, text[..i + 1]) == CharMetricsOf(face, spacing, text[..i]) +
      [CharMetric(text[i], GlyphWidth(face, text[i]) + spacing, GlyphMetricsOf(face, text[i]))]
  {
    var a, b := CharMetricsOf(face, spacing, text[..i + 1]), CharMetricsOf(face, spacing, text[..i]);
    assert forall k :: 0 <= k < i ==> a[k] == b[k];
  }

  /* -------------------------------------------------------- the walk, as functions */

  /**
   * The frame of one segment: the trigonometry, the segment angle in
   * degrees, and the perpendicular offset that centres glyphs on the line.
   */
  datatype Frame = Frame(t: Trig, angle: real, offset: Point)

  /** The offset (sin a · H/3, cos a · H/3) for a face of height H on a segment at angle a. */
  function Offset(t: Trig, angle: real, height: real): (off: Point) {
    Point(SinDeg(t, angle) * height / 3.0, CosDeg(t, angle) * height / 3.0)
  }

  /** The point `d` further along the segment direction (cos a, sin a) from `p`. */
  function Along(f: Frame, p: Point, d: real): (q: Point) {
    Point(p.x + CosDeg(f.t, f.angle) * d, p.y + SinDeg(f.t, f.angle) * d)
  }

  /** The position of a character drawn with the pen at `pen`: the pen shifted back by the offset, at the segment angle. */
  function Anchor(f: Frame, ch: char, pen: Point): (lp: LetterPosition) {
    LetterPosition(ch, pen.x - f.offset.x, pen.y + f.offset.y, f.angle)
  }

  /** Where the pen ends up, what length is left, and the positions, after filling one segment. */
  datatype Run = Run(next: nat, remainder: real, pen: Point, placed: seq<LetterPosition>)

  /**
   * Places `cm[ci]`, `cm[ci + 1]`, ... after the positions `placed` for as
   * long as the remainder strictly exceeds half the character's width. Each
   * placed character is anchored at the pen; the pen then advances by the
   * width along the segment and the remainder drops by the width.
   */
  function Greedy(cm: seq<CharMetric>, ci: nat, remainder: real, pen: Point, f: Frame,
                  placed: seq<LetterPosition>): (r: Run)
    requires ci <= |cm|
    ensures ci <= r.next <= |cm|
    ensures |r.placed| == |placed| + (r.next - ci)
    ensures r.next == ci ==> r.remainder == remainder && r.placed == placed
    decreases |cm| - ci
  {
    if ci == |cm| || !(remainder > cm[ci].width / 2.0) then Run(ci, remainder, pen, placed)
    else
      var w := cm[ci].width;
      Greedy(cm, ci + 1, remainder - w, Along(f, pen, w), f, placed + [Anchor(f, cm[ci].ch, pen)])
  }

  /**
   * `Greedy` only appends: the earlier positions stay, and the new ones
   * carry the next characters in order, at the segment angle.
   */
  lemma {:induction false} GreedyAppends(cm: seq<CharMetric>, ci: nat, remainder: real, pen: Point, f: Frame,
                                         placed: seq<LetterPosition>)
    requires ci <= |cm|
    ensures var r := Greedy(cm, ci, remainder, pen, f, placed);
      && r.placed[..|placed|] == placed
      && forall k :: |placed| <= k < |r.placed| ==>
           r.placed[k].ch == cm[ci + (k - |placed|)].ch && r.placed[k].angle == f.angle
    decreases |cm| - ci
  {
    if ci < |cm| && remainder > cm[ci].width / 2.0 {
      var w := cm[ci].width;
      var placed' := placed + [Anchor(f, cm[ci].ch, pen)];
      GreedyAppends(cm, ci + 1, remainder - w, Along(f, pen, w), f, placed');
      var r := Greedy(cm, ci, remainder, pen, f, placed);
      assert r.placed[..|placed'|] == placed';
      assert r.placed[..|placed|] == placed'[..|placed|];
    }
  }

  /** The walk's state between segments: next character, pending nudge, positions so far. */
  datatype Progress = Progress(next: nat, nudge: real, placed: seq<LetterPosition>)

  /** The first position on a segment: its start, moved along it by a pending nudge. */
  function SegmentStart(f: Frame, length: real, lineCoord: Point, nudge: real): (start: (real, Point)) {
    if nudge != 0.0 then (length - nudge, Along(f, lineCoord, nudge))
    else (length, lineCoord)
  }

  /** Prefix-consistency of the walk's state: one position per character, in label order. */
  ghost predicate InOrder(cm: seq<CharMetric>, p: Progress) {
    && p.next <= |cm|
    && |p.placed| == p.next
    && forall k :: 0 <= k < |p.placed| ==> p.placed[k].ch == cm[k].ch
  }

  /**
   * One segment of `calculateLetterPositions`. With characters left, the
   * pending nudge is consumed, the segment is filled greedily, and a new
   * nudge (minus the remainder) is left only when a character failed after
   * at least one was placed on this segment.
   */
  function PlaceOnSegment(cm: seq<CharMetric>, p: Progress, line: LineData, lineCoord: Point,
                          height: real, t: Trig): (r: Progress)
    requires p.next <= |cm|
    ensures p.next <= r.next <= |cm|
    ensures |r.placed| == |p.placed| + (r.next - p.next)
    ensures r.placed[..|p.placed|] == p.placed
    ensures forall k :: |p.placed| <= k < |r.placed| ==>
      r.placed[k].ch == cm[p.next + (k - |p.placed|)].ch && r.placed[k].angle == line.angle
    ensures InOrder(cm, p) ==> InOrder(cm, r)
  {
    if p.next == |cm| then p
    else
      var f := Frame(t, line.angle, Offset(t, line.angle, height));
      var start := SegmentStart(f, line.length, lineCoord, p.nudge);
      var run := Greedy(cm, p.next, start.0, start.1, f, p.placed);
      GreedyAppends(cm, p.next, start.0, start.1, f, p.placed);
      var nudge := if p.next < run.next < |cm| then -run.remainder else 0.0;
      assert InOrder(cm, p) ==> InOrder(cm, Progress(run.next, nudge, run.placed)) by {
        if InOrder(cm, p) {
          forall k | 0 <= k < |run.placed|
            ensures run.placed[k].ch == cm[k].ch
          {
            if k < |p.placed| {
              assert run.placed[k] == p.placed[k];
            }
          }
        }
      }
      Progress(run.next, nudge, run.placed)
  }

  /** The walk over segments `s`, `s + 1`, ... */
  function WalkFrom(cm: seq<CharMetric>, lineData: seq<LineData>, lineCoords: seq<Point>, s: nat,
                    p: Progress, height: real, t: Trig): (r: Progress)
    requires |lineData| <= |lineCoords| && s <= |lineData| && p.next <= |cm|
    ensures p.next <= r.next <= |cm|
    ensures InOrder(cm, p) ==> InOrder(cm, r)
    decreases |lineData| - s
  {
    if s == |lineData| then p
    else WalkFrom(cm, lineData, lineCoords, s + 1, PlaceOnSegment(cm, p, lineData[s], lineCoords[s], height, t), height, t)
  }

  /** The positions `calculateLetterPositions` returns, for face height `height`. */
  function Letters(cm: seq<CharMetric>, lineData: seq<LineData>, lineCoords: seq<Point>,
                   height: real, t: Trig): (positions: seq<LetterPosition>)
    requires |lineData| <= |lineCoords|
    ensures |positions| <= |cm|
    ensures forall k :: 0 <= k < |positions| ==> positions[k].ch == cm[k].ch
  {
    WalkFrom(cm, lineData, lineCoords, 0, Progress(0, 0.0, []), height, t).placed
  }

  /** What `GetLetterPositions` computes from the label, the path and the face. */
  function LetterPositionsOf(face: Face, spacing: real, text: string, lineCoords: seq<Point>,
                             t: Trig): (positions: seq<LetterPosition>)
  {
    Letters(CharMetricsOf(face, spacing, text), GetLineData(t, lineCoords), lineCoords,
            FaceMetricsOf(face).height, t)
  }

  /* -------------------------------------------------------- the walk, as loops */

  /**
   * One iteration of the outer loop of `calculateLetterPositions`: the
   * offsets and remainder of segment `line`, then the inner loop over the
   * remaining characters. The inner loop never breaks: once a character
   * fails, the remaining iterations re-test it and change nothing that
   * matters.
   */
  method WalkSegment(text: string, charMetrics: seq<CharMetric>, line: LineData, lineCoord: Point,
                     height: real, t: Trig, charIndex0: nat, nudge0: real, positions0: seq<LetterPosition>)
    returns (charIndex: nat, nudge: real, positions: seq<LetterPosition>)
    requires |charMetrics| == |text| && charIndex0 <= |text|
    ensures Progress(charIndex, nudge, positions)
         == PlaceOnSegment(charMetrics, Progress(charIndex0, nudge0, positions0), line, lineCoord, height, t)
  {
    charIndex, nudge, positions := charIndex0, nudge0, positions0;
    var charsOnSegment := 0;
    var positionX, positionY := 0.0, 0.0;
    var offsetX := SinDeg(t, line.angle) * height / 3.0;
    var offsetY := CosDeg(t, line.angle) * height / 3.0;
    var remainder := line.length;

    var f := Frame(t, line.angle, Point(offsetX, offsetY));
    ghost var start := SegmentStart(f, line.length, lineCoord, nudge0);
    ghost var run := if charIndex0 < |text| then Greedy(charMetrics, charIndex0, start.0, start.1, f, positions0)
                     else Run(charIndex0, remainder, lineCoord, positions0);

    for i := charIndex0 to |text|
      invariant charIndex0 <= charIndex <= i
      invariant i == charIndex0 ==>
        charIndex == charIndex0 && charsOnSegment == 0 && remainder == line.length &&
        nudge == nudge0 && positions == positions0
      invariant i > charIndex0 ==> charsOnSegment == charIndex - charIndex0
      invariant i > charIndex0 && charIndex < i ==> !(remainder > charMetrics[charIndex].width / 2.0)
      invariant i > charIndex0 ==>
        SameRun(Greedy(charMetrics, charIndex, remainder, Point(positionX, positionY), f, positions), run)
      invariant i > charIndex0 ==> nudge == if charIndex < i && charsOnSegment > 0 then -remainder else 0.0
    {
      var charMetric := charMetrics[charIndex];
      var charWidth := charMetric.width;

      if charsOnSegment == 0 {
        positionX, positionY, remainder, nudge := EnterSegment(f, lineCoord, remainder, nudge);
      }

      if i == charIndex0 {
        assert remainder == start.0 && positionX == start.1.x && positionY == start.1.y;
      } else if charIndex < i {
        GreedyStuck(charMetrics, charIndex, remainder, f, positions);
      }
      assert SameRun(Greedy(charMetrics, charIndex, remainder, Point(positionX, positionY), f, positions), run);

      if remainder > charWidth / 2.0 {
        positions, positionX, positionY, remainder := PlaceChar(f, charMetric, positions, positionX, positionY, remainder);
        charsOnSegment := charsOnSegment + 1;
        charIndex := charIndex + 1;
      } else if charsOnSegment > 0 {
        nudge := -remainder;
      }
    }

    if charIndex0 < |text| {
      if charIndex < |text| {
        GreedyStuck(charMetrics, charIndex, remainder, f, positions);
      }
      assert f == Frame(t, line.angle, Offset(t, line.angle, height));
    }
  }

  /**
   * The pen on a segment's first character: the segment start, moved along
   * the segment by a pending nudge, which is then spent.
   */
  method EnterSegment(f: Frame, lineCoord: Point, remainder0: real, nudge0: real)
    returns (positionX: real, positionY: real, remainder: real, nudge: real)
    ensures remainder == SegmentStart(f, remainder0, lineCoord, nudge0).0
    ensures Point(positionX, positionY) == SegmentStart(f, remainder0, lineCoord, nudge0).1
    ensures nudge == 0.0
  {
    positionX, positionY := lineCoord.x, lineCoord.y;
    remainder, nudge := remainder0, nudge0;
    if nudge != 0.0 {
      remainder := remainder - nudge;
      positionX := positionX + CosDeg(f.t, f.angle) * nudge;
      positionY := positionY + SinDeg(f.t, f.angle) * nudge;
      assert Point(positionX, positionY) == Along(f, lineCoord, nudge0);
      nudge := 0.0;
    }
  }

  /**
   * Emits a character that fits: its position is anchored at the pen, the pen
   * advances by its width along the segment and the remainder shrinks by it.
   */
  method PlaceChar(f: Frame, charMetric: CharMetric, positions0: seq<LetterPosition>,
                   positionX0: real, positionY0: real, remainder0: real)
    returns (positions: seq<LetterPosition>, positionX: real, positionY: real, remainder: real)
    ensures positions == positions0 + [Anchor(f, charMetric.ch, Point(positionX0, positionY0))]
    ensures Point(positionX, positionY) == Along(f, Point(positionX0, positionY0), charMetric.width)
    ensures remainder == remainder0 - charMetric.width
  {
    var xIncrease := CosDeg(f.t, f.angle) * charMetric.width;
    var yIncrease := SinDeg(f.t, f.angle) * charMetric.width;
    positions := positions0 + [LetterPosition(charMetric.ch, positionX0 - f.offset.x, positionY0 + f.offset.y, f.angle)];
    positionX := positionX0 + xIncrease;
    positionY := positionY0 + yIncrease;
    remainder := remainder0 - charMetric.width;
  }

  /** Two runs agree on everything but the pen. */
  ghost predicate SameRun(a: Run, b: Run) {
    a.next == b.next && a.remainder == b.remainder && a.placed == b.placed
  }

  /** A character that does not fit stops `Greedy` wherever the pen is. */
  lemma GreedyStuck(cm: seq<CharMetric>, ci: nat, remainder: real, f: Frame, placed: seq<LetterPosition>)
    requires ci < |cm| && !(remainder > cm[ci].width / 2.0)
    ensures forall pen: Point {:trigger Greedy(cm, ci, remainder, pen, f, placed)} ::
      Greedy(cm, ci, remainder, pen, f, placed) == Run(ci, remainder, pen, placed)
  {
  }

  /**
   * `calculateLetterPositions`: looks up the face metrics for the height,
   * then walks the segments in order.
   */
  method CalculateLetterPositions(cache: MetricsCache, text: string, charMetrics: seq<CharMetric>,
                                  lineData: seq<LineData>, lineCoords: seq<Point>, tf: TypeFace, t: Trig,
                                  ghost faces: (string, real) -> Face)
    returns (positions: seq<LetterPosition>)
    requires cache.Coherent(faces) && Resolved(tf, faces)
    requires |charMetrics| == |text| && |lineData| <= |lineCoords|
    modifies cache`faceMetrics
    ensures cache.Coherent(faces)
    ensures old(cache.faceMetrics).Keys <= cache.faceMetrics.Keys && FaceKey(tf.name, tf.size) in cache.faceMetrics
    ensures positions == Letters(charMetrics, lineData, lineCoords, FaceMetricsOf(tf.face).height, t)
  {
    ghost var before := cache.faceMetrics;
    var fm := cache.GetFaceMetrics(tf);
    FaceMetricsLookup(before, cache.faceMetrics, faces, tf, fm);
    positions := WalkSegments(text, charMetrics, lineData, lineCoords, fm.height, t);
  }

  /** The segment loop of `calculateLetterPositions`, once the height is known. */
  method WalkSegments(text: string, charMetrics: seq<CharMetric>, lineData: seq<LineData>, lineCoords: seq<Point>,
                      height: real, t: Trig)
    returns (positions: seq<LetterPosition>)
    requires |charMetrics| == |text| && |lineData| <= |lineCoords|
    ensures positions == Letters(charMetrics, lineData, lineCoords, height, t)
  {
    var charIndex: nat, nudge := 0, 0.0;
    positions := [];
    for s := 0 to |lineData|
      invariant charIndex <= |text|
      invariant WalkFrom(charMetrics, lineData, lineCoords, s, Progress(charIndex, nudge, positions), height, t)
             == WalkFrom(charMetrics, lineData, lineCoords, 0, Progress(0, 0.0, []), height, t)
    {
      charIndex, nudge, positions :=
        WalkSegment(text, charMetrics, lineData[s], lineCoords[s], height, t, charIndex, nudge, positions);
    }
  }

  /** `getCharMetrics`: glyph metrics and width of each character, through the caches. */
  method GetCharMetrics(cache: MetricsCache, text: string, tf: TypeFace, ghost faces: (string, real) -> Face)
    returns (charMetrics: seq<CharMetric>)
    requires cache.Coherent(faces) && Resolved(tf, faces)
    modifies cache`glyphMetrics
    ensures cache.Coherent(faces)
    ensures old(cache.glyphMetrics).Keys <= cache.glyphMetrics.Keys && cache.HoldsGlyphs(tf, text)
    ensures charMetrics == CharMetricsOf(tf.face, tf.spacing, text)
  {
    charMetrics := [];
    for i := 0 to |text|
      invariant cache.Coherent(faces)
      invariant old(cache.glyphMetrics).Keys <= cache.glyphMetrics.Keys
      invariant forall j :: 0 <= j < i ==> GlyphCacheKey(tf, text[j]).0 in cache.glyphMetrics
      invariant charMetrics == CharMetricsOf(tf.face, tf.spacing, text[..i])
    {
      ghost var before := cache.glyphMetrics;
      var charMetric := GetCharMetric(cache, text[i], tf, faces);
      HeldStep(before, cache.glyphMetrics, tf, text, i);
      CharMetricsOfStep(tf.face, tf.spacing, text, i);
      charMetrics := charMetrics + [charMetric];
    }
    assert text[..|text|] == text;
  }

  /** One character's step of `getCharMetrics`: its glyph metrics and its width, both through the cache. */
  method GetCharMetric(cache: MetricsCache, ch: char, tf: TypeFace, ghost faces: (string, real) -> Face)
    returns (charMetric: CharMetric)
    requires cache.Coherent(faces) && Resolved(tf, faces)
    modifies cache`glyphMetrics
    ensures cache.Coherent(faces)
    ensures old(cache.glyphMetrics).Keys <= cache.glyphMetrics.Keys && GlyphCacheKey(tf, ch).0 in cache.glyphMetrics
    ensures charMetric == CharMetric(ch, GlyphWidth(tf.face, ch) + tf.spacing, GlyphMetricsOf(tf.face, ch))
  {
    ghost var before := cache.glyphMetrics;
    var metrics := cache.GetGlyphMetrics(tf, ch);
    MetricsLookup(before, cache.glyphMetrics, faces, tf, ch, metrics);
    var width := cache.GetGlyphWidth(tf, ch, faces);
    charMetric := CharMetric(ch, width + tf.spacing, metrics);
  }

  /**
   * `GetLetterPositions`: the positions of the label's characters along the
   * path, with a "does not fit" error, carrying the face height and the
   * spacing, exactly when some character was not placed.
   */
  method GetLetterPositions(cache: MetricsCache, text: string, lineCoords: seq<Point>, tf: TypeFace, t: Trig,
                            ghost faces: (string, real) -> Face)
    returns (positions: seq<LetterPosition>, err: Option<DoesNotFit>)
    requires cache.Coherent(faces) && Resolved(tf, faces)
    modifies cache`glyphMetrics, cache`faceMetrics
    ensures cache.Coherent(faces)
    ensures old(cache.glyphMetrics).Keys <= cache.glyphMetrics.Keys && cache.HoldsGlyphs(tf, text)
    ensures old(cache.faceMetrics).Keys <= cache.faceMetrics.Keys && FaceKey(tf.name, tf.size) in cache.faceMetrics
    ensures positions == LetterPositionsOf(tf.face, tf.spacing, text, lineCoords, t)
    ensures err.Some? <==> |positions| < |text|
    ensures err.Some? ==> err.value == DoesNotFit(text, |positions|, |text|, FaceMetricsOf(tf.face).height, tf.spacing)
  {
    var charMetrics := GetCharMetrics(cache, text, tf, faces);
    var lineData := GetLineData(t, lineCoords);
    positions := CalculateLetterPositions(cache, text, charMetrics, lineData, lineCoords, tf, t, faces);

    var numPositions := |positions|;
    var labelLength := |text|;
    if numPositions < labelLength {
      ghost var before := cache.faceMetrics;
      var fm := cache.GetFaceMetrics(tf);
      FaceMetricsLookup(before, cache.faceMetrics, faces, tf, fm);
      return positions, Some(DoesNotFit(text, numPositions, labelLength, fm.height, tf.spacing));
    }
    return positions, None;
  }

  /**
   * `TextAlongLine`: one glyph per label character, at its position and
   * angle; no glyphs at all when the label does not fit.
   */
  method TextAlongLine(cache: MetricsCache, text: string, lineCoords: seq<Point>, tf: TypeFace, t: Trig,
                       ghost faces: (string, real) -> Face)
    returns (glyphs: seq<TextGlyph>, err: Option<DoesNotFit>)
    requires cache.Coherent(faces) && Resolved(tf, faces)
    modifies cache`glyphMetrics, cache`faceMetrics
    ensures cache.Coherent(faces)
    ensures old(cache.glyphMetrics).Keys <= cache.glyphMetrics.Keys && cache.HoldsGlyphs(tf, text)
    ensures old(cache.faceMetrics).Keys <= cache.faceMetrics.Keys && FaceKey(tf.name, tf.size) in cache.faceMetrics
    ensures var positions := LetterPositionsOf(tf.face, tf.spacing, text, lineCoords, t);
      && (err.Some? <==> |positions| < |text|)
      && (err.Some? ==> glyphs == [])
      && (err.None? ==> |glyphs| == |text| && forall i :: 0 <= i < |text| ==>
            glyphs[i] == TextGlyph(text[i], Point(positions[i].x, positions[i].y), positions[i].angle))
  {
    var charPositions, e := GetLetterPositions(cache, text, lineCoords, tf, t, faces);
    if e.Some? {
      return [], e;
    }
    glyphs := PlaceGlyphs(text, charPositions);
    err := None;
  }

  /** The glyph loop of `TextAlongLine`: the k-th character at the k-th position. */
  method PlaceGlyphs(text: string, positions: seq<LetterPosition>) returns (glyphs: seq<TextGlyph>)
    requires |positions| >= |text|
    ensures |glyphs| == |text|
    ensures forall i :: 0 <= i < |text| ==>
      glyphs[i] == TextGlyph(text[i], Point(positions[i].x, positions[i].y), positions[i].angle)
  {
    glyphs := [];
    for i := 0 to |text|
      invariant |glyphs| == i
      invariant forall j :: 0 <= j < i ==>
        glyphs[j] == TextGlyph(text[j], Point(positions[j].x, positions[j].y), positions[j].angle)
    {
      var pos := Point(positions[i].x, positions[i].y);
      glyphs := glyphs + [TextGlyph(text[i], pos, positions[i].angle)];
    }
  }
}
