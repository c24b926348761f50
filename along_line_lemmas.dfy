/**
 * Properties of the placement walk of text/text_along_line.go, stated over
 * the functional specification in module `AlongLine` (which the Go-shaped
 * methods there are proved equal to).
 */
module AlongLineLemmas {
  import opened Maths
  import opened Fonts
  import opened TextTypes
  import opened AlongLine

  /* ------------------------------------------------------------ width sums */

  /** The total width of `cm[i..j]`. */
  function SumW(cm: seq<CharMetric>, i: nat, j: nat): (w: real)
    requires i <= j <= |cm|
    decreases j - i
  {
    if i == j then 0.0 else cm[i].width + SumW(cm, i + 1, j)
  }

  lemma {:induction false} SumWSplit(cm: seq<CharMetric>, i: nat, m: nat, j: nat)
    requires i <= m <= j <= |cm|
    ensures SumW(cm, i, j) == SumW(cm, i, m) + SumW(cm, m, j)
    decreases m - i
  {
    if i < m {
      SumWSplit(cm, i + 1, m, j);
    }
  }

  /** With positive widths, a range weighs at least its first character. */
  lemma {:induction false} SumWCoversFirst(cm: seq<CharMetric>, m: nat, j: nat)
    requires m < j <= |cm|
    requires forall k :: m <= k < j ==> cm[k].width > 0.0
    ensures SumW(cm, m, j) >= cm[m].width
    decreases j - m
  {
    if m + 1 < j {
      SumWCoversFirst(cm, m + 1, j);
    }
  }

  /** Characters of one common width `w`: `k` of them weigh `k · w`. */
  lemma {:induction false} SumWUniform(cm: seq<CharMetric>, i: nat, j: nat, w: real)
    requires i <= j <= |cm|
    requires forall k :: i <= k < j ==> cm[k].width == w
    ensures SumW(cm, i, j) == (j - i) as real * w
    decreases j - i
  {
    if i < j {
      SumWUniform(cm, i + 1, j, w);
    }
  }

  /* ------------------------------------------------------------- geometry */

  /** Moving along a segment by `a` and then by `b` is moving by `a + b`. */
  lemma AlongAdd(f: Frame, p: Point, a: real, b: real)
    ensures Along(f, Along(f, p, a), b) == Along(f, p, a + b)
  {
    var c, s := CosDeg(f.t, f.angle), SinDeg(f.t, f.angle);
    assert c * (a + b) == c * a + c * b;
    assert s * (a + b) == s * a + s * b;
  }

  lemma AlongZero(f: Frame, p: Point)
    ensures Along(f, p, 0.0) == p
  {
  }

  /* ------------------------------------------------------- one segment */

  /**
   * How far `Greedy` gets: every character it places had more than half its
   * width left after the widths placed before it, the first one it does
   * not place had at most half its width left, and the remainder drops by
   * the total width placed.
   */
  lemma {:induction false} GreedyFits(cm: seq<CharMetric>, ci: nat, rem: real, pen: Point, f: Frame,
                                      acc: seq<LetterPosition>)
    requires ci <= |cm|
    ensures var r := Greedy(cm, ci, rem, pen, f, acc);
      && r.remainder == rem - SumW(cm, ci, r.next)
      && (forall k :: ci <= k < r.next ==> rem - SumW(cm, ci, k) > cm[k].width / 2.0)
      && (r.next < |cm| ==> !(r.remainder > cm[r.next].width / 2.0))
    decreases |cm| - ci
  {
    if ci < |cm| && rem > cm[ci].width / 2.0 {
      var w := cm[ci].width;
      GreedyFits(cm, ci + 1, rem - w, Along(f, pen, w), f, acc + [Anchor(f, cm[ci].ch, pen)]);
    }
  }

  /** The pen ends up moved along the segment by the total width placed. */
  lemma {:induction false} GreedyPen(cm: seq<CharMetric>, ci: nat, rem: real, pen: Point, f: Frame,
                                     acc: seq<LetterPosition>)
    requires ci <= |cm|
    ensures var r := Greedy(cm, ci, rem, pen, f, acc);
      r.pen == Along(f, pen, SumW(cm, ci, r.next))
    decreases |cm| - ci
  {
    var r := Greedy(cm, ci, rem, pen, f, acc);
    if ci < |cm| && rem > cm[ci].width / 2.0 {
      var w := cm[ci].width;
      GreedyPen(cm, ci + 1, rem - w, Along(f, pen, w), f, acc + [Anchor(f, cm[ci].ch, pen)]);
      AlongAdd(f, pen, w, SumW(cm, ci + 1, r.next));
    }
  }

  /**
   * Where `Greedy` puts the k-th character: anchored at the pen moved along
   * the segment by the widths of the characters placed before it.
   */
  lemma {:induction false} GreedyAnchorAt(cm: seq<CharMetric>, ci: nat, rem: real, pen: Point, f: Frame,
                                          acc: seq<LetterPosition>, k: nat)
    requires ci <= k < |cm| && k < Greedy(cm, ci, rem, pen, f, acc).next
    ensures Greedy(cm, ci, rem, pen, f, acc).placed[|acc| + (k - ci)]
         == Anchor(f, cm[k].ch, Along(f, pen, SumW(cm, ci, k)))
    decreases k - ci
  {
    var r := Greedy(cm, ci, rem, pen, f, acc);
    var w := cm[ci].width;
    var pen' := Along(f, pen, w);
    var acc' := acc + [Anchor(f, cm[ci].ch, pen)];
    assert r == Greedy(cm, ci + 1, rem - w, pen', f, acc');
    if k == ci {
      GreedyAppends(cm, ci + 1, rem - w, pen', f, acc');
      AlongZero(f, pen);
      assert r.placed[|acc|] == r.placed[..|acc'|][|acc|];
    } else {
      GreedyAnchorAt(cm, ci + 1, rem - w, pen', f, acc', k);
      AlongAdd(f, pen, w, SumW(cm, ci + 1, k));
    }
  }

  /**
   * The nudge a segment reached with characters left leaves behind: only
   * after it placed at least one character and some character is still
   * waiting, and then it is the negated remainder, which is at most half
   * that character's width. In particular a segment that places nothing
   * drops any nudge it was given.
   */
  lemma SegmentNudge(cm: seq<CharMetric>, p: Progress, line: LineData, lineCoord: Point, height: real, t: Trig)
    requires p.next < |cm|
    ensures var r := PlaceOnSegment(cm, p, line, lineCoord, height, t);
      && (r.nudge != 0.0 ==> p.next < r.next < |cm| && -r.nudge <= cm[r.next].width / 2.0)
      && (r.next == p.next ==> r.nudge == 0.0)
  {
    var f := Frame(t, line.angle, Offset(t, line.angle, height));
    var start := SegmentStart(f, line.length, lineCoord, p.nudge);
    GreedyFits(cm, p.next, start.0, start.1, f, p.placed);
  }

  /**
   * A zero-length segment reached without a nudge places nothing when the
   * waiting character's width is not negative.
   */
  lemma EmptySegmentPlacesNothing(cm: seq<CharMetric>, p: Progress, line: LineData, lineCoord: Point,
                                  height: real, t: Trig)
    requires p.next <= |cm| && p.nudge == 0.0 && line.length == 0.0
    requires p.next < |cm| ==> cm[p.next].width >= 0.0
    ensures PlaceOnSegment(cm, p, line, lineCoord, height, t) == p
  {
  }

  /**
   * A segment at least as long as all remaining characters, reached without
   * a nudge, takes all of them when their widths are positive.
   */
  lemma LongSegmentPlacesAll(cm: seq<CharMetric>, p: Progress, line: LineData, lineCoord: Point,
                             height: real, t: Trig)
    requires p.next <= |cm| && p.nudge == 0.0
    requires forall k :: p.next <= k < |cm| ==> cm[k].width > 0.0
    requires line.length >= SumW(cm, p.next, |cm|)
    ensures PlaceOnSegment(cm, p, line, lineCoord, height, t).next == |cm|
  {
    if p.next < |cm| {
      var f := Frame(t, line.angle, Offset(t, line.angle, height));
      var r := Greedy(cm, p.next, line.length, lineCoord, f, p.placed);
      GreedyFits(cm, p.next, line.length, lineCoord, f, p.placed);
      if r.next < |cm| {
        SumWSplit(cm, p.next, r.next, |cm|);
        SumWCoversFirst(cm, r.next, |cm|);
        assert false;
      }
    }
  }

  /** A label on a one-segment path at least as long as the label, with positive widths, fits whole. */
  lemma LongPathFitsLabel(cm: seq<CharMetric>, line: LineData, from: Point, to: Point, height: real, t: Trig)
    requires forall k :: 0 <= k < |cm| ==> cm[k].width > 0.0
    requires line.length >= SumW(cm, 0, |cm|)
    ensures |Letters(cm, [line], [from, to], height, t)| == |cm|
  {
    var p := Progress(0, 0.0, []);
    LongSegmentPlacesAll(cm, p, line, from, height, t);
    var r := PlaceOnSegment(cm, p, line, from, height, t);
    assert WalkFrom(cm, [line], [from, to], 0, p, height, t) == r;
  }

  /**
   * The nudge makes the pen continuous across a straight vertex: when a
   * segment ends where the next one starts and both have the same angle,
   * the pen on the next segment starts exactly where it stopped on this one,
   * with the leftover length carried over.
   */
  lemma NudgeContinuity(cm: seq<CharMetric>, p: Progress, line: LineData, lineCoord: Point,
                        next: LineData, nextCoord: Point, height: real, t: Trig)
    requires p.next <= |cm|
    requires next.angle == line.angle
    requires Along(Frame(t, line.angle, Offset(t, line.angle, height)), lineCoord, line.length) == nextCoord
    ensures var f := Frame(t, line.angle, Offset(t, line.angle, height));
      var start := SegmentStart(f, line.length, lineCoord, p.nudge);
      var run := Greedy(cm, p.next, start.0, start.1, f, p.placed);
      var r := PlaceOnSegment(cm, p, line, lineCoord, height, t);
      p.next < r.next < |cm| ==>
        && SegmentStart(f, next.length, nextCoord, r.nudge).1 == run.pen
        && SegmentStart(f, next.length, nextCoord, r.nudge).0 == next.length + run.remainder
  {
    var f := Frame(t, line.angle, Offset(t, line.angle, height));
    var start := SegmentStart(f, line.length, lineCoord, p.nudge);
    var r := PlaceOnSegment(cm, p, line, lineCoord, height, t);
    if p.next < r.next < |cm| {
      var run := Greedy(cm, p.next, start.0, start.1, f, p.placed);
      assert r.nudge == -run.remainder;
      GreedyFits(cm, p.next, start.0, start.1, f, p.placed);
      GreedyPen(cm, p.next, start.0, start.1, f, p.placed);
      var n := if p.nudge != 0.0 then p.nudge else 0.0;
      if p.nudge == 0.0 {
        AlongZero(f, lineCoord);
      }
      assert start.1 == Along(f, lineCoord, n) && start.0 == line.length - n;
      CarryOver(f, lineCoord, line.length, n, SumW(cm, p.next, run.next), run.remainder);
      if r.nudge == 0.0 {
        AlongZero(f, nextCoord);
      }
    }
  }

  /** Going back by the leftover from a segment's end is going forward by what was used of it. */
  lemma CarryOver(f: Frame, p: Point, length: real, n: real, s: real, rem: real)
    requires rem == length - n - s
    ensures Along(f, Along(f, p, length), -rem) == Along(f, Along(f, p, n), s)
  {
    AlongAdd(f, p, length, -rem);
    AlongAdd(f, p, n, s);
    assert length + -rem == n + s;
  }

  /* ------------------------------------------------------------ the path */

  /** The sum of the displacements of the first `k` segments. */
  function PathSum(lineData: seq<LineData>, k: nat): (sum: Point)
    requires k <= |lineData|
  {
    if k == 0 then Point(0.0, 0.0)
    else var q := PathSum(lineData, k - 1); Point(q.x + lineData[k - 1].pos.x, q.y + lineData[k - 1].pos.y)
  }

  /** The segments of `GetLineData` rebuild the path: vertex k is the first vertex plus the first k displacements. */
  lemma {:induction false} SegmentsRebuildPath(t: Trig, lineCoords: seq<Point>, k: nat)
    requires k < |lineCoords|
    ensures var d := PathSum(GetLineData(t, lineCoords), k);
      Point(lineCoords[0].x + d.x, lineCoords[0].y + d.y) == lineCoords[k]
  {
    if k > 0 {
      SegmentsRebuildPath(t, lineCoords, k - 1);
    }
  }

  /** Each segment's angle and length are measured from its own displacement (dx, dy). */
  lemma {:induction false} SegmentMeasures(t: Trig, lineCoords: seq<Point>, i: nat)
    requires i + 1 < |lineCoords|
    ensures var line := GetLineData(t, lineCoords)[i];
      var dx, dy := lineCoords[i + 1].x - lineCoords[i].x, lineCoords[i + 1].y - lineCoords[i].y;
      && line.pos == Point(dx, dy)
      && line.angle == Atan2Deg(t, dy, dx)
      && line.length == Hypot(t, dx, dy)
  {
    assert GetLineData(t, lineCoords)[i] == Segment(t, lineCoords[i], lineCoords[i + 1]);
  }

  /** A path of fewer than two vertices has no segments, so no character is placed. */
  lemma ShortPathPlacesNothing(face: Face, spacing: real, text: string, lineCoords: seq<Point>, t: Trig)
    requires |lineCoords| < 2
    ensures GetLineData(t, lineCoords) == []
    ensures LetterPositionsOf(face, spacing, text, lineCoords, t) == []
  {
  }

  /** Every character the walk places is placed once, in label order. */
  lemma WalkInOrder(cm: seq<CharMetric>, lineData: seq<LineData>, lineCoords: seq<Point>, height: real, t: Trig)
    requires |lineData| <= |lineCoords|
    ensures InOrder(cm, WalkFrom(cm, lineData, lineCoords, 0, Progress(0, 0.0, []), height, t))
  {
  }

  /* ---------------------------------------------------------- scenarios */

  /** A horizontal segment of length `len` from the origin. */
  function Horizontal(len: real): (line: LineData) {
    LineData(Point(len, 0.0), 0.0, len)
  }

  /**
   * The path from the origin to (len, 0) has that one horizontal segment,
   * given that atan2(0, len) = 0 and √(len² + 0²) = len.
   */
  lemma {:induction false} HorizontalPath(t: Trig, len: real)
    requires t.atan2(0.0, len) == 0.0 && Hypot(t, len, 0.0) == len
    ensures GetLineData(t, [Point(0.0, 0.0), Point(len, 0.0)]) == [Horizontal(len)]
  {
    var coords := [Point(0.0, 0.0), Point(len, 0.0)];
    SegmentMeasures(t, coords, 0);
    var line := GetLineData(t, coords)[0];
    assert Atan2Deg(t, 0.0, len) == 0.0;
    assert line == Horizontal(len);
  }

  /** On a one-segment path, the walk's letters are those placed on that segment. */
  lemma {:induction false} OneSegmentWalk(face: Face, spacing: real, text: string, coords: seq<Point>, t: Trig)
    requires |coords| == 2
    ensures var cm, lineData := CharMetricsOf(face, spacing, text), GetLineData(t, coords);
      LetterPositionsOf(face, spacing, text, coords, t)
      == PlaceOnSegment(cm, Progress(0, 0.0, []), lineData[0], coords[0], FaceMetricsOf(face).height, t).placed
  {
    var cm, lineData, height := CharMetricsOf(face, spacing, text), GetLineData(t, coords), FaceMetricsOf(face).height;
    var r := PlaceOnSegment(cm, Progress(0, 0.0, []), lineData[0], coords[0], height, t);
    assert WalkFrom(cm, lineData, coords, 1, r, height, t) == r;
  }

  /** The metrics of a label whose characters are all 50 wide. */
  lemma {:induction false} FiftyWide(face: Face, spacing: real, text: string)
    requires forall k :: 0 <= k < |text| ==> GlyphWidth(face, text[k]) + spacing == 50.0
    ensures var cm := CharMetricsOf(face, spacing, text);
      |cm| == |text| && forall k :: 0 <= k < |cm| ==> cm[k].width == 50.0 && cm[k].ch == text[k]
  {
  }

  /**
   * Five characters 50 wide on a horizontal segment 1000 long: all are
   * placed, 50 apart from the origin, lifted by a third of the face height.
   */
  lemma UniformOnLongHorizontal(cm: seq<CharMetric>, height: real, t: Trig)
    requires t.sin(0.0) == 0.0 && t.cos(0.0) == 1.0
    requires |cm| == 5 && forall k :: 0 <= k < 5 ==> cm[k].width == 50.0
    ensures var positions := Letters(cm, [Horizontal(1000.0)], [Point(0.0, 0.0), Point(1000.0, 0.0)], height, t);
      && |positions| == 5
      && forall k :: 0 <= k < 5 ==>
           positions[k] == LetterPosition(cm[k].ch, 50.0 * k as real, height / 3.0, 0.0)
  {
    var origin := Point(0.0, 0.0);
    var f := Frame(t, 0.0, Offset(t, 0.0, height));
    var p := Progress(0, 0.0, []);
    assert Radians(t, 0.0) == 0.0;
    assert f.offset == Point(0.0, height / 3.0);
    SumWUniform(cm, 0, 5, 50.0);
    LongSegmentPlacesAll(cm, p, Horizontal(1000.0), origin, height, t);
    var r := PlaceOnSegment(cm, p, Horizontal(1000.0), origin, height, t);
    var run := Greedy(cm, 0, 1000.0, origin, f, []);
    assert r.placed == run.placed;
    assert Letters(cm, [Horizontal(1000.0)], [origin, Point(1000.0, 0.0)], height, t) == r.placed;
    forall k | 0 <= k < 5
      ensures run.placed[k] == LetterPosition(cm[k].ch, 50.0 * k as real, height / 3.0, 0.0)
    {
      GreedyAnchorAt(cm, 0, 1000.0, origin, f, [], k);
      SumWUniform(cm, 0, k, 50.0);
      assert Along(f, origin, 50.0 * k as real) == Point(50.0 * k as real, 0.0);
    }
  }

  /**
   * The same five characters on a segment 120 long: two are placed, the
   * third finds 20 left of its 50, and the walk leaves a nudge of -20, so
   * `GetLetterPositions` reports that the label does not fit.
   */
  lemma UniformOnShortHorizontal(cm: seq<CharMetric>, height: real, t: Trig)
    requires t.sin(0.0) == 0.0 && t.cos(0.0) == 1.0
    requires |cm| == 5 && forall k :: 0 <= k < 5 ==> cm[k].width == 50.0
    ensures var r := PlaceOnSegment(cm, Progress(0, 0.0, []), Horizontal(120.0), Point(0.0, 0.0), height, t);
      r.next == 2 && r.nudge == -20.0
    ensures var r := PlaceOnSegment(cm, Progress(0, 0.0, []), Horizontal(120.0), Point(0.0, 0.0), height, t);
      r.placed == [LetterPosition(cm[0].ch, 0.0, height / 3.0, 0.0), LetterPosition(cm[1].ch, 50.0, height / 3.0, 0.0)]
  {
    var origin := Point(0.0, 0.0);
    var f := Frame(t, 0.0, Offset(t, 0.0, height));
    assert Radians(t, 0.0) == 0.0;
    assert f.offset == Point(0.0, height / 3.0);
    var pen1 := Along(f, origin, 50.0);
    var pen2 := Along(f, pen1, 50.0);
    assert pen1 == Point(50.0, 0.0);
    var a0, a1 := Anchor(f, cm[0].ch, origin), Anchor(f, cm[1].ch, pen1);
    assert a0 == LetterPosition(cm[0].ch, 0.0, height / 3.0, 0.0);
    assert a1 == LetterPosition(cm[1].ch, 50.0, height / 3.0, 0.0);
    var run := Greedy(cm, 0, 120.0, origin, f, []);
    assert [] + [a0] == [a0];
    assert run == Greedy(cm, 1, 70.0, pen1, f, [a0]);
    assert [a0] + [a1] == [a0, a1];
    assert run == Greedy(cm, 2, 20.0, pen2, f, [a0, a1]);
    assert run == Run(2, 20.0, pen2, [a0, a1]);
    var r := PlaceOnSegment(cm, Progress(0, 0.0, []), Horizontal(120.0), origin, height, t);
    assert r == Progress(2, -20.0, [a0, a1]);
  }

  /**
   * A five-character label, every character 50 wide, on the path from the
   * origin to (1000, 0): `GetLetterPositions` places all five, 50 apart,
   * lifted by a third of the face height, and reports no error.
   */
  lemma {:induction false} FiveOnLongSegment(face: Face, spacing: real, text: string, t: Trig)
    requires t.sin(0.0) == 0.0 && t.cos(0.0) == 1.0
    requires t.atan2(0.0, 1000.0) == 0.0 && Hypot(t, 1000.0, 0.0) == 1000.0
    requires |text| == 5 && forall k :: 0 <= k < 5 ==> GlyphWidth(face, text[k]) + spacing == 50.0
    ensures var positions := LetterPositionsOf(face, spacing, text, [Point(0.0, 0.0), Point(1000.0, 0.0)], t);
      var height := FaceMetricsOf(face).height;
      && |positions| == |text|
      && forall k :: 0 <= k < 5 ==> positions[k] == LetterPosition(text[k], 50.0 * k as real, height / 3.0, 0.0)
  {
    HorizontalPath(t, 1000.0);
    FiftyWide(face, spacing, text);
    OneSegmentWalk(face, spacing, text, [Point(0.0, 0.0), Point(1000.0, 0.0)], t);
    UniformOnLongHorizontal(CharMetricsOf(face, spacing, text), FaceMetricsOf(face).height, t);
  }

  /** Walking the path from the origin to (120, 0) is placing on its one segment. */
  lemma {:induction false} ShortPathWalk(face: Face, spacing: real, text: string, coords: seq<Point>, t: Trig)
    requires t.atan2(0.0, 120.0) == 0.0 && Hypot(t, 120.0, 0.0) == 120.0
    requires coords == [Point(0.0, 0.0), Point(120.0, 0.0)]
    ensures LetterPositionsOf(face, spacing, text, coords, t)
      == PlaceOnSegment(CharMetricsOf(face, spacing, text), Progress(0, 0.0, []), Horizontal(120.0),
                        Point(0.0, 0.0), FaceMetricsOf(face).height, t).placed
  {
    HorizontalPath(t, 120.0);
    OneSegmentWalk(face, spacing, text, coords, t);
  }

  /**
   * The same label on the path from the origin to (120, 0): two characters
   * are placed and `GetLetterPositions` reports that the label does not fit.
   */
  lemma {:induction false} FiveOnShortSegment(face: Face, spacing: real, text: string, coords: seq<Point>, t: Trig)
    requires t.sin(0.0) == 0.0 && t.cos(0.0) == 1.0
    requires t.atan2(0.0, 120.0) == 0.0 && Hypot(t, 120.0, 0.0) == 120.0
    requires |text| == 5 && forall k :: 0 <= k < 5 ==> GlyphWidth(face, text[k]) + spacing == 50.0
    requires coords == [Point(0.0, 0.0), Point(120.0, 0.0)]
    ensures |LetterPositionsOf(face, spacing, text, coords, t)| == 2
    ensures LetterPositionsOf(face, spacing, text, coords, t)[0]
      == LetterPosition(text[0], 0.0, FaceMetricsOf(face).height / 3.0, 0.0)
    ensures LetterPositionsOf(face, spacing, text, coords, t)[1]
      == LetterPosition(text[1], 50.0, FaceMetricsOf(face).height / 3.0, 0.0)
  {
    ShortPathWalk(face, spacing, text, coords, t);
    FiftyWide(face, spacing, text);
    UniformOnShortHorizontal(CharMetricsOf(face, spacing, text), FaceMetricsOf(face).height, t);
  }

  /**
   * On that path the third character finds 20 left of its 50, so the
   * segment hands a nudge of -20 to the next one.
   */
  lemma {:induction false} FiveOnShortSegmentNudge(face: Face, spacing: real, text: string, t: Trig)
    requires t.sin(0.0) == 0.0 && t.cos(0.0) == 1.0
    requires t.atan2(0.0, 120.0) == 0.0 && Hypot(t, 120.0, 0.0) == 120.0
    requires |text| == 5 && forall k :: 0 <= k < 5 ==> GlyphWidth(face, text[k]) + spacing == 50.0
    ensures var coords := [Point(0.0, 0.0), Point(120.0, 0.0)];
      var lineData := GetLineData(t, coords);
      |lineData| == 1 &&
      var r := PlaceOnSegment(CharMetricsOf(face, spacing, text), Progress(0, 0.0, []), lineData[0], coords[0], FaceMetricsOf(face).height, t);
      r.next == 2 && r.nudge == -20.0
  {
    HorizontalPath(t, 120.0);
    FiftyWide(face, spacing, text);
    UniformOnShortHorizontal(CharMetricsOf(face, spacing, text), FaceMetricsOf(face).height, t);
  }
}
