/**
 * Glyph and face metrics (fonts/utils.go): conversion from 26.6 fixed point,
 * the metric records derived from the font face, the process-wide
 * get-or-compute caches, and the text width and height built on them.
 *
 * The font face itself (`tf.Face.GlyphBounds`, `tf.Face.Metrics`) is an
 * oracle: a `Face` value holding a function from characters to raw glyph
 * bounds and the raw face metrics.
 */
module Fonts {
  import opened Maths

  /** `fixed.Int26_6`: a signed 32-bit integer counting 1/64ths. */
  type Int26_6 = x: int | -0x8000_0000 <= x < 0x8000_0000

  const MinInt32: int := -0x8000_0000

  /**
   * Two's complement wrap-around into 32 bits of the result of one 32-bit
   * negation or subtraction (which always lies within 2³² of the range).
   */
  function Wrap32(x: int): (r: Int26_6)
    requires -0x1_0000_0000 <= x < 0x1_0000_0000
    ensures -0x8000_0000 <= x < 0x8000_0000 ==> r == x
  {
    if x < -0x8000_0000 then x + 0x1_0000_0000
    else if x >= 0x8000_0000 then x - 0x1_0000_0000
    else x
  }

  /** Go's 32-bit negation `-x`: the most negative value negates to itself. */
  function Neg32(x: Int26_6): (r: Int26_6)
    ensures x != MinInt32 ==> r == -x
    ensures x == MinInt32 ==> r == MinInt32
  {
    Wrap32(-(x as int))
  }

  /** Go's 32-bit subtraction `a - b`. */
  function Sub32(a: Int26_6, b: Int26_6): (r: Int26_6)
    ensures -0x8000_0000 <= a - b < 0x8000_0000 ==> r == a - b
  {
    Wrap32(a - b)
  }

  /** `float64(x>>6) + float64(x&63)/64`: the value of a non-negative 26.6 number. */
  function ShiftMask(x: int): (v: real)
    requires x >= 0
  {
    (x / 64) as real + (x % 64) as real / 64.0
  }

  /** `unfix`: the value of a 26.6 fixed-point number, by shift and mask. */
  function Unfix(x: Int26_6): (v: real)
    ensures x >= 0 ==> v >= 0.0
    ensures x < 0 ==> v <= 0.0
  {
    if x >= 0 then ShiftMask(x)
    else
      var y := Neg32(x);
      if y >= 0 then -ShiftMask(y)
      else 0.0
  }

  /**
   * `unfix` is exact, x/64, for every input but the most negative one, whose
   * negation overflows and which yields 0.
   */
  lemma UnfixExact(x: Int26_6)
    ensures x != MinInt32 ==> Unfix(x) == x as real / 64.0
    ensures x == MinInt32 ==> Unfix(x) == 0.0
  {
    if x >= 0 {
      assert 64 * (x / 64) + x % 64 == x;
    } else if x != MinInt32 {
      var y := Neg32(x);
      assert 64 * (y / 64) + y % 64 == y;
    }
  }

  /** `fixed.Rectangle26_6` */
  datatype Rect = Rect(minX: Int26_6, minY: Int26_6, maxX: Int26_6, maxY: Int26_6)

  /** What `Face.GlyphBounds` returns for one character. */
  datatype RawGlyph = RawGlyph(bounds: Rect, advance: Int26_6, found: bool)

  /** What `Face.Metrics` returns. */
  datatype RawFaceMetrics = RawFaceMetrics(
    height: Int26_6, ascent: Int26_6, descent: Int26_6,
    xHeight: Int26_6, capHeight: Int26_6, caretSlope: (int, int))

  /** The font face oracle (`font.Face`). */
  datatype Face = Face(glyphBounds: char -> RawGlyph, metrics: RawFaceMetrics)

  /**
   * `TypeFace`, restricted to what metrics and placement read: colours, the
   * background stroke and the draw2d font data are opaque rendering payload.
   */
  datatype TypeFace = TypeFace(
    name: string, size: real, spacing: real, face: Face, strokeWidth: real)

  datatype GlyphMetrics = GlyphMetrics(
    ascent: real, descent: real, bearingLeft: real, bearingRight: real, advance: real)

  datatype FaceMetrics = FaceMetrics(
    ascent: real, descent: real, height: real, xHeight: real, capHeight: real,
    caretSlope: (int, int))

  datatype GlyphBounds = GlyphBounds(
    blX: real, blY: real, tlX: real, tlY: real,
    trX: real, trY: real, brX: real, brY: real)

  /**
   * The metrics computed from the face on a cache miss in `GetGlyphMetrics`:
   * ascent above and descent below the baseline, and the advance, each the
   * exact value of its 26.6 source unless that is the overflowing -2³¹.
   */
  function GlyphMetricsOf(face: Face, ch: char): (gm: GlyphMetrics)
  {
    var g := face.glyphBounds(ch);
    GlyphMetrics(
      Unfix(Neg32(g.bounds.minY)),
      Unfix(g.bounds.maxY),
      Unfix(g.bounds.minX),
      Unfix(Sub32(g.advance, g.bounds.maxX)),
      Unfix(g.advance))
  }

  /**
   * The bounds computed from the face on a cache miss in `GetGlyphBounds`:
   * an axis-aligned box whose top, left-top, right and bottom share
   * coordinates.
   */
  function GlyphBoundsOf(face: Face, ch: char): (b: GlyphBounds)
    ensures b.tlX == b.trX == b.brX
    ensures b.blY == b.tlY == b.brY
    ensures var r := face.glyphBounds(ch).bounds;
      && b.blX == Unfix(r.minX) && b.tlX == Unfix(r.maxX)
      && b.blY == Unfix(Neg32(r.minY)) && b.trY == Unfix(r.maxY)
  {
    var r := face.glyphBounds(ch).bounds;
    var left, right := Unfix(r.minX), Unfix(r.maxX);
    var top, bottom := Unfix(Neg32(r.minY)), Unfix(r.maxY);
    GlyphBounds(left, top, right, top, right, bottom, right, top)
  }

  /**
   * The face metrics computed on a cache miss in `GetFaceMetrics`: each
   * length the exact value of its 26.6 source unless that is -2³¹, and the
   * caret slope passed through.
   */
  function FaceMetricsOf(face: Face): (fm: FaceMetrics)
    ensures var m := face.metrics;
      && (m.ascent != MinInt32 ==> fm.ascent == m.ascent as real / 64.0)
      && (m.descent != MinInt32 ==> fm.descent == m.descent as real / 64.0)
      && (m.height != MinInt32 ==> fm.height == m.height as real / 64.0)
      && (m.xHeight != MinInt32 ==> fm.xHeight == m.xHeight as real / 64.0)
      && (m.capHeight != MinInt32 ==> fm.capHeight == m.capHeight as real / 64.0)
      && fm.caretSlope == m.caretSlope
  {
    var m := face.metrics;
    UnfixExact(m.ascent);
    UnfixExact(m.descent);
    UnfixExact(m.height);
    UnfixExact(m.xHeight);
    UnfixExact(m.capHeight);
    FaceMetrics(Unfix(m.ascent), Unfix(m.descent), Unfix(m.height),
                Unfix(m.xHeight), Unfix(m.capHeight), m.caretSlope)
  }

  /** Glyph cache key: the formatted "name.size.char" string, as a record. */
  datatype GlyphKey = Uncached | Key(name: string, size: real, ch: char)

  /** Face cache key: the formatted "name.size" string, as a record. */
  datatype FaceKey = FaceKey(name: string, size: real)

  /**
   * `glyphCacheKey`: caching is enabled exactly for named faces. (The source's
   * second test, that the character converts to an empty string, can never
   * succeed and is not modelled.)
   */
  function GlyphCacheKey(tf: TypeFace, ch: char): (res: (GlyphKey, bool))
    ensures res.1 <==> tf.name != ""
    ensures res.1 ==> res.0 == Key(tf.name, tf.size, ch)
    ensures !res.1 ==> res.0 == Uncached
  {
    if tf.name == "" then (Uncached, false)
    else (Key(tf.name, tf.size, ch), true)
  }

  /** `GetGlyphWidth` on an uncached face: the advance rounded to two decimals. */
  function GlyphWidth(face: Face, ch: char): (w: real) {
    Round2(GlyphMetricsOf(face, ch).advance)
  }

  /** Sum of the rounded advances of the characters of `text`, left to right. */
  function AdvanceSum(face: Face, text: string): (sum: real)
    decreases |text|
  {
    if text == [] then 0.0
    else AdvanceSum(face, text[..|text| - 1]) + GlyphWidth(face, text[|text| - 1])
  }

  lemma AdvanceSumStep(face: Face, text: string, i: nat)
    requires i < |text|
    ensures AdvanceSum(face, text[..i + 1]) == AdvanceSum(face, text[..i]) + GlyphWidth(face, text[i])
  {
    assert text[..i + 1][..i] == text[..i];
  }

  /** Left plus right side bearing of one glyph. */
  function Bearings(face: Face, ch: char): (bearings: real) {
    var b := GlyphMetricsOf(face, ch);
    b.bearingRight + b.bearingLeft
  }

  /**
   * The unrounded width of `text`: the rounded advances of all characters,
   * plus both bearings of the last one.
   */
  function InkWidth(face: Face, text: string): (w: real) {
    var overhang := if text == [] then 0.0 else Bearings(face, text[|text| - 1]);
    AdvanceSum(face, text) + overhang
  }

  /** `GetTextWidth`: the ink width rounded to two decimals. */
  function TextWidth(face: Face, text: string): (w: real) {
    Round2(InkWidth(face, text))
  }

  /** The two vertical extents `GetTextHeight` folds over. */
  datatype Extent = Ascent | Descent

  function ExtentOf(face: Face, ch: char, which: Extent): (e: real) {
    var m := GlyphMetricsOf(face, ch);
    if which == Ascent then m.ascent else m.descent
  }

  /** The running maximum of one extent in `GetTextHeight`, starting from 0. */
  function MaxExtent(face: Face, text: string, which: Extent): (e: real)
    decreases |text|
  {
    if text == [] then 0.0
    else
      var m := MaxExtent(face, text[..|text| - 1], which);
      var e := ExtentOf(face, text[|text| - 1], which);
      if e > m then e else m
  }

  /** `GetTextHeight`: the rounded maximum ascent and maximum descent. */
  function TextHeight(face: Face, text: string): (extents: (real, real)) {
    (Round2(MaxExtent(face, text, Ascent)), Round2(MaxExtent(face, text, Descent)))
  }

  /** The running maximum is at least 0 and at least every character's extent. */
  lemma {:induction false} MaxExtentUpper(face: Face, text: string, which: Extent)
    ensures MaxExtent(face, text, which) >= 0.0
    ensures forall i :: 0 <= i < |text| ==> ExtentOf(face, text[i], which) <= MaxExtent(face, text, which)
    decreases |text|
  {
    if text != [] {
      var init := text[..|text| - 1];
      MaxExtentUpper(face, init, which);
      forall i | 0 <= i < |init|
        ensures ExtentOf(face, text[i], which) <= MaxExtent(face, text, which)
      {
        assert text[i] == init[i];
      }
    }
  }

  /** The running maximum is 0 or the extent of some character of the text. */
  lemma {:induction false} MaxExtentAttained(face: Face, text: string, which: Extent)
    ensures MaxExtent(face, text, which) == 0.0 ||
            exists i :: 0 <= i < |text| && MaxExtent(face, text, which) == ExtentOf(face, text[i], which)
    decreases |text|
  {
    if text != [] {
      var init := text[..|text| - 1];
      var last := |text| - 1;
      var m := MaxExtent(face, init, which);
      if ExtentOf(face, text[last], which) > m {
        assert MaxExtent(face, text, which) == ExtentOf(face, text[last], which);
      } else {
        MaxExtentAttained(face, init, which);
        if m != 0.0 {
          var j :| 0 <= j < |init| && m == ExtentOf(face, init[j], which);
          assert text[j] == init[j];
          assert MaxExtent(face, text, which) == ExtentOf(face, text[j], which);
        }
      }
    }
  }

  /** The maximum does not depend on the order of the characters. */
  lemma MaxExtentOrderFree(face: Face, a: string, b: string, which: Extent)
    requires multiset(a) == multiset(b)
    ensures MaxExtent(face, a, which) == MaxExtent(face, b, which)
  {
    MaxExtentBelow(face, a, b, which);
    MaxExtentBelow(face, b, a, which);
  }

  lemma MaxExtentBelow(face: Face, a: string, b: string, which: Extent)
    requires multiset(a) == multiset(b)
    ensures MaxExtent(face, b, which) <= MaxExtent(face, a, which)
  {
    MaxExtentUpper(face, a, which);
    MaxExtentAttained(face, b, which);
    var mb := MaxExtent(face, b, which);
    if mb != 0.0 {
      var j :| 0 <= j < |b| && mb == ExtentOf(face, b[j], which);
      assert b[j] in multiset(a);
      var i :| 0 <= i < |a| && a[i] == b[j];
    }
  }

  /** `GetTextHeight` is (0, 0) for the empty text and independent of character order. */
  lemma TextHeightOrderFree(face: Face, a: string, b: string)
    requires multiset(a) == multiset(b)
    ensures TextHeight(face, a) == TextHeight(face, b)
    ensures TextHeight(face, []) == (0.0, 0.0)
  {
    MaxExtentOrderFree(face, a, b, Ascent);
    MaxExtentOrderFree(face, a, b, Descent);
    Round2Zero();
  }

  /** The advance sum is additive over concatenation. */
  lemma {:induction false} AdvanceSumAppend(face: Face, a: string, b: string)
    ensures AdvanceSum(face, a + b) == AdvanceSum(face, a) + AdvanceSum(face, b)
    decreases |b|
  {
    if b == [] {
      assert a + b == a;
    } else {
      var init := b[..|b| - 1];
      AdvanceSumAppend(face, a, init);
      assert (a + b)[..|a + b| - 1] == a + init;
    }
  }

  /** `GetTextWidth` of the empty text is 0. */
  lemma TextWidthEmpty(face: Face)
    ensures TextWidth(face, []) == 0.0
  {
    Round2Zero();
  }

  /**
   * When no coordinate is the most negative int32 and the right-bearing
   * subtraction does not overflow, the glyph metrics are the exact fixed-point
   * values, and left bearing, ink width and right bearing add up to the advance.
   */
  lemma GlyphMetricsGeometry(face: Face, ch: char)
    requires var g := face.glyphBounds(ch);
      && g.bounds.minX != MinInt32 && g.bounds.minY != MinInt32
      && g.bounds.maxY != MinInt32 && g.advance != MinInt32
      && -0x8000_0000 < g.advance - g.bounds.maxX < 0x8000_0000
    ensures var g, m := face.glyphBounds(ch), GlyphMetricsOf(face, ch);
      && m.ascent == -(g.bounds.minY as real) / 64.0
      && m.descent == g.bounds.maxY as real / 64.0
      && m.advance == g.advance as real / 64.0
      && m.bearingLeft + (g.bounds.maxX - g.bounds.minX) as real / 64.0 + m.bearingRight == m.advance
  {
    var g := face.glyphBounds(ch);
    UnfixExact(Neg32(g.bounds.minY));
    UnfixExact(g.bounds.maxY);
    UnfixExact(g.bounds.minX);
    UnfixExact(Sub32(g.advance, g.bounds.maxX));
    UnfixExact(g.advance);
  }

  /** The face that the registry holds under a (name, size) pair. */
  ghost predicate Resolved(tf: TypeFace, faces: (string, real) -> Face) {
    faces(tf.name, tf.size) == tf.face
  }

  /**
   * The get-or-compute discipline of the three caches: a hit on a cacheable
   * key returns the stored value and leaves the map alone; anything else
   * returns the freshly computed value and stores it under the key.
   */
  ghost predicate GetOrCompute<K, V>(before: map<K, V>, after: map<K, V>, key: K, cacheable: bool,
                                     computed: V, result: V)
  {
    if cacheable && key in before then result == before[key] && after == before
    else result == computed && after == before[key := result]
  }

  /** A second lookup of a cacheable key returns the first result, whatever the face would compute. */
  lemma GetOrComputeIdempotent<K, V>(m0: map<K, V>, m1: map<K, V>, m2: map<K, V>, key: K,
                                     computed1: V, computed2: V, v1: V, v2: V)
    requires GetOrCompute(m0, m1, key, true, computed1, v1)
    requires GetOrCompute(m1, m2, key, true, computed2, v2)
    ensures v2 == v1 && m2 == m1
  {
  }

  ghost predicate MetricsCoherent(m: map<GlyphKey, GlyphMetrics>, faces: (string, real) -> Face) {
    forall k :: k in m && k.Key? ==> m[k] == GlyphMetricsOf(faces(k.name, k.size), k.ch)
  }

  ghost predicate BoundsCoherent(m: map<GlyphKey, GlyphBounds>, faces: (string, real) -> Face) {
    forall k :: k in m && k.Key? ==> m[k] == GlyphBoundsOf(faces(k.name, k.size), k.ch)
  }

  ghost predicate FaceMetricsCoherent(m: map<FaceKey, FaceMetrics>, faces: (string, real) -> Face) {
    forall k :: k in m ==> m[k] == FaceMetricsOf(faces(k.name, k.size))
  }

  /**
   * Memoisation is transparent: a glyph-metrics lookup in a coherent cache
   * for a face the registry resolves yields what the face computes, and
   * leaves the cache coherent.
   */
  lemma MetricsLookup(before: map<GlyphKey, GlyphMetrics>, after: map<GlyphKey, GlyphMetrics>,
                      faces: (string, real) -> Face, tf: TypeFace, ch: char, gm: GlyphMetrics)
    requires MetricsCoherent(before, faces) && Resolved(tf, faces)
    requires GetOrCompute(before, after, GlyphCacheKey(tf, ch).0, GlyphCacheKey(tf, ch).1,
                          GlyphMetricsOf(tf.face, ch), gm)
    ensures gm == GlyphMetricsOf(tf.face, ch)
    ensures MetricsCoherent(after, faces)
  {
    var (key, ok) := GlyphCacheKey(tf, ch);
    if !(ok && key in before) {
      forall k | k in after && k.Key?
        ensures after[k] == GlyphMetricsOf(faces(k.name, k.size), k.ch)
      {
        if k != key {
          assert after[k] == before[k];
        }
      }
    }
  }

  /** The same for the glyph-bounds cache. */
  lemma BoundsLookup(before: map<GlyphKey, GlyphBounds>, after: map<GlyphKey, GlyphBounds>,
                     faces: (string, real) -> Face, tf: TypeFace, ch: char, gb: GlyphBounds)
    requires BoundsCoherent(before, faces) && Resolved(tf, faces)
    requires GetOrCompute(before, after, GlyphCacheKey(tf, ch).0, GlyphCacheKey(tf, ch).1,
                          GlyphBoundsOf(tf.face, ch), gb)
    ensures gb == GlyphBoundsOf(tf.face, ch)
    ensures BoundsCoherent(after, faces)
  {
    var (key, ok) := GlyphCacheKey(tf, ch);
    if !(ok && key in before) {
      forall k | k in after && k.Key?
        ensures after[k] == GlyphBoundsOf(faces(k.name, k.size), k.ch)
      {
        if k != key {
          assert after[k] == before[k];
        }
      }
    }
  }

  /** The same for the face-metrics cache, whose key is always cacheable. */
  lemma FaceMetricsLookup(before: map<FaceKey, FaceMetrics>, after: map<FaceKey, FaceMetrics>,
                          faces: (string, real) -> Face, tf: TypeFace, fm: FaceMetrics)
    requires FaceMetricsCoherent(before, faces) && Resolved(tf, faces)
    requires GetOrCompute(before, after, FaceKey(tf.name, tf.size), true, FaceMetricsOf(tf.face), fm)
    ensures fm == FaceMetricsOf(tf.face)
    ensures FaceMetricsCoherent(after, faces)
  {
    var key := FaceKey(tf.name, tf.size);
    if key !in before {
      forall k | k in after
        ensures after[k] == FaceMetricsOf(faces(k.name, k.size))
      {
        if k != key {
          assert after[k] == before[k];
        }
      }
    }
  }

  /**
   * A cache that kept every key and gained the i-th character's key holds
   * the keys of the first i + 1 characters.
   */
  lemma HeldStep<V>(m0: map<GlyphKey, V>, m1: map<GlyphKey, V>, tf: TypeFace, text: string, i: nat)
    requires i < |text|
    requires forall j :: 0 <= j < i ==> GlyphCacheKey(tf, text[j]).0 in m0
    requires m0.Keys <= m1.Keys && GlyphCacheKey(tf, text[i]).0 in m1
    ensures forall j :: 0 <= j <= i ==> GlyphCacheKey(tf, text[j]).0 in m1
  {
  }

  /**
   * The three process-wide caches `cache_glyphmetrics`, `cache_glyphbounds`
   * and `cache_facemetrics`. Entries are never removed.
   */
  class MetricsCache {
    var glyphMetrics: map<GlyphKey, GlyphMetrics>
    var glyphBounds: map<GlyphKey, GlyphBounds>
    var faceMetrics: map<FaceKey, FaceMetrics>

    constructor ()
      ensures glyphMetrics == map[] && glyphBounds == map[] && faceMetrics == map[]
    {
      glyphMetrics, glyphBounds, faceMetrics := map[], map[], map[];
    }

    /**
     * Every entry under a real key holds what the face registered under that
     * key's name and size computes. Entries under `Uncached` are never read.
     */
    ghost predicate Coherent(faces: (string, real) -> Face)
      reads this
    {
      && MetricsCoherent(glyphMetrics, faces)
      && BoundsCoherent(glyphBounds, faces)
      && FaceMetricsCoherent(faceMetrics, faces)
    }

    /** Every character of `text` has an entry under its glyph key. */
    ghost predicate HoldsGlyphs(tf: TypeFace, text: string)
      reads this
    {
      forall i :: 0 <= i < |text| ==> GlyphCacheKey(tf, text[i]).0 in glyphMetrics
    }

    /**
     * `GetGlyphMetrics`: get-or-compute on the glyph-metrics cache; a face
     * without a name always consults the face and stores under `Uncached`.
     */
    method GetGlyphMetrics(tf: TypeFace, ch: char) returns (gm: GlyphMetrics)
      modifies this`glyphMetrics
      ensures GetOrCompute(old(glyphMetrics), glyphMetrics, GlyphCacheKey(tf, ch).0,
                           GlyphCacheKey(tf, ch).1, GlyphMetricsOf(tf.face, ch), gm)
      ensures GlyphCacheKey(tf, ch).0 in glyphMetrics && glyphMetrics[GlyphCacheKey(tf, ch).0] == gm
      ensures old(glyphMetrics).Keys <= glyphMetrics.Keys
    {
      var cacheKey, ok := GlyphCacheKey(tf, ch).0, GlyphCacheKey(tf, ch).1;
      if ok {
        if cacheKey in glyphMetrics {
          return glyphMetrics[cacheKey];
        }
      }
      gm := GlyphMetricsOf(tf.face, ch);
      glyphMetrics := glyphMetrics[cacheKey := gm];
    }

    /** `GetGlyphBounds`: get-or-compute on the glyph-bounds cache. */
    method GetGlyphBounds(tf: TypeFace, ch: char) returns (gb: GlyphBounds)
      modifies this`glyphBounds
      ensures GetOrCompute(old(glyphBounds), glyphBounds, GlyphCacheKey(tf, ch).0,
                           GlyphCacheKey(tf, ch).1, GlyphBoundsOf(tf.face, ch), gb)
      ensures GlyphCacheKey(tf, ch).0 in glyphBounds && glyphBounds[GlyphCacheKey(tf, ch).0] == gb
      ensures old(glyphBounds).Keys <= glyphBounds.Keys
    {
      var cacheKey, ok := GlyphCacheKey(tf, ch).0, GlyphCacheKey(tf, ch).1;
      if ok {
        if cacheKey in glyphBounds {
          return glyphBounds[cacheKey];
        }
      }
      gb := GlyphBoundsOf(tf.face, ch);
      glyphBounds := glyphBounds[cacheKey := gb];
    }

    /**
     * `GetFaceMetrics`: the key "name.size" is never empty, so face metrics
     * are cached even for a face without a name.
     */
    method GetFaceMetrics(tf: TypeFace) returns (fm: FaceMetrics)
      modifies this`faceMetrics
      ensures GetOrCompute(old(faceMetrics), faceMetrics, FaceKey(tf.name, tf.size), true,
                           FaceMetricsOf(tf.face), fm)
      ensures FaceKey(tf.name, tf.size) in faceMetrics && faceMetrics[FaceKey(tf.name, tf.size)] == fm
      ensures old(faceMetrics).Keys <= faceMetrics.Keys
    {
      var cacheKey := FaceKey(tf.name, tf.size);
      if cacheKey in faceMetrics {
        return faceMetrics[cacheKey];
      }
      fm := FaceMetricsOf(tf.face);
      faceMetrics := faceMetrics[cacheKey := fm];
    }

    /** `GetGlyphWidth`: the glyph's advance, rounded to two decimals. */
    method GetGlyphWidth(tf: TypeFace, ch: char, ghost faces: (string, real) -> Face)
      returns (w: real)
      requires Coherent(faces) && Resolved(tf, faces)
      modifies this`glyphMetrics
      ensures Coherent(faces)
      ensures old(glyphMetrics).Keys <= glyphMetrics.Keys && GlyphCacheKey(tf, ch).0 in glyphMetrics
      ensures w == GlyphWidth(tf.face, ch)
    {
      ghost var before := glyphMetrics;
      var b := GetGlyphMetrics(tf, ch);
      MetricsLookup(before, glyphMetrics, faces, tf, ch, b);
      w := Round2(b.advance);
    }

    /** `GetTextWidth`: an accumulator loop over the characters of `text`. */
    method GetTextWidth(tf: TypeFace, text: string, ghost faces: (string, real) -> Face)
      returns (width: real)
      requires Coherent(faces) && Resolved(tf, faces)
      modifies this`glyphMetrics
      ensures Coherent(faces)
      ensures old(glyphMetrics).Keys <= glyphMetrics.Keys && HoldsGlyphs(tf, text)
      ensures width == TextWidth(tf.face, text)
    {
      var w := 0.0;
      var i := 0;
      while i < |text|
        invariant 0 <= i <= |text|
        invariant Coherent(faces)
        invariant old(glyphMetrics).Keys <= glyphMetrics.Keys
        invariant forall j :: 0 <= j < i ==> GlyphCacheKey(tf, text[j]).0 in glyphMetrics
        invariant i < |text| ==> w == AdvanceSum(tf.face, text[..i])
        invariant i == |text| ==> w == InkWidth(tf.face, text)
      {
        AdvanceSumStep(tf.face, text, i);
        ghost var seen := glyphMetrics;
        w := AddGlyphWidth(tf, text, i, w, faces);
        HeldStep(seen, glyphMetrics, tf, text, i);
        if i + 1 == |text| {
          assert text[..i + 1] == text;
        }
        i := i + 1;
      }
      width := Round2(w);
    }

    /**
     * One step of the `GetTextWidth` loop: add the i-th character's width
     * and, for the last character, both its bearings, through the cache.
     */
    method AddGlyphWidth(tf: TypeFace, text: string, i: nat, w0: real, ghost faces: (string, real) -> Face)
      returns (w: real)
      requires i < |text|
      requires Coherent(faces) && Resolved(tf, faces)
      modifies this`glyphMetrics
      ensures Coherent(faces)
      ensures old(glyphMetrics).Keys <= glyphMetrics.Keys && GlyphCacheKey(tf, text[i]).0 in glyphMetrics
      ensures i + 1 < |text| ==> w == w0 + GlyphWidth(tf.face, text[i])
      ensures i + 1 == |text| ==> w == w0 + GlyphWidth(tf.face, text[i]) + Bearings(tf.face, text[i])
    {
      var c := text[i];
      var gw := GetGlyphWidth(tf, c, faces);
      w := w0 + gw;
      if i + 1 == |text| {
        ghost var before := glyphMetrics;
        var b := GetGlyphMetrics(tf, c);
        MetricsLookup(before, glyphMetrics, faces, tf, c, b);
        w := w + b.bearingRight + b.bearingLeft;
      }
    }

    /** `GetTextHeight`: running maxima of ascent and descent, rounded. */
    method GetTextHeight(tf: TypeFace, text: string, ghost faces: (string, real) -> Face)
      returns (ascent: real, descent: real)
      requires Coherent(faces) && Resolved(tf, faces)
      modifies this`glyphMetrics
      ensures Coherent(faces)
      ensures old(glyphMetrics).Keys <= glyphMetrics.Keys && HoldsGlyphs(tf, text)
      ensures (ascent, descent) == TextHeight(tf.face, text)
    {
      var maxAscent, maxDescent := 0.0, 0.0;
      var i := 0;
      while i < |text|
        invariant 0 <= i <= |text|
        invariant Coherent(faces)
        invariant old(glyphMetrics).Keys <= glyphMetrics.Keys
        invariant forall j :: 0 <= j < i ==> GlyphCacheKey(tf, text[j]).0 in glyphMetrics
        invariant maxAscent == MaxExtent(tf.face, text[..i], Ascent)
        invariant maxDescent == MaxExtent(tf.face, text[..i], Descent)
      {
        ghost var before := glyphMetrics;
        var b := GetGlyphMetrics(tf, text[i]);
        MetricsLookup(before, glyphMetrics, faces, tf, text[i], b);
        HeldStep(before, glyphMetrics, tf, text, i);
        assert text[..i + 1][..i] == text[..i];
        if b.ascent > maxAscent {
          maxAscent := b.ascent;
        }
        if b.descent > maxDescent {
          maxDescent := b.descent;
        }
        i := i + 1;
      }
      assert text[..|text|] == text;
      ascent, descent := Round2(maxAscent), Round2(maxDescent);
    }
  }
}
