# go-text placement core, in Dafny

This project models the core of the Go library `go-text`, which draws map
labels along polylines. It covers:

- **The placement walk** (`text/text_along_line.go`). `GetLineData` cuts the
  path into segments, with displacement, angle and length. `getCharMetrics`
  gives each character its width: the rounded advance plus the face's
  spacing. `calculateLetterPositions` walks the segments and the characters
  together. It places a character while the length left on the segment is
  strictly more than half the character's width. It carries a "nudge"
  across a vertex when a character fails at the end of a segment.
  `GetLetterPositions` reports an error when some character was not placed.
  `TextAlongLine` turns positions into glyphs.
- **Font metrics** (`fonts/utils.go`):
  - `unfix` on 26.6 fixed point, with its 32-bit overflow;
  - the glyph-metrics, glyph-bounds and face-metrics caches, which are maps
    updated in place (class `Fonts.MetricsCache`);
  - `glyphCacheKey`, `GetGlyphWidth`, `GetTextWidth` and `GetTextHeight`.
- **The two-line label splitter** (`text/text.go`): `ShouldSplit` and
  `SplitStringInTwo`.
- **The debug outlines** (`text/text_along_line_debug.go`): the glyph box
  around each letter and `rotateAroundPoint`.
- **The font registry** (`fonts/cache.go`): `Store`, `Load` and the `init`
  that registers "regular" and "bold".

Trigonometry is not computed. `Maths.Trig` is a record of caller-supplied
functions (`sin`, `cos`, `atan2`, `sqrt`, `pi`). A lemma that needs a fact
about them takes it as a precondition: sin² + cos² = 1 (`Pythagorean`), or
that cos is even and sin is odd (`Parity`). The font face is an oracle too:
`Fonts.Face` holds a function from characters to raw glyph bounds, and the
raw face metrics.

Where the Go code loops and updates variables, the model is imperative Dafny:

- `AlongLine.CalculateLetterPositions` and `AlongLine.WalkSegment`;
- `TextSplit.SpacePositions` and `TextSplit.NearestSpace`;
- the accumulator loops of `Fonts.MetricsCache`;
- `AlongLineDebug.OutlineLetters`;
- `FontCache.InitFontCache`.

Each such method, except two, is proved equal to a functional
specification, and the properties are lemmas about those functions.
`FontCache.InitFontCache` and `AlongLine.PlaceGlyphs` state their results
directly in their postconditions. The walk's specification is:

- `Greedy` fills one segment, stopping at the first character that fails.
- `PlaceOnSegment` adds the segment start-up and the nudge the segment
  leaves.
- `WalkFrom` and `Letters` fold over the segments.

In Go, the inner loop does not break when a character fails: it re-tests the
same character for the rest of its iterations. `WalkSegment` keeps that
loop, and it is proved to give the early-break result.

## Model

| member | source | states |
|---|---|---|
| Maths.Round2 | fonts/utils.go:84 | `math.Round(x*100)/100` is on the 0.01 grid and within 0.005 of `x`, strictly so on the side of zero, so halves round away from zero |
| Maths.Round2Unique | fonts/utils.go:84 | those facts determine the result: any value on the grid meeting them is `Round2(x)` |
| Fonts.Neg32 | fonts/utils.go:213 | 32-bit negation is `-x`, except that the most negative value maps to itself |
| Fonts.Sub32 | fonts/utils.go:131 | 32-bit `advance - Max.X` is the exact difference whenever that difference fits in 32 bits |
| Fonts.Unfix | fonts/utils.go:205-219 | `unfix` keeps the sign: a non-negative value is non-negative, a negative one non-positive |
| Fonts.UnfixExact | fonts/utils.go:205-219 | `unfix(x)` is exactly x/64 for every 26.6 value except -2³¹; for -2³¹ the negation overflows and the result is 0 |
| Fonts.GlyphMetricsGeometry | fonts/utils.go:126-133 | away from overflow: ascent = -Min.Y/64, descent = Max.Y/64, advance = advance/64, and left bearing + ink width + right bearing = advance |
| Fonts.GlyphBoundsOf | fonts/utils.go:154-164 | TlX = TrX = BrX and BlY = TlY = BrY; BlX is `unfix(Min.X)`, TlX is `unfix(Max.X)`, BlY is `unfix(-Min.Y)` and TrY is `unfix(Max.Y)` |
| Fonts.FaceMetricsOf | fonts/utils.go:187-195 | ascent, descent, height, x-height and cap height are each the exact value of their 26.6 source (unless it is -2³¹), and the caret slope is passed through |
| Fonts.GlyphCacheKey | fonts/utils.go:256-269 | caching is enabled exactly when the face has a name; the key is then (name, size, char), and otherwise the one shared "empty" key |
| Fonts.GetOrComputeIdempotent | fonts/utils.go:116-124 | a second lookup of a cacheable key returns the first result and leaves the map as the first lookup left it |
| Fonts.MetricsLookup | fonts/utils.go:114-140 | a glyph-metrics lookup in a coherent cache yields what the face computes, and the cache stays coherent |
| Fonts.BoundsLookup | fonts/utils.go:142-171 | the same for the glyph-bounds cache |
| Fonts.FaceMetricsLookup | fonts/utils.go:175-202 | the same for the face-metrics cache |
| Fonts.MetricsCache.constructor | fonts/utils.go:58-62 | the three caches start empty |
| Fonts.MetricsCache.GetGlyphMetrics | fonts/utils.go:114-140 | a hit on a cacheable key returns the stored metrics and leaves the map unchanged; otherwise the face's metrics are returned and stored under the key, under the empty key when caching is off |
| Fonts.MetricsCache.GetGlyphBounds | fonts/utils.go:142-171 | the same get-or-compute discipline on the glyph-bounds cache |
| Fonts.MetricsCache.GetFaceMetrics | fonts/utils.go:175-202 | get-or-compute on the face-metrics cache under (name, size), a key that is always cacheable, even for an unnamed face |
| Fonts.MetricsCache.GetGlyphWidth | fonts/utils.go:79-85 | the glyph's advance rounded to two decimals; the cache stays coherent, keeps every key it had and now holds the glyph |
| Fonts.MetricsCache.GetTextWidth | fonts/utils.go:64-77 | the sum of the rounded advances, plus both bearings of the last character, rounded to two decimals; no key is dropped and every character's glyph is now cached |
| Fonts.MetricsCache.GetTextHeight | fonts/utils.go:87-102 | the running maxima of ascent and descent, starting from 0, each rounded to two decimals; no key is dropped and every character's glyph is now cached |
| Fonts.AdvanceSumStep | fonts/utils.go:67-68 | one loop step adds the next character's rounded advance |
| Fonts.AdvanceSumAppend | fonts/utils.go:64-77 | the advance sum is additive over concatenation |
| Fonts.TextWidthEmpty | fonts/utils.go:64-77 | the width of the empty text is 0 |
| Fonts.MaxExtentUpper | fonts/utils.go:89-99 | the running maximum is at least 0 and at least every character's extent |
| Fonts.MaxExtentAttained | fonts/utils.go:89-99 | the running maximum is 0 or the extent of some character |
| Fonts.MaxExtentOrderFree | fonts/utils.go:89-99 | the running maximum depends only on the multiset of characters |
| Fonts.TextHeightOrderFree | fonts/utils.go:87-102 | the text height does not depend on character order, and is (0, 0) for empty text |
| FontCache.Lookup | fonts/cache.go:21-42 | a load succeeds exactly when the name is stored, and returns the stored font; otherwise the error names the font |
| FontCache.MyFontCache.constructor | fonts/cache.go:45 | the registry starts empty |
| FontCache.MyFontCache.Store | fonts/cache.go:17-19 | the font data's name is (re)bound to the font, and nothing else changes |
| FontCache.MyFontCache.Load | fonts/cache.go:21-42 | the stored font when the name is registered; otherwise the "not stored" error naming the font |
| FontCache.InitFontCache | fonts/cache.go:44-61 | whatever the map's visiting order, exactly "regular" and "bold" are registered, each with its own font |
| FontCache.StoreThenLoad | fonts/cache.go:17-22 | after a store, loading any font data with the same name returns that font, whatever its other fields |
| FontCache.StoreKeepsOthers | fonts/cache.go:17-19 | a store leaves every other name's answer as it was |
| FontCache.StoreLastWins | fonts/cache.go:17-19 | storing twice under one name keeps the last font |
| FontCache.InitLoads | fonts/cache.go:47-58 | after init, "regular" and "bold" load, and any other name is an error |
| AlongLine.GetLineData | text/text_along_line.go:148-178 | max(0, n-1) segments for n vertices, zero-length ones included; segment i has displacement pts[i+1] - pts[i] |
| AlongLine.Segment | text/text_along_line.go:155-167 | the segment's displacement carries its start to its end; its angle is `Atan2(dy, dx)` in degrees and its length `Sqrt(dx² + dy²)` of that displacement |
| AlongLineLemmas.SegmentMeasures | text/text_along_line.go:155-167 | each segment's angle is `Atan2(dy, dx)` in degrees, and its length is `Sqrt(dx² + dy²)` |
| AlongLineLemmas.SegmentsRebuildPath | text/text_along_line.go:153-175 | adding the first k displacements to the first vertex gives vertex k |
| AlongLineLemmas.ShortPathPlacesNothing | text/text_along_line.go:148-178 | a path of fewer than two vertices has no segments, so nothing is placed |
| AlongLine.CharMetricsOf | text/text_along_line.go:132-144 | one entry per character, in order; the width is the rounded advance plus spacing |
| AlongLine.GetCharMetrics | text/text_along_line.go:132-144 | the loop through the caches yields exactly those entries; the caches stay coherent, keep every key and now hold every character's glyph |
| AlongLine.Greedy | text/text_along_line.go:87-126 | filling a segment places a contiguous run of the next characters, one position per character placed; nothing is placed when the first character fails |
| AlongLine.GreedyAppends | text/text_along_line.go:108-113 | earlier positions are kept; each new position carries the next character and the segment angle |
| AlongLine.GreedyStuck | text/text_along_line.go:107 | once a character fails, the segment places nothing more, wherever the pen is |
| AlongLineLemmas.GreedyFits | text/text_along_line.go:107-122 | every placed character had remainder > width/2, strictly; the remainder drops by each width; the first unplaced character fails the test |
| AlongLineLemmas.GreedyPen | text/text_along_line.go:115-117 | the pen ends the placed widths further along the segment direction (cos a, sin a) |
| AlongLineLemmas.GreedyAnchorAt | text/text_along_line.go:82-83 | the k-th placed position is the pen after the earlier widths, minus the perpendicular offset (sin a·H/3, -cos a·H/3) |
| AlongLine.PlaceOnSegment | text/text_along_line.go:76-126 | a segment appends positions for the next characters in order, at the segment angle, and keeps the walk in label order |
| AlongLineLemmas.SegmentNudge | text/text_along_line.go:123-125 | a nudge is left only when a character fails after at least one was placed on the segment; a segment that places nothing leaves none, so a pending nudge is lost |
| AlongLineLemmas.NudgeContinuity | text/text_along_line.go:96-105 | on a straight continuation, the next segment's first character starts where the pen stopped, with the unused length carried over |
| AlongLineLemmas.EmptySegmentPlacesNothing | text/text_along_line.go:85-107 | with no pending nudge, a zero-length segment places nothing and changes nothing |
| AlongLineLemmas.LongSegmentPlacesAll | text/text_along_line.go:85-122 | a segment at least as long as the remaining widths places every remaining character |
| AlongLineLemmas.LongPathFitsLabel | text/text_along_line.go:59-130 | on a one-segment path at least as long as the label, every character is placed |
| AlongLine.WalkFrom | text/text_along_line.go:74-127 | the walk over the remaining segments never moves backwards and keeps label order |
| AlongLine.Letters | text/text_along_line.go:59-130 | at most one position per character; the k-th position carries the k-th character |
| AlongLineLemmas.WalkInOrder | text/text_along_line.go:87-122 | the whole walk yields one position per placed character, in label order |
| AlongLine.WalkSegment | text/text_along_line.go:76-126 | the Go inner loop, which does not break on a failing character, gives the early-break result `PlaceOnSegment` |
| AlongLine.EnterSegment | text/text_along_line.go:96-105 | at a segment's first character, the pen resets to the vertex; a pending nudge shortens the remainder, moves the pen along the segment, and is cleared |
| AlongLine.PlaceChar | text/text_along_line.go:107-122 | a placed character appends its anchor; the pen advances by the width along the segment, and the remainder drops by the width |
| AlongLine.CalculateLetterPositions | text/text_along_line.go:59-130 | the Go loops yield exactly `Letters` for the face height; the caches stay coherent, keep every key, and now hold every glyph and the face's metrics |
| AlongLine.GetLetterPositions | text/text_along_line.go:41-57 | the partial positions are always returned; the "does not fit" error, with the counts, face height and spacing, comes exactly when fewer positions than characters were produced; no cache key is dropped and every glyph and the face's metrics are now cached |
| AlongLine.TextAlongLine | text/text_along_line.go:18-39 | no glyphs and the error when the label does not fit; otherwise glyph i is character i at position i and its angle; the caches keep every key and now hold every glyph and the face's metrics |
| AlongLine.PlaceGlyphs | text/text_along_line.go:24-36 | glyph i is character i at position i's anchor and angle |
| AlongLineLemmas.HorizontalPath | text/text_along_line.go:148-178 | given atan2(0, len) = 0 and a square root that returns len, the path from the origin to (len, 0) is one horizontal segment of length len |
| AlongLineLemmas.FiveOnLongSegment | text/text_along_line.go:59-130 | on the path from the origin to (1000, 0), a label of five characters 50 wide is placed whole, at x = 0, 50, …, 200 and y = H/3 |
| AlongLineLemmas.FiveOnShortSegment | text/text_along_line.go:59-130 | on the path from the origin to (120, 0), only the first two characters are placed, at x = 0 and 50, y = H/3, so the label does not fit |
| AlongLineLemmas.FiveOnShortSegmentNudge | text/text_along_line.go:96-125 | on that path the third character fails with 20 left of its 50, and the segment leaves a nudge of -20 |
| AlongLineDebug.FullSizeOfGlyph | text/text.go:57-63 | away from overflow, the full width is the left bearing plus the ink width plus the right bearing, and the full height is -Min.Y/64 |
| AlongLineDebug.Outline | text/text_along_line_debug.go:46-58 | with no stroke, the outline's first corner is the letter's anchor |
| AlongLineDebug.GlyphBox | text/text_along_line_debug.go:46-53 | the box is axis-aligned and closed (bottom-right level with bottom-left), as wide as the advance plus one stroke width and as tall as the ascent plus two, with its bottom-left corner at (x, y + stroke width) |
| AlongLineDebug.GlyphBoxSides | text/text_along_line_debug.go:46-53 | the box's sides have its width and height, and its diagonals are equal |
| AlongLineDebug.RotateAroundPoint | text/text_along_line_debug.go:74-80 | the origin is a fixed point |
| AlongLineDebug.RotatePreservesDistance | text/text_along_line_debug.go:76-77 | given sin² + cos² = 1, rotation keeps the squared distance between any two points, so in particular to the origin |
| AlongLineDebug.RotateBack | text/text_along_line_debug.go:76-77 | given sin² + cos² = 1 and parity, rotating by θ and then by -θ returns the point |
| AlongLineDebug.OutlineIsBoxSized | text/text_along_line_debug.go:46-58 | at any angle, the drawn outline is a rectangle of the box's width and height |
| AlongLineDebug.LevelOutlineIsBox | text/text_along_line_debug.go:55-58 | at angle 0 the outline is the unrotated box |
| AlongLineDebug.DrawGlyphOutlines | text/text_along_line_debug.go:16-72 | outlines only when the positions cover the whole label; then outline i is character i's box, turned about position i by its angle; the caches keep every key and now hold every glyph and the face's metrics |
| AlongLineDebug.OutlineLetters | text/text_along_line_debug.go:36-68 | the loop yields one outline per character, from the face's metrics; the cache stays coherent, keeps every key and now holds every character's glyph |
| TextSplit.Split | text/text.go:24 | `strings.Split` on a space yields one more word than there are spaces, and no word holds a space |
| TextSplit.SplitJoin | text/text.go:24 | joining the words with single spaces gives the text back |
| TextSplit.OneSpaceWords | text/text.go:23-25 | with exactly one space, the words are the text before it and the text after it |
| TextSplit.ShouldSplit | text/text.go:65-92 | a split needs at least 12 bytes and a space; a label of at least 12 bytes with two spaces or more is always split |
| TextSplit.ShouldSplitMeaning | text/text.go:65-92 | a split happens exactly when the label has at least 12 bytes and a space, and, when that is the only space, at least 4 bytes on each side of it |
| TextSplit.SpaceIndices | text/text.go:30-35 | the listed indices are below the bound and hold spaces |
| TextSplit.SpaceIndicesIncreasing | text/text.go:30-35 | the space positions are increasing |
| TextSplit.SpaceIndicesComplete | text/text.go:30-35 | every space is listed |
| TextSplit.SpaceIndicesCount | text/text.go:30-35 | there are `strings.Count` of them |
| TextSplit.Choose | text/text.go:38-49 | the loop keeps either its initial index or one of the listed spaces |
| TextSplit.SplitPointIsSpace | text/text.go:38-49 | with two spaces or more, the chosen index is a space, and cutting there gives the label back around it |
| TextSplit.SplitInTwoRoundTrip | text/text.go:51-54 | when a label with a space is split, part 0, a space and part 1 give the label back |
| TextSplit.SplitStringInTwo | text/text.go:15-55 | the label whole when `split` says no; the two words for one space; otherwise the cut at the loop's space; with no space at all, "" and the label without its first byte |
| TextSplit.SpacePositions | text/text.go:30-35 | the loop collects exactly the space indices, in order |
| TextSplit.NearestSpace | text/text.go:38-49 | the `dist`/`pos` loop, as written, computes `Choose` |
| TextSplit.BestSpaceUnique | text/text.go:37-49 | the intended split point is unique |
| TextSplit.SplitStringInTwoBalanced | text/text.go:37-54 | with two spaces or more, the label is cut at the earliest space nearest the midpoint |
| TextSplit.NearestToMiddle | text/text.go:38-49 | comparing each space with the midpoint finds the intended split point |
| TextSplit.ScanFindsBestSpace | text/text.go:38-49 | after every space has been measured against the midpoint, the kept one is the intended split point |
| TextSplitExamples.TwoWordLabel | text/text.go:80-91 | a two-word label is cut into its words exactly when it has at least 12 bytes and both words have at least 4 |
| TextSplitExamples.ThreeWordLabel | text/text.go:37-54 | a three-word label of at least 12 bytes is cut at whichever of its two spaces the loop picks |
| TextSplitExamples.TwoSpacesBest | text/text.go:37-49 | with exactly two spaces, the intended split point is the nearer one to the midpoint, the first on a tie |
| TextSplitExamples.StMarychurch | text/text_test.go:13-16 | "St Marychurch" stays whole |
| TextSplitExamples.Torquay | text/text_test.go:17-20 | "TORQUAY" stays whole |
| TextSplitExamples.BabbacombeBay | text/text_test.go:21-24 | "Babbacombe Bay" stays whole |
| TextSplitExamples.GreatHill | text/text_test.go:25-28 | "Great Hill" stays whole |
| TextSplitExamples.CombePalford | text/text_test.go:29-32 | "Combe Palford" becomes "Combe" and "Palford" |
| TextSplitExamples.PilsworthRoad | text/text_test.go:33-36 | "Pilsworth Road" becomes "Pilsworth" and "Road" |
| TextSplitExamples.RoyleBarnRoad | text/text_test.go:37-40 | "Royle Barn Road" becomes "Royle" and "Barn Road" |
| TextSplitExamples.SixBarnRoad | text/text_test.go:41-44 | "6 Barn Road" stays whole |
| TextSplitExamples.SplitDriftsFromMidpoint | text/text.go:38-49 | "Church Lane Industrial" is cut after "Church", although the space after "Lane" sits on the midpoint |

## Left out

- Labels are ASCII. Go mixes byte length with rune iteration. On a label with multi-byte characters the Go code indexes inconsistently, and can go out of range. Here a character is a byte.
- Floating point: all arithmetic is exact over `real`. `Sin`, `Cos`, `Atan2`, `Sqrt` and π are caller-supplied functions, and `math.Round` is exact rounding, half away from zero.
- The tables of float outputs from a real font, in the Go tests, are not modelled: the font is an oracle here.
- The font face (`GlyphBounds`, `Metrics`) and `truetype.Parse` are oracles. A parse failure in `init` (a panic) is not modelled.
- The cache keys are records. Go formats them as `%v` strings; two distinct (name, size) pairs are assumed to format differently.
- The `mutex` around the caches is left out: the caches are modelled single-threaded.
- Fonts.GlyphCacheKey: the `string(r) == ""` test can never succeed, so it is not modelled.
- The ghost `faces` registry and `Coherent` stand in for "the same name and size always mean the same face". Go relies on that without checking it.
- Drawing is not modelled: `DrawGlyphOutlines` returns the outlines instead of stroking them. The WKT text, the geos geometry, `geom.DrawLine` and its error, colours and draw2d contexts are left out, as are `GetFace` and `SetFont` (fonts/utils.go:222-254).
- The `runtime.Caller` location in the `Load` error message is not modelled; the error carries the font name only.
- Go visits the `init` map in an unspecified order. Here the order is a parameter of `FontCache.InitFontCache`.
- text/linedata.go and text/heart.go are not part of this model (string/WKT formatting and a test fixture generator). Nor are the `String` methods of text/types.go.
- TextSplit.SplitStringInTwo requires `split(s) ==> s != ""`. When `split` accepts the empty label, Go panics on `s[1:]`, and that panic is not modelled. `ShouldSplit` never accepts it.
- The `dist`/`pos` loop and the space loop are separate methods (`NearestSpace`, `SpacePositions`). Likewise, the two steps of the walk's inner loop are `EnterSegment` and `PlaceChar`. These methods run in the same order as the Go statements.
- Some loop bodies are methods of their own, in the same statement order as Go: `Fonts.MetricsCache.AddGlyphWidth` (one step of `GetTextWidth`), `AlongLine.GetCharMetric` (one step of `getCharMetrics`), `AlongLine.WalkSegments` (the outer loop of `calculateLetterPositions`, after the face metrics are fetched) and `AlongLineDebug.TurnBox` (the box and its four rotations in `DrawGlyphOutlines`).
- The example lemmas write each test label as its words joined by `" "`. This is the same string, written so that the proofs stay small.

## Findings

| source | as written | input that shows it | evidently intended | confidence | as-written member | corrected member |
|---|---|---|---|---|---|---|
| text/text.go:41 | `d := dist - o` measures each space against the best distance found so far, not against the midpoint `l/2` (`dist` only starts as `l/2`) | "Church Lane Industrial": 22 bytes, spaces at 6 and 11, midpoint 11. The first space gives dist 5; the second is measured as \|5 - 11\| = 6, not 0, and is rejected. Result: ["Church", "Lane Industrial"] | `d := l/2 - o`: the earliest space nearest the midpoint wins, giving ["Church Lane", "Industrial"] | not executed; high (the variable starts as the midpoint, and the comment says the loop decides which line each word goes on) | TextSplitExamples.SplitDriftsFromMidpoint | TextSplit.SplitStringInTwoBalanced |
