/**
 * The two-line label splitter of text/text.go: `ShouldSplit` decides whether
 * a label is long enough, and has suitable words, to go on two lines, and
 * `SplitStringInTwo` cuts it at one space.
 *
 * Labels are ASCII, so a byte index and a character index coincide and
 * `len(s)` is `|s|`.
 */
module TextSplit {

  function Abs(x: int): (a: nat) {
    if x < 0 then -x else x
  }

  /* ------------------------------------------------ strings.Count, strings.Split */

  /** `strings.Count(s, " ")`: the number of spaces. */
  function Count(s: string): (n: nat) {
    if s == [] then 0 else (if s[0] == ' ' then 1 else 0) + Count(s[1..])
  }

  lemma {:induction false} CountAppend(a: string, c: char)
    ensures Count(a + [c]) == Count(a) + if c == ' ' then 1 else 0
  {
    if a != [] {
      assert (a + [c])[1..] == a[1..] + [c];
      CountAppend(a[1..], c);
    }
  }

  /** `strings.Split(s, " ")`: the pieces between the spaces, empty ones included. */
  function Split(s: string): (words: seq<string>)
    ensures |words| == Count(s) + 1
    ensures forall k :: 0 <= k < |words| ==> ' ' !in words[k]
  {
    if s == [] then [[]]
    else
      var rest := Split(s[1..]);
      if s[0] == ' ' then [[]] + rest else [[s[0]] + rest[0]] + rest[1..]
  }

  /** The words put back together with single spaces. */
  function Join(words: seq<string>): (s: string)
    requires |words| >= 1
  {
    if |words| == 1 then words[0] else words[0] + " " + Join(words[1..])
  }

  /** Splitting at the spaces loses nothing: joining the words gives the text back. */
  lemma {:induction false} SplitJoin(s: string)
    ensures Join(Split(s)) == s
  {
    if s != [] {
      var rest := Split(s[1..]);
      SplitJoin(s[1..]);
      if s[0] == ' ' {
        assert ([[]] + rest)[1..] == rest;
        assert s == " " + s[1..];
      } else if |rest| == 1 {
        assert s == [s[0]] + s[1..];
      } else {
        var words := [[s[0]] + rest[0]] + rest[1..];
        assert words[1..] == rest[1..];
        assert Join(words) == ([s[0]] + rest[0]) + " " + Join(rest[1..]);
        assert Join(rest) == rest[0] + " " + Join(rest[1..]);
        assert s == [s[0]] + s[1..];
      }
    }
  }

  /** With exactly one space, `strings.Split` gives the text before it and the text after it. */
  lemma {:induction false} OneSpaceWords(s: string, i: nat)
    requires Count(s) == 1 && i < |s| && s[i] == ' '
    ensures Split(s) == [s[..i], s[i + 1..]]
  {
    var words := Split(s);
    SplitJoin(s);
    assert Join(words) == words[0] + " " + words[1];
    assert s[|words[0]|] == ' ';
    assert s[..i] == words[0];
    assert s[i + 1..] == words[1];
  }

  /* --------------------------------------------------------- ShouldSplit */

  /**
   * `ShouldSplit`: labels shorter than 12 bytes, and labels with no space,
   * stay on one line; a two-word label stays on one line when either word
   * is shorter than 4 bytes.
   */
  function ShouldSplit(s: string): (should: bool)
    ensures should ==> |s| >= 12 && Count(s) >= 1
    ensures |s| >= 12 && Count(s) >= 2 ==> should
  {
    if |s| < 12 then false
    else if Count(s) == 0 then false
    else
      var words := Split(s);
      if |words| == 2 && (|words[0]| < 4 || |words[1]| < 4) then false
      else true
  }

  /**
   * What `ShouldSplit` decides, stated on the positions of the spaces: at
   * least 12 bytes and a space, and, when that space is the only one, at
   * least 4 bytes before it and 4 after it.
   */
  lemma {:induction false} ShouldSplitMeaning(s: string)
    ensures ShouldSplit(s) <==>
      && |s| >= 12
      && Count(s) >= 1
      && (Count(s) == 1 ==> forall i :: 0 <= i < |s| && s[i] == ' ' ==> 4 <= i <= |s| - 5)
  {
    if |s| >= 12 && Count(s) == 1 {
      var words := Split(s);
      SplitJoin(s);
      assert Join(words) == words[0] + " " + words[1];
      var j := |words[0]|;
      assert s[j] == ' ';
      forall i | 0 <= i < |s| && s[i] == ' '
        ensures |words[0]| == i && |words[1]| == |s| - i - 1
      {
        OneSpaceWords(s, i);
      }
    }
  }

  /* ---------------------------------------------------- SplitStringInTwo */

  /** The indices below `n` that hold a space, in increasing order (the `sp` loop). */
  function SpaceIndices(s: string, n: nat): (sp: seq<nat>)
    requires n <= |s|
    ensures forall k :: 0 <= k < |sp| ==> sp[k] < n && s[sp[k]] == ' '
  {
    if n == 0 then [] else SpaceIndices(s, n - 1) + if s[n - 1] == ' ' then [n - 1] else []
  }

  /** `SpaceIndices` lists the spaces in increasing order. */
  lemma {:induction false} SpaceIndicesIncreasing(s: string, n: nat, a: nat, b: nat)
    requires n <= |s| && a < b < |SpaceIndices(s, n)|
    ensures SpaceIndices(s, n)[a] < SpaceIndices(s, n)[b]
  {
    if b < |SpaceIndices(s, n - 1)| {
      SpaceIndicesIncreasing(s, n - 1, a, b);
    }
  }

  /** `SpaceIndices` misses no space. */
  lemma {:induction false} SpaceIndicesComplete(s: string, n: nat, i: nat)
    requires i < n <= |s| && s[i] == ' '
    ensures i in SpaceIndices(s, n)
  {
    if i < n - 1 {
      SpaceIndicesComplete(s, n - 1, i);
    }
  }

  /** There are `strings.Count` spaces. */
  lemma {:induction false} SpaceIndicesCount(s: string, n: nat)
    requires n <= |s|
    ensures |SpaceIndices(s, n)| == Count(s[..n])
  {
    if n > 0 {
      SpaceIndicesCount(s, n - 1);
      assert s[..n] == s[..n - 1] + [s[n - 1]];
      CountAppend(s[..n - 1], s[n - 1]);
    }
  }

  lemma NoSpaceNoIndices(s: string)
    requires Count(s) == 0
    ensures SpaceIndices(s, |s|) == []
  {
    SpaceIndicesCount(s, |s|);
    assert s[..|s|] == s;
  }

  /**
   * The `dist`/`pos` loop as written: each space is compared with the
   * current best distance `dist`, which starts at `l/2` but afterwards
   * holds a distance, not the midpoint.
   */
  function Choose(sp: seq<nat>, j: nat, dist: int, pos: nat): (r: nat)
    requires j <= |sp|
    ensures r == pos || r in sp[j..]
    decreases |sp| - j
  {
    if j == |sp| then pos
    else
      var d := Abs(dist - sp[j]);
      if d < dist then Choose(sp, j + 1, d, sp[j]) else Choose(sp, j + 1, dist, pos)
  }

  /** What `SplitStringInTwo` returns. */
  function SplitInTwo(s: string, split: string -> bool): (parts: seq<string>)
    requires split(s) ==> s != ""
  {
    if !split(s) then [s]
    else if Count(s) == 1 then Split(s)
    else
      var p := Choose(SpaceIndices(s, |s|), 0, |s| / 2, 0);
      [s[..p], s[p + 1..]]
  }

  /**
   * With two spaces or more, the loop settles on a space: the first space
   * is either at index 0, or strictly closer to the midpoint than `l/2`.
   */
  lemma {:induction false} SplitPointIsSpace(s: string)
    requires Count(s) >= 2
    ensures var p := Choose(SpaceIndices(s, |s|), 0, |s| / 2, 0);
      p < |s| && s[p] == ' ' && s[..p] + " " + s[p + 1..] == s
  {
    var sp := SpaceIndices(s, |s|);
    SpaceIndicesCount(s, |s|);
    assert s[..|s|] == s;
    var m := |s| / 2;
    if sp[0] != 0 {
      SpaceIndicesIncreasing(s, |s|, 0, 1);
      assert sp[1] < |s|;
      assert Abs(m - sp[0]) < m;
      assert Choose(sp, 0, m, 0) == Choose(sp, 1, Abs(m - sp[0]), sp[0]);
    }
    var p := Choose(sp, 0, m, 0);
    assert s == s[..p] + [s[p]] + s[p + 1..];
  }

  /**
   * Whenever the label is split and has a space, the two parts with a
   * space between them give the label back.
   */
  lemma {:induction false} SplitInTwoRoundTrip(s: string, split: string -> bool)
    requires split(s) && Count(s) >= 1
    ensures var parts := SplitInTwo(s, split);
      |parts| == 2 && parts[0] + " " + parts[1] == s
  {
    if Count(s) == 1 {
      SplitJoin(s);
      var words := Split(s);
      assert Join(words) == words[0] + " " + words[1];
    } else {
      SplitPointIsSpace(s);
    }
  }

  /**
   * `SplitStringInTwo`: the label whole when `split` says no; the two words
   * of a one-space label; otherwise the label cut at the space the
   * `dist`/`pos` loop picks.
   */
  method SplitStringInTwo(s: string, split: string -> bool) returns (parts: seq<string>)
    requires split(s) ==> s != ""
    ensures parts == SplitInTwo(s, split)
    ensures !split(s) ==> parts == [s]
    ensures split(s) && Count(s) == 0 ==> parts == ["", s[1..]]
  {
    if !split(s) {
      return [s];
    }

    var n := Count(s);
    if n == 1 {
      return Split(s);
    }

    var l := |s|;
    var sp := SpacePositions(s);
    var pos := NearestSpace(sp, l);
    if n == 0 {
      NoSpaceNoIndices(s);
    }
    return [s[0..pos], s[pos + 1..]];
  }

  /** The `sp` loop of `SplitStringInTwo`: the positions of the spaces. */
  method SpacePositions(s: string) returns (sp: seq<nat>)
    ensures sp == SpaceIndices(s, |s|)
  {
    sp := [];
    for i := 0 to |s|
      invariant sp == SpaceIndices(s, i)
    {
      if s[i] == ' ' {
        sp := sp + [i];
      }
    }
  }

  /** The `dist`/`pos` loop of `SplitStringInTwo`, as written. */
  method NearestSpace(sp: seq<nat>, l: nat) returns (pos: nat)
    ensures pos == Choose(sp, 0, l / 2, 0)
  {
    var dist: int;
    dist, pos := l / 2, 0;
    for j := 0 to |sp|
      invariant Choose(sp, j, dist, pos) == Choose(sp, 0, l / 2, 0)
    {
      var o := sp[j];
      var d := dist - o;
      if d < 0 {
        d := -d;
      }
      if d < dist {
        dist := d;
        pos := o;
      }
    }
  }

  /* ------------------------------------------------- the balanced split */

  /**
   * The split index the `dist`/`pos` loop is meant to find: the earliest
   * space nearest to the midpoint `l/2`, provided some space is strictly
   * nearer to it than `l/2`; index 0 otherwise.
   */
  ghost predicate IsBestSpace(s: string, p: nat) {
    var m := |s| / 2;
    && p < |s|
    && if forall o :: 0 <= o < |s| && s[o] == ' ' ==> Abs(m - o) >= m then p == 0
       else
         && s[p] == ' '
         && (forall o :: 0 <= o < |s| && s[o] == ' ' ==> Abs(m - p) <= Abs(m - o))
         && (forall o :: 0 <= o < p && s[o] == ' ' ==> Abs(m - p) < Abs(m - o))
  }

  /** There is only one best space. */
  lemma {:induction false} BestSpaceUnique(s: string, p: nat, q: nat)
    requires IsBestSpace(s, p) && IsBestSpace(s, q)
    ensures p == q
  {
  }

  /**
   * `SplitStringInTwo` with the comparison made against the midpoint, as
   * the loop intends: with two spaces or more, the first part ends at the
   * best space.
   */
  method SplitStringInTwoBalanced(s: string, split: string -> bool) returns (parts: seq<string>)
    requires split(s) ==> s != ""
    ensures !split(s) ==> parts == [s]
    ensures split(s) && Count(s) == 1 ==> parts == Split(s)
    ensures split(s) && Count(s) != 1 ==>
      |parts| == 2 && IsBestSpace(s, |parts[0]|) && parts == [s[..|parts[0]|], s[|parts[0]| + 1..]]
  {
    if !split(s) {
      return [s];
    }
    if Count(s) == 1 {
      return Split(s);
    }

    var sp := SpacePositions(s);
    var pos := NearestToMiddle(s, sp);
    parts := [s[..pos], s[pos + 1..]];
  }

  /** The `dist`/`pos` loop measuring every space against the midpoint. */
  method NearestToMiddle(s: string, sp: seq<nat>) returns (pos: nat)
    requires |s| > 0 && sp == SpaceIndices(s, |s|)
    ensures IsBestSpace(s, pos)
  {
    var mid := |s| / 2;
    var dist: int := mid;
    ghost var best: nat := 0;
    pos := 0;
    for j := 0 to |sp|
      invariant dist <= mid
      invariant dist == mid ==> pos == 0 && forall k :: 0 <= k < j ==> Abs(mid - sp[k]) >= mid
      invariant dist < mid ==>
        && best < j && pos == sp[best] && dist == Abs(mid - pos)
        && (forall k :: 0 <= k < j ==> dist <= Abs(mid - sp[k]))
        && (forall k :: 0 <= k < best ==> dist < Abs(mid - sp[k]))
    {
      var o := sp[j];
      var d := Abs(mid - o);
      if d < dist {
        dist := d;
        pos := o;
        best := j;
      }
    }
    ScanFindsBestSpace(s, sp, dist, pos, best);
  }

  /** What the scan knows once every space index has been measured is `IsBestSpace`. */
  lemma {:induction false} ScanFindsBestSpace(s: string, sp: seq<nat>, dist: int, pos: nat, best: nat)
    requires |s| > 0 && sp == SpaceIndices(s, |s|)
    requires dist <= |s| / 2
    requires dist == |s| / 2 ==> pos == 0 && forall k :: 0 <= k < |sp| ==> Abs(|s| / 2 - sp[k]) >= |s| / 2
    requires dist < |s| / 2 ==>
        && best < |sp| && pos == sp[best] && dist == Abs(|s| / 2 - pos)
        && (forall k :: 0 <= k < |sp| ==> dist <= Abs(|s| / 2 - sp[k]))
        && (forall k :: 0 <= k < best ==> dist < Abs(|s| / 2 - sp[k]))
    ensures IsBestSpace(s, pos)
  {
    var mid := |s| / 2;
    forall o | 0 <= o < |s| && s[o] == ' '
      ensures Abs(mid - o) >= dist
      ensures o < pos ==> Abs(mid - o) > dist
    {
      SpaceIndicesComplete(s, |s|, o);
      var k :| 0 <= k < |sp| && sp[k] == o;
      if dist < mid && best <= k && o < pos {
        if best < k {
          SpaceIndicesIncreasing(s, |s|, best, k);
        }
        assert false;
      }
    }
  }
}
