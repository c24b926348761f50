/**
 * The examples of text/text_test.go and the label that shows the split
 * loop drifting from the midpoint, worked through general lemmas about
 * labels of two and three words.
 */
module TextSplitExamples {
  import opened TextSplit

  /** `strings.Count` adds up over concatenation. */
  lemma {:induction false} CountConcat(a: string, b: string)
    ensures Count(a + b) == Count(a) + Count(b)
  {
    if a != [] {
      assert (a + b)[0] == a[0] && (a + b)[1..] == a[1..] + b;
      CountConcat(a[1..], b);
      assert Count(a + b) == (if a[0] == ' ' then 1 else 0) + Count(a[1..] + b);
    } else {
      assert a + b == b;
    }
  }

  /** A word without a space counts none. */
  lemma {:induction false} NoSpaceCount(w: string)
    requires ' ' !in w
    ensures Count(w) == 0
  {
    if w != [] {
      assert ' ' !in w[1..];
      NoSpaceCount(w[1..]);
    }
  }

  /** Two words joined by one space hold exactly one space. */
  lemma {:induction false} TwoWords(a: string, b: string)
    requires ' ' !in a && ' ' !in b
    ensures Count(a + " " + b) == 1
  {
    CountConcat(a + " ", b);
    CountConcat(a, " ");
    NoSpaceCount(a);
    NoSpaceCount(b);
  }

  /**
   * A two-word label goes on two lines exactly when it is at least 12 bytes
   * long and both words are at least 4 bytes long.
   */
  lemma {:induction false} TwoWordLabel(a: string, b: string)
    requires ' ' !in a && ' ' !in b
    ensures SplitInTwo(a + " " + b, ShouldSplit) ==
      if |a| + |b| + 1 >= 12 && |a| >= 4 && |b| >= 4 then [a, b] else [a + " " + b]
  {
    var s := a + " " + b;
    TwoWords(a, b);
    OneSpaceWords(s, |a|);
    assert s[..|a|] == a && s[|a| + 1..] == b;
  }

  /** Three words joined by single spaces hold two spaces. */
  lemma {:induction false} ThreeWordsCount(a: string, b: string, c: string)
    requires ' ' !in a && ' ' !in b && ' ' !in c
    ensures Count(a + " " + b + " " + c) == 2
  {
    TwoWords(a, b);
    CountConcat(a + " " + b, " " + c);
    CountConcat(" ", c);
    NoSpaceCount(c);
    assert a + " " + b + " " + c == (a + " " + b) + (" " + c);
  }

  /** The spaces of three words joined by single spaces are the two joins. */
  lemma {:induction false} ThreeWords(a: string, b: string, c: string)
    requires ' ' !in a && ' ' !in b && ' ' !in c
    ensures var s := a + " " + b + " " + c;
      && Count(s) == 2
      && SpaceIndices(s, |s|) == [|a|, |a| + |b| + 1]
  {
    var s := a + " " + b + " " + c;
    ThreeWordsCount(a, b, c);
    SpaceIndicesCount(s, |s|);
    assert s[..|s|] == s;
    var i, j := |a|, |a| + |b| + 1;
    assert s[i] == ' ' && s[j] == ' ';
    SpaceIndicesComplete(s, |s|, i);
    SpaceIndicesComplete(s, |s|, j);
    SpaceIndicesIncreasing(s, |s|, 0, 1);
  }

  /** Cutting three words at either join gives the words on each side. */
  lemma {:induction false} ThreeWordCuts(a: string, b: string, c: string)
    ensures var s := a + " " + b + " " + c;
      && s[..|a|] == a && s[|a| + 1..] == b + " " + c
      && s[..|a| + |b| + 1] == a + " " + b && s[|a| + |b| + 2..] == c
  {
  }

  /**
   * A three-word label of 12 bytes or more is cut at whichever of its two
   * spaces the loop picks; a shorter one stays whole.
   */
  lemma {:induction false} ThreeWordLabel(a: string, b: string, c: string)
    requires ' ' !in a && ' ' !in b && ' ' !in c
    ensures var s := a + " " + b + " " + c;
      SplitInTwo(s, ShouldSplit) ==
        if |s| < 12 then [s]
        else if Choose([|a|, |a| + |b| + 1], 0, |s| / 2, 0) == |a| then [a, b + " " + c]
        else [a + " " + b, c]
  {
    var s := a + " " + b + " " + c;
    ThreeWords(a, b, c);
    ThreeWordCuts(a, b, c);
  }

  /*
   * The table of text/text_test.go, one lemma per row, with each label
   * written as its words joined by spaces.
   */

  lemma StMarychurch()
    ensures SplitInTwo("St" + " " + "Marychurch", ShouldSplit) == ["St" + " " + "Marychurch"]
  {
    TwoWordLabel("St", "Marychurch");
  }

  lemma Torquay()
    ensures SplitInTwo("TORQUAY", ShouldSplit) == ["TORQUAY"]
  {
  }

  lemma BabbacombeBay()
    ensures SplitInTwo("Babbacombe" + " " + "Bay", ShouldSplit) == ["Babbacombe" + " " + "Bay"]
  {
    TwoWordLabel("Babbacombe", "Bay");
  }

  lemma GreatHill()
    ensures SplitInTwo("Great" + " " + "Hill", ShouldSplit) == ["Great" + " " + "Hill"]
  {
    TwoWordLabel("Great", "Hill");
  }

  lemma CombePalford()
    ensures SplitInTwo("Combe" + " " + "Palford", ShouldSplit) == ["Combe", "Palford"]
  {
    TwoWordLabel("Combe", "Palford");
  }

  lemma PilsworthRoad()
    ensures SplitInTwo("Pilsworth" + " " + "Road", ShouldSplit) == ["Pilsworth", "Road"]
  {
    TwoWordLabel("Pilsworth", "Road");
  }

  lemma RoyleBarnRoad()
    ensures SplitInTwo("Royle" + " " + "Barn" + " " + "Road", ShouldSplit) == ["Royle", "Barn" + " " + "Road"]
  {
    ThreeWordLabel("Royle", "Barn", "Road");
  }

  lemma SixBarnRoad()
    ensures SplitInTwo("6" + " " + "Barn" + " " + "Road", ShouldSplit) == ["6" + " " + "Barn" + " " + "Road"]
  {
    ThreeWordLabel("6", "Barn", "Road");
  }

  /**
   * With spaces at `i` and `j` only, the best space is the nearer of the two
   * to the midpoint, the first on a tie, unless neither is nearer than `l/2`.
   */
  lemma {:induction false} TwoSpacesBest(s: string, i: nat, j: nat, p: nat)
    requires SpaceIndices(s, |s|) == [i, j]
    ensures var m := |s| / 2;
      IsBestSpace(s, p) <==>
        if Abs(m - i) >= m && Abs(m - j) >= m then p == 0
        else p == if Abs(m - i) <= Abs(m - j) then i else j
  {
    var sp := SpaceIndices(s, |s|);
    SpaceIndicesIncreasing(s, |s|, 0, 1);
    assert sp[0] == i && sp[1] == j;
    assert s[i] == ' ' && s[j] == ' ' && j < |s|;
    forall o | 0 <= o < |s| && s[o] == ' '
      ensures o == i || o == j
    {
      SpaceIndicesComplete(s, |s|, o);
    }
  }

  /**
   * "Church Lane Industrial" (22 bytes, spaces at 6 and 11, midpoint 11):
   * the loop compares the second space with the distance 5 left by the
   * first instead of with the midpoint, and keeps the first space although
   * the second sits on the midpoint.
   */
  lemma SplitDriftsFromMidpoint()
    ensures SplitInTwo("Church" + " " + "Lane" + " " + "Industrial", ShouldSplit)
      == ["Church", "Lane" + " " + "Industrial"]
    ensures IsBestSpace("Church" + " " + "Lane" + " " + "Industrial", 11)
    ensures !IsBestSpace("Church" + " " + "Lane" + " " + "Industrial", 6)
  {
    var s := "Church" + " " + "Lane" + " " + "Industrial";
    ThreeWordLabel("Church", "Lane", "Industrial");
    ThreeWords("Church", "Lane", "Industrial");
    TwoSpacesBest(s, 6, 11, 11);
    TwoSpacesBest(s, 6, 11, 6);
  }
}
