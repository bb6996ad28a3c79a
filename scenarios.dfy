/** The preset inputs the simulator offers: where the pattern occurs in
    each, how many comparisons the matcher makes on it, and what the matcher
    returns when run on it. */
module Scenarios {
  import opened Trace
  import Matcher

  /** `t` has the characters of `s`, position by position. The comparison
      counts below are proved for any such `t`, one offset at a time, and
      then applied to the preset itself. */
  predicate Spells(t: string, s: string)
  {
    |t| == |s| && forall k :: 0 <= k < |t| ==> t[k] == s[k]
  }

  /** The "Simple Example" preset. */
  const SimpleExampleText := "ABAAABCDABABCABCABCDAB"
  const SimpleExamplePattern := "ABCAB"

  /** The pattern occurs in the text exactly at offsets 10, 13. */
  lemma SimpleExampleMatches()
    ensures forall x :: OccursAt(SimpleExampleText, SimpleExamplePattern, x) <==> x == 10 || x == 13
  {
    forall x | 0 <= x < 18 ensures OccursAt(SimpleExampleText, SimpleExamplePattern, x) <==> x == 10 || x == 13 {
      assert SimpleExampleText[x..x + 5] == [SimpleExampleText[x], SimpleExampleText[x + 1], SimpleExampleText[x + 2], SimpleExampleText[x + 3], SimpleExampleText[x + 4]];
    }
  }

  /** The first 3 offsets make 6 comparisons. */
  lemma SimpleExampleCountUpTo3(t: string, p: string)
    requires Spells(t, SimpleExampleText) && Spells(p, SimpleExamplePattern)
    ensures CountBefore(t, p, 3) == 6
  {
    ScanLength(t, p, 0, 2);
    assert CountBefore(t, p, 1) == 3;
    ScanLength(t, p, 1, 0);
    assert CountBefore(t, p, 2) == 4;
    ScanLength(t, p, 2, 1);
    assert CountBefore(t, p, 3) == 6;
  }

  /** The first 6 offsets make 13 comparisons. */
  lemma SimpleExampleCountUpTo6(t: string, p: string)
    requires Spells(t, SimpleExampleText) && Spells(p, SimpleExamplePattern)
    ensures CountBefore(t, p, 6) == 13
  {
    SimpleExampleCountUpTo3(t, p);
    ScanLength(t, p, 3, 1);
    assert CountBefore(t, p, 4) == 8;
    ScanLength(t, p, 4, 3);
    assert CountBefore(t, p, 5) == 12;
    ScanLength(t, p, 5, 0);
    assert CountBefore(t, p, 6) == 13;
  }

  /** The first 9 offsets make 18 comparisons. */
  lemma SimpleExampleCountUpTo9(t: string, p: string)
    requires Spells(t, SimpleExampleText) && Spells(p, SimpleExamplePattern)
    ensures CountBefore(t, p, 9) == 18
  {
    SimpleExampleCountUpTo6(t, p);
    ScanLength(t, p, 6, 0);
    assert CountBefore(t, p, 7) == 14;
    ScanLength(t, p, 7, 0);
    assert CountBefore(t, p, 8) == 15;
    ScanLength(t, p, 8, 2);
    assert CountBefore(t, p, 9) == 18;
  }

  /** The first 12 offsets make 25 comparisons. */
  lemma SimpleExampleCountUpTo12(t: string, p: string)
    requires Spells(t, SimpleExampleText) && Spells(p, SimpleExamplePattern)
    ensures CountBefore(t, p, 12) == 25
  {
    SimpleExampleCountUpTo9(t, p);
    ScanLength(t, p, 9, 0);
    assert CountBefore(t, p, 10) == 19;
    ScanLength(t, p, 10, 5);
    assert CountBefore(t, p, 11) == 24;
    ScanLength(t, p, 11, 0);
    assert CountBefore(t, p, 12) == 25;
  }

  /** The first 15 offsets make 32 comparisons. */
  lemma SimpleExampleCountUpTo15(t: string, p: string)
    requires Spells(t, SimpleExampleText) && Spells(p, SimpleExamplePattern)
    ensures CountBefore(t, p, 15) == 32
  {
    SimpleExampleCountUpTo12(t, p);
    ScanLength(t, p, 12, 0);
    assert CountBefore(t, p, 13) == 26;
    ScanLength(t, p, 13, 5);
    assert CountBefore(t, p, 14) == 31;
    ScanLength(t, p, 14, 0);
    assert CountBefore(t, p, 15) == 32;
  }

  /** The first 18 offsets make 38 comparisons. */
  lemma SimpleExampleCountUpTo18(t: string, p: string)
    requires Spells(t, SimpleExampleText) && Spells(p, SimpleExamplePattern)
    ensures CountBefore(t, p, 18) == 38
  {
    SimpleExampleCountUpTo15(t, p);
    ScanLength(t, p, 15, 0);
    assert CountBefore(t, p, 16) == 33;
    ScanLength(t, p, 16, 3);
    assert CountBefore(t, p, 17) == 37;
    ScanLength(t, p, 17, 0);
    assert CountBefore(t, p, 18) == 38;
  }

  /** The matcher makes 38 comparisons on this preset, 18 offsets
      making 3, 1, 2, 2, 4, 1, 1, 1, 3, 1, 5, 1, 1, 5, 1, 1, 4, 1 in turn. */
  lemma SimpleExampleComparisons()
    ensures CountBefore(SimpleExampleText, SimpleExamplePattern, 18) == 38
  {
    SimpleExampleCountUpTo18(SimpleExampleText, SimpleExamplePattern);
  }

  /** The matcher run on this preset returns the matches [10, 13] and the
      count 38. */
  method RunSimpleExample() returns (matches: seq<nat>, comparisons: nat)
    ensures matches == [10, 13]
    ensures comparisons == 38
  {
    var steps;
    steps, matches, comparisons := Matcher.NaiveStringMatchingWithSteps(SimpleExampleText, SimpleExamplePattern);
    SimpleExampleMatches();
    IncreasingUnique(matches, [10, 13]);
    RecordedCount(SimpleExampleText, SimpleExamplePattern, steps);
    SimpleExampleComparisons();
  }

  /** The "DNA Sequence" preset. */
  const DnaSequenceText := "ATCGATCGATCGATCG"
  const DnaSequencePattern := "GATC"

  /** The pattern occurs in the text exactly at offsets 3, 7, 11. */
  lemma DnaSequenceMatches()
    ensures forall x :: OccursAt(DnaSequenceText, DnaSequencePattern, x) <==> x == 3 || x == 7 || x == 11
  {
    forall x | 0 <= x < 13 ensures OccursAt(DnaSequenceText, DnaSequencePattern, x) <==> x == 3 || x == 7 || x == 11 {
      assert DnaSequenceText[x..x + 4] == [DnaSequenceText[x], DnaSequenceText[x + 1], DnaSequenceText[x + 2], DnaSequenceText[x + 3]];
    }
  }

  /** The first 3 offsets make 3 comparisons. */
  lemma DnaSequenceCountUpTo3(t: string, p: string)
    requires Spells(t, DnaSequenceText) && Spells(p, DnaSequencePattern)
    ensures CountBefore(t, p, 3) == 3
  {
    ScanLength(t, p, 0, 0);
    assert CountBefore(t, p, 1) == 1;
    ScanLength(t, p, 1, 0);
    assert CountBefore(t, p, 2) == 2;
    ScanLength(t, p, 2, 0);
    assert CountBefore(t, p, 3) == 3;
  }

  /** The first 6 offsets make 9 comparisons. */
  lemma DnaSequenceCountUpTo6(t: string, p: string)
    requires Spells(t, DnaSequenceText) && Spells(p, DnaSequencePattern)
    ensures CountBefore(t, p, 6) == 9
  {
    DnaSequenceCountUpTo3(t, p);
    ScanLength(t, p, 3, 4);
    assert CountBefore(t, p, 4) == 7;
    ScanLength(t, p, 4, 0);
    assert CountBefore(t, p, 5) == 8;
    ScanLength(t, p, 5, 0);
    assert CountBefore(t, p, 6) == 9;
  }

  /** The first 9 offsets make 15 comparisons. */
  lemma DnaSequenceCountUpTo9(t: string, p: string)
    requires Spells(t, DnaSequenceText) && Spells(p, DnaSequencePattern)
    ensures CountBefore(t, p, 9) == 15
  {
    DnaSequenceCountUpTo6(t, p);
    ScanLength(t, p, 6, 0);
    assert CountBefore(t, p, 7) == 10;
    ScanLength(t, p, 7, 4);
    assert CountBefore(t, p, 8) == 14;
    ScanLength(t, p, 8, 0);
    assert CountBefore(t, p, 9) == 15;
  }

  /** The first 12 offsets make 21 comparisons. */
  lemma DnaSequenceCountUpTo12(t: string, p: string)
    requires Spells(t, DnaSequenceText) && Spells(p, DnaSequencePattern)
    ensures CountBefore(t, p, 12) == 21
  {
    DnaSequenceCountUpTo9(t, p);
    ScanLength(t, p, 9, 0);
    assert CountBefore(t, p, 10) == 16;
    ScanLength(t, p, 10, 0);
    assert CountBefore(t, p, 11) == 17;
    ScanLength(t, p, 11, 4);
    assert CountBefore(t, p, 12) == 21;
  }

  /** The first 13 offsets make 22 comparisons. */
  lemma DnaSequenceCountUpTo13(t: string, p: string)
    requires Spells(t, DnaSequenceText) && Spells(p, DnaSequencePattern)
    ensures CountBefore(t, p, 13) == 22
  {
    DnaSequenceCountUpTo12(t, p);
    ScanLength(t, p, 12, 0);
    assert CountBefore(t, p, 13) == 22;
  }

  /** The matcher makes 22 comparisons on this preset, 13 offsets
      making 1, 1, 1, 4, 1, 1, 1, 4, 1, 1, 1, 4, 1 in turn. */
  lemma DnaSequenceComparisons()
    ensures CountBefore(DnaSequenceText, DnaSequencePattern, 13) == 22
  {
    DnaSequenceCountUpTo13(DnaSequenceText, DnaSequencePattern);
  }

  /** The matcher run on this preset returns the matches [3, 7, 11] and the
      count 22. */
  method RunDnaSequence() returns (matches: seq<nat>, comparisons: nat)
    ensures matches == [3, 7, 11]
    ensures comparisons == 22
  {
    var steps;
    steps, matches, comparisons := Matcher.NaiveStringMatchingWithSteps(DnaSequenceText, DnaSequencePattern);
    DnaSequenceMatches();
    IncreasingUnique(matches, [3, 7, 11]);
    RecordedCount(DnaSequenceText, DnaSequencePattern, steps);
    DnaSequenceComparisons();
  }

  /** The "Worst Case" preset. */
  const WorstCaseText := "AAAAAAAAAB"
  const WorstCasePattern := "AAAAB"

  /** The pattern occurs in the text exactly at offset 5. */
  lemma WorstCaseMatches()
    ensures forall x :: OccursAt(WorstCaseText, WorstCasePattern, x) <==> x == 5
  {
    forall x | 0 <= x < 6 ensures OccursAt(WorstCaseText, WorstCasePattern, x) <==> x == 5 {
      assert WorstCaseText[x..x + 5] == [WorstCaseText[x], WorstCaseText[x + 1], WorstCaseText[x + 2], WorstCaseText[x + 3], WorstCaseText[x + 4]];
    }
  }

  /** The first 3 offsets make 15 comparisons. */
  lemma WorstCaseCountUpTo3(t: string, p: string)
    requires Spells(t, WorstCaseText) && Spells(p, WorstCasePattern)
    ensures CountBefore(t, p, 3) == 15
  {
    ScanLength(t, p, 0, 4);
    assert CountBefore(t, p, 1) == 5;
    ScanLength(t, p, 1, 4);
    assert CountBefore(t, p, 2) == 10;
    ScanLength(t, p, 2, 4);
    assert CountBefore(t, p, 3) == 15;
  }

  /** The first 6 offsets make 30 comparisons. */
  lemma WorstCaseCountUpTo6(t: string, p: string)
    requires Spells(t, WorstCaseText) && Spells(p, WorstCasePattern)
    ensures CountBefore(t, p, 6) == 30
  {
    WorstCaseCountUpTo3(t, p);
    ScanLength(t, p, 3, 4);
    assert CountBefore(t, p, 4) == 20;
    ScanLength(t, p, 4, 4);
    assert CountBefore(t, p, 5) == 25;
    ScanLength(t, p, 5, 5);
    assert CountBefore(t, p, 6) == 30;
  }

  /** The matcher makes 30 comparisons on this preset, 6 offsets
      making 5, 5, 5, 5, 5, 5 in turn. */
  lemma WorstCaseComparisons()
    ensures CountBefore(WorstCaseText, WorstCasePattern, 6) == 30
  {
    WorstCaseCountUpTo6(WorstCaseText, WorstCasePattern);
  }

  /** The matcher run on this preset returns the matches [5] and the
      count 30. */
  method RunWorstCase() returns (matches: seq<nat>, comparisons: nat)
    ensures matches == [5]
    ensures comparisons == 30
  {
    var steps;
    steps, matches, comparisons := Matcher.NaiveStringMatchingWithSteps(WorstCaseText, WorstCasePattern);
    WorstCaseMatches();
    IncreasingUnique(matches, [5]);
    RecordedCount(WorstCaseText, WorstCasePattern, steps);
    WorstCaseComparisons();
  }

  /** The "Best Case" preset. */
  const BestCaseText := "ABCDEFGHIJ"
  const BestCasePattern := "ABC"

  /** The pattern occurs in the text exactly at offset 0. */
  lemma BestCaseMatches()
    ensures forall x :: OccursAt(BestCaseText, BestCasePattern, x) <==> x == 0
  {
    forall x | 0 <= x < 8 ensures OccursAt(BestCaseText, BestCasePattern, x) <==> x == 0 {
      assert BestCaseText[x..x + 3] == [BestCaseText[x], BestCaseText[x + 1], BestCaseText[x + 2]];
    }
  }

  /** The first 3 offsets make 5 comparisons. */
  lemma BestCaseCountUpTo3(t: string, p: string)
    requires Spells(t, BestCaseText) && Spells(p, BestCasePattern)
    ensures CountBefore(t, p, 3) == 5
  {
    ScanLength(t, p, 0, 3);
    assert CountBefore(t, p, 1) == 3;
    ScanLength(t, p, 1, 0);
    assert CountBefore(t, p, 2) == 4;
    ScanLength(t, p, 2, 0);
    assert CountBefore(t, p, 3) == 5;
  }

  /** The first 6 offsets make 8 comparisons. */
  lemma BestCaseCountUpTo6(t: string, p: string)
    requires Spells(t, BestCaseText) && Spells(p, BestCasePattern)
    ensures CountBefore(t, p, 6) == 8
  {
    BestCaseCountUpTo3(t, p);
    ScanLength(t, p, 3, 0);
    assert CountBefore(t, p, 4) == 6;
    ScanLength(t, p, 4, 0);
    assert CountBefore(t, p, 5) == 7;
    ScanLength(t, p, 5, 0);
    assert CountBefore(t, p, 6) == 8;
  }

  /** The first 8 offsets make 10 comparisons. */
  lemma BestCaseCountUpTo8(t: string, p: string)
    requires Spells(t, BestCaseText) && Spells(p, BestCasePattern)
    ensures CountBefore(t, p, 8) == 10
  {
    BestCaseCountUpTo6(t, p);
    ScanLength(t, p, 6, 0);
    assert CountBefore(t, p, 7) == 9;
    ScanLength(t, p, 7, 0);
    assert CountBefore(t, p, 8) == 10;
  }

  /** The matcher makes 10 comparisons on this preset, 8 offsets
      making 3, 1, 1, 1, 1, 1, 1, 1 in turn. */
  lemma BestCaseComparisons()
    ensures CountBefore(BestCaseText, BestCasePattern, 8) == 10
  {
    BestCaseCountUpTo8(BestCaseText, BestCasePattern);
  }

  /** The matcher run on this preset returns the matches [0] and the
      count 10. */
  method RunBestCase() returns (matches: seq<nat>, comparisons: nat)
    ensures matches == [0]
    ensures comparisons == 10
  {
    var steps;
    steps, matches, comparisons := Matcher.NaiveStringMatchingWithSteps(BestCaseText, BestCasePattern);
    BestCaseMatches();
    IncreasingUnique(matches, [0]);
    RecordedCount(BestCaseText, BestCasePattern, steps);
    BestCaseComparisons();
  }

  /** The "No Match" preset. */
  const NoMatchText := "HELLO WORLD"
  const NoMatchPattern := "XYZ"

  /** The pattern occurs in the text nowhere. */
  lemma NoMatchMatches()
    ensures forall x :: !OccursAt(NoMatchText, NoMatchPattern, x)
  {
    forall x | 0 <= x < 9 ensures !OccursAt(NoMatchText, NoMatchPattern, x) {
      assert NoMatchText[x..x + 3] == [NoMatchText[x], NoMatchText[x + 1], NoMatchText[x + 2]];
    }
  }

  /** The first 3 offsets make 3 comparisons. */
  lemma NoMatchCountUpTo3(t: string, p: string)
    requires Spells(t, NoMatchText) && Spells(p, NoMatchPattern)
    ensures CountBefore(t, p, 3) == 3
  {
    ScanLength(t, p, 0, 0);
    assert CountBefore(t, p, 1) == 1;
    ScanLength(t, p, 1, 0);
    assert CountBefore(t, p, 2) == 2;
    ScanLength(t, p, 2, 0);
    assert CountBefore(t, p, 3) == 3;
  }

  /** The first 6 offsets make 6 comparisons. */
  lemma NoMatchCountUpTo6(t: string, p: string)
    requires Spells(t, NoMatchText) && Spells(p, NoMatchPattern)
    ensures CountBefore(t, p, 6) == 6
  {
    NoMatchCountUpTo3(t, p);
    ScanLength(t, p, 3, 0);
    assert CountBefore(t, p, 4) == 4;
    ScanLength(t, p, 4, 0);
    assert CountBefore(t, p, 5) == 5;
    ScanLength(t, p, 5, 0);
    assert CountBefore(t, p, 6) == 6;
  }

  /** The first 9 offsets make 9 comparisons. */
  lemma NoMatchCountUpTo9(t: string, p: string)
    requires Spells(t, NoMatchText) && Spells(p, NoMatchPattern)
    ensures CountBefore(t, p, 9) == 9
  {
    NoMatchCountUpTo6(t, p);
    ScanLength(t, p, 6, 0);
    assert CountBefore(t, p, 7) == 7;
    ScanLength(t, p, 7, 0);
    assert CountBefore(t, p, 8) == 8;
    ScanLength(t, p, 8, 0);
    assert CountBefore(t, p, 9) == 9;
  }

  /** The matcher makes 9 comparisons on this preset, 9 offsets
      making 1, 1, 1, 1, 1, 1, 1, 1, 1 in turn. */
  lemma NoMatchComparisons()
    ensures CountBefore(NoMatchText, NoMatchPattern, 9) == 9
  {
    NoMatchCountUpTo9(NoMatchText, NoMatchPattern);
  }

  /** The matcher run on this preset returns the matches [] and the
      count 9. */
  method RunNoMatch() returns (matches: seq<nat>, comparisons: nat)
    ensures matches == []
    ensures comparisons == 9
  {
    var steps;
    steps, matches, comparisons := Matcher.NaiveStringMatchingWithSteps(NoMatchText, NoMatchPattern);
    NoMatchMatches();
    IncreasingUnique(matches, []);
    RecordedCount(NoMatchText, NoMatchPattern, steps);
    NoMatchComparisons();
  }

}
