/** The naive string matcher that records every comparison it makes, so that
    the steps can be replayed one at a time. */
module Matcher {
  import opened Trace

  /** The inner loop at offset `i`: compares `pattern[j]` with `text[i + j]`
      for `j = 0, 1, ...`, counting and recording each comparison, and stops
      after the first mismatch. `before` is the running count on entry. */
  method CompareAt(text: string, pattern: string, i: nat, before: nat)
    returns (stepComparisons: seq<Comparison>, currentMatch: bool, comparisons: nat)
    requires i + |pattern| <= |text|
    ensures stepComparisons == Scan(text, pattern, i)
    ensures currentMatch <==> forall k :: 0 <= k < |stepComparisons| ==> stepComparisons[k].matched
    ensures currentMatch && |stepComparisons| == |pattern| <==> OccursAt(text, pattern, i)
    ensures comparisons == before + |stepComparisons|
  {
    stepComparisons, currentMatch, comparisons := [], true, before;
    var m := |pattern|;
    for j := 0 to m
      invariant currentMatch
      invariant |stepComparisons| == j
      invariant forall k :: 0 <= k < j ==> stepComparisons[k] == Probe(text, pattern, i, k)
      invariant forall k :: 0 <= k < j ==> stepComparisons[k].matched
      invariant comparisons == before + j
    {
      comparisons := comparisons + 1;
      var charMatch := text[i + j] == pattern[j];
      stepComparisons := stepComparisons + [Comparison(i + j, j, text[i + j], pattern[j], charMatch)];
      if !charMatch {
        currentMatch := false;
        break;
      }
    }
    ScanRecorded(text, pattern, i, stepComparisons);
  }

  /** Tries every offset `i` with `i + |pattern| <= |text|` in increasing
      order, compares the pattern with the text there from left to right up
      to the first mismatch, and returns the steps, the offsets of the full
      matches and the number of comparisons made. The caller's input checks
      are not assumed: an empty pattern matches at every offset, and a pattern
      longer than the text gives no step at all. */
  method NaiveStringMatchingWithSteps(text: string, pattern: string)
    returns (steps: seq<Step>, matches: seq<nat>, comparisons: nat)
    ensures |steps| == OffsetCount(|text|, |pattern|)
    ensures forall k :: 0 <= k < |steps| ==> steps[k] == StepAt(text, pattern, k)
    ensures forall k :: 0 <= k < |steps| ==> steps[k].startPos == k
    ensures forall k :: 0 <= k < |steps| ==> (steps[k].isMatch <==> OccursAt(text, pattern, k))
    ensures matches == MatchedStarts(steps)
    ensures Increasing(matches)
    ensures forall x :: x in matches <==> OccursAt(text, pattern, x)
    ensures comparisons == TotalRecorded(steps)
    ensures forall k {:trigger steps[k]} :: 0 <= k < |steps| ==> steps[k].totalComparisons == TotalRecorded(steps[..k + 1])
    ensures comparisons == if steps == [] then 0 else steps[|steps| - 1].totalComparisons
  {
    steps, matches, comparisons := [], [], 0;
    var n, m := |text|, |pattern|;
    for i := 0 to OffsetCount(n, m)
      invariant |steps| == i
      invariant forall k :: 0 <= k < i ==> steps[k] == StepAt(text, pattern, k)
      invariant comparisons == CountBefore(text, pattern, i)
      invariant comparisons == TotalRecorded(steps)
      invariant matches == MatchedStarts(steps)
    {
      var stepComparisons, currentMatch;
      stepComparisons, currentMatch, comparisons := CompareAt(text, pattern, i, comparisons);
      var step := Step(i, stepComparisons, currentMatch && |stepComparisons| == m, comparisons);
      assert step == StepAt(text, pattern, i);
      AppendStep(steps, step);
      steps := steps + [step];
      if currentMatch && |stepComparisons| == m {
        matches := matches + [i];
      }
    }
    RecordedTotals(text, pattern, steps);
    MatchedStartsIncrease(steps);
    MatchedStartsAreOccurrences(text, pattern, steps);
  }
}
