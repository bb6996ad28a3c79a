/** The trace recorded by the naive string matcher, and the reference
    definitions it is checked against.

    For every candidate offset `i` the matcher compares `pattern[j]` with
    `text[i + j]` for `j = 0, 1, ...` and stops after the first mismatch.
    Each character test becomes a `Comparison`; each offset becomes a `Step`.
 */
module Trace {

  /** One character-against-character test. */
  datatype Comparison = Comparison(
    textPos: nat,
    patternPos: nat,
    textChar: char,
    patternChar: char,
    matched: bool)

  /** One alignment of the pattern at offset `startPos`, with the comparisons
      made there, whether it is a full match, and the running number of
      comparisons made so far, this step included. */
  datatype Step = Step(
    startPos: nat,
    comparisons: seq<Comparison>,
    isMatch: bool,
    totalComparisons: nat)

  /** Number of candidate offsets: the length of `range(n - m + 1)`, which is
      empty when the pattern is longer than the text. */
  function OffsetCount(n: nat, m: nat): nat
  {
    if m <= n then n - m + 1 else 0
  }

  /** The declarative notion of a match: the pattern occurs in the text at `i`. */
  predicate OccursAt(text: string, pattern: string, i: int)
  {
    0 <= i && i + |pattern| <= |text| && text[i..i + |pattern|] == pattern
  }

  /** The record of comparing `pattern[j]` with `text[i + j]`. */
  function Probe(text: string, pattern: string, i: nat, j: nat): Comparison
    requires i + j < |text| && j < |pattern|
  {
    Comparison(i + j, j, text[i + j], pattern[j], text[i + j] == pattern[j])
  }

  /** The comparisons made at offset `i` from pattern position `j` on:
      one per position, up to and including the first mismatch. */
  function ScanFrom(text: string, pattern: string, i: nat, j: nat): seq<Comparison>
    requires i + |pattern| <= |text| && j <= |pattern|
    decreases |pattern| - j
  {
    if j == |pattern| then []
    else if text[i + j] == pattern[j] then [Probe(text, pattern, i, j)] + ScanFrom(text, pattern, i, j + 1)
    else [Probe(text, pattern, i, j)]
  }

  /** The comparisons made at offset `i`. */
  function Scan(text: string, pattern: string, i: nat): seq<Comparison>
    requires i + |pattern| <= |text|
  {
    ScanFrom(text, pattern, i, 0)
  }

  /** The number of comparisons made at the offsets `0 .. k-1`. */
  function CountBefore(text: string, pattern: string, k: nat): nat
    requires k <= OffsetCount(|text|, |pattern|)
  {
    if k == 0 then 0 else CountBefore(text, pattern, k - 1) + |Scan(text, pattern, k - 1)|
  }

  /** The step the matcher records for offset `k`. */
  function StepAt(text: string, pattern: string, k: nat): Step
    requires k < OffsetCount(|text|, |pattern|)
  {
    Step(k, Scan(text, pattern, k), OccursAt(text, pattern, k), CountBefore(text, pattern, k + 1))
  }

  /** The start offsets of the steps that are full matches, in step order. */
  function MatchedStarts(steps: seq<Step>): seq<nat>
  {
    if steps == [] then []
    else
      var last := steps[|steps| - 1];
      MatchedStarts(steps[..|steps| - 1]) + (if last.isMatch then [last.startPos] else [])
  }

  /** The number of comparisons recorded in all the given steps together. */
  function TotalRecorded(steps: seq<Step>): nat
  {
    if steps == [] then 0
    else TotalRecorded(steps[..|steps| - 1]) + |steps[|steps| - 1].comparisons|
  }

  predicate Increasing(s: seq<nat>)
  {
    forall a, b :: 0 <= a < b < |s| ==> s[a] < s[b]
  }

  /** What a scan from position `j` looks like: at most `m - j` entries, at
      least one when there is a position left, entry `k` is the probe of
      position `j + k`, every entry but the last is a match, and a scan that
      stops early ends in a mismatch. */
  lemma {:induction false} ScanFromShape(text: string, pattern: string, i: nat, j: nat)
    requires i + |pattern| <= |text| && j <= |pattern|
    ensures |ScanFrom(text, pattern, i, j)| <= |pattern| - j
    ensures j < |pattern| ==> 1 <= |ScanFrom(text, pattern, i, j)|
    ensures forall k :: 0 <= k < |ScanFrom(text, pattern, i, j)| ==>
      ScanFrom(text, pattern, i, j)[k] == Probe(text, pattern, i, j + k)
    ensures forall k :: 0 <= k < |ScanFrom(text, pattern, i, j)| - 1 ==>
      ScanFrom(text, pattern, i, j)[k].matched
    ensures |ScanFrom(text, pattern, i, j)| < |pattern| - j ==>
      !ScanFrom(text, pattern, i, j)[|ScanFrom(text, pattern, i, j)| - 1].matched
    decreases |pattern| - j
  {
    if j < |pattern| && text[i + j] == pattern[j] {
      ScanFromShape(text, pattern, i, j + 1);
      var rest := ScanFrom(text, pattern, i, j + 1);
      assert ScanFrom(text, pattern, i, j) == [Probe(text, pattern, i, j)] + rest;
      forall k | 0 < k < 1 + |rest|
        ensures ScanFrom(text, pattern, i, j)[k] == Probe(text, pattern, i, j + k)
      {
        assert ScanFrom(text, pattern, i, j)[k] == rest[k - 1];
      }
    }
  }

  /** Comparison `k` of the step at offset `i` tests text position `i + k`
      against pattern position `k` and records both characters and whether
      they are equal. */
  lemma ScanEntries(text: string, pattern: string, i: nat)
    requires i + |pattern| <= |text|
    ensures |Scan(text, pattern, i)| <= |pattern|
    ensures forall k :: 0 <= k < |Scan(text, pattern, i)| ==>
      var c := Scan(text, pattern, i)[k];
      c.textPos == i + k && c.patternPos == k &&
      c.textChar == text[i + k] && c.patternChar == pattern[k] &&
      c.matched == (text[i + k] == pattern[k])
  {
    ScanFromShape(text, pattern, i, 0);
    forall k | 0 <= k < |Scan(text, pattern, i)|
      ensures var c := Scan(text, pattern, i)[k];
        c.textPos == i + k && c.patternPos == k &&
        c.textChar == text[i + k] && c.patternChar == pattern[k] &&
        c.matched == (text[i + k] == pattern[k])
    {
      assert Scan(text, pattern, i)[k] == Probe(text, pattern, i, k);
    }
  }

  /** Short-circuit: every comparison but possibly the last matched, a step
      shorter than the pattern ends in a mismatch, and with a non-empty
      pattern a step holds between 1 and `|pattern|` comparisons. */
  lemma ScanShortCircuit(text: string, pattern: string, i: nat)
    requires i + |pattern| <= |text|
    ensures |Scan(text, pattern, i)| <= |pattern|
    ensures 1 <= |pattern| ==> 1 <= |Scan(text, pattern, i)|
    ensures forall k :: 0 <= k < |Scan(text, pattern, i)| - 1 ==> Scan(text, pattern, i)[k].matched
    ensures |Scan(text, pattern, i)| < |pattern| ==>
      !Scan(text, pattern, i)[|Scan(text, pattern, i)| - 1].matched
  {
    ScanFromShape(text, pattern, i, 0);
  }

  /** The length of a step is fixed by where the first mismatch is: if the
      first `q` pattern characters match at offset `i` and character `q`
      (when there is one) does not, the step holds `q + 1` comparisons, or
      `|pattern|` when all of them match. */
  lemma ScanLength(text: string, pattern: string, i: nat, q: nat)
    requires i + |pattern| <= |text| && q <= |pattern|
    requires forall k :: 0 <= k < q ==> text[i + k] == pattern[k]
    requires q < |pattern| ==> text[i + q] != pattern[q]
    ensures |Scan(text, pattern, i)| == if q == |pattern| then q else q + 1
  {
    var s := Scan(text, pattern, i);
    ScanFromShape(text, pattern, i, 0);
    if 0 < |s| {
      assert s[|s| - 1] == Probe(text, pattern, i, |s| - 1);
    }
    if q < |pattern| && q < |s| {
      assert s[q] == Probe(text, pattern, i, q);
    }
  }

  /** A record of the probes at positions `0, 1, ...` that is either the
      whole pattern long or ends at its first mismatch is the scan at `i`;
      the pattern occurs at `i` exactly when the record is the whole pattern
      long and every comparison in it matched. */
  lemma ScanRecorded(text: string, pattern: string, i: nat, cs: seq<Comparison>)
    requires i + |pattern| <= |text| && |cs| <= |pattern|
    requires forall k :: 0 <= k < |cs| ==> cs[k] == Probe(text, pattern, i, k)
    requires forall k :: 0 <= k < |cs| - 1 ==> cs[k].matched
    requires |cs| < |pattern| ==> 0 < |cs| && !cs[|cs| - 1].matched
    ensures cs == Scan(text, pattern, i)
    ensures OccursAt(text, pattern, i) <==> |cs| == |pattern| && forall k :: 0 <= k < |cs| ==> cs[k].matched
  {
    var s := Scan(text, pattern, i);
    ScanFromShape(text, pattern, i, 0);
    if 0 < |cs| && |cs| - 1 < |s| {
      assert s[|cs| - 1] == Probe(text, pattern, i, |cs| - 1);
    }
    if 0 < |s| && |s| - 1 < |cs| {
      assert cs[|s| - 1] == Probe(text, pattern, i, |s| - 1);
    }
    assert |cs| == |s|;
    ScanFullIffOccurs(text, pattern, i);
  }

  /** A step records all `|pattern|` comparisons, all of them matches,
      exactly when the pattern occurs at its offset. */
  lemma ScanFullIffOccurs(text: string, pattern: string, i: nat)
    requires i + |pattern| <= |text|
    ensures (|Scan(text, pattern, i)| == |pattern| &&
             forall k :: 0 <= k < |Scan(text, pattern, i)| ==> Scan(text, pattern, i)[k].matched)
            <==> OccursAt(text, pattern, i)
  {
    var s := Scan(text, pattern, i);
    var m := |pattern|;
    ScanFromShape(text, pattern, i, 0);
    if |s| == m && forall k :: 0 <= k < |s| ==> s[k].matched {
      forall k | 0 <= k < m ensures text[i..i + m][k] == pattern[k] {
        assert s[k] == Probe(text, pattern, i, k);
      }
    }
    if OccursAt(text, pattern, i) {
      forall k | 0 <= k < |s| ensures s[k].matched {
        assert s[k] == Probe(text, pattern, i, k);
        assert text[i..i + m][k] == text[i + k];
      }
    }
  }

  /** With a non-empty pattern, `k` offsets make at least `k` and at most
      `k * |pattern|` comparisons. */
  lemma {:induction false} CountBeforeBounds(text: string, pattern: string, k: nat)
    requires 1 <= |pattern|
    requires k <= OffsetCount(|text|, |pattern|)
    ensures k <= CountBefore(text, pattern, k) <= k * |pattern|
  {
    if k > 0 {
      CountBeforeBounds(text, pattern, k - 1);
      ScanShortCircuit(text, pattern, k - 1);
      assert (k - 1) * |pattern| + |pattern| == k * |pattern|;
    }
  }

  /** A step's running total is the previous step's plus its own number of
      comparisons, so with a non-empty pattern the totals strictly increase. */
  lemma RunningTotalStep(text: string, pattern: string, k: nat)
    requires k + 1 < OffsetCount(|text|, |pattern|)
    ensures StepAt(text, pattern, k + 1).totalComparisons ==
            StepAt(text, pattern, k).totalComparisons + |StepAt(text, pattern, k + 1).comparisons|
    ensures 1 <= |pattern| ==>
            StepAt(text, pattern, k).totalComparisons < StepAt(text, pattern, k + 1).totalComparisons
  {
    ScanShortCircuit(text, pattern, k + 1);
  }

  /** With a non-empty pattern, a later step's running total is strictly
      larger than an earlier one's. */
  lemma {:induction false} TotalsIncrease(text: string, pattern: string, a: nat, b: nat)
    requires 1 <= |pattern|
    requires a < b < OffsetCount(|text|, |pattern|)
    ensures StepAt(text, pattern, a).totalComparisons < StepAt(text, pattern, b).totalComparisons
    decreases b - a
  {
    RunningTotalStep(text, pattern, b - 1);
    if a < b - 1 {
      TotalsIncrease(text, pattern, a, b - 1);
    }
  }

  /** On the steps the matcher records for a non-empty pattern: each step
      holds between 1 and `|pattern|` comparisons, the running totals
      strictly increase, and the total over all `N` steps lies between `N`
      and `N * |pattern|`. */
  lemma TraceBounds(text: string, pattern: string, steps: seq<Step>)
    requires 1 <= |pattern|
    requires |steps| == OffsetCount(|text|, |pattern|)
    requires forall k :: 0 <= k < |steps| ==> steps[k] == StepAt(text, pattern, k)
    ensures forall k :: 0 <= k < |steps| ==> 1 <= |steps[k].comparisons| <= |pattern|
    ensures forall a, b :: 0 <= a < b < |steps| ==>
      steps[a].totalComparisons < steps[b].totalComparisons
    ensures |steps| <= TotalRecorded(steps) <= |steps| * |pattern|
  {
    RecordedCount(text, pattern, steps);
    CountBeforeBounds(text, pattern, |steps|);
    forall k | 0 <= k < |steps| ensures 1 <= |steps[k].comparisons| <= |pattern| {
      ScanShortCircuit(text, pattern, k);
    }
    forall a, b | 0 <= a < b < |steps|
      ensures steps[a].totalComparisons < steps[b].totalComparisons
    {
      TotalsIncrease(text, pattern, a, b);
    }
  }

  /** Appending a step adds its comparisons to the total and, if it is a full
      match, its offset to the matched starts. */
  lemma AppendStep(steps: seq<Step>, s: Step)
    ensures TotalRecorded(steps + [s]) == TotalRecorded(steps) + |s.comparisons|
    ensures MatchedStarts(steps + [s]) == MatchedStarts(steps) + (if s.isMatch then [s.startPos] else [])
  {
  }

  /** Over steps holding the reference comparisons at offsets `0, 1, ...`,
      the comparisons recorded add up to the reference count. */
  lemma {:induction false} RecordedCount(text: string, pattern: string, steps: seq<Step>)
    requires |steps| <= OffsetCount(|text|, |pattern|)
    requires forall k :: 0 <= k < |steps| ==> steps[k].comparisons == Scan(text, pattern, k)
    ensures TotalRecorded(steps) == CountBefore(text, pattern, |steps|)
    decreases |steps|
  {
    if steps != [] {
      RecordedCount(text, pattern, steps[..|steps| - 1]);
    }
  }

  /** Steps whose running totals each add the step's own comparisons to the
      previous step's total: each total counts the comparisons recorded in
      that step and in all steps before it. */
  lemma {:induction false} RunningTotals(steps: seq<Step>)
    requires 0 < |steps| ==> steps[0].totalComparisons == |steps[0].comparisons|
    requires forall j, k :: 0 <= j && k == j + 1 && k < |steps| ==>
      steps[k].totalComparisons == steps[j].totalComparisons + |steps[k].comparisons|
    ensures forall k {:trigger steps[k]} :: 0 <= k < |steps| ==> steps[k].totalComparisons == TotalRecorded(steps[..k + 1])
    decreases |steps|
  {
    if steps != [] {
      var last := |steps| - 1;
      var init := steps[..last];
      assert forall k :: 0 <= k < |init| ==> init[k] == steps[k];
      RunningTotals(init);
      forall k | 0 <= k < last
        ensures steps[k].totalComparisons == TotalRecorded(steps[..k + 1])
      {
        assert steps[..k + 1] == init[..k + 1];
      }
      assert steps[..last + 1] == steps;
      if 0 < last {
        assert init[..last] == init;
        assert steps[last - 1].totalComparisons == TotalRecorded(init);
      }
    }
  }

  /** The reference steps keep a running total: the first step's total is
      its own number of comparisons, and each later step adds its own to the
      previous step's total. */
  lemma ReferenceRunningTotals(text: string, pattern: string, steps: seq<Step>)
    requires |steps| <= OffsetCount(|text|, |pattern|)
    requires forall k :: 0 <= k < |steps| ==> steps[k] == StepAt(text, pattern, k)
    ensures 0 < |steps| ==> steps[0].totalComparisons == |steps[0].comparisons|
    ensures forall j, k :: 0 <= j && k == j + 1 && k < |steps| ==>
      steps[k].totalComparisons == steps[j].totalComparisons + |steps[k].comparisons|
  {
    if 0 < |steps| {
      assert steps[0] == StepAt(text, pattern, 0);
      assert CountBefore(text, pattern, 1) == CountBefore(text, pattern, 0) + |Scan(text, pattern, 0)|;
    }
  }

  /** Steps recorded as the reference says: the running total of each step is
      the number of comparisons recorded in it and in all steps before it. */
  lemma RecordedTotals(text: string, pattern: string, steps: seq<Step>)
    requires |steps| <= OffsetCount(|text|, |pattern|)
    requires forall k :: 0 <= k < |steps| ==> steps[k] == StepAt(text, pattern, k)
    ensures forall k {:trigger steps[k]} :: 0 <= k < |steps| ==> steps[k].totalComparisons == TotalRecorded(steps[..k + 1])
  {
    ReferenceRunningTotals(text, pattern, steps);
    RunningTotals(steps);
  }

  /** Steps at offsets `0, 1, ...` give matched starts in increasing order,
      each one an offset of some step. */
  lemma {:induction false} MatchedStartsIncrease(steps: seq<Step>)
    requires forall k :: 0 <= k < |steps| ==> steps[k].startPos == k
    ensures Increasing(MatchedStarts(steps))
    ensures forall x :: x in MatchedStarts(steps) ==> x < |steps|
    decreases |steps|
  {
    if steps != [] {
      var init := steps[..|steps| - 1];
      var x := |steps| - 1;
      MatchedStartsIncrease(init);
      var ms := MatchedStarts(init);
      assert steps[x].startPos == x;
      if steps[x].isMatch {
        assert MatchedStarts(steps) == ms + [x];
        forall a, b | 0 <= a < b < |ms| + 1 ensures (ms + [x])[a] < (ms + [x])[b] {
          assert ms[a] in ms;
        }
      } else {
        assert MatchedStarts(steps) == ms;
      }
    }
  }

  /** Over steps at offsets `0, 1, ...` whose full-match flag says whether
      the pattern occurs there, the matched starts are exactly the offsets
      where the pattern occurs. */
  lemma {:induction false} MatchedStartsAreOccurrences(text: string, pattern: string, steps: seq<Step>)
    requires forall k :: 0 <= k < |steps| ==>
      steps[k].startPos == k && (steps[k].isMatch <==> OccursAt(text, pattern, k))
    ensures forall x :: x in MatchedStarts(steps) <==> 0 <= x < |steps| && OccursAt(text, pattern, x)
    decreases |steps|
  {
    if steps != [] {
      MatchedStartsAreOccurrences(text, pattern, steps[..|steps| - 1]);
    }
  }

  /** Sequences with the same elements are empty together. */
  lemma SameElementsEmpty(s: seq<nat>, t: seq<nat>)
    requires forall x :: x in s <==> x in t
    ensures s == [] <==> t == []
  {
    if s != [] { assert s[0] in t; }
    if t != [] { assert t[0] in s; }
  }

  /** Two increasing sequences with the same elements, each split into its
      front and its last element: the fronts are increasing with the same
      elements, and the last elements agree. */
  lemma SameLast(s: seq<nat>, t: seq<nat>, s': seq<nat>, t': seq<nat>, a: nat, b: nat)
    requires Increasing(s) && Increasing(t)
    requires forall x :: x in s <==> x in t
    requires s == s' + [a] && t == t' + [b]
    ensures Increasing(s') && Increasing(t')
    ensures a == b
    ensures forall x :: x in s' <==> x in t'
  {
    FrontBelowLast(s, s', a);
    FrontBelowLast(t, t', b);
    assert a in s && b in t;
    assert a in t && b in s;
  }

  /** The front of an increasing sequence is increasing, and its elements
      lie below the last element. */
  lemma FrontBelowLast(s: seq<nat>, init: seq<nat>, last: nat)
    requires Increasing(s) && s == init + [last]
    ensures Increasing(init)
    ensures forall x :: x in s <==> x in init || x == last
    ensures forall x :: x in init ==> x < last
  {
    assert forall k :: 0 <= k < |init| ==> s[k] == init[k];
    assert s[|init|] == last;
    forall x | x in init ensures x < last {
      var i :| 0 <= i < |init| && init[i] == x;
      assert s[i] == x;
    }
  }

  /** An increasing sequence is determined by its elements: two increasing
      sequences with the same elements are equal. So the list of matches is
      fixed by the set of offsets where the pattern occurs. */
  lemma {:induction false} IncreasingUnique(s: seq<nat>, t: seq<nat>)
    requires Increasing(s) && Increasing(t)
    requires forall x :: x in s <==> x in t
    ensures s == t
    decreases |s| + |t|
  {
    SameElementsEmpty(s, t);
    if s != [] {
      var s', t' := s[..|s| - 1], t[..|t| - 1];
      var a, b := s[|s| - 1], t[|t| - 1];
      assert s == s' + [a];
      assert t == t' + [b];
      SameLast(s, t, s', t', a, b);
      IncreasingUnique(s', t');
    }
  }
}
