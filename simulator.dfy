/** The simulator's entry point: it checks the user's text and pattern
    before running the matcher, and rejects empty input and a pattern longer
    than the text without computing anything. */
module Simulator {
  import opened Trace
  import Matcher

  datatype Option<T> = None | Some(value: T)

  /** Why the input was rejected. */
  datatype InputError = EmptyInput | PatternTooLong

  /** How the rejection is shown: a warning for empty input, an error for a
      pattern that is too long. */
  datatype Severity = Warning | Error

  /** What the matcher returns: the steps, the offsets of the full matches
      and the total number of comparisons. */
  datatype MatchResult = MatchResult(steps: seq<Step>, matches: seq<nat>, totalComparisons: nat)

  datatype Outcome = Rejected(error: InputError) | Computed(result: MatchResult)

  /** The input checks, in the order they are made: emptiness first, then
      the lengths. */
  function CheckInputs(text: string, pattern: string): (r: Option<InputError>)
    ensures r.None? <==> 1 <= |pattern| <= |text|
    ensures r == Some(EmptyInput) <==> (text == [] || pattern == [])
    ensures r == Some(PatternTooLong) <==> (text != [] && pattern != [] && |text| < |pattern|)
  {
    if text == [] || pattern == [] then Some(EmptyInput)
    else if |pattern| > |text| then Some(PatternTooLong)
    else None
  }

  /** The notice shown for a rejected input: empty input is only a warning,
      a pattern longer than the text is an error. */
  function Notice(e: InputError): (r: (Severity, string))
    ensures r.0 == Warning <==> e == EmptyInput
    ensures r.1 != []
  {
    match e
    case EmptyInput => (Warning, "Please enter both text and pattern.")
    case PatternTooLong => (Error, "Pattern cannot be longer than text.")
  }

  /** Checks the input and runs the matcher on it only when it passes. So on
      every computed result there is at least one step, every step holds
      between 1 and `|pattern|` comparisons, the running totals strictly
      increase, and the total lies between `n - m + 1` and `(n - m + 1) * m`. */
  method Simulate(text: string, pattern: string) returns (r: Outcome)
    ensures r.Rejected? <==> !(1 <= |pattern| <= |text|)
    ensures r.Rejected? ==> CheckInputs(text, pattern) == Some(r.error)
    ensures r.Computed? ==> |r.result.steps| == |text| - |pattern| + 1
    ensures r.Computed? ==>
      forall k :: 0 <= k < |r.result.steps| ==> r.result.steps[k] == StepAt(text, pattern, k)
    ensures r.Computed? ==>
      forall k :: 0 <= k < |r.result.steps| ==> 1 <= |r.result.steps[k].comparisons| <= |pattern|
    ensures r.Computed? ==>
      forall a, b :: 0 <= a < b < |r.result.steps| ==>
        r.result.steps[a].totalComparisons < r.result.steps[b].totalComparisons
    ensures r.Computed? ==> r.result.matches == MatchedStarts(r.result.steps)
    ensures r.Computed? ==> forall x :: x in r.result.matches <==> OccursAt(text, pattern, x)
    ensures r.Computed? ==> Increasing(r.result.matches)
    ensures r.Computed? ==>
      r.result.totalComparisons == r.result.steps[|r.result.steps| - 1].totalComparisons
    ensures r.Computed? ==>
      |text| - |pattern| + 1 <= r.result.totalComparisons <= (|text| - |pattern| + 1) * |pattern|
  {
    match CheckInputs(text, pattern)
    case Some(e) =>
      r := Rejected(e);
    case None =>
      var steps, matches, comparisons := Matcher.NaiveStringMatchingWithSteps(text, pattern);
      TraceBounds(text, pattern, steps);
      r := Computed(MatchResult(steps, matches, comparisons));
  }
}
