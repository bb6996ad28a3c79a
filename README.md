# Naive string matching with a recorded trace

The system is a teaching tool for the naive string-matching algorithm. Its
one piece of real logic is `naive_string_matching_with_steps`. It tries every
offset `i` from `0` to `n - m`, where `n` and `m` are the lengths of the text
and the pattern. At each offset it compares `pattern[j]` with `text[i + j]`
for `j = 0, 1, ...` and stops after the first mismatch. Each comparison is
recorded with the text position, the pattern position, both characters and
whether they were equal. Each offset becomes a step record, which holds:

- the start offset;
- the comparisons made at that offset;
- whether the whole pattern matched there;
- the running number of comparisons made so far.

Every offset that matches in full is collected into the list of matches. The
function returns the steps, the matches and the number of comparisons. Before
calling it, the application's entry point rejects two kinds of input: empty
text or pattern, and a pattern longer than the text.

The project has four modules:

- `Trace` (`trace.dfy`) holds the records as datatypes and the reference
  definitions the matcher is proved against:
  - `OccursAt` says the pattern occurs at an offset;
  - `Scan` is the comparisons made at one offset;
  - `CountBefore` is the number of comparisons made at the offsets before `k`;
  - `StepAt` is the step recorded for an offset;
  - `MatchedStarts` and `TotalRecorded` read back over a list of steps.

  It also holds the lemmas about these definitions.
- `Matcher` (`matcher.dfy`) holds the algorithm as an imperative method. The
  outer `for` loop appends to `steps` and `matches` and updates the running
  counter. The inner loop, with its `break`, is the method `CompareAt`.
- `Simulator` (`simulator.dfy`) holds the input checks, the notice shown for a
  rejection, and the guarded call to the matcher.
- `Scenarios` (`scenarios.dfy`) covers the five preset examples the
  application offers. For each it states where the pattern occurs, the total
  comparison count, and what the matcher returns when run on it. The counts
  are proved a few offsets at a time, over any text and pattern that have the
  preset's characters; this keeps the solver from evaluating the whole count
  on the literal strings at once.

The matcher takes no precondition, because the Python function checks
nothing itself. A pattern longer than the text gives an empty `range` and so
no steps. An empty pattern gives `n + 1` steps, each with no comparisons and
each a match. Both cases are modelled as the code behaves.

The field `match` of a comparison is called `matched`, because `match` is a
Dafny keyword.

Two of the presets are worth noting:

- In "ABAAABCDABABCABCABCDAB", the pattern "ABCAB" occurs at offsets 10 and 13.
- In "AAAAAAAAAB", the pattern "AAAAB" occurs at offset 5. Each of the five
  offsets before it makes exactly five comparisons.

## Model

| member | source | states |
|---|---|---|
| Matcher.NaiveStringMatchingWithSteps | final.py:7-47 | Exactly `OffsetCount(n, m)` steps (`n - m + 1`, or none when `m > n`). Step `k` is `StepAt(k)`: start offset `k`, the comparisons `Scan(k)`, full match exactly when the pattern occurs at `k`, running total `CountBefore(k + 1)`. `matches` is the ordered start offsets of the full-match steps; it is strictly increasing and holds exactly the offsets where the pattern occurs. The returned count is the sum of all steps' comparisons and equals the last step's running total. Each step's total is the comparisons recorded in it and in every earlier step. |
| Matcher.CompareAt | final.py:19-35 | The inner loop at one offset records exactly `Scan(i)`. `current_match` stays true exactly when every recorded comparison matched. The step is a full match exactly when the pattern occurs at `i`. The counter grows by one per recorded comparison. |
| Trace.ScanEntries | final.py:22-31 | Within a step, comparison `k` has text position `i + k`, pattern position `k`, characters `text[i + k]` and `pattern[k]`, and a match flag equal to their equality. There are at most `m` comparisons. |
| Trace.ScanShortCircuit | final.py:22-35 | At most `m` comparisons, and at least one when `m >= 1`. Every comparison but the last is a match. A step with fewer than `m` comparisons ends in a mismatch. |
| Trace.ScanFromShape | final.py:22-35 | The same shape for the comparisons from pattern position `j` on: at most `m - j` of them, entry `k` probes position `j + k`, and only the last can be a mismatch. |
| Trace.ScanLength | final.py:22-35 | If the first `q` characters match and character `q` does not, the step makes `q + 1` comparisons. If all `m` characters match, it makes `m`. |
| Trace.ScanRecorded | final.py:19-40 | Any list of probes at positions `0, 1, ...` that covers the whole pattern or stops at its first mismatch is the scan at `i`. The pattern occurs there exactly when the list covers the whole pattern and every comparison matched. |
| Trace.ScanFullIffOccurs | final.py:20-40 | `is_match` (all `m` comparisons made and all matched) holds exactly when `text[i..i + m] == pattern`, in both directions. |
| Trace.CountBeforeBounds | final.py:18-23 | With `m >= 1`, the first `k` offsets make between `k` and `k * m` comparisons. |
| Trace.RunningTotalStep | final.py:23-41 | A step's running total is the previous step's plus its own number of comparisons. With `m >= 1` it is strictly larger. |
| Trace.TotalsIncrease | final.py:41 | With `m >= 1`, running totals strictly increase from any step to any later step. |
| Trace.TraceBounds | final.py:18-41 | On the recorded steps with `m >= 1`: each step has between 1 and `m` comparisons, running totals strictly increase, and the total over `N = n - m + 1` steps lies between `N` and `N * m`. |
| Trace.AppendStep | final.py:37-45 | Appending a step adds its comparisons to the total and, when it is a full match, appends its offset to the matched starts. |
| Trace.RecordedCount | final.py:13-23 | Steps holding the reference comparisons at offsets `0, 1, ...` record `CountBefore` comparisons in total. |
| Trace.RunningTotals | final.py:13-41 | For any steps whose totals add each step's comparisons to the previous total, every total equals the comparisons recorded in that step and all earlier ones. |
| Trace.ReferenceRunningTotals | final.py:23-41 | The reference steps keep such a running total. The first total is the first step's own count, and each later total adds the step's count to the previous one. |
| Trace.RecordedTotals | final.py:13-47 | On the reference steps, each step's running total equals the comparisons recorded in it and in all earlier steps. |
| Trace.MatchedStartsIncrease | final.py:37-45 | Steps at offsets `0, 1, ...` yield matched starts in strictly increasing order, each one below the number of steps. |
| Trace.IncreasingUnique | final.py:37-45 | Two strictly increasing lists with the same elements are equal. So `matches`, being increasing and holding exactly the occurrences, is determined by them. |
| Trace.MatchedStartsAreOccurrences | final.py:40-45 | When each step's full-match flag says whether the pattern occurs at its offset, the matched starts are exactly the step offsets where the pattern occurs, in both directions. |
| Simulator.CheckInputs | final.py:179-185 | The input passes exactly when `1 <= m <= n`. Empty text or pattern gives `EmptyInput`, checked first. Otherwise a pattern longer than the text gives `PatternTooLong`. |
| Simulator.Notice | final.py:179-185 | Empty input is shown as a warning and a too-long pattern as an error, each with a non-empty message. |
| Simulator.Simulate | final.py:179-188 | Rejected exactly when the input checks fail, with the error they report. Otherwise it returns the matcher's result, which has `n - m + 1` steps, 1 to `m` comparisons per step, strictly increasing totals, matches that are exactly the occurrences in increasing order, and a total between `n - m + 1` and `(n - m + 1) * m`. |
| Scenarios.SimpleExampleMatches | final.py:162 | In "ABAAABCDABABCABCABCDAB", "ABCAB" occurs exactly at offsets 10 and 13. |
| Scenarios.SimpleExampleComparisons | final.py:162 | On the "Simple Example" preset the matcher makes 38 comparisons over 18 offsets, 5 at each of the two matches and 1 to 4 elsewhere. |
| Scenarios.RunSimpleExample | final.py:162 | Running the matcher on the "Simple Example" preset returns the matches `[10, 13]` and the count 38. |
| Scenarios.DnaSequenceMatches | final.py:163 | In "ATCGATCGATCGATCG", "GATC" occurs exactly at offsets 3, 7 and 11. |
| Scenarios.DnaSequenceComparisons | final.py:163 | On the "DNA Sequence" preset the matcher makes 22 comparisons over 13 offsets, 4 at each of the three matches and 1 at each of the other 10. |
| Scenarios.RunDnaSequence | final.py:163 | Running the matcher on the "DNA Sequence" preset returns the matches `[3, 7, 11]` and the count 22. |
| Scenarios.WorstCaseMatches | final.py:164 | In "AAAAAAAAAB", "AAAAB" occurs exactly at offset 5. |
| Scenarios.WorstCaseComparisons | final.py:164 | On the "Worst Case" preset the matcher makes 30 comparisons: 6 offsets times 5. |
| Scenarios.RunWorstCase | final.py:164 | Running the matcher on the "Worst Case" preset returns the matches `[5]` and the count 30. |
| Scenarios.BestCaseMatches | final.py:165 | In "ABCDEFGHIJ", "ABC" occurs exactly at offset 0. |
| Scenarios.BestCaseComparisons | final.py:165 | On the "Best Case" preset the matcher makes 10 comparisons: 3 at offset 0 and 1 at each of the other 7. |
| Scenarios.RunBestCase | final.py:165 | Running the matcher on the "Best Case" preset returns the matches `[0]` and the count 10. |
| Scenarios.NoMatchMatches | final.py:166 | In "HELLO WORLD", "XYZ" occurs nowhere. |
| Scenarios.NoMatchComparisons | final.py:166 | On the "No Match" preset the matcher makes 9 comparisons: one per offset. |
| Scenarios.RunNoMatch | final.py:166 | Running the matcher on the "No Match" preset returns the matches `[]` and the count 9. |

## Left out

- All Streamlit presentation is outside the model: widgets, tabs, highlighted text, expanders, sliders, charts and tables. It is display over libraries that are not part of this model. The model's outputs are the values this code displays.
- The timed autoplay with `time.sleep` is left out. It is timing and display behaviour.
- The performance calculator's floating-point ratio of worst case to best case is left out. It is display-only arithmetic on floats.
- The `naive_string_matching` code shown on screen is a string literal that is displayed with `st.code` and never run, so it is not modelled.
- The inner loop is written as the method `Matcher.CompareAt`, which the outer loop calls. It threads the running counter in and out, so the behaviour is the same as the nested loop. With both loops in one method, the proof of that one method is too costly for the solver.
- The "Custom" preset takes its text and pattern from the user, so it is covered by the general matcher contract and has no lemma of its own.
- A mode that returns only the matches without a trace is not modelled. The code has no such mode.
