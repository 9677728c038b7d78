# SWOT analysis screen

A Dafny model of the SWOT analysis screen of a React Native app. The user fills
in a form of draft rows. Each row has a category (one of Strengths,
Weaknesses, Opportunities and Threats, picked from a per-row dropdown), a
description and a score typed as text. "Add" appends a blank row. "Average"
submits the form:
- every row whose category is one of the four labels and whose description
  and score are both non-empty is committed;
- its parsed score is added to its category's running total;
- a results pop-up opens.

The pop-up shows:
- the overall score, which is the sum of the four totals divided by four;
- each total;
- a verdict: favourable when Strengths plus Opportunities strictly exceed
  Weaknesses plus Threats, "needs adjustment" otherwise;
- a bar chart labelled S, W, O, T.

The project has four modules:
- `Entries` (entries.dfy) holds the values:
  - the categories;
  - a draft row, whose criteria text is kept as either one of the four labels
    or some other text, with an exact round trip to the text;
  - the per-row edits;
  - a committed entry;
  - the totals record.
- `Aggregation` (aggregation.dfy) holds:
  - the acceptance test;
  - `Accepted`, the reference definition of what a submission commits;
  - per-category sums, and the lemmas that tie the running totals to the
    committed entries.
- `Results` (results.dfy) holds what the pop-up shows: the verdict, the
  overall score and the chart data.
- `Screen` (screen.dfy) is the screen's state:
  - it is the class `SwotAnalysis`, with the draft rows, the committed entries,
    the totals and the pop-up flag;
  - it has one method per handler;
  - its invariant `Valid` says that each total is the sum of the committed
    scores of its category;
  - `Submit` runs its loop in `CommitQualifying`, which is proved against
    `Accepted` and `Accumulate`.

The pop-up opens on every submission, even one that commits nothing
(app/index.tsx:53 sets the flag unconditionally). The model follows the code.
The draft rows are not cleared after a submission, because the reset at
app/index.tsx:54 is commented out. So submitting twice commits the same rows
twice (`ResubmitCountsTwice`).

## Model

| member | source | states |
|---|---|---|
| Entries.CategoryOfExact | app/index.tsx:42 | a criteria text is in the list of the four labels as category c exactly when it equals c's label |
| Entries.ReadCriteria | app/index.tsx:42 | a criteria text is read as a category label exactly when it is one of the four labels |
| Entries.CriteriaRoundTrip | app/index.tsx:25-29 | storing a criteria text and reading it back gives the same text, and the reverse, so no text the user enters is lost or merged with another |
| Entries.SetField | app/index.tsx:25-29 | setting one field of a row gives that field the new value and leaves the other fields and the dropdown flag unchanged |
| Entries.EditAt | app/index.tsx:25-29 | editing row i sets field f of row i to the value, keeps its other fields and its dropdown flag, keeps every other row and keeps the number of rows |
| Entries.ToggleAt | app/index.tsx:66-70 | toggling row i flips its dropdown flag, keeps its texts, keeps every other row and keeps the number of rows |
| Entries.ToggleTwice | app/index.tsx:66-70 | toggling the same row twice restores the form |
| Entries.Totals.Add | app/index.tsx:45 | adding x to category c raises c's total by x and leaves the other three totals unchanged |
| Aggregation.QualifiesOnText | app/index.tsx:42 | a row is accepted exactly when its criteria text is one of the four labels and its description and score texts are non-empty |
| Aggregation.Commit | app/index.tsx:42-44 | an accepted row is committed under the category its criteria text names (the text is that category's label and the four-label test maps it to that category), with its description text and the parse of its score text |
| Aggregation.Accepted | app/index.tsx:40-47 | a submission commits at most as many entries as there are rows |
| Aggregation.AcceptedSingle | app/index.tsx:40-47 | a form whose only row qualifies commits exactly that row |
| Aggregation.AcceptedStep | app/index.tsx:40-47 | going over one more row appends its committed form when it qualifies and nothing otherwise |
| Aggregation.AcceptedAppend | app/index.tsx:40-47 | what a submission commits from two blocks of rows is what it commits from the first block followed by what it commits from the second |
| Aggregation.QualifyingIndices | app/index.tsx:40-42 | the selected row indices are in range and strictly increasing |
| Aggregation.QualifyingIndicesExact | app/index.tsx:40-42 | a row's index is selected exactly when the row qualifies |
| Aggregation.AcceptedFollowsRows | app/index.tsx:40-47 | the k-th committed entry is the committed form of the k-th qualifying row, so entries keep row order and one entry is committed per qualifying row |
| Aggregation.NothingAccepted | app/index.tsx:40-47 | a submission commits nothing exactly when no row qualifies |
| Aggregation.SkippedRowIgnored | app/index.tsx:42 | removing a row that does not qualify does not change what a submission commits |
| Aggregation.CategorySumAppend | app/index.tsx:45 | a category's sum over two lists of entries joined together is the sum of its sums over each list |
| Aggregation.CategorySumSingle | app/index.tsx:45 | a single entry adds its score to its own category's sum only |
| Aggregation.AccumulateStep | app/index.tsx:45 | accumulating one more entry adds its score to its own category's total |
| Aggregation.AccumulateByCategory | app/index.tsx:40-47 | accumulating a list of entries raises each category's total by exactly the sum of that category's scores in the list |
| Aggregation.AccumulateKeepsAggregation | app/index.tsx:35-52 | if the totals agree with the committed entries before a submission, they still agree after it |
| Aggregation.ResubmitCountsTwice | app/index.tsx:35-54 | submitting an unchanged form twice adds each accepted score to its category twice |
| Aggregation.BalanceByCategory | app/index.tsx:151-153 | the signed balance of the entries is the Strengths and Opportunities sums minus the Weaknesses and Threats sums |
| Aggregation.TotalByCategory | app/index.tsx:145 | the four category sums add up to the sum of all committed scores |
| Results.ChartData | app/index.tsx:57-64 | the chart has four bars, and the bar at each category's position is that category's total |
| Results.ChartLabels | app/index.tsx:58 | the chart has four labels, and the label at each category's position is the initial of its name |
| Results.VerdictFromEntries | app/index.tsx:151-153 | with totals that agree with the committed entries, the verdict is favourable exactly when the committed Strengths and Opportunities scores outweigh the Weaknesses and Threats scores, and a tie is not favourable |
| Results.OverallFromEntries | app/index.tsx:145 | with totals that agree with the committed entries, the overall score is the sum of all committed scores divided by four |
| Results.OverallIsChartMean | app/index.tsx:145 | the overall score is the mean of the chart's four bars |
| Screen.CommitQualifying | app/index.tsx:36-47 | the loop appends exactly the accepted entries, in row order, to the committed list, and raises each category's total by the sum of that category's accepted scores |
| Screen.SingleRowSubmission | app/index.tsx:40-47 | submitting the single row Strengths, "x", "10" commits exactly one entry, and accumulating it from zero totals gives (10, 0, 0, 0) |
| Screen.SwotAnalysis.constructor | app/index.tsx:17-23 | the screen starts with one blank row, nothing committed, all totals zero and the pop-up hidden |
| Screen.SwotAnalysis.EditField | app/index.tsx:25-29 | edits only the named field of the named row; the committed entries, the totals and the pop-up are unchanged |
| Screen.SwotAnalysis.AddRow | app/index.tsx:31-33 | appends one blank row and changes nothing else |
| Screen.SwotAnalysis.ToggleDropdown | app/index.tsx:66-70 | flips only that row's dropdown flag and changes nothing else |
| Screen.SwotAnalysis.PickCategory | app/index.tsx:92-95 | the row's category becomes the picked one, an open dropdown closes, and nothing else changes |
| Screen.SwotAnalysis.Submit | app/index.tsx:35-55 | appends the accepted entries to the committed list, raises each total by the sum of its category's accepted scores, keeps the draft rows, opens the pop-up, and keeps the totals in agreement with the committed entries |
| Screen.SwotAnalysis.DismissResults | app/index.tsx:134-138 | hides the pop-up and changes nothing else |

## Left out

- Score parsing: `parseFloat` is a parameter `parse: string -> real` of the submission. Floating-point rounding, NaN for text that is not a number, and the partial-prefix parsing are not modelled. Scores and totals are exact reals.
- Field keys: the field key passed to the row edit handler is the closed choice criteria, description or score. The dropdown flag changes only through the toggle, as in the screen's own calls.
- An index past the end of the form is a precondition of the row handlers. In the app such an index would raise a type error, and the screen never produces one.
- React state: the setter semantics of `useState` are not modelled. Neither are batching, re-rendering and the in-place mutation of the shared row objects by the shallow copies. Each handler is modelled as one atomic update of the screen's state.
- `console.log` of the totals (app/index.tsx:49) is an output-only side effect and is not modelled.
- Rendering is not modelled: the layout, the styles, the `Modal` and `BarChart` components, the window width and the texts of the verdict (only which of the two is shown).
- The `Card` and `Button` components (app/index.tsx:6-14) are presentational and are not part of this model.
