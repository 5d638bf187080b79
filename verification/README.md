# Budget session model

A Dafny model of the session logic of the budgeting form `BudgetApp`. The user builds a ledger of line items. Each item has a name, a time, a complexity and a cost. The form averages the three numeric columns into a summary. The user can then switch to edit mode and override one summary value. The other two values are then chosen from a fixed threshold table.

The session state is an immutable `Session` record with four parts:
- `items`: the ledger.
- `draft`: the item being typed.
- `budget`: the summary, absent until first computed.
- `editing`: whether the summary is shown as inputs.

Every control of the form is a pure transition function on that record.

Modules:
- `Wrappers`: the `Option` type.
- `Records`: line items (`Item`), the summary (`Summary`) and the column selector `Metric`.
- `Ledger`: column sums and averages, the one-pass accumulation loop, and lemmas about sums and averages.
- `Overrides`: field names, the override function, and the threshold table written out as data (`Rules`). Lemmas connect the two.
- `BudgetApp`: the session, its transitions (`AddItem`, `CalculateBudget`, `UpdateBudget`, `ToggleEditing`, `EditDraft`), and event sequences (`Step`, `Run`). It also holds the invariant `Valid`, which every reachable state satisfies.

Numbers are Dafny `real`, so averages are exact divisions. Fixed-decimal formatting of the averages is a parameter `round: (real, nat) -> real` of `CalculateBudget`. It is applied with 1 decimal place for time and complexity and 2 for cost. The model assumes nothing else about it.

## Model

| member | source | states |
|---|---|---|
| `Ledger.Accumulate` | src/App.jsx:18-23 | The reduce starts from a zero accumulator and yields, for each of the three columns, the sum of that column over the whole ledger. |
| `Ledger.TotalConcat` | src/App.jsx:18-23 | The sum over two ledgers laid end to end is the sum of their two sums. |
| `Ledger.TotalBounds` | src/App.jsx:18-23 | If every item's value in a column lies in [lo, hi], the column sum lies between n·lo and n·hi. |
| `Ledger.MeanBounds` | src/App.jsx:25-29 | The average of a non-empty ledger's column lies within the range of that column's values. A ledger whose items agree on a column averages to that value. |
| `Ledger.MeanAfterAppend` | src/App.jsx:12-29 | After one item is appended, the average is the old sum plus the new value, divided by the old count plus one. |
| `Overrides.ParseField` | src/App.jsx:41-49 | A field name selects a column exactly when it equals "time", "complexity" or "cost", and then it selects the column of that name. Any other name is kept as an unrecognised field. |
| `Overrides.ParseFieldRoundTrip` | src/App.jsx:41-53 | Parsing a name and printing the field gives the name back. Printing a well-formed field and parsing it gives the field back. |
| `Overrides.Override` | src/App.jsx:35-56 | The edited column takes the entered value exactly, with no rounding. An unrecognised field leaves all three values unchanged. |
| `Overrides.OverrideTimeRule` | src/App.jsx:41-44 | Time v ≤ 5 gives (v, 3, 1000). Time v > 5 gives (v, 8, 500). |
| `Overrides.OverrideComplexityRule` | src/App.jsx:45-48 | Complexity v ≥ 7 gives (10, v, 2000). Complexity v < 7 gives (3, v, 800). |
| `Overrides.OverrideCostRule` | src/App.jsx:49-52 | Cost v ≥ 2000 gives (10, 8, v). Cost v < 2000 gives (4, 2, v). |
| `Overrides.RulesEnterOnlyTheEditedColumn` | src/App.jsx:41-53 | In every row of the threshold table, the entered value lands in the edited column and in no other column. |
| `Overrides.RulesPartition` | src/App.jsx:41-53 | For every column and every entered value, exactly one row of the table applies. The conditions of each column split the number line with no gap and no overlap. |
| `Overrides.OverrideMatchesRules` | src/App.jsx:41-55 | Overriding a column gives exactly the summary of the table row that applies. |
| `Overrides.OverrideIgnoresPrevious` | src/App.jsx:35-55 | Overriding a column gives the same summary whatever summary it replaces. |
| `Overrides.OverrideLastWins` | src/App.jsx:35-55 | Of two overrides in a row, only the second counts when it names a column. When the second names no column, only the first counts. Repeating an override changes nothing, so overrides are idempotent. |
| `Overrides.OverrideExamples` | src/App.jsx:41-53 | The table's boundary values: time 3, 5 and 7; complexity 7 and 6; cost 2000 and 1999. An unrecognised field name leaves the summary unchanged. |
| `BudgetApp.AddItem` | src/App.jsx:10-14 | With an empty draft name nothing changes. Otherwise the ledger grows by exactly one item. The earlier items are kept in order, the new last item is the draft, and the draft resets to an empty name and zero values. The summary and edit flag are untouched. |
| `BudgetApp.CalculateBudget` | src/App.jsx:16-33 | On an empty ledger nothing changes. Otherwise each summary value is the column sum divided by the item count, rounded to 1, 1 and 2 places. Edit mode is left. The ledger and draft are untouched. |
| `BudgetApp.UpdateBudget` | src/App.jsx:35-56 | Only the summary changes, and it stays present. The edited column takes the entered value. An unrecognised field leaves the session unchanged. |
| `BudgetApp.ToggleEditing` | src/App.jsx:125 | The edit flag flips. Nothing else changes. |
| `BudgetApp.EditDraft` | src/App.jsx:85-96 | A keystroke changes one input of the draft and keeps the draft's other inputs. The ledger, summary and edit flag are untouched. |
| `BudgetApp.StepPreservesValid` | src/App.jsx:10-56 | Every event the form offers keeps three facts true: all ledger items are named, a summary exists only over a non-empty ledger, and edit mode is on only while a summary exists. No event removes an item or the summary. |
| `BudgetApp.RunPreservesValid` | src/App.jsx:5-56 | Any sequence of offered events from a valid state ends in a valid state whose ledger extends the starting ledger. |
| `BudgetApp.ReachableIsValid` | src/App.jsx:5-8 | Every state reachable from the initial session is valid. |
| `BudgetApp.ToggleTwice` | src/App.jsx:125 | Toggling edit mode twice restores the session. |
| `BudgetApp.CalculateIdempotent` | src/App.jsx:16-33 | Computing the summary twice in a row gives the same result as computing it once. |
| `BudgetApp.CalculateDiscardsOverride` | src/App.jsx:16-56 | Recomputing after a manual override gives what computing would have given without the override. |
| `BudgetApp.AddThenCalculate` | src/App.jsx:10-29 | After adding a named draft and recomputing, each value is the rounded value of (old sum + draft value) / (old count + 1). |
| `BudgetApp.CalculateWithinRange` | src/App.jsx:18-29 | Without rounding, each summary value is the column average and lies within the range of that column's values. |
| `BudgetApp.AveragingExample` | src/App.jsx:16-33 | The ledger (4, 2, 800), (6, 4, 1200) averages to (5, 3, 1000) under any rounding that keeps whole numbers. |

Two members have no contract of their own: `BudgetApp.Step` applies one event and `BudgetApp.Run` applies a sequence of them. A control the form does not render at that moment cannot fire. Override inputs appear only while a summary is shown in edit mode (src/App.jsx:102-115). The edit toggle appears only while a summary is shown (src/App.jsx:102, 125). `Run` returns `None` for a sequence that uses a control that is not rendered.

## Left out

- Fixed-decimal formatting with `toFixed` (src/App.jsx:26-28) works on binary doubles. It is the `round` parameter of `CalculateBudget`. No property of it is proved except where a lemma states its assumption (`AveragingExample` assumes that whole numbers are kept).
- The summary's values are display strings after averaging and numbers after an override. The model keeps them as numbers throughout. The re-conversion with `Number` (src/App.jsx:36-38) is the identity on such strings, so an unrecognised field leaves the values numerically unchanged.
- `Number` conversion of the draft's text inputs is not modelled (src/App.jsx:19-21, 39, 88-96). Neither is `NaN` for non-numeric text. Inputs are assumed to be numbers already.
- `BudgetApp.UpdateBudget` requires a summary to be present. The source reads `budget.time` without a check and would throw on `null`. The form only renders the override inputs while a summary is shown.
- `exportToPDF` (src/App.jsx:58-67) is left out: it delegates to an external PDF library and triggers a file download.
- The share links (src/App.jsx:69-78) are left out: they are URL encoding and string concatenation with no domain rule.
- JSX rendering and styling (src/App.jsx:80-139) are left out, except which controls are rendered in which state (`BudgetApp.Enabled`).
- src/main.jsx only mounts the component. It has no logic.
- Floating-point arithmetic is not modelled: sums and averages are exact.
- On an empty ledger, the computation leaves any previous summary in place. It does not produce an absent summary. The two readings agree because `Valid` shows that no summary can exist over an empty ledger.
