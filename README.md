# SmartPocket expense book — a Dafny model

SmartPocket is a browser expense tracker. Its logic lives in one object, `SmartPocket`, in `script.js`.
Behind the DOM and canvas calls the object keeps a small book of state:

- the logged expenses (`data.expenses`), each a record with an id, category, amount, note and date;
- a monthly budget (`data.monthlyBudget`);
- a persona (`data.ageGroup`).

Four operations change that state: `addExpense`, `deleteExpense`, `setBudget` and `selectAge`.
Everything the page shows is derived from it:

- the budget summary, with its remaining balance coloured danger, warning or ok;
- the list of the ten newest expenses;
- the savings suggestions computed from the share of food, entertainment and shopping in the total;
- the bar chart of totals by category.

The project models that state and those derived views and proves what they promise.

- `expenses.dfy` (module `Expenses`) defines the expense record.
  - Amount validation: `parseFloat` yields a number or NaN; NaN, zero and negative values are refused.
  - The running total, the `reduce` of the amounts.
  - Deletion by id, the `filter`.
  - `String.prototype.trim`, over the ECMAScript white-space and line-terminator characters.
  - The default note: the category with its first letter upper-cased, followed by " expense".
- `pocket.dfy` (module `Pocket`) is the `SmartPocket` state as a class.
  - Its fields are `expenses`, `monthlyBudget` and `ageGroup`.
  - The mutators are methods whose contracts give the whole new state.
  - An invariant says that every stored amount is positive and the budget is not negative; every mutator keeps it.
- `aggregation.dfy` (module `Aggregation`) is the `byCat` loop, used both by the suggestions and by the chart.
  - It is a method that fills a map.
  - It is proved to give each category the total of its records and to have no other keys.
    The map starts empty; the object it models inherits the properties of `Object.prototype`, and the difference this makes for categories with such names is listed under "Left out".
  - The category totals add up to the grand total.
- `summary.dfy` (module `Summary`) is the summary block of `updateUI`.
  - remaining = budget − total.
  - The three-way colour of the remaining balance.
  - How adding or deleting an expense moves that colour.
- `recent.dfy` (module `RecentList`) is the expense list: a stable sort by id, newest first, cut to ten records.
- `suggestions.dfy` (module `Suggestions`) is `generateSavingsSuggestions`.
  - It is a method that runs the source's steps: aggregate, sum the map's values, push messages.
  - It is proved equal to a reference function, and the message rules are proved about that function.
- `barchart.dfy` (module `BarChart`) is the numeric layout of `renderExpenseChart`.
  - It covers the empty state, bar heights against the largest total, x positions, the palette index and label anchors.

The chart is a bar chart with a seven-colour palette.

The id and the date that `addExpense` reads from the clock are parameters. The text fields arrive already read. Amounts are Dafny `real`s.

## Model

| member | source | states |
|---|---|---|
| Expenses.IsPositive | script.js:175 | the amount guard, the negation of `!amount \|\| amount <= 0` (the same test guards `setBudget` at line 159): NaN, zero and negative values fail; a number strictly above zero passes |
| Expenses.Total | script.js:208 | by definition the left fold of the amounts from 0, oldest record first, as `reduce((s, e) => s + e.amount, 0)` |
| Expenses.TotalAppend | script.js:208 | appending a record adds exactly its amount to the running total |
| Expenses.TotalOfPositive | script.js:208 | with positive amounts the total is non-negative, and positive once there is a record |
| Expenses.WithoutId | script.js:198 | the deletion filter: never longer than the book; by definition the records whose id differs from the given one, in their order |
| Expenses.WithoutIdMembers | script.js:198 | a record survives deletion exactly when it was in the book and its id differs |
| Expenses.WithIdMembers | script.js:198 | the records a deletion removes are exactly those carrying the id |
| Expenses.WithoutIdAppend | script.js:198 | the filter distributes over concatenation, so the survivors keep their relative order |
| Expenses.DeletePartition | script.js:198 | kept and removed records together are the old book as a multiset: nothing is lost or invented |
| Expenses.DeleteTotal | script.js:198 | the kept total plus the removed total is the old total |
| Expenses.DeleteAbsent | script.js:198 | deleting an id no record carries leaves the book unchanged |
| Expenses.DeleteIdempotent | script.js:198 | deleting the same id twice is the same as deleting it once |
| Expenses.IsSpace | script.js:173 | by definition the characters `trim` removes: the ECMAScript WhiteSpace characters (tab, vertical tab, form feed, space, no-break space, the byte-order mark and the other space separators) and the LineTerminator characters (line feed, carriage return, line and paragraph separators) |
| Expenses.Trim | script.js:173 | the result is the slice of the note between its leading and trailing white space; it is empty iff the note is all white space; a non-empty result starts and ends with a non-space character |
| Expenses.TrimIdempotent | script.js:173 | trimming a trimmed note changes nothing |
| Expenses.UpperChar | script.js:184 | a lower-case ASCII letter maps to its upper-case letter; every other character is unchanged |
| Expenses.Capitalize | script.js:184 | the first character is upper-cased and the rest of the category is kept |
| Expenses.DefaultNote | script.js:184 | the default note is the capitalised category followed by " expense" |
| Expenses.NoteThrows | script.js:184 | by definition the case where `note || ...` evaluates `category[0].toUpperCase()` on an empty category: the trimmed note is empty and so is the category |
| Expenses.StoredNote | script.js:173-184 | the stored note is the trimmed note when that is non-empty, otherwise the default note; it is never empty |
| Pocket.AddOutcomeOf | script.js:175-188 | by definition the outcome of `addExpense`: the amount guard is checked first, then the `category[0]` throw, otherwise the record is added; `Pocket.SmartPocket.AddExpense` is proved to return it |
| Pocket.SmartPocket.constructor | script.js:59-63 | an empty book with no budget and no persona, satisfying the invariant |
| Pocket.SmartPocket.SelectAge | script.js:134-135 | the persona becomes the given group; budget and expenses are unchanged |
| Pocket.SmartPocket.SetBudget | script.js:157-163 | accepted iff the parsed value is a positive number; then the budget becomes it, otherwise nothing changes |
| Pocket.SmartPocket.AddExpense | script.js:170-188 | an invalid amount, or an empty category with an empty note, leaves the book unchanged; otherwise exactly one record with the given id, category, amount, stored note and date is appended after the unchanged earlier records |
| Pocket.SmartPocket.DeleteExpense | script.js:197-198 | the book becomes the old book without the records carrying the id, in order; the invariant is kept |
| Pocket.DeleteUndoesAdd | script.js:188-198 | deleting the id of a freshly added record whose id was unused restores the previous book |
| Pocket.AddGrowsTotal | script.js:175-188 | an accepted add grows the total by exactly the amount, so it strictly increases |
| Aggregation.Categories | script.js:262-265 | the keys of `byCat` are distinct and are exactly the categories that occur |
| Aggregation.CategoryTotal | script.js:262-265 | the reference value of `byCat[c]`: by definition the left fold from 0 of the amounts of the records filed under `c`, in book order |
| Aggregation.CategoriesAppend | script.js:264 | a record appends its category to the key order unless the category already is a key |
| Aggregation.CategoryTotalAbsent | script.js:262-265 | a category no record carries totals zero |
| Aggregation.CategoryTotalPositive | script.js:262-265 | with positive amounts every occurring category has a positive total |
| Aggregation.TotalsByCategory | script.js:262-265 | the loop's map has a key exactly for each occurring category, each mapped to the sum of its records' amounts; its key order is first-seen order |
| Aggregation.AggregateStep | script.js:264 | one pass of the loop: adding the record's amount to its key, created at zero when absent, turns the aggregate of the records so far into the aggregate of those records and this one |
| Aggregation.Values | script.js:267 | by definition `Object.values(byCat)`: the map's value at each key, in key order; its sum is stated by `Aggregation.ValuesAddUp` |
| Aggregation.Sum | script.js:267 | by definition the left fold of `+` from 0 over the values, as `reduce((a, b) => a + b, 0)` |
| Aggregation.CategoryAmounts | script.js:340 | the reference for `amounts`: one total per category in key order, the i-th being `CategoryTotal` of the i-th category; its sum is stated by `Aggregation.TotalsAddUp` |
| Aggregation.TotalsAddUp | script.js:262-267 | the category totals sum to the grand total of `reduce` |
| Aggregation.ValuesAddUp | script.js:267 | the sum of `Object.values(byCat)` over the loop's map is the grand total |
| Summary.Classify | script.js:213-214 | danger iff remaining < 0; warning iff 0 ≤ remaining < 10% of the budget; ok iff remaining ≥ 0 and at least 10% of the budget |
| Summary.BudgetSummary | script.js:207-214 | the total is the sum of the amounts, remaining + total = budget, and the status classifies the remaining balance |
| Summary.ClassifyMonotone | script.js:213-214 | a smaller remaining balance is never classified as less alarming |
| Summary.OkMeansNinetyPercentLeft | script.js:213-214 | the ok status means at most 90% of the budget is spent |
| Summary.AddNeverImproves | script.js:188-214 | adding a positive expense lowers the remaining balance by its amount and never makes the status less alarming |
| Summary.DeleteNeverWorsens | script.js:198-214 | deleting returns exactly the removed records' total to the balance and never makes the status more alarming |
| RecentList.SortByIdDesc | script.js:226-227 | the sorted copy is a permutation of the book with ids non-increasing |
| RecentList.Recent | script.js:226-228 | min(10, number of records) records, ids non-increasing, each taken from the book without repetition beyond its multiplicity |
| RecentList.SortStable | script.js:227 | the sort is stable: for each id the records carrying it keep their relative order |
| RecentList.RecentAreNewest | script.js:226-228 | every record left out of the list has an id no larger than every record shown |
| RecentList.RecentStrictlyDescending | script.js:226-228 | when ids are distinct the list is strictly newest first |
| Suggestions.SavingsSuggestions | script.js:254-295 | with no expenses exactly the start-tracking message; otherwise one to four messages |
| Suggestions.GenerateSavingsSuggestions | script.js:254-295 | the messages the source pushes, built from the aggregation loop and the sum of its values, equal the reference list; the texts shown are `Suggestions.Text` of each message in order, with the placeholder text alone for an empty book |
| Suggestions.PushPatternAdvice | script.js:268-281 | starting from an empty list, the three conditional pushes give exactly `PatternOf` of the three test outcomes, in push order |
| Suggestions.PushBudgetAdvice | script.js:283-295 | the balanced push when the list is empty, then the budget push, give exactly `Assemble` of the pattern part and `BudgetAdvice` |
| Suggestions.PatternOfContents | script.js:271-281 | each pattern message is present exactly when its test holds, no other message is, and the part is empty iff no test holds |
| Suggestions.BudgetAdviceContents | script.js:288-295 | at most one budget message, only with a positive budget; over-budget iff the balance is negative, near-budget iff it is below a tenth of the budget |
| Suggestions.AssembleContents | script.js:283-295 | the list holds the pattern messages, the balanced message exactly when there are none, then the budget message |
| Suggestions.Heavy | script.js:271-279 | by definition the test `byCat.c && byCat.c > total * share`: the category's total is non-zero (truthy) and strictly above the share of the grand total |
| Suggestions.BudgetAdvice | script.js:288-295 | by definition no message unless the budget is positive; then the over-budget message when the balance is negative, the near-budget message when it is below a tenth of the budget, otherwise none |
| Suggestions.CategoryPresent | script.js:271-279 | `byCat.c && ...` is true iff the category's total is non-zero, reading an absent key as zero |
| Suggestions.PatternMessagesIff | script.js:271-281 | the food, entertainment and shopping messages appear exactly when their category exceeds 30%, 20% or 25% of the total |
| Suggestions.BalancedIff | script.js:283-285 | the balanced message appears exactly when no category exceeds its share |
| Suggestions.AtMostOneBudgetMessage | script.js:288-295 | never both budget messages, and either only with a positive budget and some expenses |
| Suggestions.BudgetMessageMatchesSummary | script.js:207-214 | with any positive budget, including an empty book, the over-budget message matches the danger colour and the near-budget message the warning colour |
| Suggestions.HeavyOfPositive | script.js:271-279 | with positive amounts the truthiness test adds nothing: heavy means present and above the share |
| BarChart.ChartWidth | script.js:345 | by definition the canvas width less the left (40) and right (14) padding |
| BarChart.ChartHeight | script.js:346 | by definition the canvas height less the top (30) and bottom (36) padding |
| BarChart.BarWidth | script.js:347 | by definition the plot width divided by the number of categories, less the 12-unit gap; the fit of the bars is stated by `BarChart.BarsFitHorizontally` |
| BarChart.Max | script.js:341 | the maximum is one of the amounts and bounds them all |
| BarChart.Scale | script.js:341 | `Math.max(...) \|\| 1`: never zero; the maximum whenever that is non-zero, and exactly 1 when the maximum is zero |
| BarChart.RenderExpenseChart | script.js:322-361 | no bars iff no expenses, with the empty-state text centred; otherwise the title anchor and one bar per category total, in key order, laid out by `BarAt` |
| BarChart.LayoutBars | script.js:353-361 | bar i is the layout of the i-th total |
| BarChart.BarAt | script.js:354-379 | by definition the `forEach` body for index i and total `amount`: height (amount / max) × plot height, x = left padding + i × (bar width + 12), y = top padding + plot height − height, colour `colors[i % 7]`, label anchors; its properties are stated by `BarChart.BarShape` |
| BarChart.BarShape | script.js:344-361 | height × scale = amount × plot height; the bar stands on the plot baseline; x = left padding + i × (bar width + 12); colour `colors[i % 7]`; label and value anchors |
| BarChart.HeightsProportional | script.js:355 | the heights of two bars are in the ratio of their totals |
| BarChart.LargestBarIsFullHeight | script.js:341-355 | the bar of the largest total is exactly the plot height |
| BarChart.AmountsPositive | script.js:323-340 | with positive amounts there is at least one category total and every one is positive |
| BarChart.PositiveBarsWithinPlot | script.js:341-357 | with positive amounts every bar has a positive height no taller than the plot and its top lies inside the plot |
| BarChart.BarsEvenlySpaced | script.js:347-356 | neighbouring bars are one bar width plus the 12-unit gap apart |
| BarChart.BarsFitHorizontally | script.js:345-356 | when the plot width is not negative every bar lies between the left padding and the right edge less one gap |
| BarChart.PaletteDistinct | script.js:350 | the seven palette colours are pairwise different |
| BarChart.ColorsCycle | script.js:350-360 | the colour repeats every seven bars and neighbouring bars differ in colour |

## Left out

- DOM querying, `innerHTML` rendering, event binding and `toast` messages: user-interface plumbing with no data rule.
- `Theme` and the `localStorage` load, save and merge: browser storage.
  - As a consequence, a loaded budget that is not a number (`monthlyBudget || 0`) is not modelled; the budget is always a real.
- Canvas calls, `getBoundingClientRect`, `devicePixelRatio`, fonts and CSS colour lookups: only the numeric layout is kept.
  - The canvas width and height are parameters.
- `Date.now()` ids and `toLocaleDateString` / `toLocaleString` formatting: they depend on the environment.
  - The id and the date are parameters.
- `parseFloat` text parsing and IEEE-754 arithmetic: amounts are exact reals and NaN is an explicit value.
  - Infinity, rounding and float summation order are not modelled.
- The static tips table and `updateTips`: a constant lookup with no logic.
- The `forEach` that appends one element per suggestion text (script.js:298-303): DOM output; the texts themselves are the second result of `Suggestions.GenerateSavingsSuggestions`.
- Expenses.UpperChar: models `toUpperCase` for the ASCII letters only; other characters are left as they are, whereas JavaScript also maps non-ASCII letters.
- Aggregation.TotalsByCategory: models `byCat` as a map that starts with no keys. The source's `{}` inherits `Object.prototype`, so for a category named like one of its properties the source diverges: for "constructor", "toString", "valueOf" and the like, `byCat[c] || 0` reads the inherited function and the total becomes a string; the sum of the values then is a string too, every share test and budget test is false and only the balanced message appears, and the chart's `Math.max` is NaN, which `|| 1` replaces by 1; for "__proto__" the write is dropped and the category never becomes a key. Categories come from a fixed select list of plain words (food, transport, entertainment, shopping, bills, health, education, other), none of which is such a name, so these cases are not modelled.
- Aggregation.Categories: models the key order of the `byCat` object as first-insertion order. JavaScript lists integer-like keys (such as "1") first in ascending order; categories come from a fixed select list of words, so that case is not modelled.
- The `category[0]` capitalisation applied to each record's category when the list and the chart labels are rendered. A record with an empty category and a non-empty note can be stored, and rendering it would throw. That happens only in rendering, after the state change, and is not modelled.
- Summary.Classify: takes the budget as a real. When no budget is set (zero), the source's warning threshold `monthlyBudget * 0.1` is zero, which the model covers. A non-numeric budget from storage is not covered.
