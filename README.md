# Apache Proteus dashboard core, modelled in Dafny

Apache Proteus is a React dashboard over a license-audit search backend.
This project models the parts of it that compute. It covers:

- **Charts.** The three chart views (Top MIME Types, License Types, All MIME
  Types) aggregate the prefixed fields of every document into a dictionary of
  totals. The two pie charts then rank the totals with a stable sort by
  decreasing value and choose what to draw. The bubble chart builds a
  two-level `flare` hierarchy and flattens it with `classes`.
- **Audit Summary.** This bar chart groups consecutive documents by project
  name and sums seven license counts per group in lockstep. It then zips the
  seven series into one bar per (group, series) pair.
- **Tables.** The Projects table and the Project Details drawer hold their
  search filters, the license prefix filter, the length comparators, the
  keyed rows and their load cycles.
- **Dev messages.** `clean`, `getDevMessage` and `getFormattedMessage` from
  the dev-log helper: a three-step whitespace normaliser and the console
  message built from it.

Modules follow the source. They are:

- `Wrappers`: `Option`, whose `None` stands for `undefined`.
- `Text`: the JavaScript string primitives used.
- `PrefixTotals`: the aggregation loop the three charts share.
- `Ranking`: the stable sort.
- `Legend`: the legend beside the two pie charts.
- One module per view.
- `TableSearch`: what the two tables share.
- `Fetch`: request outcomes and the load flags.
- `DevLogs`: the dev-log helper.

**Mutable state.** A view's `this.state` becomes a datatype field of a
class. `setState` becomes a record update, and `_isMounted` becomes a
boolean field. Each draw of a chart appends the data it lays out to a
`drawn` field, since every call of `drawChart` appends one more SVG element.

**Inputs from outside.** A request's outcome is an input: a response with a
status and documents, or a rejection. `Helpers.uid` is a function parameter.

Five behaviours of the code that a reader might not expect are modelled as
written:

- `count` is only lowered to the number of totals, never raised or clamped
  to a range; a negative `count` draws nothing.
- A field whose value is `undefined` is not skipped. Stored under a key
  with no total yet, it leaves the key open for the next value to replace;
  added to a number, it turns the total into `NaN`. Field values are
  modelled as integers, so neither case is represented.
- The three chart views apply a non-200 response even after unmounting: they
  still call `setState` with the error flag, and the model records the flag
  as set. React ignores a `setState` on an unmounted component, with a
  warning, so that flag is never rendered. Only a rejection is ignored by
  the code itself once unmounted.
- A table field other than the id may be missing from a document. The
  column search calls `toString()` on it, the License filter calls
  `indexOf`, and the sorters read `.length`, all unguarded, so a missing
  field throws. So does the Projects table's cell rendering, which calls
  `text.toString()` on every cell of the rows it shows; the Project Details
  rendering guards it. Cells are `Option<string>`, these operations return
  `None` where the code throws, and the Projects table's view is
  `RenderThrows`.
- A 200 response to the All MIME Types chart whose documents have no
  fields gives no bubbles. `d3.hierarchy` then leaves `root.children`
  undefined, and `.data(root.children).enter()` throws after the SVG is
  appended, so the view ends with the error flag set.

## Model

| member | source | states |
|---|---|---|
| Text.IndexOf | src/components/Elements/ProjectsTable/ProjectDetails.js:270 | the result is -1 exactly when `sub` occurs nowhere; otherwise it is the first character index where `sub` occurs |
| Text.IndexOfZeroIffStartsWith | src/components/Elements/ProjectsTable/ProjectDetails.js:270 | `indexOf(p) === 0` holds exactly when the string starts with `p` |
| Text.IncludesIff | src/components/Elements/ProjectsTable/ProjectsTable.js:119-123 | `includes` holds exactly when the substring occurs at some index |
| Text.SplitJoin | src/components/Elements/AuditSummary/AuditSummary.js:92 | joining the parts of a split with the separator gives the string back |
| Text.SplitPartsAvoidSeparator | src/components/Elements/AuditSummary/AuditSummary.js:92 | no part of a split by a non-empty separator contains the separator |
| Text.SplitSingleIff | src/components/Elements/AuditSummary/AuditSummary.js:92 | a split yields a single part exactly when the separator does not occur |
| Text.Lower | src/components/Elements/ProjectsTable/ProjectsTable.js:122-123 | definition, restated by its ensures (its property is Text.LowerIdempotent): lower-casing keeps the length and maps every character separately |
| Text.LowerIdempotent | src/components/Elements/ProjectsTable/ProjectsTable.js:122-123 | lower-casing twice is lower-casing once |
| Text.Utf16Length | src/components/Elements/ProjectsTable/ProjectDetails.js:222 | a string's `length` is between its number of characters and twice that |
| Text.Utf16LengthAppend | src/components/Elements/ProjectsTable/ProjectDetails.js:222 | `length` adds up over concatenation |
| Text.Utf16LengthOfBmp | src/components/Elements/ProjectsTable/ProjectDetails.js:222 | without astral characters `length` is the number of characters |
| PrefixTotals.KeyBetweenOccurrences | src/components/Elements/TopMimeTypesChart/TopMimeTypesChart.js:119 | `split(prefix)[1]` is the text between the first and second occurrence of the prefix (or up to the end), and is "undefined" when the prefix is absent |
| PrefixTotals.KeyOfPrefixedName | src/components/Elements/TopMimeTypesChart/TopMimeTypesChart.js:119 | the field `prefix + k` is keyed by `k` when `k` does not contain the prefix |
| PrefixTotals.Keyed | src/components/Elements/TopMimeTypesChart/TopMimeTypesChart.js:116-120 | definition, restated by its ensures: every field, in order, is paired with its key and its value |
| PrefixTotals.Accumulated | src/components/Elements/TopMimeTypesChart/TopMimeTypesChart.js:116-129 | the dictionary lists each key once, and its listed keys are exactly the keys with a value |
| PrefixTotals.AccumulatedStep | src/components/Elements/TopMimeTypesChart/TopMimeTypesChart.js:122-126 | one more field is one more set-or-add step |
| PrefixTotals.AccumulatedKeys | src/components/Elements/TopMimeTypesChart/TopMimeTypesChart.js:116-129 | the dictionary has a value for exactly the keys of the fields |
| PrefixTotals.AccumulatedSums | src/components/Elements/TopMimeTypesChart/TopMimeTypesChart.js:122-126 | each key's value is the sum of the values of all fields with that key |
| PrefixTotals.AccumulatedOrder | src/components/Elements/TopMimeTypesChart/TopMimeTypesChart.js:131-139 | `for...in` visits the keys in the order of their first occurrence among the fields |
| PrefixTotals.Accumulate | src/components/Elements/TopMimeTypesChart/TopMimeTypesChart.js:116-129 | the `forEach` loop builds exactly the dictionary of totals of all fields of all documents |
| PrefixTotals.AccumulateDoc | src/components/Elements/TopMimeTypesChart/TopMimeTypesChart.js:117-128 | the `for...in` over one document adds each of its fields, in order |
| PrefixTotals.AddTo | src/components/Elements/TopMimeTypesChart/TopMimeTypesChart.js:122-126 | a key without a value takes the value and is appended to the key order; a known key has the value added |
| PrefixTotals.ToEntries | src/components/Elements/TopMimeTypesChart/TopMimeTypesChart.js:131-139 | one `{key, y}` entry is pushed per key, in key order, carrying the key's value |
| PrefixTotals.EntriesSpec | src/components/Elements/TopMimeTypesChart/TopMimeTypesChart.js:116-139 | `resultingData` has one entry per distinct field key, with the sum of that key's fields, in first-seen order |
| PrefixTotals.EntriesOfSpec | src/components/Elements/TopMimeTypesChart/TopMimeTypesChart.js:131-139 | the entries list the dictionary's keys once each, in order, with their values |
| PrefixTotals.TotalsOfNoDocs | src/components/Elements/TopMimeTypesChart/TopMimeTypesChart.js:116-129 | no documents give the empty dictionary |
| PrefixTotals.DocsDeepEqualFacts | src/components/Elements/TopMimeTypesChart/TopMimeTypesChart.js:53 | `isEqual` on the documents is an equivalence, and documents whose fields are only reordered are deep-equal |
| PrefixTotals.ReorderedDocsDiffer | src/components/Elements/TopMimeTypesChart/TopMimeTypesChart.js:53 | two documents listing the same fields in another order are deep-equal though not identical sequences |
| Ranking.InsertDescAt | src/components/Elements/TopMimeTypesChart/TopMimeTypesChart.js:141 | an entry is inserted just after the last entry with a total at least its own |
| Ranking.InsertDescPermutes | src/components/Elements/TopMimeTypesChart/TopMimeTypesChart.js:141 | insertion adds the entry and loses none |
| Ranking.InsertDescSorted | src/components/Elements/TopMimeTypesChart/TopMimeTypesChart.js:141 | insertion into sorted data keeps it sorted by decreasing total |
| Ranking.InsertDescStable | src/components/Elements/TopMimeTypesChart/TopMimeTypesChart.js:141 | insertion appends the entry after the entries with an equal total |
| Ranking.SortDescPermutes | src/components/Elements/TopMimeTypesChart/TopMimeTypesChart.js:141 | `sort((a, b) => b.y - a.y)` gives a permutation of its input |
| Ranking.SortDescSorted | src/components/Elements/TopMimeTypesChart/TopMimeTypesChart.js:141 | the sorted data is ordered by non-increasing total |
| Ranking.SortDescStable | src/components/Elements/TopMimeTypesChart/TopMimeTypesChart.js:141 | entries with equal totals keep their relative order |
| Ranking.SortDescLength | src/components/Elements/TopMimeTypesChart/TopMimeTypesChart.js:141 | the sort keeps the length |
| Ranking.SortDescKeepsDistinctKeys | src/components/Elements/TopMimeTypesChart/TopMimeTypesChart.js:141 | sorting entries with distinct keys gives entries with distinct keys |
| Ranking.RankedTotals | src/components/Elements/LicenseTypesChart/LicenseTypesChart.js:111-136 | the ranked totals are sorted, carry each field key exactly once, and each holds the sum of its key's fields |
| TopMimeTypesChart.SelectTop | src/components/Elements/TopMimeTypesChart/TopMimeTypesChart.js:143-149 | `result` is the first `count` entries, with `count` lowered to the number of entries and a non-positive count giving none |
| TopMimeTypesChart.DrawChartData | src/components/Elements/TopMimeTypesChart/TopMimeTypesChart.js:98-149 | the pie data is the first `count` ranked totals |
| TopMimeTypesChart.TopDataIsTop | src/components/Elements/TopMimeTypesChart/TopMimeTypesChart.js:141-149 | the pie has `min(count, keys)` slices, and each is at least as large as every total left out |
| TopMimeTypesChart.TopDataTotals | src/components/Elements/TopMimeTypesChart/TopMimeTypesChart.js:116-149 | every slice is one key's total, the sum of its fields, and no key appears twice |
| TopMimeTypesChart.ShouldUpdateIgnoresErrorMsgAndFieldOrder | src/components/Elements/TopMimeTypesChart/TopMimeTypesChart.js:51-58 | a re-render is skipped only when the documents are deep-equal and `count`, `loading` and `error` agree; it is skipped when the states differ at most in `errorMsg`, and when the documents only list their fields in another order |
| TopMimeTypesChart.TopLegend | src/components/Elements/TopMimeTypesChart/TopMimeTypesChart.js:199-220 | the legend lists each drawn key once, in rows with disjoint swatches, from the largest total down, each row standing for the sum of its key's fields |
| TopMimeTypesChart.TopMimeTypesChart.constructor | src/components/Elements/TopMimeTypesChart/TopMimeTypesChart.js:36-44 | the view starts unmounted, loading, with count 10 and nothing drawn |
| TopMimeTypesChart.TopMimeTypesChart.Mount | src/components/Elements/TopMimeTypesChart/TopMimeTypesChart.js:46-49 | mounting sets `_isMounted` and starts a load |
| TopMimeTypesChart.TopMimeTypesChart.Unmount | src/components/Elements/TopMimeTypesChart/TopMimeTypesChart.js:60-63 | unmounting clears `_isMounted` and changes nothing else |
| TopMimeTypesChart.TopMimeTypesChart.StartLoad | src/components/Elements/TopMimeTypesChart/TopMimeTypesChart.js:65-69 | a load sets `loading` and clears `error` |
| TopMimeTypesChart.TopMimeTypesChart.Resolve | src/components/Elements/TopMimeTypesChart/TopMimeTypesChart.js:71-95 | a 200 while mounted stores the docs and draws the top data; any other response sets the error flag even if unmounted; a rejection sets the error flag only while mounted |
| LicenseTypesChart.NonzeroRun | src/components/Elements/LicenseTypesChart/LicenseTypesChart.js:138-144 | the run of non-zero totals is no longer than the data |
| LicenseTypesChart.SelectNonzero | src/components/Elements/LicenseTypesChart/LicenseTypesChart.js:138-144 | the loop copies the entries up to, but not including, the first zero total |
| LicenseTypesChart.NonzeroRunIsLongest | src/components/Elements/LicenseTypesChart/LicenseTypesChart.js:138-144 | no selected entry is zero, and the entry after the selection, if any, is zero |
| LicenseTypesChart.NonzeroRunWithoutZero | src/components/Elements/LicenseTypesChart/LicenseTypesChart.js:138-144 | without a zero total everything is selected |
| LicenseTypesChart.NonzeroRunOfSortedCounts | src/components/Elements/LicenseTypesChart/LicenseTypesChart.js:136-144 | with non-negative sorted totals, everything left out is zero |
| LicenseTypesChart.DrawChartData | src/components/Elements/LicenseTypesChart/LicenseTypesChart.js:96-144 | the pie data is the non-zero prefix of the ranked totals |
| LicenseTypesChart.PieDataTotals | src/components/Elements/LicenseTypesChart/LicenseTypesChart.js:111-144 | the slices have distinct keys, none is zero, and each is the sum of its key's fields |
| LicenseTypesChart.PieDataComplete | src/components/Elements/LicenseTypesChart/LicenseTypesChart.js:111-144 | when field values are counts, every key with a non-zero total gets a slice |
| LicenseTypesChart.SumForNonNegative | src/components/Elements/LicenseTypesChart/LicenseTypesChart.js:117-121 | sums of counts are never negative |
| LicenseTypesChart.LicenseTypesChart.constructor | src/components/Elements/LicenseTypesChart/LicenseTypesChart.js:36-43 | the view starts unmounted and loading, with nothing drawn |
| LicenseTypesChart.LicenseTypesChart.Mount | src/components/Elements/LicenseTypesChart/LicenseTypesChart.js:45-48 | mounting sets `_isMounted` and starts a load |
| LicenseTypesChart.LicenseTypesChart.Unmount | src/components/Elements/LicenseTypesChart/LicenseTypesChart.js:58-61 | unmounting clears `_isMounted` and changes nothing else |
| LicenseTypesChart.LicenseTypesChart.StartLoad | src/components/Elements/LicenseTypesChart/LicenseTypesChart.js:63-67 | a load sets `loading` and clears `error` |
| LicenseTypesChart.LicenseTypesChart.Resolve | src/components/Elements/LicenseTypesChart/LicenseTypesChart.js:69-93 | a 200 while mounted stores the docs and draws the non-zero totals; any other response sets the error flag; a rejection does so only while mounted |
| LicenseTypesChart.ShouldUpdateIgnoresErrorMsgAndFieldOrder | src/components/Elements/LicenseTypesChart/LicenseTypesChart.js:50-56 | a re-render is skipped only when the documents are deep-equal and `loading` and `error` agree; it is skipped when the states differ at most in `errorMsg`, and when the documents only list their fields in another order |
| LicenseTypesChart.PieLegend | src/components/Elements/LicenseTypesChart/LicenseTypesChart.js:192-213 | the legend lists each drawn key once, in rows with disjoint swatches, from the largest total down, each row standing for the sum of its key's fields |
| Fetch.ShouldUpdateIgnoresOnlyErrorMsg | src/components/Elements/AuditSummary/AuditSummary.js:43-49 | for documents with a fixed set of fields, a re-render is skipped exactly when the states differ at most in `errorMsg` |
| Legend.LegendSpec | src/components/Elements/LicenseTypesChart/LicenseTypesChart.js:192-213 | row `i` names slice `i` of `pie(result)`; rows go down in slice order 20 apart with disjoint 18-high swatches; distinct keys give distinct rows; for sorted data a higher row stands for a total at least as large |
| AllMimeTypesChart.Categories | src/components/Elements/AllMimeTypesChart/AllMimeTypesChart.js:119-132 | there is one category per dictionary key |
| AllMimeTypesChart.BuildHierarchy | src/components/Elements/AllMimeTypesChart/AllMimeTypesChart.js:119-136 | the loop builds the `flare` root over one single-leaf category per key, in key order |
| AllMimeTypesChart.ClassesCount | src/components/Elements/AllMimeTypesChart/AllMimeTypesChart.js:187-205 | `classes` yields exactly one entry per leaf |
| AllMimeTypesChart.ClassesOfAppend | src/components/Elements/AllMimeTypesChart/AllMimeTypesChart.js:190-194 | siblings are flattened one after the other, left to right |
| AllMimeTypesChart.ClassesOfEmptyGroup | src/components/Elements/AllMimeTypesChart/AllMimeTypesChart.js:191-194 | an internal node with no children yields nothing |
| AllMimeTypesChart.ClassesOfHierarchy | src/components/Elements/AllMimeTypesChart/AllMimeTypesChart.js:187-205 | for the built hierarchy, bubble `i` has the `i`-th key as package and class and the key's total as value |
| AllMimeTypesChart.CategoryFlatten | src/components/Elements/AllMimeTypesChart/AllMimeTypesChart.js:190-200 | a category flattens to its one leaf, with the category's name as the package |
| AllMimeTypesChart.DrawChartData | src/components/Elements/AllMimeTypesChart/AllMimeTypesChart.js:104-143 | the bubbles are `classes` of the hierarchy built from the totals |
| AllMimeTypesChart.BubbleDataSpec | src/components/Elements/AllMimeTypesChart/AllMimeTypesChart.js:104-143 | there is exactly one bubble per field key, its package is its own key, and its value is the sum of the key's fields |
| AllMimeTypesChart.NoDocsNoBubbles | src/components/Elements/AllMimeTypesChart/AllMimeTypesChart.js:104-143 | no documents give no bubbles |
| AllMimeTypesChart.NoBubblesIffNoFields | src/components/Elements/AllMimeTypesChart/AllMimeTypesChart.js:104-143 | there are no bubbles exactly when the documents have no fields at all |
| AllMimeTypesChart.AllMimeTypesChart.constructor | src/components/Elements/AllMimeTypesChart/AllMimeTypesChart.js:35-42 | the view starts unmounted and loading, with nothing drawn |
| AllMimeTypesChart.AllMimeTypesChart.Mount | src/components/Elements/AllMimeTypesChart/AllMimeTypesChart.js:44-47 | mounting sets `_isMounted` and starts a load |
| AllMimeTypesChart.AllMimeTypesChart.Unmount | src/components/Elements/AllMimeTypesChart/AllMimeTypesChart.js:49-52 | unmounting clears `_isMounted` and changes nothing else |
| AllMimeTypesChart.AllMimeTypesChart.StartLoad | src/components/Elements/AllMimeTypesChart/AllMimeTypesChart.js:54-58 | a load sets `loading` and clears `error` |
| AllMimeTypesChart.AllMimeTypesChart.Resolve | src/components/Elements/AllMimeTypesChart/AllMimeTypesChart.js:60-152 | a 200 while mounted stores the docs and draws the bubbles, and sets the error flag when there are none, since the draw then throws; any other response sets the error flag; a rejection does so only while mounted |
| AuditSummary.Counts | src/components/Elements/AuditSummary/AuditSummary.js:108-114 | a document has seven counts, one per series |
| AuditSummary.ProjectNameIsSegment | src/components/Elements/AuditSummary/AuditSummary.js:92-94 | the project is the last `/`-segment of the id, or the one before it when the last starts with `part` (undefined when there is none); it never contains `/` |
| AuditSummary.ProjectNameOfPath | src/components/Elements/AuditSummary/AuditSummary.js:92-94 | for an id `a/b/c` the project is `c`, or `b` when `c` starts with `part` |
| AuditSummary.Step | src/components/Elements/AuditSummary/AuditSummary.js:96-114 | one iteration keeps seven series, each as long as the labels |
| AuditSummary.GroupByProject | src/components/Elements/AuditSummary/AuditSummary.js:90-115 | the grouping loop builds the labels and series of the adjacency-based grouping |
| AuditSummary.GroupedLabels | src/components/Elements/AuditSummary/AuditSummary.js:96-107 | neighbouring labels are never equal, and there are at most as many groups as documents |
| AuditSummary.StepLabels | src/components/Elements/AuditSummary/AuditSummary.js:96-107 | a new label is pushed only when it differs from the last one |
| AuditSummary.StepConserves | src/components/Elements/AuditSummary/AuditSummary.js:96-114 | a step adds the document's count to the series' sum, unless it merges into a missing group |
| AuditSummary.GroupedNonEmpty | src/components/Elements/AuditSummary/AuditSummary.js:107 | once the first document names a project there is always a group |
| AuditSummary.GroupedConserves | src/components/Elements/AuditSummary/AuditSummary.js:97-114 | each series sums to the total of its count over all documents, when the first document names a project |
| AuditSummary.UnnamedFirstDocIsDropped | src/components/Elements/AuditSummary/AuditSummary.js:96-104 | a first document without a project name merges into `label_names[-1]`, which is no element: the grouping is the same as without that document, so its counts are lost |
| AuditSummary.Zipped | src/components/Elements/AuditSummary/AuditSummary.js:159-164 | the zip has seven values per label |
| AuditSummary.Zip | src/components/Elements/AuditSummary/AuditSummary.js:159-164 | the nested loops push series `j`'s value of group `i` as bar `i * 7 + j` |
| AuditSummary.ZippedLayout | src/components/Elements/AuditSummary/AuditSummary.js:159-164 | the zip has `labels * 7` bars, and group `i`'s value of series `j` is bar `i * 7 + j` |
| AuditSummary.BarIndex | src/components/Elements/AuditSummary/AuditSummary.js:206-207 | bar `group * 7 + s` lies in group `group` and belongs to series `s` |
| AuditSummary.BarTextNamesSeries | src/components/Elements/AuditSummary/AuditSummary.js:234-246 | the text inside bar `k` shows the count of series `k % 7` in group `k / 7` and names that series |
| AuditSummary.BarsApart | src/components/Elements/AuditSummary/AuditSummary.js:203-216 | bars never overlap; bars of a group are 25 apart and groups are separated by an extra 25 |
| AuditSummary.BarsInsideChart | src/components/Elements/AuditSummary/AuditSummary.js:177-178 | the chart is 200 high per group and every bar lies inside it |
| AuditSummary.GroupLabelOncePerGroup | src/components/Elements/AuditSummary/AuditSummary.js:249-265 | each group's name is drawn once, at the group's first bar, and the empty text at its other bars; an undefined name throws there |
| AuditSummary.LabelsThrowIff | src/components/Elements/AuditSummary/AuditSummary.js:252-257 | drawing the group labels throws at some bar exactly when some group has no project name |
| AuditSummary.TopLevelName | src/components/Elements/AuditSummary/AuditSummary.js:92-94 | an id without `/` names itself, unless it starts with `part`, when it names no project |
| AuditSummary.GroupedPush | src/components/Elements/AuditSummary/AuditSummary.js:96-114 | a document whose project differs from the last group's opens a new group with its name |
| AuditSummary.UnnamedLaterDocThrows | src/components/Elements/AuditSummary/AuditSummary.js:92-114 | a named document followed by one without a project name, such as a top-level part file, gives labels `[name, undefined]`, so drawing throws |
| AuditSummary.DrawChartData | src/components/Elements/AuditSummary/AuditSummary.js:80-256 | `drawChart` lays out the grouped labels, seven zipped bars per group and the chart height, and throws exactly when a group label is undefined |
| AuditSummary.ChartHeightPerGroup | src/components/Elements/AuditSummary/AuditSummary.js:177-178 | the chart has seven bars per group and is 200 high per group |
| AuditSummary.AuditSummary.constructor | src/components/Elements/AuditSummary/AuditSummary.js:32-37 | the view starts loading, with nothing drawn |
| AuditSummary.AuditSummary.Mount | src/components/Elements/AuditSummary/AuditSummary.js:39-41 | mounting starts a load |
| AuditSummary.AuditSummary.StartLoad | src/components/Elements/AuditSummary/AuditSummary.js:51-55 | a load sets `loading` and clears `error` |
| AuditSummary.AuditSummary.Resolve | src/components/Elements/AuditSummary/AuditSummary.js:57-77 | with no mounted guard, a 200 stores the docs and draws the chart, then sets the error flag when drawing throws; anything else sets the error flag |
| TableSearch.MatchesSearchIff | src/components/Elements/ProjectsTable/ProjectsTable.js:119-123 | a cell matches exactly when the lower-cased query occurs in the lower-cased text |
| TableSearch.EmptyQueryMatchesAll | src/components/Elements/ProjectsTable/ProjectsTable.js:119-123 | the empty query matches every cell |
| TableSearch.OccurrenceMatches | src/components/Elements/ProjectsTable/ProjectsTable.js:119-123 | a query that occurs in the text as typed matches |
| TableSearch.SearchIgnoresCase | src/components/Elements/ProjectsTable/ProjectsTable.js:119-123 | lower-casing the text or the query first changes nothing |
| TableSearch.LongerQueryMatchesNothing | src/components/Elements/ProjectsTable/ProjectsTable.js:119-123 | under the ASCII lower-casing, a query longer than the text matches nothing |
| TableSearch.ByLengthIsOrdering | src/components/Elements/ProjectsTable/ProjectDetails.js:222 | the length comparator is antisymmetric, zero exactly for equal lengths, negative exactly for the shorter, and transitive |
| TableSearch.ByLengthOfBmp | src/components/Elements/ProjectsTable/ProjectDetails.js:222 | without astral characters the comparator compares numbers of characters |
| TableSearch.FirstSelected | src/components/Elements/ProjectsTable/ProjectsTable.js:141 | definition, restated by its ensures: `selectedKeys[0]` is undefined exactly when nothing is selected, and the first key otherwise |
| ProjectsTable.OnFilterSpec | src/components/Elements/ProjectsTable/ProjectsTable.js:119-123 | the search throws exactly when the cell is missing; otherwise a row passes a column's search exactly when the lower-cased query occurs in the lower-cased cell; the empty query and a query typed as it appears both pass |
| ProjectsTable.Rows | src/components/Elements/ProjectsTable/ProjectsTable.js:55-60 | there is one row per document |
| ProjectsTable.RowsKeepDocs | src/components/Elements/ProjectsTable/ProjectsTable.js:55-60 | row `i` holds document `i` with its id as key, and distinct ids give distinct keys |
| ProjectsTable.View | src/components/Elements/ProjectsTable/ProjectsTable.js:193-211 | "Loading..." exactly while loading, the error result exactly when loaded with the error flag, a throw exactly when loaded without error and a row on the first page lacks a field, otherwise the rows |
| ProjectsTable.CompleteIffCells | src/components/Elements/ProjectsTable/ProjectsTable.js:129-135 | a row renders its cells exactly when none of them is missing |
| ProjectsTable.RowsRenderIff | src/components/Elements/ProjectsTable/ProjectsTable.js:129-135 | the first page renders exactly when the first ten documents have every field, whatever follows them |
| ProjectsTable.ProjectsTable.constructor | src/components/Elements/ProjectsTable/ProjectsTable.js:28-34 | the table starts loading with the empty search text |
| ProjectsTable.ProjectsTable.Mount | src/components/Elements/ProjectsTable/ProjectsTable.js:36-38 | mounting starts a load |
| ProjectsTable.ProjectsTable.StartLoad | src/components/Elements/ProjectsTable/ProjectsTable.js:40-44 | a load sets `loading` and clears `error` |
| ProjectsTable.ProjectsTable.Resolve | src/components/Elements/ProjectsTable/ProjectsTable.js:46-75 | with no mounted guard, a 200 replaces the rows and anything else sets the error flag, keeping the rows |
| ProjectsTable.ProjectsTable.HandleSearch | src/components/Elements/ProjectsTable/ProjectsTable.js:139-142 | the search text becomes the first selected key, or undefined |
| ProjectsTable.ProjectsTable.HandleReset | src/components/Elements/ProjectsTable/ProjectsTable.js:144-147 | the search text becomes empty |
| ProjectsTable.ProjectsTable.Reload | src/components/Elements/ProjectsTable/ProjectsTable.js:40-75 | a whole load that succeeds shows one row per document, or throws when a document on the first page lacks a field; one that fails shows the error and keeps the old rows |
| ProjectDetails.OnFilterSpec | src/components/Elements/ProjectsTable/ProjectDetails.js:156-161 | the search throws exactly when the cell is missing; otherwise a row passes a column's search exactly when the lower-cased query occurs in the lower-cased cell; the empty query passes all |
| ProjectDetails.LicenseFilterSpec | src/components/Elements/ProjectsTable/ProjectDetails.js:270 | the license filter throws exactly on a row without a license, and otherwise accepts a row exactly when its license starts with the value |
| ProjectDetails.LicenseFiltersExclusive | src/components/Elements/ProjectsTable/ProjectDetails.js:239-270 | no license is accepted by two of the seven filter values |
| ProjectDetails.StartsWithFirstTwo | src/components/Elements/ProjectsTable/ProjectDetails.js:270 | a string starting with a value agrees with its first two characters |
| ProjectDetails.SorterSpec | src/components/Elements/ProjectsTable/ProjectDetails.js:222-278 | each column's sorter throws exactly when either cell is missing; on present cells it has the sign of the difference of the cells' lengths, and is an ordering |
| ProjectDetails.Rows | src/components/Elements/ProjectsTable/ProjectDetails.js:88-93 | there is one row per document |
| ProjectDetails.RowsKeepDocs | src/components/Elements/ProjectsTable/ProjectDetails.js:88-93 | row `i` holds document `i`, keyed by `uid` of its id |
| ProjectDetails.ShouldUpdateIgnoresOnlyErrorMsg | src/components/Elements/ProjectsTable/ProjectDetails.js:60-67 | a re-render is skipped exactly when the states differ at most in `errorMsg` |
| ProjectDetails.View | src/components/Elements/ProjectsTable/ProjectDetails.js:287-293 | definition, restated by its ensures (used by ProjectDetails.ProjectDetails.Reload): the skeleton exactly while loading, the error message exactly when loaded with the error flag, otherwise the table of rows |
| ProjectDetails.ProjectDetails.constructor | src/components/Elements/ProjectsTable/ProjectDetails.js:45-53 | the drawer starts unmounted and loading, with the empty search text |
| ProjectDetails.ProjectDetails.Mount | src/components/Elements/ProjectsTable/ProjectDetails.js:55-58 | mounting sets `_isMounted` and starts a load |
| ProjectDetails.ProjectDetails.Unmount | src/components/Elements/ProjectsTable/ProjectDetails.js:69-71 | unmounting clears `_isMounted` and changes nothing else |
| ProjectDetails.ProjectDetails.StartLoad | src/components/Elements/ProjectsTable/ProjectDetails.js:76-79 | a load sets `loading` and clears `error` |
| ProjectDetails.ProjectDetails.Resolve | src/components/Elements/ProjectsTable/ProjectDetails.js:81-112 | while mounted a 200 stores the keyed rows and anything else sets the error flag; once unmounted nothing changes |
| ProjectDetails.ProjectDetails.HandleSearch | src/components/Elements/ProjectsTable/ProjectDetails.js:179-182 | the search text becomes the first selected key, or undefined |
| ProjectDetails.ProjectDetails.HandleReset | src/components/Elements/ProjectsTable/ProjectDetails.js:184-187 | the search text becomes empty |
| ProjectDetails.ProjectDetails.Reload | src/components/Elements/ProjectsTable/ProjectDetails.js:73-112 | while mounted, a whole load that succeeds shows the table with one row per document and one that fails shows the error message; once unmounted the skeleton stays |
| DevLogs.CollapseBlanks | src/utils/dev-logs.js:19 | the result is empty exactly when the input is, and starts with a blank exactly when the input does |
| DevLogs.CollapseBlanksNoPair | src/utils/dev-logs.js:19 | after step 1 no two neighbouring characters are both spaces or tabs |
| DevLogs.CollapseBlanksKeepsOthers | src/utils/dev-logs.js:19 | step 1 keeps every character other than a space or tab, newlines included, in order |
| DevLogs.CollapseBlanksIdentity | src/utils/dev-logs.js:19 | text without two neighbouring blanks is left as it is |
| DevLogs.CollapseBlanksRun | src/utils/dev-logs.js:19 | a run of two or more spaces and tabs becomes one space |
| DevLogs.CollapseBlanksAppend | src/utils/dev-logs.js:19 | text cut where no run of blanks is split collapses piece by piece |
| DevLogs.StripIndent | src/utils/dev-logs.js:20 | the result is no longer than the input; at a line start it does not begin with a blank |
| DevLogs.StripIndentUnindented | src/utils/dev-logs.js:20 | after step 2 no line, the first included, begins with a space or tab |
| DevLogs.StripIndentKeepsOthers | src/utils/dev-logs.js:20 | step 2 keeps every character other than a space or tab, in order |
| DevLogs.StripIndentKeepsPairFree | src/utils/dev-logs.js:20 | step 2 creates no pair of neighbouring blanks |
| DevLogs.StripIndentIdentity | src/utils/dev-logs.js:20 | text with no indented line is left as it is |
| DevLogs.StripIndentAppend | src/utils/dev-logs.js:20 | step 2 over a concatenation is step 2 over each piece, resumed in the state the first leaves |
| DevLogs.StripIndentMidLine | src/utils/dev-logs.js:20 | past a line's start, text without line terminators is kept |
| DevLogs.TrimStart | src/utils/dev-logs.js:27 | leading whitespace is removed: all of it, and nothing else |
| DevLogs.TrimEnd | src/utils/dev-logs.js:27 | trailing whitespace is removed: all of it, and nothing else |
| DevLogs.TrimSpec | src/utils/dev-logs.js:27 | `trim` keeps a slice: everything cut is whitespace and the result neither starts nor ends with whitespace |
| DevLogs.TrimIdentity | src/utils/dev-logs.js:27 | text without whitespace at either end is left as it is |
| DevLogs.TrimAround | src/utils/dev-logs.js:27 | whitespace around text without whitespace at its ends is cut off |
| DevLogs.CleanSpec | src/utils/dev-logs.js:23-27 | a cleaned string has no two neighbouring blanks, no line starting with a blank, and no whitespace at either end, newlines included |
| DevLogs.CleanIdempotent | src/utils/dev-logs.js:23-27 | cleaning a cleaned string changes nothing |
| DevLogs.CleanMidLine | src/utils/dev-logs.js:26 | cleaned text in the middle of a line is kept by step 2 and ends mid-line |
| DevLogs.TitleLineFacts | src/utils/dev-logs.js:31 | the title line has no blank pair and no line terminator |
| DevLogs.FooterLineFacts | src/utils/dev-logs.js:35 | the footer line has no blank pair and no line terminator, and starts with `%` and ends with `.` |
| DevLogs.CollapseTemplate | src/utils/dev-logs.js:29-36 | step 1 turns each two-space indentation of the template into one space |
| DevLogs.StripTemplate | src/utils/dev-logs.js:29-36 | step 2 removes those spaces and keeps the line breaks |
| DevLogs.DevMessageLayout | src/utils/dev-logs.js:29-36 | the dev message is the title line, a blank line, `%c` and the cleaned message, a blank line and the footer line |
| DevLogs.GetFormattedMessage | src/utils/dev-logs.js:38-46 | the formatted message has exactly four elements |
| DevLogs.FormattedMessageSpec | src/utils/dev-logs.js:38-46 | the first element is the dev message embedding the cleaned message, followed by the title, message and footer styles; cleaning the message first changes nothing |

## Left out

- D3 and SVG drawing is not modelled. That covers float scales, pie, arc and pack geometry, the label-box clamping of the bar chart, text truncation by radius, colour schemes, `tinycolor` and number formatting. The bar positions are modelled with exact arithmetic.
- The network is not modelled. `LicenseService` and its shared cancel slot are left out, as is `cancelRequest` on unmount. A request's outcome is an input of `Resolve`.
- The key generator `Helpers.uid` is the pure parameter `uid`, but the code wraps lodash `uniqueId`, a global counter that returns `<id>_<n>` with a fresh `n` on every call. Real keys are therefore always distinct and change on every reload. The parameter gives equal ids equal keys and a reload the same keys, so neither property is modelled.
- The id of a file or project document is always present, as the index's unique key. A missing id, which `Helpers.uid` answers with a warning and an undefined key, is not modelled. Fields holding non-string values, on which `toString()` succeeds, are not modelled either.
- `console.log` of the documents and of the response is I/O and is left out. So is `log` of the dev-log helper, which is gated on the environment and a window flag.
- React's scheduling is left out: when `setState` renders, its batching, and the order in which promises settle. Each `setState` is applied at once, and `Resolve` stands for the settling of one request. React's dropping of a `setState` on an unmounted component, with its warning, is not modelled: the chart views' `Resolve` records the error flag set by a non-200 after unmounting, which React never renders.
- The error view's Refresh button of the Audit Summary is left out. It is bound to a method that view does not have.
- antd's `confirm` and `clearFilters` are left out. So are the dropdown's `setSelectedKeys`, the focus timer and the `Highlighter` rendering.
- Text.Lower: only ASCII letters are lower-cased, not the whole Unicode case mapping of `toLowerCase`.
- TableSearch.LongerQueryMatchesNothing: holds under the ASCII lower-casing only. In JavaScript `"İ".toLowerCase()` has two code points, so a two-character query can match one-character text.
- PrefixTotals.Accumulated: field values are integers. An `undefined` value, which is replaced by the next value or gives `NaN` in the code, is not modelled. Neither are non-numeric values.
- PrefixTotals.AccumulatedOrder: dictionary keys are visited in insertion order. JavaScript lists integer-like keys first in ascending order, and this model does not. Keys that name `Object.prototype` properties, such as `constructor`, are not modelled either.
- Ranking.SortDescStable: the sort is specified by its unique stable result. The engine's algorithm and its in-place update of `resultingData` are not modelled.
- A `TypeError` thrown inside `drawChart` is modelled only for an undefined group label in the Audit Summary and for an All MIME Types chart without bubbles. Other throws, such as D3 errors on malformed values, are not modelled.
- ProjectsTable.View: antd's pagination and filter state are not modelled, so the rendered rows are taken to be the first page of 10 with no filter active. A later page, or a filtered page, throws when one of its own rows lacks a field. A throw in `render` is `RenderThrows`; React then unmounts the tree, and that is not modelled.
- AuditSummary.Resolve: when drawing throws, the partly built SVG is recorded as the whole chart. Which of its elements were never appended is not modelled.
- AuditSummary.GroupedConserves: this assumes the first document names a project. Without that, its counts go to `label_names[-1]` and are lost, as AuditSummary.UnnamedFirstDocIsDropped shows.
