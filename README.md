# uplot_lib: a verified model of the aligner and the option builder

`uplot_lib.py` wraps the uPlot JavaScript charting library for Jupyter. The
wrapper contains two pieces of logic. This project models both and proves
properties of them.

- **The multi-series aligner.** `uplot_multixy` embeds three JavaScript
  functions in its page:
  - `sorted(input, argsort)` gathers a list through an index permutation;
  - `merge(a, b)` merges one more (x, y) group into uPlot's data array
    `[x, y1, y2, ...]`;
  - `build_data(d)` folds `merge` over the input `[x1, y1, x2, y2, ...]`.
- **The option builder `build_uplot_options`.** It takes a copy of the
  default options and overrides a closed set of keys from the keyword
  arguments. It then fits the caller's labels to the number of y-series and
  appends one series entry per label, stroked from a reversed 15-colour
  palette.

Files:

- `Argsort.dfy` (module `StableArgsort`): the stable argsort of
  `merge(a, b)`. It is modelled as an insertion sort on indices, ordered by
  (value, index). Comparing the x-values alone with the stable
  `Array.prototype.sort` (ECMAScript 2019, section 22.1.3.27) leaves ties in
  index order. `ArgsortUnique` proves that every stable sort yields the same
  permutation.
- `Aligner.dfy` (module `Aligner`): `sorted` as a method that fills a fresh
  array in a loop; `merge` and `build_data` as methods with their loops;
  `Merged` as the specification of one merge.
  - `AlignAll` is an independent reference definition: all x-lists are
    concatenated and sorted by one stable argsort, and every y-column is
    padded with holes outside its own group.
  - The main theorem is `BuildData`'s postcondition. For two or more groups,
    the loop of merges equals `AlignAll`. A single group is returned
    unchanged, even when unsorted.
- `Decimal.dfy` (module `Decimal`): the decimal numerals `f'y_{i}'` writes,
  with a parse-back round trip, and the default labels `y_0`, `y_1`, ....
- `PlotOptions.dfy` (module `PlotOptions`): `build_uplot_options` up to
  `json.dumps`.
  - The options dictionary is a map from keys to a JSON-like `Value`.
    Keyword arguments are a map of the same kind, so any value may be passed
    for any key.
  - `colors.reverse()` is an in-place array reversal.
  - The override loop is a loop over the keyword-argument keys.
  - The caller's label list is a `LabelList` object, which `labels += extra`
    extends in place.
  - The Python exceptions the code can raise appear as `Outcome` values.
- `DefaultLabels.dfy` (module `DefaultLabels`): the shared default
  `labels=[]` of `build_uplot_options`, as written and corrected (see
  Findings).

Inputs are modelled as parameters:

- `build_data`'s argument is a list of `Group`s, one per (x, y) pair, rather
  than a flat list.
- x-values are integers.
- A y-cell is `Val(v)`, or `Missing` for the hole that `new Array(n)` and
  `y1.length += n` leave.

## Model

| member | source | states |
|---|---|---|
| `StableArgsort.Argsort` | uplot_lib.py:180 | the argsort has one index per element of `t`, each in range |
| `StableArgsort.Insert` | uplot_lib.py:180 | inserting an index adds exactly that index to the list |
| `StableArgsort.SortIndexes` | uplot_lib.py:180 | sorting a list of indices keeps exactly the same indices |
| `StableArgsort.InsertSorted` | uplot_lib.py:180 | inserting a new index into a stably ordered list keeps it stably ordered |
| `StableArgsort.SortIndexesSorted` | uplot_lib.py:180 | sorting distinct indices yields a stably ordered list |
| `StableArgsort.SortedDistinct` | uplot_lib.py:180 | a stably ordered index list never repeats an index |
| `StableArgsort.ArgsortCorrect` | uplot_lib.py:180 | the argsort is a permutation of `0..|t|-1`; gathering `t` through it is non-decreasing; equal values keep their index order |
| `StableArgsort.SortedSameIndexesEqual` | uplot_lib.py:180 | two stably ordered lists of the same indices are equal |
| `StableArgsort.ArgsortUnique` | uplot_lib.py:180 | any permutation that sorts `t` stably is the argsort, so the result does not depend on the sort algorithm |
| `StableArgsort.Apply` | uplot_lib.py:167-173 | the value `sorted(s, p)` computes: as long as `p`, element `i` being `s[p[i]]` |
| `StableArgsort.ApplyInsert` | uplot_lib.py:183 | gathering through an insertion adds the inserted index's value to the multiset of values |
| `StableArgsort.ApplySortIndexes` | uplot_lib.py:183 | sorting indices leaves the multiset of gathered values unchanged |
| `StableArgsort.SortedValues` | uplot_lib.py:183 | `sorted(t, argsort)` holds exactly the values of `t`, in non-decreasing order |
| `Aligner.SortedBy` | uplot_lib.py:167-173 | element `i` of the result is `input[argsort[i]]`, and the result is as long as `argsort` |
| `Aligner.Missings` | uplot_lib.py:188-193 | `new Array(n)` and `y1.length += n` give `n` holes |
| `Aligner.Merged` | uplot_lib.py:175-198 | a merge has one more column than `a`, and every column is `|a.x| + |b.x|` long |
| `Aligner.Merge` | uplot_lib.py:175-198 | the loop that pushes one reordered column per existing series and then the new one computes `Merged(a, b)` |
| `Aligner.BuildData` | uplot_lib.py:155-165 | one group is returned unchanged; two or more give the single-argsort alignment `AlignAll(d)` |
| `Aligner.MergedRow` | uplot_lib.py:186-196 | at row `i`, an old column holds its own cell when `argsort[i]` is an old position and a hole otherwise; the new column the other way round |
| `Aligner.MergedSorted` | uplot_lib.py:177-183 | the merged x column is a sorted permutation of `a.x + b.x` |
| `Aligner.MergedKeepsOldRow` | uplot_lib.py:186-192 | every old row survives a merge at some row, with a hole in the new column |
| `Aligner.MergedKeepsNewPoint` | uplot_lib.py:193-196 | every new point survives a merge at some row, with holes in the old columns |
| `Aligner.Layout` | uplot_lib.py:155-198 | a layout has one row per permutation entry and one column per group |
| `Aligner.AlignAll` | uplot_lib.py:155-198 | the reference alignment: one column per group, one row per input point, every column as long as the x column; `AlignAllSorted` and the lemmas after it fix its contents |
| `Aligner.MergeLayout` | uplot_lib.py:175-198 | merging a group into a layout of `e` gives a layout of `e + [b]` whose row order composes the two argsorts |
| `Aligner.ComposePermutation` | uplot_lib.py:180 | composing the old row order with the new argsort gives a permutation |
| `Aligner.ComposeStable` | uplot_lib.py:180 | the composed order sorts all x-lists concatenated stably |
| `Aligner.MergeFirst` | uplot_lib.py:156-160 | the first merge gives the reference alignment of the first two groups |
| `Aligner.MergeNext` | uplot_lib.py:159-162 | every later merge extends the reference alignment by one group |
| `Aligner.PartialStep` | uplot_lib.py:159-162 | each turn of `build_data`'s loop turns the alignment of `i` groups into that of `i + 1` |
| `Aligner.AlignAllSorted` | uplot_lib.py:155-165 | the result has one column per group; its x column is a sorted permutation of all x-lists concatenated |
| `Aligner.RowOf` | uplot_lib.py:155-165 | every input point has a row in the alignment |
| `Aligner.AlignAllKeepsPoint` | uplot_lib.py:186-196 | each point keeps its x and its y together in one row, with holes in every other series |
| `Aligner.AlignAllRowsArePoints` | uplot_lib.py:155-165 | every row is the row of some input point |
| `Aligner.AlignAllTiesKeepInputOrder` | uplot_lib.py:180 | points with equal x come out in input order: earlier groups first, then earlier positions |
| `Aligner.InterleavedArgsort` | uplot_lib.py:180 | for groups that interleave like `[1,2,3]` and `[2,3,4]`, the argsort is `[0,1,3,2,4,5]` |
| `Aligner.MergedInterleaved` | uplot_lib.py:175-198 | the merge of that shape, column by column |
| `Aligner.InterleavedRows` | uplot_lib.py:155-198 | two interleaved groups align into six rows, each shared x with the first group's point first |
| `Aligner.TwoGroupExample` | uplot_lib.py:155-198 | `[1,2,3]/[10,20,30]` with `[2,3,4]/[100,200,300]` give x `[1,2,2,3,3,4]` and the padded columns |
| `Aligner.BuildDataExample` | uplot_lib.py:155-165 | `build_data` on that input returns that alignment |
| `Decimal.NatToString` | uplot_lib.py:95 | `str(i)` is a canonical numeral: digits, with no leading zero |
| `Decimal.ParseNatToString` | uplot_lib.py:95 | reading the numeral back gives the number |
| `Decimal.NatToStringInjective` | uplot_lib.py:95 | different numbers give different numerals |
| `Decimal.Label` | uplot_lib.py:95 | a default label is `y_` followed by the index's numeral |
| `Decimal.LabelInjective` | uplot_lib.py:95 | different indices give different labels |
| `Decimal.ExtraLabels` | uplot_lib.py:95 | `extra` has `m` labels, the `i`-th being `y_i` |
| `Decimal.ExtraLabelsDistinct` | uplot_lib.py:95 | the added labels are pairwise distinct |
| `PlotOptions.ReversedAt` | uplot_lib.py:77 | element `k` of the reversal is element `|s|-1-k` |
| `PlotOptions.Reversed` | uplot_lib.py:77 | the reversal is as long as the list, with the last element first and the first element last |
| `PlotOptions.Reverse` | uplot_lib.py:77 | `colors.reverse()` leaves the array holding its old contents reversed |
| `PlotOptions.Strokes` | uplot_lib.py:61-77 | there are 15 strokes, the first `indigo` and the last `lavender` |
| `PlotOptions.StrokesReversed` | uplot_lib.py:61-77 | the strokes are the palette as listed, reversed |
| `PlotOptions.ColorsDistinct` | uplot_lib.py:61-76 | the fifteen palette colours are pairwise distinct |
| `PlotOptions.StrokesDistinct` | uplot_lib.py:61-77 | up to fifteen series get pairwise different strokes |
| `PlotOptions.Overridden` | uplot_lib.py:78-87 | the options hold exactly the five default keys, plus `scatter` when it is supplied |
| `PlotOptions.ApplyOverrides` | uplot_lib.py:78-87 | the key-by-key override loop followed by the `scatter` step computes `Overridden(kwargs)`, whatever the loop's key order |
| `PlotOptions.NoOverrides` | uplot_lib.py:78-82 | without keyword arguments the options are the defaults: empty title, width 750, height 300, `x.time` false, `y.auto` true |
| `PlotOptions.OverridesApply` | uplot_lib.py:83-87 | a supplied overridable key or `scatter` takes the supplied value; an unsupplied overridable key keeps its default |
| `PlotOptions.OtherKeysIgnored` | uplot_lib.py:83-87 | keyword arguments other than the five keys and `scatter` do not change the options |
| `PlotOptions.PointSize` | uplot_lib.py:88-91 | the point size is `size` when supplied, 2 otherwise |
| `PlotOptions.FitLabels` | uplot_lib.py:94-98 | there are exactly `n` labels: the given ones first, then `y_0`, `y_1`, ... for the shortfall |
| `PlotOptions.FitLabelsExample` | uplot_lib.py:94-98 | one label `a` for three series gives `a`, `y_0`, `y_1` |
| `PlotOptions.CallerLabels` | uplot_lib.py:94-98 | the caller's list ends up extended to the fitted labels when short, and unchanged otherwise |
| `PlotOptions.CallerLabelsIdempotent` | uplot_lib.py:94-98 | a second call with the same count leaves the extended list alone and fits the same labels |
| `PlotOptions.Entry` | uplot_lib.py:100-102 | a y-series entry holds its label, its stroke, and points of space 0 and the given size |
| `PlotOptions.YSeries` | uplot_lib.py:100-103 | the comprehension fails exactly when there are more labels than colours; otherwise entry `i` pairs label `i` with stroke `i` |
| `PlotOptions.BuildOptions` | uplot_lib.py:58-106 | the value the function returns: with no y-series the overridden options, with more than 15 an `IndexError`, and on success the same keys as the overridden options |
| `PlotOptions.BuildOptionsCases` | uplot_lib.py:94-106 | the result in each case: no series, too many series, a non-list `series` override, or a list to append to |
| `PlotOptions.BuildOptionsErrors` | uplot_lib.py:99-105 | `IndexError` exactly when there are more than 15 y-series; `TypeError` exactly when y-series are appended to a `series` override that is not a list |
| `PlotOptions.BuildOptionsKeys` | uplot_lib.py:78-87 | a successful result has the five keys plus `scatter` when supplied, each but `series` holding the override or the default |
| `PlotOptions.YEntries` | uplot_lib.py:99-103 | the `n` appended entries: entry `i` has fitted label `i`, palette colour `14 - i` and the point size |
| `PlotOptions.BuildOptionsSeriesList` | uplot_lib.py:99-105 | the series list is the base list followed by the y-series entries |
| `PlotOptions.BuildOptionsSeries` | uplot_lib.py:88-105 | with at most 15 y-series, the series list keeps the override or `[{'label': 'x'}]` and then has one entry per label, stroked `Colors[14 - i]` and sized by `size` |
| `PlotOptions.YEntriesDistinct` | uplot_lib.py:99-103 | no two y-series share a stroke |
| `PlotOptions.DefaultSeries` | uplot_lib.py:78-105 | without a `series` override there are `1 + n` series: the x-series, then the y-series, the first stroked indigo |
| `PlotOptions.BuildOptionsIgnoresOtherKeys` | uplot_lib.py:83-91 | keyword arguments other than the five keys, `scatter` and `size` do not change the result |
| `PlotOptions.LabelList.constructor` | uplot_lib.py:58 | a new label list holds the given labels |
| `PlotOptions.BuildUplotOptions` | uplot_lib.py:58-106 | the whole function: the caller's list becomes `CallerLabels(...)` (extended even when an exception follows), and the result is `BuildOptions(...)` |
| `DefaultLabels.Defaults.constructor` | uplot_lib.py:58 | the default label list starts empty |
| `DefaultLabels.CallWithDefaultLabels` | uplot_lib.py:58-98 | a call without `labels` extends the shared default list and builds from its earlier contents |
| `DefaultLabels.SecondCallLabels` | uplot_lib.py:58-98 | as written: calls for one and then two y-series leave `["y_0"]` and then `["y_0", "y_0"]` in the default list |
| `DefaultLabels.SecondCallDuplicateLabels` | uplot_lib.py:94-105 | as written: the second call's two y-series carry the same label |
| `DefaultLabels.CallWithFreshLabels` | uplot_lib.py:58-106 | corrected: each call without labels builds from an empty list of its own |
| `DefaultLabels.FreshLabelsDistinct` | uplot_lib.py:94-103 | corrected: the y-series are labelled `y_0`, `y_1`, ..., pairwise distinct |

## Left out

- HTML and display: the IPython `HTML` and `IFrame` objects, the Jinja template rendering, the iframe wrapper and the quote replacement. This is library code and I/O.
- Serialisation and entry points: `json.dumps` of the options, and the callers `uplot_data`, `uplot_scatter` and `uplot_multixy`. The options are modelled as the dictionary just before `json.dumps`. The `Value` type has no members that `json.dumps` would refuse.
- Data interpolation: `uplot_multixy` puts its data into the page with Python `str()`, not `json.dumps` (uplot_lib.py:211). A Python `None`, `True` or `nan` becomes a bare JavaScript identifier, and the script fails before `build_data` runs. The model's input cells are numbers; `Missing` is only the hole `merge` creates.
- Rendering: the uPlot chart itself and the `paths = u => null` scatter hook, which is foreign code run by the browser.
- Floating point: x-values are integers, so the comparator `a[0] - b[0]` cannot give NaN. `null`/`undefined` x-values are not modelled. A y-cell is an integer or a hole.
- JavaScript undefined values: holes and `undefined` are both `Missing`; JSON and uPlot treat them alike.
- Input shape: `build_data` takes a list of (x, y) groups.
  - An odd-length flat list is not modelled; it would read `d[i+1]` as `undefined`.
  - Every group must have equal x and y lengths, as the `uplot_multixy` docstring demands.
  - At least one group is required: `build_data([])` reads `d[0]` and `d[1]` as `undefined` and returns `[undefined, undefined]`, which is not a data array.
- JavaScript globals: the variables `t`, `data`, `argsort`, `y2` and `s` leak without `let`. Run one after another they behave as locals, which is how they are modelled.
- Negative counts: `num_yseries` is a `nat`. The −1 that an empty `data` gives `uplot_data` would make `labels[:-1]` a Python negative slice.
- Aliasing of the `series` override: `options_dict['series'] += y_series` appends to the caller's own list object when `series` is overridden. The model computes the new list value but not the effect on the caller's object.
- Label types: labels are strings. The Python code accepts any value in the caller's list.
- `Aligner.Merged`: its own contract states only the shape. The row-by-row content is in `MergedRow`, `MergedKeepsOldRow`, `MergedKeepsNewPoint` and `MergeLayout`.
- The palette is indexed, not cycled: more than 15 y-series raise `IndexError`.
- Calls share state: the default label list is one list (see Findings).

## Findings

| source | as written | input that shows it | evidently intended | confidence | as-written member | corrected member |
|---|---|---|---|---|---|---|
| uplot_lib.py:58 | the default `labels=[]` is one list shared by all calls, and line 96 extends it in place | call with 1 y-series and no labels, then with 2 y-series and no labels: the second call's labels are `y_0`, `y_0` | every call without labels gets `y_0`, `y_1`, ... afresh | high, not executed | `DefaultLabels.SecondCallDuplicateLabels` | `DefaultLabels.FreshLabelsDistinct` |

`uplot_data` (line 6), `uplot_scatter` (line 108) and `uplot_multixy` (line 128) each have a shared `labels=[]` default of their own. `uplot_data` and `uplot_multixy` pass theirs on to this code, and `uplot_scatter` passes its list to `uplot_data` (line 126), so all three share the defect.
`DefaultLabels.CallWithFreshLabels` is the corrected call: it gives each call a list of its own, which is what a `labels=None` default would do.
