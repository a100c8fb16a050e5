# phonon-plotter: the data loading of `Plotter`, in Dafny

phonon-plotter draws phonon band structures from one or more phonopy
`band.yaml` files. Its `Plotter` object stores the file list and, in
`load_data`, reshapes the parsed documents into what `plot` draws:

- the shared distance axis, taken from the first file only;
- one frequency matrix per file (rows are q-points, columns are branches);
- the x-axis tick labels and tick distances. They come from the `label` keys
  of the first file's q-points when any record has one. Otherwise they come
  from the segment fallback: the labels are the first pair's start followed
  by every pair's end. The distances are sampled at stride
  `segment_nqpoint[0]`, and the last distance is appended after them.

`plot_data.dfy` (module `PlotData`) holds the parsed documents as datatypes
(`BandYaml`, `QPoint`, `BandEntry`). It defines each derived field as a
function, `DeriveTicks` giving the ticks and the exception, if any. It also
proves the properties below. `plotter.dfy` (module `PhononPlotter`) holds
the `Plotter` class. Its `LoadData` method resets and fills the fields with
the same loops as the Python code, handing the segment fallback to
`LoadFallbackTicks`, and its contract ties the new fields to those functions.

Each exception `load_data` raises on well-typed parsed input with the
required keys present is a `LoadError` value. The fields are left as Python leaves them at the moment it raises.
The labels appended before a malformed pair stay in place, and so do the
fallback labels when `segment_nqpoint` is missing. An empty file list fails
before any field changes.

The segment fallback does not always give as many tick distances as labels:
the tick count can exceed the label count. For 21 q-points, stride 10 and
two label pairs, the code appends the last distance after the samples at 0,
10 and 20, so it gives four distances `[d0, d10, d20, d20]` for the three
labels (`SegmentExampleWithTrailingPoint`). With the layout phonopy writes
(m segments of `step` points each, so n == m * step), the label count and
the tick count are both m + 1 (`FallbackCountsAgree`).

## Model

| member | source | states |
|---|---|---|
| PlotData.DistanceAxis | phonon_plotter/core.py:22 | one distance per record of the first file, in record order |
| PlotData.FrequencyRow | phonon_plotter/core.py:24 | a row lists the record's band frequencies, one per branch, in band order |
| PlotData.FrequencyMatrix | phonon_plotter/core.py:24 | one row per record of the file, row k being record k's frequencies |
| PlotData.FrequencyMatrices | phonon_plotter/core.py:23-26 | one matrix per file, matrix i built from file i |
| PlotData.FrequencyMatrixShape | phonon_plotter/core.py:23-26 | K records with B branches each give a K by B matrix whose entry (k, b) is branch b's frequency at q-point k |
| PlotData.FrequencyMatrixOfOwnFile | phonon_plotter/core.py:23-26 | replacing another file leaves matrix i unchanged |
| PlotData.InlineTicks | phonon_plotter/core.py:29-36 | the inline scan yields as many labels as tick distances, at most one per record |
| PlotData.LabelledIndices | phonon_plotter/core.py:31-33 | the skipped records are exactly those without a label; the rest, in increasing order |
| PlotData.InlineTicksSelectLabelled | phonon_plotter/core.py:31-36 | the inline labels and distances are those of exactly the labelled records, in record order |
| PlotData.InlineTicksEmptyIff | phonon_plotter/core.py:31-37 | the inline scan finds no label if and only if no record has one |
| PlotData.FallbackLabels | phonon_plotter/core.py:39-42 | the `enumerate` loop's labels: none for no pairs, m + 1 for m >= 1 pairs, the first being the first pair's start (each later one an end, by FallbackLabelsClosedForm) |
| PlotData.FirstMalformed | phonon_plotter/core.py:39 | the first label pair that cannot be unpacked into (start, end), all pairs before it well formed |
| PlotData.FallbackLabelsClosedForm | phonon_plotter/core.py:39-42 | m >= 1 pairs give m + 1 labels: the first start, then each end in order |
| PlotData.RangeLength | phonon_plotter/core.py:47 | range(0, n, step) for n >= 0 yields ceil(n / step) indices for step > 0 and none for step < 0 or n == 0 |
| PlotData.StrideIndices | phonon_plotter/core.py:47 | range(0, n, step) yields 0, step, 2 * step, ..., each in [0, n) |
| PlotData.StrideSample | phonon_plotter/core.py:45-47 | sample j is the distance at index j * step, every such index below n, and no other |
| PlotData.FallbackTicks | phonon_plotter/core.py:39-48 | the fallback's fields and exception: it never reports an empty file list; on an exception no tick distance is stored; a missing `labels` key leaves no label, a malformed pair k leaves the labels of pairs 0..k-1 (all well formed), and a later exception or success leaves the labels of every pair; on success the path is non-empty and the last tick is the path's last distance (closed form in FallbackTicksClosedForm, failure conditions in FallbackFailsIff) |
| PlotData.DeriveTicks | phonon_plotter/core.py:29-48 | the tick fields after the load: with a labelled record no exception and equal, non-zero label and distance counts; an exception only when no record is labelled, and then no tick distance (strategy choice in InlineLabelsAreFinal and FallbackWhenUnlabelled) |
| PlotData.LoadFailure | phonon_plotter/core.py:22-48 | the exception of the load: IndexError for the empty file list exactly when there is no file; any other exception only when no record of the first file is labelled |
| PlotData.FallbackFailsIff | phonon_plotter/core.py:39-48 | the fallback fails if and only if `labels` is missing or holds a pair that is not two labels, `segment_nqpoint` is missing or empty, its first count is zero, or the path is empty; on failure no tick distance is stored |
| PlotData.InlineLabelsAreFinal | phonon_plotter/core.py:37 | with a labelled record the inline ticks are final, there is no error, and `labels`/`segment_nqpoint` are not consulted |
| PlotData.FallbackWhenUnlabelled | phonon_plotter/core.py:37 | with no labelled record the fallback decides the ticks |
| PlotData.FallbackTicksClosedForm | phonon_plotter/core.py:37-48 | fallback labels are the first start then every end; tick distances are d[0], d[step], ... below n then d[n-1], ceil(n / step) + 1 of them |
| PlotData.FallbackCountsAgree | phonon_plotter/core.py:39-48 | when n == m * step for m pairs, m + 1 labels and m + 1 tick distances: each segment's first point, then the last point |
| PlotData.TickDistancesOnAxis | phonon_plotter/core.py:31-48 | every tick distance, from either strategy and even after a failure, is a distance on the first file's axis |
| PlotData.InlineExample | phonon_plotter/core.py:22-36 | five q-points labelled "G" and "X" at both ends give ticks ["G", "X"] at d[0] and d[4], and a 5 by 2 matrix |
| PlotData.SegmentExampleWithTrailingPoint | phonon_plotter/core.py:37-48 | pairs [[A, B], [B, C]], stride 10, 21 points give labels [A, B, C] and four distances [d0, d10, d20, d20] |
| PhononPlotter.Plotter.constructor | phonon_plotter/core.py:10-13 | stores the files and their count, then loads; records the exception the load raised |
| PhononPlotter.Plotter.LoadFallbackTicks | phonon_plotter/core.py:37-48 | starting from empty tick lists, the `enumerate` loop and the stride sampling leave the fields exactly as FallbackTicks gives them, and raise what it gives |
| PhononPlotter.Plotter.LoadData | phonon_plotter/core.py:15-48 | resets and refills every derived field from the parsed files alone: axis from file 0, a matrix per file, ticks as DeriveTicks gives them; the exception as LoadFailure gives it; no field changes on an empty file list |
| PhononPlotter.LoadTwice | phonon_plotter/core.py:22-48 | loading the same files twice gives the same fields and the same outcome, and the plotter stays valid with its file list |

## Left out

- Opening and parsing the files (phonon_plotter/core.py:17-20) is I/O plus a YAML library. The parsed document of each file is an input, one per file, so file-access and parse errors are not modelled.
- Missing required keys (`phonon`, `distance`, `band`, `frequency`) are not modelled. The datatypes always carry them, so the KeyError Python raises for them cannot occur in the model.
- Values of the wrong YAML type are not modelled: a `labels` entry that is null or not a list, or a non-integer `segment_nqpoint[0]`. Only a pair of the wrong length is modelled (`MalformedLabelPair`).
- A `label` key whose value is null is not modelled. Python appends `None` to the labels in that case; in the model a record either has a string label or none.
- `plot` (phonon_plotter/core.py:50-84) and the colour list are left out. They only pass figure sizes, fonts, colours and reference lines to matplotlib.
- setup.py holds packaging metadata only.
- The file list is shared with the caller, not copied: phonon_plotter/core.py:11 keeps the caller's list, phonon_plotter/core.py:12 fixes `_n_band` at construction, and phonon_plotter/core.py:18 reads the list again on every `load_data`. The model stores the list as a value and requires one parsed document per stored file, so it assumes the list does not change between loads. It does not capture a file appended after construction, where Python builds fewer matrices than files. It does not capture a file removed after construction either, where `data[i]` at phonon_plotter/core.py:24 raises IndexError after `_dists` was already replaced at phonon_plotter/core.py:22.
- Distances and frequencies are `real` values that are only copied. Floating-point behaviour plays no part because nothing is computed with them.
