# Batch helpers and the one-dimensional slicer, in Dafny

This project models two parts of the survey-simulation metrics framework
(MAF).

The first is the batch-configuration helpers in
`python/lsst/sims/maf/batches/common.py`:
- `combineMetadata` joins two optional metadata strings.
- `filterList` builds the filter list, its plot-colour and display-order
  tables, and the per-filter SQL constraints and metadata labels.
- `radecCols` looks up the RA/Dec columns; only its branch without a
  dither stacker is modelled.
- The fixed metric lists `standardMetrics`, `extendedMetrics`,
  `standardAngleMetrics`, `standardSummary` and `extendedSummary`, with
  the in-place renaming of metric names through `replace_colname`.

The second is the contract of the one-dimensional slicer that
`tests/testOneDSlicer.py` asserts. A `OneDSlicer` is built from a
configuration. `setupSlicer(data)` then fixes its bin edges (`bins`) and
slice count (`nslice`) under one of three policies, in this priority
order:
- explicit edges, used verbatim (a bin size given with them is ignored);
- a bin size, adding one padding bin at each end (it overrides a bin
  count given with it, and a warning is raised);
- a bin count, giving equal-width bins over the data range or over the
  `binMin`/`binMax` overrides.

The slicer's own source file is not part of this model. The priority
order is the documented one; the tests only ever combine a bin size
with a bin count.

Under a bin count, a zero-width range is widened, with a warning. Slice `i`, reached by
index or by iteration, holds the rows whose value lies in
`[bins[i], bins[i+1])`, or in the closed interval for the last bin. Its
slice point is `sid = i`, `binLeft = bins[i]`. Two one-dimensional
slicers are equal exactly when their bins are. A one-dimensional slicer
never equals a whole-dataset slicer (`UniSlicer`).

Files:
- `wrappers.dfy`: `Option`, `Result` and `Outcome`. These stand for
  Python's `None` and for raised exceptions.
- `pystr.dfy`: Python's `str.replace`, `split`, `join` and `rstrip`, with
  Python's semantics. `rstrip` removes a trailing run of characters taken
  from a set.
- `common.dfy`: `batches/common.py`. A metric is a `class` whose `name`
  the renaming loops update in place. `filterList` fills its dictionaries
  in two loops, and the model keeps both loops.
- `binning.dfy`: the binning policies and the row-to-bin assignment, as
  functions. It also defines a value-by-value reference histogram and
  proves the policies' properties.
- `slicers.dfy`: `OneDSlicer` as a `class` with `Setup`, `SliceAt`,
  `Slices`, `SliceCounts` and `Equals`, plus a minimal `UniSlicer` and
  the test scenarios written as client code.

Where documentation and code disagree, the model follows the code:
- The `standardMetrics` docstring (`common.py:141-145`) describes an
  empty `replace_colname` as removing the column name from the metric
  name. The code calls `name.rstrip(' ' + colname)`, which strips any
  trailing characters that occur in `' ' + colname`. The model does the
  same. The docstring's example writes "Mean Airmass";
  `PyStr.StripAirmass` proves it for the column `airmass`
  (`"Mean airmass"` gives `"Mean"`). `PyStr.StripEatsIntoLabel` shows
  that `"Mean seeingFwhmEff"` gives `"Mea"`.
- The comment at `testOneDSlicer.py:56` expects two padding bins for a
  bin count. The assertion at line 59 expects exactly N slices. The model
  follows the assertion; padding applies to the bin-size policy only.

## Model

| member | source | states |
|---|---|---|
| Common.CombineMetadata | python/lsst/sims/maf/batches/common.py:11-20 | The result is None exactly when both inputs are None. Two present strings are joined with one space. One missing input yields the other unchanged. |
| Common.CombineMetadataMonoid | python/lsst/sims/maf/batches/common.py:11-20 | Combining is associative, and None is an identity on both sides. |
| Common.FilterNamesShape | python/lsst/sims/maf/batches/common.py:43-48 | The filter list holds "all" exactly when requested and every band, each once. The display order counts up along the list, from 0 with "all" and from 1 without. |
| Common.FilterTables | python/lsst/sims/maf/batches/common.py:43-51 | The list is u,g,r,i,z,y, with "all" first when requested. The colour and order tables hold "all" exactly when requested and every band. Each colour is the filter's plot colour, and each order is its display order. |
| Common.FilterConstraints | python/lsst/sims/maf/batches/common.py:52-73 | Both tables are keyed by exactly the listed filters. Each constraint is the filter's constraint under the extra SQL. Each label is the metadata prefix followed by "all bands" or "<f> band". |
| Common.WrapInExtraSql | python/lsst/sims/maf/batches/common.py:68-73 | The second loop visits every key of the constraint table, in any order, and keeps the same keys. With a non-empty extra SQL it gives "all" the extra SQL alone and each band `(<extra>) and (filter = "<f>")`. |
| Common.FilterList | python/lsst/sims/maf/batches/common.py:23-74 | All five results together: the list, the colours, the orders, the constraints and the labels, all keyed by the listed filters. |
| Common.SqlWithoutExtra | python/lsst/sims/maf/batches/common.py:61-67 | With no extra SQL, or an empty one, "all" has no constraint and each band has `filter = "<f>"`. An empty extra SQL behaves as None, and so does the metadata prefix. |
| Common.ConstraintsDistinct | python/lsst/sims/maf/batches/common.py:61-73 | Two different filters never get the same constraint, with or without extra SQL. |
| Common.MetadataRules | python/lsst/sims/maf/batches/common.py:54-67 | Extra metadata takes precedence over extra SQL. The prefix is empty or ends in one space. Every label ends in its band's text. |
| Common.RadecCols | python/lsst/sims/maf/batches/common.py:77-83 | Without a dither stacker the lookup succeeds exactly when `raDecDeg`, `ra` and `dec` are all in the column map. It then returns those three entries with no stacker and no dither metadata. Otherwise the KeyError names the first missing key, in the order raDecDeg, ra, dec. |
| Common.Metric.constructor | python/lsst/sims/maf/batches/common.py:151-154 | A metric keeps its kind and column. Its name is the explicit metric name when one is given, and "<label> <column>" otherwise. |
| Common.RenameMetrics | python/lsst/sims/maf/batches/common.py:155-160 | Each metric in the list is renamed exactly once. A non-empty replacement replaces every occurrence of the column. An empty one strips trailing characters drawn from `" " + colname`. |
| Common.Rename | python/lsst/sims/maf/batches/common.py:155-160 | None keeps the name. A non-empty replacement gives the pieces of `name.split(colname)` joined with it. An empty replacement gives a prefix of the name. |
| Common.RenameAbsentColumn | python/lsst/sims/maf/batches/common.py:157-158 | A name in which the column does not occur is unchanged by a non-empty replacement. |
| Common.RenameDefaultName | python/lsst/sims/maf/batches/common.py:157-158 | A default name "<label> <col>" in which the column occurs only at the end becomes "<label> <replacement>". |
| Common.RenameEmptyIdempotent | python/lsst/sims/maf/batches/common.py:159-160 | Renaming with an empty replacement gives a prefix of the name that ends in neither a space nor a character of the column. Renaming again changes nothing. |
| Common.StandardMetrics | python/lsst/sims/maf/batches/common.py:134-161 | Four distinct new metrics on the column: Mean, Median, Min and Max, in that order, each with its default name renamed by the replacement rule. |
| Common.ExtraMetrics | python/lsst/sims/maf/batches/common.py:182-187 | The six appended metrics in order: Rms, the +3 and -3 sigma outlier counts with their explicit names, the 25th and 75th percentiles, and Count. |
| Common.ExtendedMetrics | python/lsst/sims/maf/batches/common.py:164-194 | Ten distinct metrics: the standard four (not renamed on their own) followed by the six extras. Every name is renamed exactly once. |
| Common.StandardAngleMetrics | python/lsst/sims/maf/batches/common.py:197-225 | Five distinct metrics in order: MeanAngle, RmsAngle, FullRangeAngle, Min and Max, each renamed by the rule. |
| Common.StandardSummary | python/lsst/sims/maf/batches/common.py:110-121 | Eight summary metrics in order: Mean, Rms, Median, Count, Max, Min, N(+3Sigma) and N(-3Sigma). The last two are explicitly named. |
| Common.ExtendedSummary | python/lsst/sims/maf/batches/common.py:124-131 | The eight standard summary metrics followed by the 25th and 75th percentiles, named "25th%ile" and "75th%ile". |
| PyStr.RStrip | python/lsst/sims/maf/batches/common.py:160 | The result is a prefix of the name. Its last character, if any, is not among the stripped characters. Every character cut off is among them. |
| PyStr.RStripUnique | python/lsst/sims/maf/batches/common.py:160 | Those three facts determine the result of `rstrip`. |
| PyStr.RStripIdempotent | python/lsst/sims/maf/batches/common.py:160 | Stripping twice is the same as stripping once. |
| PyStr.StripTrailingColumn | python/lsst/sims/maf/batches/common.py:160 | Stripping `" " + col` from "p col" gives back "p" exactly when p is empty or ends in a character outside `" " + col`. |
| PyStr.StripEatsIntoLabel | python/lsst/sims/maf/batches/common.py:160 | "Mean seeingFwhmEff" stripped of " seeingFwhmEff" is "Mea". |
| PyStr.StripAirmass | python/lsst/sims/maf/batches/common.py:143 | The docstring's "Mean Airmass" example, for the column `airmass`: "Mean airmass" stripped of " airmass" is "Mean". |
| PyStr.ScanIsJoinOfSplit | python/lsst/sims/maf/batches/common.py:158 | The left-to-right replacing scan equals `r.join(s.split(pat))` for a non-empty pattern. |
| PyStr.Replace | python/lsst/sims/maf/batches/common.py:158 | `str.replace` with a non-empty pattern joins the pieces of `s.split(pat)` with the replacement. |
| PyStr.SplitJoinRoundTrip | python/lsst/sims/maf/batches/common.py:158 | Joining the pieces of a split with the separator gives the string back. |
| PyStr.SplitPiecesFree | python/lsst/sims/maf/batches/common.py:158 | No piece of a split contains the separator, so every occurrence is replaced. |
| PyStr.ReplaceBySelf | python/lsst/sims/maf/batches/common.py:158 | Replacing the column by itself leaves the name unchanged. |
| PyStr.ReplaceAbsent | python/lsst/sims/maf/batches/common.py:158 | A name that does not contain the column is left unchanged. |
| PyStr.ReplaceTrailing | python/lsst/sims/maf/batches/common.py:158 | When the pattern occurs in `p + pat` only at the end, the result is `p + repl`. |
| Binning.BinOfExact | tests/testOneDSlicer.py:255-259 | Over strictly increasing edges, the histogram's bin for a value is exactly the bin holding it. It finds none exactly when the value lies outside the first and last edges. |
| Binning.BinUnique | tests/testOneDSlicer.py:252-259 | A value lies in at most one bin, the last bin being closed. |
| Binning.Members | tests/testOneDSlicer.py:222-225 | The row indices of bin i are exactly the rows whose value lies in bin i. |
| Binning.Histogram | tests/testOneDSlicer.py:255 | The reference histogram has one count per bin. |
| Binning.MembersCountHistogram | tests/testOneDSlicer.py:251-259 | The number of rows gathered for bin i equals the reference histogram's count for bin i. |
| Binning.HistogramTotal | tests/testOneDSlicer.py:251-259 | The histogram's counts add up to the number of values within the edges. |
| Binning.CountAllInRange | tests/testOneDSlicer.py:255-259 | When every value is within the edges, that number is the row count. |
| Binning.EqualWidthEdgesShape | tests/testOneDSlicer.py:57-63 | N equal-width bins give N+1 strictly increasing edges from lo to hi, every step being (hi-lo)/N. |
| Binning.PaddedEdgesShape | tests/testOneDSlicer.py:110-114 | Bin-size edges start one bin below lo, have lo as their second edge, step by the bin size, and end at least one bin above hi. There are `ceil((hi-lo)/bs) + 3` of them. |
| Binning.ComputeBins | tests/testOneDSlicer.py:35-121 | `setupSlicer`'s choice of edges: explicit edges first, then a bin size, then a bin count or the automatic count. Every successful choice has at least one edge, and the edges strictly increase. |
| Binning.ExplicitEdgesVerbatim | tests/testOneDSlicer.py:40-46 | Explicit edges are kept verbatim whatever the data, the overrides or a bin size, giving `len(bins) - 1` slices and no warning. Edges that are empty or not strictly increasing are a configuration error. |
| Binning.CountGivesEqualBins | tests/testOneDSlicer.py:57-63 | A bin count N over a non-degenerate range gives exactly N slices from the range's low end to its high end, each of width (hi-lo)/N, with no warning. |
| Binning.OverridesAreEnds | tests/testOneDSlicer.py:98-102 | binMin and binMax become the first and last edges whatever the data range. |
| Binning.DegenerateRangeWidened | tests/testOneDSlicer.py:65-75 | All-equal data with N bins still gives N strictly increasing slices, with binMax widened and a warning raised. |
| Binning.BinsizePadsBothEnds | tests/testOneDSlicer.py:110-121 | Without explicit edges, a bin size gives `ceil((max-min)/binsize) + 2` slices, including one padding bin at each end. A warning is raised exactly when a bin count was also given. |
| Binning.BinsizeWholeRange | tests/testOneDSlicer.py:110-114 | A range of m whole bin sizes gives m + 2 slices; for example, range 1 with bin size 0.5 gives 4. |
| Binning.DataRangeCovered | tests/testOneDSlicer.py:249-259 | With the range taken from the data, every row lies within the edges. With a bin size, the lower padding bin holds no row. |
| Binning.HistogramAgreement | tests/testOneDSlicer.py:241-259 | N bins over the data's range give numpy's equal-width edges. Each slice's row count equals the reference histogram's count, and the counts add up to the number of rows. |
| Slicers.OneDSlicer.constructor | tests/testOneDSlicer.py:24 | A new slicer keeps its column name and configuration, and is not set up. |
| Slicers.OneDSlicer.Setup | tests/testOneDSlicer.py:43-46 | On success, `bins` are the policy's edges, `nslice` is `len(bins) - 1`, the data is kept and the warning flag is set. On a configuration error nothing changes. |
| Slicers.OneDSlicer.SliceAt | tests/testOneDSlicer.py:158-162 | Before setup the result is NotSetUp; past the last slice it is OutOfRange. Every index from 0 to nslice-1 of a set-up slicer gives a slice. Slice i has `sid == i` and `binLeft == bins[i]`, and holds exactly the rows in bin i. |
| Slicers.OneDSlicer.Slices | tests/testOneDSlicer.py:152-156 | Iteration yields `nslice` slices in order. Each equals the slice that indexing gives, with `sid == i` and `binLeft == bins[i]`. |
| Slicers.OneDSlicer.SliceCounts | tests/testOneDSlicer.py:251-254 | The per-slice row counts are the reference histogram over the slicer's edges. They add up to the number of rows within the edges. |
| Slicers.UniSlicer.Setup | tests/testOneDSlicer.py:196-197 | A set-up whole-dataset slicer reports one slice and records the number of rows. Its slice itself is not modelled. |
| Slicers.SlicesPartitionRows | tests/testOneDSlicer.py:217-225 | No row is in two slices. A row is in some slice exactly when its value lies within the edges. |
| Slicers.EqualsIsEquivalence | tests/testOneDSlicer.py:172-188 | Equality is reflexive on set-up slicers, symmetric and transitive. |
| Slicers.OneDSlicer.Equals | tests/testOneDSlicer.py:172-198 | A whole-dataset slicer is never equal. Equal slicers are both set up and have the same bins. A slicer equals itself exactly when it is set up. |
| Slicers.SliceBeforeSetup | tests/testOneDSlicer.py:215-216 | Slicing a slicer that was never set up fails as not set up. |
| Slicers.EquivalenceScenario | tests/testOneDSlicer.py:172-198 | Two slicers with the same edges are equal whatever their data. A slicer with equal-width bins over data that starts elsewhere is not. A UniSlicer never is. |
| Slicers.HistogramScenario | tests/testOneDSlicer.py:241-259 | N bins over the data give N counts equal to the reference histogram on numpy's edges, and the counts add up to the number of rows. |

## Left out

- `radecCols` with a dither stacker: the stacker registry, `inspect`, keyword arguments and the stacker's added columns are not part of this model.
- The metric classes: their numerics are not modelled. The default name of a metric is taken to be "<label> <column>". The summary metrics' column is taken to be `metricdata`, and a percentile's label "<p>th%ile".
- Filters are an enumeration rather than free strings. The dictionaries are keyed by that enumeration, and its `Name` gives the string.
- The automatic bin count for `bins=None` is a parameter of `Setup` (`autoBins`). The Freedman–Diaconis rule behind it is not modelled.
- Slicers.OneDSlicer.Setup: re-running setup recomputes the edges from the original configuration. It does not reuse edges stored by an earlier setup.
- Slicers.OneDSlicer.Equals: equality is exact equality of the edges rather than equality within a floating-point tolerance. Slicers that are not set up are never equal.
- Slicers.OneDSlicer.SliceAt: rows are listed in row order. No particular order is promised for the row indices of a slice.
- Configuration errors (edges that are empty or not strictly increasing, a bin count below one, a non-positive bin size, no data and no override, binMax below binMin) are modelled as one error value each. The original's exact exceptions and their wording are not modelled.
- The size of the widening of a zero-width range is fixed at 1.0. Warning texts are not modelled, only whether a warning was raised.
- Values are exact reals. Floating-point rounding, NaN and infinities are not modelled.
- Plotting, the random shuffle of the test data and the whole-dataset slicer's own slicing are not modelled.
- The checks at `tests/testOneDSlicer.py:227` and `:231` pass a message rather than compare values, so they constrain nothing. Count conservation is taken from the histogram test instead.
