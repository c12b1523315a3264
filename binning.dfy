/** The one-dimensional slicer's binning policies and its row-to-bin
    assignment, as values: how `setupSlicer` turns a configuration and the
    data's range into bin edges, which rows fall in which bin (half-open
    bins, the last one closed), and the equal-width histogram the per-bin
    counts must agree with. Values and edges are exact reals. */
module Binning {
  import opened Wrappers

  predicate StrictlyIncreasing(s: seq<real>) {
    forall i, j :: 0 <= i < j < |s| ==> s[i] < s[j]
  }

  lemma {:induction false} StepChain(s: seq<real>, i: int, j: int)
    requires forall k :: 0 <= k < |s| - 1 ==> s[k] < s[k + 1]
    requires 0 <= i < j < |s|
    ensures s[i] < s[j]
    decreases j - i
  {
    if i + 1 < j {
      StepChain(s, i + 1, j);
    }
  }

  /** Positive steps make a strictly increasing sequence. */
  lemma StepsIncrease(s: seq<real>)
    requires forall k :: 0 <= k < |s| - 1 ==> s[k] < s[k + 1]
    ensures StrictlyIncreasing(s)
  {
    forall i, j | 0 <= i < j < |s| ensures s[i] < s[j] {
      StepChain(s, i, j);
    }
  }

  // ---------------------------------------------------------------------
  // Row-to-bin assignment

  /** `x` falls in bin `i`: `[bins[i], bins[i+1])`, except that the last
      bin also holds its right edge. */
  predicate InBin(bins: seq<real>, i: int, x: real) {
    0 <= i < |bins| - 1 && bins[i] <= x &&
    (x < bins[i + 1] || (i == |bins| - 2 && x == bins[i + 1]))
  }

  /** `x` lies between the first and the last edge. */
  predicate InRange(bins: seq<real>, x: real) {
    |bins| >= 2 && bins[0] <= x <= bins[|bins| - 1]
  }

  /** The first bin, from `i` on, that holds `x`. */
  function BinFrom(bins: seq<real>, x: real, i: nat): (r: Option<nat>)
    ensures r.Some? ==> i <= r.value && InBin(bins, r.value, x)
    decreases |bins| - i
  {
    if i + 1 >= |bins| then None
    else if InBin(bins, i, x) then Some(i)
    else BinFrom(bins, x, i + 1)
  }

  /** The bin a value is counted in, if any: the reference used by the
      histogram below. */
  function BinOf(bins: seq<real>, x: real): Option<nat> {
    BinFrom(bins, x, 0)
  }

  /** Over strictly increasing edges a value lies in at most one bin. */
  lemma BinUnique(bins: seq<real>, x: real, i: int, k: int)
    requires StrictlyIncreasing(bins)
    requires InBin(bins, i, x) && InBin(bins, k, x)
    ensures i == k
  {
  }

  lemma {:induction false} BinFromFinds(bins: seq<real>, x: real, i: nat)
    requires i + 1 < |bins| && bins[i] <= x <= bins[|bins| - 1]
    ensures BinFrom(bins, x, i).Some?
    decreases |bins| - i
  {
    if !InBin(bins, i, x) && i + 2 < |bins| {
      BinFromFinds(bins, x, i + 1);
    }
  }

  /** Over strictly increasing edges, `BinOf` names exactly the bin holding
      `x`, and finds none exactly when `x` is out of range: every in-range
      value is counted once, every other value never. */
  lemma BinOfExact(bins: seq<real>, x: real)
    requires StrictlyIncreasing(bins)
    ensures forall i :: BinOf(bins, x) == Some(i) <==> InBin(bins, i, x)
    ensures BinOf(bins, x).None? <==> !InRange(bins, x)
  {
    var r := BinOf(bins, x);
    if InRange(bins, x) {
      BinFromFinds(bins, x, 0);
    }
    if r.Some? {
      assert bins[0] <= bins[r.value] && bins[r.value + 1] <= bins[|bins| - 1];
      forall i | InBin(bins, i, x) ensures i == r.value {
        BinUnique(bins, x, i, r.value);
      }
    }
  }

  /** The row indices of bin `i`, in row order. */
  function Members(values: seq<real>, bins: seq<real>, i: int): (idxs: seq<nat>)
    ensures forall j: nat :: j in idxs <==> j < |values| && InBin(bins, i, values[j])
    decreases |values|
  {
    if values == [] then []
    else
      var n := |values| - 1;
      Members(values[..n], bins, i) + (if InBin(bins, i, values[n]) then [n] else [])
  }

  // ---------------------------------------------------------------------
  // The reference histogram and count conservation

  /** An equal-width histogram computed value by value over the same edges:
      each value adds one to the bin `BinOf` names. */
  function Histogram(values: seq<real>, bins: seq<real>): (h: seq<nat>)
    requires |bins| >= 1
    ensures |h| == |bins| - 1
    decreases |values|
  {
    if values == [] then seq(|bins| - 1, _ => 0)
    else
      var h := Histogram(values[..|values| - 1], bins);
      match BinOf(bins, values[|values| - 1])
      case None => h
      case Some(k) => h[k := h[k] + 1]
  }

  function Sum(s: seq<nat>): nat {
    if s == [] then 0 else Sum(s[..|s| - 1]) + s[|s| - 1]
  }

  /** The number of values between the first and the last edge. */
  function CountInRange(values: seq<real>, bins: seq<real>): nat {
    if values == [] then 0
    else CountInRange(values[..|values| - 1], bins) + (if InRange(bins, values[|values| - 1]) then 1 else 0)
  }

  /** Gathering the rows of bin `i` finds as many rows as the value-by-value
      histogram counts in bin `i`. */
  lemma {:induction false} MembersCountHistogram(values: seq<real>, bins: seq<real>, i: int)
    requires StrictlyIncreasing(bins) && 0 <= i < |bins| - 1
    ensures |Members(values, bins, i)| == Histogram(values, bins)[i]
    decreases |values|
  {
    if values != [] {
      var n := |values| - 1;
      MembersCountHistogram(values[..n], bins, i);
      BinOfExact(bins, values[n]);
    }
  }

  lemma {:induction false} SumUpdate(s: seq<nat>, k: int, v: nat)
    requires 0 <= k < |s|
    ensures Sum(s[k := v]) + s[k] == Sum(s) + v
    decreases |s|
  {
    var n := |s| - 1;
    if k < n {
      assert s[k := v][..n] == s[..n][k := v];
      SumUpdate(s[..n], k, v);
    } else {
      assert s[k := v][..n] == s[..n];
    }
  }

  lemma {:induction false} SumZeros(n: nat)
    ensures Sum(seq(n, _ => 0)) == 0
  {
    if n > 0 {
      assert seq(n, _ => 0)[..n - 1] == seq(n - 1, _ => 0);
      SumZeros(n - 1);
    }
  }

  /** The histogram counts every in-range value exactly once. */
  lemma {:induction false} HistogramTotal(values: seq<real>, bins: seq<real>)
    requires StrictlyIncreasing(bins) && |bins| >= 1
    ensures Sum(Histogram(values, bins)) == CountInRange(values, bins)
    decreases |values|
  {
    if values == [] {
      SumZeros(|bins| - 1);
    } else {
      var n := |values| - 1;
      HistogramTotal(values[..n], bins);
      BinOfExact(bins, values[n]);
      var h := Histogram(values[..n], bins);
      match BinOf(bins, values[n])
      case None =>
      case Some(k) => SumUpdate(h, k, h[k] + 1);
    }
  }

  /** When every value is in range, the count in range is the row count. */
  lemma {:induction false} CountAllInRange(values: seq<real>, bins: seq<real>)
    requires forall j :: 0 <= j < |values| ==> InRange(bins, values[j])
    ensures CountInRange(values, bins) == |values|
    decreases |values|
  {
    if values != [] {
      CountAllInRange(values[..|values| - 1], bins);
    }
  }

  // ---------------------------------------------------------------------
  // Configuration and setup

  /** The `bins` argument: explicit edges, a bin count, or None (automatic). */
  datatype BinSpec = Edges(edges: seq<real>) | Count(n: int) | Auto

  datatype Config = Config(bins: BinSpec, binMin: Option<real>, binMax: Option<real>, binsize: Option<real>)

  datatype SetupError =
    | BadEdges          // explicit edges empty or not strictly increasing
    | BadBinCount       // a bin count below one
    | BadBinsize        // a bin size that is not positive
    | NoData            // a range is needed but there is no data and no override
    | InvertedRange     // binMax below binMin

  /** Edges chosen by setup, and whether setup emitted a warning. */
  datatype BinChoice = BinChoice(edges: seq<real>, warned: bool)

  function Min(s: seq<real>): (m: real)
    requires |s| > 0
    ensures m in s && forall x :: x in s ==> m <= x
  {
    if |s| == 1 then s[0]
    else
      var r := Min(s[1..]);
      assert s == [s[0]] + s[1..];
      if s[0] <= r then s[0] else r
  }

  function Max(s: seq<real>): (m: real)
    requires |s| > 0
    ensures m in s && forall x :: x in s ==> x <= m
  {
    if |s| == 1 then s[0]
    else
      var r := Max(s[1..]);
      assert s == [s[0]] + s[1..];
      if s[0] >= r then s[0] else r
  }

  /** The lower end of the binned range: binMin, else the data's minimum. */
  function Lower(cfg: Config, values: seq<real>): Option<real> {
    if cfg.binMin.Some? then cfg.binMin
    else if |values| > 0 then Some(Min(values))
    else None
  }

  /** The upper end of the binned range: binMax, else the data's maximum. */
  function Upper(cfg: Config, values: seq<real>): Option<real> {
    if cfg.binMax.Some? then cfg.binMax
    else if |values| > 0 then Some(Max(values))
    else None
  }

  function Ceil(x: real): (c: int)
    ensures x <= c as real < x + 1.0
  {
    if x.Floor as real == x then x.Floor else x.Floor + 1
  }

  /** How far a zero-width range is widened upwards. */
  const Widen: real := 1.0

  /** `n` equal-width bins from `lo` to `hi`: `n + 1` edges. */
  function EqualWidthEdges(lo: real, hi: real, n: nat): seq<real>
    requires n > 0
  {
    var w := (hi - lo) / (n as real);
    seq(n + 1, k => lo + (k as real) * w)
  }

  /** Bins of width `bs` from one bin below `lo` to one bin above `hi`:
      `arange(lo - bs, hi + 2 bs, bs)`. */
  function PaddedEdges(lo: real, hi: real, bs: real): seq<real>
    requires bs > 0.0 && lo <= hi
  {
    assert (hi - lo) / bs >= 0.0;
    seq(Ceil((hi - lo) / bs) + 3, k => lo - bs + (k as real) * bs)
  }

  /** The bin-count policy: `n` equal-width bins over [Lower, Upper], with
      a zero-width range widened (and a warning). */
  function CountBinning(cfg: Config, values: seq<real>, n: int): (r: Result<BinChoice, SetupError>)
    ensures r.Ok? ==> |r.value.edges| == n + 1 && StrictlyIncreasing(r.value.edges)
  {
    if n < 1 then Err(BadBinCount)
    else if Lower(cfg, values).None? || Upper(cfg, values).None? then Err(NoData)
    else
      var lo, hi := Lower(cfg, values).value, Upper(cfg, values).value;
      if hi < lo then Err(InvertedRange)
      else if lo == hi then
        EqualWidthEdgesShape(lo, hi + Widen, n);
        Ok(BinChoice(EqualWidthEdges(lo, hi + Widen, n), true))
      else
        EqualWidthEdgesShape(lo, hi, n);
        Ok(BinChoice(EqualWidthEdges(lo, hi, n), false))
  }

  /** `setupSlicer`'s choice of edges, in priority order: explicit edges are
      used verbatim; otherwise a bin size gives padded bins (with a warning
      when a bin count was given too, which it overrides); otherwise a bin
      count, or the automatic count `autoBins` when `bins` is None, gives
      equal-width bins. Every successful choice has at least one edge, and
      the edges strictly increase. */
  function ComputeBins(cfg: Config, values: seq<real>, autoBins: int): (r: Result<BinChoice, SetupError>)
    ensures r.Ok? ==> |r.value.edges| >= 1 && StrictlyIncreasing(r.value.edges)
  {
    if cfg.bins.Edges? then
      var e := cfg.bins.edges;
      if |e| >= 1 && StrictlyIncreasing(e) then Ok(BinChoice(e, false)) else Err(BadEdges)
    else if cfg.binsize.Some? then
      var bs := cfg.binsize.value;
      if bs <= 0.0 then Err(BadBinsize)
      else if Lower(cfg, values).None? || Upper(cfg, values).None? then Err(NoData)
      else
        var lo, hi := Lower(cfg, values).value, Upper(cfg, values).value;
        if hi < lo then Err(InvertedRange)
        else
          PaddedSteps(lo, hi, bs);
          Ok(BinChoice(PaddedEdges(lo, hi, bs), cfg.bins.Count?))
    else if cfg.bins.Count? then CountBinning(cfg, values, cfg.bins.n)
    else CountBinning(cfg, values, autoBins)
  }

  // ---------------------------------------------------------------------
  // Properties of the policies

  lemma MulMono(a: real, b: real, c: real)
    requires a >= b && c > 0.0
    ensures a * c >= b * c
  {
    assert a * c - b * c == (a - b) * c;
  }

  /** Equal-width edges: `n + 1` of them, from `lo` to `hi`, every step
      `(hi - lo) / n`. */
  lemma EqualWidthEdgesShape(lo: real, hi: real, n: nat)
    requires n > 0 && lo < hi
    ensures var e := EqualWidthEdges(lo, hi, n);
            && |e| == n + 1 && e[0] == lo && e[n] == hi
            && (forall k :: 0 <= k < n ==> e[k + 1] - e[k] == (hi - lo) / (n as real))
            && StrictlyIncreasing(e)
  {
    var e := EqualWidthEdges(lo, hi, n);
    var w := (hi - lo) / (n as real);
    assert w > 0.0;
    assert (n as real) * w == hi - lo;
    assert e[n] == lo + (n as real) * w;
    forall k | 0 <= k < n ensures e[k + 1] - e[k] == w {
      assert ((k + 1) as real) * w == (k as real) * w + w;
    }
    StepsIncrease(e);
  }

  lemma PaddedSteps(lo: real, hi: real, bs: real)
    requires bs > 0.0 && lo <= hi
    ensures var e := PaddedEdges(lo, hi, bs);
            (forall k :: 0 <= k < |e| - 1 ==> e[k + 1] - e[k] == bs) && StrictlyIncreasing(e)
  {
    var e := PaddedEdges(lo, hi, bs);
    forall k | 0 <= k < |e| - 1 ensures e[k + 1] - e[k] == bs {
      assert ((k + 1) as real) * bs == (k as real) * bs + bs;
    }
    StepsIncrease(e);
  }

  lemma DivMul(a: real, b: real)
    requires b > 0.0
    ensures (a / b) * b == a
  {
  }

  lemma PaddedLastEdge(lo: real, hi: real, bs: real)
    requires bs > 0.0 && lo <= hi
    ensures var e := PaddedEdges(lo, hi, bs);
            e[|e| - 1] >= hi + bs
  {
    var e := PaddedEdges(lo, hi, bs);
    var q := (hi - lo) / bs;
    var m := Ceil(q);
    assert |e| == m + 3;
    DivMul(hi - lo, bs);
    MulMono(m as real, q, bs);
    assert (m as real) * bs >= hi - lo;
    var last := e[m + 2];
    assert last == lo - bs + ((m + 2) as real) * bs;
    assert ((m + 2) as real) * bs == (m as real) * bs + 2.0 * bs;
  }

  /** Padded edges: `ceil((hi - lo) / bs) + 3` of them, one bin below `lo`,
      steps of `bs`, ending at least one bin above `hi`. */
  lemma PaddedEdgesShape(lo: real, hi: real, bs: real)
    requires bs > 0.0 && lo <= hi
    ensures var e := PaddedEdges(lo, hi, bs);
            && |e| == Ceil((hi - lo) / bs) + 3 && e[0] == lo - bs && e[1] == lo
            && (forall k :: 0 <= k < |e| - 1 ==> e[k + 1] - e[k] == bs)
            && StrictlyIncreasing(e) && e[|e| - 1] >= hi + bs
  {
    PaddedSteps(lo, hi, bs);
    PaddedLastEdge(lo, hi, bs);
  }

  /** Explicit edges are kept verbatim, whatever the data, the overrides or
      a bin size, with `nslice == len(edges) - 1` and no warning; edges that
      are empty or not strictly increasing are a configuration error. */
  lemma ExplicitEdgesVerbatim(e: seq<real>, binMin: Option<real>, binMax: Option<real>,
                              binsize: Option<real>, values: seq<real>, autoBins: int)
    ensures ComputeBins(Config(Edges(e), binMin, binMax, binsize), values, autoBins)
            == if |e| >= 1 && StrictlyIncreasing(e) then Ok(BinChoice(e, false)) else Err(BadEdges)
  {
  }

  /** A bin count N over a non-degenerate range gives exactly N bins (no
      padding), from the range's low end to its high end, all of width
      (high - low) / N, without a warning. */
  lemma CountGivesEqualBins(cfg: Config, values: seq<real>, autoBins: int)
    requires cfg.binsize.None? && cfg.bins.Count? && cfg.bins.n >= 1
    requires Lower(cfg, values).Some? && Upper(cfg, values).Some?
    requires Lower(cfg, values).value < Upper(cfg, values).value
    ensures var r := ComputeBins(cfg, values, autoBins);
            var lo, hi, n := Lower(cfg, values).value, Upper(cfg, values).value, cfg.bins.n;
            && r.Ok? && !r.value.warned
            && |r.value.edges| - 1 == n
            && r.value.edges[0] == lo && r.value.edges[n] == hi
            && forall k :: 0 <= k < n ==> r.value.edges[k + 1] - r.value.edges[k] == (hi - lo) / (n as real)
  {
    EqualWidthEdgesShape(Lower(cfg, values).value, Upper(cfg, values).value, cfg.bins.n);
  }

  /** binMin and binMax become the first and last edges, whatever the data. */
  lemma OverridesAreEnds(n: int, binMin: real, binMax: real, values: seq<real>, autoBins: int)
    requires n >= 1 && binMin < binMax
    ensures var r := ComputeBins(Config(Count(n), Some(binMin), Some(binMax), None), values, autoBins);
            r.Ok? && r.value.edges[0] == binMin && r.value.edges[|r.value.edges| - 1] == binMax
  {
    EqualWidthEdgesShape(binMin, binMax, n);
  }

  /** Single-valued data with N bins still gives N bins: the range is
      widened above the value, and a warning is raised. */
  lemma DegenerateRangeWidened(n: int, values: seq<real>, autoBins: int)
    requires n >= 1 && |values| > 0
    requires forall j :: 0 <= j < |values| ==> values[j] == values[0]
    ensures var r := ComputeBins(Config(Count(n), None, None, None), values, autoBins);
            && r.Ok? && r.value.warned && |r.value.edges| - 1 == n
            && r.value.edges[0] == values[0] && r.value.edges[n] == values[0] + Widen
            && StrictlyIncreasing(r.value.edges)
  {
    var v := values[0];
    assert Min(values) == v && Max(values) == v;
    EqualWidthEdgesShape(v, v + Widen, n);
  }

  /** With a bin size the count is `ceil((hi - lo) / binsize)` plus one
      padding bin at each end, the second edge is the low end of the range,
      and a warning is raised exactly when a bin count was given as well.
      Explicit edges take priority over a bin size. */
  lemma BinsizePadsBothEnds(cfg: Config, values: seq<real>, autoBins: int)
    requires !cfg.bins.Edges? && cfg.binsize.Some? && cfg.binsize.value > 0.0
    requires Lower(cfg, values).Some? && Upper(cfg, values).Some?
    requires Lower(cfg, values).value <= Upper(cfg, values).value
    ensures var r := ComputeBins(cfg, values, autoBins);
            var lo, hi, bs := Lower(cfg, values).value, Upper(cfg, values).value, cfg.binsize.value;
            && r.Ok? && (r.value.warned <==> cfg.bins.Count?)
            && |r.value.edges| - 1 == Ceil((hi - lo) / bs) + 2
            && r.value.edges[0] == lo - bs && r.value.edges[1] == lo
            && r.value.edges[|r.value.edges| - 1] >= hi + bs
  {
    PaddedEdgesShape(Lower(cfg, values).value, Upper(cfg, values).value, cfg.binsize.value);
  }

  /** When the range is a whole number `m` of bin sizes, there are `m + 2`
      slices. */
  lemma BinsizeWholeRange(cfg: Config, values: seq<real>, autoBins: int, m: nat)
    requires !cfg.bins.Edges? && cfg.binsize.Some? && cfg.binsize.value > 0.0
    requires Lower(cfg, values).Some? && Upper(cfg, values).Some?
    requires Upper(cfg, values).value - Lower(cfg, values).value == (m as real) * cfg.binsize.value
    ensures var r := ComputeBins(cfg, values, autoBins);
            r.Ok? && |r.value.edges| - 1 == m + 2
  {
    var lo, hi, bs := Lower(cfg, values).value, Upper(cfg, values).value, cfg.binsize.value;
    assert (hi - lo) / bs == m as real;
    BinsizePadsBothEnds(cfg, values, autoBins);
  }

  lemma WithinMinMax(values: seq<real>)
    requires |values| > 0
    ensures forall j :: 0 <= j < |values| ==> Min(values) <= values[j] <= Max(values)
  {
    forall j | 0 <= j < |values| ensures Min(values) <= values[j] <= Max(values) {
      assert values[j] in values;
    }
  }

  lemma EdgesEnclose(e: seq<real>, lo: real, hi: real, values: seq<real>)
    requires |e| >= 2 && e[0] <= lo && hi <= e[|e| - 1]
    requires forall j :: 0 <= j < |values| ==> lo <= values[j] <= hi
    ensures forall j :: 0 <= j < |values| ==> InRange(e, values[j])
  {
  }

  lemma PaddedCovers(lo: real, hi: real, bs: real, values: seq<real>)
    requires bs > 0.0 && lo <= hi
    requires forall j :: 0 <= j < |values| ==> lo <= values[j] <= hi
    ensures var e := PaddedEdges(lo, hi, bs);
            forall j :: 0 <= j < |values| ==> InRange(e, values[j]) && !InBin(e, 0, values[j])
  {
    var e := PaddedEdges(lo, hi, bs);
    PaddedEdgesShape(lo, hi, bs);
    EdgesEnclose(e, lo, hi, values);
  }

  lemma EqualWidthCovers(lo: real, hi: real, n: int, values: seq<real>)
    requires n >= 1 && lo <= hi
    requires forall j :: 0 <= j < |values| ==> lo <= values[j] <= hi
    ensures var e := if lo == hi then EqualWidthEdges(lo, hi + Widen, n) else EqualWidthEdges(lo, hi, n);
            forall j :: 0 <= j < |values| ==> InRange(e, values[j])
  {
    if lo == hi {
      EqualWidthEdgesShape(lo, hi + Widen, n);
      EdgesEnclose(EqualWidthEdges(lo, hi + Widen, n), lo, hi, values);
    } else {
      EqualWidthEdgesShape(lo, hi, n);
      EdgesEnclose(EqualWidthEdges(lo, hi, n), lo, hi, values);
    }
  }

  /** With the range taken from the data (no overrides), every value lies
      between the first and the last edge, so no row is dropped; with a bin
      size, the lower padding bin holds no row. */
  lemma DataRangeCovered(cfg: Config, values: seq<real>, autoBins: int)
    requires cfg.binMin.None? && cfg.binMax.None? && !cfg.bins.Edges?
    requires ComputeBins(cfg, values, autoBins).Ok?
    ensures var e := ComputeBins(cfg, values, autoBins).value.edges;
            forall j :: 0 <= j < |values| ==> InRange(e, values[j])
    ensures var e := ComputeBins(cfg, values, autoBins).value.edges;
            cfg.binsize.Some? ==> forall j :: 0 <= j < |values| ==> !InBin(e, 0, values[j])
  {
    var r := ComputeBins(cfg, values, autoBins);
    assert |values| > 0;
    var lo, hi := Min(values), Max(values);
    assert Lower(cfg, values) == Some(lo) && Upper(cfg, values) == Some(hi);
    WithinMinMax(values);
    if cfg.binsize.Some? {
      assert r.value.edges == PaddedEdges(lo, hi, cfg.binsize.value);
      PaddedCovers(lo, hi, cfg.binsize.value, values);
    } else {
      var n := if cfg.bins.Count? then cfg.bins.n else autoBins;
      assert r == CountBinning(cfg, values, n);
      EqualWidthCovers(lo, hi, n, values);
    }
  }

  /** N bins over the data's own range are numpy's equal-width edges. */
  lemma CountEdgesFromData(n: int, values: seq<real>, autoBins: int)
    requires n >= 1 && |values| > 0 && Min(values) < Max(values)
    ensures var r := ComputeBins(Config(Count(n), None, None, None), values, autoBins);
            r.Ok? && r.value.edges == EqualWidthEdges(Min(values), Max(values), n)
  {
    var cfg := Config(Count(n), None, None, None);
    var lo, hi := Min(values), Max(values);
    assert Lower(cfg, values) == Some(lo) && Upper(cfg, values) == Some(hi);
    assert CountBinning(cfg, values, n) == Ok(BinChoice(EqualWidthEdges(lo, hi, n), false));
  }

  /** The histogram test: with N bins over the data's own range, the
      slicer's edges are numpy's equal-width edges, each bin holds as many
      rows as the reference histogram counts, and the counts add up to the
      number of rows. */
  lemma HistogramAgreement(n: int, values: seq<real>, autoBins: int)
    requires n >= 1 && |values| > 0 && Min(values) < Max(values)
    ensures var r := ComputeBins(Config(Count(n), None, None, None), values, autoBins);
            && r.Ok? && r.value.edges == EqualWidthEdges(Min(values), Max(values), n)
            && (forall i :: 0 <= i < n ==>
                  |Members(values, r.value.edges, i)| == Histogram(values, r.value.edges)[i])
            && Sum(Histogram(values, r.value.edges)) == |values|
  {
    var cfg := Config(Count(n), None, None, None);
    CountEdgesFromData(n, values, autoBins);
    var e := EqualWidthEdges(Min(values), Max(values), n);
    EqualWidthEdgesShape(Min(values), Max(values), n);
    forall i | 0 <= i < n ensures |Members(values, e, i)| == Histogram(values, e)[i] {
      MembersCountHistogram(values, e, i);
    }
    DataRangeCovered(cfg, values, autoBins);
    HistogramTotal(values, e);
    CountAllInRange(values, e);
  }
}
