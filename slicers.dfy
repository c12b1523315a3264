/** The one-dimensional slicer as a stateful object: constructed with a
    configuration, then `Setup` fixes its bin edges and slice count from the
    data; slices are reached by index or by iterating in order, each
    carrying its row indices and a slice point (`sid`, `binLeft`). The
    whole-dataset slicer appears only as the other party of an equality
    test. */
module Slicers {
  import opened Wrappers
  import opened Binning

  datatype SlicePoint = SlicePoint(sid: nat, binLeft: real)

  datatype Slice = Slice(idxs: seq<nat>, slicePoint: SlicePoint)

  /** Slicing before setup raises NotImplementedError; an index past the
      last slice is out of range. */
  datatype SliceError = NotSetUp | OutOfRange

  class OneDSlicer {
    const sliceColName: string
    const config: Config
    var isSetup: bool
    var bins: seq<real>
    var nslice: nat
    var values: seq<real>
    var warned: bool

    ghost predicate Valid()
      reads this
    {
      isSetup ==> |bins| >= 1 && nslice == |bins| - 1 && StrictlyIncreasing(bins)
    }

    constructor (sliceColName: string, config: Config)
      ensures Valid() && !isSetup && !warned
      ensures this.sliceColName == sliceColName && this.config == config
    {
      this.sliceColName := sliceColName;
      this.config := config;
      isSetup := false;
      bins := [];
      nslice := 0;
      values := [];
      warned := false;
    }

    /** `setupSlicer(data)`: choose the edges by the configured policy and
        keep the sliced column's values. A configuration the policy rejects
        leaves the slicer as it was. */
    method Setup(data: seq<real>, autoBins: int) returns (outcome: Outcome<SetupError>)
      requires Valid()
      modifies this
      ensures Valid()
      ensures match ComputeBins(config, data, autoBins)
              case Ok(b) =>
                && outcome == Pass && isSetup && bins == b.edges && nslice == |b.edges| - 1
                && values == data && warned == b.warned
              case Err(e) =>
                && outcome == Fail(e) && isSetup == old(isSetup) && bins == old(bins)
                && nslice == old(nslice) && values == old(values) && warned == old(warned)
    {
      var r := ComputeBins(config, data, autoBins);
      match r
      case Ok(b) =>
        isSetup := true;
        bins := b.edges;
        nslice := |b.edges| - 1;
        values := data;
        warned := b.warned;
        outcome := Pass;
      case Err(e) =>
        outcome := Fail(e);
    }

    /** `slicer[i]`: slice `i` holds exactly the rows whose value falls in
        bin `i`, and its slice point is `(i, bins[i])`. */
    function SliceAt(i: int): (r: Result<Slice, SliceError>)
      requires Valid()
      reads this
      ensures !isSetup ==> r == Err(NotSetUp)
      ensures isSetup && !(0 <= i < nslice) ==> r == Err(OutOfRange)
      ensures isSetup && 0 <= i < nslice ==> r.Ok?
      ensures r.Ok? ==> isSetup && 0 <= i < nslice && r.value.slicePoint == SlicePoint(i, bins[i])
      ensures r.Ok? ==> forall j: nat :: j in r.value.idxs <==> j < |values| && InBin(bins, i, values[j])
    {
      if !isSetup then Err(NotSetUp)
      else if i < 0 || i >= nslice then Err(OutOfRange)
      else Ok(Slice(Members(values, bins, i), SlicePoint(i, bins[i])))
    }

    /** `for s in slicer`: the slices in order, the same ones indexing gives. */
    method Slices() returns (ss: seq<Slice>)
      requires Valid() && isSetup
      ensures |ss| == nslice
      ensures forall i :: 0 <= i < nslice ==> SliceAt(i) == Ok(ss[i])
      ensures forall i :: 0 <= i < |ss| ==> ss[i].slicePoint == SlicePoint(i, bins[i])
    {
      ss := [];
      var i := 0;
      while i < nslice
        invariant 0 <= i <= nslice && |ss| == i
        invariant forall k :: 0 <= k < i ==> SliceAt(k) == Ok(ss[k])
      {
        ss := ss + [SliceAt(i).value];
        i := i + 1;
      }
    }

    /** The per-slice row counts, gathered slice by slice as the histogram
        test does: they are the reference histogram over the slicer's own
        edges, and they add up to the number of rows within the edges. */
    method SliceCounts() returns (counts: array<nat>)
      requires Valid() && isSetup
      ensures counts.Length == nslice
      ensures counts[..] == Histogram(values, bins)
      ensures Sum(counts[..]) == CountInRange(values, bins)
    {
      counts := new nat[nslice];
      var i := 0;
      while i < nslice
        invariant 0 <= i <= nslice
        invariant forall k :: 0 <= k < i ==> counts[k] == Histogram(values, bins)[k]
      {
        var s := SliceAt(i).value;
        MembersCountHistogram(values, bins, i);
        counts[i] := |s.idxs|;
        i := i + 1;
      }
      HistogramTotal(values, bins);
    }

    /** `self == other`: another one-dimensional slicer with the same bins;
        never a slicer of another kind. */
    predicate Equals(other: AnySlicer): (b: bool)
      reads this, other.Frame()
      ensures other.Uni? ==> !b
      ensures b ==> isSetup && other.oned.isSetup && other.oned.bins == bins
      ensures other == OneD(this) ==> (b <==> isSetup)
    {
      match other
      case OneD(s) => isSetup && s.isSetup && s.bins == bins
      case Uni(_) => false
    }
  }

  /** The whole-dataset slicer: one slice holding every row. */
  class UniSlicer {
    var isSetup: bool
    var nslice: nat
    var nrows: nat

    constructor ()
      ensures !isSetup && nslice == 0 && nrows == 0
    {
      isSetup := false;
      nslice := 0;
      nrows := 0;
    }

    method Setup(data: seq<real>)
      modifies this
      ensures isSetup && nslice == 1 && nrows == |data|
    {
      isSetup := true;
      nslice := 1;
      nrows := |data|;
    }
  }

  /** Either kind of slicer, as the right-hand side of an equality test. */
  datatype AnySlicer = OneD(oned: OneDSlicer) | Uni(uni: UniSlicer) {
    function Frame(): set<object> {
      match this
      case OneD(s) => {s}
      case Uni(u) => {u}
    }
  }

  // ---------------------------------------------------------------------
  // Properties of set-up slicers

  /** Every row lies in at most one slice, and in some slice exactly when its
      value lies between the first and the last edge. */
  lemma SlicesPartitionRows(s: OneDSlicer, j: nat)
    requires s.Valid() && s.isSetup && j < |s.values|
    ensures forall i, k ::
              (s.SliceAt(i).Ok? && s.SliceAt(k).Ok? && j in s.SliceAt(i).value.idxs && j in s.SliceAt(k).value.idxs)
              ==> i == k
    ensures (exists i :: s.SliceAt(i).Ok? && j in s.SliceAt(i).value.idxs) <==> InRange(s.bins, s.values[j])
  {
    var x := s.values[j];
    BinOfExact(s.bins, x);
    forall i, k | s.SliceAt(i).Ok? && s.SliceAt(k).Ok? &&
                  j in s.SliceAt(i).value.idxs && j in s.SliceAt(k).value.idxs
      ensures i == k
    {
      BinUnique(s.bins, x, i, k);
    }
    if InRange(s.bins, x) {
      var i := BinOf(s.bins, x).value;
      assert j in s.SliceAt(i).value.idxs;
    }
  }

  /** Slicer equality is an equivalence on set-up one-dimensional slicers. */
  lemma EqualsIsEquivalence(a: OneDSlicer, b: OneDSlicer, c: OneDSlicer)
    ensures a.isSetup ==> a.Equals(OneD(a))
    ensures a.Equals(OneD(b)) ==> b.Equals(OneD(a))
    ensures a.Equals(OneD(b)) && b.Equals(OneD(c)) ==> a.Equals(OneD(c))
  {
  }

  // ---------------------------------------------------------------------
  // The test scenarios, as client code

  /** Slicing a freshly built slicer fails as not set up. */
  method SliceBeforeSetup(cfg: Config) returns (r: Result<Slice, SliceError>)
    ensures r == Err(NotSetUp)
  {
    var s := new OneDSlicer("testdata", cfg);
    r := s.SliceAt(0);
  }

  /** Two slicers given the same edges are equal whatever data they were set
      up on; a slicer with as many equal-width bins over data that starts
      elsewhere is not; a whole-dataset slicer never is. */
  method EquivalenceScenario(edges: seq<real>, dv: seq<real>, dv2: seq<real>, dv3: seq<real>, autoBins: int)
    returns (same: bool, shifted: bool, other: bool)
    requires |edges| >= 2 && StrictlyIncreasing(edges)
    requires |dv3| > 0 && Min(dv3) < Max(dv3) && Min(dv3) != edges[0]
    ensures same && !shifted && !other
  {
    var s1 := new OneDSlicer("testdata", Config(Edges(edges), None, None, None));
    var o1 := s1.Setup(dv, autoBins);
    var s2 := new OneDSlicer("testdata", Config(Edges(edges), None, None, None));
    var o2 := s2.Setup(dv2, autoBins);
    same := s1.Equals(OneD(s2));

    var cfg3 := Config(Count(|edges|), None, None, None);
    var s3 := new OneDSlicer("testdata", cfg3);
    CountGivesEqualBins(cfg3, dv3, autoBins);
    var o3 := s3.Setup(dv3, autoBins);
    shifted := s1.Equals(OneD(s3));

    var u := new UniSlicer();
    u.Setup(dv3);
    other := s1.Equals(Uni(u));
  }

  /** The histogram test: N bins over the data's own range give N slices on
      numpy's equal-width edges, per-slice counts equal the reference
      histogram, and together they count every row. */
  method HistogramScenario(n: int, dv: seq<real>, autoBins: int) returns (counts: array<nat>)
    requires n >= 1 && |dv| > 0 && Min(dv) < Max(dv)
    ensures counts.Length == n
    ensures counts[..] == Histogram(dv, EqualWidthEdges(Min(dv), Max(dv), n))
    ensures Sum(counts[..]) == |dv|
  {
    var s := new OneDSlicer("testdata", Config(Count(n), None, None, None));
    HistogramAgreement(n, dv, autoBins);
    var o := s.Setup(dv, autoBins);
    counts := s.SliceCounts();
  }
}
