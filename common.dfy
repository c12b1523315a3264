/** The batch-configuration helpers: metadata joining, the per-band filter
    tables with their SQL constraints and labels, the fixed metric and
    summary lists with their in-place renaming, and the undithered
    RA/Dec column lookup. */
module Common {
  import opened Wrappers
  import opened PyStr

  // ---------------------------------------------------------------------
  // combineMetadata

  /** Joins two optional metadata strings with one space; a missing one is
      skipped, and two missing ones give None. */
  function CombineMetadata(meta1: Option<string>, meta2: Option<string>): (meta: Option<string>)
    ensures meta.None? <==> meta1.None? && meta2.None?
    ensures meta1.Some? && meta2.Some? ==> meta == Some(meta1.value + " " + meta2.value)
    ensures meta1.None? || meta2.None? ==> meta == if meta1.Some? then meta1 else meta2
  {
    if meta1.Some? && meta2.Some? then Some(meta1.value + " " + meta2.value)
    else if meta1.Some? then meta1
    else if meta2.Some? then meta2
    else None
  }

  /** Joining is associative, and None is its identity on both sides. */
  lemma CombineMetadataMonoid(a: Option<string>, b: Option<string>, c: Option<string>)
    ensures CombineMetadata(CombineMetadata(a, b), c) == CombineMetadata(a, CombineMetadata(b, c))
    ensures CombineMetadata(None, a) == a && CombineMetadata(a, None) == a
  {
    if a.Some? && b.Some? && c.Some? {
      assert (a.value + " " + b.value) + " " + c.value == a.value + " " + (b.value + " " + c.value);
    }
  }

  // ---------------------------------------------------------------------
  // filterList

  /** The survey's bands, and "all" for the bands taken together. */
  datatype Filter = All | U | G | R | I | Z | Y

  /** The name a filter goes by in SQL and in labels. */
  function Name(f: Filter): string {
    match f
    case All => "all"
    case U => "u"
    case G => "g"
    case R => "r"
    case I => "i"
    case Z => "z"
    case Y => "y"
  }

  const Bands: seq<Filter> := [U, G, R, I, Z, Y]

  /** The filter names, with "all" first when requested. */
  function FilterNames(all: bool): seq<Filter> {
    if all then [All] + Bands else Bands
  }

  /** Plot colour of each filter. */
  function PlotColor(f: Filter): string {
    match f
    case All => "k"
    case U => "cyan"
    case G => "g"
    case R => "orange"
    case I => "r"
    case Z => "m"
    case Y => "b"
  }

  /** An extra SQL constraint takes effect only when present and non-empty. */
  predicate HasExtraSql(extraSql: Option<string>) {
    extraSql.Some? && |extraSql.value| > 0
  }

  /** The per-filter constraint before any extra SQL: none for "all",
      `filter = "<f>"` for a band. */
  function FilterSql(f: Filter): string {
    if f == All then "" else "filter = \"" + Name(f) + "\""
  }

  /** The constraint for filter `f`: the extra SQL alone for "all", and the
      extra SQL and the band constraint, each parenthesised and joined by
      `and`, for a band. */
  function SqlConstraint(f: Filter, extraSql: Option<string>): string {
    if !HasExtraSql(extraSql) then FilterSql(f)
    else if f == All then extraSql.value
    else Conjoin(extraSql.value, FilterSql(f))
  }

  /** `'(%s) and (%s)' % (a, b)`. */
  function Conjoin(a: string, b: string): string {
    "(" + a + ") and (" + b + ")"
  }

  /** The metadata prefix: the extra metadata when given, else the extra SQL
      when non-empty, each followed by one space; otherwise nothing. */
  function MetadataPrefix(extraSql: Option<string>, extraMetadata: Option<string>): string {
    if extraMetadata.Some? then extraMetadata.value + " "
    else if HasExtraSql(extraSql) then extraSql.value + " "
    else ""
  }

  /** The band part of a metadata label. */
  function BandLabel(f: Filter): string {
    if f == All then "all bands" else Name(f) + " band"
  }

  /** Display order: "all" first, then the bands from blue to red. */
  function Order(f: Filter): int {
    match f
    case All => 0
    case U => 1
    case G => 2
    case R => 3
    case I => 4
    case Z => 5
    case Y => 6
  }

  /** The filter list holds "all" exactly when requested and every band,
      each once, and the display order counts up along it, from 0 with
      "all" and from 1 without. */
  lemma FilterNamesShape(all: bool)
    ensures forall f :: f in FilterNames(all) <==> (all || f != All)
    ensures forall i :: 0 <= i < |FilterNames(all)| ==> Order(FilterNames(all)[i]) == i + (if all then 0 else 1)
    ensures forall a, b :: 0 <= a < b < |FilterNames(all)| ==> FilterNames(all)[a] != FilterNames(all)[b]
  {
    var fs := FilterNames(all);
    var off := if all then 0 else 1;
    assert forall i :: 0 <= i < |fs| ==> Order(fs[i]) == i + off;
    forall f | all || f != All ensures f in fs {
      assert fs[Order(f) - off] == f;
    }
  }

  /** The colour and display-order tables, keyed by exactly the listed
      filters. */
  method FilterTables(all: bool)
    returns (filterlist: seq<Filter>, colors: map<Filter, string>, orders: map<Filter, int>)
    ensures filterlist == FilterNames(all)
    ensures forall f :: f in colors <==> (all || f != All)
    ensures forall f :: f in orders <==> (all || f != All)
    ensures forall f :: f in colors ==> colors[f] == PlotColor(f)
    ensures forall f :: f in orders ==> orders[f] == Order(f)
  {
    if all {
      filterlist := [All, U, G, R, I, Z, Y];
    } else {
      filterlist := [U, G, R, I, Z, Y];
    }
    colors := map[U := "cyan", G := "g", R := "orange", I := "r", Z := "m", Y := "b"];
    orders := map[U := 1, G := 2, R := 3, I := 4, Z := 5, Y := 6];
    if all {
      colors := colors[All := "k"];
      orders := orders[All := 0];
    }
    forall f ensures (f in colors <==> (all || f != All)) && (f in orders <==> (all || f != All)) {
      match f
      case All =>
      case U =>
      case G =>
      case R =>
      case I =>
      case Z =>
      case Y =>
    }
  }

  /** The SQL constraint and metadata label of every listed filter: the
      first loop writes the plain ones, the second wraps each constraint in
      the extra SQL when that is non-empty. */
  method FilterConstraints(filterlist: seq<Filter>, extraSql: Option<string>, extraMetadata: Option<string>)
    returns (sqls: map<Filter, string>, metadata: map<Filter, string>)
    requires forall a, b :: 0 <= a < b < |filterlist| ==> filterlist[a] != filterlist[b]
    ensures forall f :: (f in sqls <==> f in filterlist) && (f in metadata <==> f in filterlist)
    ensures forall f :: f in sqls ==> sqls[f] == SqlConstraint(f, extraSql)
    ensures forall f :: f in metadata ==> metadata[f] == MetadataPrefix(extraSql, extraMetadata) + BandLabel(f)
  {
    sqls := map[];
    metadata := map[];
    var md: string;
    if extraMetadata.None? {
      if extraSql.None? || |extraSql.value| == 0 {
        md := "";
      } else {
        md := extraSql.value + " ";
      }
    } else {
      md := extraMetadata.value + " ";
    }
    assert md == MetadataPrefix(extraSql, extraMetadata);
    for i := 0 to |filterlist|
      invariant forall f :: (f in sqls <==> f in filterlist[..i]) && (f in metadata <==> f in filterlist[..i])
      invariant forall f :: f in sqls ==> sqls[f] == FilterSql(f) && metadata[f] == md + BandLabel(f)
    {
      var f := filterlist[i];
      assert filterlist[..i + 1] == filterlist[..i] + [f];
      if f == All {
        sqls := sqls[f := ""];
        metadata := metadata[f := md + "all bands"];
      } else {
        sqls := sqls[f := "filter = \"" + Name(f) + "\""];
        metadata := metadata[f := md + Name(f) + " band"];
      }
    }
    assert filterlist[..|filterlist|] == filterlist;
    if extraSql.Some? && |extraSql.value| > 0 {
      sqls := WrapInExtraSql(sqls, extraSql.value);
    }
  }

  /** The second loop of filterList, over the keys of the constraint
      table: every constraint is replaced by its combination with the
      non-empty extra SQL. */
  method WrapInExtraSql(plain: map<Filter, string>, extra: string) returns (sqls: map<Filter, string>)
    requires |extra| > 0
    requires forall f :: f in plain ==> plain[f] == FilterSql(f)
    ensures sqls.Keys == plain.Keys
    ensures forall f :: f in sqls ==> sqls[f] == SqlConstraint(f, Some(extra))
  {
    sqls := plain;
    var todo := plain.Keys;
    while todo != {}
      invariant todo <= plain.Keys && sqls.Keys == plain.Keys
      invariant forall f :: f in todo ==> sqls[f] == plain[f]
      invariant forall f :: f in sqls && f !in todo ==> sqls[f] == SqlConstraint(f, Some(extra))
      decreases todo
    {
      var s :| s in todo;
      var c := WrapOne(s, sqls[s], extra);
      sqls := sqls[s := c];
      todo := todo - {s};
    }
  }

  /** One step of the second loop: "all" takes the extra SQL, a band its
      constraint conjoined with it. */
  method WrapOne(f: Filter, current: string, extra: string) returns (c: string)
    requires |extra| > 0 && current == FilterSql(f)
    ensures c == SqlConstraint(f, Some(extra))
  {
    if f == All {
      c := extra;
    } else {
      c := Conjoin(extra, current);
    }
  }

  /** `filterList`: the filter list and the four tables keyed by it. */
  method FilterList(all: bool, extraSql: Option<string>, extraMetadata: Option<string>)
    returns (filterlist: seq<Filter>, colors: map<Filter, string>, orders: map<Filter, int>,
             sqls: map<Filter, string>, metadata: map<Filter, string>)
    ensures filterlist == FilterNames(all)
    ensures forall f :: (f in colors <==> f in filterlist) && (f in orders <==> f in filterlist)
    ensures forall f :: (f in sqls <==> f in filterlist) && (f in metadata <==> f in filterlist)
    ensures forall f :: f in colors ==> colors[f] == PlotColor(f)
    ensures forall i :: 0 <= i < |filterlist| ==> orders[filterlist[i]] == i + (if all then 0 else 1)
    ensures forall f :: f in sqls ==> sqls[f] == SqlConstraint(f, extraSql)
    ensures forall f :: f in metadata ==> metadata[f] == MetadataPrefix(extraSql, extraMetadata) + BandLabel(f)
  {
    filterlist, colors, orders := FilterTables(all);
    FilterNamesShape(all);
    sqls, metadata := FilterConstraints(filterlist, extraSql, extraMetadata);
  }

  /** Without extra SQL (None or empty) "all" has no constraint and each
      band is constrained to itself; an empty string behaves as None. */
  lemma SqlWithoutExtra(f: Filter, extraSql: Option<string>)
    requires !HasExtraSql(extraSql)
    ensures SqlConstraint(f, extraSql) == (if f == All then "" else "filter = \"" + Name(f) + "\"")
    ensures SqlConstraint(f, extraSql) == SqlConstraint(f, None)
    ensures MetadataPrefix(extraSql, None) == ""
  {
  }

  /** Distinct filters never share a constraint, with or without extra SQL:
      each bundle of the batch selects a different band. */
  lemma ConstraintsDistinct(f: Filter, g: Filter, extraSql: Option<string>)
    requires f != g
    ensures SqlConstraint(f, extraSql) != SqlConstraint(g, extraSql)
  {
    var a, b := FilterSql(f), FilterSql(g);
    if f != All && g != All {
      assert a[10] == Name(f)[0] && b[10] == Name(g)[0];
    }
    if HasExtraSql(extraSql) && f != All && g != All {
      var e := extraSql.value;
      var k := |e| + 8;
      assert Conjoin(e, a)[k + 10] == a[10];
      assert Conjoin(e, b)[k + 10] == b[10];
    }
  }

  /** `s` ends with `suffix`. */
  predicate EndsWith(s: string, suffix: string) {
    |suffix| <= |s| && s[|s| - |suffix|..] == suffix
  }

  /** Extra metadata wins over extra SQL, the prefix is empty or ends in one
      space, and every label ends with its band. */
  lemma MetadataRules(f: Filter, extraSql: Option<string>, extraMetadata: Option<string>)
    ensures extraMetadata.Some? ==> MetadataPrefix(extraSql, extraMetadata) == extraMetadata.value + " "
    ensures MetadataPrefix(extraSql, extraMetadata) == "" || EndsWith(MetadataPrefix(extraSql, extraMetadata), " ")
    ensures EndsWith(MetadataPrefix(extraSql, extraMetadata) + BandLabel(f),
                     if f == All then "all bands" else Name(f) + " band")
  {
    var p := MetadataPrefix(extraSql, extraMetadata);
    var lbl := BandLabel(f);
    assert (p + lbl)[|p + lbl| - |lbl|..] == lbl;
    if p != "" {
      var q := if extraMetadata.Some? then extraMetadata.value else extraSql.value;
      assert p == q + " ";
      assert p[|p| - 1..] == " ";
    }
  }

  // ---------------------------------------------------------------------
  // radecCols, undithered branch

  /** A column-map entry: a column name, or a flag such as `raDecDeg`. */
  datatype ColEntry = Column(name: string) | Flag(on: bool)

  datatype RaDecCols = RaDecCols(raCol: ColEntry, decCol: ColEntry, degrees: ColEntry,
                                 stacker: Option<string>, ditherMeta: Option<string>)

  datatype KeyError = KeyError(key: string)

  /** `radecCols(None, colmap)`: the plain RA/Dec columns and the degrees
      flag from the column map, with no stacker and no dither metadata. A
      missing key fails on the first of raDecDeg, ra, dec that is absent. */
  function RadecCols(colmap: map<string, ColEntry>): (r: Result<RaDecCols, KeyError>)
    ensures r.Ok? <==> "raDecDeg" in colmap && "ra" in colmap && "dec" in colmap
    ensures r.Ok? ==> r.value == RaDecCols(colmap["ra"], colmap["dec"], colmap["raDecDeg"], None, None)
    ensures r.Err? ==> r.error.key == (if "raDecDeg" !in colmap then "raDecDeg"
                                       else if "ra" !in colmap then "ra" else "dec")
  {
    if "raDecDeg" !in colmap then Err(KeyError("raDecDeg"))
    else
      var degrees := colmap["raDecDeg"];
      if "ra" !in colmap then Err(KeyError("ra"))
      else if "dec" !in colmap then Err(KeyError("dec"))
      else Ok(RaDecCols(colmap["ra"], colmap["dec"], degrees, None, None))
  }

  // ---------------------------------------------------------------------
  // Metrics as named entries, and their renaming

  datatype MetricKind =
    | Mean | Median | Min | Max | Rms | Count
    | NoutliersNsigma(nSigma: int) | Percentile(percentile: nat)
    | MeanAngle | RmsAngle | FullRangeAngle

  /** Decimal digits of a natural number. */
  function NatToString(n: nat): (s: string)
    ensures |s| >= 1
  {
    if n < 10 then [Digit(n)] else NatToString(n / 10) + [Digit(n % 10)]
  }

  function Digit(d: nat): char
    requires d < 10
  {
    ('0' as int + d) as char
  }

  /** The label a metric's default name starts with. */
  function KindLabel(kind: MetricKind): string {
    match kind
    case Mean => "Mean"
    case Median => "Median"
    case Min => "Min"
    case Max => "Max"
    case Rms => "Rms"
    case Count => "Count"
    case NoutliersNsigma(_) => "NoutliersNsigma"
    case Percentile(p) => NatToString(p) + "th%ile"
    case MeanAngle => "MeanAngle"
    case RmsAngle => "RmsAngle"
    case FullRangeAngle => "FullRangeAngle"
  }

  /** A metric built without an explicit name is called "<label> <column>". */
  function DefaultName(kind: MetricKind, col: string): string {
    KindLabel(kind) + " " + col
  }

  /** The column summary metrics run on. */
  const SummaryColumn: string := "metricdata"

  /** A metric: its kind and column are fixed; its name is renamed in place. */
  class Metric {
    const kind: MetricKind
    const col: string
    var name: string

    constructor (kind: MetricKind, col: string, metricName: Option<string>)
      ensures this.kind == kind && this.col == col
      ensures name == metricName.GetOr(DefaultName(kind, col))
    {
      this.kind := kind;
      this.col := col;
      name := metricName.GetOr(DefaultName(kind, col));
    }
  }

  /** The renaming rule: None keeps the name; a non-empty replacement
      replaces every occurrence of the column; an empty one strips trailing
      characters drawn from `" " + colname`. */
  function Rename(name: string, colname: string, replace: Option<string>): (r: string)
    ensures replace.None? ==> r == name
    ensures replace.Some? && replace.value != "" && colname != "" ==>
              r == Join(replace.value, Split(name, colname))
    ensures replace == Some("") ==> |r| <= |name| && r == name[..|r|]
  {
    if replace.None? then name
    else if |replace.value| > 0 then Replace(name, colname, replace.value)
    else RStrip(name, " " + colname)
  }

  /** A name in which the column does not occur keeps its name under a
      non-empty replacement. */
  lemma RenameAbsentColumn(name: string, colname: string, repl: string)
    requires colname != "" && repl != "" && Free(name, colname)
    ensures Rename(name, colname, Some(repl)) == name
  {
    ReplaceAbsent(name, colname, repl);
  }

  /** Renaming a default name "<label> <col>" with a non-empty replacement
      gives "<label> <replacement>", provided the column does not already
      occur before its own position. */
  lemma RenameDefaultName(kind: MetricKind, col: string, repl: string)
    requires col != "" && |repl| > 0
    requires forall i :: 0 <= i <= |KindLabel(kind)| ==> !OccursAt(DefaultName(kind, col), col, i)
    ensures Rename(DefaultName(kind, col), col, Some(repl)) == KindLabel(kind) + " " + repl
  {
    var p := KindLabel(kind) + " ";
    assert DefaultName(kind, col) == p + col;
    ReplaceTrailing(p, col, repl);
  }

  /** An empty replacement leaves a name ending in neither a space nor a
      character of the column, and renaming again with it changes nothing. */
  lemma RenameEmptyIdempotent(name: string, colname: string)
    ensures var r := Rename(name, colname, Some(""));
            r == name[..|r|] && (r == "" || r[|r| - 1] !in " " + colname)
    ensures Rename(Rename(name, colname, Some("")), colname, Some("")) == Rename(name, colname, Some(""))
  {
    RStripIdempotent(name, " " + colname);
  }

  /** A list of distinct metric objects. */
  predicate Distinct(ms: seq<Metric>) {
    forall i, j :: 0 <= i < j < |ms| ==> ms[i] != ms[j]
  }

  /** The in-place renaming loop shared by the three list builders. */
  method RenameMetrics(ms: seq<Metric>, colname: string, replace: string)
    requires Distinct(ms)
    modifies set m | m in ms
    ensures forall i :: 0 <= i < |ms| ==> ms[i].name == Rename(old(ms[i].name), colname, Some(replace))
  {
    for i := 0 to |ms|
      invariant forall k :: 0 <= k < i ==> ms[k].name == Rename(old(ms[k].name), colname, Some(replace))
      invariant forall k :: i <= k < |ms| ==> ms[k].name == old(ms[k].name)
    {
      var m := ms[i];
      if |replace| > 0 {
        m.name := Replace(m.name, colname, replace);
      } else {
        m.name := RStrip(m.name, " " + colname);
      }
    }
  }

  const StandardKinds: seq<MetricKind> := [Mean, Median, Min, Max]

  /** The metrics extendedMetrics adds after the standard four, with the
      explicit names its outlier counts are given. */
  const ExtendedExtraKinds: seq<MetricKind> :=
    [Rms, NoutliersNsigma(3), NoutliersNsigma(-3), Percentile(25), Percentile(75), Count]

  const AngleKinds: seq<MetricKind> := [MeanAngle, RmsAngle, FullRangeAngle, Min, Max]

  /** Mean, Median, Min and Max of one column, renamed once. */
  method StandardMetrics(colname: string, replace: Option<string>) returns (ms: seq<Metric>)
    ensures |ms| == 4 && Distinct(ms)
    ensures forall i :: 0 <= i < 4 ==> fresh(ms[i])
    ensures forall i :: 0 <= i < 4 ==>
              ms[i].kind == StandardKinds[i] && ms[i].col == colname &&
              ms[i].name == Rename(DefaultName(StandardKinds[i], colname), colname, replace)
  {
    var mean := new Metric(Mean, colname, None);
    var median := new Metric(Median, colname, None);
    var min := new Metric(Min, colname, None);
    var max := new Metric(Max, colname, None);
    ms := [mean, median, min, max];
    if replace.Some? {
      RenameMetrics(ms, colname, replace.value);
    }
  }

  const ExtendedKinds: seq<MetricKind> := StandardKinds + ExtendedExtraKinds

  /** Name each extended metric is built with, before renaming: the outlier
      counts get explicit names, the others their default. */
  function ExtendedInitialName(kind: MetricKind, col: string): string {
    match kind
    case NoutliersNsigma(n) =>
      if n == 3 then "N(+3Sigma) " + col
      else if n == -3 then "N(-3Sigma) " + col
      else DefaultName(kind, col)
    case _ => DefaultName(kind, col)
  }

  /** Rms and the two 3-sigma outlier counts, under their initial names. */
  method SpreadMetrics(colname: string) returns (ms: seq<Metric>)
    ensures |ms| == 3 && Distinct(ms)
    ensures forall j :: 0 <= j < 3 ==> fresh(ms[j])
    ensures forall j :: 0 <= j < 3 ==>
              ms[j].kind == ExtendedExtraKinds[j] && ms[j].col == colname &&
              ms[j].name == ExtendedInitialName(ExtendedExtraKinds[j], colname)
  {
    var rms := new Metric(Rms, colname, None);
    var plus := new Metric(NoutliersNsigma(3), colname, Some("N(+3Sigma) " + colname));
    var minus := new Metric(NoutliersNsigma(-3), colname, Some("N(-3Sigma) " + colname));
    ms := [rms, plus, minus];
  }

  /** The 25th and 75th percentiles and Count, under their default names. */
  method QuantileMetrics(colname: string) returns (ms: seq<Metric>)
    ensures |ms| == 3 && Distinct(ms)
    ensures fresh(ms[0]) && fresh(ms[1]) && fresh(ms[2])
    ensures ms[0].kind == Percentile(25) && ms[0].col == colname && ms[0].name == ExtendedInitialName(Percentile(25), colname)
    ensures ms[1].kind == Percentile(75) && ms[1].col == colname && ms[1].name == ExtendedInitialName(Percentile(75), colname)
    ensures ms[2].kind == Count && ms[2].col == colname && ms[2].name == ExtendedInitialName(Count, colname)
  {
    var p25 := new Metric(Percentile(25), colname, None);
    var p75 := new Metric(Percentile(75), colname, None);
    var count := new Metric(Count, colname, None);
    ms := [p25, p75, count];
  }

  /** The six metrics extendedMetrics appends, under their initial names. */
  method ExtraMetrics(colname: string) returns (extra: seq<Metric>)
    ensures |extra| == 6 && Distinct(extra)
    ensures forall j :: 0 <= j < 6 ==> fresh(extra[j])
    ensures forall j :: 0 <= j < 6 ==>
              extra[j].kind == ExtendedExtraKinds[j] && extra[j].col == colname &&
              extra[j].name == ExtendedInitialName(ExtendedExtraKinds[j], colname)
  {
    var spread := SpreadMetrics(colname);
    var quantiles := QuantileMetrics(colname);
    assert ExtendedExtraKinds[3..] == [Percentile(25), Percentile(75), Count];
    extra := spread + quantiles;
  }

  /** The standard four followed by Rms, the two 3-sigma outlier counts, the
      25th and 75th percentiles and Count; the standard four are built
      without renaming, so every name is renamed exactly once. */
  method ExtendedMetrics(colname: string, replace: Option<string>) returns (ms: seq<Metric>)
    ensures |ms| == 10 && Distinct(ms)
    ensures forall i :: 0 <= i < 10 ==> fresh(ms[i])
    ensures forall i :: 0 <= i < 10 ==>
              ms[i].kind == ExtendedKinds[i] && ms[i].col == colname &&
              ms[i].name == Rename(ExtendedInitialName(ExtendedKinds[i], colname), colname, replace)
  {
    ms := StandardMetrics(colname, None);
    var extra := ExtraMetrics(colname);
    assert forall i :: 0 <= i < 4 ==> ExtendedInitialName(ExtendedKinds[i], colname) == DefaultName(StandardKinds[i], colname);
    ms := ms + extra;
    if replace.Some? {
      RenameMetrics(ms, colname, replace.value);
    }
  }

  /** MeanAngle, RmsAngle, FullRangeAngle, Min and Max of one column,
      renamed once. */
  method StandardAngleMetrics(colname: string, replace: Option<string>) returns (ms: seq<Metric>)
    ensures |ms| == 5 && Distinct(ms)
    ensures forall i :: 0 <= i < 5 ==> fresh(ms[i])
    ensures forall i :: 0 <= i < 5 ==>
              ms[i].kind == AngleKinds[i] && ms[i].col == colname &&
              ms[i].name == Rename(DefaultName(AngleKinds[i], colname), colname, replace)
  {
    var mean := new Metric(MeanAngle, colname, None);
    var rms := new Metric(RmsAngle, colname, None);
    var range := new Metric(FullRangeAngle, colname, None);
    var min := new Metric(Min, colname, None);
    var max := new Metric(Max, colname, None);
    ms := [mean, rms, range, min, max];
    if replace.Some? {
      RenameMetrics(ms, colname, replace.value);
    }
  }

  // ---------------------------------------------------------------------
  // Summary lists

  const StandardSummaryKinds: seq<MetricKind> :=
    [Mean, Rms, Median, Count, Max, Min, NoutliersNsigma(3), NoutliersNsigma(-3)]

  /** Explicit names of the summary metrics; None where the default is kept. */
  const StandardSummaryNames: seq<Option<string>> :=
    [None, None, None, None, None, None, Some("N(+3Sigma)"), Some("N(-3Sigma)")]

  /** Mean, Rms, Median, Count, Max, Min and the two 3-sigma outlier counts. */
  method StandardSummary() returns (ms: seq<Metric>)
    ensures |ms| == 8 && Distinct(ms)
    ensures forall i :: 0 <= i < 8 ==> fresh(ms[i])
    ensures forall i :: 0 <= i < 8 ==>
              ms[i].kind == StandardSummaryKinds[i] &&
              ms[i].name == StandardSummaryNames[i].GetOr(DefaultName(StandardSummaryKinds[i], SummaryColumn))
  {
    var mean := new Metric(Mean, SummaryColumn, None);
    var rms := new Metric(Rms, SummaryColumn, None);
    var median := new Metric(Median, SummaryColumn, None);
    var count := new Metric(Count, SummaryColumn, None);
    var max := new Metric(Max, SummaryColumn, None);
    var min := new Metric(Min, SummaryColumn, None);
    var plus := new Metric(NoutliersNsigma(3), SummaryColumn, Some("N(+3Sigma)"));
    var minus := new Metric(NoutliersNsigma(-3), SummaryColumn, Some("N(-3Sigma)"));
    ms := [mean, rms, median, count, max, min, plus, minus];
  }

  /** The standard summary extended in place by the 25th and 75th
      percentiles. */
  method ExtendedSummary() returns (ms: seq<Metric>)
    ensures |ms| == 10 && Distinct(ms)
    ensures forall i :: 0 <= i < 10 ==> fresh(ms[i])
    ensures forall i :: 0 <= i < 8 ==>
              ms[i].kind == StandardSummaryKinds[i] &&
              ms[i].name == StandardSummaryNames[i].GetOr(DefaultName(StandardSummaryKinds[i], SummaryColumn))
    ensures ms[8].kind == Percentile(25) && ms[8].name == "25th%ile"
    ensures ms[9].kind == Percentile(75) && ms[9].name == "75th%ile"
  {
    ms := StandardSummary();
    var p25 := new Metric(Percentile(25), SummaryColumn, Some("25th%ile"));
    var p75 := new Metric(Percentile(75), SummaryColumn, Some("75th%ile"));
    ms := ms + [p25, p75];
  }
}
