/**
 * app/scripts/bubblechart.js: the application's bubble chart. Seventeen
 * known columns are cast with unary `+` (`_parseData`), rows are grouped
 * into four uncoloured, unfiltered series by fraction (`_crunchData`), and
 * `update` regroups with merged options.
 */
module BubbleChart {
  import opened Js
  import Merge
  import opened Fractions
  import Factory

  /** `optionsDefault` of the constructor. */
  function Defaults(): Options {
    map[
      "selector" := OStr("#bubble-chart"),
      "xAccessor" := OStr("gdp_2014"),
      "yAccessor" := OStr("unemployment_2013"),
      "sizeAccessor" := OStr("population_2014"),
      "colors" := OArr([OStr("#1f77b4"), OStr("#ff7f0e"), OStr("#2ca02c"), OStr("#d62728")]),
      "xTicks" := N(5.0),
      "yTicks" := N(5.0),
      "height" := N(400.0),
      "margin" := OObj(map["top" := N(40.0), "right" := N(50.0), "bottom" := N(25.0), "left" := N(75.0)])
    ]
  }

  // ----------------------------------------------------------------------
  // _parseData
  // ----------------------------------------------------------------------

  /** The columns `_parseData` casts, in the order it assigns them. */
  const Fields: seq<string> := [
    "gdp_2012", "gdp_2014", "gdp_growth_2014", "gdp_pc_ppp_2012", "gdp_pc_ppp_2014",
    "population_2000", "population_2014", "population_2020", "population_2030", "population_2050",
    "total_primary_energy_production_2008", "total_primary_energy_production_2012",
    "total_recoverable_coal_2011", "average_monthly_disposable_salary_2014", "co2_kt_2012", "co2_t_pc_2012",
    "unemployment_2013"
  ]

  /** `d.f = +d.f` for each of `fields` in turn, in place. */
  method CastFields(d: Row, fields: seq<string>, host: Host) returns (r: Row)
    ensures r.Keys == d.Keys + set f | f in fields
    ensures forall f :: f in fields ==> r[f] == Num(Plus(host, Get(d, f)))
    ensures forall k :: k in d && k !in fields ==> r[k] == d[k]
  {
    r := d;
    for i := 0 to |fields|
      invariant forall k :: k in r <==> k in d || k in fields[..i]
      invariant forall f :: f in fields[..i] ==> r[f] == Num(Plus(host, Get(d, f)))
      invariant forall k :: k in d && k !in fields[..i] ==> r[k] == d[k]
    {
      var f := fields[i];
      r := r[f := Num(Plus(host, Get(r, f)))];
      assert fields[..i + 1] == fields[..i] + [f];
    }
    assert fields[..|fields|] == fields;
  }

  /**
   * Row `r` is row `d` after `_parseData`: every listed column holds the
   * unary-plus value of the original field (NaN when it is missing or not
   * numeric), and every other field is as it was.
   */
  predicate ParsedFrom(host: Host, d: Row, r: Row) {
    && r.Keys == d.Keys + (set f | f in Fields)
    && (forall f :: f in Fields ==> r[f] == Num(Plus(host, Get(d, f))))
    && (forall k :: k in d && k !in Fields ==> r[k] == d[k])
  }

  /**
   * `_parseData(d)`: the seventeen assignments `d.f = +d.f`, one per listed
   * column, and the row is returned, so d3 keeps it.
   */
  method ParseRow(d: Row, host: Host) returns (r: Row)
    ensures ParsedFrom(host, d, r)
  {
    r := CastFields(d, Fields, host);
  }

  // ----------------------------------------------------------------------
  // _crunchData
  // ----------------------------------------------------------------------

  /** A series handed to nvd3: no colour, the chart's colour list applies. */
  datatype Series = Series(key: string, values: seq<Point>)

  /** What `_crunchData(data, options)` returns or throws. */
  function Crunched(data: seq<Row>, options: Options, host: Host): Result<seq<Series>> {
    if exists i :: 0 <= i < |data| && UnknownFraction(data[i]) then Err(TypeError)
    else Ok(seq(|Keys|, k requires 0 <= k < |Keys| =>
                  Series(Keys[k], Points(Bucket(data, Keys[k]), AccessorsOf(host, options)))))
  }

  /** `_crunchData`: four empty series (`keys.map`), then the grouping loop over all rows. */
  method CrunchData(data: seq<Row>, options: Options, host: Host) returns (r: Result<seq<Series>>)
    ensures r == Crunched(data, options, host)
  {
    var cleanData := seq(|Keys|, k requires 0 <= k < |Keys| => Series(Keys[k], []));
    var groups := Group(data, AccessorsOf(host, options));
    if groups.Err? {
      return Err(groups.error);
    }
    var series := seq(|Keys|, k requires 0 <= k < |Keys| => cleanData[k].(values := groups.value[k]));
    ghost var spec := Crunched(data, options, host);
    forall k | 0 <= k < |Keys| ensures series[k] == spec.value[k] {
    }
    assert series == spec.value;
    r := Ok(series);
  }

  /**
   * A successful crunch yields exactly the series `A`, `B`, `C`, `D` in that
   * order; series `k` holds one point per row whose fraction is its key, taken
   * in input order, and together the series hold one point per row with a
   * truthy fraction.
   */
  lemma CrunchedSeries(data: seq<Row>, options: Options, host: Host)
    requires Crunched(data, options, host).Ok?
    ensures var s := Crunched(data, options, host).value;
      && |s| == 4
      && s[0].key == "A" && s[1].key == "B" && s[2].key == "C" && s[3].key == "D"
      && (forall k :: 0 <= k < 4 ==> Seqs.Subseq(Bucket(data, s[k].key), data))
      && |s[0].values| + |s[1].values| + |s[2].values| + |s[3].values| == |Seqs.Filter(data, Considered)|
  {
    BucketsPartition(data);
    forall k | 0 <= k < 4 ensures Seqs.Subseq(Bucket(data, Keys[k]), data) {
      BucketIsOrderedSlice(data, Keys[k]);
    }
  }

  /**
   * The parsed fraction column is untouched, so a row whose `fraction` is
   * missing or empty is skipped, and one naming a key outside `A`..`D` makes
   * the crunch throw.
   */
  lemma ParsedFractionKept(d: Row, r: Row, host: Host)
    requires ParsedFrom(host, d, r)
    ensures FractionOf(r) == FractionOf(d)
    ensures Considered(r) <==> Considered(d)
    ensures UnknownFraction(r) <==> UnknownFraction(d)
  {
  }

  /**
   * Configured with these defaults, a chart whose caller names no accessor
   * plots `gdp_2014` against `unemployment_2013`, sized by
   * `population_2014`: three of the columns `_parseData` casts, so every
   * point holds unary-plus numbers.
   */
  lemma ConfiguredAccessors(selector: Option<OptVal>, options: Option<OptVal>, host: Host)
    requires Factory.Configure(Defaults(), selector, options).Ok?
    requires "xAccessor" !in options.value.fields && "yAccessor" !in options.value.fields
    requires "sizeAccessor" !in options.value.fields
    ensures var acc := AccessorsOf(host, Factory.Configure(Defaults(), selector, options).value);
      && acc == Accessors("gdp_2014", "unemployment_2013", "population_2014")
      && acc.x in Fields && acc.y in Fields && acc.size in Fields
  {
  }

  // ----------------------------------------------------------------------
  // The chart object
  // ----------------------------------------------------------------------

  class BubbleChart {
    var options: Options
    /** `this.data`: the parsed rows, `None` (null) until the CSV has loaded. */
    var data: Option<seq<Row>>
    /** The series last bound to the chart, `None` until the first render. */
    var chartData: Option<seq<Series>>
    const host: Host

    /**
     * `new ClimateFactions(selector, _options)`, with `options` the result of
     * `Factory.Configure(Defaults(), selector, _options)`.
     */
    constructor (options: Options, host: Host)
      ensures this.options == options && this.host == host
      ensures data == None && chartData == None
    {
      this.options := options;
      this.host := host;
      data := None;
      chartData := None;
    }

    /**
     * The d3.csv callback: every row goes through `_parseData` and is kept,
     * then the series are crunched and drawn.
     */
    method OnLoad(csv: seq<Row>) returns (thrown: Option<Error>)
      modifies this`data, this`chartData
      ensures data.Some? && |data.value| == |csv|
      ensures forall j :: 0 <= j < |csv| ==> ParsedFrom(host, csv[j], data.value[j])
      ensures thrown.None? <==> Crunched(data.value, options, host).Ok?
      ensures thrown.None? ==> chartData == Some(Crunched(data.value, options, host).value)
      ensures thrown.Some? ==> chartData == old(chartData) && thrown.value == Crunched(data.value, options, host).error
    {
      var rows: seq<Row> := [];
      for j := 0 to |csv|
        invariant |rows| == j
        invariant forall i :: 0 <= i < j ==> ParsedFrom(host, csv[i], rows[i])
        invariant chartData == old(chartData)
      {
        var row := ParseRow(csv[j], host);
        rows := rows + [row];
      }
      data := Some(rows);
      var cleanData := CrunchData(rows, options, host);
      if cleanData.Err? {
        return Some(cleanData.error);
      }
      chartData := Some(cleanData.value);
      thrown := None;
    }

    /**
     * `this.update(_options)`: the series are crunched again with the merged
     * options and redrawn; the merged options are not stored, so
     * `this.options` never changes. Before the data has loaded or been drawn
     * it throws.
     */
    method Update(newOpts: Options) returns (thrown: Option<Error>)
      modifies this`chartData
      ensures options == old(options) && data == old(data)
      ensures data.None? ==> thrown == Some(TypeError) && chartData == old(chartData)
      ensures data.Some? ==>
        var r := Crunched(data.value, Merge.MergeAll([options, newOpts]), host);
        && (r.Err? ==> thrown == Some(r.error) && chartData == old(chartData))
        && (r.Ok? && old(chartData).None? ==> thrown == Some(TypeError) && chartData == None)
        && (r.Ok? && old(chartData).Some? ==> thrown.None? && chartData == Some(r.value))
    {
      var newOptions := Merge.Merge([options, newOpts]);
      if data.None? {
        // `data.forEach` on null
        return Some(TypeError);
      }
      var cleanData := CrunchData(data.value, newOptions, host);
      if cleanData.Err? {
        return Some(cleanData.error);
      }
      if chartData.None? {
        return Some(TypeError);
      }
      chartData := Some(cleanData.value);
      thrown := None;
    }
  }
}
