/**
 * index.js: the nvd3 `ClimateFactions` chart. A CSV row is cleaned field by
 * field (`_parseData`), rows are grouped into four series by fraction
 * (`_crunchData`), and `update` regroups with merged options.
 */
module ClimateFactions {
  import opened Js
  import opened Seqs
  import Merge
  import opened Fractions
  import Factory

  /** `optionsDefault` of the constructor. */
  function Defaults(): Options {
    map[
      "xAccessor" := OStr("gdp_2014"),
      "yAccessor" := OStr("unemployment_2013"),
      "sizeAccessor" := OStr("population_2014"),
      "xAxisLabel" := OStr("gdp 2014"),
      "yAxisLabel" := OStr("unemployment 2013"),
      "colors" := OObj(map["A" := OStr("#1f77b4"), "B" := OStr("#ff7f0e"),
                           "C" := OStr("#2ca02c"), "D" := OStr("#d62728")]),
      "pointRange" := OArr([N(10.0), N(1000.0)]),
      "xTicks" := N(5.0),
      "yTicks" := N(5.0),
      "height" := N(400.0),
      "lang" := OStr("de"),
      "interactive" := OBool(true),
      "showLegend" := OBool(false),
      "margin" := OObj(map["top" := N(40.0), "right" := N(50.0), "bottom" := N(40.0), "left" := N(75.0)]),
      "filter" := ONull
    ]
  }

  // ----------------------------------------------------------------------
  // _parseData
  // ----------------------------------------------------------------------

  /** A field after `_parseData`: its number when that is finite, otherwise the field as it was. */
  function Cast(host: Host, v: Value): Value {
    if Plus(host, Some(v)).Finite? then Num(Plus(host, Some(v))) else v
  }

  /** The row `_parseData(row)` returns. */
  function ParsedRow(host: Host, row: Row): Row {
    map k | k in row :: Cast(host, row[k])
  }

  /** `_parseData`, the row function given to d3.csv: a `for...in` loop overwriting numeric fields in place. */
  method ParseRow(data: Row, host: Host) returns (r: Row)
    ensures r == ParsedRow(host, data)
  {
    r := data;
    var todo := data.Keys;
    while todo != {}
      invariant todo <= data.Keys
      invariant r.Keys == data.Keys
      invariant forall k :: k in r ==> r[k] == if k in todo then data[k] else Cast(host, data[k])
      decreases todo
    {
      var key :| key in todo;
      var d := Plus(host, Some(r[key]));
      if d.Finite? {
        r := r[key := Num(d)];
      }
      todo := todo - {key};
    }
  }

  /**
   * After cleaning, every field is either a finite number (exactly when its
   * text converts to one) or the untouched text; cleaning again changes
   * nothing.
   */
  lemma ParsedRowFields(host: Host, row: Row, k: string)
    requires k in row && row[k].Str?
    ensures k in ParsedRow(host, row)
    ensures ParsedRow(host, row)[k].Num? <==> Plus(host, Some(row[k])).Finite?
    ensures Plus(host, Some(row[k])).Finite? ==> ParsedRow(host, row)[k] == Num(Plus(host, Some(row[k])))
    ensures !Plus(host, Some(row[k])).Finite? ==> ParsedRow(host, row)[k] == row[k]
    ensures ParsedRow(host, ParsedRow(host, row)) == ParsedRow(host, row)
  {
  }

  /**
   * Since `+""` is 0, an empty `fraction` becomes the number 0, which is
   * falsy: such a row is skipped by the grouping. A fraction that reads as a
   * non-zero number becomes a number, and `indexOf` of a number in the string
   * keys is -1: the grouping throws.
   */
  lemma NumericFractions(host: Host, row: Row)
    requires "fraction" in row && row["fraction"].Str?
    ensures row["fraction"] == Str("") && host.toNumber("") == Finite(0.0) ==> !Considered(ParsedRow(host, row))
    ensures Plus(host, Some(row["fraction"])).Finite? && Plus(host, Some(row["fraction"])).x != 0.0 ==>
              UnknownFraction(ParsedRow(host, row))
  {
  }

  // ----------------------------------------------------------------------
  // _crunchData
  // ----------------------------------------------------------------------

  /** A series handed to nvd3. */
  datatype Series = Series(color: Option<OptVal>, key: string, values: seq<Point>)

  /** `options.filter ? data.filter(options.filter) : data`; a truthy non-function throws. */
  function ToCrunch(data: seq<Row>, options: Options): (r: Result<seq<Row>>)
    ensures !OptTruthy(Get(options, "filter")) ==> r == Ok(data)
  {
    var f: Option<OptVal> := Get(options, "filter");
    if !OptTruthy(f) then Ok(data)
    else match f
      case Some(OFun(keep)) => Ok(Filter(data, keep))
      case _ => Err(TypeError)
  }

  /** What `_crunchData(data, options)` returns or throws. */
  function Crunched(data: seq<Row>, options: Options, host: Host): Result<seq<Series>> {
    var colors: Option<OptVal> := Get(options, "colors");
    var acc := AccessorsOf(host, options);
    if colors.None? || colors == Some(ONull) then Err(TypeError)
    else match ToCrunch(data, options)
      case Err(e) => Err(e)
      case Ok(rows) =>
        if exists i :: 0 <= i < |rows| && UnknownFraction(rows[i]) then Err(TypeError)
        else Ok(seq(|Keys|, k requires 0 <= k < |Keys| =>
                      Series(Property(colors, Keys[k]).value, Keys[k], Points(Bucket(rows, Keys[k]), acc))))
  }

  /**
   * `_crunchData`: the four series `A`..`D` with their colours (`keys.map`),
   * the optional filter, then the grouping loop.
   */
  method CrunchData(data: seq<Row>, options: Options, host: Host) returns (r: Result<seq<Series>>)
    ensures r == Crunched(data, options, host)
  {
    var colors: Option<OptVal> := Get(options, "colors");
    if colors.None? || colors == Some(ONull) {
      return Err(TypeError);
    }
    var cleanData := seq(|Keys|, k requires 0 <= k < |Keys| => Series(Property(colors, Keys[k]).value, Keys[k], []));
    var dataToCrunch := ToCrunch(data, options);
    if dataToCrunch.Err? {
      return Err(dataToCrunch.error);
    }
    var groups := Group(dataToCrunch.value, AccessorsOf(host, options));
    if groups.Err? {
      return Err(groups.error);
    }
    var series := seq(|Keys|, k requires 0 <= k < |Keys| => cleanData[k].(values := groups.value[k]));
    ghost var spec := Crunched(data, options, host);
    assert spec.Ok? && |spec.value| == |series|;
    forall k | 0 <= k < |Keys| ensures series[k] == spec.value[k] {
    }
    assert series == spec.value;
    r := Ok(series);
  }

  /**
   * A successful crunch yields exactly the series `A`, `B`, `C`, `D` in that
   * order, each with `options.colors[key]`, each holding the points of its
   * fraction's rows in input order; together they hold one point per
   * considered row with a truthy fraction.
   */
  lemma CrunchedSeries(data: seq<Row>, options: Options, host: Host)
    requires Crunched(data, options, host).Ok?
    ensures var s := Crunched(data, options, host).value;
      var rows := ToCrunch(data, options).value;
      && |s| == 4
      && s[0].key == "A" && s[1].key == "B" && s[2].key == "C" && s[3].key == "D"
      && (forall k :: 0 <= k < 4 ==> Property(Get(options, "colors"), s[k].key) == Ok(s[k].color))
      && (forall k :: 0 <= k < 4 ==> Subseq(Bucket(rows, s[k].key), rows))
      && |s[0].values| + |s[1].values| + |s[2].values| + |s[3].values| == |Filter(rows, Considered)|
  {
    var rows := ToCrunch(data, options).value;
    BucketsPartition(rows);
    forall k | 0 <= k < 4 ensures Subseq(Bucket(rows, Keys[k]), rows) {
      BucketIsOrderedSlice(rows, Keys[k]);
    }
  }

  /** Without a filter every row is grouped; with one, only the rows it accepts. */
  lemma CrunchedFilter(data: seq<Row>, options: Options, host: Host, keep: Row -> bool)
    requires Get(options, "filter") == Some(OFun(keep))
    ensures ToCrunch(data, options) == Ok(Filter(data, keep))
    ensures forall row :: row in ToCrunch(data, options).value ==> row in data && keep(row)
  {
  }

  /**
   * Configured with these defaults, a chart whose caller sets neither
   * `colors` nor `filter` groups every row, colours the series with the
   * default palette, and throws only for a row naming an unknown fraction.
   */
  lemma ConfiguredCrunch(selector: Option<OptVal>, options: Option<OptVal>, data: seq<Row>, host: Host)
    requires Factory.Configure(Defaults(), selector, options).Ok?
    requires "colors" !in options.value.fields && "filter" !in options.value.fields
    ensures var o := Factory.Configure(Defaults(), selector, options).value;
      && ToCrunch(data, o) == Ok(data)
      && (Crunched(data, o, host).Err? <==> exists i :: 0 <= i < |data| && UnknownFraction(data[i]))
      && (Crunched(data, o, host).Ok? ==>
            forall k :: 0 <= k < 4 ==> Crunched(data, o, host).value[k].color == Some(Defaults()["colors"].fields[Keys[k]]))
  {
    var o := Factory.Configure(Defaults(), selector, options).value;
    assert o["colors"] == Defaults()["colors"] && o["filter"] == ONull;
    assert Get(o, "filter") == Some(ONull);
  }

  // ----------------------------------------------------------------------
  // The chart object
  // ----------------------------------------------------------------------

  class ClimateFactions {
    var options: Options
    /** `this.data`: the cleaned rows, `None` (null) until the CSV has loaded. */
    var data: Option<seq<Row>>
    /** The series last bound to the chart (`this.chartData`'s datum), `None` until the first render. */
    var chartData: Option<seq<Series>>
    const host: Host

    /**
     * `new ClimateFactions(selector, _options)`, with `options` the result of
     * `Factory.Configure(Defaults(), selector, _options)`.
     */
    constructor (options: Options, host: Host)
      ensures this.options == options && this.host == host
      ensures data == None && chartData == None
    {
      this.options := options;
      this.host := host;
      data := None;
      chartData := None;
    }

    /** The d3.csv callback: every row goes through `_parseData`, then the series are crunched and drawn. */
    method OnLoad(csv: seq<Row>) returns (thrown: Option<Error>)
      modifies this`data, this`chartData
      ensures data == Some(seq(|csv|, j requires 0 <= j < |csv| => ParsedRow(host, csv[j])))
      ensures thrown.None? <==> Crunched(data.value, options, host).Ok?
      ensures thrown.None? ==> chartData == Some(Crunched(data.value, options, host).value)
      ensures thrown.Some? ==> chartData == old(chartData) && thrown.value == Crunched(data.value, options, host).error
    {
      var rows: seq<Row> := [];
      for j := 0 to |csv|
        invariant rows == seq(j, i requires 0 <= i < j => ParsedRow(host, csv[i]))
        invariant chartData == old(chartData)
      {
        var row := ParseRow(csv[j], host);
        rows := rows + [row];
      }
      data := Some(rows);
      var cleanData := CrunchData(rows, options, host);
      if cleanData.Err? {
        return Some(cleanData.error);
      }
      chartData := Some(cleanData.value);
      thrown := None;
    }

    /**
     * `update(_options)`: the series are crunched again with the merged
     * options and redrawn, but the merged options are not stored, so
     * `this.options` never changes. Before the data has loaded (`this.data`
     * is null) or been drawn (`this.chartData` is null) it throws.
     */
    method Update(newOpts: Options) returns (thrown: Option<Error>)
      modifies this`chartData
      ensures options == old(options) && data == old(data)
      ensures data.None? ==> thrown == Some(TypeError) && chartData == old(chartData)
      ensures data.Some? ==>
        var r := Crunched(data.value, Merge.MergeAll([options, newOpts]), host);
        && (r.Err? ==> thrown == Some(r.error) && chartData == old(chartData))
        && (r.Ok? && old(chartData).None? ==> thrown == Some(TypeError) && chartData == None)
        && (r.Ok? && old(chartData).Some? ==> thrown.None? && chartData == Some(r.value))
    {
      var newOptions := Merge.Merge([options, newOpts]);
      if data.None? {
        return Some(TypeError);
      }
      var cleanData := CrunchData(data.value, newOptions, host);
      if cleanData.Err? {
        return Some(cleanData.error);
      }
      if chartData.None? {
        // `this.chartData.datum(...)` before the first render
        return Some(TypeError);
      }
      chartData := Some(cleanData.value);
      thrown := None;
    }
  }
}
