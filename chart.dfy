/**
 * chart.js: the `ClimateChart` factory. Drawing (scales, axes, circles,
 * labels, threshold line, Voronoi overlay) is d3's; this module keeps the
 * state and arithmetic around it: option defaults and merging, record
 * cleaning, the width and label/tooltip positions, the `disabled` flags that
 * `focusGroup` and `reset` set, and what hovering a bubble does.
 */
module ClimateChart {
  import opened Js
  import opened Seqs
  import Merge
  import Fractions
  import Factory

  // ----------------------------------------------------------------------
  // Options
  // ----------------------------------------------------------------------

  /** `optionsDefault` of the chart factory. */
  function Defaults(): Options {
    map[
      "xAccessor" := OStr("gdp_2014"),
      "yAccessor" := OStr("co2_t_pc_2012"),
      "sizeAccessor" := OStr("population_2014"),
      "xAxisDivisor" := N(1.0),
      "yAxisDivisor" := N(1.0),
      "colors" := OObj(map["A" := OStr("#005fcc"), "B" := OStr("#5c0000"),
                           "C" := OStr("#009300"), "D" := OStr("#ea8500")]),
      "isLogScale" := OBool(true),
      "pointRange" := OArr([N(10.0), N(1000.0)]),
      "xTicks" := N(5.0),
      "yTicks" := N(5.0),
      "height" := N(400.0),
      "lang" := OStr("de"),
      "interactive" := OBool(true),
      "showLegend" := OBool(false),
      "margin" := OObj(map["top" := N(50.0), "right" := N(50.0), "bottom" := N(50.0), "left" := N(50.0)]),
      "filter" := ONull,
      "minRadius" := N(2.0),
      "maxRadius" := N(30.0),
      "maxWidth" := N(960.0),
      "aspectRatio" := N(0.7),
      "transitionDuration" := N(500.0),
      "tooltipData" := OObj(map[]),
      "threshold" := N(0.0),
      "thresholdDescription" := OStr("")
    ]
  }

  /**
   * Configured with these defaults, a chart whose caller sets no `maxWidth`
   * (parisprotokoll.js sets none) is at most 960px wide. Its side margins
   * are those of the caller's `margin` when it gives one, whole, and 50px
   * otherwise, so the first render has the width and margins it needs
   * whenever the caller's margin has finite `left` and `right`.
   */
  lemma ConfiguredSizes(selector: Option<OptVal>, options: Option<OptVal>)
    requires Factory.Configure(Defaults(), selector, options).Ok?
    requires "maxWidth" !in options.value.fields
    ensures var o := Factory.Configure(Defaults(), selector, options).value;
      && MaxWidthOf(o) == Some(960.0)
      && ("margin" !in options.value.fields ==> MarginOf(o) == Some(Margin(50.0, 50.0)))
      && ("margin" in options.value.fields ==> MarginOf(o) == MarginOf(options.value.fields))
  {
  }

  // ----------------------------------------------------------------------
  // _parseData
  // ----------------------------------------------------------------------

  /** `parseFloat(v)`: `undefined` gives NaN, a number parses back to itself. */
  function ParseNumber(host: Host, v: Option<Value>): Number {
    match v
    case None => NaN
    case Some(Str(s)) => host.parseFloat(s)
    case Some(Num(n)) => n
  }

  /** The global `isNaN(v)`, which converts its argument first. */
  predicate IsNaN(host: Host, v: Option<Value>) {
    match v
    case None => true
    case Some(Str(s)) => host.toNumber(s) == NaN
    case Some(Num(n)) => n == NaN
  }

  /** The `forEach` body: the x, y and size fields are replaced by `parseFloat` of themselves, in that order. */
  function Coerce(host: Host, acc: Accessors, row: Row): (r: Row)
    ensures r.Keys == row.Keys + {acc.x, acc.y, acc.size}
    ensures r[acc.x] == Num(ParseNumber(host, Get(row, acc.x)))
    ensures r[acc.y] == Num(ParseNumber(host, Get(row, acc.y)))
    ensures r[acc.size] == Num(ParseNumber(host, Get(row, acc.size)))
    ensures forall k :: k in row && k != acc.x && k != acc.y && k != acc.size ==> r[k] == row[k]
  {
    var r1 := row[acc.x := Num(ParseNumber(host, Get(row, acc.x)))];
    var r2 := r1[acc.y := Num(ParseNumber(host, Get(r1, acc.y)))];
    r2[acc.size := Num(ParseNumber(host, Get(r2, acc.size)))]
  }

  function CoerceAll(host: Host, acc: Accessors, rows: seq<Row>): (r: seq<Row>)
    ensures |r| == |rows|
  {
    seq(|rows|, j requires 0 <= j < |rows| => Coerce(host, acc, rows[j]))
  }

  /** The `filter` test: none of the three fields is NaN. */
  predicate Plottable(host: Host, acc: Accessors, row: Row) {
    !IsNaN(host, Get(row, acc.x)) && !IsNaN(host, Get(row, acc.y)) && !IsNaN(host, Get(row, acc.size))
  }

  function KeepPlottable(host: Host, acc: Accessors, rows: seq<Row>): seq<Row> {
    Filter(rows, (row: Row) => Plottable(host, acc, row))
  }

  /** What `_parseData(data, o)` returns. */
  function Parsed(host: Host, acc: Accessors, rows: seq<Row>): seq<Row> {
    KeepPlottable(host, acc, CoerceAll(host, acc, rows))
  }

  /** `_parseData`: coerces the rows of `data` in place, then returns the plottable ones in a new array. */
  method ParseData(data: array<Row>, acc: Accessors, host: Host) returns (kept: seq<Row>)
    modifies data
    ensures data[..] == CoerceAll(host, acc, old(data[..]))
    ensures kept == Parsed(host, acc, old(data[..]))
  {
    for j := 0 to data.Length
      invariant forall k :: 0 <= k < j ==> data[k] == Coerce(host, acc, old(data[k]))
      invariant forall k :: j <= k < data.Length ==> data[k] == old(data[k])
    {
      data[j] := Coerce(host, acc, data[j]);
    }
    kept := KeepPlottable(host, acc, data[..]);
  }

  /** A field that holds a number other than NaN (infinities included: only `isNaN` is tested). */
  predicate IsNumber(v: Option<Value>) {
    v.Some? && v.value.Num? && v.value.n != NaN
  }

  /** Every record `_parseData` keeps holds numbers, not NaN, in its x, y and size fields. */
  lemma ParsedRowsHaveNumbers(host: Host, acc: Accessors, rows: seq<Row>, row: Row)
    requires row in Parsed(host, acc, rows)
    ensures IsNumber(Get(row, acc.x)) && IsNumber(Get(row, acc.y)) && IsNumber(Get(row, acc.size))
  {
  }

  /** Record `j` survives (coerced) exactly when all three of its fields parse to something other than NaN. */
  lemma ParsedKeepsExactly(host: Host, acc: Accessors, rows: seq<Row>, j: nat)
    requires j < |rows|
    ensures Coerce(host, acc, rows[j]) in Parsed(host, acc, rows) <==>
              (ParseNumber(host, Get(rows[j], acc.x)) != NaN
               && ParseNumber(host, Get(rows[j], acc.y)) != NaN
               && ParseNumber(host, Get(rows[j], acc.size)) != NaN)
  {
    var all := CoerceAll(host, acc, rows);
    var c := Coerce(host, acc, rows[j]);
    assert all[j] == c;
    if Plottable(host, acc, c) {
      FilterKeeps(all, (row: Row) => Plottable(host, acc, row), c);
    }
  }

  /** The kept records come in input order. */
  lemma ParsedInInputOrder(host: Host, acc: Accessors, rows: seq<Row>)
    ensures Subseq(Parsed(host, acc, rows), CoerceAll(host, acc, rows))
  {
    FilterIsSubseq(CoerceAll(host, acc, rows), (row: Row) => Plottable(host, acc, row));
  }

  /** Cleaning cleaned data changes nothing. */
  lemma ParsedIdempotent(host: Host, acc: Accessors, rows: seq<Row>)
    ensures Parsed(host, acc, Parsed(host, acc, rows)) == Parsed(host, acc, rows)
  {
    var p := Parsed(host, acc, rows);
    forall j | 0 <= j < |p| ensures Coerce(host, acc, p[j]) == p[j] && Plottable(host, acc, p[j]) {
      ParsedRowsHaveNumbers(host, acc, rows, p[j]);
      assert Coerce(host, acc, p[j]) == p[j];
    }
    assert CoerceAll(host, acc, p) == p;
    FilterAll(p, (row: Row) => Plottable(host, acc, row));
  }

  /** A row as d3.csv delivers it: every field a string. */
  predicate CsvRow(row: Row) {
    forall k :: k in row ==> row[k].Str?
  }

  predicate NoNaN(row: Row) {
    forall k :: k in row ==> row[k] != Num(NaN)
  }

  /** Records cleaned from CSV text hold no NaN anywhere, so every field is `===` to itself. */
  lemma ParsedRowsNoNaN(host: Host, acc: Accessors, rows: seq<Row>, row: Row)
    requires forall j :: 0 <= j < |rows| ==> CsvRow(rows[j])
    requires row in Parsed(host, acc, rows)
    ensures NoNaN(row)
  {
  }

  // ----------------------------------------------------------------------
  // Layout arithmetic
  // ----------------------------------------------------------------------

  datatype Margin = Margin(left: real, right: real)

  /** `options.maxWidth`, when it is a finite number. */
  function MaxWidthOf(options: Options): Option<real> {
    var v: Option<OptVal> := Get(options, "maxWidth");
    match v
    case Some(ONum(Finite(w))) => Some(w)
    case _ => None
  }

  /** `options.margin.left` and `.right`, when both are finite numbers. */
  function MarginOf(options: Options): Option<Margin> {
    var v: Option<OptVal> := Get(options, "margin");
    match v
    case Some(OObj(m)) =>
      var l: Option<OptVal> := Get(m, "left");
      var r: Option<OptVal> := Get(m, "right");
      (match (l, r)
       case (Some(ONum(Finite(l))), Some(ONum(Finite(r)))) => Some(Margin(l, r))
       case _ => None)
    case _ => None
  }

  /**
   * `updateDimensions`: the plot width. With the margins added back (the
   * width of the svg element) it is the smaller of the window width and
   * `maxWidth`.
   */
  function ChartWidth(winWidth: real, maxWidth: real, margin: Margin): (w: real)
    ensures w + margin.right + margin.left <= winWidth
    ensures w + margin.right + margin.left <= maxWidth
    ensures w + margin.right + margin.left == winWidth || w + margin.right + margin.left == maxWidth
  {
    var outer := if winWidth < maxWidth then winWidth else maxWidth;
    outer - margin.right - margin.left
  }

  /** `labelPositionLeft`: a label sits 35px from its point, on the side of the plot's centre. */
  function LabelLeft(xPos: real, width: real): (r: real)
    ensures r > xPos <==> xPos < width / 2.0
    ensures r == xPos + 35.0 || r == xPos - 35.0
  {
    var center := width / 2.0;
    var offset := 35.0;
    if xPos < center then xPos + offset else xPos - offset
  }

  /**
   * The `left` coordinate of `Tooltip.updatePosition`: right of the cursor by
   * 10px in the left half of the chart, 210px to its left in the right half.
   */
  function TooltipLeft(x: real, chartWidth: real): (r: real)
    ensures r < x <==> x > chartWidth / 2.0
    ensures r == x - 210.0 || r == x + 10.0
  {
    if x > chartWidth / 2.0 then x - 210.0 else x + 10.0
  }

  // ----------------------------------------------------------------------
  // Tooltip
  // ----------------------------------------------------------------------

  /** The closure state of the `Tooltip` factory; the element itself is d3's. */
  class Tooltip {
    var chartWidth: real
    var top: real
    var left: real
    /** Whether `show` was called after the last `hide` or `create`. */
    var shown: bool
    /** The record the tooltip last displayed (`update`). */
    var datum: Option<Row>

    constructor ()
      ensures chartWidth == 0.0 && top == 0.0 && left == 0.0 && !shown && datum == None
    {
      chartWidth, top, left, shown, datum := 0.0, 0.0, 0.0, false, None;
    }

    /** `create`: a new, empty tooltip element for a chart of the given width. */
    method Create(width: real)
      modifies this`chartWidth, this`shown, this`datum
      ensures chartWidth == width && !shown && datum == None
    {
      chartWidth, shown, datum := width, false, None;
    }

    method Update(row: Row)
      modifies this`datum
      ensures datum == Some(row)
    {
      datum := Some(row);
    }

    /** `updatePosition(coords)`: 50px above the cursor, beside it on the side away from the nearer edge. */
    method UpdatePosition(x: real, y: real)
      modifies this`top, this`left
      ensures top == y - 50.0
      ensures left == TooltipLeft(x, chartWidth)
    {
      top := y - 50.0;
      left := if x > chartWidth / 2.0 then x - 210.0 else x + 10.0;
    }

    method Show()
      modifies this`shown
      ensures shown
    {
      shown := true;
    }

    method Hide()
      modifies this`shown
      ensures !shown
    {
      shown := false;
    }
  }

  // ----------------------------------------------------------------------
  // The chart
  // ----------------------------------------------------------------------

  /** A record bound to a bubble, with the `disabled` property `focusGroup` sets on it. */
  datatype Datum = Datum(row: Row, disabled: bool)

  function CountryName(row: Row): Option<Value> {
    Get(row, "countryname_en")
  }

  /**
   * The first index at or after `j` whose country name is `===` to `name`,
   * or `|ds|` if there is none.
   */
  function FirstNamed(ds: seq<Datum>, name: Option<Value>, j: nat): (h: nat)
    requires j <= |ds|
    ensures j <= h <= |ds|
    ensures h < |ds| ==> StrictEquals(CountryName(ds[h].row), name)
    ensures forall k :: j <= k < h ==> !StrictEquals(CountryName(ds[k].row), name)
    decreases |ds| - j
  {
    if j == |ds| then |ds|
    else if StrictEquals(CountryName(ds[j].row), name) then j
    else FirstNamed(ds, name, j + 1)
  }

  /** `d.node`: the bubbles whose country name is `===` to that of hover cell `i`. */
  function Node(ds: seq<Datum>, i: nat): set<nat>
    requires i < |ds|
  {
    set j: nat | j < |ds| && StrictEquals(CountryName(ds[j].row), CountryName(ds[i].row))
  }

  /** `d.node.datum()`: the first bubble of the node. */
  function NodeHead(ds: seq<Datum>, i: nat): nat
    requires i < |ds|
  {
    FirstNamed(ds, CountryName(ds[i].row), 0)
  }

  /** When names compare equal to themselves, the node's head is its smallest member. */
  lemma NodeHeadIsFirst(ds: seq<Datum>, i: nat)
    requires i < |ds| && NotNaN(CountryName(ds[i].row))
    ensures NodeHead(ds, i) <= i && NodeHead(ds, i) in Node(ds, i)
    ensures forall j :: j in Node(ds, i) ==> NodeHead(ds, i) <= j
  {
  }

  /** `focusGroup(g)`: every bubble outside group `g` is disabled, every bubble inside enabled. */
  function Focused(ds: seq<Datum>, g: string): (r: seq<Datum>)
    ensures |r| == |ds|
  {
    seq(|ds|, j requires 0 <= j < |ds| => Datum(ds[j].row, !Fractions.InBucket(ds[j].row, g)))
  }

  /** `reset()`: every bubble enabled. */
  function Cleared(ds: seq<Datum>): (r: seq<Datum>)
    ensures |r| == |ds|
  {
    seq(|ds|, j requires 0 <= j < |ds| => Datum(ds[j].row, false))
  }

  /** Focusing never touches the records themselves, and `reset` undoes any focus. */
  lemma ResetUndoesFocus(ds: seq<Datum>, g: string)
    ensures forall j :: 0 <= j < |ds| ==> Focused(ds, g)[j].row == ds[j].row
    ensures Cleared(Focused(ds, g)) == Cleared(ds)
  {
  }

  /** Focusing a second group replaces the first focus entirely. */
  lemma FocusReplacesFocus(ds: seq<Datum>, g: string, h: string)
    ensures Focused(Focused(ds, g), h) == Focused(ds, h)
  {
  }

  /**
   * The start of the load callback: d3.csv hands over a fresh array of text
   * rows, and `data = _parseData(csvData, _options)` keeps the plottable ones.
   */
  method Load(csv: seq<Row>, acc: Accessors, host: Host) returns (kept: seq<Row>)
    requires forall j :: 0 <= j < |csv| ==> CsvRow(csv[j])
    ensures kept == Parsed(host, acc, csv)
    ensures forall j :: 0 <= j < |kept| ==> NoNaN(kept[j])
  {
    var csvData := new Row[|csv|](j requires 0 <= j < |csv| => csv[j]);
    assert csvData[..] == csv;
    kept := ParseData(csvData, acc, host);
    forall j | 0 <= j < |kept| ensures NoNaN(kept[j]) {
      ParsedRowsNoNaN(host, acc, csv, kept[j]);
    }
  }

  class Chart {
    var options: Options
    /** `data`: the cleaned records, one per bubble, with their flags. */
    var data: array<Datum>
    /** The closure variable `margin`, taken from `options.margin` at each render. */
    var margin: Margin
    var width: real
    /** The bubbles that carry the CSS class `active`. */
    var active: set<nat>
    const tooltip: Tooltip

    ghost predicate Valid()
      reads this, data, tooltip
    {
      && tooltip.chartWidth == width
      && forall j :: 0 <= j < data.Length ==> NoNaN(data[j].row)
    }

    /**
     * The load callback of the factory: `data = _parseData(csvData, _options)`,
     * then the first render at window width `winWidth`. `options` is the
     * result of `Factory.Configure(Defaults(), selector, _options)`.
     */
    constructor (options: Options, csv: seq<Row>, host: Host, winWidth: real)
      requires forall j :: 0 <= j < |csv| ==> CsvRow(csv[j])
      requires MaxWidthOf(options).Some? && MarginOf(options).Some?
      ensures Valid() && fresh(data) && fresh(tooltip)
      ensures this.options == options
      ensures data.Length == |Parsed(host, AccessorsOf(host, options), csv)|
      ensures forall j :: 0 <= j < data.Length ==>
        data[j] == Datum(Parsed(host, AccessorsOf(host, options), csv)[j], false)
      ensures margin == MarginOf(options).value
      ensures width == ChartWidth(winWidth, MaxWidthOf(options).value, margin)
      ensures active == {} && !tooltip.shown
    {
      var kept := Load(csv, AccessorsOf(host, options), host);
      this.options := options;
      data := new Datum[|kept|](j requires 0 <= j < |kept| => Datum(kept[j], false));
      margin := MarginOf(options).value;
      width := ChartWidth(winWidth, MaxWidthOf(options).value, MarginOf(options).value);
      active := {};
      tooltip := new Tooltip();
      new;
      tooltip.Create(width);
    }

    /** `updateDimensions(winWidth)`. The height (`width * aspectRatio`) is not modelled. */
    method UpdateDimensions(winWidth: real)
      requires MaxWidthOf(options).Some?
      modifies this`width
      ensures width == ChartWidth(winWidth, MaxWidthOf(options).value, margin)
    {
      var maxWidth := MaxWidthOf(options).value;
      width := if winWidth < maxWidth then winWidth else maxWidth;
      width := width - margin.right - margin.left;
    }

    /**
     * `renderChart` (also run on every window resize): margins and width are
     * read again from the options, the tooltip is recreated and the rebuilt
     * bubbles carry no `active` class. The records keep their flags.
     */
    method Render(winWidth: real)
      requires Valid()
      requires MaxWidthOf(options).Some? && MarginOf(options).Some?
      modifies this`margin, this`width, this`active, tooltip`chartWidth, tooltip`shown, tooltip`datum
      ensures Valid()
      ensures margin == MarginOf(options).value
      ensures width == ChartWidth(winWidth, MaxWidthOf(options).value, margin)
      ensures active == {} && !tooltip.shown && tooltip.datum == None
    {
      margin := MarginOf(options).value;
      UpdateDimensions(winWidth);
      tooltip.Create(width);
      active := {};
    }

    /**
     * `onMouseEnter` for hover cell `i`. A disabled head bubble makes it return
     * `false` with nothing changed; otherwise the tooltip shows the head's
     * record and the whole node becomes active.
     */
    method OnMouseEnter(i: nat) returns (ignored: bool)
      requires Valid() && i < data.Length
      modifies this`active, tooltip
      ensures Valid()
      ensures var h := NodeHead(data[..], i);
        && h <= i
        && ignored == data[h].disabled
        && (ignored ==> active == old(active) && unchanged(tooltip))
        && (!ignored ==> active == old(active) + Node(data[..], i)
                         && tooltip.shown && tooltip.datum == Some(data[h].row)
                         && tooltip.chartWidth == old(tooltip.chartWidth)
                         && tooltip.top == old(tooltip.top) && tooltip.left == old(tooltip.left))
    {
      NodeHeadIsFirst(data[..], i);
      var h := NodeHead(data[..], i);
      if data[h].disabled {
        return true;
      }
      ignored := false;
      tooltip.Update(data[h].row);
      tooltip.Show();
      active := active + Node(data[..], i);
    }

    method OnMouseMove(x: real, y: real)
      requires Valid()
      modifies tooltip`top, tooltip`left
      ensures Valid()
      ensures tooltip.top == y - 50.0 && tooltip.left == TooltipLeft(x, tooltip.chartWidth)
    {
      tooltip.UpdatePosition(x, y);
    }

    method OnMouseLeave(i: nat)
      requires Valid() && i < data.Length
      modifies this`active, tooltip`shown
      ensures Valid()
      ensures active == old(active) - Node(data[..], i) && !tooltip.shown
    {
      active := active - Node(data[..], i);
      tooltip.Hide();
    }

    /**
     * `focusGroup(groupId)`: first every bubble is disabled, then those of the
     * group are enabled again. The records and their order stay as they are.
     */
    method FocusGroup(groupId: string)
      requires Valid()
      modifies data
      ensures Valid()
      ensures data[..] == Focused(old(data[..]), groupId)
    {
      for j := 0 to data.Length
        invariant forall k :: 0 <= k < j ==> data[k] == Datum(old(data[k]).row, true)
        invariant forall k :: j <= k < data.Length ==> data[k] == old(data[k])
      {
        data[j] := data[j].(disabled := true);
      }
      for j := 0 to data.Length
        invariant forall k :: 0 <= k < j ==> data[k] == Datum(old(data[k]).row, !Fractions.InBucket(old(data[k]).row, groupId))
        invariant forall k :: j <= k < data.Length ==> data[k] == Datum(old(data[k]).row, true)
      {
        if Fractions.InBucket(data[j].row, groupId) {
          data[j] := data[j].(disabled := false);
        }
      }
    }

    /** `reset()`: every bubble enabled again. */
    method Reset()
      requires Valid()
      modifies data
      ensures Valid()
      ensures data[..] == Cleared(old(data[..]))
    {
      for j := 0 to data.Length
        invariant forall k :: 0 <= k < j ==> data[k] == Datum(old(data[k]).row, false)
        invariant forall k :: j <= k < data.Length ==> data[k] == old(data[k])
      {
        data[j] := data[j].(disabled := false);
      }
    }

    /** `update(newOpts)`: `options = _merge(options, newOpts)`; records and flags untouched. */
    method Update(newOpts: Options)
      modifies this`options
      ensures options == Merge.MergeAll([old(options), newOpts])
    {
      options := Merge.Merge([options, newOpts]);
    }
  }
}
