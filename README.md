# klimafraktionen: the chart logic under the drawing

The klimafraktionen charts plot countries as bubbles. A bubble's x position, y position and size come from three columns of a CSV file. Its colour comes from the country's "fraction", a climate-negotiation group `A`, `B`, `C` or `D`. Drawing is done by d3 and nvd3. This project models the logic around the drawing in Dafny and proves what it promises:

- **chart.js (`ClimateChart`)**: the constructor's argument checks, the option defaults and `_merge`, and the record cleaning in `_parseData`. Also the layout arithmetic in `updateDimensions`, `labelPositionLeft` and `Tooltip.updatePosition`, the `disabled` flags that `focusGroup` and `reset` set on every bubble, and what hovering a bubble does.
- **index.js (`ClimateFactions`, an nvd3 variant)**: the field casting in `_parseData` and the grouping into four coloured, optionally filtered series in `_crunchData`. Also `update`, which regroups the data but never stores the merged options.
- **app/scripts/bubblechart.js**: the application's nvd3 chart. It casts 17 fixed columns and groups rows into four uncoloured series.
- **parisprotokoll/parisprotokoll.js**: the page script. It holds the focus buttons with their active and inactive CSS classes and the two scale-toggle buttons, and it calls the chart.

Modules:

- `Js` holds the part of JavaScript's value model that the code branches on. Numbers may be NaN or infinite. Truthiness, `===`, and property reads on `undefined`/`null` (which throw a TypeError) are modelled.
- `Seqs` holds `Array.prototype.filter` and order-preserving subsequences.
- `Merge`, `Factory` and `Fractions` hold `_merge`, the constructor checks with the option merge that follows them, and the grouping loop. These appear word for word in more than one source file, so each is defined once.
- `ClimateChart`, `ClimateFactions`, `BubbleChart` and `ParisProtokoll` follow the four source files.

A source function that updates state step by step is modelled as a Dafny method with loops. Each such method is proved equal to a specification function, and the source's promises are proved about that function as lemmas. Closure state (the chart's `data`, `options` and `width`, the tooltip's position, the page's buttons) lives in Dafny classes.

`_parseData` in chart.js keeps a record when none of its three fields is NaN: chart.js:39 tests only `!isNaN`, so a field that parses to `Infinity` is kept (`ClimateChart.IsNumber`).

## Model

| member | source | states |
|---|---|---|
| Js.Property | index.js:110 | Reading `options.colors[key]` throws a TypeError exactly when `colors` is undefined or null. An object gives its own property for that key. |
| Seqs.FilterKeeps | chart.js:38-40 | `filter` keeps every element that satisfies the predicate. |
| Seqs.FilterIsSubseq | chart.js:38-40 | `filter` never reorders: its result is a subsequence of the input. |
| Seqs.FilterAll | chart.js:38-40 | A predicate that holds for every element keeps the whole array. |
| Merge.Merge | chart.js:45-58 | The nested copy loop of `_merge` returns exactly the left-to-right, last-wins union of its arguments. index.js:140-151 and app/scripts/bubblechart.js:133-145 are the same code. |
| Merge.MergeAllKeys | chart.js:45-58 | A key is in the merged object if and only if some argument has it. |
| Merge.MergeAllLastWins | chart.js:49-55 | Each key takes its value from the last argument that has it. A nested object such as `margin` replaces the earlier one whole. |
| Merge.MergeAllNested | chart.js:582-583 | Merging an earlier merge result with more arguments equals merging all of them at once, so repeated `update`s accumulate in order. |
| Merge.MergeAllCopy | chart.js:45-58 | `_merge(o)` has exactly the properties of `o`. |
| Merge.MergeAllPair | chart.js:591 | `_merge(defaults, options)` is the union of the two, with the caller's options winning. |
| Factory.CheckArguments | chart.js:124-130 | An undefined selector throws the selector error. `null` options throw a TypeError. Otherwise the options must be an object with a truthy `path`, or the path error is thrown. The same checks open index.js:13-19 and app/scripts/bubblechart.js:7-13. |
| Factory.Configure | chart.js:591 | A constructor's checks, then `_merge(optionsDefault, _options)`. It throws exactly when the checks do. The keys are the union of defaults and options. Every option the caller sets wins, whole, and every default the caller leaves out survives. index.js:39 and app/scripts/bubblechart.js:27 do the same with their own defaults. |
| Fractions.IndexOf | index.js:117 | `keys.indexOf(fraction)` is the position of the key that is `===` to the fraction, and -1 exactly when no key is. |
| Fractions.Group | index.js:115-124 | Throws a TypeError exactly when a row with a truthy fraction names no key. Otherwise it returns four buckets, and bucket `k` holds the `{x, y, size}` points of exactly the rows whose fraction is `Keys[k]`, in input order. |
| Fractions.BucketsPartition | index.js:115-124 | The four bucket sizes add up to the number of rows with a truthy fraction: no row is lost or counted twice. |
| Fractions.BucketIsOrderedSlice | app/scripts/bubblechart.js:93-102 | Each bucket is a subsequence of the input, and every row in it has that bucket's fraction. |
| ClimateChart.Coerce | chart.js:32-36 | The x, y and size fields are replaced by `parseFloat` of themselves. Every other field stays as it was. |
| ClimateChart.ParseData | chart.js:31-43 | Coerces the array's records in place, then returns the records whose three fields are not NaN. |
| ClimateChart.ParsedRowsHaveNumbers | chart.js:38-40 | Every kept record holds a number other than NaN in its x, y and size fields. |
| ClimateChart.ParsedKeepsExactly | chart.js:31-43 | A record is kept (coerced) if and only if none of its three fields parses to NaN. |
| ClimateChart.ParsedInInputOrder | chart.js:38-42 | The kept records come in input order. |
| ClimateChart.ParsedIdempotent | chart.js:31-43 | Cleaning already cleaned records changes nothing. |
| ClimateChart.ParsedRowsNoNaN | chart.js:31-43 | Records cleaned from CSV text hold no NaN in any field. So a country name is always `===` to itself, which the hover logic relies on. |
| ClimateChart.Load | chart.js:594-598 | The loaded CSV text rows become exactly the cleaned, plottable records, and none of them holds NaN. |
| ClimateChart.ChartWidth | chart.js:239-241 | The width plus both margins equals the window width or `maxWidth`, whichever is smaller, and never exceeds either. |
| ClimateChart.LabelLeft | chart.js:245-250 | A label sits 35px from its point. It is to the right exactly when the point is left of the centre. |
| ClimateChart.TooltipLeft | chart.js:93 | The tooltip is left of the cursor (by 210px) exactly when the cursor is in the right half. Otherwise it is 10px to the right. |
| ClimateChart.Tooltip.constructor | chart.js:64-66 | A new tooltip has no width, position or content and is not shown. |
| ClimateChart.Tooltip.Create | chart.js:68-76 | `create` records the chart width, and the new element is empty and not shown. |
| ClimateChart.Tooltip.Update | chart.js:78-89 | The tooltip displays the given record. |
| ClimateChart.Tooltip.UpdatePosition | chart.js:91-99 | `top` is 50px above the cursor, and `left` follows the half-width rule. |
| ClimateChart.Tooltip.Show | chart.js:105-107 | The tooltip is shown. |
| ClimateChart.Tooltip.Hide | chart.js:101-103 | The tooltip is hidden. |
| ClimateChart.FirstNamed | chart.js:344-345 | Finds the first bubble at or after a position whose country name is `===` to a name. No earlier bubble in the range matches. |
| ClimateChart.NodeHeadIsFirst | chart.js:344-345 | The datum of a hover node is its first bubble, and it comes no later than the hovered cell. |
| ClimateChart.ConfiguredSizes | chart.js:132-167 | Merged over these defaults (chart.js:591), a caller that sets no `maxWidth` gets 960px. The side margins are the caller's whole `margin` when it gives one, and 50px otherwise. |
| ClimateChart.ResetUndoesFocus | chart.js:577-579 | Focusing never changes the records themselves, and `reset` after any focus leaves every bubble enabled. |
| ClimateChart.FocusReplacesFocus | chart.js:499-504 | Focusing one group and then another is the same as focusing the second group alone. |
| ClimateChart.Chart.constructor | chart.js:594-603 | The data are the cleaned CSV records in order, all enabled. Width and margins come from the options, nothing is active, the tooltip is hidden, and no record holds NaN. |
| ClimateChart.Chart.UpdateDimensions | chart.js:239-243 | `width` is the smaller of the window width and `maxWidth`, minus the right and left margins. |
| ClimateChart.Chart.Render | chart.js:388-399 | Margins and width are read again from the options, the tooltip is recreated empty and hidden, and no bubble is active. The records keep their flags, and the tooltip keeps its position. |
| ClimateChart.Chart.OnMouseEnter | chart.js:189-196 | If the node's first bubble is disabled, nothing changes and `ignored` is true: exactly the case where the handler returns false. Otherwise the tooltip shows that bubble's record and the whole node becomes active. |
| ClimateChart.Chart.OnMouseMove | chart.js:198-200 | The tooltip follows the cursor. |
| ClimateChart.Chart.OnMouseLeave | chart.js:202-205 | The node loses its active class and the tooltip is hidden. |
| ClimateChart.Chart.FocusGroup | chart.js:467-504 | Afterwards every bubble is disabled exactly when its fraction is not `groupId`. The records and their order are unchanged. |
| ClimateChart.Chart.Reset | chart.js:567-580 | Afterwards every bubble is enabled and the records are unchanged. |
| ClimateChart.Chart.Update | chart.js:582-589 | The stored options become the merge of the old options and the new ones. |
| ClimateFactions.ParseRow | index.js:129-138 | The `for...in` loop yields the same keys. Each field is replaced by its unary-plus value when that is finite. |
| ClimateFactions.ParsedRowFields | index.js:129-138 | A text field becomes a number exactly when its conversion is finite and not NaN; otherwise the original text stays. Cleaning twice changes nothing. |
| ClimateFactions.NumericFractions | index.js:116-118 | An empty fraction converts to 0, which is falsy, so the row is skipped. A fraction that reads as a non-zero number becomes a number that `indexOf` cannot find, so the grouping throws. |
| ClimateFactions.ToCrunch | index.js:113 | Without a truthy `filter`, every row is considered. |
| ClimateFactions.CrunchData | index.js:107-127 | Returns or throws exactly what the specification function `Crunched` gives. Missing or null `colors` throws, as does a truthy `filter` that is not a function or an unknown fraction. Otherwise there are four series keyed `A`..`D`, each holding its fraction's points. |
| ClimateFactions.CrunchedSeries | index.js:107-124 | A successful crunch yields exactly the series `A`, `B`, `C`, `D` in order, each carrying `options.colors[key]`. Each series is its fraction's rows in input order. The series together hold one point per row with a truthy fraction. |
| ClimateFactions.CrunchedFilter | index.js:113 | When `options.filter` is a function, only rows that satisfy it are grouped. |
| ClimateFactions.ConfiguredCrunch | index.js:21-39 | With index.js's defaults, a caller that sets neither `colors` nor `filter` gets every row grouped, and each series `A`..`D` gets its key's default colour. The crunch throws exactly when a row names an unknown fraction. |
| ClimateFactions.ClimateFactions.constructor | index.js:51-52 | `data` and `chartData` start null, and the options are stored. |
| ClimateFactions.ClimateFactions.OnLoad | index.js:54-88 | `data` holds every CSV row after `_parseData`, in order. The chart gets the crunched series, or the crunch's exception is thrown. |
| ClimateFactions.ClimateFactions.Update | index.js:93-101 | `this.options` and `this.data` never change. The series are regrouped with the merged options and rebound. It throws before the data has loaded or been drawn, or when the crunch throws. |
| BubbleChart.ParseRow | app/scripts/bubblechart.js:107-131 | Exactly the 17 listed columns are set to their unary-plus value (NaN when missing or non-numeric), every other field is untouched, and the row is kept. |
| BubbleChart.CrunchData | app/scripts/bubblechart.js:87-105 | Returns or throws exactly what `Crunched` gives. An unknown fraction throws. Otherwise there are four uncoloured series keyed `A`..`D` with no filter applied. |
| BubbleChart.CrunchedSeries | app/scripts/bubblechart.js:87-102 | Four series `A`..`D` in order. Each holds its fraction's rows in input order, and together they hold one point per row with a truthy fraction. |
| BubbleChart.ParsedFractionKept | app/scripts/bubblechart.js:94-95 | `_parseData` leaves the fraction column alone. A row is grouped, skipped or fatal after cleaning exactly as it would have been before. |
| BubbleChart.ConfiguredAccessors | app/scripts/bubblechart.js:15-27 | With the defaults, a caller that names no accessor plots `gdp_2014` against `unemployment_2013`, sized by `population_2014`. All three are columns that `_parseData` casts. |
| BubbleChart.BubbleChart.constructor | app/scripts/bubblechart.js:38-39 | `data` and `chartData` start null, and the options are stored. |
| BubbleChart.BubbleChart.OnLoad | app/scripts/bubblechart.js:41-72 | Every CSV row is kept, cast column by column. The chart gets the crunched series, or the crunch's exception is thrown. |
| BubbleChart.BubbleChart.Update | app/scripts/bubblechart.js:74-81 | `this.options` never changes. The series are regrouped with the merged options. It throws before the data has loaded or been drawn. |
| ParisProtokoll.FirstWithout | parisprotokoll/parisprotokoll.js:67-70 | Finds the first focus button without a `classList`. Every button before it has one. |
| ParisProtokoll.ClearedIsNeutral | parisprotokoll/parisprotokoll.js:55-63 | After `reset` no focus button has either class, groups are unchanged, and no button is active. |
| ParisProtokoll.ActivatedExactlyOne | parisprotokoll/parisprotokoll.js:65-74 | With class lists everywhere, the selected button ends up active and not inactive. Every other button ends up inactive and not active. |
| ParisProtokoll.ActivatedKeepsAtMostOne | parisprotokoll/parisprotokoll.js:65-74 | `activateButton` keeps at most one button active, whether it completes, does nothing or stops at a button without a class list. |
| ParisProtokoll.ClickedKeepsAtMostOne | parisprotokoll/parisprotokoll.js:90-103 | Every click on a focus button keeps at most one button active. |
| ParisProtokoll.ClickTwiceIsNeutral | parisprotokoll/parisprotokoll.js:91-101 | Two clicks on an inactive button return every button to the neutral state. The chart is told to focus the group twice, then to reset. |
| ParisProtokoll.Page.constructor | parisprotokoll/parisprotokoll.js:51-53 | The page starts with its buttons as found, no chart calls, and a chart whose data has not arrived. |
| ParisProtokoll.Page.ChartLoaded | chart.js:594-598 | Once the chart's CSV callback has run, chart calls no longer throw. |
| ParisProtokoll.Page.Reset | parisprotokoll/parisprotokoll.js:55-63 | `chart.reset` is called. Before the chart has its data, it throws a TypeError and no button changes. Otherwise both classes are removed from every button that has a class list. |
| ParisProtokoll.Page.ActivateButton | parisprotokoll/parisprotokoll.js:65-74 | The buttons and any exception are exactly those of the specification `Activated`. |
| ParisProtokoll.Page.Click | parisprotokoll/parisprotokoll.js:90-103 | `chart.focusGroup` is called first with the button's group. Before the chart has its data, it throws a TypeError and no button changes. Otherwise the buttons reset if the clicked button was active, or are activated around it if not. |
| ParisProtokoll.Page.LogScaleClick | parisprotokoll/parisprotokoll.js:76-81 | Before the chart has its data, `reset` throws and no button or display changes. Otherwise it resets the buttons, shows the linear button, hides the log button and calls `update({isLogScale: true})`. |
| ParisProtokoll.Page.LinearScaleClick | parisprotokoll/parisprotokoll.js:83-88 | The mirror image: before the data, it throws with nothing changed. Otherwise it resets, hides the linear button, shows the log button and calls `update({isLogScale: false})`. |

## Left out

- Drawing: SVG and DOM construction, axes, circles, labels, the threshold line, transitions and the Voronoi geometry are d3/nvd3 library calls. Hover cell `i` is taken to belong to record `i`.
- Scales and the chart height: `initScales`, the log/linear/sqrt scales, `height = width * aspectRatio`, and the axis domains that `focusGroup` changes are floating-point work inside d3. `focusGroup`'s opacity and label display styles are also not modelled.
- Loading: `d3.csv` and its error paths ('Data not found.', 'Error loading ...') are I/O. `OnLoad` and the chart constructor take the loaded rows as a parameter. nvd3's `addGraph` callback is taken to run at once.
- Number formatting: `Intl.NumberFormat` and the `_locale` setting are a foreign locale library. `Tooltip.update` is modelled as the record it displays.
- Number parsing: `parseFloat`, unary `+` and the string form of a non-string property key are engine functions. They are parameters (`Js.Host`), and only their NaN or finite outcome is branched on. Numbers are exact reals, with no IEEE rounding.
- Event wiring: window resize handlers and `nv.utils.windowResize` are event plumbing. `ClimateChart.Chart.Render` models one run of `renderChart`. index.js:98 and app/scripts/bubblechart.js:80 pass `chart.update` for a global `chart` that neither file defines. Without such a global this throws a ReferenceError after the redraw, which `Update` does not model.
- app/scripts/main.js only fills `<select>` elements and forwards their values to `update`.
- The ClimateChart options that parisprotokoll.js:6-49 passes are configuration data. The chart calls the page makes are recorded as events (`ParisProtokoll.ChartCall`) whose effect is `ClimateChart.Chart.FocusGroup`, `Reset` and `Update`.
- `_merge` takes option objects as maps of their own enumerable properties. `hasOwnProperty`, inherited properties, and `for...in` over strings or arrays passed as arguments are not modelled, and neither is an `undefined` argument to `update`.
- Object identity: records are values. d3's sharing of the same record objects between `data`, the bubbles and the hover cells is not modelled, and neither is the in-place mutation of the caller's rows by `_parseData` in index.js and bubblechart.js.
- ClimateChart.Chart.UpdateDimensions: requires `options.maxWidth` to be a finite number. The NaN arithmetic JavaScript does otherwise is not modelled.
- ClimateChart.Chart.Render: requires `options.maxWidth` and `options.margin.left`/`.right` to be finite numbers, for the same reason.
- ClimateChart.Chart: the chart object is modelled from its CSV callback on. Before it, `focusGroup`, `reset` and `update` throw a TypeError on the undefined `data` (`focusGroup` filters it; `reset` and `update` reach `initScales`, whose `d3.extent` reads its length); `ParisProtokoll.Page` models that throw through `chartReady`.
- ClimateChart.Chart.constructor: requires finite `maxWidth` and margins as above, and every CSV field to be a string, as d3.csv delivers it.
- ParisProtokoll.Page: a focus button's other CSS classes, and the case of `querySelector` finding no scale button, are not modelled.
