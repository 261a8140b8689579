# Wealth-health chart encoder

A Dafny model of the data-to-encoding step of the two scatter plots in `script.js`
(life expectancy against income, once on a linear and once on a logarithmic income
axis). Each chart takes the loaded rows `{Country, Region, Population, Income,
LifeExpectancy}` and:

- sorts them by Population, largest first, so that small circles are drawn over
  large ones (the render order);
- takes the `[min, max]` extent of Income and of LifeExpectancy and builds the scale
  domains from it: linear x `[minIncome - 10000, maxIncome]`, linear y
  `[minLife - 2, maxLife + 2]`, log x `[400, maxIncome]`, log y `[minLife, maxLife + 2]`;
- gives every circle the radius `4 + Population / 100000000`;
- filters the sorted rows down to the first row of each region, collecting the
  regions in a `Set` whose insertion order is the legend order;
- lays out one legend row per region: a 10-by-10 swatch at `y = 22 * i` and a label
  at `y = 9 + 22 * i`, 25 units right of the swatch;
- declares a 650 by 500 `svg` with 20-unit margins, so a 610 by 460 plot area (the
  margins are never applied to the drawing; see "## Left out").

Files, one module each: `records.dfy` (rows and columns), `render_order.dfy` (the
population sort), `extents.dfy` (`d3.extent`), `scale_domains.dfy`,
`region_filter.dfy`, `circle_size.dfy`, `legend_layout.dfy`, `chart_frame.dfy`, and
`chart_encoder.dfy`, which puts one chart together and runs both charts the way
`execute` does.

Modelling decisions:

- Numbers are exact `real`s. IEEE-754 rounding is not modelled.
- The sort comparator `(a.Population < b.Population) ? 1 : -1` never returns 0. For
  two rows of equal Population it answers -1 both ways, so it is inconsistent.
  JavaScript then guarantees only that `sort` returns a permutation of the array;
  the order itself is implementation-defined.
- Modelling assumption: the engine's comparison sort answers every comparison
  between different Populations correctly (as insertion, merge and Tim sort do), so
  its result has Population non-increasing. Only the order among rows of equal
  Population is left open, and the model claims no tie order or stability.
  `IsRenderOrder` says what every such result shares: the same rows, with
  Population never increasing. `SortByPopulation` is one such result.
  `RenderOrdersAgree` proves that all of them have the same Population sequence.
- The linear chart sorts the global array in place, and the log chart sorts that
  already-sorted array again. The model passes immutable sequences: `Execute` builds
  the log chart from the linear chart's render order.
- The region filter runs on the sorted array. The legend therefore lists regions in
  order of first occurrence along the render order, not along the file. Among rows
  of equal Population the legend order depends on the engine's tie order, so the
  model states it as first occurrence along the render order actually used.
- For incomes 50000 and 20000 the linear income domain is `[10000, 50000]`
  (`20000 - 10000`); `TwoCountryExample` states this.
- `d3.extent` of an empty array is `[undefined, undefined]`. The domain functions
  require a non-empty dataset.

## Model

| member | source | states |
|---|---|---|
| RenderOrder.SortByPopulation | script.js:18 | the result is a permutation of the loaded rows with Population non-increasing |
| RenderOrder.ComparatorOnTies | script.js:18 | the comparator puts each of two rows first exactly when their Populations are equal, so tie order is not fixed |
| RenderOrder.RenderOrdersAgree | script.js:18 | any two admissible sort results of the same rows have identical Population sequences |
| RenderOrder.ResortKeepsPopulations | script.js:203 | re-sorting an already sorted array leaves its Population sequence unchanged |
| Extents.ExtentOf | script.js:37-39 | the extent's ends occur in the column and bound every value of it |
| Extents.ExtentIgnoresOrder | script.js:42-44 | two columns holding the same values have the same extent |
| ScaleDomains.LinearIncomeDomain | script.js:37-49 | lower end is the smallest income minus 10000 and lies strictly below every income; upper end is the largest income |
| ScaleDomains.LogIncomeDomain | script.js:223-235 | lower end is the constant 400 whatever the data; upper end is the largest income; every income of at least 400 lies inside |
| ScaleDomains.LinearLifeDomain | script.js:42-54 | both ends lie exactly 2 beyond the smallest and largest life expectancy, so every value is at least 2 from either end |
| ScaleDomains.LogLifeDomain | script.js:228-240 | lower end is the smallest life expectancy, attained by a row; upper end is the largest plus 2 |
| ScaleDomains.DomainsIgnoreOrder | script.js:203-240 | domains computed on the sorted array equal those of the rows as loaded |
| RegionFilter.UniqueRegions | script.js:57-64 | keeps exactly the first row of each region, in order; the Set's regions are distinct and are exactly the regions of the data |
| CircleSize.Radius | script.js:76 | radius is at least 4 for non-negative Population, and Population is recovered as `(r - 4) * 100000000` |
| CircleSize.RadiusMonotone | script.js:262 | a larger Population never gives a smaller radius, and a strictly larger one a strictly larger radius |
| CircleSize.RadiiFollowRenderOrder | script.js:72-76 | along a render order the radii never increase |
| CircleSize.RadiiOfPopulations | script.js:258-262 | two row sequences with the same Populations get the same radii |
| LegendLayout.Legend | script.js:175-195 | one row per region in order; first swatch at 0, pitch 22; swatches never overlap; labels 25 right of their swatch with baseline inside its height |
| LegendLayout.LegendRowPosition | script.js:363-383 | row `i` has its swatch at `y = 22 * i` and its label at `y = 9 + 22 * i` |
| ChartFrame.PlotFrame | script.js:21-29 | the layout constants, stated rather than proved: a 610 by 460 plot area that with its 20-unit margins makes the 650 by 500 `svg`, and the legend group at `(width - 200, height - 200)` |
| ChartEncoder.BuildChart | script.js:15-197 | (`ChartOf`) drawing order is a render order of the data; domains are those of the loaded rows; radii never increase; the listed regions are those of the first row of each region along the drawing order, in that order, each region of the data once; the legend has one row per listed region, in that order |
| ChartEncoder.Execute | script.js:5-12 | the linear chart is `BuildChart`'s result on the loaded rows and the log chart its result on the linear chart's sorted array; the log chart also has the loaded rows' domains, the same Population sequence and radii as the linear chart, and the same regions, namely those of the data |
| ChartEncoder.TwoCountryExample | script.js:48 | for a two-country dataset the larger country is drawn first, the radii are 14 and 9 and the linear income domain is `[10000, 50000]` |

## Left out

- Loading the CSV and the async `execute` wrapper's I/O (script.js:5-9): network access through the charting library. `Execute` takes the loaded rows as a parameter.
- SVG and DOM construction, axes, tick formats, axis labels and the misspelled `transorm` attribute: rendering through a library whose code is not part of this model. Because of the misspelling (script.js:31, 217) the plot group is never translated by the margins, so the declared margins do not move the drawing; `PlotFrame` records the declared sizes only.
- Mapping values to pixels with `d3.scaleLinear` and `d3.scaleLog`: library interpolation and floating-point logarithms. Only the domain endpoints are modelled.
- Colour assignment with `d3.scaleOrdinal` and `schemeTableau10`: the palette and the ordinal scale's cycling are library behaviour not visible in the source.
- Tooltips, `d3.format(",.2r")` formatting, mouseover and mouseleave handlers and transitions: UI events and float formatting.
- The global mutable `info` and the aliasing between the two charts: modelled as immutable sequences passed along.
- IEEE-754 rounding: all arithmetic is exact `real` arithmetic.
- The order of rows with equal Population: the source's comparator leaves it to the JavaScript engine, so no stability or tie-order property is stated.
- Missing or non-numeric cells: `d3.autoType` turns an empty cell into `null`, which `d3.extent` skips and the sort comparator reads as 0. A `Row` holds `real`s only, so such rows are not represented.
- Repeated legend, axes and axis labels: the chart selections are enter selections (script.js:32-34, 218-220), so the `append` calls for the legend group, axes and labels (script.js:91-114, 166, 277-300, 353) create one copy per data row, all at the same positions. This is DOM behaviour; the model lays out a single legend.
- An empty dataset: `d3.extent` then yields undefined bounds and the domains become NaN, which the model does not represent; the domain functions require at least one row.
