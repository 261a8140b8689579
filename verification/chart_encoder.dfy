/** The data-to-encoding step of `createLinearChart` and `createLogChart`
    (script.js lines 15-197 and 200-385), without the drawing: everything a renderer
    needs to place the circles and the legend of one chart. */
module ChartEncoder {
  import opened Records
  import opened RenderOrder
  import opened ScaleDomains
  import opened RegionFilter
  import opened CircleSize
  import opened LegendLayout
  import opened ChartFrame

  datatype Chart = Chart(
    kind: ChartKind,
    frame: Frame,
    order: seq<Row>,          // rows in drawing order
    xDomain: Domain,          // income axis
    yDomain: Domain,          // life-expectancy axis
    radii: seq<real>,         // radius of each circle, in drawing order
    regionNames: seq<Row>,    // first row of each region, along `order`
    kept: seq<nat>,           // positions in `order` of the rows in `regionNames`
    regions: seq<string>,     // legend order
    legend: seq<LegendEntry>)

  /** `chart` is what one chart builder computes from `info`: the rows are drawn
      largest population first, the domains are those of the loaded rows, circles
      shrink along the drawing order, and the legend has one row for each region of
      the data, each region once, in order of the region's first row along the
      drawing order. */
  ghost predicate ChartOf(kind: ChartKind, info: seq<Row>, chart: Chart)
    requires |info| > 0
  {
    && chart.kind == kind && chart.frame == PlotFrame()
    && IsRenderOrder(info, chart.order)
    && chart.xDomain == IncomeDomain(kind, info)
    && chart.yDomain == LifeDomain(kind, info)
    && chart.radii == Radii(chart.order)
    && (forall i, j :: 0 <= i < j < |chart.radii| ==> chart.radii[j] <= chart.radii[i])
    && |chart.kept| == |chart.regionNames| == |chart.regions|
    && (forall k :: 0 <= k < |chart.kept| ==>
          chart.kept[k] < |chart.order| && chart.regionNames[k] == chart.order[chart.kept[k]]
          && FirstOfRegion(chart.order, chart.kept[k]))
    && (forall k, l :: 0 <= k < l < |chart.kept| ==> chart.kept[k] < chart.kept[l])
    && (forall i :: FirstOfRegion(chart.order, i) ==> i in chart.kept)
    && (forall k :: 0 <= k < |chart.regions| ==> chart.regions[k] == chart.regionNames[k].region)
    && (forall k, l :: 0 <= k < l < |chart.regions| ==> chart.regions[k] != chart.regions[l])
    && (forall region :: region in chart.regions <==> region in RegionsOf(info))
    && chart.legend == Legend(kind, chart.regions)
  }

  /** One chart builder (`createLinearChart` or `createLogChart`) run on `info`. */
  method BuildChart(kind: ChartKind, info: seq<Row>) returns (chart: Chart)
    requires |info| > 0
    ensures ChartOf(kind, info, chart)
  {
    var order := SortByPopulation(info);
    DomainsIgnoreOrder(kind, info, order);
    RadiiFollowRenderOrder(order);
    var regionNames, uniques, kept := UniqueRegions(order);
    RegionsOfPermutation(order, info);
    chart := Chart(kind, PlotFrame(), order, IncomeDomain(kind, order), LifeDomain(kind, order),
                   Radii(order), regionNames, kept, uniques, Legend(kind, uniques));
  }

  /** `execute`: the linear chart sorts the loaded rows, and the log chart re-sorts the
      array the linear chart left sorted. Each is the chart its builder computes; both
      draw circles of the same sizes in the same order, have the domains of the loaded
      rows, and list the regions of the data. */
  method Execute(data: seq<Row>) returns (linear: Chart, log: Chart)
    requires |data| > 0
    ensures ChartOf(Linear, data, linear)
    ensures ChartOf(Log, linear.order, log)
    ensures IsRenderOrder(data, log.order)
    ensures Populations(log.order) == Populations(linear.order)
    ensures log.radii == linear.radii
    ensures linear.xDomain == LinearIncomeDomain(data) && linear.yDomain == LinearLifeDomain(data)
    ensures log.xDomain == LogIncomeDomain(data) && log.yDomain == LogLifeDomain(data)
    ensures forall region :: region in log.regions <==> region in linear.regions
    ensures forall region :: region in log.regions <==> region in RegionsOf(data)
  {
    linear := BuildChart(Linear, data);
    log := BuildChart(Log, linear.order);
    ResortKeepsPopulations(linear.order, log.order);
    RadiiOfPopulations(log.order, linear.order);
    DomainsIgnoreOrder(Log, data, linear.order);
    RegionsOfPermutation(linear.order, data);
  }

  /** Two countries: the larger one is drawn first, with radius 14 against 9, and the
      linear income axis runs from 10000 to 50000. */
  lemma TwoCountryExample()
    ensures var a := Row("A", "X", 1000000000.0, 50000.0, 80.0);
            var b := Row("B", "Y", 500000000.0, 20000.0, 70.0);
            && SortByPopulation([b, a]) == [a, b]
            && Radius(a.population) == 14.0 && Radius(b.population) == 9.0
            && LinearIncomeDomain([a, b]) == Domain(10000.0, 50000.0)
  {
  }
}
