/** Size of each chart's drawing area (script.js lines 21-23 and 206-208) and the
    position of its legend group (script.js lines 166-172 and 353-360). */
module ChartFrame {

  /** The two charts: income on a linear axis, or on a logarithmic one. */
  datatype ChartKind = Linear | Log

  datatype Margin = Margin(top: int, right: int, bottom: int, left: int)

  /** The plot area inside the margins, and the legend group's translation. */
  datatype Frame = Frame(margin: Margin, width: int, height: int, legendX: int, legendY: int)

  /** The outer size of the `svg` element. */
  const SvgWidth: int := 650
  const SvgHeight: int := 500
  const ChartMargin: Margin := Margin(20, 20, 20, 20)
  /** The legend group is moved this far in from the plot area's right and bottom. */
  const LegendInset: int := 200

  /** The inner area is the outer size less the margins, so adding the margins back
      (as the `svg`'s width and height attributes do) gives exactly 650 by 500. */
  function PlotFrame(): (f: Frame)
    ensures f.margin == ChartMargin
    ensures f.width + f.margin.left + f.margin.right == SvgWidth
    ensures f.height + f.margin.top + f.margin.bottom == SvgHeight
    ensures f.legendX + LegendInset == f.width && f.legendY + LegendInset == f.height
    ensures 0 < f.legendX && 0 < f.legendY
  {
    var width := SvgWidth - ChartMargin.left - ChartMargin.right;
    var height := SvgHeight - ChartMargin.top - ChartMargin.bottom;
    Frame(ChartMargin, width, height, width - LegendInset, height - LegendInset)
  }
}
