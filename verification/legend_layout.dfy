/** Placement of the legend rows: one 10-by-10 colour swatch and one text label per
    region, stacked with a pitch of `20 + 2` units (script.js lines 175-195 for the
    linear chart and 363-383 for the log chart). Coordinates are relative to the
    legend group. */
module LegendLayout {
  import opened ChartFrame

  const RowPitch: int := 20 + 2
  const SwatchSize: int := 10
  /** Vertical offset of a label's baseline within its row. */
  const LabelBaseline: int := 9
  /** Horizontal distance from a swatch's left edge to its label. */
  const LabelOffset: int := 25

  datatype LegendEntry = LegendEntry(region: string, swatchX: int, swatchY: int, labelX: int, labelY: int)

  /** Left edge of the swatches: 0 in the linear chart, 70 in the log chart. */
  function SwatchX(kind: ChartKind): int
  {
    match kind
    case Linear => 0
    case Log => 70
  }

  /** Left edge of the labels: 25 in the linear chart, 95 in the log chart. */
  function LabelX(kind: ChartKind): int
  {
    match kind
    case Linear => 25
    case Log => 95
  }

  function Entry(kind: ChartKind, region: string, i: int): LegendEntry
  {
    LegendEntry(region, SwatchX(kind), RowPitch * i, LabelX(kind), LabelBaseline + RowPitch * i)
  }

  /** One row per region, in the given order. Row 0 is at the top; each swatch lies
      entirely above the next one (they never overlap), each label sits 25 units right
      of its swatch with its baseline inside the swatch's height. */
  function Legend(kind: ChartKind, regions: seq<string>): (rows: seq<LegendEntry>)
    ensures |rows| == |regions|
    ensures forall i :: 0 <= i < |rows| ==> rows[i].region == regions[i]
    ensures |rows| > 0 ==> rows[0].swatchY == 0
    ensures forall i :: 0 <= i < |rows| - 1 ==> rows[i + 1].swatchY == rows[i].swatchY + RowPitch
    ensures forall i, j :: 0 <= i < j < |rows| ==>
      rows[i].swatchY + SwatchSize < rows[j].swatchY && rows[i].labelY < rows[j].labelY
    ensures forall i :: 0 <= i < |rows| ==>
      rows[i].labelX == rows[i].swatchX + LabelOffset
      && rows[i].swatchY <= rows[i].labelY <= rows[i].swatchY + SwatchSize
  {
    seq(|regions|, i requires 0 <= i < |regions| => Entry(kind, regions[i], i))
  }

  /** Row `i` of the legend has its swatch at `y = 22 * i` and its label at
      `y = 9 + 22 * i`. */
  lemma LegendRowPosition(kind: ChartKind, regions: seq<string>, i: int)
    requires 0 <= i < |regions|
    ensures Legend(kind, regions)[i].swatchY == RowPitch * i
    ensures Legend(kind, regions)[i].labelY == LabelBaseline + RowPitch * i
  {
  }
}
