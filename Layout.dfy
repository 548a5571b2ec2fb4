/** The fixed canvas of the chart: an SVG of 680 by 500 pixels and the margins around
    the inner plot area that every scale maps onto. */
module Layout {

  datatype Margin = Margin(top: int, right: int, bottom: int, left: int)

  const ChartMargin := Margin(20, 50, 100, 75)
  const SvgWidth := 680
  const SvgHeight := 500

  /** Width of the inner plot area: the SVG width less the left and right margins. */
  const Width := SvgWidth - ChartMargin.left - ChartMargin.right

  /** Height of the inner plot area: the SVG height less the top and bottom margins. */
  const Height := SvgHeight - ChartMargin.top - ChartMargin.bottom

  /** The plot area is 555 by 380 pixels and, shifted by the left and top margins,
      lies inside the SVG. */
  lemma PlotArea()
    ensures Width == 555 && Height == 380
    ensures 0 < Width && ChartMargin.left + Width <= SvgWidth
    ensures 0 < Height && ChartMargin.top + Height <= SvgHeight
  {
  }
}
