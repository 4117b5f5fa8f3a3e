/** The two small decisions of the detail page: which chart panel `DetailView`
    shows for a fact, and the colour `DataVisualizer` gives each chart cell. */
module DetailView {
  import opened Facts

  const DefaultChartTitle: string := "Datos Clave"
  const PlaceholderText: string := "Dato verificado científicamente"

  /** The panel in the right-hand column of the detail page. */
  datatype ChartPanel =
    | Chart(data: seq<ChartPoint>, kind: ChartType, title: string)
    | Placeholder(text: string)

  /** `fact.chartData ? <DataVisualizer type={fact.chartType || 'pie'}
      title={fact.chartTitle || "Datos Clave"}/> : placeholder`. A present
      array is truthy even when empty; an empty chart title falls back to the
      default. */
  function PanelFor(f: Fact): (p: ChartPanel)
    ensures p.Chart? <==> f.chartData.Some?
    ensures p.Placeholder? ==> p.text == PlaceholderText
    ensures p.Chart? ==> p.data == f.chartData.value
    ensures p.Chart? ==> (p.kind == Bar <==> f.chartType == Some(Bar))
    ensures p.Chart? ==> p.title != ""
    ensures p.Chart? ==> (Truthy(f.chartTitle) ==> p.title == f.chartTitle.value)
    ensures p.Chart? ==> (!Truthy(f.chartTitle) ==> p.title == DefaultChartTitle)
  {
    match f.chartData
    case None => Placeholder(PlaceholderText)
    case Some(data) =>
      var kind := if f.chartType.Some? then f.chartType.value else Pie;
      var title := if Truthy(f.chartTitle) then f.chartTitle.value else DefaultChartTitle;
      Chart(data, kind, title)
  }

  /** `entry.fill || COLORS[index % COLORS.length]`: the cell's own colour when
      it has a non-empty one, otherwise the palette colour for its position. */
  function CellColor(data: seq<ChartPoint>, index: nat): (color: string)
    requires index < |data|
    ensures color != ""
    ensures Truthy(data[index].fill) ==> color == data[index].fill.value
    ensures !Truthy(data[index].fill) ==> color in Colors
  {
    if Truthy(data[index].fill) then data[index].fill.value else Colors[index % |Colors|]
  }

  /** Cells without a colour of their own cycle through the palette: two such
      cells whose positions differ by the palette's length get the same colour,
      and neighbouring ones get different colours. */
  lemma PaletteCycles(data: seq<ChartPoint>, i: nat, j: nat)
    requires i < |data| && j < |data|
    requires !Truthy(data[i].fill) && !Truthy(data[j].fill)
    ensures i % |Colors| == j % |Colors| ==> CellColor(data, i) == CellColor(data, j)
    ensures j == i + 1 ==> CellColor(data, i) != CellColor(data, j)
  {
    if j == i + 1 {
      var k := i % |Colors|;
      assert j % |Colors| == if k == 6 then 0 else k + 1;
    }
  }

  /** A fact whose chart points all carry a non-empty colour shows a chart in
      which every cell takes its own colour; in the store every chart point
      carries one (`StoreChartsColoured`), so no store chart uses the palette. */
  lemma OwnColours(f: Fact)
    requires f.chartData.Some?
    requires Coloured(f.chartData.value)
    ensures PanelFor(f).Chart? && PanelFor(f).data == f.chartData.value
    ensures forall k :: 0 <= k < |f.chartData.value| ==>
      f.chartData.value[k].fill.Some? && CellColor(PanelFor(f).data, k) == f.chartData.value[k].fill.value
  {
  }

  /** Fact 3 (dark matter) shows an explicit pie chart of three points titled
      "Composición del Universo". */
  lemma DarkMatterPanel()
    ensures ScienceFacts[2].id == 3
    ensures PanelFor(ScienceFacts[2]) == Chart(ScienceFacts[2].chartData.value, Pie, "Composición del Universo")
    ensures |ScienceFacts[2].chartData.value| == 3
  {
  }

  /** Fact 5 has chart data but no title, so its chart takes the default title. */
  lemma DefaultTitleScenario()
    ensures ScienceFacts[4].id == 5 && PanelFor(ScienceFacts[4]).Chart?
    ensures PanelFor(ScienceFacts[4]).title == DefaultChartTitle
  {
  }

  /** Fact 2 has no chart data and shows the placeholder. */
  lemma PlaceholderScenario()
    ensures ScienceFacts[1].id == 2 && PanelFor(ScienceFacts[1]) == Placeholder(PlaceholderText)
  {
  }
}
