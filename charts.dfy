/**
 * Chart-type dispatch of the data page: the eight chart types offered by the
 * select box, which drawing library each goes to, which columns, labels and
 * colour it uses, the label overlay `show_totals` adds, and which downloads
 * the page offers afterwards. The drawing itself is not modelled.
 */
module Charts {
  import opened Wrappers

  datatype ChartKind = Line | Bar | Scatter | Histogram | Boxplot | Heatmap | Area | Violin

  /** The chart-type select box's options, in its order. */
  const ChartTypeOptions: seq<string> :=
    ["Linha", "Barra", "Dispersão", "Histograma", "Boxplot", "Heatmap", "Áreas", "Violino"]

  /** The option labels the HTML download is offered for. */
  const HtmlExportTypes: seq<string> := ["Linha", "Barra", "Dispersão", "Áreas"]

  /** The select-box label of each chart type. */
  function Label(k: ChartKind): string
  {
    match k
    case Line => "Linha"
    case Bar => "Barra"
    case Scatter => "Dispersão"
    case Histogram => "Histograma"
    case Boxplot => "Boxplot"
    case Heatmap => "Heatmap"
    case Area => "Áreas"
    case Violin => "Violino"
  }

  /** The `if`/`elif` chain over `chart_type`: which branch a label selects, if any. */
  function KindOf(chartType: string): (k: Option<ChartKind>)
    ensures k.Some? ==> Label(k.value) == chartType
    ensures k.Some? <==> chartType in ChartTypeOptions
  {
    if chartType == "Linha" then Some(Line)
    else if chartType == "Barra" then Some(Bar)
    else if chartType == "Dispersão" then Some(Scatter)
    else if chartType == "Histograma" then Some(Histogram)
    else if chartType == "Boxplot" then Some(Boxplot)
    else if chartType == "Heatmap" then Some(Heatmap)
    else if chartType == "Áreas" then Some(Area)
    else if chartType == "Violino" then Some(Violin)
    else None
  }

  /** The two drawing back ends: interactive plotly figures, static matplotlib/seaborn ones. */
  datatype Library = Plotly | Matplotlib

  function LibraryOf(k: ChartKind): Library
  {
    match k
    case Line | Bar | Scatter | Area => Plotly
    case Histogram | Boxplot | Heatmap | Violin => Matplotlib
  }

  /** Text drawn over the marks when `show_totals` is ticked. */
  datatype Overlay =
    | NoOverlay
      /** plotly `update_traces(texttemplate=…, textposition=…)` */
    | ValueLabels(template: string, position: string)
      /**
       * one `value_counts()` label per distinct value of the y column, largest
       * count first, the i-th written at x = i rather than over any bin
       */
    | CountLabels

  /**
   * The overlay each branch adds: value labels only on the plotly charts, and
   * only when `show_totals` is ticked.
   */
  function TotalsOverlay(k: ChartKind, showTotals: bool): (o: Overlay)
    ensures o != NoOverlay ==> showTotals
    ensures o.ValueLabels? <==> showTotals && LibraryOf(k) == Plotly
    ensures o == CountLabels <==> showTotals && k == Histogram
  {
    if !showTotals then NoOverlay
    else match k
      case Bar => ValueLabels("%{y}", "outside")
      case Line | Scatter | Area => ValueLabels("%{y}", "top center")
      case Histogram => CountLabels
      case Boxplot | Heatmap | Violin => NoOverlay
  }

  /** The user's styling choices from the sidebar. */
  datatype ChartSettings = ChartSettings(
    title: string,
    xLabel: string,
    yLabel: string,
    color: string,
    showTotals: bool)

  /** What a branch hands to the drawing library. */
  datatype Figure = Figure(
    kind: ChartKind,
    library: Library,
    /** the axis columns the branch passes, in argument order */
    columns: seq<string>,
    /** the branch hands the library the whole table (the heatmap's `data.corr()`) */
    wholeTable: bool,
    title: string,
    /** the text shown on each axis, when the branch sets one */
    xAxisTitle: Option<string>,
    yAxisTitle: Option<string>,
    /** the single mark colour, when the branch uses one */
    color: Option<string>,
    /** the histogram's bin count */
    bins: Option<nat>,
    overlay: Overlay)

  /**
   * The chart drawn for a chart type and the two axis columns. Nothing is
   * drawn when either column is empty (falsy) or the label names no branch.
   */
  function Render(chartType: string, x: string, y: string, s: ChartSettings): (f: Option<Figure>)
    ensures f.Some? <==> x != "" && y != "" && chartType in ChartTypeOptions
    ensures f.Some? ==> Label(f.value.kind) == chartType
    ensures f.Some? ==> f.value.library == LibraryOf(f.value.kind) && f.value.title == s.title
    ensures f.Some? ==> f.value.overlay == TotalsOverlay(f.value.kind, s.showTotals)
    ensures f.Some? ==> (f.value.wholeTable <==> f.value.kind == Heatmap)
  {
    if x == "" || y == "" then None
    else match KindOf(chartType)
      case None => None
      case Some(k) =>
        var overlay := TotalsOverlay(k, s.showTotals);
        match k
        case Line | Bar | Scatter | Area =>
          // `labels={x_axis_col: x_axis_label, y_axis_col: y_axis_label}`
          var labels := map[x := s.xLabel][y := s.yLabel];
          Some(Figure(k, Plotly, [x, y], false, s.title, Some(labels[x]), Some(labels[y]), Some(s.color), None, overlay))
        case Histogram =>
          Some(Figure(k, Matplotlib, [y], false, s.title, Some(s.xLabel), Some(s.yLabel), Some(s.color), Some(30), overlay))
        case Boxplot | Violin =>
          Some(Figure(k, Matplotlib, [x, y], false, s.title, Some(s.xLabel), Some(s.yLabel), Some(s.color), None, overlay))
        case Heatmap =>
          Some(Figure(k, Matplotlib, [], true, s.title, None, None, None, None, overlay))
  }

  /**
   * Line 205: whether the chart is offered as an HTML download. It is offered
   * exactly for the plotly charts, so `pio.write_html` is only ever given a
   * plotly figure.
   */
  function OffersHtmlExport(chartType: string): (b: bool)
    ensures b <==> KindOf(chartType).Some? && LibraryOf(KindOf(chartType).value) == Plotly
  {
    chartType in HtmlExportTypes
  }

  /** A download button the page shows under the chart. */
  datatype Download = Download(fileName: string, mime: string)

  /**
   * The download buttons, in page order, once both axis columns are chosen.
   * `drawn` says whether the branch's drawing call returned: when it raised,
   * the page jumps to the handler at line 251 and shows no button.
   */
  function Downloads(chartType: string, x: string, y: string, drawn: bool): (d: seq<Download>)
    ensures x == "" || y == "" || !drawn ==> d == []
    ensures x != "" && y != "" && drawn ==> |d| > 0 && d[|d| - 1] == Download("dados_filtrados.csv", "text/csv")
    ensures Download("grafico.html", "text/html") in d <==> x != "" && y != "" && drawn && OffersHtmlExport(chartType)
    ensures x != "" && y != "" && drawn ==> |d| == (if OffersHtmlExport(chartType) then 2 else 1)
    ensures x != "" && y != "" && drawn && OffersHtmlExport(chartType) ==> d[0] == Download("grafico.html", "text/html")
  {
    if x == "" || y == "" || !drawn then []
    else
      (if OffersHtmlExport(chartType) then [Download("grafico.html", "text/html")] else [])
      + [Download("dados_filtrados.csv", "text/csv")]
  }

  /** Every option of the select box selects its own branch, and the options are distinct. */
  lemma OptionsSelectBranches()
    ensures |ChartTypeOptions| == 8
    ensures forall i | 0 <= i < |ChartTypeOptions| ::
      KindOf(ChartTypeOptions[i]).Some? && Label(KindOf(ChartTypeOptions[i]).value) == ChartTypeOptions[i]
    ensures forall k: ChartKind :: KindOf(Label(k)) == Some(k)
  {
  }

  /**
   * `show_totals` puts `%{y}` value labels on exactly the plotly charts, outside
   * the bar for Barra and centred above the point otherwise; the histogram gets
   * counts; box plot, heatmap and violin get nothing.
   */
  lemma OverlayPlacement(k: ChartKind)
    ensures TotalsOverlay(k, false) == NoOverlay
    ensures TotalsOverlay(k, true).ValueLabels? <==> LibraryOf(k) == Plotly
    ensures TotalsOverlay(k, true).ValueLabels? ==> TotalsOverlay(k, true).template == "%{y}"
    ensures TotalsOverlay(k, true) == ValueLabels("%{y}", "outside") <==> k == Bar
    ensures TotalsOverlay(k, true) == ValueLabels("%{y}", "top center") <==> k in {Line, Scatter, Area}
    ensures TotalsOverlay(k, true) == CountLabels <==> k == Histogram
    ensures TotalsOverlay(k, true) == NoOverlay <==> k in {Boxplot, Heatmap, Violin}
  {
  }

  /**
   * The heatmap takes no axis column, label or colour: only the title reaches
   * it, and it is handed the whole table.
   */
  lemma HeatmapIgnoresAxesAndColor(x1: string, y1: string, s1: ChartSettings,
                                   x2: string, y2: string, s2: ChartSettings)
    requires x1 != "" && y1 != "" && x2 != "" && y2 != ""
    requires s1.title == s2.title
    ensures Render("Heatmap", x1, y1, s1) == Render("Heatmap", x2, y2, s2)
    ensures Render("Heatmap", x1, y1, s1).value.columns == []
    ensures Render("Heatmap", x1, y1, s1).value.wholeTable
  {
  }

  /** The histogram draws only the y column, in 30 bins. */
  lemma HistogramReadsOnlyY(x1: string, x2: string, y: string, s: ChartSettings)
    requires x1 != "" && x2 != "" && y != ""
    ensures Render("Histograma", x1, y, s) == Render("Histograma", x2, y, s)
    ensures Render("Histograma", x1, y, s).value.columns == [y]
    ensures Render("Histograma", x1, y, s).value.bins == Some(30)
  {
  }

  /**
   * On a plotly chart whose two axes are the same column, the labels
   * dictionary keeps only its last entry: both axes show the y label.
   */
  lemma SameColumnShowsYLabel(chartType: string, x: string, s: ChartSettings)
    requires x != "" && chartType in HtmlExportTypes
    ensures Render(chartType, x, x, s).value.xAxisTitle == Some(s.yLabel)
    ensures Render(chartType, x, x, s).value.yAxisTitle == Some(s.yLabel)
  {
  }
}
