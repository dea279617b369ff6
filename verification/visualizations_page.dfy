/**
 * The visualizations list page: the chart-type icons, the dataset
 * reference, the chart image address, the libraries row and the header
 * count label.
 */
module VisualizationsPage {
  import opened Wrappers
  import opened Types
  import Text
  import References
  import AnalysesPage
  import opened ObjectTable

  const LinePlotIcon: string := "\U{1F4C8}"
  const ScatterPlotIcon: string := "\U{1F538}"
  const PieChartIcon: string := "\U{1F967}"
  const BarChartIcon: string := "\U{1F4CA}"
  const HeatmapIcon: string := "\U{1F321}\U{FE0F}"
  const InteractiveIcon: string := "\U{1F3AE}"

  /** The icons the page's table lists for a chart-type key. */
  function ChartIcons(chartType: string): (r: Option<string>)
    ensures r.Some? <==> ChartType.FromKey(chartType).Some?
    ensures r.Some? ==> chartType !in InheritedNames
    ensures chartType == "line_plot" ==> r == Some(LinePlotIcon)
    ensures chartType == "scatter_plot" ==> r == Some(ScatterPlotIcon)
    ensures chartType == "pie_chart" ==> r == Some(PieChartIcon)
    ensures chartType == "bar_chart" ==> r == Some(BarChartIcon)
    ensures chartType == "heatmap" ==> r == Some(HeatmapIcon)
    ensures chartType == "interactive" ==> r == Some(InteractiveIcon)
  {
    match chartType
    case "line_plot" => Some(LinePlotIcon)
    case "scatter_plot" => Some(ScatterPlotIcon)
    case "pie_chart" => Some(PieChartIcon)
    case "bar_chart" => Some(BarChartIcon)
    case "heatmap" => Some(HeatmapIcon)
    case "interactive" => Some(InteractiveIcon)
    case _ => None
  }

  /**
   * The icon for a chart-type key: a key naming an inherited object
   * property gets that property, and any other unknown key gets the
   * bar-chart icon.
   */
  function ChartTypeIcon(chartType: string): (r: Found<string>)
    ensures ChartIcons(chartType).Some? ==> r == Listed(ChartIcons(chartType).value)
    ensures ChartType.FromKey(chartType).None? && chartType !in InheritedNames ==> r == Listed(BarChartIcon)
    ensures r.Inherited? <==> chartType in InheritedNames
    ensures r.Inherited? ==> r.name == chartType
  {
    OrElse(ChartIcons(chartType), chartType, BarChartIcon)
  }

  /**
   * The six chart types have six different icons, so the icon names the
   * type; an unknown key shares its icon with the bar chart only.
   */
  lemma ChartTypeIconsDistinct(s: ChartType, t: ChartType)
    ensures s != t ==> ChartTypeIcon(s.Key()) != ChartTypeIcon(t.Key())
    ensures ChartTypeIcon("") == ChartTypeIcon(BarChart.Key())
    ensures s != BarChart ==> ChartTypeIcon(s.Key()) != ChartTypeIcon("")
  {
  }

  /** This page's copy of the dataset reference display. */
  function DatasetDisplayValue(ref: DatasetRef): (r: string)
    ensures r == References.Resolve(ref)
  {
    References.ResolveSpec(ref);
    match ref
    case ByKey(key) => key
    case Embedded(d) =>
      if d.meta.datasetId != "" then d.meta.datasetId
      else if d.header.title != "" then d.header.title
      else "Unknown Dataset"
  }

  /** The two pages' copies of the reference display agree on every reference. */
  lemma DisplayCopiesAgree(ref: DatasetRef)
    ensures DatasetDisplayValue(ref) == AnalysesPage.DatasetDisplayValue(ref)
  {
  }

  /**
   * The card's dataset line: shown when the visualization has a related
   * dataset that is not the empty string, as "Dataset: " and its display value.
   */
  function DatasetLine(v: Visualization): (r: Option<string>)
    ensures r.Some? <==> v.meta.relatedDataset.Some? && v.meta.relatedDataset.value != ByKey("")
    ensures r.Some? ==> r.value == "Dataset: " + References.Resolve(v.meta.relatedDataset.value)
  {
    match v.meta.relatedDataset
    case Some(ref) => if ref == ByKey("") then None else Some("Dataset: " + DatasetDisplayValue(ref))
    case None => None
  }

  const ImageParams: string := "?w=600&h=400&fit=crop&auto=format,compress"

  /** The chart image's address: the CDN address with the resize parameters appended. */
  function ChartImageSrc(v: Visualization): (r: Option<string>)
    ensures r.Some? <==> v.meta.chartImage.Some?
    ensures r.Some? ==> |r.value| == |v.meta.chartImage.value.imgixUrl| + |ImageParams|
    ensures r.Some? ==> r.value[..|v.meta.chartImage.value.imgixUrl|] == v.meta.chartImage.value.imgixUrl
    ensures r.Some? ==> r.value[|v.meta.chartImage.value.imgixUrl|..] == ImageParams
  {
    match v.meta.chartImage
    case Some(image) => Some(image.imgixUrl + ImageParams)
    case None => None
  }

  /** The libraries row: the stored names in stored order, shown only when there are some. */
  function Libraries(v: Visualization): (r: Option<seq<string>>)
    ensures r.Some? <==> v.meta.librariesUsed.Some? && |v.meta.librariesUsed.value| > 0
    ensures r.Some? ==> r.value == v.meta.librariesUsed.value
  {
    match v.meta.librariesUsed
    case Some(libs) => if |libs| > 0 then Some(libs) else None
    case None => None
  }

  /**
   * The icon next to the title, shown only when the chart type is set; a
   * chart type the schema allows gets its own icon, which no other chart
   * type shares.
   */
  function CardIcon(v: Visualization): (r: Option<Found<string>>)
    ensures r.Some? <==> v.meta.chartType.Some?
    ensures r.Some? ==> r.value == ChartTypeIcon(v.meta.chartType.value.key)
    ensures VisualizationConforms(v) && r.Some? ==>
      && r.value.Listed?
      && r.value == ChartTypeIcon(ChartType.FromKey(v.meta.chartType.value.key).value.Key())
      && forall t: ChartType :: t.Key() != v.meta.chartType.value.key ==> ChartTypeIcon(t.Key()) != r.value
  {
    match v.meta.chartType
    case Some(t) => Some(ChartTypeIcon(t.key))
    case None => None
  }

  /** The header label: "visualization" with "s" appended unless there is exactly one. */
  function CountLabel(n: nat): (r: string)
    ensures r == Text.Inflect(n, "visualization") + " total"
    ensures n != 1 ==> r == Text.NatToString(n) + " visualizations total"
  {
    VisualizationPlural();
    Text.NatToString(n) + " visualization" + (if n != 1 then "s" else "") + " total"
  }

  lemma VisualizationPlural()
    ensures Text.PluralNoun("visualization") == "visualizations"
  {
    assert "visualization"[11..] == "on";
  }

  /** The label starts with the count it reports. */
  lemma CountLabelReadsBack(n: nat)
    ensures Text.CountOfLabel(CountLabel(n)) == n
  {
    Text.InflectCount(n, "visualization", " total");
  }
}
