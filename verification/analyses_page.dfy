/**
 * The analyses list page: the data-quality colour classes, the dataset
 * reference shown on each card, and the header count label.
 */
module AnalysesPage {
  import opened Wrappers
  import opened Types
  import Text
  import References

  const NeutralQuality: string := "text-secondary-600 bg-secondary-100"

  /** The colour classes for a data-quality key, which may be absent. */
  function QualityColor(quality: Option<string>): (r: string)
    ensures quality.Some? && quality.value == "excellent" ==> r == "text-success bg-success/10"
    ensures quality.Some? && quality.value == "good" ==> r == "text-blue-600 bg-blue-100"
    ensures quality.Some? && quality.value == "fair" ==> r == "text-warning bg-warning/10"
    ensures quality.Some? && quality.value == "poor" ==> r == "text-error bg-error/10"
    ensures r == NeutralQuality <==> quality.None? || DataQuality.FromKey(quality.value).None?
  {
    match quality
    case Some("excellent") => "text-success bg-success/10"
    case Some("good") => "text-blue-600 bg-blue-100"
    case Some("fair") => "text-warning bg-warning/10"
    case Some("poor") => "text-error bg-error/10"
    case _ => NeutralQuality
  }

  /** The four quality grades get four different colours, none of them the neutral one. */
  lemma QualityColorsDistinct(p: DataQuality, q: DataQuality)
    ensures p != q ==> QualityColor(Some(p.Key())) != QualityColor(Some(q.Key()))
    ensures QualityColor(Some(p.Key())) != NeutralQuality
  {
  }

  /** This page's copy of the dataset reference display. */
  function DatasetDisplayValue(ref: DatasetRef): (r: string)
    ensures r == References.Resolve(ref)
  {
    References.ResolveSpec(ref);
    match ref
    case ByKey(key) => key
    case Embedded(d) =>
      if d.meta.datasetId != "" then d.meta.datasetId
      else if d.header.title != "" then d.header.title
      else "Unknown Dataset"
  }

  /**
   * The card's dataset line: shown when the analysis has a reference that is
   * not the empty string, as "Dataset: " and the reference's display value.
   */
  function DatasetLine(a: DataAnalysis): (r: Option<string>)
    ensures r.Some? <==> a.meta.dataset.Some? && a.meta.dataset.value != ByKey("")
    ensures r.Some? ==> r.value == "Dataset: " + References.Resolve(a.meta.dataset.value)
  {
    match a.meta.dataset
    case Some(ref) => if ref == ByKey("") then None else Some("Dataset: " + DatasetDisplayValue(ref))
    case None => None
  }

  /** The quality badge's classes, shown only when the analysis has a quality. */
  function QualityBadge(a: DataAnalysis): (r: Option<string>)
    ensures r.Some? <==> a.meta.dataQuality.Some?
    ensures r.Some? ==> r.value == QualityColor(Some(a.meta.dataQuality.value.key))
    ensures AnalysisConforms(a) && r.Some? ==> r.value != NeutralQuality
  {
    match a.meta.dataQuality
    case Some(q) => Some(QualityColor(Some(q.key)))
    case None => None
  }

  /** The header label as written: "analysis" with "es" appended unless there is exactly one. */
  function CountLabelAsWritten(n: nat): (r: string)
    ensures n == 1 ==> r == "1 analysis total"
    ensures n != 1 ==> r == Text.NatToString(n) + " analysises total"
  {
    var rest := " analysis" + (if n != 1 then "es" else "") + " total";
    assert n != 1 ==> rest == " analysises total";
    assert n == 1 ==> rest == " analysis total" && Text.NatToString(n) == "1";
    Text.NatToString(n) + rest
  }

  /** The as-written label misspells the plural: two analyses read "2 analysises total". */
  lemma CountLabelMisspellsPlural()
    ensures CountLabelAsWritten(2) == "2 analysises total"
    ensures CountLabelAsWritten(2) != CountLabel(2)
  {
    var num := Text.NatToString(2);
    assert num == "2";
    assert CountLabelAsWritten(2) == num + " analysises total";
    assert CountLabel(2) == num + " analyses total";
    assert |CountLabelAsWritten(2)| == |num| + 17 && |CountLabel(2)| == |num| + 15;
  }

  lemma AnalysisPlural()
    ensures Text.PluralNoun("analysis") == "analyses"
  {
    assert "analysis"[6..] == "is";
    assert "analysis"[..6] + "es" == "analyses";
  }

  /** The header label with the plural spelt "analyses", as the other pages inflect their nouns. */
  function CountLabel(n: nat): (r: string)
    ensures r == Text.Inflect(n, "analysis") + " total"
    ensures n != 1 ==> r == Text.NatToString(n) + " analyses total"
  {
    var noun := if n == 1 then "analysis" else "analyses";
    AnalysisPlural();
    Text.NatToString(n) + " " + noun + " total"
  }

  /** The label starts with the count it reports. */
  lemma CountLabelReadsBack(n: nat)
    ensures Text.CountOfLabel(CountLabel(n)) == n
  {
    Text.InflectCount(n, "analysis", " total");
  }
}
