/**
 * The "recent items" list: an empty-list placeholder, or one linked row per
 * item with its title and a subtitle taken from the item's select field.
 */
module RecentItems {
  import opened Wrappers
  import opened Types
  import Text

  /** The list's `type` property: which section the rows link into. */
  datatype RecentKind = RecentAnalyses | RecentVisualizations | RecentNotes {
    function Name(): string {
      match this
      case RecentAnalyses => "analyses"
      case RecentVisualizations => "visualizations"
      case RecentNotes => "notes"
    }

    static function FromName(name: string): (r: Option<RecentKind>)
      ensures r.Some? ==> r.value.Name() == name
    {
      match name
      case "analyses" => Some(RecentAnalyses)
      case "visualizations" => Some(RecentVisualizations)
      case "notes" => Some(RecentNotes)
      case _ => None
    }
  }

  /** An element of the list: an analysis, a visualization or a research note. */
  datatype Item = AnalysisItem(a: DataAnalysis) | VisualizationItem(v: Visualization) | NoteItem(n: ResearchNote) {
    function Header(): Header {
      match this
      case AnalysisItem(a) => a.header
      case VisualizationItem(v) => v.header
      case NoteItem(n) => n.header
    }
  }

  datatype Row = Row(href: string, title: string, subtitle: string)

  datatype RecentView = Placeholder(text: string) | Rows(rows: seq<Row>)

  /** The link target of a row: every branch of the switch builds the same shape. */
  function ItemPath(kind: RecentKind, slug: string): (r: string)
    ensures r == "/" + kind.Name() + "/" + slug
  {
    match kind
    case RecentAnalyses => "/analyses/" + slug
    case RecentVisualizations => "/visualizations/" + slug
    case RecentNotes => "/notes/" + slug
  }

  /** Reads a row's link back into the section and the slug. */
  function ParsePath(p: string): Option<(RecentKind, string)> {
    if |p| == 0 || p[0] != '/' then None
    else match Text.IndexOfFrom(p, "/", 1)
      case None => None
      case Some(j) =>
        match RecentKind.FromName(p[1..j])
        case None => None
        case Some(kind) => Some((kind, p[j + 1..]))
  }

  lemma NameHasNoSlash(kind: RecentKind)
    ensures forall k :: 0 <= k < |kind.Name()| ==> kind.Name()[k] != '/'
  {
  }

  /**
   * A link determines its row's section and slug: the path is read back to
   * exactly what built it, so different items never share a link.
   */
  lemma {:induction false} ItemPathRoundTrip(kind: RecentKind, slug: string)
    ensures ParsePath(ItemPath(kind, slug)) == Some((kind, slug))
  {
    var p := ItemPath(kind, slug);
    var name := kind.Name();
    var j := 1 + |name|;
    NameHasNoSlash(kind);
    assert p[j..j + 1] == "/";
    assert Text.Occurs(p, "/", j);
    forall k | 1 <= k < j
      ensures !Text.Occurs(p, "/", k)
    {
      assert p[k] == name[k - 1];
      assert p[k..k + 1] == [p[k]];
    }
    var found := Text.IndexOfFrom(p, "/", 1);
    assert found == Some(j);
    assert p[1..j] == name;
    assert p[j + 1..] == slug;
    assert RecentKind.FromName(name) == Some(kind) by {
      match kind
      case RecentAnalyses =>
      case RecentVisualizations =>
      case RecentNotes =>
    }
  }

  /** `field?.value || fallback`: the label when present and non-empty. */
  function LabelOr(field: Option<KeyValue>, fallback: string): (r: string)
    ensures field.Some? && field.value.value != "" ==> r == field.value.value
    ensures field.None? || field.value.value == "" ==> r == fallback
  {
    if field.Some? && field.value.value != "" then field.value.value else fallback
  }

  /**
   * The subtitle as the component computes it: dispatched on the item's own
   * `type` field, with the empty string when that field names none of the
   * three kinds (or is missing).
   */
  function ItemSubtitle(item: Item): (r: string)
    ensures item.Header().typeTag == Some("data-analyses") ==>
      r == (if item.AnalysisItem? then LabelOr(item.a.meta.analysisType, "Analysis") else "Analysis")
    ensures item.Header().typeTag == Some("visualizations") ==>
      r == (if item.VisualizationItem? then LabelOr(item.v.meta.chartType, "Visualization") else "Visualization")
    ensures item.Header().typeTag == Some("research-notes") ==>
      r == (if item.NoteItem? then LabelOr(item.n.meta.noteType, "Note") else "Note")
    ensures item.Header().typeTag !in {Some("data-analyses"), Some("visualizations"), Some("research-notes")} ==>
      r == ""
  {
    var tag := item.Header().typeTag;
    if tag == Some("data-analyses") then
      (match item
       case AnalysisItem(a) => LabelOr(a.meta.analysisType, "Analysis")
       case _ => "Analysis")
    else if tag == Some("visualizations") then
      (match item
       case VisualizationItem(v) => LabelOr(v.meta.chartType, "Visualization")
       case _ => "Visualization")
    else if tag == Some("research-notes") then
      (match item
       case NoteItem(n) => LabelOr(n.meta.noteType, "Note")
       case _ => "Note")
    else ""
  }

  /**
   * The subtitle dispatched on the list's own kind instead of the item's
   * `type` field, which a property-restricted fetch does not return.
   */
  function KindSubtitle(kind: RecentKind, item: Item): (r: string)
    ensures r != ""
    ensures kind == RecentAnalyses && item.AnalysisItem? ==> r == LabelOr(item.a.meta.analysisType, "Analysis")
    ensures kind == RecentVisualizations && item.VisualizationItem? ==> r == LabelOr(item.v.meta.chartType, "Visualization")
    ensures kind == RecentNotes && item.NoteItem? ==> r == LabelOr(item.n.meta.noteType, "Note")
  {
    match kind
    case RecentAnalyses =>
      (match item
       case AnalysisItem(a) => LabelOr(a.meta.analysisType, "Analysis")
       case _ => "Analysis")
    case RecentVisualizations =>
      (match item
       case VisualizationItem(v) => LabelOr(v.meta.chartType, "Visualization")
       case _ => "Visualization")
    case RecentNotes =>
      (match item
       case NoteItem(n) => LabelOr(n.meta.noteType, "Note")
       case _ => "Note")
  }

  /** The item's `type` field is present and names the list's own kind. */
  predicate Tagged(kind: RecentKind, item: Item) {
    match kind
    case RecentAnalyses => item.AnalysisItem? && item.Header().typeTag == Some("data-analyses")
    case RecentVisualizations => item.VisualizationItem? && item.Header().typeTag == Some("visualizations")
    case RecentNotes => item.NoteItem? && item.Header().typeTag == Some("research-notes")
  }

  /** Where an item's `type` field is present and right, both subtitles agree. */
  lemma SubtitlesAgreeOnTaggedItems(kind: RecentKind, item: Item)
    requires Tagged(kind, item)
    ensures ItemSubtitle(item) == KindSubtitle(kind, item)
  {
  }

  /**
   * An item fetched without its `type` field gets the empty subtitle from
   * the component as written, whatever its select field holds.
   */
  lemma UntaggedItemLosesSubtitle(a: DataAnalysis)
    requires a.header.typeTag.None?
    ensures ItemSubtitle(AnalysisItem(a)) == ""
    ensures KindSubtitle(RecentAnalyses, AnalysisItem(a)) != ""
  {
  }

  /** The list laid out with a given subtitle rule. */
  function Layout(items: Option<seq<Item>>, kind: RecentKind, subtitle: Item -> string): (v: RecentView)
    ensures v.Placeholder? <==> items.None? || |items.value| == 0
    ensures v.Placeholder? ==> v.text == "No " + kind.Name() + " available"
    ensures v.Rows? ==> |v.rows| == |items.value|
    ensures v.Rows? ==> forall i :: 0 <= i < |v.rows| ==>
      && v.rows[i].href == "/" + kind.Name() + "/" + items.value[i].Header().slug
      && v.rows[i].title == items.value[i].Header().title
      && v.rows[i].subtitle == subtitle(items.value[i])
  {
    if items.None? || |items.value| == 0 then Placeholder("No " + kind.Name() + " available")
    else
      var xs := items.value;
      Rows(seq(|xs|, i requires 0 <= i < |xs| =>
        Row(ItemPath(kind, xs[i].Header().slug), xs[i].Header().title, subtitle(xs[i]))))
  }

  /**
   * The component as written: the placeholder "No <kind> available" for an
   * absent or empty list, otherwise one row per item, in the given order,
   * with the subtitle dispatched on the item's own `type` field.
   */
  function Render(items: Option<seq<Item>>, kind: RecentKind): (v: RecentView)
    ensures v.Placeholder? <==> items.None? || |items.value| == 0
    ensures v.Placeholder? ==> v.text == "No " + kind.Name() + " available"
    ensures v.Rows? ==> |v.rows| == |items.value|
    ensures v.Rows? ==> forall i :: 0 <= i < |v.rows| ==>
      && v.rows[i].href == "/" + kind.Name() + "/" + items.value[i].Header().slug
      && v.rows[i].title == items.value[i].Header().title
      && v.rows[i].subtitle == ItemSubtitle(items.value[i])
  {
    Layout(items, kind, ItemSubtitle)
  }

  /** The corrected component: the same list, with the subtitle chosen by the list's kind. */
  function RenderCorrected(items: Option<seq<Item>>, kind: RecentKind): (v: RecentView)
    ensures v.Placeholder? <==> items.None? || |items.value| == 0
    ensures v.Placeholder? ==> v.text == "No " + kind.Name() + " available"
    ensures v.Rows? ==> |v.rows| == |items.value|
    ensures v.Rows? ==> forall i :: 0 <= i < |v.rows| ==>
      && v.rows[i].href == "/" + kind.Name() + "/" + items.value[i].Header().slug
      && v.rows[i].title == items.value[i].Header().title
      && v.rows[i].subtitle == KindSubtitle(kind, items.value[i]) && v.rows[i].subtitle != ""
  {
    Layout(items, kind, item => KindSubtitle(kind, item))
  }

  /**
   * When every item carries its `type` field and it names the list's kind,
   * the component as written and the corrected one draw the same list.
   */
  lemma {:induction false} RenderAgreesOnTaggedItems(items: seq<Item>, kind: RecentKind)
    requires forall i :: 0 <= i < |items| ==> Tagged(kind, items[i])
    ensures Render(Some(items), kind) == RenderCorrected(Some(items), kind)
  {
    var w := Render(Some(items), kind);
    var c := RenderCorrected(Some(items), kind);
    if |items| > 0 {
      assert |w.rows| == |c.rows|;
      forall i | 0 <= i < |items| ensures w.rows[i] == c.rows[i] {
        SubtitlesAgreeOnTaggedItems(kind, items[i]);
      }
    }
  }
}
