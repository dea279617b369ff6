/**
 * The datasets list page: the processing-status badge classes, the
 * files-present line and the header count label.
 */
module DatasetsPage {
  import opened Wrappers
  import opened Types
  import Text
  import opened ObjectTable

  /** The classes the page's table lists for a processing-status key. */
  function StatusClasses(status: string): (r: Option<string>)
    ensures r.Some? <==> ProcessingStatus.FromKey(status).Some?
    ensures r.Some? ==> r.value == BadgeBase + " status-" + status && status !in InheritedNames
  {
    match status
    case "pending" => Some("status-badge status-pending")
    case "processing" => Some("status-badge status-processing")
    case "completed" => Some("status-badge status-completed")
    case "error" => Some("status-badge status-error")
    case _ => None
  }

  /**
   * The badge classes for a processing-status key: a known status gets its
   * own classes, a key naming an inherited object property gets that
   * property, and any other key gets the bare base class.
   */
  function StatusBadge(status: string): (r: Found<string>)
    ensures ProcessingStatus.FromKey(status).Some? ==> r == Listed(BadgeBase + " status-" + status)
    ensures ProcessingStatus.FromKey(status).None? && status !in InheritedNames ==> r == Listed(BadgeBase)
    ensures r.Inherited? <==> status in InheritedNames
    ensures r.Inherited? ==> r.name == status
  {
    OrElse(StatusClasses(status), status, BadgeBase)
  }

  /**
   * Every badge of a key that names no inherited property starts with the
   * base class, and a known status can be read back from its badge, so
   * different statuses get different badges.
   */
  lemma StatusBadgeShape(status: string)
    ensures StatusBadge(status).Listed? <==> status !in InheritedNames
    ensures StatusBadge(status).Listed? ==>
      var b := StatusBadge(status).value;
      |b| >= |BadgeBase| && b[..|BadgeBase|] == BadgeBase
    ensures ProcessingStatus.FromKey(status).Some? ==>
      StatusBadge(status).value[|BadgeBase + " status-"|..] == status
  {
  }

  /**
   * The badge shown on a dataset card, present only when the dataset has a
   * status; a status the schema allows always gets its own classes.
   */
  function CardBadge(d: Dataset): (r: Option<Found<string>>)
    ensures r.Some? <==> d.meta.processingStatus.Some?
    ensures r.Some? ==> r.value == StatusBadge(d.meta.processingStatus.value.key)
    ensures DatasetConforms(d) && r.Some? ==> r.value.Listed? && r.value.value != BadgeBase
  {
    match d.meta.processingStatus
    case Some(s) => Some(StatusBadge(s.key))
    case None => None
  }

  /**
   * The files line: shown only for a non-empty list, giving the number of
   * files ("file" for one, "files" otherwise) and the names joined by ", ".
   */
  function FilesLine(files: Option<seq<string>>): (r: Option<string>)
    ensures r.Some? <==> files.Some? && |files.value| > 0
    ensures r.Some? ==> r.value == Text.Inflect(|files.value|, "file") + " present: " + Text.Join(files.value, ", ")
  {
    match files
    case Some(names) =>
      if |names| > 0 then
        Some(Text.NatToString(|names|) + " file" + (if |names| != 1 then "s" else "") + " present: " + Text.Join(names, ", "))
      else None
    case None => None
  }

  /**
   * The files line starts with the number of files it lists, and the
   * names follow the fixed " present: " in stored order.
   */
  lemma FilesLineReadsBack(names: seq<string>)
    requires |names| > 0
    ensures FilesLine(Some(names)).Some?
    ensures Text.CountOfLabel(FilesLine(Some(names)).value) == |names|
    ensures var line := FilesLine(Some(names)).value;
      var head := Text.Inflect(|names|, "file") + " present: ";
      |line| >= |head| && line[|head|..] == Text.Join(names, ", ")
  {
    var phrase := Text.Inflect(|names|, "file");
    var joined := Text.Join(names, ", ");
    var line := FilesLine(Some(names)).value;
    assert line == phrase + " present: " + joined;
    assert line == phrase + (" present: " + joined);
    Text.InflectCount(|names|, "file", " present: " + joined);
    assert line[|phrase + " present: "|..] == joined;
  }

  /** The header label: "dataset" with "s" appended unless there is exactly one. */
  function CountLabel(n: nat): (r: string)
    ensures r == Text.Inflect(n, "dataset") + " total"
    ensures n != 1 ==> r == Text.NatToString(n) + " datasets total"
  {
    Text.NatToString(n) + " dataset" + (if n != 1 then "s" else "") + " total"
  }

  /** The label starts with the count it reports. */
  lemma CountLabelReadsBack(n: nat)
    ensures Text.CountOfLabel(CountLabel(n)) == n
  {
    Text.InflectCount(n, "dataset", " total");
  }
}
