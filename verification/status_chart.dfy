/**
 * The processing-status doughnut chart: turns a status histogram into the
 * chart's labels, values and colours, or into the "no data" state.
 *
 * A histogram is a JavaScript object used as a record from status key to
 * count; its keys are enumerated in insertion order, so it is modelled as a
 * sequence of entries in that order.
 */
module StatusChart {
  import opened Types

  datatype Entry = Entry(key: string, count: nat)

  /** No key appears in two entries. */
  predicate DistinctKeys(h: seq<Entry>) {
    forall i, j :: 0 <= i < j < |h| ==> h[i].key != h[j].key
  }

  /** The sum of the counts. */
  function Total(h: seq<Entry>): nat {
    if |h| == 0 then 0 else h[0].count + Total(h[1..])
  }

  datatype ChartView =
    | NoData
    | Doughnut(labels: seq<string>, values: seq<nat>, colors: seq<string>)

  const NeutralColor: string := "#64748b"

  /** ASCII upper case of a character; other characters are kept. */
  function UpperChar(c: char): char {
    if 'a' <= c <= 'z' then (c as int - 32) as char else c
  }

  /** The word with its first letter in upper case. */
  function Capitalize(w: string): string {
    if |w| == 0 then w else [UpperChar(w[0])] + w[1..]
  }

  /** The legend text for a status key: a known key capitalised, any other key as it is. */
  function StatusLabel(key: string): (r: string)
    ensures ProcessingStatus.FromKey(key).Some? ==> r == Capitalize(key)
    ensures ProcessingStatus.FromKey(key).None? ==> r == key
  {
    match key
    case "pending" => "Pending"
    case "processing" => "Processing"
    case "completed" => "Completed"
    case "error" => "Error"
    case _ => key
  }

  /** The slice colour for a status key; any other key is drawn in slate grey. */
  function StatusColor(key: string): (r: string)
    ensures ProcessingStatus.FromKey(key).None? <==> r == NeutralColor
    ensures key == "pending" ==> r == "#f59e0b"
    ensures key == "processing" ==> r == "#0066cc"
    ensures key == "completed" ==> r == "#10b981"
    ensures key == "error" ==> r == "#ef4444"
  {
    match key
    case "pending" => "#f59e0b"
    case "processing" => "#0066cc"
    case "completed" => "#10b981"
    case "error" => "#ef4444"
    case _ => NeutralColor
  }

  /** The four statuses are drawn in four different colours. */
  lemma StatusColorsDistinct(s: ProcessingStatus, t: ProcessingStatus)
    ensures s != t ==> StatusColor(s.Key()) != StatusColor(t.Key())
  {
  }

  /**
   * The chart for a histogram: nothing to draw when it has no keys, else one
   * label, one value and one colour per key, all in the histogram's key order.
   */
  function Chart(h: seq<Entry>): (v: ChartView)
    ensures v.NoData? <==> |h| == 0
    ensures v.Doughnut? ==>
      && |v.labels| == |h| && |v.values| == |h| && |v.colors| == |h|
      && (forall i :: 0 <= i < |h| ==> v.labels[i] == StatusLabel(h[i].key))
      && (forall i :: 0 <= i < |h| ==> v.values[i] == h[i].count)
      && (forall i :: 0 <= i < |h| ==> v.colors[i] == StatusColor(h[i].key))
  {
    if |h| == 0 then NoData
    else Doughnut(
      seq(|h|, i requires 0 <= i < |h| => StatusLabel(h[i].key)),
      seq(|h|, i requires 0 <= i < |h| => h[i].count),
      seq(|h|, i requires 0 <= i < |h| => StatusColor(h[i].key)))
  }

  /** Sum of a sequence of counts. */
  function SumOf(xs: seq<nat>): nat {
    if |xs| == 0 then 0 else xs[0] + SumOf(xs[1..])
  }

  /** The slices of a drawn chart add up to the histogram's total. */
  lemma {:induction false} ChartPreservesTotal(h: seq<Entry>)
    requires |h| > 0
    ensures SumOf(Chart(h).values) == Total(h)
  {
    ValuesTotal(h, Chart(h).values);
  }

  lemma {:induction false} ValuesTotal(h: seq<Entry>, xs: seq<nat>)
    requires |xs| == |h|
    requires forall i :: 0 <= i < |h| ==> xs[i] == h[i].count
    ensures SumOf(xs) == Total(h)
    decreases |h|
  {
    if |h| > 0 {
      ValuesTotal(h[1..], xs[1..]);
    }
  }
}
