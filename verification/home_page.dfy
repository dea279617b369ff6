/**
 * The dashboard's home page: the processing-status histogram of the
 * datasets, the four statistics cards and the first five analyses in the
 * order the store returns them.
 */
module HomePage {
  import opened Wrappers
  import opened Types
  import opened StatusChart
  import RecentItems
  import Cosmic

  /** `processing_status?.key || 'pending'`: a missing or empty key counts as pending. */
  function EffectiveStatus(d: Dataset): (k: string)
    ensures k != ""
    ensures d.meta.processingStatus.None? ==> k == "pending"
    ensures d.meta.processingStatus.Some? && d.meta.processingStatus.value.key != "" ==>
      k == d.meta.processingStatus.value.key
    ensures d.meta.processingStatus.Some? && d.meta.processingStatus.value.key == "" ==> k == "pending"
  {
    if d.meta.processingStatus.Some? && d.meta.processingStatus.value.key != "" then
      d.meta.processingStatus.value.key
    else "pending"
  }

  /** The count recorded for `k`, or 0 when `k` is not a key. */
  function CountIn(h: seq<Entry>, k: string): nat {
    if |h| == 0 then 0 else if h[0].key == k then h[0].count else CountIn(h[1..], k)
  }

  /** The keys of a histogram. */
  function KeysOf(h: seq<Entry>): set<string> {
    if |h| == 0 then {} else {h[0].key} + KeysOf(h[1..])
  }

  /** `acc[k] = (acc[k] || 0) + 1`: bump an existing key in place, or append a new one. */
  function Bump(h: seq<Entry>, k: string): seq<Entry> {
    if |h| == 0 then [Entry(k, 1)]
    else if h[0].key == k then [Entry(k, h[0].count + 1)] + h[1..]
    else [h[0]] + Bump(h[1..], k)
  }

  /** The `reduce` over the datasets, in store order. */
  function ProcessingStats(ds: seq<Dataset>): seq<Entry> {
    if |ds| == 0 then [] else Bump(ProcessingStats(ds[..|ds| - 1]), EffectiveStatus(ds[|ds| - 1]))
  }

  /** How many datasets have effective status `k`. */
  function Occurrences(ds: seq<Dataset>, k: string): nat {
    if |ds| == 0 then 0
    else Occurrences(ds[..|ds| - 1], k) + (if EffectiveStatus(ds[|ds| - 1]) == k then 1 else 0)
  }

  /** The histogram invariant the fold keeps: distinct keys, each counted at least once. */
  predicate WellFormed(h: seq<Entry>) {
    |h| == 0 || (h[0].count >= 1 && h[0].key !in KeysOf(h[1..]) && WellFormed(h[1..]))
  }

  lemma {:induction false} KeysOfIndex(h: seq<Entry>, i: nat)
    requires i < |h|
    ensures h[i].key in KeysOf(h)
    decreases i
  {
    if i > 0 {
      KeysOfIndex(h[1..], i - 1);
    }
  }

  /** The recursive invariant, stated position by position. */
  lemma {:induction false} WellFormedByIndex(h: seq<Entry>)
    requires WellFormed(h)
    ensures DistinctKeys(h)
    ensures forall i :: 0 <= i < |h| ==> h[i].count >= 1
    decreases |h|
  {
    if |h| > 0 {
      WellFormedByIndex(h[1..]);
      forall p, q | 0 <= p < q < |h| ensures h[p].key != h[q].key {
        if p == 0 {
          KeysOfIndex(h[1..], q - 1);
        } else {
          assert h[p] == h[1..][p - 1] && h[q] == h[1..][q - 1];
        }
      }
      forall i | 0 <= i < |h| ensures h[i].count >= 1 {
        if i > 0 {
          assert h[i] == h[1..][i - 1];
        }
      }
    }
  }

  lemma {:induction false} BumpKeys(h: seq<Entry>, k: string)
    ensures KeysOf(Bump(h, k)) == KeysOf(h) + {k}
    decreases |h|
  {
    if |h| > 0 {
      if h[0].key == k {
        assert Bump(h, k)[1..] == h[1..];
      } else {
        BumpKeys(h[1..], k);
        assert Bump(h, k)[1..] == Bump(h[1..], k);
      }
    }
  }

  lemma {:induction false} BumpSpec(h: seq<Entry>, k: string)
    requires WellFormed(h)
    ensures WellFormed(Bump(h, k))
    ensures CountIn(Bump(h, k), k) == CountIn(h, k) + 1
    ensures forall j :: j != k ==> CountIn(Bump(h, k), j) == CountIn(h, j)
    ensures Total(Bump(h, k)) == Total(h) + 1
    ensures KeysOf(Bump(h, k)) == KeysOf(h) + {k}
    decreases |h|
  {
    BumpKeys(h, k);
    var b := Bump(h, k);
    if |h| > 0 {
      if h[0].key == k {
        assert b[1..] == h[1..];
      } else {
        BumpSpec(h[1..], k);
        assert b[1..] == Bump(h[1..], k);
      }
    }
  }

  lemma {:induction false} CountInAbsent(h: seq<Entry>, k: string)
    requires k !in KeysOf(h)
    ensures CountIn(h, k) == 0
    decreases |h|
  {
    if |h| > 0 {
      CountInAbsent(h[1..], k);
    }
  }

  lemma {:induction false} CountInPresent(h: seq<Entry>, k: string)
    requires WellFormed(h) && k in KeysOf(h)
    ensures CountIn(h, k) >= 1
    decreases |h|
  {
    if h[0].key != k {
      CountInPresent(h[1..], k);
    }
  }

  /**
   * The histogram of the datasets: keys are distinct and each has count at
   * least one; the count of every key is the number of datasets with that
   * effective status; a key is present exactly when some dataset has that
   * status; and the counts add up to the number of datasets.
   */
  lemma {:induction false} ProcessingStatsSpec(ds: seq<Dataset>)
    ensures WellFormed(ProcessingStats(ds))
    ensures DistinctKeys(ProcessingStats(ds))
    ensures forall i :: 0 <= i < |ProcessingStats(ds)| ==> ProcessingStats(ds)[i].count >= 1
    ensures forall k :: CountIn(ProcessingStats(ds), k) == Occurrences(ds, k)
    ensures forall k :: k in KeysOf(ProcessingStats(ds)) <==> Occurrences(ds, k) > 0
    ensures Total(ProcessingStats(ds)) == |ds|
    decreases |ds|
  {
    var h := ProcessingStats(ds);
    if |ds| > 0 {
      var init := ds[..|ds| - 1];
      ProcessingStatsSpec(init);
      BumpSpec(ProcessingStats(init), EffectiveStatus(ds[|ds| - 1]));
    }
    WellFormedByIndex(h);
    forall k ensures k in KeysOf(h) <==> Occurrences(ds, k) > 0 {
      if k in KeysOf(h) {
        CountInPresent(h, k);
      } else {
        CountInAbsent(h, k);
      }
    }
  }

  /** Datasets with no processing status are all counted under "pending". */
  lemma {:induction false} UnsetCountsAsPending(ds: seq<Dataset>)
    ensures CountIn(ProcessingStats(ds), "pending") >= UnsetCount(ds)
    decreases |ds|
  {
    ProcessingStatsSpec(ds);
    PendingAtLeastUnset(ds);
  }

  function UnsetCount(ds: seq<Dataset>): nat {
    if |ds| == 0 then 0
    else UnsetCount(ds[..|ds| - 1]) + (if ds[|ds| - 1].meta.processingStatus.None? then 1 else 0)
  }

  lemma {:induction false} PendingAtLeastUnset(ds: seq<Dataset>)
    ensures Occurrences(ds, "pending") >= UnsetCount(ds)
    decreases |ds|
  {
    if |ds| > 0 {
      PendingAtLeastUnset(ds[..|ds| - 1]);
    }
  }

  /**
   * The position of the first dataset with effective status `k`, or the
   * number of datasets when there is none.
   */
  function FirstIndex(ds: seq<Dataset>, k: string): (r: nat)
    ensures r <= |ds|
    ensures r < |ds| ==> EffectiveStatus(ds[r]) == k
    ensures forall j :: 0 <= j < r && j < |ds| ==> EffectiveStatus(ds[j]) != k
    decreases |ds|
  {
    if |ds| == 0 then 0
    else
      var init := ds[..|ds| - 1];
      var f := FirstIndex(init, k);
      assert forall j :: 0 <= j < |init| ==> init[j] == ds[j];
      if f < |init| then f
      else if EffectiveStatus(ds[|ds| - 1]) == k then |init|
      else |ds|
  }

  lemma {:induction false} FirstIndexAbsent(ds: seq<Dataset>, k: string)
    requires Occurrences(ds, k) == 0
    ensures FirstIndex(ds, k) == |ds|
    decreases |ds|
  {
    if |ds| > 0 {
      FirstIndexAbsent(ds[..|ds| - 1], k);
    }
  }

  /** Bumping a key already present changes no key at any position. */
  lemma {:induction false} BumpPresentKeepsKeys(h: seq<Entry>, k: string)
    requires k in KeysOf(h)
    ensures |Bump(h, k)| == |h|
    ensures forall i :: 0 <= i < |h| ==> Bump(h, k)[i].key == h[i].key
    decreases |h|
  {
    if h[0].key != k {
      BumpPresentKeepsKeys(h[1..], k);
      assert Bump(h, k) == [h[0]] + Bump(h[1..], k);
    }
  }

  /** Bumping a new key appends it with count one. */
  lemma {:induction false} BumpAbsentAppends(h: seq<Entry>, k: string)
    requires k !in KeysOf(h)
    ensures Bump(h, k) == h + [Entry(k, 1)]
    decreases |h|
  {
    if |h| > 0 {
      BumpAbsentAppends(h[1..], k);
      assert h == [h[0]] + h[1..];
    }
  }

  /**
   * The histogram lists each status where it first occurs: a key comes
   * before another exactly when its first dataset comes before the other's,
   * which is the order `Object.keys` gives for non-numeric keys.
   */
  lemma {:induction false} StatsInFirstOccurrenceOrder(ds: seq<Dataset>)
    ensures forall i :: 0 <= i < |ProcessingStats(ds)| ==> FirstIndex(ds, ProcessingStats(ds)[i].key) < |ds|
    ensures forall i, j :: 0 <= i < j < |ProcessingStats(ds)| ==>
      FirstIndex(ds, ProcessingStats(ds)[i].key) < FirstIndex(ds, ProcessingStats(ds)[j].key)
    decreases |ds|
  {
    if |ds| > 0 {
      var init := ds[..|ds| - 1];
      var hi := ProcessingStats(init);
      var k := EffectiveStatus(ds[|ds| - 1]);
      var h := ProcessingStats(ds);
      assert h == Bump(hi, k);
      StatsInFirstOccurrenceOrder(init);
      // Keys already seen keep their first position.
      assert forall i :: 0 <= i < |hi| ==> FirstIndex(ds, hi[i].key) == FirstIndex(init, hi[i].key);
      if k in KeysOf(hi) {
        BumpPresentKeepsKeys(hi, k);
      } else {
        BumpAbsentAppends(hi, k);
        ProcessingStatsSpec(init);
        FirstIndexAbsent(init, k);
        assert FirstIndex(ds, k) == |init|;
        assert h[|hi|].key == k;
        assert forall i :: 0 <= i < |hi| ==> h[i] == hi[i];
      }
    }
  }

  /**
   * Read both ways: one key comes before another exactly when its first
   * dataset comes before the other's.
   */
  lemma StatsOrderMatchesFirstOccurrence(ds: seq<Dataset>, i: nat, j: nat)
    requires i < |ProcessingStats(ds)| && j < |ProcessingStats(ds)|
    ensures i < j <==> FirstIndex(ds, ProcessingStats(ds)[i].key) < FirstIndex(ds, ProcessingStats(ds)[j].key)
  {
    StatsInFirstOccurrenceOrder(ds);
  }

  // ---------------------------------------------------------------------------
  // The page
  // ---------------------------------------------------------------------------

  datatype StatCard = StatCard(title: string, value: nat)

  datatype HomeView = HomeView(cards: seq<StatCard>, chart: ChartView, recent: RecentItems.RecentView)

  /** `analyses.slice(0, 5)`: the first five analyses in store order, or all of them. */
  function RecentSlice(analyses: seq<DataAnalysis>): (r: seq<DataAnalysis>)
    ensures |r| == if |analyses| < 5 then |analyses| else 5
    ensures r == analyses[..|r|]
  {
    if |analyses| < 5 then analyses else analyses[..5]
  }

  /**
   * The status chart of the datasets is empty exactly when there are no
   * datasets, and otherwise its slices add up to the number of datasets.
   */
  lemma ChartOfDatasets(ds: seq<Dataset>)
    ensures Chart(ProcessingStats(ds)).NoData? <==> |ds| == 0
    ensures Chart(ProcessingStats(ds)).Doughnut? ==> SumOf(Chart(ProcessingStats(ds)).values) == |ds|
  {
    var stats := ProcessingStats(ds);
    ProcessingStatsSpec(ds);
    if |stats| == 0 {
      assert Total(stats) == 0;
    } else {
      ChartPreservesTotal(stats);
    }
  }

  /** The page for the four fetched lists. */
  function Render(
    datasets: seq<Dataset>, analyses: seq<DataAnalysis>,
    visualizations: seq<Visualization>, notes: seq<ResearchNote>): (v: HomeView)
    ensures |v.cards| == 4
    ensures v.cards[0] == StatCard("Datasets", |datasets|)
    ensures v.cards[1] == StatCard("Analyses", |analyses|)
    ensures v.cards[2] == StatCard("Visualizations", |visualizations|)
    ensures v.cards[3] == StatCard("Research Notes", |notes|)
    ensures v.chart == Chart(ProcessingStats(datasets))
    ensures v.chart.NoData? <==> |datasets| == 0
    ensures v.chart.Doughnut? ==> SumOf(v.chart.values) == |datasets|
    ensures v.recent.Placeholder? <==> |analyses| == 0
    ensures v.recent.Rows? ==>
      && |v.recent.rows| == (if |analyses| < 5 then |analyses| else 5)
      && forall i :: 0 <= i < |v.recent.rows| ==>
           && v.recent.rows[i].href == "/analyses/" + analyses[i].header.slug
           && v.recent.rows[i].title == analyses[i].header.title
           && v.recent.rows[i].subtitle == RecentItems.ItemSubtitle(RecentItems.AnalysisItem(analyses[i]))
  {
    var stats := ProcessingStats(datasets);
    ChartOfDatasets(datasets);
    var recent := RecentSlice(analyses);
    var items := seq(|recent|, i requires 0 <= i < |recent| => RecentItems.AnalysisItem(recent[i]));
    HomeView(
      [StatCard("Datasets", |datasets|), StatCard("Analyses", |analyses|),
       StatCard("Visualizations", |visualizations|), StatCard("Research Notes", |notes|)],
      Chart(stats),
      RecentItems.Render(Some(items), RecentItems.RecentAnalyses))
  }

  /**
   * On the home page the analyses come from the collection fetch, whose
   * query selects properties without `type`. From a store that returns only
   * the selected properties no analysis carries its `type` field, and since
   * the component dispatches the subtitle on that field, every recent row
   * the page draws has an empty subtitle.
   */
  lemma {:induction false} RecentSubtitlesAsWritten(
    datasets: seq<Dataset>, analyses: seq<DataAnalysis>,
    visualizations: seq<Visualization>, notes: seq<ResearchNote>)
    requires forall i :: 0 <= i < |analyses| ==>
      Cosmic.RespectsProps(Cosmic.CollectionQuery(DataAnalyses), analyses[i].header)
    ensures var v := Render(datasets, analyses, visualizations, notes);
      v.recent.Rows? ==> forall i :: 0 <= i < |v.recent.rows| ==> v.recent.rows[i].subtitle == ""
  {
    var v := Render(datasets, analyses, visualizations, notes);
    if v.recent.Rows? {
      forall i | 0 <= i < |v.recent.rows| ensures v.recent.rows[i].subtitle == "" {
        Cosmic.ListingsOmitType(DataAnalyses, analyses[i].header);
        RecentItems.UntaggedItemLosesSubtitle(analyses[i]);
      }
    }
  }
}
