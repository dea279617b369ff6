/**
 * How a dataset reference is shown: a bare identifier as it is, an embedded
 * dataset by the first non-empty of its identifier and its title, and
 * "Unknown Dataset" when both are empty.
 *
 * This is the reference definition the two pages' own copies are checked
 * against.
 */
module References {
  import opened Types

  const UnknownDataset: string := "Unknown Dataset"

  /** The first non-empty candidate, or `fallback` when all are empty. */
  function FirstNonEmpty(candidates: seq<string>, fallback: string): (r: string)
    ensures r == fallback || r in candidates
    ensures r != "" || fallback == ""
    ensures forall k :: 0 <= k < |candidates| && candidates[k] != "" ==>
      exists j :: 0 <= j <= k && r == candidates[j]
  {
    if |candidates| == 0 then fallback
    else if candidates[0] != "" then candidates[0]
    else FirstNonEmpty(candidates[1..], fallback)
  }

  /** The precedence over two candidates, spelt out. */
  lemma FirstNonEmptyPair(a: string, b: string, fallback: string)
    ensures FirstNonEmpty([a, b], fallback) == if a != "" then a else if b != "" then b else fallback
  {
    assert [a, b][1..] == [b];
    assert [b][1..] == [];
  }

  /** The display string of a reference, by the precedence identifier, title, fallback. */
  function Resolve(ref: DatasetRef): string {
    match ref
    case ByKey(key) => key
    case Embedded(d) => FirstNonEmpty([d.meta.datasetId, d.header.title], UnknownDataset)
  }

  /**
   * A bare identifier is shown unchanged; an embedded dataset is never shown
   * as the empty string; and an embedded dataset with an identifier is shown
   * exactly as that identifier passed bare.
   */
  lemma ResolveSpec(ref: DatasetRef)
    ensures ref.ByKey? ==> Resolve(ref) == ref.key
    ensures ref.Embedded? ==> Resolve(ref) != ""
    ensures ref.Embedded? && ref.dataset.meta.datasetId != "" ==>
      Resolve(ref) == Resolve(ByKey(ref.dataset.meta.datasetId))
    ensures ref.Embedded? && ref.dataset.meta.datasetId == "" && ref.dataset.header.title != "" ==>
      Resolve(ref) == ref.dataset.header.title
    ensures ref.Embedded? && ref.dataset.meta.datasetId == "" && ref.dataset.header.title == "" ==>
      Resolve(ref) == UnknownDataset
  {
    if ref.Embedded? {
      FirstNonEmptyPair(ref.dataset.meta.datasetId, ref.dataset.header.title, UnknownDataset);
    }
  }
}
