/**
 * The data-access layer: the queries the dashboard sends to the content
 * store and how each fetch function turns the store's answer into a result
 * or an exception.
 *
 * The store itself is a parameter: a function from a query to what the
 * store call produced, either the returned objects or a thrown value.
 */
module Cosmic {
  import opened Wrappers
  import opened Types

  // ---------------------------------------------------------------------------
  // Thrown values
  // ---------------------------------------------------------------------------

  /** A JavaScript value, as far as a thrown error is inspected. */
  datatype JsValue =
    | JsUndefined
    | JsNull
    | JsBool(b: bool)
    | JsNumber(n: int)
    | JsString(s: string)
    | JsObject(props: map<string, JsValue>)

  /** The type guard `hasStatus`: a non-null object with a `status` property. */
  predicate HasStatus(e: JsValue) {
    e.JsObject? && "status" in e.props
  }

  /** The store's "not found" signal: a `status` property strictly equal to 404. */
  predicate IsNotFound(e: JsValue) {
    HasStatus(e) && e.props["status"] == JsNumber(404)
  }

  /** `new Error(message)`: an object carrying the message and no status. */
  function ErrorWithMessage(message: string): (e: JsValue)
    ensures e.JsObject? && "message" in e.props && e.props["message"] == JsString(message)
    ensures !HasStatus(e) && !IsNotFound(e)
  {
    JsObject(map["message" := JsString(message)])
  }

  // ---------------------------------------------------------------------------
  // Queries
  // ---------------------------------------------------------------------------

  datatype QueryKind = Find | FindOne

  /**
   * One store request: `find` or `findOne` on a content type, equality
   * filters on other fields, an optional restriction of the returned
   * properties, and the depth to which references are expanded.
   */
  datatype Query = Query(
    kind: QueryKind,
    typeTag: string,
    filter: seq<(string, string)>,
    props: Option<seq<string>>,
    depth: nat)

  /** The properties a collection listing asks for. */
  const ListProps: seq<string> := ["id", "title", "slug", "metadata", "created_at"]

  function CollectionQuery(kind: ContentType): Query {
    Query(Find, kind.Tag(), [], Some(ListProps), 1)
  }

  function SlugQuery(kind: ContentType, slug: string): Query {
    Query(FindOne, kind.Tag(), [("slug", slug)], None, 1)
  }

  /** Objects of `kind` whose metadata `field` equals `id`. */
  function ReferenceQuery(kind: ContentType, field: string, id: string): Query {
    Query(Find, kind.Tag(), [("metadata." + field, id)], None, 1)
  }

  /**
   * What a store honouring a property restriction returns: an object
   * fetched without `type` among the selected properties carries no type.
   */
  predicate RespectsProps(q: Query, h: Header) {
    q.props.Some? && "type" !in q.props.value ==> h.typeTag.None?
  }

  /**
   * From a store that honours property restrictions, no object a collection
   * fetch lists carries its `type` field, whereas the by-slug and
   * cross-reference fetches restrict nothing and so may return it.
   */
  lemma ListingsOmitType(kind: ContentType, h: Header)
    ensures RespectsProps(CollectionQuery(kind), h) ==> h.typeTag.None?
    ensures forall slug :: RespectsProps(SlugQuery(kind, slug), h)
    ensures forall field, id :: RespectsProps(ReferenceQuery(kind, field, id), h)
  {
    assert "type" !in ListProps;
  }

  // ---------------------------------------------------------------------------
  // Results
  // ---------------------------------------------------------------------------

  /** What the store call produced. */
  datatype Outcome<T> = Ok(value: T) | Fail(thrown: JsValue)

  /** What a fetch function hands its caller: a value, or an exception. */
  datatype Completion<T> = Normal(value: T) | Throw(error: JsValue)

  /**
   * The policy of the collection and cross-reference fetches: objects come
   * back exactly as the store gave them, a 404 becomes the empty list, and
   * every other failure becomes a new error with the fixed `message`.
   */
  function ListResult<T>(o: Outcome<seq<T>>, message: string): (r: Completion<seq<T>>)
    ensures o.Ok? ==> r == Normal(o.value)
    ensures o.Fail? && IsNotFound(o.thrown) ==> r == Normal([])
    ensures o.Fail? && !IsNotFound(o.thrown) ==> r == Throw(ErrorWithMessage(message))
    ensures r.Throw? ==> !HasStatus(r.error)
  {
    match o
    case Ok(objects) => Normal(objects)
    case Fail(e) => if IsNotFound(e) then Normal([]) else Throw(ErrorWithMessage(message))
  }

  /**
   * The policy of the by-slug fetches: the object comes back as found, a
   * 404 becomes "no object" and every other failure is rethrown unchanged.
   */
  function OneResult<T>(o: Outcome<T>): (r: Completion<Option<T>>)
    ensures o.Ok? ==> r == Normal(Some(o.value))
    ensures o.Fail? && IsNotFound(o.thrown) ==> r == Normal(None)
    ensures o.Fail? && !IsNotFound(o.thrown) ==> r == Throw(o.thrown)
  {
    match o
    case Ok(found) => Normal(Some(found))
    case Fail(e) => if IsNotFound(e) then Normal(None) else Throw(e)
  }

  // ---------------------------------------------------------------------------
  // The ten fetch functions
  // ---------------------------------------------------------------------------

  function GetDatasets(find: Query -> Outcome<seq<Dataset>>): (r: Completion<seq<Dataset>>)
    ensures var o := find(CollectionQuery(Datasets));
      && (o.Ok? ==> r == Normal(o.value))
      && (o.Fail? && IsNotFound(o.thrown) ==> r == Normal([]))
      && (o.Fail? && !IsNotFound(o.thrown) ==> r == Throw(ErrorWithMessage("Failed to fetch datasets")))
  {
    ListResult(find(CollectionQuery(Datasets)), "Failed to fetch datasets")
  }

  function GetDataset(findOne: Query -> Outcome<Dataset>, slug: string): (r: Completion<Option<Dataset>>)
    ensures var o := findOne(SlugQuery(Datasets, slug));
      && (o.Ok? ==> r == Normal(Some(o.value)))
      && (o.Fail? && IsNotFound(o.thrown) ==> r == Normal(None))
      && (o.Fail? && !IsNotFound(o.thrown) ==> r == Throw(o.thrown))
  {
    OneResult(findOne(SlugQuery(Datasets, slug)))
  }

  function GetDataAnalyses(find: Query -> Outcome<seq<DataAnalysis>>): (r: Completion<seq<DataAnalysis>>)
    ensures var o := find(CollectionQuery(DataAnalyses));
      && (o.Ok? ==> r == Normal(o.value))
      && (o.Fail? && IsNotFound(o.thrown) ==> r == Normal([]))
      && (o.Fail? && !IsNotFound(o.thrown) ==> r == Throw(ErrorWithMessage("Failed to fetch data analyses")))
  {
    ListResult(find(CollectionQuery(DataAnalyses)), "Failed to fetch data analyses")
  }

  function GetDataAnalysis(findOne: Query -> Outcome<DataAnalysis>, slug: string): (r: Completion<Option<DataAnalysis>>)
    ensures var o := findOne(SlugQuery(DataAnalyses, slug));
      && (o.Ok? ==> r == Normal(Some(o.value)))
      && (o.Fail? && IsNotFound(o.thrown) ==> r == Normal(None))
      && (o.Fail? && !IsNotFound(o.thrown) ==> r == Throw(o.thrown))
  {
    OneResult(findOne(SlugQuery(DataAnalyses, slug)))
  }

  function GetVisualizations(find: Query -> Outcome<seq<Visualization>>): (r: Completion<seq<Visualization>>)
    ensures var o := find(CollectionQuery(Visualizations));
      && (o.Ok? ==> r == Normal(o.value))
      && (o.Fail? && IsNotFound(o.thrown) ==> r == Normal([]))
      && (o.Fail? && !IsNotFound(o.thrown) ==> r == Throw(ErrorWithMessage("Failed to fetch visualizations")))
  {
    ListResult(find(CollectionQuery(Visualizations)), "Failed to fetch visualizations")
  }

  function GetVisualization(findOne: Query -> Outcome<Visualization>, slug: string): (r: Completion<Option<Visualization>>)
    ensures var o := findOne(SlugQuery(Visualizations, slug));
      && (o.Ok? ==> r == Normal(Some(o.value)))
      && (o.Fail? && IsNotFound(o.thrown) ==> r == Normal(None))
      && (o.Fail? && !IsNotFound(o.thrown) ==> r == Throw(o.thrown))
  {
    OneResult(findOne(SlugQuery(Visualizations, slug)))
  }

  function GetResearchNotes(find: Query -> Outcome<seq<ResearchNote>>): (r: Completion<seq<ResearchNote>>)
    ensures var o := find(CollectionQuery(ResearchNotes));
      && (o.Ok? ==> r == Normal(o.value))
      && (o.Fail? && IsNotFound(o.thrown) ==> r == Normal([]))
      && (o.Fail? && !IsNotFound(o.thrown) ==> r == Throw(ErrorWithMessage("Failed to fetch research notes")))
  {
    ListResult(find(CollectionQuery(ResearchNotes)), "Failed to fetch research notes")
  }

  function GetResearchNote(findOne: Query -> Outcome<ResearchNote>, slug: string): (r: Completion<Option<ResearchNote>>)
    ensures var o := findOne(SlugQuery(ResearchNotes, slug));
      && (o.Ok? ==> r == Normal(Some(o.value)))
      && (o.Fail? && IsNotFound(o.thrown) ==> r == Normal(None))
      && (o.Fail? && !IsNotFound(o.thrown) ==> r == Throw(o.thrown))
  {
    OneResult(findOne(SlugQuery(ResearchNotes, slug)))
  }

  function GetAnalysesForDataset(find: Query -> Outcome<seq<DataAnalysis>>, datasetId: string): (r: Completion<seq<DataAnalysis>>)
    ensures var o := find(ReferenceQuery(DataAnalyses, "dataset", datasetId));
      && (o.Ok? ==> r == Normal(o.value))
      && (o.Fail? && IsNotFound(o.thrown) ==> r == Normal([]))
      && (o.Fail? && !IsNotFound(o.thrown) ==> r == Throw(ErrorWithMessage("Failed to fetch analyses for dataset")))
  {
    ListResult(find(ReferenceQuery(DataAnalyses, "dataset", datasetId)), "Failed to fetch analyses for dataset")
  }

  function GetVisualizationsForDataset(find: Query -> Outcome<seq<Visualization>>, datasetId: string): (r: Completion<seq<Visualization>>)
    ensures var o := find(ReferenceQuery(Visualizations, "related_dataset", datasetId));
      && (o.Ok? ==> r == Normal(o.value))
      && (o.Fail? && IsNotFound(o.thrown) ==> r == Normal([]))
      && (o.Fail? && !IsNotFound(o.thrown) ==>
            r == Throw(ErrorWithMessage("Failed to fetch visualizations for dataset")))
  {
    ListResult(find(ReferenceQuery(Visualizations, "related_dataset", datasetId)),
               "Failed to fetch visualizations for dataset")
  }

  /**
   * The four collection fetches never let a store error escape: what they
   * throw is always their own status-free error, so a caller can never see
   * a 404 from them.
   */
  lemma CollectionFetchesHideStoreErrors(
    fd: Query -> Outcome<seq<Dataset>>, fa: Query -> Outcome<seq<DataAnalysis>>,
    fv: Query -> Outcome<seq<Visualization>>, fn: Query -> Outcome<seq<ResearchNote>>)
    ensures GetDatasets(fd).Throw? ==> !HasStatus(GetDatasets(fd).error)
    ensures GetDataAnalyses(fa).Throw? ==> !HasStatus(GetDataAnalyses(fa).error)
    ensures GetVisualizations(fv).Throw? ==> !HasStatus(GetVisualizations(fv).error)
    ensures GetResearchNotes(fn).Throw? ==> !HasStatus(GetResearchNotes(fn).error)
  {
  }

  /** The by-slug fetches throw only what the store threw, and never a 404. */
  lemma SlugFetchesRethrowNon404(
    fd: Query -> Outcome<Dataset>, fa: Query -> Outcome<DataAnalysis>,
    fv: Query -> Outcome<Visualization>, fn: Query -> Outcome<ResearchNote>, slug: string)
    ensures GetDataset(fd, slug).Throw? ==>
      fd(SlugQuery(Datasets, slug)) == Fail(GetDataset(fd, slug).error) && !IsNotFound(GetDataset(fd, slug).error)
    ensures GetDataAnalysis(fa, slug).Throw? ==>
      fa(SlugQuery(DataAnalyses, slug)) == Fail(GetDataAnalysis(fa, slug).error)
      && !IsNotFound(GetDataAnalysis(fa, slug).error)
    ensures GetVisualization(fv, slug).Throw? ==>
      fv(SlugQuery(Visualizations, slug)) == Fail(GetVisualization(fv, slug).error)
      && !IsNotFound(GetVisualization(fv, slug).error)
    ensures GetResearchNote(fn, slug).Throw? ==>
      fn(SlugQuery(ResearchNotes, slug)) == Fail(GetResearchNote(fn, slug).error)
      && !IsNotFound(GetResearchNote(fn, slug).error)
  {
  }
}
