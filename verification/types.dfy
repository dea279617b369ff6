/**
 * The content model of the dashboard: the four content kinds held by the
 * store, the closed key sets of their select fields, and the shape of each
 * kind's metadata.
 *
 * Select fields arrive as a (key, value) pair. The key is kept as a raw
 * string, because the pages style unknown keys with a fallback; the closed
 * key sets below say which keys the schema admits.
 */
module Types {
  import opened Wrappers

  // ---------------------------------------------------------------------------
  // Content kinds
  // ---------------------------------------------------------------------------

  datatype ContentType = Datasets | DataAnalyses | Visualizations | ResearchNotes {
    /** The store's name for the kind, as carried in each object's `type` field. */
    function Tag(): string {
      match this
      case Datasets => "datasets"
      case DataAnalyses => "data-analyses"
      case Visualizations => "visualizations"
      case ResearchNotes => "research-notes"
    }

    static function FromTag(tag: string): (r: Option<ContentType>)
      ensures r.Some? ==> r.value.Tag() == tag
      ensures r.None? ==> tag !in ContentTypeTags
    {
      match tag
      case "datasets" => Some(Datasets)
      case "data-analyses" => Some(DataAnalyses)
      case "visualizations" => Some(Visualizations)
      case "research-notes" => Some(ResearchNotes)
      case _ => None
    }
  }

  const ContentTypeTags: set<string> := {"datasets", "data-analyses", "visualizations", "research-notes"}

  /** Every kind has its own tag, and the tags are exactly the four names above. */
  lemma ContentTypeTagsExact()
    ensures forall c: ContentType :: ContentType.FromTag(c.Tag()) == Some(c)
    ensures forall c: ContentType :: c.Tag() in ContentTypeTags
    ensures forall t :: ContentType.FromTag(t).Some? <==> t in ContentTypeTags
    ensures |ContentTypeTags| == 4
  {
    assert forall c: ContentType :: ContentType.FromTag(c.Tag()) == Some(c) by {
      forall c: ContentType ensures ContentType.FromTag(c.Tag()) == Some(c) {
        match c
        case Datasets =>
        case DataAnalyses =>
        case Visualizations =>
        case ResearchNotes =>
      }
    }
  }

  // ---------------------------------------------------------------------------
  // Select-field key sets
  // ---------------------------------------------------------------------------

  datatype ProcessingStatus = Pending | Processing | Completed | Error {
    function Key(): string {
      match this
      case Pending => "pending"
      case Processing => "processing"
      case Completed => "completed"
      case Error => "error"
    }

    static function FromKey(k: string): (r: Option<ProcessingStatus>)
      ensures r.Some? ==> r.value.Key() == k
      ensures r.None? ==> k !in ProcessingStatusKeys
    {
      match k
      case "pending" => Some(Pending)
      case "processing" => Some(Processing)
      case "completed" => Some(Completed)
      case "error" => Some(Error)
      case _ => None
    }
  }

  const ProcessingStatusKeys: set<string> := {"pending", "processing", "completed", "error"}

  datatype AnalysisType = Meta | Prof | Rtraj | Combined {
    function Key(): string {
      match this
      case Meta => "meta"
      case Prof => "prof"
      case Rtraj => "rtraj"
      case Combined => "combined"
    }

    static function FromKey(k: string): (r: Option<AnalysisType>)
      ensures r.Some? ==> r.value.Key() == k
      ensures r.None? ==> k !in AnalysisTypeKeys
    {
      match k
      case "meta" => Some(Meta)
      case "prof" => Some(Prof)
      case "rtraj" => Some(Rtraj)
      case "combined" => Some(Combined)
      case _ => None
    }
  }

  const AnalysisTypeKeys: set<string> := {"meta", "prof", "rtraj", "combined"}

  datatype DataQuality = Excellent | Good | Fair | Poor {
    function Key(): string {
      match this
      case Excellent => "excellent"
      case Good => "good"
      case Fair => "fair"
      case Poor => "poor"
    }

    static function FromKey(k: string): (r: Option<DataQuality>)
      ensures r.Some? ==> r.value.Key() == k
      ensures r.None? ==> k !in DataQualityKeys
    {
      match k
      case "excellent" => Some(Excellent)
      case "good" => Some(Good)
      case "fair" => Some(Fair)
      case "poor" => Some(Poor)
      case _ => None
    }
  }

  const DataQualityKeys: set<string> := {"excellent", "good", "fair", "poor"}

  datatype ChartType = LinePlot | ScatterPlot | PieChart | BarChart | Heatmap | Interactive {
    function Key(): string {
      match this
      case LinePlot => "line_plot"
      case ScatterPlot => "scatter_plot"
      case PieChart => "pie_chart"
      case BarChart => "bar_chart"
      case Heatmap => "heatmap"
      case Interactive => "interactive"
    }

    static function FromKey(k: string): (r: Option<ChartType>)
      ensures r.Some? ==> r.value.Key() == k
      ensures r.None? ==> k !in ChartTypeKeys
    {
      match k
      case "line_plot" => Some(LinePlot)
      case "scatter_plot" => Some(ScatterPlot)
      case "pie_chart" => Some(PieChart)
      case "bar_chart" => Some(BarChart)
      case "heatmap" => Some(Heatmap)
      case "interactive" => Some(Interactive)
      case _ => None
    }
  }

  const ChartTypeKeys: set<string> :=
    {"line_plot", "scatter_plot", "pie_chart", "bar_chart", "heatmap", "interactive"}

  datatype NoteType = Observation | Hypothesis | Question | Conclusion | Todo {
    function Key(): string {
      match this
      case Observation => "observation"
      case Hypothesis => "hypothesis"
      case Question => "question"
      case Conclusion => "conclusion"
      case Todo => "todo"
    }

    static function FromKey(k: string): (r: Option<NoteType>)
      ensures r.Some? ==> r.value.Key() == k
      ensures r.None? ==> k !in NoteTypeKeys
    {
      match k
      case "observation" => Some(Observation)
      case "hypothesis" => Some(Hypothesis)
      case "question" => Some(Question)
      case "conclusion" => Some(Conclusion)
      case "todo" => Some(Todo)
      case _ => None
    }
  }

  const NoteTypeKeys: set<string> := {"observation", "hypothesis", "question", "conclusion", "todo"}

  datatype Priority = Low | Medium | High | Urgent {
    function Key(): string {
      match this
      case Low => "low"
      case Medium => "medium"
      case High => "high"
      case Urgent => "urgent"
    }

    static function FromKey(k: string): (r: Option<Priority>)
      ensures r.Some? ==> r.value.Key() == k
      ensures r.None? ==> k !in PriorityKeys
    {
      match k
      case "low" => Some(Low)
      case "medium" => Some(Medium)
      case "high" => Some(High)
      case "urgent" => Some(Urgent)
      case _ => None
    }
  }

  const PriorityKeys: set<string> := {"low", "medium", "high", "urgent"}

  /**
   * Each select field's keys form a closed set of the stated size, every
   * member of the set names exactly one value and every value has its key
   * in the set.
   */
  lemma SelectFieldDomains()
    ensures |ProcessingStatusKeys| == 4 && |AnalysisTypeKeys| == 4 && |DataQualityKeys| == 4
    ensures |ChartTypeKeys| == 6 && |NoteTypeKeys| == 5 && |PriorityKeys| == 4
    ensures forall s: ProcessingStatus :: ProcessingStatus.FromKey(s.Key()) == Some(s)
    ensures forall s: AnalysisType :: AnalysisType.FromKey(s.Key()) == Some(s)
    ensures forall s: DataQuality :: DataQuality.FromKey(s.Key()) == Some(s)
    ensures forall s: ChartType :: ChartType.FromKey(s.Key()) == Some(s)
    ensures forall s: NoteType :: NoteType.FromKey(s.Key()) == Some(s)
    ensures forall s: Priority :: Priority.FromKey(s.Key()) == Some(s)
    ensures forall k :: ProcessingStatus.FromKey(k).Some? <==> k in ProcessingStatusKeys
    ensures forall k :: AnalysisType.FromKey(k).Some? <==> k in AnalysisTypeKeys
    ensures forall k :: DataQuality.FromKey(k).Some? <==> k in DataQualityKeys
    ensures forall k :: ChartType.FromKey(k).Some? <==> k in ChartTypeKeys
    ensures forall k :: NoteType.FromKey(k).Some? <==> k in NoteTypeKeys
    ensures forall k :: Priority.FromKey(k).Some? <==> k in PriorityKeys
  {
  }

  // ---------------------------------------------------------------------------
  // Entities
  // ---------------------------------------------------------------------------

  /** A select field's stored value: the key drives styling, the value is shown. */
  datatype KeyValue = KeyValue(key: string, value: string)

  /**
   * The envelope every stored object shares. `typeTag` and `modifiedAt` are
   * optional because a query that restricts the returned properties omits them.
   */
  datatype Header = Header(
    id: string,
    slug: string,
    title: string,
    typeTag: Option<string>,
    createdAt: string,
    modifiedAt: Option<string>)

  datatype DatasetMeta = DatasetMeta(
    datasetId: string,
    collectionDate: Option<string>,
    location: Option<string>,
    directoryPath: Option<string>,
    processingStatus: Option<KeyValue>,
    filesPresent: Option<seq<string>>,
    description: Option<string>,
    notes: Option<string>)

  datatype Dataset = Dataset(header: Header, meta: DatasetMeta)

  /** A reference to a dataset: its bare identifier, or the dataset object itself. */
  datatype DatasetRef = ByKey(key: string) | Embedded(dataset: Dataset)

  datatype FileRef = FileRef(url: string, imgixUrl: Option<string>)

  datatype ImageRef = ImageRef(url: string, imgixUrl: string)

  datatype AnalysisMeta = AnalysisMeta(
    analysisTitle: string,
    dataset: Option<DatasetRef>,
    analysisType: Option<KeyValue>,
    processingDate: Option<string>,
    keyFindings: Option<string>,
    detailedResults: Option<string>,
    excelOutputFile: Option<FileRef>,
    dataQuality: Option<KeyValue>,
    issuesFound: Option<string>)

  datatype DataAnalysis = DataAnalysis(header: Header, meta: AnalysisMeta)

  datatype VisualizationMeta = VisualizationMeta(
    visualizationTitle: string,
    chartType: Option<KeyValue>,
    relatedDataset: Option<DatasetRef>,
    relatedAnalysis: Option<DataAnalysis>,
    chartImage: Option<ImageRef>,
    parametersUsed: Option<string>,
    insights: Option<string>,
    librariesUsed: Option<seq<string>>)

  datatype Visualization = Visualization(header: Header, meta: VisualizationMeta)

  datatype NoteMeta = NoteMeta(
    noteTitle: string,
    noteType: Option<KeyValue>,
    relatedDatasets: Option<seq<Dataset>>,
    relatedAnalyses: Option<seq<DataAnalysis>>,
    content: Option<string>,
    priority: Option<KeyValue>,
    tags: Option<string>)

  datatype ResearchNote = ResearchNote(header: Header, meta: NoteMeta)

  // ---------------------------------------------------------------------------
  // Conformance to the schema
  // ---------------------------------------------------------------------------

  /** An absent select field, or one whose key is in `keys`. */
  predicate KeyIn(field: Option<KeyValue>, keys: set<string>) {
    field.Some? ==> field.value.key in keys
  }

  /** The object's `type` field, when returned, is the tag of `kind`. */
  predicate TaggedAs(h: Header, kind: ContentType) {
    h.typeTag.Some? ==> h.typeTag.value == kind.Tag()
  }

  predicate DatasetConforms(d: Dataset) {
    TaggedAs(d.header, Datasets) && KeyIn(d.meta.processingStatus, ProcessingStatusKeys)
  }

  predicate AnalysisConforms(a: DataAnalysis) {
    && TaggedAs(a.header, DataAnalyses)
    && KeyIn(a.meta.analysisType, AnalysisTypeKeys)
    && KeyIn(a.meta.dataQuality, DataQualityKeys)
    && (a.meta.dataset.Some? && a.meta.dataset.value.Embedded? ==> DatasetConforms(a.meta.dataset.value.dataset))
  }

  predicate VisualizationConforms(v: Visualization) {
    && TaggedAs(v.header, Visualizations)
    && KeyIn(v.meta.chartType, ChartTypeKeys)
    && (v.meta.relatedDataset.Some? && v.meta.relatedDataset.value.Embedded? ==>
          DatasetConforms(v.meta.relatedDataset.value.dataset))
    && (v.meta.relatedAnalysis.Some? ==> AnalysisConforms(v.meta.relatedAnalysis.value))
  }

  predicate NoteConforms(n: ResearchNote) {
    && TaggedAs(n.header, ResearchNotes)
    && KeyIn(n.meta.noteType, NoteTypeKeys)
    && KeyIn(n.meta.priority, PriorityKeys)
  }
}
