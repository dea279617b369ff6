# Oceanographic data dashboard: a Dafny model of its view rules

The dashboard is a read-only web front end over a headless content store. The store holds four kinds of content:
- datasets (NetCDF collections);
- data analyses;
- visualizations;
- research notes.

The dashboard lists them, draws a doughnut chart of the datasets' processing statuses, and shows the first five analyses in the order the store returns them. A separate build step adds a console-capture script to the generated HTML pages.

This project models the small, pure rules those pages depend on and proves their properties:

- `Types` (types.ts) holds the content model:
  - the four content kinds and their store tags;
  - the six closed select-field key sets;
  - the metadata records, where a dataset reference is either a bare key or an embedded dataset.
- `Cosmic` (lib/cosmic.ts) models the data-access layer:
  - the query each of the ten fetch functions sends;
  - how each fetch turns the store's answer into a value or an exception.

  The store is a function parameter from a query to an outcome: the objects, or a thrown value. A thrown value is modelled as a JavaScript value, so `hasStatus` and the 404 test are stated over its shape.
- `HomePage` (app/page.tsx) covers:
  - the processing-status histogram, a fold with the default key `pending`;
  - the four statistics cards;
  - the recent-analyses slice.
- `StatusChart` (components/ProcessingStatusChart.tsx) turns the histogram into chart labels, values and colours, or into the "no data" state.
- `RecentItems` (components/RecentItems.tsx) covers the placeholder, the item links and the item subtitles.
- The four list pages (app/datasets, app/analyses, app/visualizations, app/notes) cover:
  - the key-to-class and key-to-icon tables and their fallbacks, including the properties every object inherits;
  - the dataset-reference display;
  - the chart image address and the libraries row;
  - the markup-stripped preview and the tag row;
  - the pluralised count labels.
- `ObjectTable` models `table[key] || fallback` on an object literal. A key that names a property of `Object.prototype`, such as "constructor", finds that inherited property, which is truthy, so the fallback is not used.
- `References` is an independent definition of the dataset-reference display. The two pages' copies are proved equal to it.
- `InjectConsoleCapture` (scripts/inject-console-capture.js) is the per-page rewrite. It skips a page whose text already mentions the script's path, anywhere. Otherwise it inserts the block before the first `</head>`, else after the first `<head>`, else after the first `<body>`.
- `Text` holds the JavaScript string built-ins the rules use:
  - `includes` and `indexOf`;
  - `replace` with a string pattern, which replaces only the first occurrence;
  - `split` on one character, which keeps empty pieces;
  - `trim`, `join`, and number-to-decimal conversion.

A histogram is a JavaScript object used as a record. `Object.keys` enumerates it in insertion order, so it is modelled as a sequence of (key, count) entries in that order. `HomePage.StatsInFirstOccurrenceOrder` proves that this order is the order in which the statuses first occur among the datasets.

## Model

| member | source | states |
|---|---|---|
| Types.ContentTypeTagsExact | types.ts:137 | each of the four kinds has its own tag; the tags are exactly datasets, data-analyses, visualizations and research-notes; reading a kind from its tag gives the kind back |
| Types.SelectFieldDomains | types.ts:98-103 | the six select fields have 4, 4, 4, 6, 5 and 4 keys; every value round-trips through its key; a key is recognised exactly when it is in the field's key set |
| Cosmic.ErrorWithMessage | lib/cosmic.ts:34 | a new error carries its message and no status, so it is never mistaken for a 404 |
| Cosmic.ListingsOmitType | lib/cosmic.ts:58-60 | from a store that honours property restrictions, no object a collection fetch lists carries its `type` field, because the selected properties leave it out; the by-slug and cross-reference queries restrict nothing |
| Cosmic.ListResult | lib/cosmic.ts:22-36 | the collection policy: objects exactly as the store returned them; a 404 gives the empty list; any other failure, with or without a status, gives a new error with the fixed message, and that error carries no status |
| Cosmic.OneResult | lib/cosmic.ts:39-52 | the by-slug policy: the object as found; a 404 gives no object; any other failure is rethrown unchanged |
| Cosmic.GetDatasets | lib/cosmic.ts:22-36 | the collection query for datasets under the collection policy, with the message "Failed to fetch datasets" |
| Cosmic.GetDataset | lib/cosmic.ts:39-52 | the by-slug query for a dataset under the by-slug policy |
| Cosmic.GetDataAnalyses | lib/cosmic.ts:55-69 | the collection query for analyses, with the message "Failed to fetch data analyses" |
| Cosmic.GetDataAnalysis | lib/cosmic.ts:72-85 | the by-slug query for an analysis under the by-slug policy |
| Cosmic.GetVisualizations | lib/cosmic.ts:88-102 | the collection query for visualizations, with the message "Failed to fetch visualizations" |
| Cosmic.GetVisualization | lib/cosmic.ts:105-118 | the by-slug query for a visualization under the by-slug policy |
| Cosmic.GetResearchNotes | lib/cosmic.ts:121-135 | the collection query for notes, with the message "Failed to fetch research notes" |
| Cosmic.GetResearchNote | lib/cosmic.ts:138-151 | the by-slug query for a note under the by-slug policy |
| Cosmic.GetAnalysesForDataset | lib/cosmic.ts:154-170 | the store's answer to the query that filters `metadata.dataset` on the id; a 404 gives the empty list; other failures give "Failed to fetch analyses for dataset" |
| Cosmic.GetVisualizationsForDataset | lib/cosmic.ts:173-189 | the store's answer to the query that filters `metadata.related_dataset` on the id; a 404 gives the empty list; other failures give "Failed to fetch visualizations for dataset" |
| Cosmic.CollectionFetchesHideStoreErrors | lib/cosmic.ts:30-35 | what a collection fetch throws never has a status, so no store error escapes it |
| Cosmic.SlugFetchesRethrowNon404 | lib/cosmic.ts:39-151 | each of the four by-slug fetches (dataset, analysis, visualization, note) throws exactly what the store threw, and never a 404 |
| References.FirstNonEmpty | app/analyses/page.tsx:23 | the result is the fallback or a candidate; it is non-empty when the fallback is; it is no later than the first non-empty candidate |
| References.ResolveSpec | app/analyses/page.tsx:19-24 | a bare key is shown unchanged; an embedded dataset is never shown as ""; one with an identifier is shown as that identifier passed bare; otherwise its title, otherwise "Unknown Dataset" |
| AnalysesPage.QualityColor | app/analyses/page.tsx:9-17 | the four grades' classes; the neutral class exactly for an absent or unknown key |
| AnalysesPage.QualityColorsDistinct | app/analyses/page.tsx:11-14 | the four grades get four different classes, none of them the neutral one |
| AnalysesPage.DatasetDisplayValue | app/analyses/page.tsx:19-24 | this page's copy agrees with the reference definition on every reference |
| AnalysesPage.DatasetLine | app/analyses/page.tsx:73-78 | the line is shown exactly when a reference is present and is not the empty key, as "Dataset: " and the display value |
| AnalysesPage.QualityBadge | app/analyses/page.tsx:58-62 | the badge is shown exactly when a quality is set, with the quality colour of its key; a schema-conforming grade never gets the neutral class |
| AnalysesPage.CountLabelAsWritten | app/analyses/page.tsx:36 | the label as the page builds it: "1 analysis total", otherwise the count followed by " analysises total" |
| AnalysesPage.CountLabelMisspellsPlural | app/analyses/page.tsx:36 | for two analyses the page reads "2 analysises total", which differs from the correctly inflected label |
| AnalysesPage.CountLabel | app/analyses/page.tsx:36 | the corrected label: "analysis" for exactly one, "analyses" otherwise |
| AnalysesPage.CountLabelReadsBack | app/analyses/page.tsx:36 | the count can be read back from the front of the label |
| ObjectTable.OrElse | app/datasets/page.tsx:17 | `table[key] \|\| fallback`: a listed value wins; otherwise a key that names an inherited `Object.prototype` property yields that property; any other key yields the fallback |
| DatasetsPage.StatusClasses | app/datasets/page.tsx:10-15 | the table lists exactly the four processing statuses, each as "status-badge status-" and the key; no listed key is an inherited property name |
| DatasetsPage.StatusBadge | app/datasets/page.tsx:9-18 | a known status gives "status-badge status-" and the key; a key naming an inherited object property gives that property; any other key gives exactly "status-badge" |
| DatasetsPage.StatusBadgeShape | app/datasets/page.tsx:9-18 | the badge is a class string exactly when the key names no inherited property; every such badge starts with "status-badge", and a known status can be read back from its badge |
| DatasetsPage.CardBadge | app/datasets/page.tsx:53-57 | the badge is shown exactly when the dataset has a status and is the status badge of its key; a schema-conforming status always gets a class string, never the bare base class |
| DatasetsPage.FilesLine | app/datasets/page.tsx:87-91 | shown only for a non-empty list: the count, "file" or "files", and the names joined by ", " in order |
| DatasetsPage.FilesLineReadsBack | app/datasets/page.tsx:87-91 | the number of files can be read back from the front of the line, and the names joined by ", " follow " present: " |
| DatasetsPage.CountLabel | app/datasets/page.tsx:30 | "dataset" for exactly one, "datasets" otherwise |
| DatasetsPage.CountLabelReadsBack | app/datasets/page.tsx:30 | the count can be read back from the front of the label |
| VisualizationsPage.ChartIcons | app/visualizations/page.tsx:10-17 | the table lists exactly the six chart types, each with its own emoji (line plot 📈, scatter plot 🔸, pie chart 🥧, bar chart 📊, heatmap 🌡️, interactive 🎮); no listed key is an inherited property name |
| VisualizationsPage.ChartTypeIcon | app/visualizations/page.tsx:9-20 | a listed chart type gets its table icon; a key naming an inherited object property gets that property; any other unknown chart-type key gets the bar-chart icon |
| VisualizationsPage.ChartTypeIconsDistinct | app/visualizations/page.tsx:10-19 | the six chart types get six different icons; the unknown key shares its icon with the bar chart only |
| VisualizationsPage.DatasetDisplayValue | app/visualizations/page.tsx:22-27 | this page's copy agrees with the reference definition on every reference |
| VisualizationsPage.DisplayCopiesAgree | app/visualizations/page.tsx:22-27 | the visualizations page's copy and the analyses page's copy agree on every reference |
| VisualizationsPage.DatasetLine | app/visualizations/page.tsx:93-100 | the line is shown exactly when a related dataset is present and is not the empty key, as "Dataset: " and the display value |
| VisualizationsPage.ChartImageSrc | app/visualizations/page.tsx:57-60 | an address is produced exactly when a chart image is present: the CDN address followed by exactly "?w=600&h=400&fit=crop&auto=format,compress" |
| VisualizationsPage.Libraries | app/visualizations/page.tsx:103-110 | the row is shown only for a non-empty list, with the names in stored order |
| VisualizationsPage.CardIcon | app/visualizations/page.tsx:78-82 | the icon is shown exactly when a chart type is set; a conforming chart type gets its own icon, which no other chart type has |
| VisualizationsPage.CountLabel | app/visualizations/page.tsx:39 | "visualization" for exactly one, "visualizations" otherwise |
| VisualizationsPage.CountLabelReadsBack | app/visualizations/page.tsx:39 | the count can be read back from the front of the label |
| NotesPage.NoteIcons | app/notes/page.tsx:9-15 | the table lists exactly the five note types, each with its icon (observation a light bulb, hypothesis a target, question a help circle, conclusion a check circle, todo an alert circle), none with the document icon; no listed key is an inherited property name |
| NotesPage.NoteTypeIcon | app/notes/page.tsx:8-18 | a listed note type gets its table icon; a key naming an inherited object property gets that property; the document icon exactly for the other keys that are not note types |
| NotesPage.NoteTypeIconsDistinct | app/notes/page.tsx:9-15 | the five note types get five different icons |
| NotesPage.PriorityClasses | app/notes/page.tsx:21-26 | the table lists exactly the four priorities, each as "status-badge priority-" and the key; no listed key is an inherited property name |
| NotesPage.PriorityBadge | app/notes/page.tsx:20-29 | a known priority gives "status-badge priority-" and the key; a key naming an inherited object property gives that property; any other key gives exactly "status-badge" |
| NotesPage.PriorityBadgeReadsBack | app/notes/page.tsx:20-29 | the badge is a class string exactly when the key names no inherited property; every such badge starts with "status-badge", and a known priority can be read back from its badge |
| NotesPage.CardBadge | app/notes/page.tsx:64-68 | the badge is shown exactly when a priority is set, is the priority badge of its key, and is labelled with the priority's display value; a conforming priority always gets a class string, never the bare base class |
| NotesPage.Strip | app/notes/page.tsx:82 | the stripped text contains no `#`, `*` or backtick and is no longer than the input |
| NotesPage.StripConcat | app/notes/page.tsx:82 | stripping works piece by piece, so it keeps the other characters in order |
| NotesPage.StripPlain | app/notes/page.tsx:82 | text without markup characters is kept as it is |
| NotesPage.StripIdempotent | app/notes/page.tsx:82 | stripping twice removes nothing more |
| NotesPage.StripKeepsPlainCount | app/notes/page.tsx:82 | exactly the markup characters are removed |
| NotesPage.Preview | app/notes/page.tsx:80-84 | shown exactly for present, non-empty content; the body is the first min(200, n) characters of the stripped content, and "..." always follows |
| NotesPage.PreviewOfPlainText | app/notes/page.tsx:82 | short content without markup is previewed whole, followed by "..." |
| NotesPage.PreviewHasNoMarkup | app/notes/page.tsx:82 | no markup character appears in the preview |
| NotesPage.Tags | app/notes/page.tsx:88-91 | there is one tag more than there are commas |
| NotesPage.TagsAreTrimmedSegments | app/notes/page.tsx:88-91 | each tag is its comma segment without the surrounding white space: only white space is cut, no tag has white space at its ends, no tag contains a comma |
| NotesPage.TagIsTrimmedSegment | app/notes/page.tsx:88-91 | the same for one tag position |
| NotesPage.TagsRoundTrip | app/notes/page.tsx:88-91 | tags without commas and surrounding white space are read back exactly from their comma-joined string |
| NotesPage.DoubledCommaKeepsEmptyTag | app/notes/page.tsx:88 | "a,,b" yields ["a", "", "b"]: empty segments are kept, not dropped |
| NotesPage.TrailingCommaKeepsEmptyTag | app/notes/page.tsx:88 | "a," yields ["a", ""] |
| NotesPage.TagRow | app/notes/page.tsx:86-94 | the row is shown exactly when the tags string is present and non-empty, and holds exactly the string's tags, one more than there are commas |
| NotesPage.CountLabel | app/notes/page.tsx:41 | "note" for exactly one, "notes" otherwise |
| NotesPage.CountLabelReadsBack | app/notes/page.tsx:41 | the count can be read back from the front of the label |
| RecentItems.ItemPath | components/RecentItems.tsx:19-30 | every branch of the switch builds "/" + list type + "/" + slug |
| RecentItems.ItemPathRoundTrip | components/RecentItems.tsx:19-30 | a link reads back to exactly the list type and slug that built it, so different items never share a link |
| RecentItems.LabelOr | components/RecentItems.tsx:35 | the label when present and non-empty, otherwise the fallback |
| RecentItems.ItemSubtitle | components/RecentItems.tsx:32-46 | the subtitle as written: dispatched on the item's `type`; the select label or "Analysis", "Visualization" or "Note"; "" for a missing or unknown `type` |
| RecentItems.KindSubtitle | components/RecentItems.tsx:32-46 | the corrected subtitle, dispatched on the list type: never empty, and the item's select label or the kind's fallback word |
| RecentItems.SubtitlesAgreeOnTaggedItems | components/RecentItems.tsx:32-46 | when the item's `type` is present and matches the list, both subtitles agree |
| RecentItems.UntaggedItemLosesSubtitle | components/RecentItems.tsx:32-46 | an analysis without its `type` gets "" from the component as written, but a non-empty subtitle from the corrected one |
| RecentItems.Render | components/RecentItems.tsx:11-62 | the component as written: "No <type> available" exactly for an absent or empty list; otherwise one row per item in input order, with its link, title and the subtitle dispatched on the item's own `type` |
| RecentItems.RenderCorrected | components/RecentItems.tsx:11-62 | the corrected component: the same placeholder and rows, each with the subtitle chosen by the list's type, which is never empty |
| RecentItems.RenderAgreesOnTaggedItems | components/RecentItems.tsx:32-62 | when every item carries a `type` naming the list's type, the component as written and the corrected one draw the same list |
| StatusChart.StatusLabel | components/ProcessingStatusChart.tsx:26-34 | a known status is labelled with its key capitalised; any other key is shown as it is |
| StatusChart.StatusColor | components/ProcessingStatusChart.tsx:19-38 | pending "#f59e0b", processing "#0066cc", completed "#10b981", error "#ef4444"; exactly the unknown keys get "#64748b" |
| StatusChart.StatusColorsDistinct | components/ProcessingStatusChart.tsx:19-24 | the four statuses get four different colours |
| StatusChart.Chart | components/ProcessingStatusChart.tsx:33-74 | "no data" exactly for an empty histogram; otherwise one label, one value and one colour per entry, all in the histogram's entry order |
| StatusChart.ChartPreservesTotal | components/ProcessingStatusChart.tsx:37 | the chart's values add up to the histogram's total |
| HomePage.EffectiveStatus | app/page.tsx:20 | a dataset's status key, or "pending" when none is set or the key is empty; never empty |
| HomePage.BumpSpec | app/page.tsx:21 | one step of the fold: it keeps keys distinct, adds one to the bumped key and leaves every other count alone |
| HomePage.ProcessingStatsSpec | app/page.tsx:19-23 | the histogram has distinct keys, each with count at least one; each key's count is the number of datasets with that effective status; a key is present exactly when some dataset has that status; the counts sum to the number of datasets |
| HomePage.FirstIndex | app/page.tsx:19-23 | an independent reference for the fold's order: the position of the first dataset with a given effective status, or the number of datasets when none has it; no earlier dataset has that status |
| HomePage.StatsInFirstOccurrenceOrder | app/page.tsx:19-23 | every histogram key occurs among the datasets, and an earlier key's first dataset comes before a later key's |
| HomePage.StatsOrderMatchesFirstOccurrence | app/page.tsx:19-23 | one key comes before another exactly when its first dataset comes before the other's |
| HomePage.UnsetCountsAsPending | app/page.tsx:20 | every dataset with no status is counted under "pending" |
| HomePage.RecentSlice | app/page.tsx:86 | the first min(5, n) analyses, in store order |
| HomePage.ChartOfDatasets | app/page.tsx:19-23 | the status chart is empty exactly when there are no datasets; otherwise its slices add up to the number of datasets |
| HomePage.Render | app/page.tsx:38-87 | the four cards carry the four lists' lengths; the chart is empty exactly without datasets and otherwise sums to their number; the recent list is the placeholder exactly without analyses, and otherwise has min(5, n) rows linking to "/analyses/" and each slug, each with the component's subtitle of that analysis |
| HomePage.RecentSubtitlesAsWritten | app/page.tsx:86 | when the analyses come from the property-restricted collection fetch, every recent row the page draws has an empty subtitle |
| InjectConsoleCapture.Inject | scripts/inject-console-capture.js:24-37 | a page whose text already mentions the script's path is unchanged; so is a page with none of `</head>`, `<head>` and `<body>` |
| InjectConsoleCapture.InjectBeforeHeadClose | scripts/inject-console-capture.js:30-31 | with a `</head>`, the block goes just before the first one and the rest of the page is unchanged |
| InjectConsoleCapture.InjectAfterHeadOpen | scripts/inject-console-capture.js:32-33 | without `</head>` but with `<head>`, the block goes on its own line just after the first `<head>` |
| InjectConsoleCapture.InjectAfterBodyOpen | scripts/inject-console-capture.js:34-37 | with no head tag, the block goes on its own line just after the first `<body>` |
| InjectConsoleCapture.BeforeFirst | scripts/inject-console-capture.js:31 | replacing the first tag with the block and the tag inserts the block where the tag starts |
| InjectConsoleCapture.AfterFirst | scripts/inject-console-capture.js:33 | replacing the first tag with the tag and the block inserts the block where the tag ends |
| InjectConsoleCapture.MarkerInBlock | scripts/inject-console-capture.js:5 | the inserted block contains the marker path the skip test looks for |
| InjectConsoleCapture.InjectMarksPage | scripts/inject-console-capture.js:24-37 | after the step, a page mentions the script's path exactly when it already did or has one of the three anchors |
| InjectConsoleCapture.InjectIdempotent | scripts/inject-console-capture.js:24-37 | running the step on its own output changes nothing |
| Text.ReplaceFirst | scripts/inject-console-capture.js:31 | `replace` with a string pattern: unchanged when the pattern is absent; otherwise only the first occurrence is replaced and everything around it is kept |
| Text.IndexOfFrom | scripts/inject-console-capture.js:30 | the first occurrence at or after the start, or none when there is no such occurrence |
| Text.Split | app/notes/page.tsx:88 | one piece more than there are separators, and no piece contains the separator |
| Text.JoinSplit | app/notes/page.tsx:88 | joining the pieces with the separator restores the string |
| Text.SplitJoin | app/notes/page.tsx:88 | splitting a join restores the items when no item contains the separator |
| Text.TrimIsInnerPiece | app/notes/page.tsx:90 | the trimmed text is a piece of the input with only white space around it and none at its ends |
| Text.TrimIdempotent | app/notes/page.tsx:90 | trimming twice removes nothing more |
| Text.ParseNatToString | app/datasets/page.tsx:30 | the decimal form of a count reads back to the count |
| Text.InflectCount | app/datasets/page.tsx:30 | the count can be read back from the front of any inflected count phrase |

`Text.Trim` and `Text.Join` carry no contracts of their own. Their properties are stated by `Text.TrimIsInnerPiece` and `Text.TrimIdempotent`, and by `Text.JoinSplit`, `Text.SplitJoin` and `DatasetsPage.FilesLineReadsBack`.

## Left out

- The store client, its configuration and the network. The store is a parameter from a query to an outcome. A property restriction is stated as a condition on that parameter (`Cosmic.RespectsProps`), not as store behaviour.
- `Promise.all` concurrency on the home page: the model starts from the four fetched lists.
- The home page passes on a failing fetch's exception, which Next.js renders as the error page. Only the fetch functions' outcomes are modelled.
- Date formatting and relative times: they depend on the locale and the clock.
- The chart tooltip's percentage: floating point with `toFixed`.
- Chart.js registration, icons as components, and all layout and styling markup.
- The build step's file discovery, reads, writes and console logging: only the per-page rewrite is modelled.
- Navigation, the stats-card component, the loading and error pages, and the Next.js configuration: presentation only.
- Embedded datasets: a missing `metadata` object is modelled as an empty `dataset_id`. Both are falsy for `||`, so the display is the same.
- JavaScript numbers are modelled as unbounded integers. Only list lengths and the 404 status are used.
- StatusChart.StatusLabel: a key that names a property of `Object.prototype` (such as "constructor") would pick up that property in the source. The model shows the raw key.
- StatusChart.StatusColor: the same prototype-key caveat applies.
- HomePage.ProcessingStats: JavaScript enumerates integer-like keys first, in ascending order. The model keeps pure insertion order, which matches for status keys that are not decimal numbers.
- NotesPage.Preview: `slice(0, 200)` counts UTF-16 code units. The model counts characters, so text outside the Basic Multilingual Plane differs.
- Text.Trim: it removes a fixed character set, the WhiteSpace and LineTerminator code points of the ECMAScript language specification.

- HomePage.BumpSpec: a status key that names an inherited `Object.prototype` property is counted like any other key. In the source, `acc["__proto__"]` reads the prototype object, so `(acc[k] || 0) + 1` is a string, and assigning a string to `__proto__` is ignored: that dataset is not counted at all. Any other inherited name, such as "constructor", stores a string built from the inherited function rather than a count.
- HomePage.ProcessingStatsSpec: for the same reason, the counts add up to the number of datasets in the source only when no dataset's status key names an inherited property.
- HomePage.ChartOfDatasets: the chart's total inherits the same restriction.
- HomePage.Render: the chart-total clause inherits the same restriction.

Behaviours of the code worth knowing:
- Tags keep empty segments. "a,,b" gives three tags, the middle one empty.
- A collection fetch that fails with anything but a 404 throws a new error with a fixed message. It does not return an empty list, and the error carries no content-type field.
- A by-slug fetch rethrows a non-404 failure unchanged.

## Findings

| source | as written | input that shows it | evidently intended | confidence | as-written member | corrected member |
|---|---|---|---|---|---|---|
| app/analyses/page.tsx:36 | the plural suffix "es" is appended to "analysis" | two analyses: the header reads "2 analysises total" | "2 analyses total", in line with the other pages' labels | high; not executed | AnalysesPage.CountLabelAsWritten, shown by AnalysesPage.CountLabelMisspellsPlural | AnalysesPage.CountLabel |
| components/RecentItems.tsx:32-46 | the subtitle is dispatched on the item's `type` field, but the home page's analyses come from a query whose selected properties (lib/cosmic.ts:59) omit `type` | any analysis with an analysis type, fetched for the home page: its recent row's subtitle is "" instead of its analysis-type label | the subtitle chosen by the list's own type, which is always known | medium, since it depends on the store returning only the selected properties; not executed | RecentItems.ItemSubtitle, shown by HomePage.RecentSubtitlesAsWritten and RecentItems.UntaggedItemLosesSubtitle | RecentItems.KindSubtitle, used by RecentItems.RenderCorrected |
