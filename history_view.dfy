/** The history view (src/components/sections/history-section.tsx): it reads
    only the remote history hook, adapts each entry for display, filters by
    classification, counts per filter, and builds the export payload. */
module HistoryView {

  import opened Wrappers
  import opened Seqs
  import opened Domain
  import opened Utils
  import opened Api

  /** An entry as the view shows it; `confidence` is a whole percentage. */
  datatype AdaptedItem = AdaptedItem(
    id: string,
    content: string,
    classification: Classification,
    confidence: int,
    suggestedResponse: string,
    timestamp: string,
    fileName: Option<string>)

  datatype FilterType = AllItems | ProductiveOnly | UnproductiveOnly

  /** `item.classification === filter` for a filter other than "all". */
  predicate Matches(filter: FilterType, c: Classification)
  {
    match filter
    case AllItems => false
    case ProductiveOnly => c == Productive
    case UnproductiveOnly => c == Unproductive
  }

  function Adapt(e: EmailHistory): AdaptedItem
  {
    AdaptedItem(e.id, e.content, e.classification, ConfidencePercent(e.confidence),
                e.suggestedResponse, e.analysisTimestamp, e.fileName)
  }

  /** `adaptedHistory`: one display item per entry, in the same order. */
  function AdaptHistory(h: seq<EmailHistory>): (items: seq<AdaptedItem>)
    ensures |items| == |h|
    ensures forall i :: 0 <= i < |h| ==>
      && items[i].id == h[i].id && items[i].classification == h[i].classification
      && items[i].content == h[i].content && items[i].fileName == h[i].fileName
      && items[i].confidence == ConfidencePercent(h[i].confidence)
      && items[i].suggestedResponse == h[i].suggestedResponse
      && items[i].timestamp == h[i].analysisTimestamp
  {
    seq(|h|, i requires 0 <= i < |h| => Adapt(h[i]))
  }

  predicate IsProductiveItem(item: AdaptedItem) { item.classification == Productive }

  predicate IsUnproductiveItem(item: AdaptedItem) { item.classification == Unproductive }

  /** The items a filter keeps. */
  function Selected(items: seq<AdaptedItem>, filter: FilterType): seq<AdaptedItem>
  {
    match filter
    case AllItems => items
    case ProductiveOnly => Filter(items, IsProductiveItem)
    case UnproductiveOnly => Filter(items, IsUnproductiveItem)
  }

  /** `filteredHistory`: "all" shows every item; another filter shows exactly
      the items of its classification, in their order. */
  function FilteredHistory(items: seq<AdaptedItem>, filter: FilterType): (r: seq<AdaptedItem>)
    ensures filter == AllItems ==> r == items
    ensures filter != AllItems ==> forall x :: x in r <==> x in items && Matches(filter, x.classification)
    ensures r == Selected(items, filter)
  {
    if filter == AllItems then items
    else
      var keep := (item: AdaptedItem) => item.classification == (if filter == ProductiveOnly then Productive else Unproductive);
      var r := Filter(items, keep);
      SameFilter(items, keep, if filter == ProductiveOnly then IsProductiveItem else IsUnproductiveItem);
      r
  }

  /** Two tests that agree everywhere filter alike. */
  lemma {:induction false} SameFilter(s: seq<AdaptedItem>, p: AdaptedItem -> bool, q: AdaptedItem -> bool)
    requires forall x :: p(x) == q(x)
    ensures Filter(s, p) == Filter(s, q)
  {
    if s != [] {
      SameFilter(s[1..], p, q);
    }
  }

  /** One button of the filter bar. */
  datatype FilterTab = FilterTab(id: FilterType, caption: string, count: nat)

  /** `filters`: the three buttons and their counts. */
  function FilterTabs(items: seq<AdaptedItem>): (tabs: seq<FilterTab>)
    ensures |tabs| == 3
    ensures tabs[0].id == AllItems && tabs[1].id == ProductiveOnly && tabs[2].id == UnproductiveOnly
    ensures tabs[0].count == |items|
    ensures tabs[1].count + tabs[2].count == tabs[0].count
  {
    FilterPartition(items, IsProductiveItem, IsUnproductiveItem);
    [ FilterTab(AllItems, "Todos", |items|),
      FilterTab(ProductiveOnly, "Produtivos", |Filter(items, IsProductiveItem)|),
      FilterTab(UnproductiveOnly, "Improdutivos", |Filter(items, IsUnproductiveItem)|) ]
  }

  function TabIndex(filter: FilterType): nat
  {
    match filter
    case AllItems => 0
    case ProductiveOnly => 1
    case UnproductiveOnly => 2
  }

  /** The list shown under a filter is as long as that filter's count. */
  lemma ShownMatchesCount(items: seq<AdaptedItem>, filter: FilterType)
    ensures |FilteredHistory(items, filter)| == FilterTabs(items)[TabIndex(filter)].count
  {
  }

  /** The per-classification counts of the view agree with those of the
      history it adapts. */
  lemma {:induction false} CountsFollowHistory(h: seq<EmailHistory>)
    ensures FilterTabs(AdaptHistory(h))[1].count == |Filter(h, (e: EmailHistory) => e.classification == Productive)|
  {
    var items := AdaptHistory(h);
    FilterMapLength(items, h, IsProductiveItem, (e: EmailHistory) => e.classification == Productive);
  }

  /** An exported entry. */
  datatype ExportItem = ExportItem(
    id: string,
    classification: Classification,
    confidence: int,
    timestamp: string,
    fileName: Option<string>,
    contentPreview: string)

  datatype ExportData = ExportData(exportDate: string, totalItems: nat, history: seq<ExportItem>)

  const PreviewLength: nat := 100

  /** `handleExportHistory`: refused (None) when there is nothing to export;
      otherwise one entry per item with a 100-character content preview.
      `exportDate` stands for `new Date().toISOString()`. */
  function ExportHistory(items: seq<AdaptedItem>, exportDate: string): (r: Option<ExportData>)
    ensures r.None? <==> items == []
    ensures r.Some? ==> r.value.totalItems == |items| && |r.value.history| == |items|
    ensures r.Some? ==> r.value.exportDate == exportDate
    ensures r.Some? ==> forall i :: 0 <= i < |items| ==>
      && r.value.history[i].id == items[i].id
      && r.value.history[i].classification == items[i].classification
      && r.value.history[i].confidence == items[i].confidence
      && r.value.history[i].timestamp == items[i].timestamp
      && r.value.history[i].fileName == items[i].fileName
      && r.value.history[i].contentPreview == TruncateText(items[i].content, PreviewLength)
      && Utf16Length(r.value.history[i].contentPreview) <= PreviewLength + 3
  {
    if items == [] then None
    else
      Some(ExportData(exportDate, |items|,
        seq(|items|, i requires 0 <= i < |items| =>
          ExportItem(items[i].id, items[i].classification, items[i].confidence,
                     items[i].timestamp, items[i].fileName, TruncateText(items[i].content, PreviewLength)))))
  }

  /** `isoNow.split('T')[0]`: the text before the first 'T'. */
  function DatePart(isoNow: string): (d: string)
    ensures |d| <= |isoNow| && d == isoNow[..|d|]
    ensures 'T' !in d
    ensures |d| < |isoNow| ==> isoNow[|d|] == 'T'
    ensures forall j :: 0 <= j < |isoNow| && isoNow[j] == 'T' ==> |d| <= j
  {
    isoNow[..FirstIndexOf(isoNow, 'T')]
  }

  const ExportFilePrefix: string := "autou-email-history-"

  /** The name of the downloaded file: the prefix, the date part of the
      timestamp, and ".json"; the date part holds no 'T'. */
  function ExportFileName(isoNow: string): (name: string)
    ensures |name| >= |ExportFilePrefix| + 5
    ensures name[..|ExportFilePrefix|] == ExportFilePrefix && name[|name| - 5..] == ".json"
    ensures 'T' !in name[|ExportFilePrefix|..|name| - 5]
  {
    var name := ExportFilePrefix + DatePart(isoNow) + ".json";
    assert name[|ExportFilePrefix|..|name| - 5] == DatePart(isoNow);
    name
  }

  /** For an ISO-8601 timestamp `date + "T" + time`, the file is named
      after its date. */
  lemma ExportFileNameOfIso(date: string, time: string)
    requires 'T' !in date
    ensures ExportFileName(date + "T" + time) == ExportFilePrefix + date + ".json"
  {
    var iso := date + "T" + time;
    var d := DatePart(iso);
    assert iso[|date|] == 'T';
    assert d == date;
  }

  /** What the section renders. The hook's `error` is not consulted. */
  datatype View = Spinner | NothingRendered | EmptyFilter(title: string) | Listing(items: seq<AdaptedItem>)

  function EmptyTitle(filter: FilterType): string
  {
    match filter
    case AllItems => "Nenhuma análise ainda"
    case ProductiveOnly => "Nenhum email produtivo encontrado"
    case UnproductiveOnly => "Nenhum email improdutivo encontrado"
  }

  /** The render decision: loading first, then an empty history renders
      nothing, then the filtered list or its empty message. */
  function Render(loading: bool, h: seq<EmailHistory>, filter: FilterType): (v: View)
    ensures loading ==> v == Spinner
    ensures !loading && h == [] ==> v == NothingRendered
    ensures v.Listing? ==> v.items != [] && v.items == FilteredHistory(AdaptHistory(h), filter)
    ensures v.EmptyFilter? ==> filter != AllItems && FilteredHistory(AdaptHistory(h), filter) == []
    ensures v.EmptyFilter? ==> v.title == EmptyTitle(filter)
    ensures !loading && h != [] ==> (v.Listing? <==> FilteredHistory(AdaptHistory(h), filter) != [])
    ensures !loading && h != [] ==> v.Listing? || v.EmptyFilter?
  {
    var items := AdaptHistory(h);
    if loading then Spinner
    else if items == [] then NothingRendered
    else
      var shown := FilteredHistory(items, filter);
      if shown == [] then EmptyFilter(EmptyTitle(filter)) else Listing(shown)
  }
}
