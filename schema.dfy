/** The canonical event record produced by ingestion and the two things derived from it
    for the index: the text that is embedded and the metadata the retriever filters on. */
module Schema {
  import opened Text
  import Seqs

  /** An instant, in seconds since the Unix epoch, UTC. */
  type Instant = int

  datatype Event = Event(
    eventId: string,
    sourceAgendaUid: Option<string>,
    title: string,
    summary: Option<string>,
    longDescription: Option<string>,
    categories: seq<string>,
    tags: seq<string>,
    categoryNorm: Option<string>,
    start: Instant,
    end: Option<Instant>,
    allDay: bool,
    venueName: string,
    address: Option<string>,
    city: string,
    postalCode: Option<string>,
    country: string,
    lat: Option<real>,
    lon: Option<real>,
    arrondissement: Option<string>,
    organizer: Option<string>,
    price: Option<string>,
    isFree: bool,
    priceBucket: Option<string>,
    language: seq<string>,
    url: Option<string>,
    imageUrl: Option<string>,
    updatedAt: Option<Instant>)

  /** The metadata dictionary stored beside each indexed document. Timestamps are kept
      as the ISO-8601 text the event's datetimes were rendered to. */
  datatype Metadata = Metadata(
    eventId: string,
    title: string,
    startDatetime: string,
    endDatetime: Option<string>,
    venueName: string,
    city: string,
    categories: seq<string>,
    categoryNorm: Option<string>,
    isFree: bool,
    priceBucket: Option<string>,
    url: Option<string>,
    lat: Option<real>,
    lon: Option<real>,
    arrondissement: Option<string>)

  /** A LangChain document: the embedded text and its metadata. */
  datatype Document = Document(pageContent: string, metadata: Metadata)

  /** The raw value handed to the `categories`/`tags` validator. */
  datatype ListInput = NullValue | StringValue(s: string) | ListValue(items: seq<string>)

  /** `ensure_list`: None becomes `[]`, a lone string `s` becomes `[s]`, a list is kept. */
  function EnsureList(v: ListInput): seq<string>
  {
    match v
    case NullValue => []
    case StringValue(s) => [s]
    case ListValue(items) => items
  }

  /** `get_normalized_title`: lower-cased, surrounding whitespace removed. */
  function NormalizedTitle(e: Event): string
  {
    Strip(Lower(e.title))
  }

  /** The normalised title has no surrounding whitespace and no capital letter. */
  lemma NormalizedTitleShape(e: Event)
    ensures var r := NormalizedTitle(e);
      && (r == [] || (!IsSpace(r[0]) && !IsSpace(r[|r| - 1])))
      && (forall i :: 0 <= i < |r| ==> !('A' <= r[i] <= 'Z'))
  {
    var l := Lower(e.title);
    StripIsSlice(l);
    var a := |l| - |DropLeadingSpace(l)|;
    var r := NormalizedTitle(e);
    forall i | 0 <= i < |r| ensures !('A' <= r[i] <= 'Z') {
      assert r[i] == l[a + i];
    }
  }

  /** The long description as embedded: its first 800 characters, plus "..." only when
      something was cut. */
  function DescriptionExcerpt(d: string): (r: string)
    ensures |d| <= 800 ==> r == d
    ensures |d| > 800 ==> |r| == 803 && r[..800] == d[..800] && r[800..] == "..."
  {
    Take(d, 800) + (if |d| > 800 then "..." else "")
  }

  /** Venue, city and the optional arrondissement joined by ", ", empty parts dropped. */
  function LocationLine(e: Event): string
  {
    Join(", ", Seqs.Filter(LocationCandidates(e), NonEmpty))
  }

  function LocationCandidates(e: Event): seq<string>
  {
    [e.venueName, e.city] + (if Truthy(e.arrondissement) then [e.arrondissement.value] else [])
  }

  predicate NonEmpty(p: string) {
    p != ""
  }

  lemma LocationLineParts(e: Event)
    ensures e.venueName != "" ==> Contains(LocationLine(e), e.venueName)
    ensures e.city != "" ==> Contains(LocationLine(e), e.city)
    ensures Truthy(e.arrondissement) ==> Contains(LocationLine(e), e.arrondissement.value)
    ensures (e.venueName != "" && e.city != "" && !Truthy(e.arrondissement))
              ==> LocationLine(e) == e.venueName + ", " + e.city
  {
    var candidates := LocationCandidates(e);
    var kept := Seqs.Filter(candidates, NonEmpty);
    Seqs.FilterIsSubsequence(candidates, NonEmpty);
    if e.venueName != "" {
      JoinContainsPart(", ", kept, IndexOf(kept, e.venueName));
    }
    if e.city != "" {
      JoinContainsPart(", ", kept, IndexOf(kept, e.city));
    }
    if Truthy(e.arrondissement) {
      JoinContainsPart(", ", kept, IndexOf(kept, e.arrondissement.value));
    }
    if e.venueName != "" && e.city != "" && !Truthy(e.arrondissement) {
      assert candidates == [e.venueName, e.city];
      Seqs.FilterAll(candidates, NonEmpty);
      assert kept == [e.venueName, e.city];
      assert Join(", ", kept) == e.venueName + ", " + Join(", ", [e.city]);
    }
  }

  function IndexOf(s: seq<string>, x: string): (i: nat)
    requires x in s
    ensures i < |s| && s[i] == x
  {
    if s[0] == x then 0 else 1 + IndexOf(s[1..], x)
  }

  /** The tags shown in the document text: at most the first five. */
  function ShownTags(e: Event): (r: seq<string>)
    ensures |r| <= 5 && r <= e.tags
    ensures |e.tags| <= 5 ==> r == e.tags
  {
    Take(e.tags, 5)
  }

  function MetadataParts(e: Event): seq<string>
  {
    (if Truthy(e.categoryNorm) then ["category: " + e.categoryNorm.value] else [])
    + (if e.isFree then ["price: free"]
       else if Truthy(e.priceBucket) then ["price: " + e.priceBucket.value]
       else [])
    + ["city: " + e.city]
  }

  /** The "category: …; price: …; city: …" line. */
  function MetadataLine(e: Event): string
  {
    Join("; ", MetadataParts(e))
  }

  /** The price shown is "free" for a free event, else the bucket when there is one; the
      line always ends with the city. */
  lemma MetadataLineContents(e: Event)
    ensures e.isFree ==> Contains(MetadataLine(e), "price: free")
    ensures (!e.isFree && Truthy(e.priceBucket))
              ==> Contains(MetadataLine(e), "price: " + e.priceBucket.value)
    ensures var r, tail := MetadataLine(e), "city: " + e.city;
              |r| >= |tail| && r[|r| - |tail|..] == tail
  {
    var parts := MetadataParts(e);
    JoinEndsWith("; ", parts);
    if e.isFree || Truthy(e.priceBucket) {
      JoinContainsPart("; ", parts, |parts| - 2);
    }
  }

  function DocumentParts(e: Event): seq<string>
  {
    [e.title]
    + (if Truthy(e.summary) then [e.summary.value] else [])
    + (if Truthy(e.longDescription) then [DescriptionExcerpt(e.longDescription.value)] else [])
    + [LocationLine(e)]
    + (if |e.categories| > 0 then ["Categories: " + Join(", ", e.categories)] else [])
    + (if |e.tags| > 0 then ["Tags: " + Join(", ", ShownTags(e))] else [])
    + [MetadataLine(e)]
  }

  /** `get_document_text`: the lines embedded for one event, joined by newlines. */
  function DocumentText(e: Event): string
  {
    Join("\n", DocumentParts(e))
  }

  /** The first line of the embedded text is the title, and the long description appears
      only as its excerpt. */
  lemma DocumentTextShape(e: Event)
    ensures e.title + "\n" <= DocumentText(e)
    ensures Truthy(e.longDescription) ==>
              Contains(DocumentText(e), DescriptionExcerpt(e.longDescription.value))
    ensures Contains(DocumentText(e), MetadataLine(e))
  {
    var parts := DocumentParts(e);
    assert parts[0] == e.title && |parts| >= 3;
    JoinStartsWith("\n", parts);
    JoinContainsPart("\n", parts, |parts| - 1);
    if Truthy(e.longDescription) {
      var k := if Truthy(e.summary) then 2 else 1;
      assert parts[k] == DescriptionExcerpt(e.longDescription.value);
      JoinContainsPart("\n", parts, k);
    }
  }

  /** `get_metadata`, with `isoFormat` standing for `datetime.isoformat`. */
  function MetadataOf(e: Event, isoFormat: Instant -> string): (m: Metadata)
    ensures m.startDatetime == isoFormat(e.start)
    ensures m.endDatetime.None? <==> e.end.None?
    ensures e.end.Some? ==> m.endDatetime == Some(isoFormat(e.end.value))
  {
    Metadata(
      eventId := e.eventId,
      title := e.title,
      startDatetime := isoFormat(e.start),
      endDatetime := if e.end.Some? then Some(isoFormat(e.end.value)) else None,
      venueName := e.venueName,
      city := e.city,
      categories := e.categories,
      categoryNorm := e.categoryNorm,
      isFree := e.isFree,
      priceBucket := e.priceBucket,
      url := e.url,
      lat := e.lat,
      lon := e.lon,
      arrondissement := e.arrondissement)
  }

  /** The document `build_index` creates for one event. */
  function DocumentOf(e: Event, isoFormat: Instant -> string): Document
  {
    Document(DocumentText(e), MetadataOf(e, isoFormat))
  }
}
