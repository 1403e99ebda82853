/**
 * The build pipeline of build-kb.js (`main`): query the active pages, turn each
 * into a document (metadata with defaults, the page's flattened notes, external
 * content for GitHub and YouTube sources), split the documents into chunks, and
 * grow a vector store from the first chunk, adding the others one by one.
 *
 * Remote calls are parameters: the database query is the sequence of answers to
 * the successive requests, the raw-file and transcript fetches are functions, the
 * chunker is a function on the document list, and the embedding of a chunk is a
 * function that may fail.
 */
module KnowledgeBase {
  import opened Wrappers
  import opened Text
  import opened NotionReader
  import opened External

  // ---------------------------------------------------------------------------
  // Pages and their metadata

  /** The properties of a database page that the build reads. */
  datatype PageProps = PageProps(
    titleRuns: Option<seq<string>>,    // p["Name"]?.title, as the plain_text of each run
    typeName: Option<string>,          // p["Type"]?.select?.name
    sourceLocation: Option<string>,    // p["Source Location"]?.select?.name
    link: Option<string>,              // p["Link to Resource"]?.url
    technology: Option<seq<string>>,   // p["Technology"]?.multi_select names
    domain: Option<seq<string>>,       // p["Functional Domain"]?.multi_select names
    classification: Option<string>)    // p["Resource Classification"]?.select?.name

  /** A page of the database with the listing of its blocks. */
  datatype DbPage = DbPage(props: PageProps, blocks: Listing)

  /** The fields `main` derives from a page's properties. */
  datatype Metadata = Metadata(
    title: string,
    resourceType: string,
    sourceLocation: string,
    url: Option<string>,
    technology: string,
    domain: string,
    classification: string)

  /** `v || fallback` for an optional string. */
  function OrDefault(v: Option<string>, fallback: string): string {
    if Truthy(v) then v.value else fallback
  }

  /** `names?.join(", ")`, absent when the property is. */
  function JoinedNames(names: Option<seq<string>>): Option<string> {
    match names
    case None => None
    case Some(ns) => Some(Join(ns, ", "))
  }

  /** `title[0]?.plain_text`. */
  function FirstRun(runs: Option<seq<string>>): Option<string> {
    if runs.Some? && |runs.value| > 0 then Some(runs.value[0]) else None
  }

  /** A derived field holds the property's value when that is truthy, and the default otherwise. */
  predicate Defaulted(v: Option<string>, field: string, fallback: string) {
    if Truthy(v) then field == v.value else field == fallback
  }

  /** The metadata defaults of `main`: every text field is non-empty. */
  function PageMetadata(props: PageProps): (m: Metadata)
    ensures Defaulted(FirstRun(props.titleRuns), m.title, "Untitled")
    ensures Defaulted(props.typeName, m.resourceType, "Reference")
    ensures Defaulted(props.sourceLocation, m.sourceLocation, "Internal")
    ensures Defaulted(JoinedNames(props.technology), m.technology, "General")
    ensures Defaulted(JoinedNames(props.domain), m.domain, "General")
    ensures Defaulted(props.classification, m.classification, "Unclassified")
    ensures m.url == props.link
    ensures m.title != "" && m.resourceType != "" && m.sourceLocation != ""
    ensures m.technology != "" && m.domain != "" && m.classification != ""
  {
    Metadata(
      OrDefault(FirstRun(props.titleRuns), "Untitled"),
      OrDefault(props.typeName, "Reference"),
      OrDefault(props.sourceLocation, "Internal"),
      props.link,
      OrDefault(JoinedNames(props.technology), "General"),
      OrDefault(JoinedNames(props.domain), "General"),
      OrDefault(props.classification, "Unclassified"))
  }

  /** A page with no properties set gets every default. */
  lemma EmptyPropertiesGetDefaults()
    ensures PageMetadata(PageProps(None, None, None, None, None, None, None)) ==
      Metadata("Untitled", "Reference", "Internal", None, "General", "General", "Unclassified")
    ensures PageMetadata(PageProps(Some([]), Some(""), Some(""), Some(""), Some([]), Some([""]), Some(""))).technology == "General"
  {
    assert Join([], ", ") == "";
    assert Join([""], ", ") == "";
  }

  // ---------------------------------------------------------------------------
  // The document text

  /** The field lines at the head of the document text. */
  function Fields(m: Metadata): string {
    "\n      RESOURCE: " + m.title
    + "\n      CLASSIFICATION: " + m.classification
    + "\n      TYPE: " + m.resourceType
    + "\n      TECHNOLOGY: " + m.technology
    + "\n      DOMAIN: " + m.domain
    + "\n      SOURCE LINK: " + OrDefault(m.url, "Internal Notion")
  }

  const Gap: string := "\n      \n      "
  const NotesBanner: string := "=== INTERNAL NOTION NOTES ===\n      "
  const ExternalBanner: string := "=== EXTERNAL SOURCE CONTENT ===\n      "
  const Tail: string := "\n    "

  /** `combinedText`. */
  function CombinedText(m: Metadata, notes: string, external: string): string {
    Fields(m) + Gap + (NotesBanner + notes) + Gap + (ExternalBanner + external + Tail)
  }

  /** The field lines start with the title line. */
  lemma FieldsStartWithTitle(m: Metadata)
    ensures StartsWith(Fields(m), "\n      RESOURCE: " + m.title + "\n")
  {
    var lead := "\n      RESOURCE: " + m.title + "\n";
    var f := Fields(m);
    assert f == lead + f[|lead|..];
  }

  /** Where the parts of a text laid out as f + g + a + g + b sit. */
  lemma Layout(f: string, g: string, a: string, b: string)
    ensures var r := f + g + a + g + b;
      r[..|f|] == f && OccursAt(r, a, |f + g|) && OccursAt(r, b, |f + g + a + g|)
  {
    OccursInMiddle(f + g, a, g + b);
    OccursInMiddle(f + g + a + g, b, []);
    var r := f + g + a + g + b;
    assert r == f + g + a + (g + b);
    assert r == f + g + a + g + b + [];
  }

  /**
   * The document text starts with the title line, and the notes and the external
   * content appear verbatim, each right after its section banner.
   */
  lemma CombinedTextSections(m: Metadata, notes: string, external: string)
    ensures var r := CombinedText(m, notes, external);
      StartsWith(r, "\n      RESOURCE: " + m.title + "\n")
      && OccursAt(r, NotesBanner + notes, |Fields(m) + Gap|)
      && OccursAt(r, ExternalBanner + external + Tail, |Fields(m) + Gap + (NotesBanner + notes) + Gap|)
  {
    var f := Fields(m);
    var lead := "\n      RESOURCE: " + m.title + "\n";
    FieldsStartWithTitle(m);
    Layout(f, Gap, NotesBanner + notes, ExternalBanner + external + Tail);
    var r := CombinedText(m, notes, external);
    assert r[..|f|][..|lead|] == r[..|lead|];
  }

  /** The page text `getNotionPageContent` produces. */
  function PageNotes(page: DbPage): string {
    Join(Flatten(page.blocks, 0), "\n")
  }

  /** External content is fetched only for GitHub and YouTube sources. */
  function ExternalFor(m: Metadata, getRaw: string -> Option<string>, getTranscript: string -> Option<seq<string>>): (r: string)
    ensures m.sourceLocation != "GitHub" && m.sourceLocation != "YouTube" ==> r == ""
    ensures m.sourceLocation == "GitHub" ==> r == FetchExternalContent(m.url, "GitHub", getRaw, getTranscript)
    ensures m.sourceLocation == "YouTube" ==> r == FetchExternalContent(m.url, "YouTube", getRaw, getTranscript)
  {
    if m.sourceLocation == "GitHub" || m.sourceLocation == "YouTube" then
      FetchExternalContent(m.url, m.sourceLocation, getRaw, getTranscript)
    else
      ""
  }

  /** The metadata stored with a document. */
  datatype DocMeta = DocMeta(title: string, resourceType: string, technology: string, domain: string,
                             classification: string, source: string)

  /** A LangChain `Document`: its text and its metadata. */
  datatype Doc = Doc(pageContent: string, metadata: DocMeta)

  /** The document `main` builds for one page. */
  function DocumentFor(page: DbPage, getRaw: string -> Option<string>, getTranscript: string -> Option<seq<string>>): (d: Doc)
    ensures var m := PageMetadata(page.props);
      d.metadata.source == OrDefault(page.props.link, "Notion")
      && d.metadata.title == m.title && d.metadata.resourceType == m.resourceType
      && d.pageContent == CombinedText(m, PageNotes(page), ExternalFor(m, getRaw, getTranscript))
  {
    var m := PageMetadata(page.props);
    Doc(CombinedText(m, PageNotes(page), ExternalFor(m, getRaw, getTranscript)),
        DocMeta(m.title, m.resourceType, m.technology, m.domain, m.classification, OrDefault(m.url, "Notion")))
  }

  /** The documents of all pages, in page order. */
  function Documents(pages: seq<DbPage>, getRaw: string -> Option<string>, getTranscript: string -> Option<seq<string>>): (docs: seq<Doc>)
    ensures |docs| == |pages|
    ensures forall i :: 0 <= i < |pages| ==> docs[i] == DocumentFor(pages[i], getRaw, getTranscript)
  {
    if pages == [] then [] else [DocumentFor(pages[0], getRaw, getTranscript)] + Documents(pages[1..], getRaw, getTranscript)
  }

  /** The `for (const page of pages)` loop. */
  method BuildDocuments(pages: seq<DbPage>, getRaw: string -> Option<string>, getTranscript: string -> Option<seq<string>>)
    returns (docs: seq<Doc>)
    ensures docs == Documents(pages, getRaw, getTranscript)
  {
    docs := [];
    for i := 0 to |pages|
      invariant |docs| == i
      invariant forall j :: 0 <= j < i ==> docs[j] == DocumentFor(pages[j], getRaw, getTranscript)
    {
      var page := pages[i];
      var m := PageMetadata(page.props);
      var internalNotes := GetNotionPageContent(page.blocks);
      var externalData := "";
      if m.sourceLocation == "GitHub" || m.sourceLocation == "YouTube" {
        externalData := FetchExternalContent(m.url, m.sourceLocation, getRaw, getTranscript);
      }
      docs := docs + [Doc(CombinedText(m, internalNotes, externalData),
                          DocMeta(m.title, m.resourceType, m.technology, m.domain, m.classification, OrDefault(m.url, "Notion")))];
    }
  }

  // ---------------------------------------------------------------------------
  // The database query

  /** The answer to one `databases.query` request. */
  datatype QueryAnswer = QueryPage(results: seq<DbPage>, hasMore: bool) | QueryFailed(message: string)

  /** `Some(acc + rest)` when the rest was collected. */
  function PrependTo(acc: seq<DbPage>, rest: Option<seq<DbPage>>): Option<seq<DbPage>> {
    match rest
    case None => None
    case Some(r) => Some(acc + r)
  }

  /**
   * The pages collected from request k on; a failed request (or one past the
   * recorded answers) makes the whole query fail.
   */
  function CollectFrom(answers: seq<QueryAnswer>, k: nat): Option<seq<DbPage>>
    decreases |answers| - k
  {
    if k >= |answers| then None
    else match answers[k]
      case QueryFailed(_) => None
      case QueryPage(results, more) => if more then PrependTo(results, CollectFrom(answers, k + 1)) else Some(results)
  }

  /** The pagination loop of `main`; `None` is the caught failure that ends the build. */
  method QueryActivePages(answers: seq<QueryAnswer>) returns (pages: Option<seq<DbPage>>)
    ensures pages == CollectFrom(answers, 0)
  {
    var acc: seq<DbPage> := [];
    var k := 0;
    var hasMore := true;
    match CollectFrom(answers, 0) {
      case None =>
      case Some(r) => assert [] + r == r;
    }
    while hasMore
      invariant k <= |answers|
      invariant hasMore ==> CollectFrom(answers, 0) == PrependTo(acc, CollectFrom(answers, k))
      invariant !hasMore ==> CollectFrom(answers, 0) == Some(acc)
      decreases |answers| - k, hasMore
    {
      if k >= |answers| {
        return None;
      }
      match answers[k] {
        case QueryFailed(_) =>
          return None;
        case QueryPage(results, more) =>
          match CollectFrom(answers, k + 1) {
            case None =>
            case Some(r) => assert acc + (results + r) == acc + results + r;
          }
          acc := acc + results;
          hasMore := more;
          k := k + 1;
      }
    }
    pages := Some(acc);
  }

  /** Requests k .. m-1 answer pages with more to come, and request m the last page. */
  predicate StopsAt(answers: seq<QueryAnswer>, k: nat, m: nat) {
    k <= m < |answers|
    && (forall j :: k <= j < m ==> answers[j].QueryPage? && answers[j].hasMore)
    && answers[m].QueryPage? && !answers[m].hasMore
  }

  /** The results of requests k .. m, in order. */
  function ResultsThrough(answers: seq<QueryAnswer>, k: nat, m: nat): seq<DbPage>
    requires k <= m < |answers|
    requires forall j :: k <= j <= m ==> answers[j].QueryPage?
    decreases m - k
  {
    if k == m then answers[m].results else answers[k].results + ResultsThrough(answers, k + 1, m)
  }

  lemma {:induction false} CollectSucceedsOnlyAtStop(answers: seq<QueryAnswer>, k: nat)
    requires CollectFrom(answers, k).Some?
    ensures exists m :: StopsAt(answers, k, m)
    decreases |answers| - k
  {
    if answers[k].hasMore {
      CollectSucceedsOnlyAtStop(answers, k + 1);
      var m :| StopsAt(answers, k + 1, m);
      assert StopsAt(answers, k, m);
    } else {
      assert StopsAt(answers, k, k);
    }
  }

  lemma {:induction false} CollectAtStop(answers: seq<QueryAnswer>, k: nat, m: nat)
    requires StopsAt(answers, k, m)
    ensures CollectFrom(answers, k) == Some(ResultsThrough(answers, k, m))
    decreases m - k
  {
    if k < m {
      CollectAtStop(answers, k + 1, m);
    }
  }

  /**
   * The query is all or nothing: it yields pages exactly when every request up to
   * a last page (one without `has_more`) succeeds, and then it yields the results
   * of those requests in order.
   */
  lemma QueryAllOrNothing(answers: seq<QueryAnswer>)
    ensures CollectFrom(answers, 0).Some? <==> exists m :: StopsAt(answers, 0, m)
    ensures forall m :: StopsAt(answers, 0, m) ==> CollectFrom(answers, 0) == Some(ResultsThrough(answers, 0, m))
  {
    if CollectFrom(answers, 0).Some? {
      CollectSucceedsOnlyAtStop(answers, 0);
    }
    forall m | StopsAt(answers, 0, m)
      ensures CollectFrom(answers, 0) == Some(ResultsThrough(answers, 0, m))
    {
      CollectAtStop(answers, 0, m);
    }
  }

  // ---------------------------------------------------------------------------
  // The vector store

  /** A stored chunk with its embedding. */
  datatype Record = Record(chunk: Doc, vector: seq<int>)

  /** The records of the chunks whose embedding succeeds, in chunk order. */
  function Embedded(chunks: seq<Doc>, embed: Doc -> Option<seq<int>>): (r: seq<Record>)
    ensures |r| <= |chunks|
    ensures forall rec <- r :: rec.chunk in chunks && embed(rec.chunk) == Some(rec.vector)
  {
    if chunks == [] then []
    else
      var rest := Embedded(chunks[1..], embed);
      match embed(chunks[0])
      case Some(v) => [Record(chunks[0], v)] + rest
      case None => rest
  }

  function ChunksOf(records: seq<Record>): (cs: seq<Doc>)
    ensures |cs| == |records|
    ensures forall i :: 0 <= i < |records| ==> cs[i] == records[i].chunk
  {
    if records == [] then [] else [records[0].chunk] + ChunksOf(records[1..])
  }

  lemma {:induction false} EmbeddedAppend(a: seq<Doc>, b: seq<Doc>, embed: Doc -> Option<seq<int>>)
    ensures Embedded(a + b, embed) == Embedded(a, embed) + Embedded(b, embed)
  {
    if a != [] {
      EmbeddedAppend(a[1..], b, embed);
      assert (a + b)[1..] == a[1..] + b;
    } else {
      assert a + b == b;
    }
  }

  lemma {:induction false} ChunksOfAppend(a: seq<Record>, b: seq<Record>)
    ensures ChunksOf(a + b) == ChunksOf(a) + ChunksOf(b)
  {
    assert |ChunksOf(a + b)| == |ChunksOf(a) + ChunksOf(b)|;
    forall i | 0 <= i < |a + b|
      ensures ChunksOf(a + b)[i] == (ChunksOf(a) + ChunksOf(b))[i]
    {
    }
  }

  /** When every embedding succeeds, every chunk is stored, in order. */
  lemma {:induction false} EmbeddedAllSucceed(chunks: seq<Doc>, embed: Doc -> Option<seq<int>>)
    requires forall c <- chunks :: embed(c).Some?
    ensures ChunksOf(Embedded(chunks, embed)) == chunks
  {
    if chunks != [] {
      EmbeddedAllSucceed(chunks[1..], embed);
      var rest := Embedded(chunks[1..], embed);
      var first := Record(chunks[0], embed(chunks[0]).value);
      ChunksOfAppend([first], rest);
      assert chunks == [chunks[0]] + chunks[1..];
    }
  }

  /** A chunk whose embedding fails is skipped; the chunks around it are stored in order. */
  lemma EmbeddedSkipsFailure(chunks: seq<Doc>, j: nat, embed: Doc -> Option<seq<int>>)
    requires j < |chunks| && embed(chunks[j]).None?
    requires forall i :: 0 <= i < |chunks| && i != j ==> embed(chunks[i]).Some?
    ensures ChunksOf(Embedded(chunks, embed)) == chunks[..j] + chunks[j + 1..]
    ensures |Embedded(chunks, embed)| == |chunks| - 1
  {
    var before, after := chunks[..j], chunks[j + 1..];
    assert chunks == before + ([chunks[j]] + after);
    EmbeddedAppend(before, [chunks[j]] + after, embed);
    EmbeddedAppend([chunks[j]], after, embed);
    assert Embedded([chunks[j]], embed) == [];
    assert forall c <- before :: embed(c).Some?;
    assert forall c <- after :: embed(c).Some?;
    EmbeddedAllSucceed(before, embed);
    EmbeddedAllSucceed(after, embed);
    ChunksOfAppend(Embedded(before, embed), Embedded(after, embed));
  }

  /** The store the build saves: chunk 0, then every later chunk whose add succeeded. */
  function StoreRecords(chunks: seq<Doc>, embed: Doc -> Option<seq<int>>): seq<Record>
    requires chunks != [] && embed(chunks[0]).Some?
  {
    [Record(chunks[0], embed(chunks[0]).value)] + Embedded(chunks[1..], embed)
  }

  /** An HNSWLib store held in memory: its records in insertion order. */
  class VectorStore {
    var records: seq<Record>

    /** `HNSWLib.fromDocuments([seed], embeddings)` once the seed's embedding succeeded. */
    constructor FromDocument(seed: Doc, vector: seq<int>)
      ensures records == [Record(seed, vector)]
    {
      records := [Record(seed, vector)];
    }

    /** `addDocuments([chunk])` inside its `try`: a failed embedding adds nothing. */
    method AddDocument(chunk: Doc, embed: Doc -> Option<seq<int>>) returns (added: bool)
      modifies this
      ensures added <==> embed(chunk).Some?
      ensures records == old(records) + (if added then [Record(chunk, embed(chunk).value)] else [])
    {
      match embed(chunk) {
        case Some(v) =>
          records := records + [Record(chunk, v)];
          added := true;
        case None =>
          added := false;
      }
    }
  }

  /**
   * Seed the store with chunk 0 and try chunks 1 .. n-1 in order. The seed is not
   * protected: with no chunks or a failed seed embedding the build throws (null).
   */
  method BuildStore(chunks: seq<Doc>, embed: Doc -> Option<seq<int>>) returns (store: VectorStore?)
    ensures store == null <==> chunks == [] || embed(chunks[0]).None?
    ensures store != null ==> fresh(store) && store.records == StoreRecords(chunks, embed)
  {
    if chunks == [] || embed(chunks[0]).None? {
      return null;
    }
    store := new VectorStore.FromDocument(chunks[0], embed(chunks[0]).value);
    for i := 1 to |chunks|
      invariant fresh(store)
      invariant store.records == [Record(chunks[0], embed(chunks[0]).value)] + Embedded(chunks[1..i], embed)
    {
      var _ := store.AddDocument(chunks[i], embed);
      EmbeddedAppend(chunks[1..i], [chunks[i]], embed);
      assert chunks[1..i + 1] == chunks[1..i] + [chunks[i]];
    }
    assert chunks[1..|chunks|] == chunks[1..];
  }

  /** Only the add of chunk j fails: after the seed, that is position j - 1 of the tail. */
  lemma TailFailsOnlyAt(chunks: seq<Doc>, j: nat, embed: Doc -> Option<seq<int>>)
    requires 1 <= j < |chunks|
    requires forall i :: 0 <= i < |chunks| && i != j ==> embed(chunks[i]).Some?
    ensures forall i :: 0 <= i < |chunks[1..]| && i != j - 1 ==> embed(chunks[1..][i]).Some?
  {
    forall i | 0 <= i < |chunks[1..]| && i != j - 1
      ensures embed(chunks[1..][i]).Some?
    {
      assert chunks[1..][i] == chunks[i + 1];
    }
  }

  /** The seed followed by the tail without position j - 1 is the chunks without chunk j. */
  lemma TailAroundFailure(chunks: seq<Doc>, j: nat)
    requires 1 <= j < |chunks|
    ensures [chunks[0]] + (chunks[1..][..j - 1] + chunks[1..][j..]) == chunks[..j] + chunks[j + 1..]
  {
    assert chunks[1..][..j - 1] == chunks[1..j];
    assert chunks[1..][j..] == chunks[j + 1..];
    assert chunks[..j] == [chunks[0]] + chunks[1..j];
  }

  /**
   * A failed add among the chunks after the seed is skipped: the saved store
   * holds every other chunk, in order, and one record fewer than there are chunks.
   */
  lemma StoreSkipsFailedAdd(chunks: seq<Doc>, j: nat, embed: Doc -> Option<seq<int>>)
    requires 1 <= j < |chunks|
    requires embed(chunks[j]).None?
    requires forall i :: 0 <= i < |chunks| && i != j ==> embed(chunks[i]).Some?
    ensures |StoreRecords(chunks, embed)| == |chunks| - 1
    ensures ChunksOf(StoreRecords(chunks, embed)) == chunks[..j] + chunks[j + 1..]
  {
    var tail := chunks[1..];
    TailFailsOnlyAt(chunks, j, embed);
    EmbeddedSkipsFailure(tail, j - 1, embed);
    var seed := Record(chunks[0], embed(chunks[0]).value);
    ChunksOfAppend([seed], Embedded(tail, embed));
    assert ChunksOf([seed]) == [chunks[0]];
    TailAroundFailure(chunks, j);
  }

  /** Ten chunks of which one after the seed fails to embed leave nine records. */
  lemma OneFailedAddAmongTen(chunks: seq<Doc>, j: nat, embed: Doc -> Option<seq<int>>)
    requires |chunks| == 10 && 1 <= j < 10
    requires embed(chunks[j]).None?
    requires forall i :: 0 <= i < 10 && i != j ==> embed(chunks[i]).Some?
    ensures |StoreRecords(chunks, embed)| == 9
  {
    StoreSkipsFailedAdd(chunks, j, embed);
  }

  // ---------------------------------------------------------------------------
  // The whole build

  datatype BuildOutcome =
    | QueryAborted             // the query failed: `main` logs and returns
    | NoDocuments              // no active pages: nothing is built
    | SeedFailed               // seeding the store threw: the build ends without saving
    | Saved(records: seq<Record>)  // the store written to disk

  /** `main`, with the remote services as parameters. */
  method BuildKnowledgeBase(answers: seq<QueryAnswer>,
                            getRaw: string -> Option<string>,
                            getTranscript: string -> Option<seq<string>>,
                            split: seq<Doc> -> seq<Doc>,
                            embed: Doc -> Option<seq<int>>)
    returns (outcome: BuildOutcome)
    ensures outcome == QueryAborted <==> CollectFrom(answers, 0).None?
    ensures outcome == NoDocuments <==> CollectFrom(answers, 0) == Some([])
    ensures CollectFrom(answers, 0).Some? && CollectFrom(answers, 0).value != [] ==>
      var chunks := split(Documents(CollectFrom(answers, 0).value, getRaw, getTranscript));
      outcome == if chunks == [] || embed(chunks[0]).None? then SeedFailed else Saved(StoreRecords(chunks, embed))
  {
    var pages := QueryActivePages(answers);
    if pages.None? {
      return QueryAborted;
    }
    var docs := BuildDocuments(pages.value, getRaw, getTranscript);
    if |docs| == 0 {
      return NoDocuments;
    }
    var chunks := split(docs);
    var store := BuildStore(chunks, embed);
    if store == null {
      return SeedFailed;
    }
    outcome := Saved(store.records);
  }
}
