# Bridge Buddy knowledge base, retriever and chat session — a Dafny model

Bridge Buddy answers questions about a portfolio kept in a Notion database. It has three parts:

- **build-kb.js** (`main`) queries the database for active pages. For each page it:
  - flattens the page's block tree into indented, decorated text (`scanBlocks` / `getNotionPageContent`);
  - derives metadata with defaults;
  - for GitHub and YouTube sources, fetches the raw file or the video transcript (`fetchExternalContent`, `getCleanYoutubeUrl`);
  - builds one document.

  It then splits the documents into chunks. It seeds a vector store with the first chunk and adds the remaining chunks one at a time, skipping any chunk that fails.
- **server.js** keeps the loaded store in `memoryStore`. `findRelevantContext` scores every chunk by its inner product with the query embedding. It sorts the chunks by descending score, keeps the first `topK`, and renders them joined by a separator.
- **rag-tutor.js** keeps the chat history. A successful reply appends the user turn and the model turn. A failure leaves the history as it was and returns a fixed apology. `resetHistory` empties it.

Modules, one file each:

- `Wrappers`: `Option`.
- `Text`: the JavaScript string operations used: `repeat`, `startsWith`, `includes`, first-occurrence `replace` and `join`.
- `YouTube`: the link canonicaliser.
- `External`: the external-content policy.
- `NotionReader`: the block-tree flattener, a class `PageReader` whose recursive `ScanBlocks` is proved against the pre-order function `Flatten`.
- `KnowledgeBase`: the build.
- `Retriever`: the scorer, the stable sort, the slice, the rendering, and the class `KnowledgeServer`.
- `Tutor`: the chat session as the class `ChatSession`.

Remote services are parameters of the model:

- The answers to successive `blocks.children.list` requests are stored in the block tree itself. A request past the recorded answers fails.
- The answers to successive `databases.query` requests are a sequence.
- The raw-file GET and the transcript download are functions returning `Option`.
- The chunker is a function on the document list.
- The embedding of a chunk or a query is a function returning `Option`, where `None` means the call threw.
- The chat model is a function from the history, the context and the question to a `Reply`.

## Model

| member | source | states |
|---|---|---|
| Text.Indent | build-kb.js:63 | `"  ".repeat(depth)` is exactly 2·depth spaces |
| Text.IndentAdds | build-kb.js:63 | indentation for d + e levels is that for d followed by that for e |
| Text.IndexOf | build-kb.js:104 | `includes`/`indexOf`: the first occurrence at or after `from`, none earlier, or none at all |
| Text.ReplaceFirst | build-kb.js:105 | defines `s.replace(p, rep)` with a string pattern: the text before the first occurrence found by `IndexOf`, then `rep`, then the text after it; the text unchanged when there is none |
| Text.ReplaceFirstAt | build-kb.js:105 | string `replace` rewrites the first occurrence only, leaving the text around it intact |
| Text.ReplaceFirstAfter | build-kb.js:105 | when the pattern does not occur inside the head, `replace` rewrites the occurrence right after it |
| Text.Join | build-kb.js:96 | joining no parts gives "", joining one part gives that part |
| Text.JoinAppend | build-kb.js:96 | joining two non-empty lists puts exactly one separator between their texts |
| Text.JoinPrefix | build-kb.js:96 | the text joined from a prefix of the units is a prefix of the full text |
| YouTube.MarkerLength | build-kb.js:37 | a non-zero marker length means one alternative of the group matches there and ends in `/` or `=` |
| YouTube.LineEndFrom | build-kb.js:37 | `.` stops at the first line terminator: no terminator before the result, one at it |
| YouTube.LastMarker | build-kb.js:37 | the greedy `^.*` picks the rightmost marker at or before a position, or there is none |
| YouTube.RunEnd | build-kb.js:37 | `[^#&?]*` takes the longest run without `#`, `&` or `?` |
| YouTube.MatchVideoId | build-kb.js:37-38 | `url.match` succeeds exactly when a marker starts on the first line, and then yields the regex match |
| YouTube.CleanYoutubeUrl | build-kb.js:36-42 | a link is returned iff the regex matches with an 11-character id, and it is the watch prefix plus that id |
| YouTube.RegexMatchUnique | build-kb.js:37 | the backtracking order leaves exactly one match |
| YouTube.RunEndUnique | build-kb.js:37 | the id run is determined by its start |
| YouTube.CanonicalUrlIsFixedPoint | build-kb.js:39-41 | a canonical watch link with a standard 11-character id is returned unchanged |
| YouTube.CleanIsIdempotent | build-kb.js:36-42 | canonicalising twice gives what canonicalising once gives |
| YouTube.ShortLinkIsCanonicalised | build-kb.js:37-41 | a `youtu.be/<id>` link becomes the watch link of the same id |
| YouTube.NoMarkerAfterWatch | build-kb.js:37 | in a canonical link no marker starts after `watch?v=` |
| YouTube.NoMarkerAfterShortHost | build-kb.js:37 | in a short link no marker starts after `youtu.be/` |
| External.RawGithubUrl | build-kb.js:105 | defines the raw-file link: the first `github.com` replaced by `raw.githubusercontent.com`, then the first `/blob/` by `/` |
| External.RawGithubUrlOfBlobLink | build-kb.js:105 | `github.com/<owner>/<repo>/blob/<path>` becomes `raw.githubusercontent.com/<owner>/<repo>/<path>` |
| External.HostIsRewritten | build-kb.js:105 | the first `replace` changes the host of an `https://github.com/` link |
| External.NoBlobBeforeRepository | build-kb.js:105 | the second `replace` cannot hit a `/blob/` before the repository segment |
| External.SegmentIsNotBlob | build-kb.js:105 | a slash-delimited segment other than `blob` is not an occurrence of `/blob/` |
| External.RouteOf | build-kb.js:101-111 | no link iff the url is falsy; the GitHub branch iff the source is GitHub and the url contains `github.com` |
| External.FetchExternalContent | build-kb.js:100-127 | "" without a link or on other routes; GitHub: non-empty iff the GET succeeded, then banner + body + newline; video: non-empty iff the link canonicalises, the transcript arrives and is at least 50 long, then banner + text + newline |
| External.ExternalContentShape | build-kb.js:100-127 | the external text is empty or one bannered block ending in a newline |
| NotionReader.Decorate | build-kb.js:66-71 | defines branch A's unit by kind: a heading is newline, indentation, `### `, text, newline; a kind containing `list` is indentation, `* `, text; a callout is newline, indentation, `> 💡 `, text, newline; any other kind is indentation then text |
| NotionReader.CodeFence | build-kb.js:78 | defines branch B's unit: newline, indentation, three backticks and the language, newline, the code, newline, indentation, three backticks, newline |
| NotionReader.LanguageOf | build-kb.js:76 | defines the language fallback: the block's language when truthy, `text` otherwise |
| NotionReader.RenderAsWritten | build-kb.js:66-79 | defines the loop body's branch order as written: rich text first (any kind, code included), then a code block without rich text throws, otherwise nothing is pushed |
| NotionReader.Render | build-kb.js:63-79 | a unit exists iff the block is code or has rich text; a non-code block yields a unit exactly when the code pushes one, and the same unit |
| NotionReader.DecorateOpens | build-kb.js:66-71 | headings open with a newline, the indentation and `### `; list items with the indentation and `* `; callouts with a newline, the indentation and `> 💡 `; other text with the indentation alone |
| NotionReader.CodeFenceOpens | build-kb.js:78 | a fenced unit opens with a newline, the indentation, then the fence and its language |
| NotionReader.RenderOpens | build-kb.js:63-79 | every unit starts with its kind's leading newline, then the indentation of its depth, then its kind's marker (a code block's marker is the fence with its language) |
| NotionReader.Own | build-kb.js:63-79 | defines the units a block's own text contributes: its rendered unit, or none |
| NotionReader.BlockUnits | build-kb.js:61-84 | defines a block's part of the pre-order: its own unit, then, when `has_children`, its children's listing flattened one level deeper |
| NotionReader.FlattenBlocks | build-kb.js:61-85 | defines the units of a page's results from position i on, in result order |
| NotionReader.FlattenFrom | build-kb.js:50-92 | defines the units of a listing from request k on: nothing once a request fails, otherwise that page's results, then the next request only when `next_cursor` is truthy |
| NotionReader.Flatten | build-kb.js:49-93 | defines the pre-order reference of `scanBlocks(blockId, depth)`: the units of the listing from its first request |
| NotionReader.FlattenFromGot | build-kb.js:52-89 | a page's results are visited in order, and the next request is made only when `next_cursor` is truthy |
| NotionReader.FlattenBlocksStep | build-kb.js:61-85 | a result contributes its own unit, then its subtree one level deeper, then its later siblings |
| NotionReader.PageReader.constructor | build-kb.js:46 | the accumulator starts empty |
| NotionReader.PageReader.ScanBlocks | build-kb.js:49-93 | the paginated, recursive scan appends exactly the pre-order units `Flatten(listing, depth)` to `content` |
| NotionReader.GetNotionPageContent | build-kb.js:45-97 | the page text is the page's units joined with newlines |
| NotionReader.OwnIndented | build-kb.js:63-71 | a block's own unit is indented by its depth |
| NotionReader.DeeperIsIndented | build-kb.js:63 | a unit indented d + 1 levels is indented d levels |
| NotionReader.BlockUnitsIndented | build-kb.js:63-84 | every unit under a block at depth d is indented at least d levels |
| NotionReader.FlattenBlocksIndented | build-kb.js:61-85 | the same for the rest of a page |
| NotionReader.FlattenFromIndented | build-kb.js:52-89 | the same for the rest of a listing |
| NotionReader.FlattenIndented | build-kb.js:63-84 | every unit scanned at depth d carries at least d levels of two-space indentation |
| NotionReader.OwnTextPrecedesDescendants | build-kb.js:65-84 | pre-order: the block's own unit comes first and everything after it is one level deeper |
| NotionReader.FailingFromIsPrefix | build-kb.js:52-92 | a failing request yields a prefix of the units of the rest of the listing |
| NotionReader.FailureKeepsEarlierPages | build-kb.js:87-92 | text pushed before a failure stays; a failing first request pushes nothing |
| NotionReader.FailureKeepsTextPrefix | build-kb.js:90-96 | the page text after a failure is a prefix of the page text without it |
| NotionReader.FlattenBlocksIsConcat | build-kb.js:61-85 | a page's units from result i on are the segments of those results concatenated in order, each segment depending on its own result only |
| NotionReader.PageSplitAt | build-kb.js:61-85 | a page's units are those before result j, then result j's, then those after it |
| NotionReader.SiblingsUnaffected | build-kb.js:82-92 | whatever one block's children listing answers, even a failure, the siblings' units are unchanged and in place |
| NotionReader.FailedChildrenLeaveOwnUnit | build-kb.js:82-92 | a block whose children listing fails at once contributes its own unit only |
| NotionReader.CodeBlockAsWritten | build-kb.js:66-79 | as written, a code block with rich text is pushed as bare indented text; the intended unit is the fenced block with its language |
| NotionReader.CodeBlockCounterexample | build-kb.js:66-79 | the `python` block `x = 1` comes out as `x = 1` instead of a fenced block, and a code block without rich text throws |
| KnowledgeBase.PageMetadata | build-kb.js:163-173 | each field keeps the property's value when truthy and takes its default ("Untitled", "Reference", "Internal", "General", "General", "Unclassified") otherwise; all are non-empty |
| KnowledgeBase.EmptyPropertiesGetDefaults | build-kb.js:164-173 | a page with no properties gets every default; an empty multi-select becomes "General" |
| KnowledgeBase.CombinedText | build-kb.js:186-199 | defines the document text: the field lines, a blank line, the notes banner and the notes, a blank line, the external banner, the external content and the closing indentation |
| KnowledgeBase.FieldsStartWithTitle | build-kb.js:186-187 | the field lines open with the title line |
| KnowledgeBase.Layout | build-kb.js:186-199 | where the parts of the document layout sit |
| KnowledgeBase.CombinedTextSections | build-kb.js:186-199 | the document text starts with the title line and holds the notes and the external content verbatim after their banners |
| KnowledgeBase.ExternalFor | build-kb.js:181-184 | external content is fetched only for GitHub and YouTube sources, and is "" otherwise |
| KnowledgeBase.DocumentFor | build-kb.js:186-204 | a page's document: source is the url or "Notion", the text is the combined template of its metadata, notes and external content |
| KnowledgeBase.Documents | build-kb.js:162-205 | one document per page, in page order |
| KnowledgeBase.BuildDocuments | build-kb.js:162-205 | the page loop produces exactly `Documents(pages)` |
| KnowledgeBase.CollectFrom | build-kb.js:135-153 | defines what the query loop collects from request k on: `None` once a request fails or the answers run out, otherwise that page's results followed by those of later requests while `has_more` holds |
| KnowledgeBase.QueryActivePages | build-kb.js:135-157 | the pagination loop yields exactly `CollectFrom(answers, 0)` |
| KnowledgeBase.CollectSucceedsOnlyAtStop | build-kb.js:140-153 | a successful query ends at a page without `has_more` |
| KnowledgeBase.CollectAtStop | build-kb.js:140-153 | the pages collected up to that page are all their results in order |
| KnowledgeBase.QueryAllOrNothing | build-kb.js:135-157 | the query yields pages iff every request up to a last page succeeds, and then exactly their results in order |
| KnowledgeBase.Embedded | build-kb.js:216-217 | the stored records are among the chunks, with the vector each chunk's embedding gave |
| KnowledgeBase.ChunksOf | build-kb.js:216-217 | the chunks of a list of records, position by position |
| KnowledgeBase.EmbeddedAppend | build-kb.js:216-217 | the adds are attempted in chunk order |
| KnowledgeBase.ChunksOfAppend | build-kb.js:216-217 | chunk lists of concatenated records concatenate |
| KnowledgeBase.EmbeddedAllSucceed | build-kb.js:216-217 | when every embedding succeeds every chunk is stored, in order |
| KnowledgeBase.EmbeddedSkipsFailure | build-kb.js:217 | a failed add is skipped and the chunks around it are stored in order |
| KnowledgeBase.StoreRecords | build-kb.js:214-217 | defines the final store: the seed record of chunk 0, then the records of the later chunks whose embedding succeeds, in order |
| KnowledgeBase.StoreSkipsFailedAdd | build-kb.js:214-217 | the store holds chunk 0 and every other chunk in order, one record fewer than chunks |
| KnowledgeBase.OneFailedAddAmongTen | build-kb.js:214-217 | ten chunks with one failed add leave nine records |
| KnowledgeBase.VectorStore.FromDocument | build-kb.js:214 | the store is seeded with chunk 0 |
| KnowledgeBase.VectorStore.AddDocument | build-kb.js:217 | a successful add appends one record; a failed one changes nothing |
| KnowledgeBase.BuildStore | build-kb.js:214-219 | no store when there is no chunk or the seed fails; otherwise chunk 0 then the successful adds, in order |
| KnowledgeBase.BuildKnowledgeBase | build-kb.js:130-226 | aborted iff the query fails; nothing built iff there are no pages; otherwise seed failure or the saved store of the chunks of the documents |
| Retriever.DotProduct | server.js:40-42 | defines `dotProduct` as the left fold of `reduce`: the sum of the products of the query's entries with the stored vector's entries at the same index |
| Retriever.DotFoldsAgree | server.js:41 | the left fold `reduce` equals the right fold of the products |
| Retriever.DotIgnoresExtra | server.js:41 | only the query's dimension of the stored vector takes part |
| Retriever.ScoreAll | server.js:52-55 | one scored entry per stored item, with its inner product and its store position |
| Retriever.Insert | server.js:57 | inserting adds exactly one element |
| Retriever.BeforeTotal | server.js:57 | with distinct positions the comparator order is total |
| Retriever.InsertRanked | server.js:57 | inserting into a ranked array keeps it ranked |
| Retriever.SortByScore | server.js:57 | the sorted array is ranked (descending score, ties in store order) and a permutation of the scored items |
| Retriever.RankedUnique | server.js:57 | two ranked permutations of the same items are equal, so the stable sort's output is determined |
| Retriever.SliceEnd | server.js:57 | the end of `slice(0, end)` resolved against the length, never beyond it |
| Retriever.TopK | server.js:57 | `slice(0, topK)` is a prefix of length min(topK, n), or n + topK clamped at 0 for negative topK |
| Retriever.TopKBestFirst | server.js:57 | the kept results are ranked and score at least as high as every dropped one |
| Retriever.PrefixBeatsRest | server.js:57 | in a descending ranking every element of a prefix scores at least as high as every element after it |
| Retriever.TopKKeepsBest | server.js:57 | the slice of the sorted array is ranked, drawn from it, and beats every element it drops |
| Retriever.Details | server.js:63 | defines the details fallback: the content when truthy, else the page content, else `undefined` |
| Retriever.RenderItem | server.js:61-64 | defines one result's text: the `PROJECT:` line with the title and the `DETAILS:` line, in the template's indentation |
| Retriever.Rendered | server.js:61-63 | each result is rendered with its title and details, in order |
| Retriever.TopResults | server.js:52-57 | defines the scored store sorted by `SortByScore` and sliced by `TopK` |
| Retriever.ContextFor | server.js:52-64 | defines the returned context: the rendered top results joined by the separator `\n\n---\n\n` |
| Retriever.ContextIsBestFirst | server.js:52-64 | the context renders a ranked sub-multiset of the scored store of length min(topK, n), each scoring at least as high as every item left out |
| Retriever.UnitScores | server.js:40-42 | [1, 0] scores 1 against [1, 0] and 0 against [0, 1] |
| Retriever.TwoChunkScenario | server.js:44-64 | with chunks [1, 0] and [0, 1], query [1, 0] and topK 1, only the first chunk is returned |
| Retriever.KnowledgeServer.constructor | server.js:15 | the store starts empty |
| Retriever.KnowledgeServer.InitializeVectorStore | server.js:24-38 | a loaded file replaces the store; a missing or unreadable file leaves it |
| Retriever.KnowledgeServer.FindRelevantContext | server.js:44-69 | "" for an empty store or a failed query embedding, otherwise the rendered top results; the store is not modified |
| Tutor.ErrorReply | rag-tutor.js:42-47 | the naming-conflict reply iff the error message contains "404", the connection-issue reply otherwise |
| Tutor.Exchange | rag-tutor.js:38-39 | defines the history after one call: on a reply, the user turn then the model turn appended; on a failure, unchanged |
| Tutor.ExchangeKeepsAlternation | rag-tutor.js:38-39 | one call keeps the history alternating, never rewrites earlier turns, and adds the question then the answer on success |
| Tutor.ConversationShape | rag-tutor.js:38-39 | after any run of calls the history alternates and holds two turns per successful call |
| Tutor.ChatSession.constructor | rag-tutor.js:10 | the history starts empty |
| Tutor.ChatSession.CallBridgeBuddy | rag-tutor.js:12-49 | success appends the user turn then the model turn and returns the reply; failure leaves the history and returns the chosen apology |
| Tutor.ChatSession.ResetHistory | rag-tutor.js:51 | the history becomes empty |

## Left out

- Network I/O (Notion, axios, the transcript service, the embedding and chat APIs) is modelled as parameters. The `sleep(500)` throttle, console output and progress dots are left out, because they carry no function.
- NotionReader.Block: the `start_cursor` value is not compared with the previous `next_cursor`. Successive requests are modelled by their order, and a listing is assumed to answer request k with page k.
- NotionReader.Render: the code caption (build-kb.js:77) is computed but never used, so it is not modelled.
- NotionReader.PageReader.ScanBlocks: uses the corrected rendering from "## Findings". The as-written branch order is modelled by `RenderAsWritten` only, so the model does not capture how a thrown code block drops the rest of its listing.
- External.FetchExternalContent: `getRaw` returns the response body as text. The `JSON.stringify` of object bodies and the GitHub token header are not modelled.
- External.FetchExternalContent: the transcript length is counted in characters, whereas JavaScript counts UTF-16 code units.
- YouTube.CleanYoutubeUrl: the id length test (build-kb.js:39) and the regex's single-character atoms `.`, `\w` and `[^#&?]` (build-kb.js:37, no `u` flag) count characters here, whereas JavaScript counts UTF-16 code units. A link whose id holds a character outside the Basic Multilingual Plane is therefore judged differently: `https://youtu.be/abcdefghij😀` has an 11-character id here, so a watch link comes back, while the source sees 12 code units and returns null. The same holds for YouTube.MarkerLength and YouTube.MatchVideoId.
- KnowledgeBase.PageProps: a `Name` property without a `title` array (which would throw) is not modelled. The `Status = Current` filter is applied by the remote database and is not modelled.
- KnowledgeBase.BuildKnowledgeBase: the chunker `RecursiveCharacterTextSplitter` is a parameter. It is an external library whose algorithm is not part of this model.
- KnowledgeBase.BuildKnowledgeBase: HNSWLib's index and `vectorStore.save` are reduced to the list of records returned in `Saved`.
- KnowledgeBase.BuildKnowledgeBase: a throwing seed call (no chunks, or a failed seed embedding) is an unhandled rejection in the source. Here it is the outcome `SeedFailed`.
- Retriever.KnowledgeServer.FindRelevantContext: requires each stored embedding to be at least as long as the query vector. With a shorter one the JavaScript sum is `NaN`, which the model does not represent.
- Retriever.DotProduct: scores are exact integers rather than floating point, so ties and ordering are exact.
- Retriever.KnowledgeServer.InitializeVectorStore: reading and parsing the file are a parameter (`None` for a missing or unreadable file). A parsed value that is not an array of items is not modelled.
- Retriever.Details: an absent `metadata.title` (rendered "undefined") is not modelled, because the title is a string here.
- Tutor.ChatSession.CallBridgeBuddy: the persona prompt text is not modelled. The chat model is the parameter `send`. The model assumes the chat library does not itself append to the history array it is given.
- The Express routes, static serving and `app.listen` (server.js:71-102) are plumbing and are not modelled. This includes the `/ask-buddy` 500 fallback. `findRelevantContext`'s default `topK` of 4 only matters for the route's call, so `topK` is always a parameter here.
- check_access.js and find_chat.js are one-off diagnostic scripts and are not part of this model.

## Findings

| source | as written | input that shows it | evidently intended | confidence | as-written member | corrected member |
|---|---|---|---|---|---|---|
| build-kb.js:66-79 | The generic rich-text branch is tested first. A code block carries `code.rich_text`, so it is pushed as plain indented text without fence or language. The code branch is reached only for a code block without rich text, and then `block.code.rich_text.map` throws. | A `code` block with language `python` and text `x = 1` at depth 0 is pushed as `x = 1`. | The unit "\n```python\nx = 1\n```\n": a fenced block tagged with its language, defaulting to `text`. | high, not executed | NotionReader.CodeBlockCounterexample | NotionReader.Render |
