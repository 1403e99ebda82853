/**
 * The similarity retriever of server.js: score every stored chunk against the
 * query's embedding by inner product, order by descending score with ties in
 * store order (the JavaScript sort is stable), keep the first `topK`, and render
 * them joined by a separator. Scores are exact integers here.
 */
module Retriever {
  import opened Wrappers
  import opened Text

  /** One entry of `memory_store.json`. */
  datatype StoredItem = StoredItem(
    title: string,                 // metadata.title
    content: Option<string>,       // content
    pageContent: Option<string>,   // pageContent
    embedding: seq<int>)

  /** `vecA.reduce((sum, val, i) => sum + val * vecB[i], 0)`, folding from the left. */
  function DotProduct(a: seq<int>, b: seq<int>): int
    requires |a| <= |b|
  {
    if |a| == 0 then 0 else DotProduct(a[..|a| - 1], b) + a[|a| - 1] * b[|a| - 1]
  }

  /** The same sum folded from the right; the two folds agree. */
  function DotRight(a: seq<int>, b: seq<int>): int
    requires |a| <= |b|
  {
    if |a| == 0 then 0 else a[0] * b[0] + DotRight(a[1..], b[1..])
  }

  lemma {:induction false} DotFoldsAgree(a: seq<int>, b: seq<int>)
    requires |a| <= |b|
    ensures DotProduct(a, b) == DotRight(a, b)
    decreases |a|
  {
    if |a| > 1 {
      var n := |a|;
      DotFoldsAgree(a[..n - 1], b);
      DotFoldsAgree(a[1..], b[1..]);
      DotFoldsAgree(a[1..][..n - 2], b[1..]);
      assert a[1..][..n - 2] == a[..n - 1][1..];
      assert DotRight(a[..n - 1], b) == a[0] * b[0] + DotRight(a[..n - 1][1..], b[1..]);
    }
  }

  /** Only the first |a| coordinates of b take part in the score. */
  lemma {:induction false} DotIgnoresExtra(a: seq<int>, b: seq<int>)
    requires |a| <= |b|
    ensures DotProduct(a, b) == DotProduct(a, b[..|a|])
    decreases |a|
  {
    if |a| > 0 {
      DotIgnoresExtra(a[..|a| - 1], b);
      DotIgnoresExtra(a[..|a| - 1], b[..|a|]);
      assert b[..|a|][..|a| - 1] == b[..|a| - 1];
    }
  }

  /** A stored item with its score and its position in the store. */
  datatype Scored = Scored(item: StoredItem, score: int, pos: nat)

  /** The embeddings are long enough to be scored against the query vector. */
  predicate Scorable(store: seq<StoredItem>, q: seq<int>) {
    forall item <- store :: |q| <= |item.embedding|
  }

  /** `memoryStore.map(item => ({ ...item, score: dotProduct(queryVector, item.embedding) }))`. */
  function ScoreAll(store: seq<StoredItem>, q: seq<int>): (s: seq<Scored>)
    requires Scorable(store, q)
    ensures |s| == |store|
    ensures forall i :: 0 <= i < |s| ==> s[i] == Scored(store[i], DotProduct(q, store[i].embedding), i)
  {
    seq(|store|, i requires 0 <= i < |store| => Scored(store[i], DotProduct(q, store[i].embedding), i))
  }

  /**
   * x comes before y in the sorted array: the comparator `b.score - a.score` puts
   * higher scores first, and the stable sort keeps equal scores in store order.
   */
  predicate Before(x: Scored, y: Scored) {
    x.score > y.score || (x.score == y.score && x.pos < y.pos)
  }

  predicate Ranked(s: seq<Scored>) {
    forall i, j :: 0 <= i < j < |s| ==> Before(s[i], s[j])
  }

  predicate DistinctPositions(s: seq<Scored>) {
    forall i, j :: 0 <= i < j < |s| ==> s[i].pos != s[j].pos
  }

  /** Insert x into a ranked array, after every element that ranks before it. */
  function Insert(x: Scored, s: seq<Scored>): (r: seq<Scored>)
    ensures multiset(r) == multiset(s) + multiset{x}
  {
    if s == [] then [x]
    else if Before(x, s[0]) then [x] + s
    else
      assert s == [s[0]] + s[1..];
      [s[0]] + Insert(x, s[1..])
  }

  /** Distinct positions make `Before` total: of two different entries one comes first. */
  lemma BeforeTotal(x: Scored, y: Scored)
    requires x.pos != y.pos && !Before(x, y)
    ensures Before(y, x)
  {
  }

  lemma {:induction false} InsertRanked(x: Scored, s: seq<Scored>)
    requires Ranked(s)
    requires forall y <- s :: y.pos != x.pos
    ensures Ranked(Insert(x, s))
  {
    if s != [] && !Before(x, s[0]) {
      var rest := Insert(x, s[1..]);
      InsertRanked(x, s[1..]);
      BeforeTotal(x, s[0]);
      forall y | y in rest
        ensures Before(s[0], y)
      {
        assert y in multiset(rest);
        if y != x {
          assert y in multiset(s[1..]);
          var j :| 0 <= j < |s[1..]| && s[1..][j] == y;
          assert s[j + 1] == y;
        }
      }
      var r := [s[0]] + rest;
      forall i, j | 0 <= i < j < |r|
        ensures Before(r[i], r[j])
      {
        if i == 0 {
          assert r[j] in rest;
        } else {
          assert r[i] == rest[i - 1] && r[j] == rest[j - 1];
        }
      }
    }
  }

  /** The sorted array: by descending score, ties in store order. */
  function SortByScore(s: seq<Scored>): (r: seq<Scored>)
    requires DistinctPositions(s)
    ensures Ranked(r)
    ensures multiset(r) == multiset(s)
  {
    if s == [] then []
    else
      var n := |s|;
      var sorted := SortByScore(s[..n - 1]);
      assert forall y <- sorted :: y.pos != s[n - 1].pos by {
        forall y <- sorted ensures y.pos != s[n - 1].pos {
          assert y in multiset(s[..n - 1]);
          var i :| 0 <= i < n - 1 && s[..n - 1][i] == y;
        }
      }
      assert s == s[..n - 1] + [s[n - 1]];
      InsertRanked(s[n - 1], sorted);
      Insert(s[n - 1], sorted)
  }

  /**
   * The ranked arrangement of a collection is unique: any two ranked permutations
   * of the same elements are equal, so the stable sort's output is exactly
   * `SortByScore`.
   */
  lemma {:induction false} RankedUnique(a: seq<Scored>, b: seq<Scored>)
    requires Ranked(a) && Ranked(b) && multiset(a) == multiset(b)
    ensures a == b
  {
    if a != [] {
      RankedHeadsAgree(a, b);
      TailsAgree(a, b);
      RankedUnique(a[1..], b[1..]);
      assert a == [a[0]] + a[1..];
      assert b == [b[0]] + b[1..];
    } else {
      assert |b| == |multiset(b)| == 0;
    }
  }

  /** Two ranked arrangements of the same elements start with the same element. */
  lemma RankedHeadsAgree(a: seq<Scored>, b: seq<Scored>)
    requires Ranked(a) && Ranked(b) && multiset(a) == multiset(b) && a != []
    ensures b != [] && a[0] == b[0]
  {
    assert a[0] in multiset(b);
    var k :| 0 <= k < |b| && b[k] == a[0];
    assert b[0] in multiset(a);
    var m :| 0 <= m < |a| && a[m] == b[0];
    assert k == 0 || m == 0;
  }

  /** Removing the same first element from two arrangements of one multiset leaves one multiset. */
  lemma TailsAgree<T>(a: seq<T>, b: seq<T>)
    requires a != [] && b != [] && a[0] == b[0] && multiset(a) == multiset(b)
    ensures multiset(a[1..]) == multiset(b[1..])
  {
    assert a == [a[0]] + a[1..];
    assert b == [b[0]] + b[1..];
    forall e ensures multiset(a[1..])[e] == multiset(b[1..])[e] {
      assert multiset(a)[e] == multiset{a[0]}[e] + multiset(a[1..])[e];
      assert multiset(b)[e] == multiset{a[0]}[e] + multiset(b[1..])[e];
    }
  }

  /** `end` of `slice(0, end)` resolved against a length n as JavaScript does. */
  function SliceEnd(n: nat, end: int): (e: nat)
    ensures e <= n
  {
    if end < 0 then (if n + end < 0 then 0 else n + end)
    else if end > n then n
    else end
  }

  /** `.slice(0, topK)`. */
  function TopK(s: seq<Scored>, topK: int): (r: seq<Scored>)
    ensures r <= s
    ensures topK >= 0 ==> |r| == if topK < |s| then topK else |s|
    ensures topK < 0 ==> |r| == if |s| + topK < 0 then 0 else |s| + topK
  {
    s[..SliceEnd(|s|, topK)]
  }

  /** The kept results rank before every dropped one. */
  lemma TopKBestFirst(s: seq<Scored>, topK: int)
    requires Ranked(s)
    ensures Ranked(TopK(s, topK))
    ensures forall i, j :: 0 <= i < |TopK(s, topK)| <= j < |s| ==> TopK(s, topK)[i].score >= s[j].score
  {
    var t := TopK(s, topK);
    forall i, j | 0 <= i < |t| <= j < |s|
      ensures t[i].score >= s[j].score
    {
      assert t[i] == s[i];
      assert Before(s[i], s[j]);
    }
  }

  const Separator: string := "\n\n---\n\n"

  /** `res.content || res.pageContent`; an absent page content reads "undefined". */
  function Details(item: StoredItem): string {
    if Truthy(item.content) then item.content.value
    else if item.pageContent.Some? then item.pageContent.value
    else "undefined"
  }

  function RenderItem(item: StoredItem): string {
    "\n            PROJECT: " + item.title + "\n            DETAILS: " + Details(item) + "\n        "
  }

  function Rendered(results: seq<Scored>): (r: seq<string>)
    ensures |r| == |results|
    ensures forall i :: 0 <= i < |r| ==> r[i] == RenderItem(results[i].item)
  {
    seq(|results|, i requires 0 <= i < |results| => RenderItem(results[i].item))
  }

  /** `scored.sort(...).slice(0, topK)`. */
  function TopResults(store: seq<StoredItem>, q: seq<int>, topK: int): seq<Scored>
    requires Scorable(store, q)
  {
    assert DistinctPositions(ScoreAll(store, q));
    TopK(SortByScore(ScoreAll(store, q)), topK)
  }

  /** The context the retriever returns for a non-empty store and a query vector q. */
  function ContextFor(store: seq<StoredItem>, q: seq<int>, topK: int): string
    requires Scorable(store, q)
  {
    Join(Rendered(TopResults(store, q, topK)), Separator)
  }

  /** In a ranked array every element of a prefix scores at least as high as every element after it. */
  lemma PrefixBeatsRest(s: seq<Scored>, n: nat)
    requires Ranked(s) && n <= |s|
    ensures forall x, y :: x in s[..n] && y in multiset(s) - multiset(s[..n]) ==> x.score >= y.score
  {
    assert s == s[..n] + s[n..];
    assert multiset(s) - multiset(s[..n]) == multiset(s[n..]);
    forall x, y | x in s[..n] && y in multiset(s[n..])
      ensures x.score >= y.score
    {
      var j :| 0 <= j < |s[n..]| && s[n..][j] == y;
      var i :| 0 <= i < n && s[..n][i] == x;
      assert Before(s[i], s[n + j]);
    }
  }

  /**
   * What the context holds: the items of the top `topK` scores in ranked order,
   * each scoring at least as high as every item left out.
   */
  lemma ContextIsBestFirst(store: seq<StoredItem>, q: seq<int>, topK: int)
    requires Scorable(store, q)
    ensures Ranked(TopResults(store, q, topK))
    ensures multiset(TopResults(store, q, topK)) <= multiset(ScoreAll(store, q))
    ensures topK >= 0 ==> |TopResults(store, q, topK)| == if topK < |store| then topK else |store|
    ensures forall x, y :: x in TopResults(store, q, topK) && y in multiset(ScoreAll(store, q)) - multiset(TopResults(store, q, topK)) ==>
      x.score >= y.score
  {
    var scored := ScoreAll(store, q);
    assert DistinctPositions(scored);
    var sorted := SortByScore(scored);
    TopKKeepsBest(sorted, topK);
  }

  /** The kept prefix of a ranked array: ranked, drawn from it, and beating what is dropped. */
  lemma TopKKeepsBest(sorted: seq<Scored>, topK: int)
    requires Ranked(sorted)
    ensures Ranked(TopK(sorted, topK))
    ensures multiset(TopK(sorted, topK)) <= multiset(sorted)
    ensures forall x, y :: x in TopK(sorted, topK) && y in multiset(sorted) - multiset(TopK(sorted, topK)) ==> x.score >= y.score
  {
    var top := TopK(sorted, topK);
    TopKBestFirst(sorted, topK);
    PrefixBeatsRest(sorted, |top|);
    assert top == sorted[..|top|];
    assert sorted == top + sorted[|top|..];
    assert multiset(sorted) == multiset(top) + multiset(sorted[|top|..]);
  }

  lemma UnitScores(a: StoredItem, b: StoredItem)
    requires a.embedding == [1, 0] && b.embedding == [0, 1]
    ensures DotProduct([1, 0], a.embedding) == 1 && DotProduct([1, 0], b.embedding) == 0
  {
    var q: seq<int> := [1, 0];
    assert q[..1] == [1] && q[..1][..0] == [];
    assert DotProduct(q, a.embedding) == DotProduct(q[..1], a.embedding) + 0 * a.embedding[1];
    assert DotProduct(q[..1], a.embedding) == 0 + 1 * a.embedding[0];
    assert DotProduct(q, b.embedding) == DotProduct(q[..1], b.embedding) + 0 * b.embedding[1];
    assert DotProduct(q[..1], b.embedding) == 0 + 1 * b.embedding[0];
  }

  /** The scenario of two chunks A = [1, 0], B = [0, 1], query [1, 0], topK = 1: only A is returned. */
  lemma TwoChunkScenario(a: StoredItem, b: StoredItem)
    requires a.embedding == [1, 0] && b.embedding == [0, 1]
    ensures ContextFor([a, b], [1, 0], 1) == RenderItem(a)
  {
    UnitScores(a, b);
    var scored := ScoreAll([a, b], [1, 0]);
    var expected := [Scored(a, 1, 0), Scored(b, 0, 1)];
    assert scored == expected;
    assert DistinctPositions(scored);
    var sorted := SortByScore(scored);
    RankedUnique(sorted, expected);
    assert TopResults([a, b], [1, 0], 1) == [Scored(a, 1, 0)];
    assert Rendered([Scored(a, 1, 0)]) == [RenderItem(a)];
  }

  /** The server's module state. */
  class KnowledgeServer {
    var memoryStore: seq<StoredItem>

    constructor ()
      ensures memoryStore == []
    {
      memoryStore := [];
    }

    /**
     * `initializeVectorStore`: the parsed file when it exists and parses; when it
     * is missing or unreadable the store keeps its value.
     */
    method InitializeVectorStore(loaded: Option<seq<StoredItem>>)
      modifies this
      ensures loaded.Some? ==> memoryStore == loaded.value
      ensures loaded.None? ==> memoryStore == old(memoryStore)
    {
      if loaded.Some? {
        memoryStore := loaded.value;
      }
    }

    /**
     * `findRelevantContext(query, topK)`: "" for an empty store or a failed query
     * embedding, otherwise the rendered top results. The store is only read.
     */
    method FindRelevantContext(query: string, embedQuery: string -> Option<seq<int>>, topK: int)
      returns (context: string)
      requires embedQuery(query).Some? ==> Scorable(memoryStore, embedQuery(query).value)
      ensures |memoryStore| == 0 ==> context == ""
      ensures embedQuery(query).None? ==> context == ""
      ensures |memoryStore| > 0 && embedQuery(query).Some? ==> context == ContextFor(memoryStore, embedQuery(query).value, topK)
    {
      if |memoryStore| == 0 {
        return "";
      }
      var queryVector := embedQuery(query);
      if queryVector.None? {
        return "";  // the embedding call threw; the error is caught
      }
      var scored := ScoreAll(memoryStore, queryVector.value);
      assert DistinctPositions(scored);
      var topResults := TopK(SortByScore(scored), topK);
      assert topResults == TopResults(memoryStore, queryVector.value, topK);
      context := Join(Rendered(topResults), Separator);
    }
  }
}
