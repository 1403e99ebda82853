/**
 * `getNotionPageContent` / `scanBlocks`: flatten a page's block tree into text.
 *
 * The remote call `blocks.children.list` is part of the data: each block carries
 * the answers its children listing gives, request after request (the first
 * request has no cursor, each later one passes the previous page's
 * `next_cursor`). A request past the recorded answers fails. Because the answers
 * are held in the tree, the tree is finite and acyclic by construction.
 */
module NotionReader {
  import opened Wrappers
  import opened Text

  /** One block as the listing reports it. */
  datatype Block = Block(
    kind: string,                   // block.type
    richText: Option<seq<string>>,  // the plain_text of block[type].rich_text; None when absent
    language: Option<string>,       // block.code.language
    hasChildren: bool,              // block.has_children
    children: Listing)              // the answers to listing this block's children

  /** The successive answers to the requests listing one block's children. */
  datatype Listing = Listing(answers: seq<Answer>)

  /** One request: a page of results, or an exception. */
  datatype Answer = Got(page: Page) | Failed(message: string)

  datatype Page = Page(results: seq<Block>, nextCursor: Option<string>)

  /** `if (!next_cursor) break;`: absent and empty cursors end the listing. */
  predicate HasNextCursor(p: Page) {
    Truthy(p.nextCursor)
  }

  /** The answer to request k; a request past the recorded answers fails. */
  function AnswerAt(l: Listing, k: nat): (a: Answer)
    ensures a.Got? ==> k < |l.answers| && a == l.answers[k]
  {
    if k < |l.answers| then l.answers[k] else Failed("no answer")
  }

  const Bulb: string := "\U{1F4A1}"

  /** `rich_text.map(t => t.plain_text).join('')`. */
  function PlainText(runs: seq<string>): string {
    Join(runs, "")
  }

  /** The decoration of branch A, chosen by block kind, for a block whose payload has rich text. */
  function Decorate(kind: string, indent: string, text: string): string {
    if StartsWith(kind, "heading") then "\n" + indent + "### " + text + "\n"
    else if Contains(kind, "list") then indent + "* " + text
    else if kind == "callout" then "\n" + indent + "> " + Bulb + " " + text + "\n"
    else indent + text
  }

  /** Branch B: a fenced block tagged with its language. */
  function CodeFence(indent: string, language: string, code: string): string {
    "\n" + indent + "```" + language + "\n" + code + "\n" + indent + "```\n"
  }

  /** `block.code.language || 'text'`. */
  function LanguageOf(b: Block): string {
    if Truthy(b.language) then b.language.value else "text"
  }

  /** What one block makes the loop body do, as build-kb.js is written. */
  datatype Step = Push(unit: string) | Nothing | Throw

  /**
   * The loop body as written: branch A tests `block[type]?.rich_text` first, so a
   * code block (whose payload always has rich_text) is rendered as plain text, and
   * a code block without rich_text throws on `block.code.rich_text.map`.
   */
  function RenderAsWritten(b: Block, depth: nat): Step {
    if b.richText.Some? then Push(Decorate(b.kind, Indent(depth), PlainText(b.richText.value)))
    else if b.kind == "code" then Throw
    else Nothing
  }

  /** The newline a unit of this kind starts with. */
  function LeadOf(b: Block): string {
    if b.kind == "code" || StartsWith(b.kind, "heading") || (!Contains(b.kind, "list") && b.kind == "callout") then "\n" else ""
  }

  /** The marker that follows the indentation for this kind. */
  function MarkerOf(b: Block): string {
    if b.kind == "code" then "```" + LanguageOf(b)
    else if StartsWith(b.kind, "heading") then "### "
    else if Contains(b.kind, "list") then "* "
    else if b.kind == "callout" then "> " + Bulb + " "
    else ""
  }

  /**
   * The text unit a block contributes, with code blocks fenced as intended:
   * code blocks are recognised before the generic rich-text branch, and every
   * other block renders as the code does.
   */
  function Render(b: Block, depth: nat): (r: Option<string>)
    ensures r.Some? <==> b.kind == "code" || b.richText.Some?
    ensures b.kind != "code" ==> (r.Some? <==> RenderAsWritten(b, depth).Push?)
    ensures b.kind != "code" && r.Some? ==> RenderAsWritten(b, depth) == Push(r.value)
  {
    if b.kind == "code" then
      var code := if b.richText.Some? then PlainText(b.richText.value) else "";
      Some(CodeFence(Indent(depth), LanguageOf(b), code))
    else if b.richText.Some? then
      Some(Decorate(b.kind, Indent(depth), PlainText(b.richText.value)))
    else
      None
  }

  /** A string opens with any prefix it is built from. */
  lemma OpensWith(p: string, rest: string)
    ensures StartsWith(p + rest, p)
  {
    assert (p + rest)[..|p|] == p;
  }

  /** Each decorated kind opens with its leading newline, the indentation and its marker. */
  lemma DecorateOpens(b: Block, indent: string, text: string)
    requires b.kind != "code"
    ensures StartsWith(Decorate(b.kind, indent, text), LeadOf(b) + indent + MarkerOf(b))
  {
    var kind := b.kind;
    var u := Decorate(kind, indent, text);
    if StartsWith(kind, "heading") {
      assert u == "\n" + indent + "### " + (text + "\n");
      OpensWith("\n" + indent + "### ", text + "\n");
    } else if Contains(kind, "list") {
      assert u == "" + indent + "* " + text;
      OpensWith("" + indent + "* ", text);
    } else if kind == "callout" {
      assert u == "\n" + indent + ("> " + Bulb + " ") + (text + "\n");
      OpensWith("\n" + indent + ("> " + Bulb + " "), text + "\n");
    } else {
      assert u == "" + indent + "" + text;
      OpensWith("" + indent + "", text);
    }
  }

  /**
   * Every unit starts with its kind's leading newline, then the indentation of
   * its depth, then its kind's marker.
   */
  lemma RenderOpens(b: Block, depth: nat)
    requires Render(b, depth).Some?
    ensures StartsWith(Render(b, depth).value, LeadOf(b) + Indent(depth) + MarkerOf(b))
  {
    if b.kind == "code" {
      var code := if b.richText.Some? then PlainText(b.richText.value) else "";
      CodeFenceOpens(Indent(depth), LanguageOf(b), code);
    } else {
      DecorateOpens(b, Indent(depth), PlainText(b.richText.value));
    }
  }

  /** A fenced block opens with a newline, the indentation and the fence with its language. */
  lemma CodeFenceOpens(indent: string, lang: string, code: string)
    ensures StartsWith(CodeFence(indent, lang, code), "\n" + indent + ("```" + lang))
  {
    assert CodeFence(indent, lang, code) == "\n" + indent + ("```" + lang) + ("\n" + code + "\n" + indent + "```\n");
    OpensWith("\n" + indent + ("```" + lang), "\n" + code + "\n" + indent + "```\n");
  }

  /** The units a block's own text contributes. */
  function Own(b: Block, depth: nat): seq<string> {
    match Render(b, depth)
    case Some(u) => [u]
    case None => []
  }

  /** A block's own unit, then everything below it one level deeper (pre-order). */
  function BlockUnits(b: Block, depth: nat): seq<string>
    decreases b, 0, 0
  {
    Own(b, depth) + (if b.hasChildren then Flatten(b.children, depth + 1) else [])
  }

  /** The units of the results of page p from index i on. */
  function FlattenBlocks(p: Page, i: nat, depth: nat): seq<string>
    decreases p, 1, |p.results| - i
  {
    if i >= |p.results| then [] else BlockUnits(p.results[i], depth) + FlattenBlocks(p, i + 1, depth)
  }

  /** The units of a listing from request k on; a failed request ends the listing. */
  function FlattenFrom(l: Listing, k: nat, depth: nat): seq<string>
    decreases l, 2, |l.answers| - k
  {
    match AnswerAt(l, k)
    case Failed(_) => []
    case Got(p) => FlattenBlocks(p, 0, depth) + (if HasNextCursor(p) then FlattenFrom(l, k + 1, depth) else [])
  }

  /** Everything `scanBlocks(blockId, depth)` pushes for a block whose children are listed by l. */
  function Flatten(l: Listing, depth: nat): seq<string>
    decreases l, 3, 0
  {
    FlattenFrom(l, 0, depth)
  }

  /** Request k answered with a page: that page's units, then the following requests' if it has a cursor. */
  lemma FlattenFromGot(l: Listing, k: nat, depth: nat)
    requires k < |l.answers| && l.answers[k].Got?
    ensures FlattenFrom(l, k, depth) ==
      FlattenBlocks(l.answers[k].page, 0, depth)
      + (if HasNextCursor(l.answers[k].page) then FlattenFrom(l, k + 1, depth) else [])
  {
  }

  /** Result i of a page: its own unit, its subtree one level deeper, then its later siblings. */
  lemma FlattenBlocksStep(p: Page, i: nat, depth: nat)
    requires i < |p.results|
    ensures FlattenBlocks(p, i, depth) ==
      Own(p.results[i], depth)
      + (if p.results[i].hasChildren then Flatten(p.results[i].children, depth + 1) else [])
      + FlattenBlocks(p, i + 1, depth)
  {
  }

  lemma SeqRegroup<T>(a: seq<T>, b: seq<T>, c: seq<T>, d: seq<T>, e: seq<T>)
    ensures a + (b + c + d) + e == (a + b + c) + d + e
  {
  }

  /** The accumulator `content` shared by the recursive scan of one page. */
  class PageReader {
    var content: seq<string>

    constructor ()
      ensures content == []
    {
      content := [];
    }

    /** `scanBlocks(blockId, depth)`: append the units of the block tree listed by `listing`. */
    method ScanBlocks(listing: Listing, depth: nat)
      modifies this
      ensures content == old(content) + Flatten(listing, depth)
      decreases listing
    {
      ghost var target := content + Flatten(listing, depth);
      var k := 0;
      while true
        invariant k <= |listing.answers|
        invariant target == content + FlattenFrom(listing, k, depth)
        decreases |listing.answers| - k
      {
        if k >= |listing.answers| {
          return;  // the request throws; the exception is caught and the scan ends
        }
        match listing.answers[k]
        case Failed(_) =>
          return;  // the request throws; the exception is caught and the scan ends
        case Got(page) =>
          FlattenFromGot(listing, k, depth);
          ghost var rest := if HasNextCursor(page) then FlattenFrom(listing, k + 1, depth) else [];
          assert FlattenFrom(listing, k, depth) == FlattenBlocks(page, 0, depth) + rest;
          assert target == content + FlattenBlocks(page, 0, depth) + rest;
          var i := 0;
          while i < |page.results|
            invariant i <= |page.results|
            invariant target == content + FlattenBlocks(page, i, depth) + rest
          {
            var block := page.results[i];
            ghost var before := content;
            ghost var below := if block.hasChildren then Flatten(block.children, depth + 1) else [];
            FlattenBlocksStep(page, i, depth);
            var unit := Render(block, depth);
            if unit.Some? {
              content := content + [unit.value];
            }
            assert content == before + Own(block, depth);
            if block.hasChildren {
              assert block.children < listing by {
                assert block in page.results;
                assert listing.answers[k] in listing.answers;
              }
              ScanBlocks(block.children, depth + 1);
            }
            assert content == before + Own(block, depth) + below;
            SeqRegroup(before, Own(block, depth), below, FlattenBlocks(page, i + 1, depth), rest);
            assert target == content + FlattenBlocks(page, i + 1, depth) + rest;
            i := i + 1;
          }
          if !HasNextCursor(page) {
            return;
          }
          k := k + 1;
      }
    }
  }

  /** `getNotionPageContent(pageId)`: the page's units joined with newlines. */
  method GetNotionPageContent(page: Listing) returns (text: string)
    ensures text == Join(Flatten(page, 0), "\n")
  {
    var reader := new PageReader();
    reader.ScanBlocks(page, 0);
    assert reader.content == Flatten(page, 0);
    text := Join(reader.content, "\n");
  }

  // ---------------------------------------------------------------------------
  // Indentation: a unit of depth d is indented by at least d levels.

  /** After at most one leading newline, `u` starts with `depth` levels of indentation. */
  predicate IndentedAtLeast(u: string, depth: nat) {
    StartsWith(u, Indent(depth)) || StartsWith(u, "\n" + Indent(depth))
  }

  lemma StartsWithPrefix(s: string, p: string, q: string)
    requires StartsWith(s, p + q)
    ensures StartsWith(s, p)
  {
    assert s[..|p|] == (p + q)[..|p|];
  }

  /** A unit indented by depth + 1 levels is indented by depth levels. */
  lemma DeeperIsIndented(u: string, depth: nat)
    requires IndentedAtLeast(u, depth + 1)
    ensures IndentedAtLeast(u, depth)
  {
    IndentAdds(depth, 1);
    if StartsWith(u, Indent(depth + 1)) {
      StartsWithPrefix(u, Indent(depth), Indent(1));
    } else {
      assert "\n" + Indent(depth + 1) == "\n" + Indent(depth) + Indent(1);
      StartsWithPrefix(u, "\n" + Indent(depth), Indent(1));
    }
  }

  lemma OwnIndented(b: Block, depth: nat)
    ensures forall u <- Own(b, depth) :: IndentedAtLeast(u, depth)
  {
    match Render(b, depth)
    case None =>
    case Some(u) =>
      RenderOpens(b, depth);
      if LeadOf(b) == "" {
        assert LeadOf(b) + Indent(depth) + MarkerOf(b) == Indent(depth) + MarkerOf(b);
        StartsWithPrefix(u, Indent(depth), MarkerOf(b));
      } else {
        StartsWithPrefix(u, "\n" + Indent(depth), MarkerOf(b));
      }
  }

  lemma {:induction false} BlockUnitsIndented(b: Block, depth: nat)
    ensures forall u <- BlockUnits(b, depth) :: IndentedAtLeast(u, depth)
    decreases b, 0, 0
  {
    OwnIndented(b, depth);
    if b.hasChildren {
      FlattenFromIndented(b.children, 0, depth + 1);
      forall u | u in Flatten(b.children, depth + 1)
        ensures IndentedAtLeast(u, depth)
      {
        DeeperIsIndented(u, depth);
      }
    }
  }

  lemma {:induction false} FlattenBlocksIndented(p: Page, i: nat, depth: nat)
    ensures forall u <- FlattenBlocks(p, i, depth) :: IndentedAtLeast(u, depth)
    decreases p, 1, |p.results| - i
  {
    if i < |p.results| {
      BlockUnitsIndented(p.results[i], depth);
      FlattenBlocksIndented(p, i + 1, depth);
    }
  }

  lemma {:induction false} FlattenFromIndented(l: Listing, k: nat, depth: nat)
    ensures forall u <- FlattenFrom(l, k, depth) :: IndentedAtLeast(u, depth)
    decreases l, 2, |l.answers| - k
  {
    match AnswerAt(l, k)
    case Failed(_) =>
    case Got(p) =>
      FlattenBlocksIndented(p, 0, depth);
      if HasNextCursor(p) {
        FlattenFromIndented(l, k + 1, depth);
      }
  }

  /** Every unit scanned at depth d carries at least d levels of two-space indentation. */
  lemma FlattenIndented(l: Listing, depth: nat)
    ensures forall u <- Flatten(l, depth) :: IndentedAtLeast(u, depth)
  {
    FlattenFromIndented(l, 0, depth);
  }

  /**
   * Pre-order: a block's own unit comes first, and everything after it (its
   * descendants) is indented one level deeper.
   */
  lemma OwnTextPrecedesDescendants(b: Block, depth: nat)
    ensures Render(b, depth).Some? ==> BlockUnits(b, depth)[0] == Render(b, depth).value
    ensures forall u <- BlockUnits(b, depth)[|Own(b, depth)|..] :: IndentedAtLeast(u, depth + 1)
    ensures !b.hasChildren ==> |BlockUnits(b, depth)| <= 1
  {
    if b.hasChildren {
      FlattenIndented(b.children, depth + 1);
      assert BlockUnits(b, depth)[|Own(b, depth)|..] == Flatten(b.children, depth + 1);
    }
  }

  // ---------------------------------------------------------------------------
  // Failures: a failed request ends its own listing and nothing else.

  /** The listing l with request k and every later request failing. */
  function FailingAt(l: Listing, k: nat): Listing
    requires k <= |l.answers|
  {
    Listing(l.answers[..k] + [Failed("request failed")])
  }

  lemma {:induction false} FailingFromIsPrefix(l: Listing, k: nat, j: nat, depth: nat)
    requires j <= k <= |l.answers|
    ensures FlattenFrom(FailingAt(l, k), j, depth) <= FlattenFrom(l, j, depth)
    decreases k - j
  {
    var t := FailingAt(l, k);
    if j == k {
      assert AnswerAt(t, k) == Failed("request failed");
    } else {
      assert AnswerAt(t, j) == AnswerAt(l, j);
      match AnswerAt(l, j)
      case Failed(_) =>
      case Got(p) =>
        if HasNextCursor(p) {
          FailingFromIsPrefix(l, k, j + 1, depth);
          var head := FlattenBlocks(p, 0, depth);
          assert FlattenFrom(t, j, depth) == head + FlattenFrom(t, j + 1, depth);
          assert FlattenFrom(l, j, depth) == head + FlattenFrom(l, j + 1, depth);
        }
    }
  }

  /**
   * A request that fails part-way through a listing keeps what the earlier pages
   * produced: the units are a prefix of those of the complete listing, and a
   * failing first request produces nothing.
   */
  lemma FailureKeepsEarlierPages(l: Listing, k: nat, depth: nat)
    requires k <= |l.answers|
    ensures Flatten(FailingAt(l, k), depth) <= Flatten(l, depth)
    ensures k == 0 ==> Flatten(FailingAt(l, k), depth) == []
  {
    FailingFromIsPrefix(l, k, 0, depth);
    if k == 0 {
      assert AnswerAt(FailingAt(l, 0), 0).Failed?;
    }
  }

  /** The same at the level of the page's text. */
  lemma FailureKeepsTextPrefix(l: Listing, k: nat)
    requires k <= |l.answers|
    ensures Join(Flatten(FailingAt(l, k), 0), "\n") <= Join(Flatten(l, 0), "\n")
  {
    FailureKeepsEarlierPages(l, k, 0);
    JoinPrefix(Flatten(FailingAt(l, k), 0), Flatten(l, 0), "\n");
  }

  /** The concatenation of a list of segments. */
  function Concat<T>(parts: seq<seq<T>>): seq<T> {
    if parts == [] then [] else parts[0] + Concat(parts[1..])
  }

  /** The segment each result of a page contributes. */
  function Segments(p: Page, depth: nat): (segs: seq<seq<string>>)
    ensures |segs| == |p.results|
    ensures forall i :: 0 <= i < |p.results| ==> segs[i] == BlockUnits(p.results[i], depth)
  {
    seq(|p.results|, i requires 0 <= i < |p.results| => BlockUnits(p.results[i], depth))
  }

  /** A page's units from result i on are the concatenation of those results' segments. */
  lemma {:induction false} FlattenBlocksIsConcat(p: Page, i: nat, depth: nat)
    requires i <= |p.results|
    ensures FlattenBlocks(p, i, depth) == Concat(Segments(p, depth)[i..])
    decreases |p.results| - i
  {
    if i < |p.results| {
      FlattenBlocksIsConcat(p, i + 1, depth);
      var segs := Segments(p, depth);
      assert segs[i..][1..] == segs[i + 1..];
      UnfoldAt(p, i, depth);
    }
  }

  /** One result of a page, then the rest of the page. */
  lemma UnfoldAt(p: Page, i: nat, depth: nat)
    requires i < |p.results|
    ensures FlattenBlocks(p, i, depth) == BlockUnits(p.results[i], depth) + FlattenBlocks(p, i + 1, depth)
  {
  }

  /** Splitting a list of segments at j: those before, segment j, those after. */
  lemma {:induction false} ConcatAround<T>(segs: seq<seq<T>>, j: nat)
    requires j < |segs|
    ensures Concat(segs) == Concat(segs[..j]) + segs[j] + Concat(segs[j + 1..])
  {
    if j > 0 {
      ConcatAround(segs[1..], j - 1);
      assert segs[1..][..j - 1] == segs[..j][1..];
      assert segs[1..][j..] == segs[j + 1..];
    } else {
      assert segs[..0] == [];
    }
  }

  /** A page's units: those of the results before j, then result j's, then the rest. */
  lemma PageSplitAt(p: Page, j: nat, depth: nat)
    requires j < |p.results|
    ensures FlattenBlocks(p, 0, depth) ==
      Concat(Segments(p, depth)[..j]) + BlockUnits(p.results[j], depth) + Concat(Segments(p, depth)[j + 1..])
  {
    FlattenBlocksIsConcat(p, 0, depth);
    assert Segments(p, depth)[0..] == Segments(p, depth);
    ConcatAround(Segments(p, depth), j);
  }

  /** Page p with the children listing of result j replaced by c. */
  function WithChildren(p: Page, j: nat, c: Listing): Page
    requires j < |p.results|
  {
    p.(results := p.results[j := p.results[j].(children := c)])
  }

  /**
   * Sibling isolation: whatever the children listing of result j answers
   * (including failing at once), the units of the other results of the page are
   * unchanged and stay in place; only result j's own segment differs.
   */
  lemma SiblingsUnaffected(p: Page, j: nat, c: Listing, depth: nat)
    requires j < |p.results|
    ensures FlattenBlocks(WithChildren(p, j, c), 0, depth) ==
      Concat(Segments(p, depth)[..j]) + BlockUnits(p.results[j].(children := c), depth) + Concat(Segments(p, depth)[j + 1..])
  {
    var q := WithChildren(p, j, c);
    PageSplitAt(q, j, depth);
    assert Segments(q, depth)[..j] == Segments(p, depth)[..j];
    assert Segments(q, depth)[j + 1..] == Segments(p, depth)[j + 1..];
  }

  /** A block whose children listing fails at the first request contributes its own unit only. */
  lemma FailedChildrenLeaveOwnUnit(b: Block, c: Listing, depth: nat)
    requires AnswerAt(c, 0).Failed?
    ensures BlockUnits(b.(children := c), depth) == Own(b, depth)
  {
    assert Flatten(c, depth + 1) == [];
    assert Render(b.(children := c), depth) == Render(b, depth);
  }

  // ---------------------------------------------------------------------------
  // Code blocks: the as-written branch order never fences them.

  /**
   * As written, a code block with rich text goes through the generic branch: it
   * is pushed as bare indented text, without the fence or its language, which
   * the intended rendering carries.
   */
  lemma CodeBlockAsWritten(b: Block, depth: nat)
    requires b.kind == "code" && b.richText.Some?
    ensures RenderAsWritten(b, depth) == Push(Indent(depth) + PlainText(b.richText.value))
    ensures Render(b, depth) == Some(CodeFence(Indent(depth), LanguageOf(b), PlainText(b.richText.value)))
  {
    assert !StartsWith("code", "heading");
    assert !OccursAt("code", "list", 0) by {
      assert "code"[0] != "list"[0];
    }
    assert !Contains("code", "list");
  }

  /** A concrete block showing the difference, and the throw when rich text is missing. */
  lemma CodeBlockCounterexample()
    ensures RenderAsWritten(Block("code", Some(["x = 1"]), Some("python"), false, Listing([])), 0) == Push("x = 1")
    ensures Render(Block("code", Some(["x = 1"]), Some("python"), false, Listing([])), 0) == Some("\n```python\nx = 1\n```\n")
    ensures RenderAsWritten(Block("code", None, Some("python"), false, Listing([])), 0) == Throw
  {
    var b := Block("code", Some(["x = 1"]), Some("python"), false, Listing([]));
    CodeBlockAsWritten(b, 0);
    assert Indent(0) == "";
    assert PlainText(["x = 1"]) == "x = 1";
    assert LanguageOf(b) == "python";
    assert CodeFence("", "python", "x = 1") == "\n```python\nx = 1\n```\n";
  }
}
