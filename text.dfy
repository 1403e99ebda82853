/**
 * The string operations of JavaScript that the ingestion and retrieval code
 * relies on: `repeat`, `startsWith`, `includes`, `indexOf`, `replace` with a
 * string pattern, and `Array.prototype.join`.
 */
module Text {
  import opened Wrappers

  /** A JavaScript string used as a condition: absent and empty strings are falsy. */
  predicate Truthy(s: Option<string>) {
    s.Some? && s.value != ""
  }

  /** `"  ".repeat(d)`: the indentation of a block nested d levels deep. */
  function Indent(d: nat): (r: string)
    ensures |r| == 2 * d
    ensures forall k :: 0 <= k < |r| ==> r[k] == ' '
  {
    if d == 0 then "" else Indent(d - 1) + "  "
  }

  /** Indentation is additive: nesting e levels below depth d indents by d + e levels. */
  lemma {:induction false} IndentAdds(d: nat, e: nat)
    ensures Indent(d + e) == Indent(d) + Indent(e)
  {
    if e > 0 {
      IndentAdds(d, e - 1);
      assert Indent(d + e) == Indent(d + e - 1) + "  ";
    }
  }

  /** `s.startsWith(p)`. */
  predicate StartsWith(s: string, p: string) {
    |p| <= |s| && s[..|p|] == p
  }

  /** `p` occurs in `s` starting at position k. */
  predicate OccursAt(s: string, p: string, k: nat) {
    k + |p| <= |s| && s[k..k + |p|] == p
  }

  lemma OccursInMiddle(a: string, p: string, b: string)
    ensures OccursAt(a + p + b, p, |a|)
  {
    assert (a + p + b)[|a|..|a| + |p|] == p;
  }

  /** `s.indexOf(p, from)`: the first occurrence of `p` at or after `from`. */
  function IndexOf(s: string, p: string, from: nat): (r: Option<nat>)
    ensures r.Some? ==> from <= r.value && OccursAt(s, p, r.value)
    ensures r.Some? ==> forall k :: from <= k < r.value ==> !OccursAt(s, p, k)
    ensures r.None? ==> forall k :: from <= k ==> !OccursAt(s, p, k)
    decreases |s| - from
  {
    if from + |p| > |s| then None
    else if OccursAt(s, p, from) then Some(from)
    else IndexOf(s, p, from + 1)
  }

  /** `s.includes(p)`. */
  predicate Contains(s: string, p: string) {
    IndexOf(s, p, 0).Some?
  }

  /** `s.replace(p, rep)` with a string pattern: only the first occurrence is replaced. */
  function ReplaceFirst(s: string, p: string, rep: string): (r: string)
  {
    match IndexOf(s, p, 0)
    case None => s
    case Some(k) => s[..k] + rep + s[k + |p|..]
  }

  /** Replacing the first occurrence, when it is known to be at k. */
  lemma ReplaceFirstAt(s: string, p: string, rep: string, k: nat)
    requires OccursAt(s, p, k)
    requires forall j: nat :: j < k ==> !OccursAt(s, p, j)
    ensures ReplaceFirst(s, p, rep) == s[..k] + rep + s[k + |p|..]
  {
    var r := IndexOf(s, p, 0);
    assert r.Some?;
    assert r.value == k;
  }

  /** Replacing `p` in `a + p + b` when `p` does not start inside `a`. */
  lemma ReplaceFirstAfter(a: string, p: string, b: string, rep: string)
    requires forall j: nat :: j < |a| ==> !OccursAt(a + p + b, p, j)
    ensures ReplaceFirst(a + p + b, p, rep) == a + rep + b
  {
    var s := a + p + b;
    assert s[|a|..|a| + |p|] == p;
    ReplaceFirstAt(s, p, rep, |a|);
    assert s[..|a|] == a;
    assert s[|a| + |p|..] == b;
  }

  /** `parts.join(sep)`. */
  function Join(parts: seq<string>, sep: string): (r: string)
    ensures parts == [] ==> r == ""
    ensures |parts| == 1 ==> r == parts[0]
  {
    if |parts| == 0 then ""
    else if |parts| == 1 then parts[0]
    else parts[0] + sep + Join(parts[1..], sep)
  }

  /** Joining two non-empty lists puts exactly one separator between them. */
  lemma {:induction false} JoinAppend(a: seq<string>, b: seq<string>, sep: string)
    requires a != [] && b != []
    ensures Join(a + b, sep) == Join(a, sep) + sep + Join(b, sep)
  {
    if |a| == 1 {
      assert (a + b)[1..] == b;
    } else {
      JoinAppend(a[1..], b, sep);
      assert (a + b)[1..] == a[1..] + b;
    }
  }

  /** Text joined from a prefix of the units is a prefix of the text joined from all of them. */
  lemma JoinPrefix(a: seq<string>, b: seq<string>, sep: string)
    requires a <= b
    ensures Join(a, sep) <= Join(b, sep)
  {
    if a != [] && a != b {
      var rest := b[|a|..];
      assert b == a + rest;
      JoinAppend(a, rest, sep);
    }
  }
}
