/**
 * `getCleanYoutubeUrl`: extract a video id from a YouTube link with the pattern
 *   ^.*(youtu.be\/|v\/|u\/\w\/|embed\/|watch\?v=|&v=)([^#&?]*).*
 * and rebuild the canonical `watch?v=` link when the id has exactly 11 characters.
 *
 * The pattern's semantics are written out: the greedy `^.*` (which cannot cross a
 * line terminator) backtracks from the end of the first line, so the marker that
 * wins is the RIGHTMOST one starting on the first line; the capture group is then
 * the longest run of characters other than `#`, `&` and `?` after it.
 */
module YouTube {
  import opened Wrappers
  import opened Text

  const WatchPrefix: string := "https://www.youtube.com/watch?v="
  const VideoIdLength: nat := 11

  /** What the regex `.` does not match. */
  predicate IsLineTerminator(c: char) {
    c == '\n' || c == '\r' || c == '\U{2028}' || c == '\U{2029}'
  }

  /** The regex class `\w`. */
  predicate IsWordChar(c: char) {
    ('a' <= c <= 'z') || ('A' <= c <= 'Z') || ('0' <= c <= '9') || c == '_'
  }

  /** The characters that end the capture group `[^#&?]*`. */
  predicate IsStop(c: char) {
    c == '#' || c == '&' || c == '?'
  }

  /**
   * Length of the alternative of the first group that matches at position i, or 0.
   * The alternatives begin with distinct characters, so at most one matches.
   */
  function MarkerLength(s: string, i: nat): (n: nat)
    ensures n > 0 ==> i + n <= |s| && (s[i + n - 1] == '/' || s[i + n - 1] == '=')
  {
    if i + 9 <= |s| && s[i..i + 5] == "youtu" && !IsLineTerminator(s[i + 5]) && s[i + 6..i + 9] == "be/" then
      assert s[i + 8] == s[i + 6..i + 9][2];
      9
    else if OccursAt(s, "v/", i) then
      assert s[i + 1] == s[i..i + 2][1];
      2
    else if i + 4 <= |s| && s[i] == 'u' && s[i + 1] == '/' && IsWordChar(s[i + 2]) && s[i + 3] == '/' then
      4
    else if OccursAt(s, "embed/", i) then
      assert s[i + 5] == s[i..i + 6][5];
      6
    else if OccursAt(s, "watch?v=", i) then
      assert s[i + 7] == s[i..i + 8][7];
      8
    else if OccursAt(s, "&v=", i) then
      assert s[i + 2] == s[i..i + 3][2];
      3
    else
      0
  }

  /** Position of the first line terminator at or after i, or |s|. */
  function LineEndFrom(s: string, i: nat): (e: nat)
    requires i <= |s|
    ensures i <= e <= |s|
    ensures forall k :: i <= k < e ==> !IsLineTerminator(s[k])
    ensures e < |s| ==> IsLineTerminator(s[e])
    decreases |s| - i
  {
    if i == |s| || IsLineTerminator(s[i]) then i else LineEndFrom(s, i + 1)
  }

  /** How far the leading `^.*` can reach: the end of the first line. */
  function LineEnd(s: string): nat {
    LineEndFrom(s, 0)
  }

  /** The rightmost position j <= i at which a marker matches. */
  function LastMarker(s: string, i: nat): (r: Option<nat>)
    ensures r.Some? ==> r.value <= i && MarkerLength(s, r.value) > 0
    ensures r.Some? ==> forall j :: r.value < j <= i ==> MarkerLength(s, j) == 0
    ensures r.None? ==> forall j :: 0 <= j <= i ==> MarkerLength(s, j) == 0
  {
    if MarkerLength(s, i) > 0 then Some(i)
    else if i == 0 then None
    else LastMarker(s, i - 1)
  }

  /** End of the longest run of non-stop characters starting at j. */
  function RunEnd(s: string, j: nat): (e: nat)
    requires j <= |s|
    ensures j <= e <= |s|
    ensures forall k :: j <= k < e ==> !IsStop(s[k])
    ensures e < |s| ==> IsStop(s[e])
    decreases |s| - j
  {
    if j == |s| || IsStop(s[j]) then j else RunEnd(s, j + 1)
  }

  /** Where the regex matched: the start of the winning marker and the bounds of capture group 2. */
  datatype IdMatch = IdMatch(marker: nat, start: nat, end: nat)

  /** `m` is the match JavaScript's backtracking engine finds in `url`. */
  ghost predicate IsRegexMatch(url: string, m: IdMatch) {
    && m.marker <= LineEnd(url)
    && MarkerLength(url, m.marker) > 0
    && (forall j :: m.marker < j <= LineEnd(url) ==> MarkerLength(url, j) == 0)
    && m.start == m.marker + MarkerLength(url, m.marker)
    && m.start <= m.end <= |url|
    && (forall k :: m.start <= k < m.end ==> !IsStop(url[k]))
    && (m.end < |url| ==> IsStop(url[m.end]))
  }

  /** `url.match(regExp)`, reduced to the positions that matter. */
  function MatchVideoId(url: string): (m: Option<IdMatch>)
    ensures m.Some? ==> IsRegexMatch(url, m.value)
    ensures m.None? <==> forall j :: 0 <= j <= LineEnd(url) ==> MarkerLength(url, j) == 0
  {
    match LastMarker(url, LineEnd(url))
    case None => None
    case Some(i) =>
      var start := i + MarkerLength(url, i);
      Some(IdMatch(i, start, RunEnd(url, start)))
  }

  /** `getCleanYoutubeUrl(url)`. */
  function CleanYoutubeUrl(url: string): (r: Option<string>)
    ensures r.Some? <==> exists m :: IsRegexMatch(url, m) && m.end - m.start == VideoIdLength
    ensures forall m :: IsRegexMatch(url, m) && r.Some? ==> r.value == WatchPrefix + url[m.start..m.end]
  {
    match MatchVideoId(url)
    case None => None
    case Some(m) =>
      assert IsRegexMatch(url, m);
      forall m' | IsRegexMatch(url, m') ensures m' == m {
        RegexMatchUnique(url, m, m');
      }
      if m.end - m.start == VideoIdLength then Some(WatchPrefix + url[m.start..m.end]) else None
  }

  /** The regex has at most one match: the backtracking order leaves no choice. */
  lemma RegexMatchUnique(url: string, m1: IdMatch, m2: IdMatch)
    requires IsRegexMatch(url, m1) && IsRegexMatch(url, m2)
    ensures m1 == m2
  {
    assert m1.marker == m2.marker;
    RunEndUnique(url, m1.start, m1.end, m2.end);
  }

  lemma RunEndUnique(s: string, j: nat, e1: nat, e2: nat)
    requires j <= e1 <= |s| && j <= e2 <= |s|
    requires forall k :: j <= k < e1 ==> !IsStop(s[k])
    requires e1 < |s| ==> IsStop(s[e1])
    requires forall k :: j <= k < e2 ==> !IsStop(s[k])
    requires e2 < |s| ==> IsStop(s[e2])
    ensures e1 == e2
  {
  }

  /** Video ids as YouTube issues them: letters, digits, `-` and `_`. */
  predicate IsStandardIdChar(c: char) {
    ('a' <= c <= 'z') || ('A' <= c <= 'Z') || ('0' <= c <= '9') || c == '_' || c == '-'
  }

  /** A canonical link is left as it is: it is a fixed point of the canonicaliser. */
  lemma CanonicalUrlIsFixedPoint(id: string)
    requires |id| == VideoIdLength
    requires forall k :: 0 <= k < |id| ==> IsStandardIdChar(id[k])
    ensures CleanYoutubeUrl(WatchPrefix + id) == Some(WatchPrefix + id)
  {
    var s := WatchPrefix + id;
    var p := |WatchPrefix|;
    assert p == 32;
    assert forall k :: 0 <= k < p ==> s[k] == WatchPrefix[k];
    assert forall k :: p <= k < |s| ==> s[k] == id[k - p];
    // No line terminator: the first line is the whole link.
    assert forall k :: 0 <= k < |s| ==> !IsLineTerminator(s[k]);
    assert LineEndFrom(s, 0) == |s|;
    // `watch?v=` matches at 24 and no marker starts further right.
    assert s[24..32] == "watch?v=";
    assert MarkerLength(s, 24) == 8;
    forall j | 24 < j <= |s| ensures MarkerLength(s, j) == 0 {
      NoMarkerAfterWatch(s, id, j);
    }
    var m := IdMatch(24, 32, |s|);
    forall k | 32 <= k < |s| ensures !IsStop(s[k]) {
      assert IsStandardIdChar(id[k - p]);
    }
    assert IsRegexMatch(s, m);
    assert s[32..|s|] == id;
  }

  lemma NoMarkerAfterWatch(s: string, id: string, j: nat)
    requires s == WatchPrefix + id
    requires forall k :: 0 <= k < |id| ==> IsStandardIdChar(id[k])
    requires 24 < j <= |s|
    ensures MarkerLength(s, j) == 0
  {
    // Every alternative ends with '/' or '='. Right of position 24 there is no '/',
    // and the only '=' is the one closing "watch?v=", preceded by "?v" rather than "&v".
    forall k | 25 <= k < |s| ensures s[k] != '/' && (s[k] == '=' ==> k == 31) {
      if k >= 32 {
        assert s[k] == id[k - 32];
        assert IsStandardIdChar(id[k - 32]);
      }
    }
    assert s[29] == '?';
  }

  /** Canonicalising twice gives the same link as canonicalising once, for ids in YouTube's alphabet. */
  lemma CleanIsIdempotent(url: string)
    requires MatchVideoId(url).Some?
    requires var m := MatchVideoId(url).value;
      forall k :: m.start <= k < m.end ==> IsStandardIdChar(url[k])
    ensures CleanYoutubeUrl(url).Some? ==> CleanYoutubeUrl(CleanYoutubeUrl(url).value) == CleanYoutubeUrl(url)
  {
    var m := MatchVideoId(url).value;
    if CleanYoutubeUrl(url).Some? {
      var id := url[m.start..m.end];
      assert CleanYoutubeUrl(url).value == WatchPrefix + id;
      CanonicalUrlIsFixedPoint(id);
    }
  }

  /** A `youtu.be` short link is rewritten to the canonical watch link of the same video. */
  lemma ShortLinkIsCanonicalised(id: string)
    requires |id| == VideoIdLength
    requires forall k :: 0 <= k < |id| ==> IsStandardIdChar(id[k])
    ensures CleanYoutubeUrl("https://youtu.be/" + id) == Some(WatchPrefix + id)
  {
    var short := "https://youtu.be/";
    var s := short + id;
    assert forall k :: 0 <= k < 17 ==> s[k] == short[k];
    assert forall k :: 17 <= k < |s| ==> s[k] == id[k - 17];
    assert forall k :: 0 <= k < |s| ==> !IsLineTerminator(s[k]);
    assert LineEndFrom(s, 0) == |s|;
    assert s[8..13] == "youtu" && s[14..17] == "be/";
    assert MarkerLength(s, 8) == 9;
    forall j | 8 < j <= |s| ensures MarkerLength(s, j) == 0 {
      NoMarkerAfterShortHost(s, id, j);
    }
    var m := IdMatch(8, 17, |s|);
    forall k | 17 <= k < |s| ensures !IsStop(s[k]) {
      assert IsStandardIdChar(id[k - 17]);
    }
    assert IsRegexMatch(s, m);
    assert s[17..|s|] == id;
  }

  lemma NoMarkerAfterShortHost(s: string, id: string, j: nat)
    requires s == "https://youtu.be/" + id
    requires forall k :: 0 <= k < |id| ==> IsStandardIdChar(id[k])
    requires 8 < j <= |s|
    ensures MarkerLength(s, j) == 0
  {
    // Right of position 8 the only '/' or '=' is the one closing "youtu.be/", and no
    // shorter alternative ends there.
    forall k | 9 <= k < |s| ensures (s[k] != '/' && s[k] != '=') || k == 16 {
      if k >= 17 {
        assert s[k] == id[k - 17];
        assert IsStandardIdChar(id[k - 17]);
      }
    }
    assert s[9] == 'o' && s[11] == 't' && s[13] == '.' && s[14] == 'b' && s[15] == 'e';
  }
}
