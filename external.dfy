/**
 * `fetchExternalContent`: which remote text a resource's link contributes to its
 * document. The two network calls (a raw GitHub download and a YouTube
 * transcript download) are parameters: each either answers or fails.
 */
module External {
  import opened Wrappers
  import opened Text
  import opened YouTube

  const GithubBanner: string := "\n*** GITHUB CONTENT ***\n"
  const TranscriptBanner: string := "\n*** VIDEO TRANSCRIPT ***\n"
  /** Transcripts shorter than this are discarded. */
  const MinTranscriptLength: nat := 50

  /** The link of a GitHub page, rewritten to the raw-content host (first occurrences only). */
  function RawGithubUrl(url: string): string {
    ReplaceFirst(ReplaceFirst(url, "github.com", "raw.githubusercontent.com"), "/blob/", "/")
  }

  /** A path segment that is not "blob" and has no '/' cannot hold the first "/blob/". */
  lemma SegmentIsNotBlob(s: string, k: nat, seg: string)
    requires k + 1 + |seg| < |s| && s[k] == '/' && s[k + 1 + |seg|] == '/'
    requires s[k + 1..k + 1 + |seg|] == seg
    requires forall i :: 0 <= i < |seg| ==> seg[i] != '/'
    requires seg != "blob"
    ensures !OccursAt(s, "/blob/", k)
  {
    // Exhibit a position where s differs from "/blob/".
    if k + 6 <= |s| {
      var w := s[k..k + 6];
      if |seg| < 4 {
        assert w[1 + |seg|] == '/' && "/blob/"[1 + |seg|] != '/';
      } else if |seg| > 4 {
        assert w[5] == seg[4];
      } else {
        assert w[1..5] == seg && "/blob/"[1..5] == "blob";
      }
    }
  }

  /** A blob link `https://github.com/<owner>/<repo>/blob/<path>` becomes the raw download link. */
  lemma RawGithubUrlOfBlobLink(owner: string, repo: string, path: string)
    requires forall i :: 0 <= i < |owner| ==> owner[i] != '/'
    requires forall i :: 0 <= i < |repo| ==> repo[i] != '/'
    requires owner != "blob" && repo != "blob"
    ensures RawGithubUrl("https://github.com/" + owner + "/" + repo + "/blob/" + path)
         == "https://raw.githubusercontent.com/" + owner + "/" + repo + "/" + path
  {
    var tail := owner + "/" + repo + "/blob/" + path;
    assert "https://github.com/" + owner + "/" + repo + "/blob/" + path == "https://github.com/" + tail;
    HostIsRewritten(tail);
    var head := "https://raw.githubusercontent.com/" + owner + "/" + repo;
    assert "https://raw.githubusercontent.com/" + tail == head + "/blob/" + path;
    NoBlobBeforeRepository(owner, repo, path);
    ReplaceFirstAfter(head, "/blob/", path, "/");
  }

  /** The host is the first "github.com" of a github.com link. */
  lemma HostIsRewritten(tail: string)
    ensures ReplaceFirst("https://github.com/" + tail, "github.com", "raw.githubusercontent.com")
         == "https://raw.githubusercontent.com/" + tail
  {
    HostSplit(tail);
    var url := "https://" + "github.com" + ("/" + tail);
    forall k: nat | k < 8 ensures !OccursAt(url, "github.com", k) {
      assert url[k..k + 10][0] == url[k] != 'g';
    }
    ReplaceFirstAfter("https://", "github.com", "/" + tail, "raw.githubusercontent.com");
  }

  lemma HostSplit(tail: string)
    ensures "https://github.com/" + tail == "https://" + "github.com" + ("/" + tail)
    ensures "https://raw.githubusercontent.com/" + tail == "https://" + "raw.githubusercontent.com" + ("/" + tail)
  {
  }

  /** After the raw host, the first "/blob/" is the one that follows the repository name. */
  lemma NoBlobBeforeRepository(owner: string, repo: string, path: string)
    requires forall i :: 0 <= i < |owner| ==> owner[i] != '/'
    requires forall i :: 0 <= i < |repo| ==> repo[i] != '/'
    requires owner != "blob" && repo != "blob"
    ensures var head := "https://raw.githubusercontent.com/" + owner + "/" + repo;
      forall j: nat :: j < |head| ==> !OccursAt(head + "/blob/" + path, "/blob/", j)
  {
    var head := "https://raw.githubusercontent.com/" + owner + "/" + repo;
    var u := head + "/blob/" + path;
    var o, r := |owner|, |repo|;
    RawLinkLayout(owner, repo, path);
    RawHostSlashes(u);
    SlashFree(u, 34, owner);
    SlashFree(u, 35 + o, repo);
    forall k: nat | k < |head| ensures !OccursAt(u, "/blob/", k) {
      NoBlobInHead(u, o, r, k);
    }
  }

  /** Where the owner, the repository and the separators sit in a raw link. */
  lemma RawLinkLayout(owner: string, repo: string, path: string)
    ensures var u := "https://raw.githubusercontent.com/" + owner + "/" + repo + "/blob/" + path;
      var o, r := |owner|, |repo|;
      36 + o + r <= |u| && u[..34] == "https://raw.githubusercontent.com/" &&
      u[34..34 + o] == owner && u[34 + o] == '/' &&
      u[35 + o..35 + o + r] == repo && u[35 + o + r] == '/'
  {
  }

  /** The slashes of the raw host are at 6, 7 and 33. */
  lemma RawHostSlashes(u: string)
    requires |u| >= 34 && u[..34] == "https://raw.githubusercontent.com/"
    ensures forall i :: 0 <= i < 33 && i != 6 && i != 7 ==> u[i] != '/'
    ensures u[7] == '/' && u[8] == 'r' && u[33] == '/'
  {
    var host := "https://raw.githubusercontent.com/";
    assert forall i :: 0 <= i < 34 ==> u[i] == host[i];
  }

  /** A slash-free segment placed at `start` puts no slash there. */
  lemma SlashFree(u: string, start: nat, seg: string)
    requires start + |seg| <= |u| && u[start..start + |seg|] == seg
    requires forall i :: 0 <= i < |seg| ==> seg[i] != '/'
    ensures forall i :: start <= i < start + |seg| ==> u[i] != '/'
  {
    forall i | start <= i < start + |seg| ensures u[i] != '/' {
      assert u[i] == seg[i - start];
    }
  }

  /** The per-position argument: only '/' can start "/blob/", and each '/' in the head is ruled out. */
  lemma NoBlobInHead(u: string, o: nat, r: nat, k: nat)
    requires 36 + o + r <= |u|
    requires forall i :: 0 <= i < 33 && i != 6 && i != 7 ==> u[i] != '/'
    requires u[7] == '/' && u[8] == 'r' && u[33] == '/'
    requires forall i :: 34 <= i < 34 + o ==> u[i] != '/'
    requires forall i :: 35 + o <= i < 35 + o + r ==> u[i] != '/'
    requires u[34 + o] == '/' && u[35 + o + r] == '/'
    requires u[34..34 + o] != "blob" && u[35 + o..35 + o + r] != "blob"
    requires k < 35 + o + r
    ensures !OccursAt(u, "/blob/", k)
  {
    if k == 6 || k == 7 {
      assert u[k..k + 6][1] == u[k + 1] != 'b';
    } else if k == 33 {
      SegmentIsNotBlob(u, 33, u[34..34 + o]);
    } else if k == 34 + o {
      SegmentIsNotBlob(u, k, u[35 + o..35 + o + r]);
    } else if k + 6 <= |u| {
      assert u[k..k + 6][0] == u[k] != '/';
    }
  }

  /** Which branch of `fetchExternalContent` a link takes. */
  datatype Route = NoLink | Github | Video | Other

  function RouteOf(url: Option<string>, sourceLocation: string): (route: Route)
    ensures route == NoLink <==> !Truthy(url)
    ensures route == Github <==> Truthy(url) && sourceLocation == "GitHub" && Contains(url.value, "github.com")
  {
    if !Truthy(url) then NoLink
    else if sourceLocation == "GitHub" && Contains(url.value, "github.com") then Github
    else if sourceLocation == "YouTube" || Contains(url.value, "youtu") then Video
    else Other
  }

  /** The transcript text: the caption texts joined with single spaces. */
  function TranscriptText(parts: seq<string>): string {
    Join(parts, " ")
  }

  /**
   * `fetchExternalContent(url, sourceLocation)`. `getRaw` stands for the HTTP GET of
   * a raw GitHub link (its body already rendered as text), `getTranscript` for the
   * transcript download; `None` is a request that threw.
   */
  function FetchExternalContent(url: Option<string>, sourceLocation: string,
                                getRaw: string -> Option<string>,
                                getTranscript: string -> Option<seq<string>>): (r: string)
    ensures RouteOf(url, sourceLocation) in {NoLink, Other} ==> r == ""
    ensures RouteOf(url, sourceLocation) == Github ==>
      var body := getRaw(RawGithubUrl(url.value));
      (r != "" <==> body.Some?) && (body.Some? ==> r == GithubBanner + body.value + "\n")
    ensures RouteOf(url, sourceLocation) == Video ==>
      var link := CleanYoutubeUrl(url.value);
      var parts := if link.Some? then getTranscript(link.value) else None;
      (r != "" <==> parts.Some? && |TranscriptText(parts.value)| >= MinTranscriptLength)
      && (r != "" ==> r == TranscriptBanner + TranscriptText(parts.value) + "\n")
  {
    match RouteOf(url, sourceLocation)
    case NoLink => ""
    case Github =>
      (match getRaw(RawGithubUrl(url.value))
       case None => ""
       case Some(body) => GithubBanner + body + "\n")
    case Video =>
      (match CleanYoutubeUrl(url.value)
       case None => ""
       case Some(link) =>
         match getTranscript(link)
         case None => ""
         case Some(parts) =>
           var text := TranscriptText(parts);
           if |text| < MinTranscriptLength then "" else TranscriptBanner + text + "\n")
    case Other => ""
  }

  /** Whatever the remote services answer, the external text is empty or one bannered block ending in a newline. */
  lemma ExternalContentShape(url: Option<string>, sourceLocation: string,
                             getRaw: string -> Option<string>,
                             getTranscript: string -> Option<seq<string>>)
    ensures var r := FetchExternalContent(url, sourceLocation, getRaw, getTranscript);
      r == "" || ((StartsWith(r, GithubBanner) || StartsWith(r, TranscriptBanner)) && r[|r| - 1] == '\n')
  {
    var r := FetchExternalContent(url, sourceLocation, getRaw, getTranscript);
    if r != "" {
      match RouteOf(url, sourceLocation)
      case Github =>
        assert r[..|GithubBanner|] == GithubBanner;
      case Video =>
        assert r[..|TranscriptBanner|] == TranscriptBanner;
    }
  }
}
