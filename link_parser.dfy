// The link extractor: from the anchors of a post's HTML to the distinct root
// URLs (`scheme://netloc`) of the pages that look like blogs.

module LinkParser {
  import opened Wrappers
  import opened Strings
  import opened Web
  import opened Settings
  import opened Validation

  /** Hrefs that are never followed. */
  const SkippedPrefixes: seq<string> := ["mailto:", "tel:", "javascript:", "data:", "ftp:", "#"]

  /** The only schemes a resolved link may have. */
  const WebPrefixes: seq<string> := ["http://", "https://"]

  /** `f"{parsed.scheme}://{parsed.netloc}"`. */
  function Origin(p: Parts): string {
    p.scheme + "://" + p.netloc
  }

  /** What one href contributes: nothing when it is skipped, when its resolved
      form is not http(s) or when it does not look like a blog, otherwise the
      origin of the resolved URL; `None` when `urljoin` raises. */
  function Candidate(w: World, cfg: Config, source: string, href: string): Option<seq<string>> {
    if StartsWithAny(href, SkippedPrefixes) then Some([])
    else
      match w.join(source, href)
      case None => None
      case Some(full) =>
        if !StartsWithAny(full, WebPrefixes) || !IsLikelyBlog(w.parse, cfg, full) then Some([])
        else
          match w.parse(full)
          case None => Some([])
          case Some(p) => Some([Origin(p)])
  }

  /** The loop over the anchors: the accepted origins in document order, or
      `None` when any step raises. */
  function Collect(w: World, cfg: Config, source: string, hrefs: seq<string>): Option<seq<string>> {
    if hrefs == [] then Some([])
    else
      match Candidate(w, cfg, source, hrefs[0])
      case None => None
      case Some(here) =>
        match Collect(w, cfg, source, hrefs[1..])
        case None => None
        case Some(rest) => Some(here + rest)
  }

  /** `list(set(links))`; the model keeps the first occurrence of each link. */
  function Dedupe(s: seq<string>): (r: seq<string>)
    ensures forall i, j :: 0 <= i < j < |r| ==> r[i] != r[j]
    ensures forall x :: x in r <==> x in s
  {
    if s == [] then []
    else
      var d := Dedupe(s[..|s| - 1]);
      assert forall x :: x in s <==> x in s[..|s| - 1] || x == s[|s| - 1];
      if s[|s| - 1] in d then d else d + [s[|s| - 1]]
  }

  /** `extract_blog_links(content, source_url)`; `anchors` yields `None`
      when BeautifulSoup raises. */
  function ExtractBlogLinks(w: World, cfg: Config, content: string, source: string): seq<string> {
    if content == "" then []
    else
      match w.anchors(content)
      case None => []
      case Some(hrefs) =>
        match Collect(w, cfg, source, hrefs)
        case None => []
        case Some(links) => Dedupe(links)
  }

  /** The href at index `i` is accepted and resolves to `full`. */
  predicate AcceptedAt(w: World, cfg: Config, source: string, hrefs: seq<string>, i: int, full: string) {
    0 <= i < |hrefs| &&
    !StartsWithAny(hrefs[i], SkippedPrefixes) &&
    w.join(source, hrefs[i]) == Some(full) &&
    StartsWithAny(full, WebPrefixes) &&
    IsLikelyBlog(w.parse, cfg, full)
  }

  /** Every collected link is the origin of an accepted href. */
  lemma {:induction false} CollectSound(w: World, cfg: Config, source: string, hrefs: seq<string>, x: string)
    requires Collect(w, cfg, source, hrefs).Some? && x in Collect(w, cfg, source, hrefs).value
    ensures exists i, full :: AcceptedAt(w, cfg, source, hrefs, i, full) && w.parse(full).Some? && x == Origin(w.parse(full).value)
  {
    var here := Candidate(w, cfg, source, hrefs[0]).value;
    var rest := Collect(w, cfg, source, hrefs[1..]).value;
    assert Collect(w, cfg, source, hrefs).value == here + rest;
    if x in here {
      var full := w.join(source, hrefs[0]).value;
      assert AcceptedAt(w, cfg, source, hrefs, 0, full);
    } else {
      CollectSound(w, cfg, source, hrefs[1..], x);
      var i, full :| AcceptedAt(w, cfg, source, hrefs[1..], i, full) && w.parse(full).Some? && x == Origin(w.parse(full).value);
      assert hrefs[1..][i] == hrefs[i + 1];
      assert AcceptedAt(w, cfg, source, hrefs, i + 1, full);
    }
  }

  /** The origin of every accepted href is collected. */
  lemma {:induction false} CollectComplete(w: World, cfg: Config, source: string, hrefs: seq<string>, i: int, full: string)
    requires Collect(w, cfg, source, hrefs).Some?
    requires AcceptedAt(w, cfg, source, hrefs, i, full) && w.parse(full).Some?
    ensures Origin(w.parse(full).value) in Collect(w, cfg, source, hrefs).value
  {
    var here := Candidate(w, cfg, source, hrefs[0]).value;
    var rest := Collect(w, cfg, source, hrefs[1..]).value;
    assert Collect(w, cfg, source, hrefs).value == here + rest;
    if i == 0 {
      assert here == [Origin(w.parse(full).value)];
    } else {
      assert hrefs[1..][i - 1] == hrefs[i];
      assert AcceptedAt(w, cfg, source, hrefs[1..], i - 1, full);
      CollectComplete(w, cfg, source, hrefs[1..], i - 1, full);
    }
  }

  /** Every collected link is the origin of an accepted href, and the origin of
      every accepted href is collected. */
  lemma CollectMembers(w: World, cfg: Config, source: string, hrefs: seq<string>, x: string)
    requires Collect(w, cfg, source, hrefs).Some?
    ensures x in Collect(w, cfg, source, hrefs).value <==>
      exists i, full :: AcceptedAt(w, cfg, source, hrefs, i, full) && w.parse(full).Some? && x == Origin(w.parse(full).value)
  {
    if x in Collect(w, cfg, source, hrefs).value {
      CollectSound(w, cfg, source, hrefs, x);
    }
    if exists i, full :: AcceptedAt(w, cfg, source, hrefs, i, full) && w.parse(full).Some? && x == Origin(w.parse(full).value) {
      var i, full :| AcceptedAt(w, cfg, source, hrefs, i, full) && w.parse(full).Some? && x == Origin(w.parse(full).value);
      CollectComplete(w, cfg, source, hrefs, i, full);
    }
  }

  /** The returned links are distinct, and each is the `scheme://netloc` of an
      href that was not skipped, resolved to an http(s) URL and looked like a
      blog; with no content, or when parsing raises, nothing is returned. */
  lemma ExtractBlogLinksSpec(w: World, cfg: Config, content: string, source: string)
    ensures var r := ExtractBlogLinks(w, cfg, content, source);
      (forall i, j :: 0 <= i < j < |r| ==> r[i] != r[j]) &&
      (content == "" ==> r == []) &&
      (content != "" && w.anchors(content).None? ==> r == []) &&
      (forall x :: x in r ==> exists hrefs, i, full ::
          w.anchors(content) == Some(hrefs) &&
          AcceptedAt(w, cfg, source, hrefs, i, full) && w.parse(full).Some? && x == Origin(w.parse(full).value))
  {
    var r := ExtractBlogLinks(w, cfg, content, source);
    if content != "" && w.anchors(content).Some? {
      var hrefs := w.anchors(content).value;
      if Collect(w, cfg, source, hrefs).Some? {
        forall x | x in r
          ensures exists hrefs, i, full ::
            w.anchors(content) == Some(hrefs) &&
            AcceptedAt(w, cfg, source, hrefs, i, full) && w.parse(full).Some? && x == Origin(w.parse(full).value)
        {
          CollectMembers(w, cfg, source, hrefs, x);
        }
      }
    }
  }

  /** When nothing raises, the origin of every accepted href is returned. */
  lemma ExtractBlogLinksComplete(w: World, cfg: Config, content: string, source: string, i: int, full: string)
    requires content != "" && w.anchors(content).Some?
    requires Collect(w, cfg, source, w.anchors(content).value).Some?
    requires AcceptedAt(w, cfg, source, w.anchors(content).value, i, full)
    ensures w.parse(full).Some?
    ensures Origin(w.parse(full).value) in ExtractBlogLinks(w, cfg, content, source)
  {
    LikelyBlogNecessary(w.parse, cfg, full);
    CollectMembers(w, cfg, source, w.anchors(content).value, Origin(w.parse(full).value));
  }
}
