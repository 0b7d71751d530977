// The fetcher: per-domain rate limiting, the sitemap probe, the assembly of
// feed candidates for a blog, and the reading of a feed into posts.

module Network {
  import opened Wrappers
  import opened Strings
  import opened Web
  import opened Models
  import opened DomainUtils

  // ---------------------------------------------------------------- rate limit

  /** Seconds between two requests to one domain. */
  const MinDelay: int := 2

  /** The sleep before a request, given the domain's last request time (if
      any) and the clock: nothing for a new domain, otherwise what is missing
      to reach `MinDelay` since the last request. */
  function WaitTime(last: Option<int>, now: int): (wait: int)
    ensures wait >= 0
    ensures last.None? ==> wait == 0
    ensures last.Some? ==> last.value + MinDelay <= now + wait
    ensures last.Some? && last.value <= now ==> wait <= MinDelay
    ensures wait > 0 ==> last.Some? && now + wait == last.value + MinDelay
  {
    match last
    case None => 0
    case Some(t) =>
      var elapsed := now - t;
      if elapsed < MinDelay then MinDelay - elapsed else 0
  }

  function LastRequest(times: map<string, int>, domain: string): Option<int> {
    if domain in times then Some(times[domain]) else None
  }

  // ------------------------------------------------------------------ sitemap

  /** The directive prefix, compared on the lower-cased line. */
  const SitemapDirective: string := "sitemap:"

  /** Sitemap locations tried when robots.txt names none. */
  const DefaultSitemapPaths: seq<string> := ["/sitemap.xml", "/sitemap_index.xml", "/sitemap-index.xml", "/rss-sitemap.xml"]

  /** A `<loc>` is kept when its lower-cased text holds one of these. */
  const SitemapKeywords: set<string> := {"feed", "rss", "atom", "blog"}

  /** At most this many sitemap URLs are returned. */
  const SitemapLimit: nat := 10

  /** The value of a `Sitemap:` line of robots.txt, if the line is one: the
      stripped text after its first colon. */
  function DirectiveValue(line: string): Option<string> {
    var l := Strip(line);
    if StartsWith(Lower(l), SitemapDirective) then Some(Strip(l[|SitemapDirective|..])) else None
  }

  /** A sitemap URL as a path of the site: with the site prefix removed, kept
      as is when it already starts with `/`, dropped otherwise. */
  function SitemapPath(sitemapUrl: string, base: string): Option<string> {
    if StartsWith(sitemapUrl, base) then Some(sitemapUrl[|base|..])
    else if StartsWith(sitemapUrl, "/") then Some(sitemapUrl)
    else None
  }

  /** The robots.txt loop: the paths of its `Sitemap:` lines, in order. */
  function DirectivePaths(lines: seq<string>, base: string): seq<string> {
    if lines == [] then []
    else
      var here :=
        match DirectiveValue(lines[0])
        case None => []
        case Some(v) =>
          match SitemapPath(v, base)
          case None => []
          case Some(p) => [p];
      here + DirectivePaths(lines[1..], base)
  }

  /** The sitemap paths to try: those named by a 200 robots.txt, or the
      defaults when there are none. */
  function SitemapPaths(w: World, base: string): (paths: seq<string>)
    ensures paths != []
  {
    var named :=
      match w.get(base + "/robots.txt")
      case Failed => []
      case Response(status, text) => if status == 200 then DirectivePaths(Split(text, '\n'), base) else [];
    if named == [] then DefaultSitemapPaths else named
  }

  /** The `<loc>` texts that look like feeds, in document order. */
  function FeedLocs(locs: seq<string>): (r: seq<string>)
    ensures forall x :: x in r ==> x in locs && ContainsAny(Lower(x), SitemapKeywords)
  {
    if locs == [] then []
    else (if ContainsAny(Lower(locs[0]), SitemapKeywords) then [locs[0]] else []) + FeedLocs(locs[1..])
  }

  /** What one sitemap contributes: the feed-like locations of a 200 response
      whose XML parses. */
  function SitemapHits(w: World, base: string, path: string): (r: seq<string>)
    ensures forall x :: x in r ==> ContainsAny(Lower(x), SitemapKeywords)
  {
    match w.get(base + path)
    case Failed => []
    case Response(status, text) =>
      if status != 200 then []
      else
        match w.locs(text)
        case None => []
        case Some(ls) => FeedLocs(ls)
  }

  /** The sitemap loop: the first ten hits of the first sitemap with any. */
  function FirstHits(w: World, base: string, paths: seq<string>): seq<string> {
    if paths == [] then []
    else
      var hits := SitemapHits(w, base, paths[0]);
      if hits != [] then Take(hits, SitemapLimit) else FirstHits(w, base, paths[1..])
  }

  /** `check_sitemap(url)`. */
  function SitemapFeeds(w: World, url: string): seq<string> {
    var base := RStrip(url, '/');
    FirstHits(w, base, SitemapPaths(w, base))
  }

  /** With no usable `Sitemap:` line the four default locations are tried. */
  lemma SitemapPathsDefault(w: World, base: string)
    requires var r := w.get(base + "/robots.txt");
      r.Failed? || r.status != 200 || DirectivePaths(Split(r.text, '\n'), base) == []
    ensures SitemapPaths(w, base) == DefaultSitemapPaths
  {
  }

  /** The sitemap probe stops at the first sitemap with any hit and returns at
      most ten of its hits; when no sitemap has a hit it returns nothing. */
  lemma {:induction false} FirstHitsSpec(w: World, base: string, paths: seq<string>)
    ensures var r := FirstHits(w, base, paths);
      |r| <= SitemapLimit &&
      (forall x :: x in r ==> ContainsAny(Lower(x), SitemapKeywords)) &&
      ((forall k :: 0 <= k < |paths| ==> SitemapHits(w, base, paths[k]) == []) ==> r == []) &&
      (forall k ::
        (0 <= k < |paths| && SitemapHits(w, base, paths[k]) != [] &&
         (forall j :: 0 <= j < k ==> SitemapHits(w, base, paths[j]) == [])) ==>
        r == Take(SitemapHits(w, base, paths[k]), SitemapLimit))
  {
    if paths != [] {
      FirstHitsSpec(w, base, paths[1..]);
      var r := FirstHits(w, base, paths);
      forall k | 0 <= k < |paths| && SitemapHits(w, base, paths[k]) != [] &&
          (forall j :: 0 <= j < k ==> SitemapHits(w, base, paths[j]) == [])
        ensures r == Take(SitemapHits(w, base, paths[k]), SitemapLimit)
      {
        if k > 0 {
          assert SitemapHits(w, base, paths[0]) == [];
          assert paths[1..][k - 1] == paths[k];
          assert forall j :: 0 <= j < k - 1 ==> paths[1..][j] == paths[j + 1];
        }
      }
      if forall k :: 0 <= k < |paths| ==> SitemapHits(w, base, paths[k]) == [] {
        assert SitemapHits(w, base, paths[0]) == [];
        assert forall k :: 0 <= k < |paths[1..]| ==> paths[1..][k] == paths[k + 1];
      }
    }
  }

  /** One step of the sitemap loop. */
  lemma FirstHitsStep(w: World, base: string, paths: seq<string>, i: nat)
    requires i < |paths|
    ensures var hits := SitemapHits(w, base, paths[i]);
      FirstHits(w, base, paths[i..]) == if hits != [] then Take(hits, SitemapLimit) else FirstHits(w, base, paths[i + 1..])
  {
    assert paths[i..][1..] == paths[i + 1..];
  }

  /** `Fetcher.check_sitemap(url)`, the loop over sitemap locations. */
  method CheckSitemap(w: World, url: string) returns (feeds: seq<string>)
    ensures feeds == SitemapFeeds(w, url)
  {
    var base := RStrip(url, '/');
    var paths := SitemapPaths(w, base);
    var i := 0;
    while i < |paths|
      invariant 0 <= i <= |paths|
      invariant FirstHits(w, base, paths[i..]) == FirstHits(w, base, paths)
    {
      FirstHitsStep(w, base, paths, i);
      var hits := SitemapHits(w, base, paths[i]);
      if hits != [] {
        return Take(hits, SitemapLimit);
      }
      i := i + 1;
    }
    return [];
  }

  // ------------------------------------------------------- feed candidates

  /** The outcome `discover_feeds` reports with its candidate list. */
  datatype Status = Success | HasBlogIndicators | NoBlogIndicators | Unreachable

  /** The feed paths of a recognised hosting platform, first match wins;
      empty when the host is none of them. */
  function PlatformPaths(host: string, page: Page): seq<string> {
    if Contains(host, "substack.com") then ["/feed"]
    else if Contains(host, "blogspot.com") then ["/feeds/posts/default", "/feeds/posts/default?alt=rss"]
    else if Contains(host, "wordpress.com") || page.wordpressGenerator then ["/feed/", "/feed"]
    else if Contains(host, "medium.com") then ["/feed"]
    else if Contains(host, "ghost.io") then ["/rss/", "/rss"]
    else []
  }

  /** `[urljoin(url, p) for p in paths]`, `None` when a join raises. */
  function JoinAll(w: World, url: string, paths: seq<string>): (r: Option<seq<string>>)
    ensures r.Some? ==> |r.value| == |paths|
  {
    if paths == [] then Some([])
    else
      match w.join(url, paths[0])
      case None => None
      case Some(u) =>
        match JoinAll(w, url, paths[1..])
        case None => None
        case Some(rest) => Some([u] + rest)
  }

  /** The `<link>` loop: every non-empty href, resolved. */
  function LinkTagFeeds(w: World, url: string, hrefs: seq<string>): Option<seq<string>> {
    if hrefs == [] then Some([])
    else
      var here := if hrefs[0] == "" then Some([]) else JoinAll(w, url, [hrefs[0]]);
      match here
      case None => None
      case Some(h) =>
        match LinkTagFeeds(w, url, hrefs[1..])
        case None => None
        case Some(rest) => Some(h + rest)
  }

  predicate HasNonEmpty(hrefs: seq<string>) {
    exists i :: 0 <= i < |hrefs| && hrefs[i] != ""
  }

  /** Words that make a navigation anchor interesting. */
  const NavKeywords: set<string> := {"blog", "rss", "feed", "atom", "subscribe", "news", "articles", "posts"}

  /** Words in an href that make it a feed candidate itself. */
  const FeedHrefKeywords: set<string> := {"rss", "feed", "atom", ".xml"}

  /** Feed suffixes tried below a blog section. */
  const BlogFeedSuffixes: seq<string> := ["/feed", "/rss", "/atom"]

  /** What one navigation anchor contributes, and whether it is a blog
      indicator; `None` when `urljoin` raises. */
  function NavAnchorFeeds(w: World, url: string, a: Anchor): Option<(seq<string>, bool)> {
    var h := Lower(a.href);
    var t := Strip(Lower(a.text));
    if !ContainsAny(h, NavKeywords) && !ContainsAny(t, NavKeywords) then Some(([], false))
    else
      match w.join(url, a.href)
      case None => None
      case Some(full) =>
        var root := RStrip(full, '/');
        var blogFeeds := if Contains(h, "blog") || Contains(t, "blog") then
          [root + BlogFeedSuffixes[0], root + BlogFeedSuffixes[1], root + BlogFeedSuffixes[2]] else [];
        var direct := if ContainsAny(h, FeedHrefKeywords) then [full] else [];
        Some((blogFeeds + direct, true))
  }

  /** The navigation loop over every anchor of every navigation element. */
  function NavFeeds(w: World, url: string, anchors: seq<Anchor>): Option<(seq<string>, bool)> {
    if anchors == [] then Some(([], false))
    else
      match NavAnchorFeeds(w, url, anchors[0])
      case None => None
      case Some(here) =>
        match NavFeeds(w, url, anchors[1..])
        case None => None
        case Some(rest) => Some((here.0 + rest.0, here.1 || rest.1))
  }

  /** Paths tried on every site, after all other candidates. */
  const CommonFeedPaths: seq<string> := [
    "/feed/", "/feed", "/rss/", "/rss", "/atom/", "/atom",
    "/index.xml", "/rss.xml", "/feed.xml", "/atom.xml",
    "/blog/feed/", "/blog/feed", "/blog/rss/", "/blog/rss"]

  /** The membership-checked append loop: each resolved path is added unless
      it is already a candidate. */
  function AppendAbsent(w: World, url: string, feeds: seq<string>, paths: seq<string>): Option<seq<string>>
    decreases |paths|
  {
    if paths == [] then Some(feeds)
    else
      match w.join(url, paths[0])
      case None => None
      case Some(f) => AppendAbsent(w, url, if f in feeds then feeds else feeds + [f], paths[1..])
  }

  /** The fallback stage keeps the earlier candidates as a prefix, adds every
      resolved path exactly when it is missing, and so never leaves the list
      empty when there is a path to try. */
  lemma {:induction false} AppendAbsentSpec(w: World, url: string, feeds: seq<string>, paths: seq<string>)
    requires AppendAbsent(w, url, feeds, paths).Some?
    ensures var r := AppendAbsent(w, url, feeds, paths).value;
      |feeds| <= |r| && r[..|feeds|] == feeds &&
      (forall k :: 0 <= k < |paths| ==> w.join(url, paths[k]).Some? && w.join(url, paths[k]).value in r) &&
      (forall i :: |feeds| <= i < |r| ==> r[i] !in feeds) &&
      (forall i, j :: |feeds| <= i < j < |r| ==> r[i] != r[j]) &&
      (paths != [] ==> r != [])
    decreases |paths|
  {
    if paths != [] {
      var f := w.join(url, paths[0]).value;
      var next := if f in feeds then feeds else feeds + [f];
      AppendAbsentSpec(w, url, next, paths[1..]);
      var r := AppendAbsent(w, url, feeds, paths).value;
      assert r == AppendAbsent(w, url, next, paths[1..]).value;
      assert r[..|next|] == next;
      assert r[..|feeds|] == next[..|feeds|];
      assert f in r by {
        assert next[|next| - 1] == f || f in feeds;
        if f in feeds {
          var m :| 0 <= m < |feeds| && feeds[m] == f;
          assert r[m] == f;
        } else {
          assert r[|next| - 1] == f;
        }
      }
      forall k | 0 <= k < |paths|
        ensures w.join(url, paths[k]).Some? && w.join(url, paths[k]).value in r
      {
        if k > 0 {
          assert paths[1..][k - 1] == paths[k];
        }
      }
      forall i | |feeds| <= i < |r| ensures r[i] !in feeds {
        if i < |next| {
          assert r[i] == next[i] == f;
        }
      }
      forall i, j | |feeds| <= i < j < |r| ensures r[i] != r[j] {
        if i < |next| {
          assert r[i] == f && f in next;
        }
      }
      if f !in feeds {
        assert r[|feeds|] == f;
      }
    }
  }

  /** The most candidates kept. */
  const FeedCap: nat := 15

  /** `feed_urls[:10] + feed_urls[10:15]` when there are more than 15. */
  function Cap(feeds: seq<string>): (r: seq<string>)
    ensures r == Take(feeds, FeedCap)
  {
    if |feeds| > FeedCap then feeds[..10] + feeds[10..15] else feeds
  }

  /** The parsing stage of `discover_feeds` over a fetched root page: the
      candidates before the cap and whether any blog indicator was seen, or
      `None` when something raises. */
  function Assemble(w: World, url: string, page: Page): Option<(seq<string>, bool)> {
    match w.parse(url)
    case None => None
    case Some(p) =>
      var platformPaths := PlatformPaths(Lower(p.netloc), page);
      match JoinAll(w, url, platformPaths)
      case None => None
      case Some(platform) =>
        match LinkTagFeeds(w, url, page.feedLinkHrefs)
        case None => None
        case Some(links) =>
          var sitemap := SitemapFeeds(w, url);
          match NavFeeds(w, url, page.navAnchors)
          case None => None
          case Some(nav) =>
            match AppendAbsent(w, url, platform + links + sitemap + nav.0, CommonFeedPaths)
            case None => None
            case Some(all) =>
              Some((all, platformPaths != [] || HasNonEmpty(page.feedLinkHrefs) || sitemap != [] || nav.1))
  }

  /** `discover_feeds(url)`: the root page must be fetched without an
      exception or an HTTP error status (400 to 599), and then parsed. */
  function FeedCandidates(w: World, url: string): (seq<string>, Status) {
    match w.get(url)
    case Failed => ([], Unreachable)
    case Response(status, text) =>
      if 400 <= status < 600 then ([], Unreachable)
      else
        match w.page(text)
        case None => ([], Unreachable)
        case Some(page) =>
          match Assemble(w, url, page)
          case None => ([], Unreachable)
          case Some(r) =>
            var feeds := Cap(r.0);
            if feeds != [] then (feeds, Success)
            else if r.1 then (feeds, HasBlogIndicators)
            else (feeds, NoBlogIndicators)
  }

  /** Once the root page is fetched and parsed, the fallback stage makes the
      list non-empty, so the status is `Success` whenever it is not
      `Unreachable`; the other two statuses never occur. At most fifteen
      candidates are returned, and none when the site is unreachable. */
  lemma DiscoverFeedsOutcome(w: World, url: string)
    ensures var (feeds, status) := FeedCandidates(w, url);
      (status == Success || status == Unreachable) &&
      (status == Success <==> feeds != []) &&
      |feeds| <= FeedCap
    ensures var r := w.get(url);
      r.Response? && !(400 <= r.status < 600) && w.page(r.text).Some? &&
      Assemble(w, url, w.page(r.text).value).Some? ==>
        FeedCandidates(w, url).1 == Success
  {
    var r := w.get(url);
    if r.Response? && !(400 <= r.status < 600) && w.page(r.text).Some? {
      var page := w.page(r.text).value;
      if Assemble(w, url, page).Some? {
        var p := w.parse(url).value;
        var platform := JoinAll(w, url, PlatformPaths(Lower(p.netloc), page)).value;
        var links := LinkTagFeeds(w, url, page.feedLinkHrefs).value;
        var nav := NavFeeds(w, url, page.navAnchors).value;
        AppendAbsentSpec(w, url, platform + links + SitemapFeeds(w, url) + nav.0, CommonFeedPaths);
      }
    }
  }

  /** The candidate order: platform feeds, `<link>` feeds, sitemap feeds and
      navigation feeds come first, in that order, then the common paths that
      were missing; the result is the first fifteen of that list. */
  lemma DiscoverFeedsOrder(w: World, url: string, page: Page)
    requires w.get(url).Response? && !(400 <= w.get(url).status < 600)
    requires w.page(w.get(url).text) == Some(page)
    requires Assemble(w, url, page).Some?
    ensures var p := w.parse(url).value;
      var platform := JoinAll(w, url, PlatformPaths(Lower(p.netloc), page)).value;
      var links := LinkTagFeeds(w, url, page.feedLinkHrefs).value;
      var nav := NavFeeds(w, url, page.navAnchors).value;
      var early := platform + links + SitemapFeeds(w, url) + nav.0;
      var all := Assemble(w, url, page).value.0;
      |early| <= |all| && all[..|early|] == early &&
      (forall k :: 0 <= k < |CommonFeedPaths| ==>
        w.join(url, CommonFeedPaths[k]).Some? && w.join(url, CommonFeedPaths[k]).value in all) &&
      (forall i :: |early| <= i < |all| ==> all[i] !in early) &&
      FeedCandidates(w, url).0 == Take(all, FeedCap)
  {
    var p := w.parse(url).value;
    var platform := JoinAll(w, url, PlatformPaths(Lower(p.netloc), page)).value;
    var links := LinkTagFeeds(w, url, page.feedLinkHrefs).value;
    var nav := NavFeeds(w, url, page.navAnchors).value;
    AppendAbsentSpec(w, url, platform + links + SitemapFeeds(w, url) + nav.0, CommonFeedPaths);
  }

  /** The fallback loop of `discover_feeds`, over the common feed paths. */
  /** One step of the fallback loop. */
  lemma AppendAbsentStep(w: World, url: string, feeds: seq<string>, paths: seq<string>, i: nat)
    requires i < |paths|
    ensures AppendAbsent(w, url, feeds, paths[i..]) ==
      match w.join(url, paths[i])
      case None => None
      case Some(f) => AppendAbsent(w, url, if f in feeds then feeds else feeds + [f], paths[i + 1..])
  {
    assert paths[i..][0] == paths[i];
    assert paths[i..][1..] == paths[i + 1..];
  }

  method AppendCommonFeeds(w: World, url: string, feeds: seq<string>) returns (r: Option<seq<string>>)
    ensures r == AppendAbsent(w, url, feeds, CommonFeedPaths)
  {
    var all := feeds;
    var i := 0;
    while i < |CommonFeedPaths|
      invariant 0 <= i <= |CommonFeedPaths|
      invariant AppendAbsent(w, url, all, CommonFeedPaths[i..]) == AppendAbsent(w, url, feeds, CommonFeedPaths)
    {
      AppendAbsentStep(w, url, all, CommonFeedPaths, i);
      var joined := w.join(url, CommonFeedPaths[i]);
      if joined.None? {
        return None;
      }
      if joined.value !in all {
        all := all + [joined.value];
      }
      i := i + 1;
    }
    return Some(all);
  }

  /** The parsing stage of `discover_feeds` on the fetched root page: the
      platform paths, the feed link tags, the sitemap probe, the navigation
      links and the common paths, in that order, with the indicator flag. */
  method ParseCandidates(w: World, url: string, page: Page) returns (r: Option<(seq<string>, bool)>)
    ensures r == Assemble(w, url, page)
  {
    var parts := w.parse(url);
    if parts.None? {
      return None;
    }
    var platformPaths := PlatformPaths(Lower(parts.value.netloc), page);
    var platform := JoinAll(w, url, platformPaths);
    var links := LinkTagFeeds(w, url, page.feedLinkHrefs);
    if platform.None? || links.None? {
      return None;
    }
    var sitemap := CheckSitemap(w, url);
    var nav := NavFeeds(w, url, page.navAnchors);
    if nav.None? {
      return None;
    }
    var all := AppendCommonFeeds(w, url, platform.value + links.value + sitemap + nav.value.0);
    if all.None? {
      return None;
    }
    r := Some((all.value, platformPaths != [] || HasNonEmpty(page.feedLinkHrefs) || sitemap != [] || nav.value.1));
  }

  // --------------------------------------------------------------- feeds

  /** The summary keeps at most this many characters of the text. */
  const SummaryLimit: nat := 500

  /** One feed entry as a post: the date prefers `published` over `updated`
      (timestamp 0 without either), the content prefers the entry content over
      its summary, and the summary is the first 500 characters of its text. */
  function EntryPost(w: World, e: Entry, blogName: string, feedUrl: string): (p: Post)
    ensures p.blogName == blogName && p.feedUrl == feedUrl
  {
    var date := if e.published.Some? then e.published else e.updated;
    var content := if e.content.Some? then e.content.value else if e.summary.Some? then e.summary.value else "";
    var full := if content != "" then w.text(content) else "";
    Post(
      e.title.GetOr("No Title"),
      e.link.GetOr(""),
      if date.Some? then Some(date.value.iso) else None,
      if date.Some? then date.value.timestamp else 0,
      Take(full, SummaryLimit),
      full,
      content,
      blogName,
      feedUrl)
  }

  /** The fallbacks of one entry: the date prefers `published` over `updated`
      (no date and timestamp 0 without either), the stored HTML prefers the
      entry content over its summary, and the summary is a prefix of at most
      500 characters of the text, equal to it when the text is short. */
  lemma EntryPostSpec(w: World, e: Entry, blogName: string, feedUrl: string)
    ensures var p := EntryPost(w, e, blogName, feedUrl);
      (e.published.Some? ==> p.published == Some(e.published.value.iso) && p.publishedTimestamp == e.published.value.timestamp) &&
      (e.published.None? && e.updated.Some? ==> p.published == Some(e.updated.value.iso) && p.publishedTimestamp == e.updated.value.timestamp) &&
      (e.published.None? && e.updated.None? ==> p.published.None? && p.publishedTimestamp == 0) &&
      (e.content.Some? ==> p.rawHtmlContent == e.content.value) &&
      (e.content.None? && e.summary.Some? ==> p.rawHtmlContent == e.summary.value) &&
      (e.content.None? && e.summary.None? ==> p.rawHtmlContent == "" && p.fullContent == "") &&
      p.title == e.title.GetOr("No Title") && p.link == e.link.GetOr("") &&
      |p.summary| <= SummaryLimit && StartsWith(p.fullContent, p.summary) &&
      (|p.fullContent| <= SummaryLimit ==> p.summary == p.fullContent)
  {
  }

  /** What one entry contributes: its post, nothing when reading it raised. */
  function EntryPostOf(w: World, x: Option<Entry>, blogName: string, feedUrl: string): seq<Post> {
    match x case None => [] case Some(e) => [EntryPost(w, e, blogName, feedUrl)]
  }

  /** The entry loop: an entry that raises is skipped. */
  function EntryPosts(w: World, entries: seq<Option<Entry>>, blogName: string, feedUrl: string): (posts: seq<Post>)
    ensures |posts| <= |entries|
  {
    if entries == [] then []
    else
      EntryPostOf(w, entries[0], blogName, feedUrl)
      + EntryPosts(w, entries[1..], blogName, feedUrl)
  }

  /** `fetch_feed(feed_url)` reading at most `maxPosts` entries. The blog
      name is the feed title, or the URL's host (which is parsed even when
      the title exists, so a URL that cannot be parsed yields nothing). */
  function FeedPosts(w: World, maxPosts: nat, feedUrl: string): seq<Post> {
    match w.get(feedUrl)
    case Failed => []
    case Response(status, body) =>
      if status != 200 then []
      else
        match w.feed(body)
        case None => []
        case Some(f) =>
          if f.entries == [] then []
          else
            match w.parse(feedUrl)
            case None => []
            case Some(p) => EntryPosts(w, Take(f.entries, maxPosts), f.title.GetOr(p.netloc), feedUrl)
  }

  lemma {:induction false} EntryPostsMembers(w: World, entries: seq<Option<Entry>>, blogName: string, feedUrl: string)
    ensures forall p :: p in EntryPosts(w, entries, blogName, feedUrl) ==>
      exists i :: 0 <= i < |entries| && entries[i].Some? && p == EntryPost(w, entries[i].value, blogName, feedUrl)
  {
    if entries != [] {
      EntryPostsMembers(w, entries[1..], blogName, feedUrl);
      forall p | p in EntryPosts(w, entries, blogName, feedUrl)
        ensures exists i :: 0 <= i < |entries| && entries[i].Some? && p == EntryPost(w, entries[i].value, blogName, feedUrl)
      {
        if p !in EntryPosts(w, entries[1..], blogName, feedUrl) {
          assert entries[0].Some? && p == EntryPost(w, entries[0].value, blogName, feedUrl);
        } else {
          var i :| 0 <= i < |entries[1..]| && entries[1..][i].Some? && p == EntryPost(w, entries[1..][i].value, blogName, feedUrl);
          assert entries[i + 1] == entries[1..][i];
        }
      }
    }
  }

  /** The entry loop distributes over concatenation. */
  lemma {:induction false} EntryPostsAppend(w: World, a: seq<Option<Entry>>, b: seq<Option<Entry>>, blogName: string, feedUrl: string)
    ensures EntryPosts(w, a + b, blogName, feedUrl) == EntryPosts(w, a, blogName, feedUrl) + EntryPosts(w, b, blogName, feedUrl)
  {
    if a == [] {
      assert a + b == b;
    } else {
      assert (a + b)[1..] == a[1..] + b;
      EntryPostsAppend(w, a[1..], b, blogName, feedUrl);
    }
  }

  /** The number of entries that do not raise. */
  function Present<T>(xs: seq<Option<T>>): nat {
    if xs == [] then 0 else (if xs[0].Some? then 1 else 0) + Present(xs[1..])
  }

  lemma {:induction false} PresentAppend<T>(a: seq<Option<T>>, b: seq<Option<T>>)
    ensures Present(a + b) == Present(a) + Present(b)
  {
    if a == [] {
      assert a + b == b;
    } else {
      assert (a + b)[1..] == a[1..] + b;
      PresentAppend(a[1..], b);
    }
  }

  /** An entry that does not raise is counted by every longer prefix. */
  lemma PresentPrefix<T>(xs: seq<Option<T>>, i: nat, j: nat)
    requires i < j <= |xs| && xs[i].Some?
    ensures Present(xs[..i]) < Present(xs[..j])
  {
    assert xs[..j] == xs[..i] + [xs[i]] + xs[i + 1..j];
    PresentAppend(xs[..i] + [xs[i]], xs[i + 1..j]);
    PresentAppend(xs[..i], [xs[i]]);
  }

  /** One post per entry that does not raise. */
  lemma {:induction false} EntryPostsCount(w: World, entries: seq<Option<Entry>>, blogName: string, feedUrl: string)
    ensures |EntryPosts(w, entries, blogName, feedUrl)| == Present(entries)
  {
    if entries != [] {
      EntryPostsCount(w, entries[1..], blogName, feedUrl);
    }
  }

  /** The post of entry `i` follows the posts of the entries before it. */
  lemma EntryPostAt(w: World, entries: seq<Option<Entry>>, blogName: string, feedUrl: string, i: nat)
    requires i < |entries| && entries[i].Some?
    ensures EntryPosts(w, entries, blogName, feedUrl) ==
      EntryPosts(w, entries[..i], blogName, feedUrl) + [EntryPost(w, entries[i].value, blogName, feedUrl)] +
      EntryPosts(w, entries[i + 1..], blogName, feedUrl)
    ensures |EntryPosts(w, entries[..i], blogName, feedUrl)| == Present(entries[..i])
  {
    var before := entries[..i];
    var after := entries[i + 1..];
    assert entries == before + [entries[i]] + after;
    EntryPostsAppend(w, before + [entries[i]], after, blogName, feedUrl);
    EntryPostsAppend(w, before, [entries[i]], blogName, feedUrl);
    EntryPostsCount(w, before, blogName, feedUrl);
    assert EntryPosts(w, [entries[i]], blogName, feedUrl) == [EntryPost(w, entries[i].value, blogName, feedUrl)];
  }

  /** Every entry that does not raise yields its post, and the posts keep the
      order of their entries: the post of entry `i` comes after the posts of
      the entries before it that did not raise. */
  lemma EntryPostsComplete(w: World, entries: seq<Option<Entry>>, blogName: string, feedUrl: string)
    ensures |EntryPosts(w, entries, blogName, feedUrl)| == Present(entries)
    ensures forall i :: 0 <= i < |entries| && entries[i].Some? ==>
      Present(entries[..i]) < |EntryPosts(w, entries, blogName, feedUrl)| &&
      EntryPosts(w, entries, blogName, feedUrl)[Present(entries[..i])] == EntryPost(w, entries[i].value, blogName, feedUrl)
    ensures forall i, j :: 0 <= i < j < |entries| && entries[i].Some? ==> Present(entries[..i]) < Present(entries[..j])
  {
    EntryPostsCount(w, entries, blogName, feedUrl);
    forall i | 0 <= i < |entries| && entries[i].Some?
      ensures Present(entries[..i]) < |EntryPosts(w, entries, blogName, feedUrl)| &&
        EntryPosts(w, entries, blogName, feedUrl)[Present(entries[..i])] == EntryPost(w, entries[i].value, blogName, feedUrl)
    {
      EntryPostAt(w, entries, blogName, feedUrl, i);
    }
    forall i, j | 0 <= i < j < |entries| && entries[i].Some?
      ensures Present(entries[..i]) < Present(entries[..j])
    {
      PresentPrefix(entries, i, j);
    }
  }

  /** The entry loop of `fetch_feed`. */
  method ReadEntries(w: World, entries: seq<Option<Entry>>, blogName: string, feedUrl: string) returns (posts: seq<Post>)
    ensures posts == EntryPosts(w, entries, blogName, feedUrl)
  {
    posts := [];
    var i := 0;
    while i < |entries|
      invariant 0 <= i <= |entries|
      invariant posts == EntryPosts(w, entries[..i], blogName, feedUrl)
    {
      EntryPostsAppend(w, entries[..i], [entries[i]], blogName, feedUrl);
      assert entries[..i + 1] == entries[..i] + [entries[i]];
      assert EntryPosts(w, [entries[i]], blogName, feedUrl) == EntryPostOf(w, entries[i], blogName, feedUrl);
      posts := posts + EntryPostOf(w, entries[i], blogName, feedUrl);
      i := i + 1;
    }
    assert entries[..i] == entries;
  }

  /** Conversely, every entry among the first `maxPosts` of a fetched feed
      that does not raise yields its post, in entry order, and there are no
      other posts. */
  lemma FeedPostsComplete(w: World, maxPosts: nat, feedUrl: string, f: Feed, p: Parts)
    requires w.get(feedUrl).Response? && w.get(feedUrl).status == 200
    requires w.feed(w.get(feedUrl).text) == Some(f) && w.parse(feedUrl) == Some(p)
    ensures |FeedPosts(w, maxPosts, feedUrl)| == Present(Take(f.entries, maxPosts))
    ensures forall i :: 0 <= i < |f.entries| && i < maxPosts && f.entries[i].Some? ==>
      Present(f.entries[..i]) < |FeedPosts(w, maxPosts, feedUrl)| &&
      FeedPosts(w, maxPosts, feedUrl)[Present(f.entries[..i])] ==
        EntryPost(w, f.entries[i].value, f.title.GetOr(p.netloc), feedUrl)
  {
    var es := Take(f.entries, maxPosts);
    var name := f.title.GetOr(p.netloc);
    EntryPostsComplete(w, es, name, feedUrl);
    assert FeedPosts(w, maxPosts, feedUrl) == EntryPosts(w, es, name, feedUrl);
    forall i | 0 <= i < |f.entries| && i < maxPosts && f.entries[i].Some?
      ensures Present(f.entries[..i]) < |FeedPosts(w, maxPosts, feedUrl)| &&
        FeedPosts(w, maxPosts, feedUrl)[Present(f.entries[..i])] == EntryPost(w, f.entries[i].value, name, feedUrl)
    {
      assert i < |es| && es[i] == f.entries[i] && es[..i] == f.entries[..i];
    }
  }

  /** A feed that cannot be fetched, answers anything but 200 or has no
      entries yields no posts; otherwise at most `maxPosts` posts, each built
      from one of the first `maxPosts` entries, carrying the feed URL and a
      summary of at most 500 characters. */
  lemma FeedPostsSpec(w: World, maxPosts: nat, feedUrl: string)
    ensures var r := w.get(feedUrl);
      (r.Failed? || r.status != 200) ==> FeedPosts(w, maxPosts, feedUrl) == []
    ensures var r := w.get(feedUrl);
      r.Response? && r.status == 200 && w.feed(r.text).Some? && w.feed(r.text).value.entries == [] ==>
        FeedPosts(w, maxPosts, feedUrl) == []
    ensures var posts := FeedPosts(w, maxPosts, feedUrl);
      |posts| <= maxPosts &&
      forall p :: p in posts ==>
        (p.feedUrl == feedUrl && |p.summary| <= SummaryLimit &&
         exists f, i :: w.feed(w.get(feedUrl).text) == Some(f) && 0 <= i < |f.entries| && i < maxPosts &&
           f.entries[i].Some? && p == EntryPost(w, f.entries[i].value, p.blogName, feedUrl))
  {
    var r := w.get(feedUrl);
    if r.Response? && r.status == 200 && w.feed(r.text).Some? && w.feed(r.text).value.entries != [] && w.parse(feedUrl).Some? {
      var f := w.feed(r.text).value;
      var name := f.title.GetOr(w.parse(feedUrl).value.netloc);
      var es := Take(f.entries, maxPosts);
      EntryPostsMembers(w, es, name, feedUrl);
      forall p | p in FeedPosts(w, maxPosts, feedUrl)
        ensures exists f, i ::
          (w.feed(w.get(feedUrl).text) == Some(f) && 0 <= i < |f.entries| && i < maxPosts &&
           f.entries[i].Some? && p == EntryPost(w, f.entries[i].value, p.blogName, feedUrl))
      {
        var i :| 0 <= i < |es| && es[i].Some? && p == EntryPost(w, es[i].value, name, feedUrl);
        assert es[i] == f.entries[i];
      }
    }
  }

  // --------------------------------------------------------------- fetcher

  /** The fetcher: the last request time per domain on an abstract clock that
      only sleeping advances. */
  class Fetcher {
    var domainLastRequest: map<string, int>
    var now: int

    ghost predicate Valid()
      reads this
    {
      forall d :: d in domainLastRequest ==> domainLastRequest[d] <= now
    }

    constructor (start: int)
      ensures Valid() && domainLastRequest == map[] && now == start
    {
      domainLastRequest := map[];
      now := start;
    }

    /** `enforce_rate_limit(domain)`; `wait` is the time slept. */
    method EnforceRateLimit(domain: string) returns (wait: int)
      requires Valid()
      modifies this
      ensures Valid()
      ensures 0 <= wait <= MinDelay
      ensures domain == "" ==> wait == 0 && domainLastRequest == old(domainLastRequest) && now == old(now)
      ensures domain != "" ==>
        wait == WaitTime(LastRequest(old(domainLastRequest), domain), old(now)) &&
        now == old(now) + wait &&
        domainLastRequest == old(domainLastRequest)[domain := now]
      ensures domain != "" && domain in old(domainLastRequest) ==> old(domainLastRequest)[domain] + MinDelay <= domainLastRequest[domain]
    {
      if domain == "" {
        return 0;
      }
      wait := WaitTime(LastRequest(domainLastRequest, domain), now);
      now := now + wait;
      domainLastRequest := domainLastRequest[domain := now];
    }

    /** `time.sleep(seconds)` on the abstract clock. */
    method Sleep(seconds: nat)
      requires Valid()
      modifies this
      ensures Valid()
      ensures now == old(now) + seconds && domainLastRequest == old(domainLastRequest)
    {
      now := now + seconds;
    }

    /** `Fetcher.discover_feeds(url)`. */
    method DiscoverFeeds(w: World, url: string) returns (feeds: seq<string>, status: Status)
      requires Valid()
      modifies this
      ensures Valid()
      ensures (feeds, status) == FeedCandidates(w, url)
      ensures var d := ExtractDomain(w.parse, url);
        (d == "" ==> now == old(now) && domainLastRequest == old(domainLastRequest)) &&
        (d != "" ==> now == old(now) + WaitTime(LastRequest(old(domainLastRequest), d), old(now)) &&
                     domainLastRequest == old(domainLastRequest)[d := now])
    {
      var _ := EnforceRateLimit(ExtractDomain(w.parse, url));
      var response := w.get(url);
      if response.Failed? || 400 <= response.status < 600 {
        return [], Unreachable;
      }
      var page := w.page(response.text);
      if page.None? {
        return [], Unreachable;
      }
      var parsed := ParseCandidates(w, url, page.value);
      if parsed.None? {
        return [], Unreachable;
      }
      feeds := Cap(parsed.value.0);
      if feeds != [] {
        status := Success;
      } else if parsed.value.1 {
        status := HasBlogIndicators;
      } else {
        status := NoBlogIndicators;
      }
    }

    /** `Fetcher.fetch_feed(feed_url)`, the loop over the first `maxPosts` entries. */
    method FetchFeed(w: World, maxPosts: nat, feedUrl: string) returns (posts: seq<Post>)
      requires Valid()
      modifies this
      ensures Valid()
      ensures posts == FeedPosts(w, maxPosts, feedUrl)
      ensures var d := ExtractDomain(w.parse, feedUrl);
        (d == "" ==> now == old(now) && domainLastRequest == old(domainLastRequest)) &&
        (d != "" ==> now == old(now) + WaitTime(LastRequest(old(domainLastRequest), d), old(now)) &&
                     domainLastRequest == old(domainLastRequest)[d := now])
    {
      var _ := EnforceRateLimit(ExtractDomain(w.parse, feedUrl));
      var response := w.get(feedUrl);
      if response.Failed? || response.status != 200 {
        return [];
      }
      var feed := w.feed(response.text);
      if feed.None? || feed.value.entries == [] {
        return [];
      }
      var parts := w.parse(feedUrl);
      if parts.None? {
        return [];
      }
      var blogName := feed.value.title.GetOr(parts.value.netloc);
      posts := ReadEntries(w, Take(feed.value.entries, maxPosts), blogName, feedUrl);
    }
  }
}
