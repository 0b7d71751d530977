// The outside world the crawler talks to. HTTP, the HTML/XML/feed parsers,
// URL parsing and joining, and robots rule evaluation are foreign code; the
// model receives their results through one record of total functions, a fixed
// snapshot of the web. A library call that may raise returns an `Option`,
// `None` standing for the exception.

module Web {
  import opened Wrappers

  /** The pieces of `urllib.parse.urlparse(u)` the crawler reads. */
  datatype Parts = Parts(scheme: string, netloc: string, path: string)

  /** `requests.get(u)`: a status code and the body, or an exception
      (timeout, connection error, anything else). */
  datatype Response = Response(status: int, text: string) | Failed

  /** An `<a href>` element: its raw `href` and its text. */
  datatype Anchor = Anchor(href: string, text: string)

  /** What BeautifulSoup finds in a root page: whether a generator `<meta>`
      mentions WordPress, the `href` of every RSS/Atom `<link>` (empty when the
      attribute is missing), and the anchors inside the navigation elements, in
      the order the searches yield them. */
  datatype Page = Page(wordpressGenerator: bool, feedLinkHrefs: seq<string>, navAnchors: seq<Anchor>)

  /** A feed entry date: its ISO-8601 text and its POSIX timestamp. */
  datatype Date = Date(iso: string, timestamp: int)

  /** A feedparser entry; `content` is `entry.content[0]['value']` when the
      entry has a non-empty `content` list. */
  datatype Entry = Entry(
    title: Option<string>,
    link: Option<string>,
    published: Option<Date>,
    updated: Option<Date>,
    content: Option<string>,
    summary: Option<string>)

  /** A parsed feed; an entry that raises while it is read is `None`. */
  datatype Feed = Feed(title: Option<string>, entries: seq<Option<Entry>>)

  /** The rules a `RobotFileParser` holds: allow everything, or the fetched text. */
  datatype Rules = AllowAll | Parsed(text: string)

  datatype World = World(
    parse: string -> Option<Parts>,            // urlparse
    join: (string, string) -> Option<string>,  // urljoin
    get: string -> Response,                   // requests.get
    page: string -> Option<Page>,              // BeautifulSoup over a root page
    locs: string -> Option<seq<string>>,       // the <loc> texts of a sitemap
    feed: string -> Option<Feed>,              // feedparser.parse
    anchors: string -> Option<seq<string>>,    // the <a href> values of post HTML
    text: string -> string,                    // get_text(separator=' ', strip=True)
    canFetch: (string, string) -> bool)        // can_fetch("*", u) over a parsed robots.txt
}
