// The records the crawler keeps and checkpoints: posts, blogs, provenance and
// the discovery state.

module Models {
  import opened Wrappers

  /** A blog post as stored with a discovered blog. */
  datatype BlogPost = BlogPost(
    title: string,
    link: string,
    published: Option<string>,
    summary: string,
    fullContent: string,
    rawHtmlContent: string)

  /** Where a blog was found: the blog, its name and the post that linked it. */
  datatype DiscoveredFrom = DiscoveredFrom(
    sourceBlog: string,
    sourceBlogName: Option<string>,
    postLink: Option<string>)

  /** A discovered blog. `discovered_at` is a wall-clock reading and is not kept. */
  datatype BlogInfo = BlogInfo(
    url: string,
    name: string,
    feedUrl: Option<string>,
    latestPost: Option<BlogPost>,
    discoveredFrom: Option<DiscoveredFrom>,
    depth: int)

  /** The source dictionary that travels with a queued blog: the blog and post
      that linked it, and (once it is queued by a crawl) the depth of that blog. */
  datatype SourceInfo = SourceInfo(
    sourceBlog: string,
    sourceBlogName: string,
    sourcePostTitle: string,
    sourcePostLink: string,
    parentDepth: Option<int>)

  /** One entry of the frontier: a blog URL and its source, `None` for seeds. */
  datatype QueueItem = QueueItem(url: string, source: Option<SourceInfo>)

  /** A post dictionary as `fetch_feed` builds it. */
  datatype Post = Post(
    title: string,
    link: string,
    published: Option<string>,
    publishedTimestamp: int,
    summary: string,
    fullContent: string,
    rawHtmlContent: string,
    blogName: string,
    feedUrl: string)

  /** The crawler state: one record per discovered domain (a map, so at most
      one per domain), the four domain sets, and the frontier in order. The
      checkpoint timestamp is a wall-clock reading and is not kept. */
  datatype DiscoveryState = DiscoveryState(
    discoveredBlogs: map<string, BlogInfo>,
    processedDomains: set<string>,
    failedDomains: set<string>,
    failedBaseDomains: set<string>,
    queuedDomains: set<string>,
    blogsToProcess: seq<QueueItem>)

  /** A fresh state, as a new `DiscoveryState()` starts. */
  const FreshState := DiscoveryState(map[], {}, {}, {}, {}, [])

  /** `BlogPost(...)` built from the post a crawl keeps. */
  function ToBlogPost(p: Post): BlogPost {
    BlogPost(p.title, p.link, p.published, p.summary, p.fullContent, p.rawHtmlContent)
  }

  /** `DiscoveredFrom` validated from the source dictionary as the package's
      crawl builds it: the dictionary carries `source_post_link`, the record's
      field is `post_link`, so validation ignores the key and the link is lost. */
  function DiscoveredFromAsWritten(src: SourceInfo): (d: DiscoveredFrom)
    ensures d.sourceBlog == src.sourceBlog
    ensures d.postLink.None?
  {
    DiscoveredFrom(src.sourceBlog, Some(src.sourceBlogName), None)
  }

  /** The provenance of a blog found through a post that has a link does not
      record that link. */
  lemma AsWrittenLosesPostLink(src: SourceInfo)
    requires src.sourcePostLink != ""
    ensures DiscoveredFromAsWritten(src).postLink != Some(src.sourcePostLink)
  {
  }

  /** `DiscoveredFrom` with the source post link carried into `post_link`. */
  function DiscoveredFromSource(src: SourceInfo): (d: DiscoveredFrom)
    ensures d.sourceBlog == src.sourceBlog
    ensures d.sourceBlogName == Some(src.sourceBlogName)
    ensures d.postLink == Some(src.sourcePostLink)
  {
    DiscoveredFrom(src.sourceBlog, Some(src.sourceBlogName), Some(src.sourcePostLink))
  }
}
