// The single-file crawler `discover.py`: one class holds every set, map and
// queue of the crawl as its own fields, with its own copies of the robots
// cache, the rate limiter, feed discovery, feed reading, the crawl of one
// blog and the discovery loop. Each method is proved to compute the same
// functions as the package's class, so the two agree step for step. Those
// functions build provenance with the corrected `DiscoveredFromSource`, which
// keeps the post link as this crawler's dictionary does; the package as
// written drops it (`Models.DiscoveredFromAsWritten`). The other differences
// are the posts-per-feed bound (its own field here), the checkpoint rebuild
// rule (`RestoreMonolith`) and the results sort.

module Monolith {
  import opened Wrappers
  import opened Strings
  import opened Web
  import opened Settings
  import opened DomainUtils
  import opened Validation
  import opened LinkParser
  import opened Models
  import opened Network
  import opened Scheduler
  import opened Crawl
  import opened Discovery
  import opened Results

  /** `RecursiveBlogDiscovery` of `discover.py`. */
  class RecursiveBlogDiscovery {
    const w: World
    const cfg: Config
    const maxBlogs: int
    /** The entries read per feed: this crawler reads its own setting. */
    const maxPostsToCheck: nat
    const checkpointInterval: int
    const strategy: Strategy
    var discoveredBlogs: map<string, BlogInfo>
    var blogsToProcess: seq<QueueItem>
    var queuedDomains: set<string>
    var processedDomains: set<string>
    var failedDomains: set<string>
    var failedBaseDomains: set<string>
    var robotsCache: map<string, Rules>
    var domainLastRequest: map<string, int>
    /** The abstract clock. */
    var now: int
    /** Every state written to the checkpoint file, in order. */
    var checkpoints: seq<DiscoveryState>

    /** No domain was last requested in the future. */
    ghost predicate Valid()
      reads this
    {
      forall d :: d in domainLastRequest ==> domainLastRequest[d] <= now
    }

    /** The crawl state the fields hold. */
    function State(): DiscoveryState
      reads this
    {
      DiscoveryState(discoveredBlogs, processedDomains, failedDomains, failedBaseDomains, queuedDomains, blogsToProcess)
    }

    /** `__init__`: an unknown strategy name falls back to mixed, the state
        starts empty and is then loaded from `checkpoint` (None when the file
        is missing or unreadable); the robots cache and the request times
        start empty. */
    constructor (w: World, cfg: Config, maxBlogs: int, maxPostsToCheck: nat, queueStrategy: string,
                 checkpoint: Option<DiscoveryState>, clock: int)
      ensures Valid()
      ensures this.w == w && this.cfg == cfg && this.maxBlogs == maxBlogs && this.maxPostsToCheck == maxPostsToCheck
      ensures checkpointInterval == cfg.checkpointInterval && strategy == ParseStrategy(queueStrategy)
      ensures robotsCache == map[] && domainLastRequest == map[] && now == clock && checkpoints == []
      ensures State() == (if checkpoint.Some? then RestoreMonolith(w, checkpoint.value) else FreshState)
    {
      this.w := w;
      this.cfg := cfg;
      this.maxBlogs := maxBlogs;
      this.maxPostsToCheck := maxPostsToCheck;
      checkpointInterval := cfg.checkpointInterval;
      strategy := ParseStrategy(queueStrategy);
      discoveredBlogs := map[];
      blogsToProcess := [];
      queuedDomains := {};
      processedDomains := {};
      failedDomains := {};
      failedBaseDomains := {};
      robotsCache := map[];
      domainLastRequest := map[];
      now := clock;
      checkpoints := [];
      new;
      var _ := LoadCheckpoint(checkpoint);
    }

    /** `save_checkpoint()`. */
    method SaveCheckpoint()
      modifies this
      ensures State() == old(State()) && robotsCache == old(robotsCache)
      ensures domainLastRequest == old(domainLastRequest) && now == old(now)
      ensures checkpoints == old(checkpoints) + [old(State())]
    {
      checkpoints := checkpoints + [State()];
    }

    /** `load_checkpoint()`: a readable file replaces the state, and an empty
        saved `queued_domains` is rebuilt from the queue; the result says
        whether any blog was restored. */
    method LoadCheckpoint(checkpoint: Option<DiscoveryState>) returns (resumed: bool)
      modifies this
      ensures checkpoint.None? ==> !resumed && State() == old(State())
      ensures checkpoint.Some? ==>
        State() == RestoreMonolith(w, checkpoint.value) && (resumed <==> checkpoint.value.discoveredBlogs != map[])
      ensures robotsCache == old(robotsCache) && domainLastRequest == old(domainLastRequest) && now == old(now)
      ensures checkpoints == old(checkpoints)
    {
      if checkpoint.None? {
        return false;
      }
      var saved := checkpoint.value;
      discoveredBlogs := saved.discoveredBlogs;
      blogsToProcess := saved.blogsToProcess;
      queuedDomains := saved.queuedDomains;
      if queuedDomains == {} {
        var queue := blogsToProcess;
        QueueDomainsComprehension(w, queue);
        queuedDomains := set i | 0 <= i < |queue| && ItemDomain(w, queue[i]) != "" :: ItemDomain(w, queue[i]);
      }
      processedDomains := saved.processedDomains;
      failedDomains := saved.failedDomains;
      failedBaseDomains := saved.failedBaseDomains;
      resumed := discoveredBlogs != map[];
    }

    /** `is_allowed_by_robots(url)`: the cache is filled on the first query
        for a domain. */
    method IsAllowedByRobots(url: string) returns (allowed: bool)
      modifies this
      ensures (allowed, robotsCache) == RobotsLookup(w, old(robotsCache), url)
      ensures State() == old(State()) && domainLastRequest == old(domainLastRequest) && now == old(now)
      ensures checkpoints == old(checkpoints)
    {
      var domain := ExtractDomain(w.parse, url);
      if domain == "" {
        return true;
      }
      var rules: Rules;
      if domain in robotsCache {
        rules := robotsCache[domain];
      } else {
        rules := FetchRules(w, RobotsUrl(domain));
        robotsCache := robotsCache[domain := rules];
      }
      assert robotsCache == old(robotsCache)[domain := rules];
      allowed := Allows(w, rules, url);
    }

    /** `enforce_rate_limit(domain)`; `wait` is the time slept. */
    method EnforceRateLimit(domain: string) returns (wait: int)
      requires Valid()
      modifies this
      ensures Valid()
      ensures 0 <= wait <= MinDelay
      ensures domain == "" ==> wait == 0 && domainLastRequest == old(domainLastRequest) && now == old(now)
      ensures domain != "" ==>
        wait == WaitTime(LastRequest(old(domainLastRequest), domain), old(now)) &&
        now == old(now) + wait &&
        domainLastRequest == old(domainLastRequest)[domain := now]
      ensures domain != "" && domain in old(domainLastRequest) ==> old(domainLastRequest)[domain] + MinDelay <= domainLastRequest[domain]
      ensures State() == old(State()) && robotsCache == old(robotsCache) && checkpoints == old(checkpoints)
    {
      if domain == "" {
        return 0;
      }
      wait := WaitTime(LastRequest(domainLastRequest, domain), now);
      now := now + wait;
      domainLastRequest := domainLastRequest[domain := now];
    }

    /** `time.sleep(seconds)` on the abstract clock. */
    method Sleep(seconds: nat)
      requires Valid()
      modifies this
      ensures Valid()
      ensures now == old(now) + seconds && domainLastRequest == old(domainLastRequest)
      ensures State() == old(State()) && robotsCache == old(robotsCache) && checkpoints == old(checkpoints)
    {
      now := now + seconds;
    }

    /** `add_to_queue(blog_url, source_info, new_depth)` with the draw `d`. */
    method AddToQueue(url: string, source: Option<SourceInfo>, newDepth: int, d: Draw)
      modifies this
      ensures State() == old(State()).(blogsToProcess := Enqueue(old(blogsToProcess), strategy, QueueItem(url, source), newDepth, d))
      ensures robotsCache == old(robotsCache) && domainLastRequest == old(domainLastRequest) && now == old(now)
      ensures checkpoints == old(checkpoints)
    {
      var item := QueueItem(url, source);
      var q := blogsToProcess;
      InsertEnds(q, item);
      var queue;
      match strategy {
        case BreadthFirst =>
          queue := q + [item];
        case DepthFirst =>
          queue := [item] + q;
        case RandomOrder =>
          if |q| == 0 {
            queue := q + [item];
          } else {
            var pos := RandInt(|q|, d.raw);
            queue := q[..pos] + [item] + q[pos..];
          }
        case Mixed =>
          if newDepth > 0 && d.coin && |q| > 0 {
            var pos := RandInt(Max(1, |q| / 2), d.raw);
            queue := q[..pos] + [item] + q[pos..];
          } else {
            queue := q + [item];
          }
      }
      blogsToProcess := queue;
    }

    /** `discover_feeds(url)`: rate limit, fetch and parse the root page,
        then assemble the candidates stage by stage. */
    method DiscoverFeeds(url: string) returns (feeds: seq<string>, status: Status)
      requires Valid()
      modifies this
      ensures Valid()
      ensures (feeds, status) == FeedCandidates(w, url)
      ensures var d := ExtractDomain(w.parse, url);
        (d == "" ==> now == old(now) && domainLastRequest == old(domainLastRequest)) &&
        (d != "" ==> now == old(now) + WaitTime(LastRequest(old(domainLastRequest), d), old(now)) &&
                     domainLastRequest == old(domainLastRequest)[d := now])
      ensures State() == old(State()) && robotsCache == old(robotsCache) && checkpoints == old(checkpoints)
    {
      var _ := EnforceRateLimit(ExtractDomain(w.parse, url));
      var response := w.get(url);
      if response.Failed? || 400 <= response.status < 600 {
        return [], Unreachable;
      }
      var page := w.page(response.text);
      if page.None? {
        return [], Unreachable;
      }
      var parts := w.parse(url);
      if parts.None? {
        return [], Unreachable;
      }
      var platformPaths := PlatformPaths(Lower(parts.value.netloc), page.value);
      var platform := JoinAll(w, url, platformPaths);
      var links := LinkTagFeeds(w, url, page.value.feedLinkHrefs);
      if platform.None? || links.None? {
        return [], Unreachable;
      }
      var sitemap := CheckSitemap(w, url);
      var nav := NavFeeds(w, url, page.value.navAnchors);
      if nav.None? {
        return [], Unreachable;
      }
      var all := AppendCommonFeeds(w, url, platform.value + links.value + sitemap + nav.value.0);
      if all.None? {
        return [], Unreachable;
      }
      var indicators := platformPaths != [] || HasNonEmpty(page.value.feedLinkHrefs) || sitemap != [] || nav.value.1;
      feeds := Cap(all.value);
      if feeds != [] {
        status := Success;
      } else if indicators {
        status := HasBlogIndicators;
      } else {
        status := NoBlogIndicators;
      }
    }

    /** `fetch_feed(feed_url)`: at most `maxPostsToCheck` entries are read. */
    method FetchFeed(feedUrl: string) returns (posts: seq<Post>)
      requires Valid()
      modifies this
      ensures Valid()
      ensures posts == FeedPosts(w, maxPostsToCheck, feedUrl)
      ensures var d := ExtractDomain(w.parse, feedUrl);
        (d == "" ==> now == old(now) && domainLastRequest == old(domainLastRequest)) &&
        (d != "" ==> now == old(now) + WaitTime(LastRequest(old(domainLastRequest), d), old(now)) &&
                     domainLastRequest == old(domainLastRequest)[d := now])
      ensures State() == old(State()) && robotsCache == old(robotsCache) && checkpoints == old(checkpoints)
    {
      var _ := EnforceRateLimit(ExtractDomain(w.parse, feedUrl));
      var response := w.get(feedUrl);
      if response.Failed? || response.status != 200 {
        return [];
      }
      var feed := w.feed(response.text);
      if feed.None? || feed.value.entries == [] {
        return [];
      }
      var parts := w.parse(feedUrl);
      if parts.None? {
        return [];
      }
      var blogName := feed.value.title.GetOr(parts.value.netloc);
      posts := ReadEntries(w, Take(feed.value.entries, maxPostsToCheck), blogName, feedUrl);
    }

    /** The gathering loops of `crawl_blog`: every blog link of every post,
        recorded with the first post that links it. */
    method GatherLinks(blogUrl: string, blogName: string, posts: seq<Post>) returns (found: Found)
      ensures found == Gather(w, cfg, blogUrl, blogName, posts, NoFound)
    {
      found := NoFound;
      var i := 0;
      while i < |posts|
        invariant 0 <= i <= |posts|
        invariant Gather(w, cfg, blogUrl, blogName, posts[i..], found) == Gather(w, cfg, blogUrl, blogName, posts, NoFound)
      {
        var post := posts[i];
        var links := ExtractBlogLinks(w, cfg, post.rawHtmlContent, post.link);
        var src := PostSource(blogUrl, blogName, post);
        ghost var before := found;
        var j := 0;
        while j < |links|
          invariant 0 <= j <= |links|
          invariant AddLinks(found, links[j..], src) == AddLinks(before, links, src)
        {
          if links[j] !in found.sources {
            found := Found(found.order + [links[j]], found.sources[links[j] := src]);
          }
          assert links[j..][1..] == links[j + 1..];
          j := j + 1;
        }
        assert links[j..] == [];
        assert posts[i..][1..] == posts[i + 1..];
        i := i + 1;
      }
      assert posts[i..] == [];
    }

    /** The enqueue loop of `crawl_blog`: each gathered link whose domain is
        non-empty, unprocessed and not queued is queued by the strategy, with
        `parent_depth` set. */
    method EnqueueChildren(links: seq<string>, sources: map<string, SourceInfo>, depth: int, rng: nat -> Draw)
      requires forall x :: x in links ==> x in sources
      modifies this
      ensures State() == EnqueueAll(w, strategy, old(State()), links, sources, depth, rng, 0)
      ensures robotsCache == old(robotsCache) && domainLastRequest == old(domainLastRequest) && now == old(now)
      ensures checkpoints == old(checkpoints)
    {
      var k := 0;
      while k < |links|
        invariant 0 <= k <= |links|
        invariant EnqueueAll(w, strategy, State(), links[k..], sources, depth, rng, k) ==
          EnqueueAll(w, strategy, old(State()), links, sources, depth, rng, 0)
        invariant robotsCache == old(robotsCache) && domainLastRequest == old(domainLastRequest) && now == old(now)
        invariant checkpoints == old(checkpoints)
      {
        var link := links[k];
        var newDomain := ExtractDomain(w.parse, link);
        if newDomain != "" && newDomain !in processedDomains && newDomain !in queuedDomains {
          AddToQueue(link, Some(ChildSource(sources[link], depth)), depth + 1, rng(k));
          queuedDomains := queuedDomains + {newDomain};
        }
        assert links[k..][1..] == links[k + 1..];
        k := k + 1;
      }
      assert links[k..] == [];
    }

    /** `crawl_blog(blog_url, source_info)`: the attempt number is only
        logged. */
    method CrawlBlog(url: string, source: Option<SourceInfo>, rng: nat -> Draw) returns (success: bool)
      requires Valid()
      modifies this
      ensures Valid()
      ensures var o := Crawl.Crawl(w, cfg, strategy, maxPostsToCheck, old(State()), old(robotsCache), url, source, rng);
        success == o.success && State() == o.state && robotsCache == o.robots
      ensures checkpoints == old(checkpoints)
    {
      var domain := ExtractDomain(w.parse, url);
      if domain == "" {
        return false;
      }
      var base := BaseDomain(domain);
      if base in failedBaseDomains {
        processedDomains := processedDomains + {domain};
        return false;
      }
      if domain in processedDomains {
        return false;
      }
      processedDomains := processedDomains + {domain};
      var allowed := IsAllowedByRobots(url);
      if !allowed {
        return false;
      }
      success := ProbeSite(url, domain, source, rng);
    }

    /** The part of `crawl_blog` after the robots check: discover the feeds
        and apply the blacklist rules of the status. */
    method ProbeSite(url: string, domain: string, source: Option<SourceInfo>, rng: nat -> Draw) returns (success: bool)
      requires Valid()
      modifies this
      ensures Valid()
      ensures Outcome(success, State(), robotsCache) ==
        Probe(w, cfg, strategy, maxPostsToCheck, old(State()), old(robotsCache), url, domain, source, rng)
      ensures checkpoints == old(checkpoints)
    {
      var base := BaseDomain(domain);
      var feeds, status := DiscoverFeeds(url);
      var isSubdomain := domain != base;
      if status == Unreachable {
        failedDomains := failedDomains + {domain};
        if !isSubdomain {
          failedBaseDomains := failedBaseDomains + {base};
        }
        return false;
      }
      if status == NoBlogIndicators {
        failedDomains := failedDomains + {domain};
        if !isSubdomain {
          failedBaseDomains := failedBaseDomains + {base};
        }
        return false;
      }
      if feeds == [] {
        if status == HasBlogIndicators {
          failedDomains := failedDomains + {domain};
        } else {
          failedDomains := failedDomains + {domain};
        }
        return false;
      }
      success := TryFeeds(url, domain, source, feeds, rng);
    }

    /** The success path of `crawl_blog`: the blog is recorded from its
        latest post, then the links of its posts are enqueued one level
        deeper. */
    method RecordHit(url: string, domain: string, source: Option<SourceInfo>, feed: string, posts: seq<Post>,
                     rng: nat -> Draw)
      requires posts != []
      modifies this
      ensures State() == Succeed(w, cfg, strategy, old(State()), url, domain, source, (feed, posts), rng)
      ensures robotsCache == old(robotsCache) && domainLastRequest == old(domainLastRequest) && now == old(now)
      ensures checkpoints == old(checkpoints)
    {
      var latest := LatestPost(posts);
      var blogDepth := 0;
      var discoverySource := None;
      if source.Some? {
        discoverySource := Some(DiscoveredFromSource(source.value));
        blogDepth := source.value.parentDepth.GetOr(0) + 1;
      }
      var record := BlogInfo(url, latest.blogName, Some(feed), Some(ToBlogPost(latest)), discoverySource, blogDepth);
      assert record == Record(url, source, feed, posts);
      discoveredBlogs := discoveredBlogs[domain := record];
      var found := GatherLinks(url, latest.blogName, posts);
      assert found == Harvest(w, cfg, url, posts);
      var currentDepth := if domain in discoveredBlogs then discoveredBlogs[domain].depth else 0;
      EnqueueChildren(found.order, found.sources, currentDepth, rng);
    }

    /** The feed loop of `crawl_blog`: the first candidate that yields posts
        is recorded and its links enqueued; later ones are not fetched. */
    method TryFeeds(url: string, domain: string, source: Option<SourceInfo>, feeds: seq<string>, rng: nat -> Draw)
      returns (success: bool)
      requires Valid()
      modifies this
      ensures Valid()
      ensures Outcome(success, State(), robotsCache) ==
        FeedLoop(w, cfg, strategy, maxPostsToCheck, old(State()), old(robotsCache), url, domain, source, feeds, rng)
      ensures checkpoints == old(checkpoints)
    {
      var i := 0;
      while i < |feeds|
        invariant 0 <= i <= |feeds|
        invariant Valid()
        invariant FirstWorkingFeed(w, maxPostsToCheck, feeds[i..]) == FirstWorkingFeed(w, maxPostsToCheck, feeds)
        invariant State() == old(State()) && robotsCache == old(robotsCache) && checkpoints == old(checkpoints)
      {
        var posts := FetchFeed(feeds[i]);
        if posts != [] {
          RecordHit(url, domain, source, feeds[i], posts, rng);
          assert FirstWorkingFeed(w, maxPostsToCheck, feeds) == Some((feeds[i], posts));
          return true;
        }
        assert feeds[i..][1..] == feeds[i + 1..];
        i := i + 1;
      }
      assert feeds[i..] == [];
      var base := BaseDomain(domain);
      failedDomains := failedDomains + {domain};
      if base in cfg.blacklistBaseDomainSites {
        failedBaseDomains := failedBaseDomains + {base};
      }
      return false;
    }

    /** The start of `run_discovery`: seeds whose domain is not processed are
        appended with no source, then `queued_domains` is rebuilt from the
        whole queue. */
    method SeedQueue(seeds: seq<string>)
      modifies this
      ensures State() == Start(w, old(State()), seeds)
      ensures robotsCache == old(robotsCache) && domainLastRequest == old(domainLastRequest) && now == old(now)
      ensures checkpoints == old(checkpoints)
    {
      var i := 0;
      while i < |seeds|
        invariant 0 <= i <= |seeds|
        invariant blogsToProcess + SeedItems(w, processedDomains, seeds[i..]) ==
          old(blogsToProcess) + SeedItems(w, processedDomains, seeds)
        invariant State() == old(State()).(blogsToProcess := blogsToProcess)
        invariant robotsCache == old(robotsCache) && domainLastRequest == old(domainLastRequest) && now == old(now)
        invariant checkpoints == old(checkpoints)
      {
        var domain := ExtractDomain(w.parse, seeds[i]);
        SeedItemsStep(w, processedDomains, seeds, i);
        var item := if domain !in processedDomains then [QueueItem(seeds[i], None)] else [];
        AppendAssoc(blogsToProcess, item, SeedItems(w, processedDomains, seeds[i + 1..]));
        if domain !in processedDomains {
          blogsToProcess := blogsToProcess + [QueueItem(seeds[i], None)];
        }
        i := i + 1;
      }
      assert seeds[i..] == [];
      var queue := blogsToProcess;
      assert queue == old(blogsToProcess) + SeedItems(w, old(processedDomains), seeds);
      QueueDomainsComprehension(w, queue);
      queuedDomains := set j | 0 <= j < |queue| && ItemDomain(w, queue[j]) != "" :: ItemDomain(w, queue[j]);
    }

    /** One iteration of the `run_discovery` loop: pop the front item,
        discard its domain from `queued_domains`, crawl it with `rng`, save a
        checkpoint when `checkpointInterval` successes have accumulated, and
        sleep a second. `saved` marks where this run's checkpoints begin. */
    method Iterate(sinceCheckpoint: int, attempts: nat, ghost successes: nat, ghost saved: nat, rng: nat -> Draw)
      returns (since: int, ghost succeeded: nat)
      requires Valid() && blogsToProcess != [] && saved <= |checkpoints|
      modifies this
      ensures Valid()
      ensures saved <= |checkpoints| && checkpoints[..saved] == old(checkpoints)[..saved]
      ensures Run(State(), robotsCache, since, checkpoints[saved..], attempts + 1, succeeded) ==
        Step(w, cfg, strategy, maxPostsToCheck, checkpointInterval,
             Run(old(State()), old(robotsCache), sinceCheckpoint, old(checkpoints)[saved..], attempts, successes), rng)
    {
      ghost var r := Run(State(), robotsCache, sinceCheckpoint, checkpoints[saved..], attempts, successes);
      var item := blogsToProcess[0];
      blogsToProcess := blogsToProcess[1..];
      var domain := ExtractDomain(w.parse, item.url);
      queuedDomains := queuedDomains - {domain};
      assert State() == Pop(w, r.state);
      var success := CrawlBlog(item.url, item.source, rng);
      ghost var o := Outcome(success, State(), robotsCache);
      StepIsAdvance(w, cfg, strategy, maxPostsToCheck, checkpointInterval, r, rng, o);
      since := sinceCheckpoint;
      succeeded := successes;
      if success {
        succeeded := successes + 1;
        since := since + 1;
        if since >= checkpointInterval {
          ghost var before := checkpoints;
          SaveCheckpoint();
          assert checkpoints[saved..] == before[saved..] + [o.state];
          since := 0;
        }
      }
      Sleep(1);
    }

    /** The `run_discovery` loop: while the queue is non-empty and fewer than
        `maxBlogs` blogs are recorded; the iteration with attempt count `n`
        draws from `rngs(n)`. */
    method Drain(rngs: nat -> nat -> Draw) returns (sinceCheckpoint: int, attempts: nat, ghost successes: nat)
      requires Valid()
      modifies this
      ensures Valid()
      ensures |old(checkpoints)| <= |checkpoints| && checkpoints[..|old(checkpoints)|] == old(checkpoints)
      ensures Run(State(), robotsCache, sinceCheckpoint, checkpoints[|old(checkpoints)|..], attempts, successes) ==
        Loop(w, cfg, strategy, maxPostsToCheck, maxBlogs, checkpointInterval, Run(old(State()), old(robotsCache), 0, [], 0, 0), rngs)
    {
      sinceCheckpoint := 0;
      attempts := 0;
      successes := 0;
      ghost var saved := |checkpoints|;
      ghost var start := Run(State(), robotsCache, 0, [], 0, 0);
      assert checkpoints[saved..] == [];
      while blogsToProcess != [] && |discoveredBlogs| < maxBlogs
        invariant Valid()
        invariant saved <= |checkpoints| && checkpoints[..saved] == old(checkpoints)
        invariant Loop(w, cfg, strategy, maxPostsToCheck, maxBlogs, checkpointInterval,
                       Run(State(), robotsCache, sinceCheckpoint, checkpoints[saved..], attempts, successes), rngs) ==
          Loop(w, cfg, strategy, maxPostsToCheck, maxBlogs, checkpointInterval, start, rngs)
        decreases Budget(State(), maxBlogs), |blogsToProcess|
      {
        ghost var r := Run(State(), robotsCache, sinceCheckpoint, checkpoints[saved..], attempts, successes);
        LoopUnfold(w, cfg, strategy, maxPostsToCheck, maxBlogs, checkpointInterval, r, rngs);
        StepProgress(w, cfg, strategy, maxPostsToCheck, maxBlogs, checkpointInterval, r, rngs(attempts));
        ghost var next := Step(w, cfg, strategy, maxPostsToCheck, checkpointInterval, r, rngs(attempts));
        sinceCheckpoint, successes := Iterate(sinceCheckpoint, attempts, successes, saved, rngs(attempts));
        attempts := attempts + 1;
        assert Run(State(), robotsCache, sinceCheckpoint, checkpoints[saved..], attempts, successes) == next;
      }
      ghost var e := Run(State(), robotsCache, sinceCheckpoint, checkpoints[saved..], attempts, successes);
      LoopUnfold(w, cfg, strategy, maxPostsToCheck, maxBlogs, checkpointInterval, e, rngs);
    }

    /** `run_discovery(seed_blogs)`: seed, loop, save a final checkpoint, and
        return `discovered_blogs`. */
    method RunDiscovery(seeds: seq<string>, rngs: nat -> nat -> Draw) returns (discovered: map<string, BlogInfo>)
      requires Valid()
      modifies this
      ensures Valid()
      ensures var r := Discovery.RunDiscovery(w, cfg, strategy, maxPostsToCheck, maxBlogs, checkpointInterval,
                                              old(State()), old(robotsCache), seeds, rngs);
        State() == r.state && robotsCache == r.robots && checkpoints == old(checkpoints) + r.saves &&
        discovered == r.state.discoveredBlogs
    {
      ghost var start := Run(Start(w, State(), seeds), robotsCache, 0, [], 0, 0);
      ghost var e := Loop(w, cfg, strategy, maxPostsToCheck, maxBlogs, checkpointInterval, start, rngs);
      assert Discovery.RunDiscovery(w, cfg, strategy, maxPostsToCheck, maxBlogs, checkpointInterval,
                                    State(), robotsCache, seeds, rngs) == e.(saves := e.saves + [e.state]);
      SeedQueue(seeds);
      ghost var saved := |checkpoints|;
      var since, attempts, successes := Drain(rngs);
      assert Run(State(), robotsCache, since, checkpoints[saved..], attempts, successes) == e;
      SplitAt(checkpoints, saved);
      SaveCheckpoint();
      discovered := discoveredBlogs;
    }

    /** `save_results()`: one entry per discovered blog, newest latest post
        first, with the totals. The file write is not modelled. */
    method SaveResults() returns (results: SavedResults)
      ensures results.totalBlogs == |results.blogs| == |discoveredBlogs| && results.targetBlogs == maxBlogs
      ensures SortedDesc(results.blogs)
      ensures forall e :: e in results.blogs ==> e.domain in discoveredBlogs && e.info == discoveredBlogs[e.domain]
      ensures forall d :: d in discoveredBlogs ==> ResultEntry(d, discoveredBlogs[d]) in results.blogs
    {
      var items := Entries(discoveredBlogs);
      var blogs := SortByPublished(items);
      SortByPublishedSpec(items);
      forall e | e in blogs
        ensures e in items
      {
        assert e in multiset(blogs);
      }
      forall d | d in discoveredBlogs
        ensures ResultEntry(d, discoveredBlogs[d]) in blogs
      {
        assert ResultEntry(d, discoveredBlogs[d]) in multiset(items);
      }
      assert |blogs| == |multiset(blogs)| == |multiset(items)| == |items|;
      results := SavedResults(|blogs|, maxBlogs, blogs);
    }
  }
}
