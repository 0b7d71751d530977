// The package's crawler class: it holds the discovery state, the working
// queue, the robots validator and the fetcher, and runs the crawl of one
// blog and the discovery loop in place. Each method is proved to compute
// the functions of the Crawl and Discovery modules. Those record provenance
// with the corrected `DiscoveredFromSource`, which keeps the post link that
// `crawler/engine.py` loses under the key `source_post_link`.

module Engine {
  import opened Wrappers
  import opened Strings
  import opened Web
  import opened Settings
  import opened DomainUtils
  import opened Validation
  import opened LinkParser
  import opened Models
  import opened Network
  import opened Scheduler
  import opened Crawl
  import opened Discovery

  /** `RecursiveBlogDiscovery` of the package. */
  class RecursiveBlogDiscovery {
    const w: World
    const cfg: Config
    const maxBlogs: int
    /** Kept and logged only: the fetcher reads `cfg.maxPostsToCheck`. */
    const maxPostsToCheck: int
    const checkpointInterval: int
    const strategy: Strategy
    const validator: Validator
    const fetcher: Fetcher
    /** The persisted state; its `blogsToProcess` is the copy last saved or loaded. */
    var state: DiscoveryState
    /** The working deque. */
    var blogsToProcess: seq<QueueItem>
    /** Every state written to the checkpoint file, in order. */
    var checkpoints: seq<DiscoveryState>

    ghost predicate Valid()
      reads this, fetcher
    {
      fetcher.Valid()
    }

    /** The state with the working queue in place of the saved copy. */
    function Live(): DiscoveryState
      reads this
    {
      state.(blogsToProcess := blogsToProcess)
    }

    /** `__init__`: an unknown strategy name falls back to mixed, the state
        starts fresh and is then loaded from `checkpoint` (None when the
        file is missing or unreadable). */
    constructor (w: World, cfg: Config, maxBlogs: int, maxPostsToCheck: int, queueStrategy: string,
                 checkpoint: Option<DiscoveryState>, clock: int)
      ensures Valid() && fresh(validator) && fresh(fetcher)
      ensures this.w == w && this.cfg == cfg && this.maxBlogs == maxBlogs && this.maxPostsToCheck == maxPostsToCheck
      ensures checkpointInterval == cfg.checkpointInterval && strategy == ParseStrategy(queueStrategy)
      ensures validator.robotsCache == map[] && fetcher.domainLastRequest == map[] && fetcher.now == clock
      ensures checkpoints == []
      ensures Live() == (if checkpoint.Some? then Restore(w, checkpoint.value) else FreshState)
    {
      this.w := w;
      this.cfg := cfg;
      this.maxBlogs := maxBlogs;
      this.maxPostsToCheck := maxPostsToCheck;
      checkpointInterval := cfg.checkpointInterval;
      strategy := ParseStrategy(queueStrategy);
      validator := new Validator();
      fetcher := new Fetcher(clock);
      state := FreshState;
      blogsToProcess := [];
      checkpoints := [];
      new;
      var _ := LoadCheckpoint(checkpoint);
    }

    /** `save_checkpoint()`: the working queue is copied into the state, and
        the state is written. */
    method SaveCheckpoint()
      modifies this
      ensures state == old(Live()) && blogsToProcess == old(blogsToProcess)
      ensures checkpoints == old(checkpoints) + [old(Live())]
    {
      state := state.(blogsToProcess := blogsToProcess);
      checkpoints := checkpoints + [state];
    }

    /** `load_checkpoint()`: a readable file replaces the state and the
        working queue, and rebuilds an empty `queued_domains` from a
        non-empty queue; the result says whether any blog was restored. */
    method LoadCheckpoint(checkpoint: Option<DiscoveryState>) returns (resumed: bool)
      modifies this
      ensures checkpoint.None? ==> !resumed && state == old(state) && blogsToProcess == old(blogsToProcess)
      ensures checkpoint.Some? ==>
        Live() == Restore(w, checkpoint.value) && state.blogsToProcess == checkpoint.value.blogsToProcess &&
        (resumed <==> checkpoint.value.discoveredBlogs != map[])
      ensures checkpoints == old(checkpoints)
    {
      if checkpoint.None? {
        return false;
      }
      state := checkpoint.value;
      blogsToProcess := state.blogsToProcess;
      if state.queuedDomains == {} && blogsToProcess != [] {
        QueueDomainsComprehension(w, blogsToProcess);
        state := state.(queuedDomains :=
          set i | 0 <= i < |blogsToProcess| && ItemDomain(w, blogsToProcess[i]) != "" :: ItemDomain(w, blogsToProcess[i]));
      }
      resumed := state.discoveredBlogs != map[];
    }

    /** `add_to_queue(blog_url, source_info, new_depth)` with the draw `d`. */
    method AddToQueue(url: string, source: Option<SourceInfo>, newDepth: int, d: Draw)
      modifies this
      ensures blogsToProcess == Enqueue(old(blogsToProcess), strategy, QueueItem(url, source), newDepth, d)
      ensures state == old(state) && checkpoints == old(checkpoints)
    {
      var item := QueueItem(url, source);
      var q := blogsToProcess;
      InsertEnds(q, item);
      var queue;
      match strategy {
        case BreadthFirst =>
          queue := q + [item];
        case DepthFirst =>
          queue := [item] + q;
        case RandomOrder =>
          if |q| == 0 {
            queue := q + [item];
          } else {
            var pos := RandInt(|q|, d.raw);
            queue := q[..pos] + [item] + q[pos..];
          }
        case Mixed =>
          if newDepth > 0 && d.coin && |q| > 0 {
            var pos := RandInt(Max(1, |q| / 2), d.raw);
            queue := q[..pos] + [item] + q[pos..];
          } else {
            queue := q + [item];
          }
      }
      blogsToProcess := queue;
    }

    /** The gathering loops of `crawl_blog`: every blog link of every post,
        recorded with the first post that links it. */
    method GatherLinks(blogUrl: string, blogName: string, posts: seq<Post>) returns (found: Found)
      ensures found == Gather(w, cfg, blogUrl, blogName, posts, NoFound)
    {
      found := NoFound;
      var i := 0;
      while i < |posts|
        invariant 0 <= i <= |posts|
        invariant Gather(w, cfg, blogUrl, blogName, posts[i..], found) == Gather(w, cfg, blogUrl, blogName, posts, NoFound)
      {
        var post := posts[i];
        var links := ExtractBlogLinks(w, cfg, post.rawHtmlContent, post.link);
        var src := PostSource(blogUrl, blogName, post);
        ghost var before := found;
        var j := 0;
        while j < |links|
          invariant 0 <= j <= |links|
          invariant AddLinks(found, links[j..], src) == AddLinks(before, links, src)
        {
          if links[j] !in found.sources {
            found := Found(found.order + [links[j]], found.sources[links[j] := src]);
          }
          assert links[j..][1..] == links[j + 1..];
          j := j + 1;
        }
        assert links[j..] == [];
        assert posts[i..][1..] == posts[i + 1..];
        i := i + 1;
      }
      assert posts[i..] == [];
    }

    /** The enqueue loop of `crawl_blog`: each gathered link whose domain is
        non-empty, unprocessed and not queued goes into the queue by the
        strategy, with `parent_depth` set, and its domain into
        `queued_domains`. */
    method EnqueueChildren(links: seq<string>, sources: map<string, SourceInfo>, depth: int, rng: nat -> Draw)
      requires forall x :: x in links ==> x in sources
      modifies this
      ensures Live() == EnqueueAll(w, strategy, old(Live()), links, sources, depth, rng, 0)
      ensures state.blogsToProcess == old(state.blogsToProcess) && checkpoints == old(checkpoints)
    {
      var k := 0;
      while k < |links|
        invariant 0 <= k <= |links|
        invariant EnqueueAll(w, strategy, Live(), links[k..], sources, depth, rng, k) ==
          EnqueueAll(w, strategy, old(Live()), links, sources, depth, rng, 0)
        invariant state.blogsToProcess == old(state.blogsToProcess) && checkpoints == old(checkpoints)
      {
        var link := links[k];
        var newDomain := ExtractDomain(w.parse, link);
        if newDomain != "" && newDomain !in state.processedDomains && newDomain !in state.queuedDomains {
          AddToQueue(link, Some(ChildSource(sources[link], depth)), depth + 1, rng(k));
          state := state.(queuedDomains := state.queuedDomains + {newDomain});
        }
        assert links[k..][1..] == links[k + 1..];
        k := k + 1;
      }
      assert links[k..] == [];
    }

    /** `crawl_blog(blog_url, source_info)`: the attempt number is only
        logged. */
    method CrawlBlog(url: string, source: Option<SourceInfo>, rng: nat -> Draw) returns (success: bool)
      requires Valid()
      modifies this, validator, fetcher
      ensures Valid()
      ensures var o := Crawl.Crawl(w, cfg, strategy, cfg.maxPostsToCheck, old(Live()), old(validator.robotsCache), url, source, rng);
        success == o.success && Live() == o.state && validator.robotsCache == o.robots
      ensures state.blogsToProcess == old(state.blogsToProcess) && checkpoints == old(checkpoints)
    {
      var domain := ExtractDomain(w.parse, url);
      if domain == "" {
        return false;
      }
      var base := BaseDomain(domain);
      if base in state.failedBaseDomains {
        state := state.(processedDomains := state.processedDomains + {domain});
        return false;
      }
      if domain in state.processedDomains {
        return false;
      }
      state := state.(processedDomains := state.processedDomains + {domain});
      var allowed := validator.IsAllowedByRobots(w, url);
      if !allowed {
        return false;
      }
      success := ProbeSite(url, domain, source, rng);
    }

    /** The part of `crawl_blog` after the robots check: discover the feeds
        and apply the blacklist rules of the status. */
    method ProbeSite(url: string, domain: string, source: Option<SourceInfo>, rng: nat -> Draw) returns (success: bool)
      requires Valid()
      modifies this, fetcher
      ensures Valid()
      ensures Outcome(success, Live(), validator.robotsCache) ==
        Probe(w, cfg, strategy, cfg.maxPostsToCheck, old(Live()), validator.robotsCache, url, domain, source, rng)
      ensures state.blogsToProcess == old(state.blogsToProcess) && checkpoints == old(checkpoints)
    {
      var base := BaseDomain(domain);
      var feeds, status := fetcher.DiscoverFeeds(w, url);
      var isSubdomain := domain != base;
      if status == Unreachable {
        state := state.(failedDomains := state.failedDomains + {domain});
        if !isSubdomain {
          state := state.(failedBaseDomains := state.failedBaseDomains + {base});
        }
        return false;
      }
      if status == NoBlogIndicators {
        state := state.(failedDomains := state.failedDomains + {domain});
        if !isSubdomain {
          state := state.(failedBaseDomains := state.failedBaseDomains + {base});
        }
        return false;
      }
      if feeds == [] {
        if status == HasBlogIndicators {
          state := state.(failedDomains := state.failedDomains + {domain});
        } else {
          state := state.(failedDomains := state.failedDomains + {domain});
        }
        return false;
      }
      success := TryFeeds(url, domain, source, feeds, rng);
    }

    /** The success path of `crawl_blog`: the blog is recorded from its
        latest post, then the links of its posts are enqueued one level
        deeper. */
    method RecordHit(url: string, domain: string, source: Option<SourceInfo>, feed: string, posts: seq<Post>,
                     rng: nat -> Draw)
      requires posts != []
      modifies this
      ensures Live() == Succeed(w, cfg, strategy, old(Live()), url, domain, source, (feed, posts), rng)
      ensures state.blogsToProcess == old(state.blogsToProcess) && checkpoints == old(checkpoints)
    {
      var latest := LatestPost(posts);
      var blogDepth := 0;
      var discoverySource := None;
      if source.Some? {
        discoverySource := Some(DiscoveredFromSource(source.value));
        blogDepth := source.value.parentDepth.GetOr(0) + 1;
      }
      var record := BlogInfo(url, latest.blogName, Some(feed), Some(ToBlogPost(latest)), discoverySource, blogDepth);
      assert record == Record(url, source, feed, posts);
      state := state.(discoveredBlogs := state.discoveredBlogs[domain := record]);
      var found := GatherLinks(url, latest.blogName, posts);
      assert found == Harvest(w, cfg, url, posts);
      var currentDepth := if domain in state.discoveredBlogs then state.discoveredBlogs[domain].depth else 0;
      EnqueueChildren(found.order, found.sources, currentDepth, rng);
    }

    /** The feed loop of `crawl_blog`: fetch the candidates in order; the
        first that yields posts is recorded and its links enqueued, and later
        ones are not fetched. */
    method TryFeeds(url: string, domain: string, source: Option<SourceInfo>, feeds: seq<string>, rng: nat -> Draw)
      returns (success: bool)
      requires Valid()
      modifies this, fetcher
      ensures Valid()
      ensures Outcome(success, Live(), validator.robotsCache) ==
        FeedLoop(w, cfg, strategy, cfg.maxPostsToCheck, old(Live()), validator.robotsCache, url, domain, source, feeds, rng)
      ensures state.blogsToProcess == old(state.blogsToProcess) && checkpoints == old(checkpoints)
    {
      var i := 0;
      while i < |feeds|
        invariant 0 <= i <= |feeds|
        invariant Valid()
        invariant FirstWorkingFeed(w, cfg.maxPostsToCheck, feeds[i..]) == FirstWorkingFeed(w, cfg.maxPostsToCheck, feeds)
        invariant state == old(state) && blogsToProcess == old(blogsToProcess) && checkpoints == old(checkpoints)
      {
        var posts := fetcher.FetchFeed(w, cfg.maxPostsToCheck, feeds[i]);
        if posts != [] {
          RecordHit(url, domain, source, feeds[i], posts, rng);
          assert FirstWorkingFeed(w, cfg.maxPostsToCheck, feeds) == Some((feeds[i], posts));
          return true;
        }
        assert feeds[i..][1..] == feeds[i + 1..];
        i := i + 1;
      }
      assert feeds[i..] == [];
      var base := BaseDomain(domain);
      state := state.(failedDomains := state.failedDomains + {domain});
      if base in cfg.blacklistBaseDomainSites {
        state := state.(failedBaseDomains := state.failedBaseDomains + {base});
      }
      return false;
    }

    /** The start of `run_discovery`: seeds whose domain is not processed are
        appended with no source, then `queued_domains` is rebuilt from the
        whole queue. */
    method SeedQueue(seeds: seq<string>)
      modifies this
      ensures Live() == Start(w, old(Live()), seeds)
      ensures state.blogsToProcess == old(state.blogsToProcess) && checkpoints == old(checkpoints)
    {
      var i := 0;
      while i < |seeds|
        invariant 0 <= i <= |seeds|
        invariant blogsToProcess + SeedItems(w, state.processedDomains, seeds[i..]) ==
          old(blogsToProcess) + SeedItems(w, state.processedDomains, seeds)
        invariant state == old(state) && checkpoints == old(checkpoints)
      {
        var domain := ExtractDomain(w.parse, seeds[i]);
        SeedItemsStep(w, state.processedDomains, seeds, i);
        var item := if domain !in state.processedDomains then [QueueItem(seeds[i], None)] else [];
        AppendAssoc(blogsToProcess, item, SeedItems(w, state.processedDomains, seeds[i + 1..]));
        if domain !in state.processedDomains {
          blogsToProcess := blogsToProcess + [QueueItem(seeds[i], None)];
        }
        i := i + 1;
      }
      assert seeds[i..] == [];
      var queue := blogsToProcess;
      assert queue == old(blogsToProcess) + SeedItems(w, old(state).processedDomains, seeds);
      QueueDomainsComprehension(w, queue);
      state := state.(queuedDomains := set j | 0 <= j < |queue| && ItemDomain(w, queue[j]) != "" :: ItemDomain(w, queue[j]));
    }

    /** One iteration of the `run_discovery` loop: pop the front item,
        discard its domain from `queued_domains`, crawl it with `rng`, save a
        checkpoint when `checkpointInterval` successes have accumulated, and
        sleep a second. The loop counters are passed in and out; `saved`
        marks where this run's checkpoints begin. */
    method Iterate(sinceCheckpoint: int, attempts: nat, ghost successes: nat, ghost saved: nat, rng: nat -> Draw)
      returns (since: int, ghost succeeded: nat)
      requires Valid() && blogsToProcess != [] && saved <= |checkpoints|
      modifies this, validator, fetcher
      ensures Valid()
      ensures saved <= |checkpoints| && checkpoints[..saved] == old(checkpoints)[..saved]
      ensures Run(Live(), validator.robotsCache, since, checkpoints[saved..], attempts + 1, succeeded) ==
        Step(w, cfg, strategy, cfg.maxPostsToCheck, checkpointInterval,
             Run(old(Live()), old(validator.robotsCache), sinceCheckpoint, old(checkpoints)[saved..], attempts, successes), rng)
    {
      ghost var r := Run(Live(), validator.robotsCache, sinceCheckpoint, checkpoints[saved..], attempts, successes);
      var item := blogsToProcess[0];
      blogsToProcess := blogsToProcess[1..];
      var domain := ExtractDomain(w.parse, item.url);
      state := state.(queuedDomains := state.queuedDomains - {domain});
      assert Live() == Pop(w, r.state);
      var success := CrawlBlog(item.url, item.source, rng);
      ghost var o := Outcome(success, Live(), validator.robotsCache);
      StepIsAdvance(w, cfg, strategy, cfg.maxPostsToCheck, checkpointInterval, r, rng, o);
      since := sinceCheckpoint;
      succeeded := successes;
      if success {
        succeeded := successes + 1;
        since := since + 1;
        if since >= checkpointInterval {
          ghost var before := checkpoints;
          SaveCheckpoint();
          assert checkpoints[saved..] == before[saved..] + [o.state];
          since := 0;
        }
      }
      fetcher.Sleep(1);
    }

    /** The `run_discovery` loop: while the queue is non-empty and fewer than
        `maxBlogs` blogs are recorded; the iteration with attempt count `n`
        draws from `rngs(n)`. It computes `Loop` from the run it starts
        with, whose new checkpoints are appended to `checkpoints`. */
    method Drain(rngs: nat -> nat -> Draw) returns (sinceCheckpoint: int, attempts: nat, ghost successes: nat)
      requires Valid()
      modifies this, validator, fetcher
      ensures Valid()
      ensures |old(checkpoints)| <= |checkpoints| && checkpoints[..|old(checkpoints)|] == old(checkpoints)
      ensures Run(Live(), validator.robotsCache, sinceCheckpoint, checkpoints[|old(checkpoints)|..], attempts, successes) ==
        Loop(w, cfg, strategy, cfg.maxPostsToCheck, maxBlogs, checkpointInterval,
             Run(old(Live()), old(validator.robotsCache), 0, [], 0, 0), rngs)
    {
      var maxPosts := cfg.maxPostsToCheck;
      sinceCheckpoint := 0;
      attempts := 0;
      successes := 0;
      ghost var saved := |checkpoints|;
      ghost var start := Run(Live(), validator.robotsCache, 0, [], 0, 0);
      assert checkpoints[saved..] == [];
      while blogsToProcess != [] && |state.discoveredBlogs| < maxBlogs
        invariant Valid()
        invariant saved <= |checkpoints| && checkpoints[..saved] == old(checkpoints)
        invariant Loop(w, cfg, strategy, maxPosts, maxBlogs, checkpointInterval,
                       Run(Live(), validator.robotsCache, sinceCheckpoint, checkpoints[saved..], attempts, successes), rngs) ==
          Loop(w, cfg, strategy, maxPosts, maxBlogs, checkpointInterval, start, rngs)
        decreases Budget(Live(), maxBlogs), |blogsToProcess|
      {
        ghost var r := Run(Live(), validator.robotsCache, sinceCheckpoint, checkpoints[saved..], attempts, successes);
        LoopUnfold(w, cfg, strategy, maxPosts, maxBlogs, checkpointInterval, r, rngs);
        StepProgress(w, cfg, strategy, maxPosts, maxBlogs, checkpointInterval, r, rngs(attempts));
        ghost var next := Step(w, cfg, strategy, maxPosts, checkpointInterval, r, rngs(attempts));
        sinceCheckpoint, successes := Iterate(sinceCheckpoint, attempts, successes, saved, rngs(attempts));
        attempts := attempts + 1;
        assert Run(Live(), validator.robotsCache, sinceCheckpoint, checkpoints[saved..], attempts, successes) == next;
      }
      ghost var e := Run(Live(), validator.robotsCache, sinceCheckpoint, checkpoints[saved..], attempts, successes);
      LoopUnfold(w, cfg, strategy, maxPosts, maxBlogs, checkpointInterval, e, rngs);
    }

    /** `run_discovery(seed_blogs)`: seed, loop, save a final checkpoint, and
        return `discovered_blogs`. */
    method RunDiscovery(seeds: seq<string>, rngs: nat -> nat -> Draw) returns (discovered: map<string, BlogInfo>)
      requires Valid()
      modifies this, validator, fetcher
      ensures Valid()
      ensures var r := Discovery.RunDiscovery(w, cfg, strategy, cfg.maxPostsToCheck, maxBlogs, checkpointInterval,
                                              old(Live()), old(validator.robotsCache), seeds, rngs);
        Live() == r.state && state == r.state && validator.robotsCache == r.robots &&
        checkpoints == old(checkpoints) + r.saves && discovered == r.state.discoveredBlogs
    {
      ghost var start := Run(Start(w, Live(), seeds), validator.robotsCache, 0, [], 0, 0);
      ghost var e := Loop(w, cfg, strategy, cfg.maxPostsToCheck, maxBlogs, checkpointInterval, start, rngs);
      assert Discovery.RunDiscovery(w, cfg, strategy, cfg.maxPostsToCheck, maxBlogs, checkpointInterval,
                                    Live(), validator.robotsCache, seeds, rngs) == e.(saves := e.saves + [e.state]);
      SeedQueue(seeds);
      ghost var saved := |checkpoints|;
      var since, attempts, successes := Drain(rngs);
      assert Run(Live(), validator.robotsCache, since, checkpoints[saved..], attempts, successes) == e;
      SplitAt(checkpoints, saved);
      SaveCheckpoint();
      discovered := state.discoveredBlogs;
    }
  }
}
