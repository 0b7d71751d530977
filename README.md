# RSS blog discovery crawler, modelled in Dafny

The RSS discovery engine starts from a list of seed blogs and crawls outwards.
For each blog it:

- finds the blog's RSS or Atom feed and reads the latest posts;
- records the blog with its newest post and the blog that led to it;
- extracts the blogs that the posts link to and queues them by a configurable strategy.

The crawl stops when the queue is empty or enough blogs have been found. It
honours robots.txt and a per-domain rate limit, and it saves checkpoints so it
can resume.

The repository has two crawlers:

- the `crawler` package (`utils`, `validation`, `parser`, `network`, `engine`) with the pydantic records of `models.py`;
- the older single-file crawler `discover.py`, which keeps everything in plain dictionaries and sets.

This project models both crawlers.

- `Crawl` and `Discovery` state the crawl of one blog and the discovery loop as
  functions of the state they start from.
- The package's class (`Engine.RecursiveBlogDiscovery`) and the single-file
  class (`Monolith.RecursiveBlogDiscovery`) update their fields in place. Each of
  their methods is proved to compute exactly those functions, so the two
  crawlers are proved to agree step for step. That agreement is with the
  package's crawl as corrected under "## Findings": the functions record a
  blog's provenance with `Models.DiscoveredFromSource`, which keeps the
  linking post's URL. The package as written loses it
  (`Models.DiscoveredFromAsWritten`), so there the two crawlers differ in
  `post_link`.
- Apart from that, the two crawlers differ in three places, and each difference is modelled:
  - The package reads posts per feed from its settings (`cfg.maxPostsToCheck`).
    The single-file crawler reads its own field.
  - They use different checkpoint restore rules (`Discovery.Restore` and
    `Discovery.RestoreMonolith`). These rules are proved equal.
  - Only the single-file crawler sorts and writes a results file (`Results`).

The outside world is a parameter, `Web.World`: a record of functions standing for
URL parsing and joining, HTTP GET, HTML and feed parsing, and robots.txt
evaluation. The settings are a parameter `Settings.Config`. Other inputs are
modelled as follows:

- The wall clock is an abstract integer `now`. `time.sleep` advances it.
- Random draws are a `Scheduler.Draw` supplied by the caller: a coin for
  `random.random() < 0.5` and a raw number for `random.randint`.
- The checkpoint file is an `Option<DiscoveryState>`. `None` means a missing or
  unreadable file.
- The checkpoints written are recorded in a `checkpoints` sequence field.

`Discovery.Loop` terminates without fuel: each iteration either uses up a unit
of the blog budget or removes an item from the queue.

The package's `discover_feeds` can report two statuses, `has_blog_indicators`
and `no_blog_indicators`, that never actually occur: once the root page is
parsed, the common fallback paths always make the candidate list non-empty.
`Network.DiscoverFeedsOutcome` proves this. The crawl still models the
branches that handle those statuses.

## Model

| member | source | states |
|---|---|---|
| DomainUtils.DropWww | crawler/utils.py:19-21 | one leading `www.` is removed; a host without it is unchanged |
| DomainUtils.ExtractDomainSpec | crawler/utils.py:14-24 | the domain is the lower-cased host with exactly one leading `www.` removed, and `""` when parsing raises |
| DomainUtils.BaseDomainIsLabelSuffix | crawler/utils.py:30-38 | the base domain's labels are the last labels of the domain, and as text it ends the domain |
| DomainUtils.BaseDomainNonEmpty | crawler/utils.py:28-38 | a non-empty domain has a non-empty base domain |
| DomainUtils.BaseDomainIdempotent | crawler/utils.py:26-38 | taking the base domain of a base domain changes nothing |
| DomainUtils.SeedLinesAppend | crawler/utils.py:93-99 | the seed-line filter distributes over concatenation, so seeds keep file order |
| DomainUtils.SeedLinesMembers | crawler/utils.py:93-99 | a text is a seed exactly when it is a stripped line of the file, non-empty and not starting with `#` |
| DomainUtils.LoadSeedsSpec | crawler/utils.py:88-107 | a missing or unreadable seed file gives no seeds; a readable one gives a text iff it is a stripped line of the file, non-empty and not starting with `#` |
| Validation.PassesPatternsAll | crawler/validation.py:35-41 | the early-return pattern loop accepts exactly when every suspicious pattern present is exempt |
| Validation.IsSafeUrlSpec | crawler/validation.py:14-45 | a URL is safe iff it parses, its lower-cased path has no dangerous extension, and every suspicious pattern it contains is `download`/`install` next to a blog word |
| Validation.DangerousExtensionUnsafe | crawler/validation.py:22-25 | a path ending in a dangerous extension makes the URL unsafe |
| Validation.NonExemptPatternUnsafe | crawler/validation.py:35-41 | any suspicious pattern other than `download`/`install` makes the URL unsafe |
| Validation.ExemptPatternNeedsBlogWord | crawler/validation.py:37-41 | `download`/`install` without `blog`, `post` or `article` makes the URL unsafe |
| Validation.LikelyBlogNecessary | crawler/validation.py:47-77 | a likely blog is safe, parseable, has no skipped domain and ends in an allowed extension |
| Validation.LikelyBlogDecision | crawler/validation.py:65-75 | once the filters pass, a blog indicator accepts; without one, acceptance is exactly "at most two dots and no leading `www.`" |
| Validation.FetchRules | crawler/validation.py:100-110 | the parser gets parsed rules iff robots.txt answered 200, and allows everything otherwise |
| Validation.RobotsLookupCache | crawler/validation.py:86-117 | no domain: allowed, cache unchanged; cached domain: answered from the cache, which is unchanged; uncached domain: exactly one new entry, the fetched rules |
| Validation.RobotsFailOpen | crawler/validation.py:102-110 | a failed or non-200 robots.txt allows the URL and caches allow-all for the domain |
| Validation.RobotsSecondQueryCached | crawler/validation.py:96-112 | after one query, any URL of the same domain is answered without a fetch and leaves the cache unchanged |
| Validation.Validator.constructor | crawler/validation.py:80-81 | the robots cache starts empty and nothing has been fetched |
| Validation.Validator.IsAllowedByRobots | crawler/validation.py:86-117 | the answer and the new cache are those of `RobotsLookup`; robots.txt is fetched (and the fetch recorded) exactly when the domain was not cached |
| LinkParser.Dedupe | crawler/parser.py:40 | the unique links are pairwise distinct and are exactly the collected links |
| LinkParser.CollectSound | crawler/parser.py:19-38 | every collected link is the origin of an accepted href |
| LinkParser.CollectComplete | crawler/parser.py:19-38 | the origin of every accepted href is collected |
| LinkParser.CollectMembers | crawler/parser.py:19-38 | a link is collected iff it is the `scheme://netloc` origin of some accepted href (not a skipped scheme, resolves to http(s), likely a blog) |
| LinkParser.ExtractBlogLinksSpec | crawler/parser.py:10-43 | no content or a parse error gives `[]`; otherwise the links are distinct origins of accepted hrefs |
| LinkParser.ExtractBlogLinksComplete | crawler/parser.py:19-40 | when nothing raises, the origin of every accepted href is returned |
| Models.DiscoveredFromAsWritten | crawler/engine.py:222-228 | the provenance validated from the package's source dict keeps the source blog but has no post link |
| Models.AsWrittenLosesPostLink | crawler/engine.py:222-228 | a blog found through a post with a link does not record that link in `post_link` |
| Models.DiscoveredFromSource | models.py:14-18 | the corrected provenance carries the source blog, its name and the post link into `post_link` |
| Scheduler.ParseStrategy | crawler/engine.py:40-43 | each of the three known names selects its strategy, and any other name selects mixed |
| Scheduler.RandInt | crawler/engine.py:130 | `random.randint(0, hi)` lies in `0..hi` |
| Scheduler.RandIntOnto | crawler/engine.py:130 | every value of `0..hi` can be drawn |
| Scheduler.InsertPos | crawler/engine.py:116-142 | the insertion position never exceeds the queue length |
| Scheduler.InsertPosRange | crawler/engine.py:116-142 | breadth first inserts at the back, depth first at the front, mixed in the first half (at most `max(1, n // 2)`) when depth > 0, coin and a non-empty queue allow, and at the back otherwise |
| Scheduler.Insert | crawler/engine.py:131-133 | `list.insert`: one element at `pos`, the prefix before it and the suffix after it kept |
| Scheduler.EnqueueSpec | crawler/engine.py:116-142 | exactly one item is inserted, at the policy's position; removing it gives back the old queue; the multiset grows by the item |
| Scheduler.EnqueueEnds | crawler/engine.py:120-124 | breadth first appends and depth first prepends |
| Scheduler.RandomPositionsReachable | crawler/engine.py:126-140 | random reaches every position of a non-empty queue; mixed reaches every position up to `max(1, n // 2)` |
| Network.WaitTime | crawler/network.py:39-53 | the wait is non-negative, zero for a new domain, at most the 2-second delay, and brings the request to at least 2 seconds after the last one |
| Network.SitemapPaths | crawler/network.py:60-84 | at least one sitemap path is tried |
| Network.SitemapPathsDefault | crawler/network.py:82-84 | without a usable `Sitemap:` line the four default locations are tried |
| Network.FeedLocs | crawler/network.py:94-97 | a kept `<loc>` is one of the sitemap's and holds feed, rss, atom or blog |
| Network.SitemapHits | crawler/network.py:87-102 | every hit of a sitemap holds feed, rss, atom or blog |
| Network.FirstHitsSpec | crawler/network.py:86-104 | the result is at most ten hits of the first sitemap that has any, and empty when none has |
| Network.CheckSitemap | crawler/network.py:55-104 | the sitemap probe's loop returns `SitemapFeeds` |
| Network.JoinAll | crawler/network.py:137-166 | a join per platform path |
| Network.AppendAbsentSpec | crawler/network.py:208-218 | the earlier candidates stay a prefix; every common path ends up present; nothing added was present before |
| Network.Cap | crawler/network.py:220-221 | `feed_urls[:10] + feed_urls[10:15]` is the first fifteen |
| Network.ParseCandidates | crawler/network.py:133-225 | the parsing stage computes `Assemble`: platform paths, feed link tags, sitemap, navigation links, then the missing common paths, with the indicator flag |
| Network.DiscoverFeedsOutcome | crawler/network.py:106-232 | the status is success or unreachable, success iff candidates exist, at most fifteen candidates, and success whenever the root page was fetched and parsed |
| Network.DiscoverFeedsOrder | crawler/network.py:136-221 | the order is platform, `<link>`, sitemap and navigation feeds, then the missing common paths, and the first fifteen are returned |
| Network.AppendCommonFeeds | crawler/network.py:208-218 | the fallback loop computes `AppendAbsent` over the common paths |
| Network.EntryPost | crawler/network.py:280-290 | a post carries its blog name and feed URL |
| Network.EntryPostSpec | crawler/network.py:254-290 | the date prefers `published` over `updated` (none and timestamp 0 without either); the HTML prefers content over summary; the summary is the text's prefix of at most 500 characters |
| Network.EntryPosts | crawler/network.py:253-294 | no more posts than entries |
| Network.EntryPostsMembers | crawler/network.py:253-294 | every post comes from an entry that did not raise |
| Network.EntryPostsComplete | crawler/network.py:253-294 | one post per entry that does not raise; the post of each such entry is in the result, placed after the posts of the earlier such entries, so entry order is kept |
| Network.ReadEntries | crawler/network.py:253-294 | the entry loop computes `EntryPosts` |
| Network.FeedPostsSpec | crawler/network.py:234-304 | a failed or non-200 fetch or an empty feed gives no posts; otherwise at most `maxPosts` posts, each from one of the first `maxPosts` entries, with the feed URL and a summary of at most 500 characters |
| Network.FeedPostsComplete | crawler/network.py:234-304 | for a fetched feed, every entry among the first `maxPosts` that does not raise yields its post with the feed title (or host) as blog name, in entry order, and there are no other posts |
| Network.Fetcher.constructor | crawler/network.py:18-37 | no domain has been requested yet |
| Network.Fetcher.EnforceRateLimit | crawler/network.py:39-53 | an empty domain waits for nothing; otherwise the wait is between 0 and 2 seconds, the clock advances by it, and the domain's request time is the new clock, at least 2 seconds after its previous one |
| Network.Fetcher.Sleep | crawler/engine.py:346 | the clock advances by the seconds slept |
| Network.Fetcher.DiscoverFeeds | crawler/network.py:106-232 | the candidates and status are `FeedCandidates`; the rate limiter stays valid |
| Network.Fetcher.FetchFeed | crawler/network.py:234-304 | the posts are `FeedPosts` for `maxPosts` entries |
| Crawl.FirstWorkingFeed | crawler/engine.py:212-216 | a chosen feed has posts |
| Crawl.FirstWorkingFeedSpec | crawler/engine.py:212-216 | the first candidate that yields posts is taken; there is none iff no candidate yields posts |
| Crawl.LatestPost | crawler/engine.py:218 | `max` by timestamp: one of the posts, with no later timestamp among them |
| Crawl.LatestPostFirst | crawler/engine.py:218 | ties go to the earliest post with the greatest timestamp |
| Crawl.AddLinksSpec | crawler/engine.py:264-271 | known links keep their source and place; the new keys are the unknown links in first-occurrence order, each with the post's source |
| Crawl.Harvest | crawler/engine.py:257-271 | the gathered dictionary has distinct keys, exactly the mapped links |
| Crawl.GatherSpec | crawler/engine.py:257-271 | every link of every post is gathered once, and its source is the first post that linked it |
| Crawl.HarvestProvenance | crawler/engine.py:257-271 | a harvested link's source is the first post that linked it |
| Crawl.DomainsMember | crawler/engine.py:282 | a domain is in the queued set iff some item has it |
| Crawl.AdmittedItems | crawler/engine.py:274-283 | each admitted item is a gathered link with a non-empty domain that was neither processed nor queued, carrying its post's source and the parent depth |
| Crawl.AdmittedDistinct | crawler/engine.py:274-283 | the admitted items have pairwise distinct domains |
| Crawl.AdmittedComplete | crawler/engine.py:274-283 | every gathered link with a new, non-empty domain has its domain queued or admitted |
| Crawl.AdmittedSpec | crawler/engine.py:276-283 | the admitted links are gathered links with non-empty domains, not processed, not queued, with pairwise distinct domains; every such link's domain is admitted |
| Crawl.EnqueueAllDomains | crawler/engine.py:276-283 | the enqueue loop changes only the queue and `queued_domains`, which gains exactly the admitted domains |
| Crawl.EnqueueAllQueue | crawler/engine.py:276-283 | the queue gains exactly the admitted items, whatever the strategy |
| Crawl.EnqueueAllBreadth | crawler/engine.py:274-283 | breadth first appends the admitted items in order |
| Crawl.EnqueueAllDepth | crawler/engine.py:274-283 | depth first pushes the admitted items in front, last admitted first |
| Crawl.EnqueueAllOrder | crawler/engine.py:276-283 | breadth first appends the admitted items in order; depth first pushes them in reverse order in front |
| Crawl.CrawlGates | crawler/engine.py:147-169 | the gates in order: no domain changes nothing; a blacklisted base marks the domain processed; a processed domain changes nothing; otherwise the domain is processed before robots.txt, and a denial stops there |
| Crawl.SucceedSpec | crawler/engine.py:216-294 | the success path writes the record from the feed's latest post and changes no domain set but `queued_domains` |
| Crawl.FeedLoopSpec | crawler/engine.py:210-302 | the feed loop succeeds iff some feed yields posts, recording the first one; otherwise it fails the domain, and the base only for the configured large sites |
| Crawl.ProbeSpec | crawler/engine.py:171-302 | after the robots check: success iff some candidate yields posts; unreachable fails the domain, and its base only when the domain is its own base; no working feed fails the domain, and its base only for the configured large sites |
| Crawl.ProbeMonotone | crawler/engine.py:171-302 | a probe of a freshly processed domain grows the domain sets and adds at most that domain's record |
| Crawl.CrawlMonotone | crawler/engine.py:144-302 | the domain sets only grow, every recorded blog stays processed, no record is replaced, and at most one record is added, for the crawled domain |
| Crawl.CrawlProcessed | crawler/engine.py:144-302 | a crawl never removes a processed domain |
| Crawl.CrawlFootprint | crawler/engine.py:164-302 | success marks the unprocessed domain processed and records it; failure records and enqueues nothing |
| Crawl.CrawlCount | crawler/engine.py:248 | a success adds exactly one record and a failure none |
| Crawl.CrawlSuccess | crawler/engine.py:144-302 | success iff the gates and robots.txt pass and some candidate yields posts; the record is then built from the first such feed and the latest post; failure leaves the records and queue alone |
| Crawl.CrawlBlacklist | crawler/engine.py:176-208 | unreachable fails the domain, and its base only if the domain is its own base; no working feed fails the domain, and its base only for the configured large sites; nothing else is blacklisted |
| Crawl.CrawlEnqueues | crawler/engine.py:273-283 | on success the queue gains exactly the children, whose domains join `queued_domains`; breadth first appends them in order and depth first reverses them in front |
| Crawl.ChildrenFresh | crawler/engine.py:274-283 | children have pairwise distinct, non-empty domains that were not processed or queued and are not the crawled domain, at one more depth than the crawled blog |
| Crawl.ChildrenProvenance | crawler/engine.py:259-283 | each child's source is the first post that linked it |
| Crawl.ChildrenComplete | crawler/engine.py:257-283 | every linked blog whose domain is new ends up queued |
| Discovery.QueueDomainsSpec | crawler/engine.py:318 | the rebuilt set holds exactly the non-empty domains of the queue |
| Discovery.QueueDomainsComprehension | crawler/engine.py:318 | the rebuild equals Python's set comprehension over the queue |
| Discovery.SeedItemsSpec | crawler/engine.py:313-316 | exactly the seeds with an unprocessed domain are queued, in order, each without a source |
| Discovery.StartSpec | crawler/engine.py:313-318 | seeding appends the admitted seeds, rebuilds `queued_domains` from the whole queue and changes nothing else |
| Discovery.BudgetProgress | crawler/engine.py:323-346 | a success uses up a unit of the budget, and a failure does not increase it |
| Discovery.StepProgress | crawler/engine.py:323-346 | each iteration lowers the budget or keeps it and shortens the queue |
| Discovery.AdvanceSpec | crawler/engine.py:340-344 | the bookkeeping keeps the checkpoint count and one record per success |
| Discovery.StepSpec | crawler/engine.py:323-346 | one iteration keeps the invariant, grows the domain sets, never replaces a record, and counts one attempt |
| Discovery.LoopSpec | crawler/engine.py:323-357 | the loop keeps the invariant, ends with the queue empty or the budget met, and never exceeds the budget it started under |
| Discovery.RunDiscoverySpec | crawler/engine.py:304-368 | a run keeps consistency, grows the domain sets, never replaces a record, adds one record per success, stays within the budget, saves `successes / interval + 1` checkpoints (the last one the final state), and stops only with the queue empty or the budget met |
| Discovery.RestoreRulesAgree | crawler/engine.py:102-104 | the package's and the single-file restore rules agree, and both keep the saved state except that an empty `queued_domains` becomes the non-empty domains of the saved queue |
| Engine.RecursiveBlogDiscovery.constructor | crawler/engine.py:31-54 | unknown strategy names fall back to mixed; the state is fresh or restored from the checkpoint |
| Engine.RecursiveBlogDiscovery.SaveCheckpoint | crawler/engine.py:56-72 | the working queue is copied into the state, which is written as a new checkpoint |
| Engine.RecursiveBlogDiscovery.LoadCheckpoint | crawler/engine.py:74-114 | a missing file changes nothing and reports false; a readable one gives the `Restore` state and reports whether any blog was saved |
| Engine.RecursiveBlogDiscovery.AddToQueue | crawler/engine.py:116-142 | the working queue becomes `Enqueue` of the old one |
| Engine.RecursiveBlogDiscovery.GatherLinks | crawler/engine.py:257-271 | the gathering loops compute `Gather` |
| Engine.RecursiveBlogDiscovery.EnqueueChildren | crawler/engine.py:273-283 | the enqueue loop computes `EnqueueAll` on the live state |
| Engine.RecursiveBlogDiscovery.RecordHit | crawler/engine.py:216-294 | the success path computes `Crawl.Succeed`: the record, then the children enqueued |
| Engine.RecursiveBlogDiscovery.CrawlBlog | crawler/engine.py:144-302 | the result, new state and robots cache are those of `Crawl.Crawl` with the settings' post bound |
| Engine.RecursiveBlogDiscovery.ProbeSite | crawler/engine.py:171-302 | the part after the robots check computes `Crawl.Probe` |
| Engine.RecursiveBlogDiscovery.TryFeeds | crawler/engine.py:210-302 | the feed loop computes `Crawl.FeedLoop` |
| Engine.RecursiveBlogDiscovery.SeedQueue | crawler/engine.py:313-318 | seeding computes `Discovery.Start` |
| Engine.RecursiveBlogDiscovery.Iterate | crawler/engine.py:324-346 | one iteration computes `Discovery.Step`, keeping earlier checkpoints |
| Engine.RecursiveBlogDiscovery.Drain | crawler/engine.py:323-357 | the loop computes `Discovery.Loop` |
| Engine.RecursiveBlogDiscovery.RunDiscovery | crawler/engine.py:304-368 | the run computes `Discovery.RunDiscovery`, with the checkpoints it writes, and returns the discovered blogs |
| Results.StrLeTotal | discover.py:949-952 | Python's string order is total |
| Results.StrLeTrans | discover.py:949-952 | Python's string order is transitive |
| Results.StrLeEmpty | discover.py:950 | the empty key is the least key, and the only one at or below `""` |
| Results.InsertDesc | discover.py:949-952 | insertion keeps every entry and adds one |
| Results.SortByPublished | discover.py:949-952 | the sort is a permutation |
| Results.InsertDescSorted | discover.py:949-952 | insertion keeps the list newest first |
| Results.SortByPublishedSpec | discover.py:949-952 | the sorted list is newest first by `published or ''` and a permutation |
| Results.UndatedLast | discover.py:950-952 | blogs without a dated latest post come after every dated one |
| Results.Entries | discover.py:940-946 | one entry per discovered blog, each with its own record |
| Monolith.RecursiveBlogDiscovery.constructor | discover.py:43-107 | unknown strategy names fall back to mixed; the state is fresh or `RestoreMonolith` of the checkpoint |
| Monolith.RecursiveBlogDiscovery.SaveCheckpoint | discover.py:109-128 | the state is written as a new checkpoint and nothing else changes |
| Monolith.RecursiveBlogDiscovery.LoadCheckpoint | discover.py:130-166 | a missing file changes nothing and reports false; a readable one gives `RestoreMonolith` and reports whether any blog was saved |
| Monolith.RecursiveBlogDiscovery.IsAllowedByRobots | discover.py:168-209 | the answer and new cache are `RobotsLookup`'s, the same rule as the package's validator |
| Monolith.RecursiveBlogDiscovery.EnforceRateLimit | discover.py:303-317 | the same wait rule as the package's fetcher, with the crawl state untouched |
| Monolith.RecursiveBlogDiscovery.Sleep | discover.py:907 | the clock advances by the seconds slept |
| Monolith.RecursiveBlogDiscovery.AddToQueue | discover.py:319-357 | the queue becomes `Enqueue` of the old one, the same policies as the package |
| Monolith.RecursiveBlogDiscovery.DiscoverFeeds | discover.py:410-551 | the candidates and status are `FeedCandidates`, the same as the package's |
| Monolith.RecursiveBlogDiscovery.FetchFeed | discover.py:553-635 | the posts are `FeedPosts` bounded by this crawler's own `max_posts_to_check` |
| Monolith.RecursiveBlogDiscovery.GatherLinks | discover.py:797-813 | the gathering loops compute `Gather` |
| Monolith.RecursiveBlogDiscovery.EnqueueChildren | discover.py:815-833 | the enqueue loop computes `EnqueueAll` |
| Monolith.RecursiveBlogDiscovery.RecordHit | discover.py:754-843 | the success path computes `Crawl.Succeed`: the record, then the children enqueued |
| Monolith.RecursiveBlogDiscovery.CrawlBlog | discover.py:672-853 | the result, new state and robots cache are those of `Crawl.Crawl` with this crawler's post bound |
| Monolith.RecursiveBlogDiscovery.ProbeSite | discover.py:705-853 | the part after the robots check computes `Crawl.Probe` |
| Monolith.RecursiveBlogDiscovery.TryFeeds | discover.py:750-853 | the feed loop computes `Crawl.FeedLoop` |
| Monolith.RecursiveBlogDiscovery.SeedQueue | discover.py:864-871 | seeding computes `Discovery.Start` |
| Monolith.RecursiveBlogDiscovery.Iterate | discover.py:879-907 | one iteration computes `Discovery.Step` |
| Monolith.RecursiveBlogDiscovery.Drain | discover.py:877-911 | the loop computes `Discovery.Loop` |
| Monolith.RecursiveBlogDiscovery.RunDiscovery | discover.py:855-931 | the run computes `Discovery.RunDiscovery` and returns the discovered blogs |
| Monolith.RecursiveBlogDiscovery.SaveResults | discover.py:933-964 | `total_blogs` is the number of blogs and `target_blogs` is `max_blogs`; the entries are sorted newest first, and they are exactly the discovered blogs, each with its own record |

## Left out

- HTTP requests, HTML and XML parsing (BeautifulSoup), feed parsing (feedparser), URL parsing and joining, and robots.txt evaluation (`RobotFileParser`) are functions of `Web.World`. Their results are inputs, not modelled behaviour.
- The text extraction of `get_text(separator=' ', strip=True)` is part of the feed oracle. The model keeps its result and its 500-character prefix.
- Timeouts, headers, the TLS setting and the HTTP error kinds are not modelled. A raised request and a 4xx/5xx answer both count as unreachable, which is what both crawlers do with them.
- JSON serialisation and pydantic validation are not modelled. The checkpoint file is an `Option<DiscoveryState>`, with `None` for a missing or unreadable file, and a partially readable file is not modelled.
- A pydantic validation error inside the package's `crawl_blog` (an invalid `HttpUrl` or date) is not modelled. In the source, `run_discovery` catches it and the blog counts as neither a success nor a failure record.
- `discovered_at`, the checkpoint `timestamp` and the results' `crawled_at` are wall-clock readings and are not kept.
- The single-file crawler's `source_post_title` and its `raw_html` key (for `raw_html_content`) are dictionary details. They are not modelled separately.
- `list(set(links))` has no defined order. `LinkParser.Dedupe` keeps the first occurrence of each link, so the order of extracted links is one possible order.
- The order of `blogs` in the results file among blogs with equal keys is not stated. Python's sort is stable over dictionary insertion order, and the model's map has no insertion order.
- The queue items with a bare string or another shape (`engine.py:325-335`) are not modelled. The model's queue holds only `(url, source)` pairs, the only shape either crawler writes.
- The attempt number passed to `crawl_blog` is used only for logging. It is counted (`attempts`) but not passed on.
- `Engine.RecursiveBlogDiscovery.constructor`: the package's `max_posts_to_check` argument is stored and logged only. Its feed reads use `settings.MAX_POSTS_TO_CHECK` (`crawler/network.py:253`), and the model follows that.
- A negative `max_posts_to_check` in the single-file crawler would slice from the end in Python. The model takes it as a `nat`.
- `KeyboardInterrupt` handling (a checkpoint and then a re-raise) and the catch-all `except Exception: continue` around a crawl in `run_discovery` are not modelled.
- The package's `save_results`, `archive_old_results`, `main`, the viewers (`view.py`, `export_html.py`), the tests and all logging are outside this model.
- Only ASCII case folding is modelled for `str.lower()`, and only the ASCII whitespace of `str.isspace()` (space, `\t`, `\n`, `\v`, `\f`, `\r` and `\x1c`–`\x1f`) for `strip()`; Unicode spaces are not stripped.
- Engine.RecursiveBlogDiscovery.CrawlBlog, ProbeSite, TryFeeds, Iterate, Drain and RunDiscovery, and the same methods of Monolith.RecursiveBlogDiscovery, do not state the rate limiter's clock and last-request map after a crawl; only that the limiter stays valid. `DiscoverFeeds`, `FetchFeed` and `EnforceRateLimit` state it for each request.
- `Network.FeedPostsSpec`: the blog name of a post is stated only as coming from the feed. It is the feed title or the feed URL's host, but the contract does not say which.

## Findings

| source | as written | input that shows it | evidently intended | confidence | as-written member | corrected member |
|---|---|---|---|---|---|---|
| crawler/engine.py:222-228 | the provenance dictionary uses the key `source_post_link`, but the pydantic model `DiscoveredFrom` (models.py:14-18) names the field `post_link`, so the post link is dropped | a blog queued from a post whose link is `https://a.example/p/1`: its `discovered_from.post_link` is `None` | the provenance records the linking post's URL, as the single-file crawler does (discover.py:764-769) | not executed | Models.DiscoveredFromAsWritten | Models.DiscoveredFromSource |
