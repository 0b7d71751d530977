// The crawl of one blog and the discovery loop, as functions of the state
// they start from. Both crawler classes (the package's engine and the
// single-file crawler) are proved to compute exactly these.

module Crawl {
  import opened Wrappers
  import opened Strings
  import opened Web
  import opened Settings
  import opened DomainUtils
  import opened Validation
  import opened LinkParser
  import opened Models
  import opened Network
  import opened Scheduler

  // ------------------------------------------------------------ feeds

  /** The feed loop: the first candidate whose feed yields posts, with them. */
  function FirstWorkingFeed(w: World, maxPosts: nat, feeds: seq<string>): (r: Option<(string, seq<Post>)>)
    ensures r.Some? ==> r.value.1 != []
  {
    if feeds == [] then None
    else
      var posts := FeedPosts(w, maxPosts, feeds[0]);
      if posts != [] then Some((feeds[0], posts)) else FirstWorkingFeed(w, maxPosts, feeds[1..])
  }

  /** The first working feed is accepted: every earlier candidate yielded
      nothing, and there is none exactly when no candidate yields posts. */
  lemma {:induction false} FirstWorkingFeedSpec(w: World, maxPosts: nat, feeds: seq<string>)
    ensures var r := FirstWorkingFeed(w, maxPosts, feeds);
      (r.None? <==> forall k :: 0 <= k < |feeds| ==> FeedPosts(w, maxPosts, feeds[k]) == []) &&
      (r.Some? ==> exists k ::
        (0 <= k < |feeds| && r.value.0 == feeds[k] &&
         r.value.1 == FeedPosts(w, maxPosts, feeds[k]) && r.value.1 != [] &&
         forall j :: 0 <= j < k ==> FeedPosts(w, maxPosts, feeds[j]) == []))
  {
    if feeds != [] {
      FirstWorkingFeedSpec(w, maxPosts, feeds[1..]);
      var r := FirstWorkingFeed(w, maxPosts, feeds);
      if FeedPosts(w, maxPosts, feeds[0]) == [] {
        assert forall k :: 1 <= k < |feeds| ==> feeds[k] == feeds[1..][k - 1];
        if r.Some? {
          var k :| 0 <= k < |feeds[1..]| && r.value.0 == feeds[1..][k] &&
            r.value.1 == FeedPosts(w, maxPosts, feeds[1..][k]) && r.value.1 != [] &&
            forall j :: 0 <= j < k ==> FeedPosts(w, maxPosts, feeds[1..][j]) == [];
          assert forall j :: 0 <= j < k + 1 ==> FeedPosts(w, maxPosts, feeds[j]) == [] by {
            forall j | 0 <= j < k + 1 ensures FeedPosts(w, maxPosts, feeds[j]) == [] {
              if j > 0 {
                assert feeds[j] == feeds[1..][j - 1];
              }
            }
          }
        }
      } else {
        assert r.value.0 == feeds[0];
      }
    }
  }

  /** `max(posts, key=published_timestamp)`: the first post with the greatest
      timestamp. */
  function LatestPost(posts: seq<Post>): (p: Post)
    requires posts != []
    ensures p in posts
    ensures forall q :: q in posts ==> q.publishedTimestamp <= p.publishedTimestamp
  {
    if |posts| == 1 then posts[0]
    else
      var m := LatestPost(posts[..|posts| - 1]);
      assert forall q :: q in posts ==> q in posts[..|posts| - 1] || q == posts[|posts| - 1];
      if posts[|posts| - 1].publishedTimestamp > m.publishedTimestamp then posts[|posts| - 1] else m
  }

  /** Ties go to the earliest post: every post before the chosen one has a
      smaller timestamp. */
  lemma {:induction false} LatestPostFirst(posts: seq<Post>)
    requires posts != []
    ensures exists i ::
      (0 <= i < |posts| && posts[i] == LatestPost(posts) &&
       forall j :: 0 <= j < i ==> posts[j].publishedTimestamp < LatestPost(posts).publishedTimestamp)
  {
    var p := LatestPost(posts);
    if |posts| == 1 {
      assert posts[0] == p;
    } else {
      var n := |posts| - 1;
      var init := posts[..n];
      LatestPostFirst(init);
      var m := LatestPost(init);
      var i :| 0 <= i < |init| && init[i] == m &&
        forall j :: 0 <= j < i ==> init[j].publishedTimestamp < m.publishedTimestamp;
      if posts[n].publishedTimestamp > m.publishedTimestamp {
        assert p == posts[n];
        forall j | 0 <= j < n ensures posts[j].publishedTimestamp < p.publishedTimestamp {
          assert posts[j] == init[j] && init[j] in init;
        }
        assert 0 <= n < |posts| && posts[n] == p;
      } else {
        assert p == m;
        assert posts[i] == p;
        forall j | 0 <= j < i ensures posts[j].publishedTimestamp < p.publishedTimestamp {
          assert posts[j] == init[j];
        }
      }
    }
  }

  // ----------------------------------------------------------- gathering

  /** The `new_blogs_with_source` dictionary: its keys in insertion order, and
      the source of each. */
  datatype Found = Found(order: seq<string>, sources: map<string, SourceInfo>)

  /** The keys are distinct and are exactly the mapped links. */
  ghost predicate FoundValid(f: Found) {
    (forall i, j :: 0 <= i < j < |f.order| ==> f.order[i] != f.order[j]) &&
    (forall x :: x in f.order <==> x in f.sources)
  }

  const NoFound := Found([], map[])

  /** The source a post gives the links found in it. */
  function PostSource(blogUrl: string, blogName: string, p: Post): SourceInfo {
    SourceInfo(blogUrl, blogName, p.title, p.link, None)
  }

  /** The blog links of one post. */
  function PostLinks(w: World, cfg: Config, p: Post): seq<string> {
    ExtractBlogLinks(w, cfg, p.rawHtmlContent, p.link)
  }

  /** The inner loop: each link not yet known is recorded with `src`. */
  function AddLinks(f: Found, links: seq<string>, src: SourceInfo): Found
    decreases |links|
  {
    if links == [] then f
    else
      var next := if links[0] in f.sources then f else Found(f.order + [links[0]], f.sources[links[0] := src]);
      AddLinks(next, links[1..], src)
  }

  /** Known links keep their source and place; the new keys are the links not
      known before, each with `src`. */
  lemma {:induction false} AddLinksSpec(f: Found, links: seq<string>, src: SourceInfo)
    requires FoundValid(f)
    ensures FoundValid(AddLinks(f, links, src))
    ensures |f.order| <= |AddLinks(f, links, src).order| && AddLinks(f, links, src).order[..|f.order|] == f.order
    ensures forall x :: x in f.sources ==> x in AddLinks(f, links, src).sources && AddLinks(f, links, src).sources[x] == f.sources[x]
    ensures forall x :: x in AddLinks(f, links, src).sources <==> x in f.sources || x in links
    ensures forall x :: x in AddLinks(f, links, src).sources && x !in f.sources ==> AddLinks(f, links, src).sources[x] == src
    decreases |links|
  {
    if links != [] {
      var l := links[0];
      var r := AddLinks(f, links, src);
      assert forall x :: x in links <==> x == l || x in links[1..];
      if l in f.sources {
        AddLinksSpec(f, links[1..], src);
        assert r == AddLinks(f, links[1..], src);
      } else {
        var next := Found(f.order + [l], f.sources[l := src]);
        assert FoundValid(next) by {
          assert forall x :: x in next.order <==> x in f.order || x == l;
        }
        AddLinksSpec(next, links[1..], src);
        assert r == AddLinks(next, links[1..], src);
        assert r.order[..|f.order|] == next.order[..|f.order|];
      }
    }
  }

  /** The gathering loop over the posts, starting from `f`. */
  function Gather(w: World, cfg: Config, blogUrl: string, blogName: string, posts: seq<Post>, f: Found): Found
    decreases |posts|
  {
    if posts == [] then f
    else Gather(w, cfg, blogUrl, blogName, posts[1..], AddLinks(f, PostLinks(w, cfg, posts[0]), PostSource(blogUrl, blogName, posts[0])))
  }

  /** Post `i` is the first to link `x`. */
  ghost predicate FirstMention(w: World, cfg: Config, posts: seq<Post>, x: string, i: int) {
    0 <= i < |posts| && x in PostLinks(w, cfg, posts[i]) &&
    forall j :: 0 <= j < i ==> x !in PostLinks(w, cfg, posts[j])
  }

  /** Every link of every post is gathered once, and its source is the first
      post that links it. */
  lemma {:induction false} GatherSpec(w: World, cfg: Config, blogUrl: string, blogName: string, posts: seq<Post>, f: Found)
    requires FoundValid(f)
    ensures FoundValid(Gather(w, cfg, blogUrl, blogName, posts, f))
    ensures forall x :: x in f.sources ==> x in Gather(w, cfg, blogUrl, blogName, posts, f).sources && Gather(w, cfg, blogUrl, blogName, posts, f).sources[x] == f.sources[x]
    ensures forall i, x :: 0 <= i < |posts| && x in PostLinks(w, cfg, posts[i]) ==> x in Gather(w, cfg, blogUrl, blogName, posts, f).sources
    ensures forall x :: x in Gather(w, cfg, blogUrl, blogName, posts, f).sources && x !in f.sources ==>
      exists i :: FirstMention(w, cfg, posts, x, i) && Gather(w, cfg, blogUrl, blogName, posts, f).sources[x] == PostSource(blogUrl, blogName, posts[i])
    decreases |posts|
  {
    if posts != [] {
      var src := PostSource(blogUrl, blogName, posts[0]);
      var links := PostLinks(w, cfg, posts[0]);
      var f1 := AddLinks(f, links, src);
      AddLinksSpec(f, links, src);
      GatherSpec(w, cfg, blogUrl, blogName, posts[1..], f1);
      var r := Gather(w, cfg, blogUrl, blogName, posts, f);
      assert r == Gather(w, cfg, blogUrl, blogName, posts[1..], f1);
      forall i, x | 0 <= i < |posts| && x in PostLinks(w, cfg, posts[i]) ensures x in r.sources {
        if i > 0 {
          assert posts[1..][i - 1] == posts[i];
        }
      }
      forall x | x in r.sources && x !in f.sources
        ensures exists i :: FirstMention(w, cfg, posts, x, i) && r.sources[x] == PostSource(blogUrl, blogName, posts[i])
      {
        if x in f1.sources {
          assert FirstMention(w, cfg, posts, x, 0);
        } else {
          var i :| FirstMention(w, cfg, posts[1..], x, i) && r.sources[x] == PostSource(blogUrl, blogName, posts[1..][i]);
          assert posts[1..][i] == posts[i + 1];
          forall j | 0 <= j < i + 1 ensures x !in PostLinks(w, cfg, posts[j]) {
            if j > 0 {
              assert posts[j] == posts[1..][j - 1];
            }
          }
          assert FirstMention(w, cfg, posts, x, i + 1);
        }
      }
    }
  }

  // ------------------------------------------------------------ enqueueing

  /** The clean domain of a queued item. */
  function ItemDomain(w: World, item: QueueItem): string {
    ExtractDomain(w.parse, item.url)
  }

  /** The source a child carries into the queue: its gathered source with the
      depth of the blog that found it. */
  function ChildSource(src: SourceInfo, depth: int): SourceInfo {
    src.(parentDepth := Some(depth))
  }

  /** The enqueue test: a non-empty domain, neither processed nor queued. */
  predicate Admits(w: World, processed: set<string>, queued: set<string>, link: string) {
    var d := ExtractDomain(w.parse, link);
    d != "" && d !in processed && d !in queued
  }

  /** The enqueue loop: each admitted link goes into the queue by the strategy
      (with the `k`-th draw) and its domain into `queued_domains`. */
  function EnqueueAll(w: World, strategy: Strategy, s: DiscoveryState, links: seq<string>, sources: map<string, SourceInfo>,
                      depth: int, rng: nat -> Draw, k: nat): DiscoveryState
    requires forall x :: x in links ==> x in sources
    decreases |links|
  {
    if links == [] then s
    else
      var l := links[0];
      var next :=
        if Admits(w, s.processedDomains, s.queuedDomains, l) then
          s.(blogsToProcess := Enqueue(s.blogsToProcess, strategy, QueueItem(l, Some(ChildSource(sources[l], depth))), depth + 1, rng(k)),
             queuedDomains := s.queuedDomains + {ExtractDomain(w.parse, l)})
        else s;
      EnqueueAll(w, strategy, next, links[1..], sources, depth, rng, k + 1)
  }

  /** The items the enqueue loop admits, in order. */
  function Admitted(w: World, processed: set<string>, queued: set<string>, links: seq<string>, sources: map<string, SourceInfo>,
                    depth: int): seq<QueueItem>
    requires forall x :: x in links ==> x in sources
    decreases |links|
  {
    if links == [] then []
    else
      var l := links[0];
      if Admits(w, processed, queued, l) then
        [QueueItem(l, Some(ChildSource(sources[l], depth)))] +
        Admitted(w, processed, queued + {ExtractDomain(w.parse, l)}, links[1..], sources, depth)
      else Admitted(w, processed, queued, links[1..], sources, depth)
  }

  function Domains(w: World, items: seq<QueueItem>): set<string> {
    if items == [] then {} else {ItemDomain(w, items[0])} + Domains(w, items[1..])
  }

  lemma DomainsMember(w: World, items: seq<QueueItem>, d: string)
    ensures d in Domains(w, items) <==> exists i :: 0 <= i < |items| && ItemDomain(w, items[i]) == d
  {
    if items != [] {
      DomainsMember(w, items[1..], d);
      if exists i :: 0 <= i < |items[1..]| && ItemDomain(w, items[1..][i]) == d {
        var i :| 0 <= i < |items[1..]| && ItemDomain(w, items[1..][i]) == d;
        assert items[i + 1] == items[1..][i];
      }
      if exists i :: 0 <= i < |items| && ItemDomain(w, items[i]) == d {
        var i :| 0 <= i < |items| && ItemDomain(w, items[i]) == d;
        if i > 0 {
          assert items[1..][i - 1] == items[i];
        }
      }
    }
  }

  /** An item the enqueue step may add: a link of the list whose domain is
      non-empty and neither processed nor queued, carrying its gathered
      source and the parent depth. */
  predicate AdmittedItem(w: World, processed: set<string>, queued: set<string>, links: seq<string>,
                         sources: map<string, SourceInfo>, depth: int, item: QueueItem)
  {
    item.url in links && item.url in sources && ItemDomain(w, item) != "" &&
    ItemDomain(w, item) !in processed && ItemDomain(w, item) !in queued &&
    item.source == Some(ChildSource(sources[item.url], depth))
  }

  /** No two items of the list share a domain. */
  predicate DistinctDomains(w: World, items: seq<QueueItem>) {
    forall i, j :: 0 <= i < j < |items| ==> ItemDomain(w, items[i]) != ItemDomain(w, items[j])
  }

  /** Each admitted item is a link of the list whose domain is non-empty and
      was neither processed nor queued, with its gathered source and the
      parent depth. */
  lemma {:induction false} AdmittedItems(w: World, processed: set<string>, queued: set<string>, links: seq<string>,
                                         sources: map<string, SourceInfo>, depth: int)
    requires forall x :: x in links ==> x in sources
    ensures forall item :: item in Admitted(w, processed, queued, links, sources, depth) ==>
      AdmittedItem(w, processed, queued, links, sources, depth, item)
    decreases |links|
  {
    if links != [] {
      var l := links[0];
      var d := ExtractDomain(w.parse, l);
      var a := Admitted(w, processed, queued, links, sources, depth);
      assert forall x :: x in links[1..] ==> x in links;
      if Admits(w, processed, queued, l) {
        var item := QueueItem(l, Some(ChildSource(sources[l], depth)));
        var rest := Admitted(w, processed, queued + {d}, links[1..], sources, depth);
        AdmittedItems(w, processed, queued + {d}, links[1..], sources, depth);
        assert a == [item] + rest;
        assert AdmittedItem(w, processed, queued, links, sources, depth, item);
      } else {
        AdmittedItems(w, processed, queued, links[1..], sources, depth);
        assert a == Admitted(w, processed, queued, links[1..], sources, depth);
      }
    }
  }

  /** The admitted items have pairwise distinct domains. */
  lemma {:induction false} AdmittedDistinct(w: World, processed: set<string>, queued: set<string>, links: seq<string>,
                                            sources: map<string, SourceInfo>, depth: int)
    requires forall x :: x in links ==> x in sources
    ensures DistinctDomains(w, Admitted(w, processed, queued, links, sources, depth))
    decreases |links|
  {
    if links != [] {
      var l := links[0];
      var d := ExtractDomain(w.parse, l);
      var a := Admitted(w, processed, queued, links, sources, depth);
      assert forall x :: x in links[1..] ==> x in links;
      if Admits(w, processed, queued, l) {
        var rest := Admitted(w, processed, queued + {d}, links[1..], sources, depth);
        AdmittedDistinct(w, processed, queued + {d}, links[1..], sources, depth);
        AdmittedItems(w, processed, queued + {d}, links[1..], sources, depth);
        assert a == [QueueItem(l, Some(ChildSource(sources[l], depth)))] + rest;
        assert ItemDomain(w, a[0]) == d;
        forall i, j | 0 <= i < j < |a| ensures ItemDomain(w, a[i]) != ItemDomain(w, a[j]) {
          assert a[j] == rest[j - 1];
          assert AdmittedItem(w, processed, queued + {d}, links[1..], sources, depth, rest[j - 1]);
          if i > 0 {
            assert a[i] == rest[i - 1];
          }
        }
      } else {
        AdmittedDistinct(w, processed, queued, links[1..], sources, depth);
        assert a == Admitted(w, processed, queued, links[1..], sources, depth);
      }
    }
  }

  /** A link that is not admitted has an empty domain or one already
      processed or queued before it. */
  lemma {:induction false} AdmittedComplete(w: World, processed: set<string>, queued: set<string>, links: seq<string>,
                                            sources: map<string, SourceInfo>, depth: int)
    requires forall x :: x in links ==> x in sources
    ensures forall x :: x in links && ExtractDomain(w.parse, x) != "" && ExtractDomain(w.parse, x) !in processed ==>
      ExtractDomain(w.parse, x) in queued + Domains(w, Admitted(w, processed, queued, links, sources, depth))
    decreases |links|
  {
    if links != [] {
      var l := links[0];
      var d := ExtractDomain(w.parse, l);
      var a := Admitted(w, processed, queued, links, sources, depth);
      assert forall x :: x in links[1..] ==> x in links;
      assert forall x :: x in links ==> x == l || x in links[1..];
      if Admits(w, processed, queued, l) {
        var rest := Admitted(w, processed, queued + {d}, links[1..], sources, depth);
        AdmittedComplete(w, processed, queued + {d}, links[1..], sources, depth);
        assert a == [QueueItem(l, Some(ChildSource(sources[l], depth)))] + rest;
        assert Domains(w, a) == {d} + Domains(w, rest) by {
          assert a[1..] == rest;
        }
      } else {
        AdmittedComplete(w, processed, queued, links[1..], sources, depth);
      }
    }
  }

  /** What is admitted: links of the list, with non-empty domains that were
      neither processed nor queued, pairwise distinct, each carrying its
      gathered source and the parent depth; a link that is not admitted has
      an empty domain or one already processed or queued before it. */
  lemma AdmittedSpec(w: World, processed: set<string>, queued: set<string>, links: seq<string>,
                     sources: map<string, SourceInfo>, depth: int)
    requires forall x :: x in links ==> x in sources
    ensures forall item :: item in Admitted(w, processed, queued, links, sources, depth) ==>
      AdmittedItem(w, processed, queued, links, sources, depth, item)
    ensures DistinctDomains(w, Admitted(w, processed, queued, links, sources, depth))
    ensures forall x :: x in links && ExtractDomain(w.parse, x) != "" && ExtractDomain(w.parse, x) !in processed ==>
      ExtractDomain(w.parse, x) in queued + Domains(w, Admitted(w, processed, queued, links, sources, depth))
  {
    AdmittedItems(w, processed, queued, links, sources, depth);
    AdmittedDistinct(w, processed, queued, links, sources, depth);
    AdmittedComplete(w, processed, queued, links, sources, depth);
  }

  function Reverse<T>(s: seq<T>): seq<T> {
    if s == [] then [] else Reverse(s[1..]) + [s[0]]
  }

  /** Pushing `x` to the front of `q` after the reversed `rest` is pushing the
      reversed `[x] + rest`. */
  lemma ReversePush<T>(x: T, rest: seq<T>, q: seq<T>)
    ensures Reverse([x] + rest) + q == Reverse(rest) + ([x] + q)
  {
    assert ([x] + rest)[1..] == rest;
    assert Reverse([x] + rest) == Reverse(rest) + [x];
  }

  /** A queue that gained `x` and then `rest` gained `[x] + rest`. */
  lemma MultisetCons<T>(q: seq<T>, q': seq<T>, x: T, rest: seq<T>)
    requires multiset(q') == multiset(q) + multiset{x}
    ensures multiset(q') + multiset(rest) == multiset(q) + multiset([x] + rest)
  {
    assert multiset([x] + rest) == multiset{x} + multiset(rest);
  }

  /** The enqueue loop touches only the queue and `queued_domains`, and the
      domains of the admitted items join `queued_domains`. */
  lemma {:induction false} EnqueueAllDomains(w: World, strategy: Strategy, s: DiscoveryState, links: seq<string>,
                                             sources: map<string, SourceInfo>, depth: int, rng: nat -> Draw, k: nat)
    requires forall x :: x in links ==> x in sources
    ensures var r := EnqueueAll(w, strategy, s, links, sources, depth, rng, k);
      r.discoveredBlogs == s.discoveredBlogs && r.processedDomains == s.processedDomains &&
      r.failedDomains == s.failedDomains && r.failedBaseDomains == s.failedBaseDomains &&
      r.queuedDomains == s.queuedDomains + Domains(w, Admitted(w, s.processedDomains, s.queuedDomains, links, sources, depth))
    decreases |links|
  {
    if links != [] {
      var l := links[0];
      if Admits(w, s.processedDomains, s.queuedDomains, l) {
        var item := QueueItem(l, Some(ChildSource(sources[l], depth)));
        var next := s.(blogsToProcess := Enqueue(s.blogsToProcess, strategy, item, depth + 1, rng(k)),
                       queuedDomains := s.queuedDomains + {ExtractDomain(w.parse, l)});
        EnqueueAllDomains(w, strategy, next, links[1..], sources, depth, rng, k + 1);
        var rest := Admitted(w, next.processedDomains, next.queuedDomains, links[1..], sources, depth);
        assert Admitted(w, s.processedDomains, s.queuedDomains, links, sources, depth) == [item] + rest;
        assert Domains(w, [item] + rest) == {ExtractDomain(w.parse, l)} + Domains(w, rest) by {
          assert ([item] + rest)[1..] == rest;
        }
      } else {
        EnqueueAllDomains(w, strategy, s, links[1..], sources, depth, rng, k + 1);
      }
    }
  }

  /** The queue gains exactly the admitted items, whatever the strategy. */
  lemma {:induction false} EnqueueAllQueue(w: World, strategy: Strategy, s: DiscoveryState, links: seq<string>,
                                           sources: map<string, SourceInfo>, depth: int, rng: nat -> Draw, k: nat)
    requires forall x :: x in links ==> x in sources
    ensures multiset(EnqueueAll(w, strategy, s, links, sources, depth, rng, k).blogsToProcess) ==
      multiset(s.blogsToProcess) + multiset(Admitted(w, s.processedDomains, s.queuedDomains, links, sources, depth))
    decreases |links|
  {
    if links != [] {
      var l := links[0];
      if Admits(w, s.processedDomains, s.queuedDomains, l) {
        var item := QueueItem(l, Some(ChildSource(sources[l], depth)));
        var next := s.(blogsToProcess := Enqueue(s.blogsToProcess, strategy, item, depth + 1, rng(k)),
                       queuedDomains := s.queuedDomains + {ExtractDomain(w.parse, l)});
        EnqueueSpec(s.blogsToProcess, strategy, item, depth + 1, rng(k));
        assert EnqueueAll(w, strategy, s, links, sources, depth, rng, k) ==
          EnqueueAll(w, strategy, next, links[1..], sources, depth, rng, k + 1);
        EnqueueAllQueue(w, strategy, next, links[1..], sources, depth, rng, k + 1);
        var rest := Admitted(w, next.processedDomains, next.queuedDomains, links[1..], sources, depth);
        assert Admitted(w, s.processedDomains, s.queuedDomains, links, sources, depth) == [item] + rest;
        MultisetCons(s.blogsToProcess, next.blogsToProcess, item, rest);
      } else {
        EnqueueAllQueue(w, strategy, s, links[1..], sources, depth, rng, k + 1);
      }
    }
  }

  /** Breadth first appends the admitted items in order. */
  lemma {:induction false} EnqueueAllBreadth(w: World, s: DiscoveryState, links: seq<string>,
                                             sources: map<string, SourceInfo>, depth: int, rng: nat -> Draw, k: nat)
    requires forall x :: x in links ==> x in sources
    ensures EnqueueAll(w, BreadthFirst, s, links, sources, depth, rng, k).blogsToProcess ==
      s.blogsToProcess + Admitted(w, s.processedDomains, s.queuedDomains, links, sources, depth)
    decreases |links|
  {
    if links != [] {
      var l := links[0];
      if Admits(w, s.processedDomains, s.queuedDomains, l) {
        var item := QueueItem(l, Some(ChildSource(sources[l], depth)));
        var next := s.(blogsToProcess := s.blogsToProcess + [item],
                       queuedDomains := s.queuedDomains + {ExtractDomain(w.parse, l)});
        EnqueueEnds(s.blogsToProcess, item, depth + 1, rng(k));
        assert EnqueueAll(w, BreadthFirst, s, links, sources, depth, rng, k) ==
          EnqueueAll(w, BreadthFirst, next, links[1..], sources, depth, rng, k + 1);
        EnqueueAllBreadth(w, next, links[1..], sources, depth, rng, k + 1);
        var rest := Admitted(w, next.processedDomains, next.queuedDomains, links[1..], sources, depth);
        assert Admitted(w, s.processedDomains, s.queuedDomains, links, sources, depth) == [item] + rest;
        AppendAssoc(s.blogsToProcess, [item], rest);
      } else {
        EnqueueAllBreadth(w, s, links[1..], sources, depth, rng, k + 1);
      }
    }
  }

  /** Depth first pushes each admitted item to the front, so they end up
      before the old queue in reverse order. */
  lemma {:induction false} EnqueueAllDepth(w: World, s: DiscoveryState, links: seq<string>,
                                           sources: map<string, SourceInfo>, depth: int, rng: nat -> Draw, k: nat)
    requires forall x :: x in links ==> x in sources
    ensures EnqueueAll(w, DepthFirst, s, links, sources, depth, rng, k).blogsToProcess ==
      Reverse(Admitted(w, s.processedDomains, s.queuedDomains, links, sources, depth)) + s.blogsToProcess
    decreases |links|
  {
    if links != [] {
      var l := links[0];
      if Admits(w, s.processedDomains, s.queuedDomains, l) {
        var item := QueueItem(l, Some(ChildSource(sources[l], depth)));
        var next := s.(blogsToProcess := [item] + s.blogsToProcess,
                       queuedDomains := s.queuedDomains + {ExtractDomain(w.parse, l)});
        EnqueueEnds(s.blogsToProcess, item, depth + 1, rng(k));
        assert EnqueueAll(w, DepthFirst, s, links, sources, depth, rng, k) ==
          EnqueueAll(w, DepthFirst, next, links[1..], sources, depth, rng, k + 1);
        EnqueueAllDepth(w, next, links[1..], sources, depth, rng, k + 1);
        var rest := Admitted(w, next.processedDomains, next.queuedDomains, links[1..], sources, depth);
        assert Admitted(w, s.processedDomains, s.queuedDomains, links, sources, depth) == [item] + rest;
        ReversePush(item, rest, s.blogsToProcess);
      } else {
        EnqueueAllDepth(w, s, links[1..], sources, depth, rng, k + 1);
      }
    }
  }

  /** Breadth first appends the admitted items in order; depth first pushes
      each to the front, so they end up before the old queue in reverse order. */
  lemma EnqueueAllOrder(w: World, strategy: Strategy, s: DiscoveryState, links: seq<string>,
                        sources: map<string, SourceInfo>, depth: int, rng: nat -> Draw, k: nat)
    requires forall x :: x in links ==> x in sources
    ensures strategy == BreadthFirst ==>
      EnqueueAll(w, strategy, s, links, sources, depth, rng, k).blogsToProcess ==
      s.blogsToProcess + Admitted(w, s.processedDomains, s.queuedDomains, links, sources, depth)
    ensures strategy == DepthFirst ==>
      EnqueueAll(w, strategy, s, links, sources, depth, rng, k).blogsToProcess ==
      Reverse(Admitted(w, s.processedDomains, s.queuedDomains, links, sources, depth)) + s.blogsToProcess
  {
    if strategy == BreadthFirst {
      EnqueueAllBreadth(w, s, links, sources, depth, rng, k);
    } else if strategy == DepthFirst {
      EnqueueAllDepth(w, s, links, sources, depth, rng, k);
    }
  }

  // ------------------------------------------------------------ the crawl

  /** What `crawl_blog` returns, with the state and the robots cache it
      leaves; the state's `blogsToProcess` is the live queue. */
  datatype Outcome = Outcome(success: bool, state: DiscoveryState, robots: map<string, Rules>)

  /** The blog's depth: one more than the parent depth of its source (0 when
      the source carries none), and 0 for a seed. */
  function BlogDepth(source: Option<SourceInfo>): int {
    match source
    case None => 0
    case Some(src) => src.parentDepth.GetOr(0) + 1
  }

  function Provenance(source: Option<SourceInfo>): Option<DiscoveredFrom> {
    match source
    case None => None
    case Some(src) => Some(DiscoveredFromSource(src))
  }

  /** The record written for a blog whose feed `feedUrl` yielded `posts`. */
  function Record(url: string, source: Option<SourceInfo>, feedUrl: string, posts: seq<Post>): BlogInfo
    requires posts != []
  {
    var latest := LatestPost(posts);
    BlogInfo(url, latest.blogName, Some(feedUrl), Some(ToBlogPost(latest)), Provenance(source), BlogDepth(source))
  }

  /** The candidate blogs linked from the posts, each with its first source. */
  function Harvest(w: World, cfg: Config, url: string, posts: seq<Post>): (f: Found)
    requires posts != []
    ensures FoundValid(f)
  {
    GatherSpec(w, cfg, url, LatestPost(posts).blogName, posts, NoFound);
    Gather(w, cfg, url, LatestPost(posts).blogName, posts, NoFound)
  }

  /** A harvested link's source is the first post that linked it. */
  lemma HarvestProvenance(w: World, cfg: Config, url: string, posts: seq<Post>, x: string)
    requires posts != [] && x in Harvest(w, cfg, url, posts).sources
    ensures exists k ::
      FirstMention(w, cfg, posts, x, k) &&
      Harvest(w, cfg, url, posts).sources[x] == PostSource(url, LatestPost(posts).blogName, posts[k])
  {
    GatherSpec(w, cfg, url, LatestPost(posts).blogName, posts, NoFound);
  }

  /** The first feed among the candidates of `url` that yields posts. */
  function Hit(w: World, maxPosts: nat, url: string): Option<(string, seq<Post>)> {
    FirstWorkingFeed(w, maxPosts, FeedCandidates(w, url).0)
  }

  /** The children a successful crawl of `url` enqueues, from the state `s`
      it started from (where `domain` was not yet processed). */
  function Children(w: World, cfg: Config, s: DiscoveryState, url: string, domain: string, source: Option<SourceInfo>,
                    hit: (string, seq<Post>)): seq<QueueItem>
    requires hit.1 != []
  {
    var found := Harvest(w, cfg, url, hit.1);
    Admitted(w, s.processedDomains + {domain}, s.queuedDomains, found.order, found.sources, BlogDepth(source))
  }

  /** The success path: write the record, then enqueue the children. */
  function Succeed(w: World, cfg: Config, strategy: Strategy, s: DiscoveryState, url: string, domain: string,
                   source: Option<SourceInfo>, hit: (string, seq<Post>), rng: nat -> Draw): DiscoveryState
    requires hit.1 != []
  {
    var record := Record(url, source, hit.0, hit.1);
    var found := Harvest(w, cfg, url, hit.1);
    EnqueueAll(w, strategy, s.(discoveredBlogs := s.discoveredBlogs[domain := record]),
               found.order, found.sources, record.depth, rng, 0)
  }

  /** The feed loop's outcome: the first working feed succeeds; when none
      works the domain fails, and its base too when it is one of the
      configured large sites. */
  function FeedLoop(w: World, cfg: Config, strategy: Strategy, maxPosts: nat, s: DiscoveryState, robots: map<string, Rules>,
                    url: string, domain: string, source: Option<SourceInfo>, feeds: seq<string>, rng: nat -> Draw): Outcome
  {
    match FirstWorkingFeed(w, maxPosts, feeds)
    case None =>
      var base := BaseDomain(domain);
      Outcome(false, s.(failedDomains := s.failedDomains + {domain},
                        failedBaseDomains := if base in cfg.blacklistBaseDomainSites then s.failedBaseDomains + {base}
                                             else s.failedBaseDomains), robots)
    case Some(hit) => Outcome(true, Succeed(w, cfg, strategy, s, url, domain, source, hit, rng), robots)
  }

  /** What follows the robots check: the blacklist rules per discovery
      status, then the feed loop. */
  function Probe(w: World, cfg: Config, strategy: Strategy, maxPosts: nat, s: DiscoveryState, robots: map<string, Rules>,
                 url: string, domain: string, source: Option<SourceInfo>, rng: nat -> Draw): Outcome
  {
    var base := BaseDomain(domain);
    var (feeds, status) := FeedCandidates(w, url);
    if status == Unreachable || status == NoBlogIndicators then
      Outcome(false, s.(failedDomains := s.failedDomains + {domain},
                        failedBaseDomains := if domain == base then s.failedBaseDomains + {base} else s.failedBaseDomains), robots)
    else if feeds == [] then
      Outcome(false, s.(failedDomains := s.failedDomains + {domain}), robots)
    else FeedLoop(w, cfg, strategy, maxPosts, s, robots, url, domain, source, feeds, rng)
  }

  /** `crawl_blog(blog_url, source_info)`: the gates, the robots check, the
      blacklist rules per discovery status, and the first working feed. */
  function Crawl(w: World, cfg: Config, strategy: Strategy, maxPosts: nat, s: DiscoveryState, robots: map<string, Rules>,
                 url: string, source: Option<SourceInfo>, rng: nat -> Draw): Outcome
  {
    var domain := ExtractDomain(w.parse, url);
    if domain == "" then Outcome(false, s, robots)
    else
      var base := BaseDomain(domain);
      if base in s.failedBaseDomains then Outcome(false, s.(processedDomains := s.processedDomains + {domain}), robots)
      else if domain in s.processedDomains then Outcome(false, s, robots)
      else
        var s1 := s.(processedDomains := s.processedDomains + {domain});
        var (allowed, robots1) := RobotsLookup(w, robots, url);
        if !allowed then Outcome(false, s1, robots1)
        else Probe(w, cfg, strategy, maxPosts, s1, robots1, url, domain, source, rng)
  }

  /** The crawl unfolded: the gates, then the robots check, then the probe.
      A proof helper: it states `Crawl`'s definition one level down. */
  lemma CrawlUnfold(w: World, cfg: Config, strategy: Strategy, maxPosts: nat, s: DiscoveryState, robots: map<string, Rules>,
                    url: string, source: Option<SourceInfo>, rng: nat -> Draw)
    ensures var o := Crawl(w, cfg, strategy, maxPosts, s, robots, url, source, rng);
      var domain := ExtractDomain(w.parse, url);
      var base := BaseDomain(domain);
      var marked := s.(processedDomains := s.processedDomains + {domain});
      var lookup := RobotsLookup(w, robots, url);
      (domain == "" ==> o == Outcome(false, s, robots)) &&
      (domain != "" && base in s.failedBaseDomains ==> o == Outcome(false, marked, robots)) &&
      (domain != "" && base !in s.failedBaseDomains && domain in s.processedDomains ==> o == Outcome(false, s, robots)) &&
      (domain != "" && base !in s.failedBaseDomains && domain !in s.processedDomains ==>
        o == if lookup.0 then Probe(w, cfg, strategy, maxPosts, marked, lookup.1, url, domain, source, rng)
             else Outcome(false, marked, lookup.1))
  {
  }

  /** The success path writes the record and changes no domain set other
      than `queued_domains`. */
  lemma SucceedSpec(w: World, cfg: Config, strategy: Strategy, s: DiscoveryState, url: string, domain: string,
                    source: Option<SourceInfo>, hit: (string, seq<Post>), rng: nat -> Draw)
    requires hit.1 != []
    ensures var t := Succeed(w, cfg, strategy, s, url, domain, source, hit, rng);
      t.discoveredBlogs == s.discoveredBlogs[domain := Record(url, source, hit.0, hit.1)] &&
      t.processedDomains == s.processedDomains &&
      t.failedDomains == s.failedDomains && t.failedBaseDomains == s.failedBaseDomains
  {
    var record := Record(url, source, hit.0, hit.1);
    var found := Harvest(w, cfg, url, hit.1);
    EnqueueAllDomains(w, strategy, s.(discoveredBlogs := s.discoveredBlogs[domain := record]),
                      found.order, found.sources, record.depth, rng, 0);
  }

  /** The feed loop succeeds exactly when some feed yields posts; otherwise
      it fails the domain, and the base when it is a configured large site. */
  lemma FeedLoopSpec(w: World, cfg: Config, strategy: Strategy, maxPosts: nat, s: DiscoveryState, robots: map<string, Rules>,
                     url: string, domain: string, source: Option<SourceInfo>, feeds: seq<string>, rng: nat -> Draw)
    ensures var o := FeedLoop(w, cfg, strategy, maxPosts, s, robots, url, domain, source, feeds, rng);
      o.robots == robots && o.state.processedDomains == s.processedDomains &&
      (o.success <==> FirstWorkingFeed(w, maxPosts, feeds).Some?)
    ensures FirstWorkingFeed(w, maxPosts, feeds).Some? ==>
      var hit := FirstWorkingFeed(w, maxPosts, feeds).value;
      var t := FeedLoop(w, cfg, strategy, maxPosts, s, robots, url, domain, source, feeds, rng).state;
      t == Succeed(w, cfg, strategy, s, url, domain, source, hit, rng) &&
      t.discoveredBlogs == s.discoveredBlogs[domain := Record(url, source, hit.0, hit.1)] &&
      t.failedDomains == s.failedDomains && t.failedBaseDomains == s.failedBaseDomains
    ensures FirstWorkingFeed(w, maxPosts, feeds).None? ==>
      var base := BaseDomain(domain);
      var t := FeedLoop(w, cfg, strategy, maxPosts, s, robots, url, domain, source, feeds, rng).state;
      t.discoveredBlogs == s.discoveredBlogs && t.blogsToProcess == s.blogsToProcess &&
      t.queuedDomains == s.queuedDomains && t.failedDomains == s.failedDomains + {domain} &&
      t.failedBaseDomains == if base in cfg.blacklistBaseDomainSites then s.failedBaseDomains + {base} else s.failedBaseDomains
  {
    match FirstWorkingFeed(w, maxPosts, feeds)
    case None =>
    case Some(hit) =>
      SucceedSpec(w, cfg, strategy, s, url, domain, source, hit, rng);
  }

  /** The probe succeeds exactly when some candidate feed yields posts, keeps
      the processed domains and the robots cache, and on failure fails the
      domain and blacklists the base by the rule of the discovery status. */
  lemma ProbeSpec(w: World, cfg: Config, strategy: Strategy, maxPosts: nat, s: DiscoveryState, robots: map<string, Rules>,
                  url: string, domain: string, source: Option<SourceInfo>, rng: nat -> Draw)
    ensures var o := Probe(w, cfg, strategy, maxPosts, s, robots, url, domain, source, rng);
      var base := BaseDomain(domain);
      o.robots == robots && o.state.processedDomains == s.processedDomains &&
      (o.success <==> Hit(w, maxPosts, url).Some?) &&
      (o.success ==>
        var hit := Hit(w, maxPosts, url).value;
        o.state == Succeed(w, cfg, strategy, s, url, domain, source, hit, rng) &&
        o.state.discoveredBlogs == s.discoveredBlogs[domain := Record(url, source, hit.0, hit.1)] &&
        o.state.failedDomains == s.failedDomains && o.state.failedBaseDomains == s.failedBaseDomains) &&
      (!o.success ==>
        o.state.discoveredBlogs == s.discoveredBlogs && o.state.blogsToProcess == s.blogsToProcess &&
        o.state.queuedDomains == s.queuedDomains && o.state.failedDomains == s.failedDomains + {domain} &&
        (FeedCandidates(w, url).1 == Unreachable ==>
          o.state.failedBaseDomains == if domain == base then s.failedBaseDomains + {base} else s.failedBaseDomains) &&
        (FeedCandidates(w, url).1 != Unreachable ==>
          o.state.failedBaseDomains ==
            if base in cfg.blacklistBaseDomainSites then s.failedBaseDomains + {base} else s.failedBaseDomains))
  {
    DiscoverFeedsOutcome(w, url);
    var feeds := FeedCandidates(w, url).0;
    var status := FeedCandidates(w, url).1;
    if status == Success {
      FeedLoopSpec(w, cfg, strategy, maxPosts, s, robots, url, domain, source, feeds, rng);
    } else {
      assert feeds == [];
    }
  }

  /** The gates, in order: no domain changes nothing; a blacklisted base marks
      the domain processed and stops; a processed domain changes nothing;
      otherwise the domain is processed before robots.txt is consulted, and a
      denial leaves it processed but not failed. */
  lemma CrawlGates(w: World, cfg: Config, strategy: Strategy, maxPosts: nat, s: DiscoveryState, robots: map<string, Rules>,
                   url: string, source: Option<SourceInfo>, rng: nat -> Draw)
    ensures var o := Crawl(w, cfg, strategy, maxPosts, s, robots, url, source, rng);
      var domain := ExtractDomain(w.parse, url);
      var base := BaseDomain(domain);
      var marked := s.(processedDomains := s.processedDomains + {domain});
      (domain == "" ==> o == Outcome(false, s, robots)) &&
      (domain != "" && base in s.failedBaseDomains ==> o == Outcome(false, marked, robots)) &&
      (domain != "" && base !in s.failedBaseDomains && domain in s.processedDomains ==> o == Outcome(false, s, robots)) &&
      (domain != "" && base !in s.failedBaseDomains && domain !in s.processedDomains ==>
        domain in o.state.processedDomains && o.robots == RobotsLookup(w, robots, url).1 &&
        (!RobotsLookup(w, robots, url).0 ==> o == Outcome(false, marked, o.robots)))
  {
    CrawlUnfold(w, cfg, strategy, maxPosts, s, robots, url, source, rng);
    var domain := ExtractDomain(w.parse, url);
    var lookup := RobotsLookup(w, robots, url);
    if domain != "" && BaseDomain(domain) !in s.failedBaseDomains && domain !in s.processedDomains && lookup.0 {
      ProbeSpec(w, cfg, strategy, maxPosts, s.(processedDomains := s.processedDomains + {domain}), lookup.1, url, domain, source, rng);
    }
  }

  /** A state is consistent when every discovered blog's domain is processed. */
  ghost predicate Consistent(s: DiscoveryState) {
    forall d :: d in s.discoveredBlogs ==> d in s.processedDomains
  }

  /** `b` extends `a`: the domain sets only grew and no record was replaced. */
  ghost predicate Extends(a: DiscoveryState, b: DiscoveryState) {
    a.processedDomains <= b.processedDomains &&
    a.failedDomains <= b.failedDomains &&
    a.failedBaseDomains <= b.failedBaseDomains &&
    forall d :: d in a.discoveredBlogs ==> d in b.discoveredBlogs && b.discoveredBlogs[d] == a.discoveredBlogs[d]
  }

  lemma ExtendsTrans(a: DiscoveryState, b: DiscoveryState, c: DiscoveryState)
    requires Extends(a, b) && Extends(b, c)
    ensures Extends(a, c)
  {
  }

  /** The domain sets only grow, consistency is kept, and a record once written
      is never replaced: a crawl writes at most one record, for a domain that
      was not processed before. */
  lemma CrawlMonotone(w: World, cfg: Config, strategy: Strategy, maxPosts: nat, s: DiscoveryState, robots: map<string, Rules>,
                      url: string, source: Option<SourceInfo>, rng: nat -> Draw)
    requires Consistent(s)
    ensures var o := Crawl(w, cfg, strategy, maxPosts, s, robots, url, source, rng);
      Extends(s, o.state) &&
      Consistent(o.state) &&
      o.state.discoveredBlogs.Keys <= s.discoveredBlogs.Keys + {ExtractDomain(w.parse, url)} &&
      |o.state.discoveredBlogs| <= |s.discoveredBlogs| + 1
  {
    CrawlUnfold(w, cfg, strategy, maxPosts, s, robots, url, source, rng);
    var domain := ExtractDomain(w.parse, url);
    var lookup := RobotsLookup(w, robots, url);
    if domain != "" && BaseDomain(domain) !in s.failedBaseDomains && domain !in s.processedDomains && lookup.0 {
      var marked := s.(processedDomains := s.processedDomains + {domain});
      ProbeMonotone(w, cfg, strategy, maxPosts, marked, lookup.1, url, domain, source, rng);
      var o := Probe(w, cfg, strategy, maxPosts, marked, lookup.1, url, domain, source, rng);
      ExtendsTrans(s, marked, o.state);
    }
  }

  /** A probe of a freshly processed domain writes at most its one record. */
  lemma ProbeMonotone(w: World, cfg: Config, strategy: Strategy, maxPosts: nat, s: DiscoveryState, robots: map<string, Rules>,
                      url: string, domain: string, source: Option<SourceInfo>, rng: nat -> Draw)
    requires Consistent(s) && domain in s.processedDomains && domain !in s.discoveredBlogs
    ensures var o := Probe(w, cfg, strategy, maxPosts, s, robots, url, domain, source, rng);
      Extends(s, o.state) && Consistent(o.state) &&
      o.state.discoveredBlogs.Keys <= s.discoveredBlogs.Keys + {domain} &&
      |o.state.discoveredBlogs| <= |s.discoveredBlogs| + 1
  {
    ProbeSpec(w, cfg, strategy, maxPosts, s, robots, url, domain, source, rng);
  }

  /** Whatever the state, a crawl never removes a processed domain. */
  lemma CrawlProcessed(w: World, cfg: Config, strategy: Strategy, maxPosts: nat, s: DiscoveryState, robots: map<string, Rules>,
                       url: string, source: Option<SourceInfo>, rng: nat -> Draw)
    ensures s.processedDomains <= Crawl(w, cfg, strategy, maxPosts, s, robots, url, source, rng).state.processedDomains
  {
    CrawlSuccess(w, cfg, strategy, maxPosts, s, robots, url, source, rng);
    CrawlBlacklist(w, cfg, strategy, maxPosts, s, robots, url, source, rng);
  }

  /** What a crawl does to the records, the processed domains and the queue,
      in brief: a success marks the unprocessed domain processed and records
      it; a failure records nothing and enqueues nothing. */
  lemma CrawlFootprint(w: World, cfg: Config, strategy: Strategy, maxPosts: nat, s: DiscoveryState, robots: map<string, Rules>,
                       url: string, source: Option<SourceInfo>, rng: nat -> Draw)
    ensures var o := Crawl(w, cfg, strategy, maxPosts, s, robots, url, source, rng);
      var d := ExtractDomain(w.parse, url);
      s.processedDomains <= o.state.processedDomains &&
      (o.success ==>
        d !in s.processedDomains && o.state.processedDomains == s.processedDomains + {d} &&
        o.state.discoveredBlogs.Keys == s.discoveredBlogs.Keys + {d}) &&
      (!o.success ==> o.state.discoveredBlogs == s.discoveredBlogs && o.state.blogsToProcess == s.blogsToProcess)
  {
    CrawlSuccess(w, cfg, strategy, maxPosts, s, robots, url, source, rng);
    CrawlProcessed(w, cfg, strategy, maxPosts, s, robots, url, source, rng);
  }

  /** From a consistent state, a crawl adds exactly one record when it
      succeeds and none when it fails. */
  lemma CrawlCount(w: World, cfg: Config, strategy: Strategy, maxPosts: nat, s: DiscoveryState, robots: map<string, Rules>,
                   url: string, source: Option<SourceInfo>, rng: nat -> Draw)
    requires Consistent(s)
    ensures var o := Crawl(w, cfg, strategy, maxPosts, s, robots, url, source, rng);
      |o.state.discoveredBlogs| == |s.discoveredBlogs| + (if o.success then 1 else 0)
  {
    CrawlSuccess(w, cfg, strategy, maxPosts, s, robots, url, source, rng);
  }

  /** A crawl succeeds exactly when it passes the gates and robots.txt and
      some candidate feed yields posts; it then writes the record built from
      the first such feed, and a failed crawl leaves the records, the queue
      and `queued_domains` alone. */
  lemma CrawlSuccess(w: World, cfg: Config, strategy: Strategy, maxPosts: nat, s: DiscoveryState, robots: map<string, Rules>,
                     url: string, source: Option<SourceInfo>, rng: nat -> Draw)
    ensures var o := Crawl(w, cfg, strategy, maxPosts, s, robots, url, source, rng);
      var domain := ExtractDomain(w.parse, url);
      (o.success <==>
        domain != "" && BaseDomain(domain) !in s.failedBaseDomains && domain !in s.processedDomains &&
        RobotsLookup(w, robots, url).0 && Hit(w, maxPosts, url).Some?) &&
      (o.success ==>
        var hit := Hit(w, maxPosts, url).value;
        o.state.discoveredBlogs == s.discoveredBlogs[domain := Record(url, source, hit.0, hit.1)] &&
        o.state.processedDomains == s.processedDomains + {domain} &&
        o.state.failedDomains == s.failedDomains && o.state.failedBaseDomains == s.failedBaseDomains) &&
      (!o.success ==>
        o.state.discoveredBlogs == s.discoveredBlogs && o.state.blogsToProcess == s.blogsToProcess &&
        o.state.queuedDomains == s.queuedDomains)
  {
    CrawlUnfold(w, cfg, strategy, maxPosts, s, robots, url, source, rng);
    var domain := ExtractDomain(w.parse, url);
    var lookup := RobotsLookup(w, robots, url);
    if domain != "" && BaseDomain(domain) !in s.failedBaseDomains && domain !in s.processedDomains && lookup.0 {
      ProbeSpec(w, cfg, strategy, maxPosts, s.(processedDomains := s.processedDomains + {domain}), lookup.1, url, domain, source, rng);
    }
  }

  /** The blacklists: an unreachable site fails its domain, and its base only
      when the domain is the base itself; a site with candidates but no
      working feed fails its domain, and its base only when the base is one of
      the configured large sites. So a subdomain of an ordinary site never
      blacklists its base, and nothing else is ever added. */
  lemma CrawlBlacklist(w: World, cfg: Config, strategy: Strategy, maxPosts: nat, s: DiscoveryState, robots: map<string, Rules>,
                       url: string, source: Option<SourceInfo>, rng: nat -> Draw)
    ensures var o := Crawl(w, cfg, strategy, maxPosts, s, robots, url, source, rng);
      var domain := ExtractDomain(w.parse, url);
      var base := BaseDomain(domain);
      var reached := domain != "" && base !in s.failedBaseDomains && domain !in s.processedDomains && RobotsLookup(w, robots, url).0;
      o.state.failedDomains <= s.failedDomains + {domain} &&
      o.state.failedBaseDomains <= s.failedBaseDomains + {base} &&
      (reached && FeedCandidates(w, url).1 == Unreachable ==>
        domain in o.state.failedDomains &&
        (base in o.state.failedBaseDomains <==> domain == base)) &&
      (reached && FeedCandidates(w, url).1 != Unreachable && Hit(w, maxPosts, url).None? ==>
        domain in o.state.failedDomains &&
        (base in o.state.failedBaseDomains <==> base in cfg.blacklistBaseDomainSites)) &&
      (domain != base && base !in cfg.blacklistBaseDomainSites ==> o.state.failedBaseDomains == s.failedBaseDomains) &&
      (!reached ==> o.state.failedDomains == s.failedDomains && o.state.failedBaseDomains == s.failedBaseDomains)
  {
    CrawlUnfold(w, cfg, strategy, maxPosts, s, robots, url, source, rng);
    var domain := ExtractDomain(w.parse, url);
    var lookup := RobotsLookup(w, robots, url);
    if domain != "" && BaseDomain(domain) !in s.failedBaseDomains && domain !in s.processedDomains && lookup.0 {
      ProbeSpec(w, cfg, strategy, maxPosts, s.(processedDomains := s.processedDomains + {domain}), lookup.1, url, domain, source, rng);
    }
  }

  /** On success the queue gains exactly the children (appended in order
      breadth first), and their domains join `queued_domains`. */
  lemma CrawlEnqueues(w: World, cfg: Config, strategy: Strategy, maxPosts: nat, s: DiscoveryState, robots: map<string, Rules>,
                      url: string, source: Option<SourceInfo>, rng: nat -> Draw)
    ensures var o := Crawl(w, cfg, strategy, maxPosts, s, robots, url, source, rng);
      o.success ==>
        Hit(w, maxPosts, url).Some? &&
        (var kids := Children(w, cfg, s, url, ExtractDomain(w.parse, url), source, Hit(w, maxPosts, url).value);
         o.state.queuedDomains == s.queuedDomains + Domains(w, kids) &&
         multiset(o.state.blogsToProcess) == multiset(s.blogsToProcess) + multiset(kids) &&
         (strategy == BreadthFirst ==> o.state.blogsToProcess == s.blogsToProcess + kids) &&
         (strategy == DepthFirst ==> o.state.blogsToProcess == Reverse(kids) + s.blogsToProcess))
  {
    CrawlUnfold(w, cfg, strategy, maxPosts, s, robots, url, source, rng);
    var o := Crawl(w, cfg, strategy, maxPosts, s, robots, url, source, rng);
    var domain := ExtractDomain(w.parse, url);
    var lookup := RobotsLookup(w, robots, url);
    if domain != "" && BaseDomain(domain) !in s.failedBaseDomains && domain !in s.processedDomains && lookup.0 {
      var s1 := s.(processedDomains := s.processedDomains + {domain});
      ProbeSpec(w, cfg, strategy, maxPosts, s1, lookup.1, url, domain, source, rng);
      if o.success {
        var hit := Hit(w, maxPosts, url).value;
        var record := Record(url, source, hit.0, hit.1);
        var found := Harvest(w, cfg, url, hit.1);
        var s2 := s1.(discoveredBlogs := s1.discoveredBlogs[domain := record]);
        assert o.state == EnqueueAll(w, strategy, s2, found.order, found.sources, record.depth, rng, 0);
        EnqueueAllDomains(w, strategy, s2, found.order, found.sources, record.depth, rng, 0);
        EnqueueAllQueue(w, strategy, s2, found.order, found.sources, record.depth, rng, 0);
        EnqueueAllOrder(w, strategy, s2, found.order, found.sources, record.depth, rng, 0);
      }
    }
  }

  /** The children have pairwise distinct domains, none empty, none processed
      or queued before the crawl and none the crawled domain itself, so no
      domain is enqueued twice; each is one level deeper than the crawled blog. */
  lemma ChildrenFresh(w: World, cfg: Config, s: DiscoveryState, url: string, domain: string, source: Option<SourceInfo>,
                      hit: (string, seq<Post>))
    requires hit.1 != []
    ensures DistinctDomains(w, Children(w, cfg, s, url, domain, source, hit))
    ensures forall item :: item in Children(w, cfg, s, url, domain, source, hit) ==>
      ItemDomain(w, item) != "" && ItemDomain(w, item) != domain &&
      ItemDomain(w, item) !in s.processedDomains && ItemDomain(w, item) !in s.queuedDomains &&
      BlogDepth(item.source) == BlogDepth(source) + 1
  {
    var found := Harvest(w, cfg, url, hit.1);
    var depth := BlogDepth(source);
    AdmittedSpec(w, s.processedDomains + {domain}, s.queuedDomains, found.order, found.sources, depth);
    var kids := Children(w, cfg, s, url, domain, source, hit);
    assert kids == Admitted(w, s.processedDomains + {domain}, s.queuedDomains, found.order, found.sources, depth);
    forall item | item in kids
      ensures BlogDepth(item.source) == depth + 1
    {
      assert AdmittedItem(w, s.processedDomains + {domain}, s.queuedDomains, found.order, found.sources, depth, item);
    }
  }

  /** Each child's source is the first post that linked it. */
  lemma ChildrenProvenance(w: World, cfg: Config, s: DiscoveryState, url: string, domain: string, source: Option<SourceInfo>,
                           hit: (string, seq<Post>))
    requires hit.1 != []
    ensures forall item :: item in Children(w, cfg, s, url, domain, source, hit) ==>
      item.source.Some? &&
      exists k ::
        (FirstMention(w, cfg, hit.1, item.url, k) &&
         item.source.value == ChildSource(PostSource(url, LatestPost(hit.1).blogName, hit.1[k]), BlogDepth(source)))
  {
    var name := LatestPost(hit.1).blogName;
    var found := Harvest(w, cfg, url, hit.1);
    var depth := BlogDepth(source);
    AdmittedSpec(w, s.processedDomains + {domain}, s.queuedDomains, found.order, found.sources, depth);
    var kids := Children(w, cfg, s, url, domain, source, hit);
    assert kids == Admitted(w, s.processedDomains + {domain}, s.queuedDomains, found.order, found.sources, depth);
    forall item | item in kids
      ensures item.source.Some? && exists k ::
        (FirstMention(w, cfg, hit.1, item.url, k) &&
         item.source.value == ChildSource(PostSource(url, name, hit.1[k]), depth))
    {
      assert AdmittedItem(w, s.processedDomains + {domain}, s.queuedDomains, found.order, found.sources, depth, item);
      HarvestProvenance(w, cfg, url, hit.1, item.url);
    }
  }

  /** Every blog linked from the posts whose domain is new ends up queued. */
  lemma ChildrenComplete(w: World, cfg: Config, s: DiscoveryState, url: string, domain: string, source: Option<SourceInfo>,
                         hit: (string, seq<Post>))
    requires hit.1 != []
    ensures forall k, x ::
      (0 <= k < |hit.1| && x in PostLinks(w, cfg, hit.1[k]) &&
       ExtractDomain(w.parse, x) != "" && ExtractDomain(w.parse, x) !in s.processedDomains + {domain}) ==>
      ExtractDomain(w.parse, x) in s.queuedDomains + Domains(w, Children(w, cfg, s, url, domain, source, hit))
  {
    var name := LatestPost(hit.1).blogName;
    var found := Harvest(w, cfg, url, hit.1);
    GatherSpec(w, cfg, url, name, hit.1, NoFound);
    AdmittedSpec(w, s.processedDomains + {domain}, s.queuedDomains, found.order, found.sources, BlogDepth(source));
  }
}
