// The discovery loop: seed the queue, then pop and crawl until the queue is
// empty or the budget of blogs is met, saving a checkpoint every few
// successes and once at the end.

module Discovery {
  import opened Wrappers
  import opened Web
  import opened Settings
  import opened DomainUtils
  import opened Validation
  import opened Models
  import opened Scheduler
  import opened Crawl

  /** The loop's variables: the state (whose `blogsToProcess` is the live
      queue), the robots cache, the successes since the last checkpoint, the
      checkpoints saved so far, and the attempts and successes counted. */
  datatype Run = Run(
    state: DiscoveryState,
    robots: map<string, Rules>,
    sinceCheckpoint: int,
    saves: seq<DiscoveryState>,
    attempts: nat,
    successes: nat)

  /** `{extract_domain(url) for url, _ in queue if extract_domain(url)}`. */
  function QueueDomains(w: World, queue: seq<QueueItem>): set<string> {
    if queue == [] then {}
    else (if ItemDomain(w, queue[0]) != "" then {ItemDomain(w, queue[0])} else {}) + QueueDomains(w, queue[1..])
  }

  /** The rebuilt set holds exactly the non-empty domains of the queue. */
  lemma {:induction false} QueueDomainsSpec(w: World, queue: seq<QueueItem>, d: string)
    ensures d in QueueDomains(w, queue) <==> d != "" && exists i :: 0 <= i < |queue| && ItemDomain(w, queue[i]) == d
  {
    if queue != [] {
      QueueDomainsSpec(w, queue[1..], d);
      if exists i :: 0 <= i < |queue[1..]| && ItemDomain(w, queue[1..][i]) == d {
        var i :| 0 <= i < |queue[1..]| && ItemDomain(w, queue[1..][i]) == d;
        assert queue[i + 1] == queue[1..][i];
      }
      if exists i :: 0 <= i < |queue| && ItemDomain(w, queue[i]) == d {
        var i :| 0 <= i < |queue| && ItemDomain(w, queue[i]) == d;
        if i > 0 {
          assert queue[1..][i - 1] == queue[i];
        }
      }
    }
  }

  /** The seed loop: a seed whose domain is not processed is queued with no source. */
  function SeedItems(w: World, processed: set<string>, seeds: seq<string>): seq<QueueItem> {
    if seeds == [] then []
    else
      (if ExtractDomain(w.parse, seeds[0]) !in processed then [QueueItem(seeds[0], None)] else [])
      + SeedItems(w, processed, seeds[1..])
  }

  /** One step of the seed loop; a proof helper for the seeding loops. */
  lemma SeedItemsStep(w: World, processed: set<string>, seeds: seq<string>, i: nat)
    requires i < |seeds|
    ensures SeedItems(w, processed, seeds[i..]) ==
      (if ExtractDomain(w.parse, seeds[i]) !in processed then [QueueItem(seeds[i], None)] else []) +
      SeedItems(w, processed, seeds[i + 1..])
  {
    assert seeds[i..][1..] == seeds[i + 1..];
  }

  /** The rebuild written as Python's set comprehension gives the same set. */
  lemma QueueDomainsComprehension(w: World, queue: seq<QueueItem>)
    ensures QueueDomains(w, queue) ==
      set i | 0 <= i < |queue| && ItemDomain(w, queue[i]) != "" :: ItemDomain(w, queue[i])
  {
    var comprehension := set i | 0 <= i < |queue| && ItemDomain(w, queue[i]) != "" :: ItemDomain(w, queue[i]);
    forall d ensures d in QueueDomains(w, queue) <==> d in comprehension {
      QueueDomainsSpec(w, queue, d);
    }
  }

  /** Exactly the seeds with an unprocessed domain are queued, each once per
      occurrence, in seed order and with no source. */
  lemma {:induction false} SeedItemsSpec(w: World, processed: set<string>, seeds: seq<string>)
    ensures var items := SeedItems(w, processed, seeds);
      |items| <= |seeds| &&
      (forall i :: 0 <= i < |items| ==> items[i].source.None? && ExtractDomain(w.parse, items[i].url) !in processed) &&
      (forall u :: u in seeds && ExtractDomain(w.parse, u) !in processed ==> QueueItem(u, None) in items) &&
      (forall it :: it in items ==> it.url in seeds)
  {
    if seeds != [] {
      SeedItemsSpec(w, processed, seeds[1..]);
      var items := SeedItems(w, processed, seeds);
      var rest := SeedItems(w, processed, seeds[1..]);
      var head := if ExtractDomain(w.parse, seeds[0]) !in processed then [QueueItem(seeds[0], None)] else [];
      assert items == head + rest;
      forall i | 0 <= i < |items| ensures items[i].source.None? && ExtractDomain(w.parse, items[i].url) !in processed {
        if i >= |head| {
          assert items[i] == rest[i - |head|];
        }
      }
      assert forall u :: u in seeds ==> u == seeds[0] || u in seeds[1..];
    }
  }

  /** The state the loop starts from: seeds appended, `queued_domains`
      rebuilt from the whole queue. */
  function Start(w: World, s: DiscoveryState, seeds: seq<string>): DiscoveryState {
    var queue := s.blogsToProcess + SeedItems(w, s.processedDomains, seeds);
    s.(blogsToProcess := queue, queuedDomains := QueueDomains(w, queue))
  }

  /** The queue with its front item popped and that item's domain discarded
      from `queued_domains`, as the loop does before each crawl. */
  function Pop(w: World, s: DiscoveryState): DiscoveryState
    requires s.blogsToProcess != []
  {
    s.(blogsToProcess := s.blogsToProcess[1..],
       queuedDomains := s.queuedDomains - {ItemDomain(w, s.blogsToProcess[0])})
  }

  /** The loop's bookkeeping after a crawl: count the attempt, and count a
      success toward the next checkpoint, saving one when
      `checkpointInterval` successes have accumulated. */
  function Advance(r: Run, o: Outcome, interval: int): Run {
    if !o.success then Run(o.state, o.robots, r.sinceCheckpoint, r.saves, r.attempts + 1, r.successes)
    else if r.sinceCheckpoint + 1 >= interval then Run(o.state, o.robots, 0, r.saves + [o.state], r.attempts + 1, r.successes + 1)
    else Run(o.state, o.robots, r.sinceCheckpoint + 1, r.saves, r.attempts + 1, r.successes + 1)
  }

  /** One iteration: pop the front item, crawl it, and do the bookkeeping. */
  function Step(w: World, cfg: Config, strategy: Strategy, maxPosts: nat, interval: int, r: Run, rng: nat -> Draw): Run
    requires r.state.blogsToProcess != []
  {
    var item := r.state.blogsToProcess[0];
    Advance(r, Crawl.Crawl(w, cfg, strategy, maxPosts, Pop(w, r.state), r.robots, item.url, item.source, rng), interval)
  }

  /** The loop condition. */
  predicate Continues(r: Run, maxBlogs: int) {
    r.state.blogsToProcess != [] && |r.state.discoveredBlogs| < maxBlogs
  }

  /** What is left of the budget: the records still to be found, plus the
      records whose domain is not marked processed (none in a consistent
      state). Every successful crawl uses up one unit. */
  function Budget(s: DiscoveryState, maxBlogs: int): nat {
    BudgetOf(s.discoveredBlogs.Keys, s.processedDomains, maxBlogs)
  }

  function BudgetOf<T>(keys: set<T>, processed: set<T>, maxBlogs: int): nat {
    (if |keys| < maxBlogs then maxBlogs - |keys| else 0) + |keys - processed|
  }

  lemma SubsetCard<T>(a: set<T>, b: set<T>)
    requires a <= b
    ensures |a| <= |b|
    decreases a
  {
    if a != {} {
      var x :| x in a;
      SubsetCard(a - {x}, b - {x});
    }
  }

  /** The budget over the record keys and the processed set: recording a
      new key or marking a recorded key processed uses up a unit, and marking
      more keys processed without recording any adds none. */
  lemma BudgetOfProgress<T>(keys: set<T>, processed: set<T>, newKeys: set<T>, newProcessed: set<T>, success: bool, d: T,
                            maxBlogs: int)
    requires |keys| < maxBlogs
    requires processed <= newProcessed
    requires !success ==> newKeys == keys
    requires success ==> d !in processed && newProcessed == processed + {d} && newKeys == keys + {d}
    ensures success ==> BudgetOf(newKeys, newProcessed, maxBlogs) < BudgetOf(keys, processed, maxBlogs)
    ensures !success ==> BudgetOf(newKeys, newProcessed, maxBlogs) <= BudgetOf(keys, processed, maxBlogs)
  {
    var open := keys - processed;
    var newOpen := newKeys - newProcessed;
    if success {
      if d in keys {
        assert newKeys == keys;
        assert newOpen == open - {d};
        assert d in open;
      } else {
        assert |newKeys| == |keys| + 1;
        assert newOpen == open;
      }
    } else {
      SubsetCard(newOpen, open);
    }
  }

  /** The budget after one crawl: a success, which marks processed a domain
      that was not and records it, uses up a unit; a failure, which records
      nothing, uses up none and adds none. */
  lemma BudgetProgress(before: DiscoveryState, after: DiscoveryState, success: bool, d: string, maxBlogs: int)
    requires |before.discoveredBlogs| < maxBlogs
    requires before.processedDomains <= after.processedDomains
    requires !success ==> after.discoveredBlogs == before.discoveredBlogs
    requires success ==>
      d !in before.processedDomains && after.processedDomains == before.processedDomains + {d} &&
      after.discoveredBlogs.Keys == before.discoveredBlogs.Keys + {d}
    ensures success ==> Budget(after, maxBlogs) < Budget(before, maxBlogs)
    ensures !success ==> Budget(after, maxBlogs) <= Budget(before, maxBlogs)
  {
    BudgetOfProgress(before.discoveredBlogs.Keys, before.processedDomains, after.discoveredBlogs.Keys, after.processedDomains,
                     success, d, maxBlogs);
  }

  /** Each iteration makes progress: a success uses up a unit of the budget,
      and a failure leaves the budget no larger and the queue one shorter
      (a failed crawl enqueues nothing). So the loop always ends. */
  lemma StepProgress(w: World, cfg: Config, strategy: Strategy, maxPosts: nat, maxBlogs: int, interval: int, r: Run, rng: nat -> Draw)
    requires Continues(r, maxBlogs)
    ensures var next := Step(w, cfg, strategy, maxPosts, interval, r, rng);
      Budget(next.state, maxBlogs) < Budget(r.state, maxBlogs) ||
      (Budget(next.state, maxBlogs) == Budget(r.state, maxBlogs) && |next.state.blogsToProcess| < |r.state.blogsToProcess|)
  {
    var item := r.state.blogsToProcess[0];
    var popped := Pop(w, r.state);
    CrawlFootprint(w, cfg, strategy, maxPosts, popped, r.robots, item.url, item.source, rng);
    var o := Crawl.Crawl(w, cfg, strategy, maxPosts, popped, r.robots, item.url, item.source, rng);
    assert Step(w, cfg, strategy, maxPosts, interval, r, rng).state == o.state;
    var d := ExtractDomain(w.parse, item.url);
    BudgetProgress(popped, o.state, o.success, d, maxBlogs);
    assert Budget(popped, maxBlogs) == Budget(r.state, maxBlogs);
  }

  /** The loop: while the queue is non-empty and the budget is not met; the
      iteration with attempt count `n` draws from `rngs(n)`. */
  function Loop(w: World, cfg: Config, strategy: Strategy, maxPosts: nat, maxBlogs: int, interval: int, r: Run,
                rngs: nat -> nat -> Draw): Run
    decreases Budget(r.state, maxBlogs), |r.state.blogsToProcess|
  {
    if !Continues(r, maxBlogs) then r
    else
      StepProgress(w, cfg, strategy, maxPosts, maxBlogs, interval, r, rngs(r.attempts));
      Loop(w, cfg, strategy, maxPosts, maxBlogs, interval, Step(w, cfg, strategy, maxPosts, interval, r, rngs(r.attempts)), rngs)
  }

  /** An iteration is the bookkeeping applied to the crawl of the popped
      item; a proof helper that unfolds `Step`. */
  lemma StepIsAdvance(w: World, cfg: Config, strategy: Strategy, maxPosts: nat, interval: int, r: Run, rng: nat -> Draw, o: Outcome)
    requires r.state.blogsToProcess != []
    requires o == Crawl.Crawl(w, cfg, strategy, maxPosts, Pop(w, r.state), r.robots,
                              r.state.blogsToProcess[0].url, r.state.blogsToProcess[0].source, rng)
    ensures Step(w, cfg, strategy, maxPosts, interval, r, rng) == Advance(r, o, interval)
  {
  }

  /** The loop runs an iteration while it continues, and stops otherwise; a
      proof helper that unfolds `Loop` once. */
  lemma LoopUnfold(w: World, cfg: Config, strategy: Strategy, maxPosts: nat, maxBlogs: int, interval: int, r: Run,
                   rngs: nat -> nat -> Draw)
    ensures Continues(r, maxBlogs) ==>
      Loop(w, cfg, strategy, maxPosts, maxBlogs, interval, r, rngs) ==
      Loop(w, cfg, strategy, maxPosts, maxBlogs, interval, Step(w, cfg, strategy, maxPosts, interval, r, rngs(r.attempts)), rngs)
    ensures !Continues(r, maxBlogs) ==> Loop(w, cfg, strategy, maxPosts, maxBlogs, interval, r, rngs) == r
  {
  }

  /** `run_discovery(seed_blogs)`: seed, loop, and save a final checkpoint. */
  function RunDiscovery(w: World, cfg: Config, strategy: Strategy, maxPosts: nat, maxBlogs: int, interval: int,
                        s: DiscoveryState, robots: map<string, Rules>, seeds: seq<string>, rngs: nat -> nat -> Draw): Run
  {
    var r := Loop(w, cfg, strategy, maxPosts, maxBlogs, interval, Run(Start(w, s, seeds), robots, 0, [], 0, 0), rngs);
    r.(saves := r.saves + [r.state])
  }

  /** What the loop keeps: a consistent state, each success adding exactly
      one record, and the checkpoint count (`saves` full intervals, plus the
      successes since the last save). */
  ghost predicate Invariant(r: Run, initialBlogs: nat, interval: int) {
    Consistent(r.state) &&
    |r.state.discoveredBlogs| == initialBlogs + r.successes &&
    0 <= r.sinceCheckpoint < Max(1, interval) &&
    r.successes == |r.saves| * Max(1, interval) + r.sinceCheckpoint
  }

  /** The bookkeeping keeps the invariant when the crawl kept the state
      consistent and added a record exactly when it succeeded. */
  lemma AdvanceSpec(r: Run, o: Outcome, interval: int, initialBlogs: nat)
    requires Invariant(r, initialBlogs, interval)
    requires Consistent(o.state)
    requires |o.state.discoveredBlogs| == |r.state.discoveredBlogs| + (if o.success then 1 else 0)
    ensures Invariant(Advance(r, o, interval), initialBlogs, interval)
    ensures Advance(r, o, interval).attempts == r.attempts + 1
  {
  }

  /** One iteration keeps the invariant, grows the domain sets, never
      replaces a record, and adds one attempt. */
  lemma StepSpec(w: World, cfg: Config, strategy: Strategy, maxPosts: nat, interval: int, r: Run, rng: nat -> Draw, initialBlogs: nat)
    requires r.state.blogsToProcess != []
    requires Invariant(r, initialBlogs, interval)
    ensures var next := Step(w, cfg, strategy, maxPosts, interval, r, rng);
      Invariant(next, initialBlogs, interval) &&
      next.attempts == r.attempts + 1 &&
      Extends(r.state, next.state)
  {
    var item := r.state.blogsToProcess[0];
    var popped := Pop(w, r.state);
    assert Consistent(popped) && Extends(r.state, popped) && |popped.discoveredBlogs| == |r.state.discoveredBlogs|;
    CrawlMonotone(w, cfg, strategy, maxPosts, popped, r.robots, item.url, item.source, rng);
    CrawlCount(w, cfg, strategy, maxPosts, popped, r.robots, item.url, item.source, rng);
    var o := Crawl.Crawl(w, cfg, strategy, maxPosts, popped, r.robots, item.url, item.source, rng);
    ExtendsTrans(r.state, popped, o.state);
    AdvanceSpec(r, o, interval, initialBlogs);
    StepIsAdvance(w, cfg, strategy, maxPosts, interval, r, rng, o);
  }

  /** The loop keeps the invariant and ends with the queue empty or the
      budget met; it never goes past the budget it started under. */
  lemma {:induction false} LoopSpec(w: World, cfg: Config, strategy: Strategy, maxPosts: nat, maxBlogs: int, interval: int, r: Run,
                                    rngs: nat -> nat -> Draw, initialBlogs: nat)
    requires Invariant(r, initialBlogs, interval)
    ensures var e := Loop(w, cfg, strategy, maxPosts, maxBlogs, interval, r, rngs);
      Invariant(e, initialBlogs, interval) &&
      r.attempts <= e.attempts &&
      !Continues(e, maxBlogs) &&
      (|r.state.discoveredBlogs| <= maxBlogs ==> |e.state.discoveredBlogs| <= maxBlogs) &&
      Extends(r.state, e.state)
    decreases Budget(r.state, maxBlogs), |r.state.blogsToProcess|
  {
    if Continues(r, maxBlogs) {
      var next := Step(w, cfg, strategy, maxPosts, interval, r, rngs(r.attempts));
      StepSpec(w, cfg, strategy, maxPosts, interval, r, rngs(r.attempts), initialBlogs);
      StepProgress(w, cfg, strategy, maxPosts, maxBlogs, interval, r, rngs(r.attempts));
      LoopSpec(w, cfg, strategy, maxPosts, maxBlogs, interval, next, rngs, initialBlogs);
      var e := Loop(w, cfg, strategy, maxPosts, maxBlogs, interval, next, rngs);
      ExtendsTrans(r.state, next.state, e.state);
    }
  }

  /** `saves * k + since == successes` with `since < k` makes `saves` the
      quotient. */
  lemma QuotientOf(successes: nat, saves: nat, since: int, k: int)
    requires k >= 1 && 0 <= since < k && successes == saves * k + since
    ensures saves == successes / k
  {
    var q := successes / k;
    var m := successes % k;
    assert successes == q * k + m;
    var d := saves - q;
    assert d * k == m - since by {
      assert saves * k - q * k == (saves - q) * k;
    }
    if d >= 1 {
      MulAtLeast(d, k);
    } else if d <= -1 {
      MulAtLeast(-d, k);
    }
  }

  lemma MulAtLeast(x: int, k: int)
    requires x >= 1 && k >= 1
    ensures x * k >= k
  {
    assert x * k == (x - 1) * k + k;
  }

  /** From a consistent state, a run keeps the state consistent, only grows
      the processed domains and the base-domain blacklist, never replaces a
      record, adds one record per success and stays within the budget it
      started under; it saves one checkpoint per `checkpointInterval`
      successes plus a final one holding the final state; and it stops only
      when the queue is empty or the budget is met. */
  lemma RunDiscoverySpec(w: World, cfg: Config, strategy: Strategy, maxPosts: nat, maxBlogs: int, interval: int,
                         s: DiscoveryState, robots: map<string, Rules>, seeds: seq<string>, rngs: nat -> nat -> Draw)
    requires Consistent(s)
    ensures var r := RunDiscovery(w, cfg, strategy, maxPosts, maxBlogs, interval, s, robots, seeds, rngs);
      Consistent(r.state) &&
      Extends(s, r.state) &&
      |r.state.discoveredBlogs| == |s.discoveredBlogs| + r.successes &&
      (|s.discoveredBlogs| <= maxBlogs ==> |r.state.discoveredBlogs| <= maxBlogs) &&
      |r.saves| == r.successes / Max(1, interval) + 1 &&
      r.saves[|r.saves| - 1] == r.state &&
      (r.state.blogsToProcess == [] || |r.state.discoveredBlogs| >= maxBlogs)
  {
    var start := Run(Start(w, s, seeds), robots, 0, [], 0, 0);
    assert Invariant(start, |s.discoveredBlogs|, interval);
    LoopSpec(w, cfg, strategy, maxPosts, maxBlogs, interval, start, rngs, |s.discoveredBlogs|);
    var e := Loop(w, cfg, strategy, maxPosts, maxBlogs, interval, start, rngs);
    QuotientOf(e.successes, |e.saves|, e.sinceCheckpoint, Max(1, interval));
  }

  /** The seeding step appends the seeds with unprocessed domains to the
      queue and rebuilds `queued_domains` as the non-empty domains of the
      whole queue; nothing else changes. */
  lemma StartSpec(w: World, s: DiscoveryState, seeds: seq<string>)
    ensures var t := Start(w, s, seeds);
      t.blogsToProcess == s.blogsToProcess + SeedItems(w, s.processedDomains, seeds) &&
      t.discoveredBlogs == s.discoveredBlogs && t.processedDomains == s.processedDomains &&
      t.failedDomains == s.failedDomains && t.failedBaseDomains == s.failedBaseDomains &&
      (forall d :: d in t.queuedDomains <==> d != "" && exists i :: 0 <= i < |t.blogsToProcess| && ItemDomain(w, t.blogsToProcess[i]) == d)
  {
    var t := Start(w, s, seeds);
    forall d ensures d in t.queuedDomains <==> d != "" && exists i :: 0 <= i < |t.blogsToProcess| && ItemDomain(w, t.blogsToProcess[i]) == d {
      QueueDomainsSpec(w, t.blogsToProcess, d);
    }
  }

  /** `load_checkpoint` in the package: the saved state, with
      `queued_domains` rebuilt from the saved queue when it was saved empty
      and the queue is not. */
  function Restore(w: World, saved: DiscoveryState): DiscoveryState {
    if saved.queuedDomains == {} && saved.blogsToProcess != [] then saved.(queuedDomains := QueueDomains(w, saved.blogsToProcess))
    else saved
  }

  /** `load_checkpoint` in the single-file crawler: rebuild whenever the saved
      set is empty. */
  function RestoreMonolith(w: World, saved: DiscoveryState): DiscoveryState {
    if saved.queuedDomains == {} then saved.(queuedDomains := QueueDomains(w, saved.blogsToProcess))
    else saved
  }

  /** The two restore rules agree, and both keep everything saved except an
      empty `queued_domains`, which becomes the non-empty domains of the
      saved queue. */
  lemma RestoreRulesAgree(w: World, saved: DiscoveryState)
    ensures Restore(w, saved) == RestoreMonolith(w, saved)
    ensures var t := Restore(w, saved);
      t.(queuedDomains := saved.queuedDomains) == saved &&
      (saved.queuedDomains != {} ==> t.queuedDomains == saved.queuedDomains) &&
      (saved.queuedDomains == {} ==>
        forall d :: d in t.queuedDomains <==> d != "" && exists i :: 0 <= i < |saved.blogsToProcess| && ItemDomain(w, saved.blogsToProcess[i]) == d)
  {
    if saved.queuedDomains == {} {
      forall d ensures d in Restore(w, saved).queuedDomains <==>
        d != "" && exists i :: 0 <= i < |saved.blogsToProcess| && ItemDomain(w, saved.blogsToProcess[i]) == d
      {
        QueueDomainsSpec(w, saved.blogsToProcess, d);
      }
    }
  }
}
