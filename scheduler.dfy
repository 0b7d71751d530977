// The frontier scheduler: the four insertion policies of `add_to_queue`.

module Scheduler {
  import opened Models

  /** The queue strategies. */
  datatype Strategy = BreadthFirst | DepthFirst | RandomOrder | Mixed

  /** Strategy validation at construction: an unknown name falls back to `mixed`. */
  function ParseStrategy(name: string): (s: Strategy)
    ensures name == "breadth_first" <==> s == BreadthFirst
    ensures name == "depth_first" <==> s == DepthFirst
    ensures name == "random" <==> s == RandomOrder
    ensures s == Mixed <==> name !in {"breadth_first", "depth_first", "random"}
  {
    if name == "breadth_first" then BreadthFirst
    else if name == "depth_first" then DepthFirst
    else if name == "random" then RandomOrder
    else Mixed
  }

  /** One pair of random draws: `coin` stands for `random.random() < 0.5`, and
      `raw` selects the value of `random.randint`. */
  datatype Draw = Draw(coin: bool, raw: nat)

  /** `random.randint(0, hi)`: `raw` picks one value of the range. */
  function RandInt(hi: nat, raw: nat): (r: nat)
    ensures r <= hi
  {
    raw % (hi + 1)
  }

  /** Every value of the range can be drawn. */
  lemma RandIntOnto(hi: nat, k: nat)
    requires k <= hi
    ensures RandInt(hi, k) == k
  {
  }

  function Max(a: int, b: int): int {
    if a < b then b else a
  }

  /** Where a new item goes in a queue of length `n`. */
  function InsertPos(n: nat, strategy: Strategy, newDepth: int, d: Draw): (pos: nat)
    ensures pos <= n
  {
    match strategy
    case BreadthFirst => n
    case DepthFirst => 0
    case RandomOrder => if n == 0 then n else RandInt(n, d.raw)
    case Mixed => if newDepth > 0 && d.coin && n > 0 then RandInt(Max(1, n / 2), d.raw) else n
  }

  /** The position is always a valid insertion point, and each policy keeps
      to its range: the back for breadth first, the front for depth first,
      anywhere for random, the first half (at least index 1) for a mixed
      insertion that the coin and the depth allow, the back otherwise. */
  lemma InsertPosRange(n: nat, strategy: Strategy, newDepth: int, d: Draw)
    ensures var pos := InsertPos(n, strategy, newDepth, d);
      pos <= n &&
      (strategy == BreadthFirst ==> pos == n) &&
      (strategy == DepthFirst ==> pos == 0) &&
      (strategy == Mixed && newDepth > 0 && d.coin && n > 0 ==> pos <= Max(1, n / 2)) &&
      (strategy == Mixed && !(newDepth > 0 && d.coin && n > 0) ==> pos == n)
  {
  }

  /** `list.insert(pos, x)`. */
  function Insert<T>(q: seq<T>, pos: nat, x: T): (r: seq<T>)
    requires pos <= |q|
    ensures |r| == |q| + 1 && r[pos] == x
    ensures r[..pos] == q[..pos] && r[pos + 1..] == q[pos..]
  {
    q[..pos] + [x] + q[pos..]
  }

  /** Inserting at the back appends; inserting at the front prepends. */
  lemma InsertEnds<T>(q: seq<T>, x: T)
    ensures Insert(q, |q|, x) == q + [x] && Insert(q, 0, x) == [x] + q
  {
    assert q[..|q|] == q && q[|q|..] == [] && q[..0] == [] && q[0..] == q;
  }

  /** The queue without the item at `pos`. */
  function Remove<T>(q: seq<T>, pos: nat): seq<T>
    requires pos < |q|
  {
    q[..pos] + q[pos + 1..]
  }

  /** `add_to_queue(blog_url, source_info, new_depth)` on the queue `q`. */
  function Enqueue(q: seq<QueueItem>, strategy: Strategy, item: QueueItem, newDepth: int, d: Draw): seq<QueueItem> {
    Insert(q, InsertPos(|q|, strategy, newDepth, d), item)
  }

  /** Inserting and then removing at the same position gives back the list,
      and the insertion adds exactly one element. */
  lemma InsertRemove<T>(q: seq<T>, pos: nat, x: T)
    requires pos <= |q|
    ensures Remove(Insert(q, pos, x), pos) == q
    ensures multiset(Insert(q, pos, x)) == multiset(q) + multiset{x}
  {
    var r := Insert(q, pos, x);
    assert q == q[..pos] + q[pos..];
    assert r == q[..pos] + [x] + q[pos..];
    assert multiset(r) == multiset(q[..pos]) + multiset{x} + multiset(q[pos..]);
  }

  /** Exactly one item is inserted, at the policy's position, and the other
      items keep their relative order: removing it gives back the old queue. */
  lemma EnqueueSpec(q: seq<QueueItem>, strategy: Strategy, item: QueueItem, newDepth: int, d: Draw)
    ensures var pos := InsertPos(|q|, strategy, newDepth, d);
      var r := Enqueue(q, strategy, item, newDepth, d);
      pos < |r| && |r| == |q| + 1 && r[pos] == item && Remove(r, pos) == q &&
      multiset(r) == multiset(q) + multiset{item}
  {
    InsertRemove(q, InsertPos(|q|, strategy, newDepth, d), item);
  }

  /** Breadth first appends and depth first prepends. */
  lemma EnqueueEnds(q: seq<QueueItem>, item: QueueItem, newDepth: int, d: Draw)
    ensures Enqueue(q, BreadthFirst, item, newDepth, d) == q + [item]
    ensures Enqueue(q, DepthFirst, item, newDepth, d) == [item] + q
  {
  }

  /** Every insertion point of a non-empty queue is reachable under the random
      policy, and every point of the first half under a mixed insertion. */
  lemma RandomPositionsReachable(n: nat, k: nat, newDepth: int)
    requires 0 < n && k <= n
    ensures InsertPos(n, RandomOrder, newDepth, Draw(false, k)) == k
    ensures newDepth > 0 && k <= Max(1, n / 2) ==> InsertPos(n, Mixed, newDepth, Draw(true, k)) == k
  {
    RandIntOnto(n, k);
    if newDepth > 0 && k <= Max(1, n / 2) {
      RandIntOnto(Max(1, n / 2), k);
    }
  }
}
