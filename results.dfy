// The ordering of the results file written by the single-file crawler:
// blogs newest first by the ISO date of their latest post, a missing date
// counting as the empty string.

module Results {
  import opened Wrappers
  import opened Models

  /** One entry of `blogs` in the results file: the domain and its record. */
  datatype ResultEntry = ResultEntry(domain: string, info: BlogInfo)

  /** The results file: `total_blogs`, `target_blogs` and the sorted blogs.
      `crawled_at` is a wall-clock reading and is not kept. */
  datatype SavedResults = SavedResults(totalBlogs: nat, targetBlogs: int, blogs: seq<ResultEntry>)

  /** The sort key `latest_post.published or ''`. */
  function PublishedKey(e: ResultEntry): string {
    if e.info.latestPost.Some? then e.info.latestPost.value.published.GetOr("") else ""
  }

  /** Python's string order: lexicographic by code point. */
  predicate StrLe(a: string, b: string)
    decreases |a|
  {
    a == [] || (b != [] && (a[0] < b[0] || (a[0] == b[0] && StrLe(a[1..], b[1..]))))
  }

  lemma {:induction false} StrLeTotal(a: string, b: string)
    ensures StrLe(a, b) || StrLe(b, a)
    decreases |a|
  {
    if a != [] && b != [] && a[0] == b[0] {
      StrLeTotal(a[1..], b[1..]);
    }
  }

  lemma {:induction false} StrLeTrans(a: string, b: string, c: string)
    requires StrLe(a, b) && StrLe(b, c)
    ensures StrLe(a, c)
    decreases |a|
  {
    if a != [] && a[0] == b[0] && b[0] == c[0] {
      StrLeTrans(a[1..], b[1..], c[1..]);
    }
  }

  /** The empty string is the least key, and the only key at or below it. */
  lemma StrLeEmpty(a: string)
    ensures StrLe("", a)
    ensures StrLe(a, "") <==> a == ""
  {
  }

  /** Newest first: every later entry's key is at most every earlier one's. */
  predicate SortedDesc(s: seq<ResultEntry>) {
    forall i, j :: 0 <= i < j < |s| ==> StrLe(PublishedKey(s[j]), PublishedKey(s[i]))
  }

  /** Insert `x` before the first entry whose key is at most its own. */
  function InsertDesc(x: ResultEntry, s: seq<ResultEntry>): (r: seq<ResultEntry>)
    ensures multiset(r) == multiset(s) + multiset{x}
  {
    if s == [] then [x]
    else if StrLe(PublishedKey(s[0]), PublishedKey(x)) then [x] + s
    else
      assert s == [s[0]] + s[1..];
      [s[0]] + InsertDesc(x, s[1..])
  }

  /** `blogs_list.sort(key=…, reverse=True)`. */
  function SortByPublished(s: seq<ResultEntry>): (r: seq<ResultEntry>)
    ensures multiset(r) == multiset(s)
  {
    if s == [] then []
    else
      assert s == [s[0]] + s[1..];
      InsertDesc(s[0], SortByPublished(s[1..]))
  }

  /** When `x` goes after the head of a sorted list, every entry of the rest
      with `x` inserted is at most the head. */
  lemma InsertDescBelowHead(x: ResultEntry, s: seq<ResultEntry>)
    requires SortedDesc(s) && s != [] && !StrLe(PublishedKey(s[0]), PublishedKey(x))
    ensures forall e :: e in InsertDesc(x, s[1..]) ==> StrLe(PublishedKey(e), PublishedKey(s[0]))
  {
    StrLeTotal(PublishedKey(s[0]), PublishedKey(x));
    var t := s[1..];
    forall e | e in InsertDesc(x, t) ensures StrLe(PublishedKey(e), PublishedKey(s[0])) {
      assert e in multiset(InsertDesc(x, t));
      if e != x {
        assert e in multiset(t);
        var k :| 0 <= k < |t| && t[k] == e;
        assert s[k + 1] == e;
      }
    }
  }

  lemma {:induction false} InsertDescSorted(x: ResultEntry, s: seq<ResultEntry>)
    requires SortedDesc(s)
    ensures SortedDesc(InsertDesc(x, s))
  {
    if s == [] {
    } else if StrLe(PublishedKey(s[0]), PublishedKey(x)) {
      var r := [x] + s;
      forall i, j | 0 <= i < j < |r|
        ensures StrLe(PublishedKey(r[j]), PublishedKey(r[i]))
      {
        if i == 0 && j > 1 {
          StrLeTrans(PublishedKey(s[j - 1]), PublishedKey(s[0]), PublishedKey(x));
        }
      }
    } else {
      var t := s[1..];
      assert SortedDesc(t);
      InsertDescSorted(x, t);
      InsertDescBelowHead(x, s);
      var r' := InsertDesc(x, t);
      var r := [s[0]] + r';
      forall i, j | 0 <= i < j < |r|
        ensures StrLe(PublishedKey(r[j]), PublishedKey(r[i]))
      {
        if i == 0 {
          assert r[j] == r'[j - 1];
          assert r'[j - 1] in r';
        } else {
          assert r[i] == r'[i - 1] && r[j] == r'[j - 1];
        }
      }
      assert r == InsertDesc(x, s);
    }
  }

  /** The sort puts the entries newest first and keeps them all, each as
      often as before. */
  lemma {:induction false} SortByPublishedSpec(s: seq<ResultEntry>)
    ensures SortedDesc(SortByPublished(s))
    ensures multiset(SortByPublished(s)) == multiset(s)
  {
    if s != [] {
      SortByPublishedSpec(s[1..]);
      InsertDescSorted(s[0], SortByPublished(s[1..]));
    }
  }

  /** In sorted results every blog with a dated latest post comes before
      every blog without one. */
  lemma UndatedLast(s: seq<ResultEntry>, i: int, j: int)
    requires SortedDesc(s) && 0 <= i < j < |s|
    requires PublishedKey(s[i]) == ""
    ensures PublishedKey(s[j]) == ""
  {
    StrLeEmpty(PublishedKey(s[j]));
  }

  /** The entries of the results file before sorting: one per discovered
      blog, taken from the dictionary in whatever order it yields them. */
  method Entries(blogs: map<string, BlogInfo>) returns (items: seq<ResultEntry>)
    ensures |items| == |blogs|
    ensures forall e :: e in items ==> e.domain in blogs && e.info == blogs[e.domain]
    ensures forall d :: d in blogs ==> ResultEntry(d, blogs[d]) in items
  {
    items := [];
    var rest := blogs;
    while rest != map[]
      invariant rest.Keys <= blogs.Keys && |items| + |rest| == |blogs|
      invariant forall d :: d in rest ==> rest[d] == blogs[d]
      invariant forall e :: e in items ==> e.domain in blogs && e.domain !in rest && e.info == blogs[e.domain]
      invariant forall d :: d in blogs && d !in rest ==> ResultEntry(d, blogs[d]) in items
      decreases |rest|
    {
      var d :| d in rest;
      items := items + [ResultEntry(d, rest[d])];
      assert rest.Keys == (rest - {d}).Keys + {d};
      rest := rest - {d};
    }
  }
}
