// Host-name helpers of the crawler: the clean domain of a URL, the
// registrable base of a domain, and the seed-file line filter.

module DomainUtils {
  import opened Wrappers
  import opened Strings
  import opened Web

  const WwwPrefix: string := "www."

  /** Second-to-last labels that make the base domain keep three labels. */
  const CompoundLabels: set<string> := {"co", "com", "ac", "gov", "org", "net"}

  function DropWww(host: string): (r: string)
    ensures StartsWith(host, WwwPrefix) ==> WwwPrefix + r == host
    ensures !StartsWith(host, WwwPrefix) ==> r == host
  {
    if StartsWith(host, WwwPrefix) then host[|WwwPrefix|..] else host
  }

  /** `extract_domain(url)`: the lower-cased host without one leading `www.`;
      `""` when the URL cannot be parsed. */
  function ExtractDomain(parse: string -> Option<Parts>, url: string): string {
    match parse(url)
    case None => ""
    case Some(p) => DropWww(Lower(p.netloc))
  }

  /** The clean domain is the lower-cased host with exactly one leading `www.`
      removed, and the empty text when parsing raises. */
  lemma ExtractDomainSpec(parse: string -> Option<Parts>, url: string)
    ensures parse(url).None? ==> ExtractDomain(parse, url) == ""
    ensures parse(url).Some? ==>
      var host := Lower(parse(url).value.netloc);
      var d := ExtractDomain(parse, url);
      IsLower(d) &&
      (if StartsWith(host, WwwPrefix) then WwwPrefix + d == host else d == host)
  {
    if parse(url).Some? {
      var host := Lower(parse(url).value.netloc);
      LowerIsLower(parse(url).value.netloc);
      assert forall i :: 0 <= i < |DropWww(host)| ==> DropWww(host)[i] == host[i + |host| - |DropWww(host)|];
    }
  }

  /** `get_base_domain(domain)`. */
  function BaseDomain(domain: string): string {
    if domain == "" then ""
    else
      var parts := Split(domain, '.');
      if |parts| <= 2 then domain
      else if parts[|parts| - 2] in CompoundLabels then Join(parts[|parts| - 3..], '.')
      else Join(parts[|parts| - 2..], '.')
  }

  /** The base domain keeps the last `k` labels of the domain, with `k` chosen
      by the label count and the compound-suffix rule; a proof helper that
      unfolds `BaseDomain`. */
  lemma BaseDomainCases(domain: string)
    ensures domain == "" ==> BaseDomain(domain) == ""
    ensures |Split(domain, '.')| <= 2 ==> BaseDomain(domain) == domain
    ensures var parts := Split(domain, '.');
      |parts| >= 3 && parts[|parts| - 2] in CompoundLabels ==>
        BaseDomain(domain) == Join(parts[|parts| - 3..], '.')
    ensures var parts := Split(domain, '.');
      |parts| >= 3 && parts[|parts| - 2] !in CompoundLabels ==>
        BaseDomain(domain) == Join(parts[|parts| - 2..], '.')
  {
    if domain == "" {
      assert Split(domain, '.') == [""];
    }
  }

  /** The base domain is a label suffix of the domain: its labels are the last
      labels of the domain, and as text it ends the domain. */
  lemma {:induction false} BaseDomainIsLabelSuffix(domain: string)
    ensures var parts := Split(domain, '.');
      var base := Split(BaseDomain(domain), '.');
      |base| <= |parts| && base == parts[|parts| - |base|..]
    ensures EndsWith(domain, BaseDomain(domain))
  {
    var parts := Split(domain, '.');
    SplitHasNoSep(domain, '.');
    if domain == "" {
      assert parts == [""];
      assert EndsWith(domain, "");
    } else if |parts| <= 2 {
      assert parts[|parts| - |parts|..] == parts;
      assert domain[|domain| - |domain|..] == domain;
    } else {
      var k := if parts[|parts| - 2] in CompoundLabels then |parts| - 3 else |parts| - 2;
      assert BaseDomain(domain) == Join(parts[k..], '.');
      LabelSuffix(domain, k);
    }
  }

  /** The last labels of a domain from label `k` on, joined, end the domain
      and split back into those labels. */
  lemma LabelSuffix(domain: string, k: nat)
    requires k < |Split(domain, '.')|
    ensures var parts := Split(domain, '.');
      Split(Join(parts[k..], '.'), '.') == parts[k..] && EndsWith(domain, Join(parts[k..], '.'))
  {
    var parts := Split(domain, '.');
    SplitHasNoSep(domain, '.');
    assert NoSep(parts[k..], '.');
    SplitJoin(parts[k..], '.');
    JoinSuffix(parts, '.', k);
    JoinSplit(domain, '.');
  }

  /** A non-empty domain has a non-empty base domain. */
  lemma BaseDomainNonEmpty(domain: string)
    requires domain != ""
    ensures BaseDomain(domain) != ""
  {
    var parts := Split(domain, '.');
    if |parts| > 2 {
      var k := if parts[|parts| - 2] in CompoundLabels then |parts| - 3 else |parts| - 2;
      JoinHasSep(parts[k..], '.');
    }
  }

  /** Collapsing a base domain again changes nothing. */
  lemma {:induction false} BaseDomainIdempotent(domain: string)
    ensures BaseDomain(BaseDomain(domain)) == BaseDomain(domain)
  {
    var parts := Split(domain, '.');
    if domain != "" && |parts| > 2 {
      var k := if parts[|parts| - 2] in CompoundLabels then |parts| - 3 else |parts| - 2;
      var base := BaseDomain(domain);
      assert base == Join(parts[k..], '.');
      SplitHasNoSep(domain, '.');
      assert NoSep(parts[k..], '.');
      SplitJoin(parts[k..], '.');
      BaseDomainNonEmpty(domain);
      var bparts := Split(base, '.');
      assert bparts == parts[k..];
      if k == |parts| - 3 {
        assert bparts[|bparts| - 2] == parts[|parts| - 2];
        assert bparts[|bparts| - 3..] == bparts;
      }
    }
  }

  /** A seed line is kept when, stripped, it is non-empty and not a comment. */
  predicate IsSeed(line: string) {
    line != "" && line[0] != '#'
  }

  /** The line filter of `load_seeds`: stripped seed lines in file order. */
  function SeedLines(lines: seq<string>): seq<string> {
    if lines == [] then []
    else
      var line := Strip(lines[0]);
      (if IsSeed(line) then [line] else []) + SeedLines(lines[1..])
  }

  /** `load_seeds(filename)`: the file's lines, or `None` when opening or
      reading it raises; a missing or unreadable file yields no seeds. */
  function LoadSeeds(file: Option<seq<string>>): seq<string> {
    match file
    case None => []
    case Some(lines) => SeedLines(lines)
  }

  /** The filter distributes over concatenation, so seeds keep file order. */
  lemma {:induction false} SeedLinesAppend(a: seq<string>, b: seq<string>)
    ensures SeedLines(a + b) == SeedLines(a) + SeedLines(b)
  {
    if a == [] {
      assert a + b == b;
    } else {
      assert (a + b)[1..] == a[1..] + b;
      assert (a + b)[0] == a[0];
      var line := Strip(a[0]);
      var head := if IsSeed(line) then [line] else [];
      assert SeedLines(a + b) == head + SeedLines(a[1..] + b);
      SeedLinesAppend(a[1..], b);
      AppendAssoc(head, SeedLines(a[1..]), SeedLines(b));
    }
  }

  /** Some line of the file strips to `s`. */
  predicate StripsTo(lines: seq<string>, s: string) {
    exists i :: 0 <= i < |lines| && Strip(lines[i]) == s
  }

  lemma StripsToCons(lines: seq<string>, s: string)
    requires lines != []
    ensures StripsTo(lines, s) <==> Strip(lines[0]) == s || StripsTo(lines[1..], s)
  {
    if StripsTo(lines[1..], s) {
      var i :| 0 <= i < |lines[1..]| && Strip(lines[1..][i]) == s;
      assert Strip(lines[i + 1]) == s;
    }
    if StripsTo(lines, s) {
      var i :| 0 <= i < |lines| && Strip(lines[i]) == s;
      if i > 0 {
        assert Strip(lines[1..][i - 1]) == s;
      }
    }
  }

  /** A text is a seed exactly when it is the stripped form of a line and is
      neither empty nor a comment. */
  lemma {:induction false} SeedLinesMembers(lines: seq<string>, s: string)
    ensures s in SeedLines(lines) <==> IsSeed(s) && StripsTo(lines, s)
  {
    if lines != [] {
      SeedLinesMembers(lines[1..], s);
      StripsToCons(lines, s);
    }
  }

  /** A missing or unreadable file gives no seeds; a readable one gives
      exactly its stripped lines that are neither empty nor comments. */
  lemma LoadSeedsSpec(file: Option<seq<string>>, s: string)
    ensures file.None? ==> LoadSeeds(file) == []
    ensures file.Some? ==> (s in LoadSeeds(file) <==> IsSeed(s) && StripsTo(file.value, s))
  {
    if file.Some? {
      SeedLinesMembers(file.value, s);
    }
  }
}
