// Link candidate predicates (is a URL safe, does it look like a blog) and the
// robots.txt memo table of the validator.

module Validation {
  import opened Wrappers
  import opened Strings
  import opened Web
  import opened Settings
  import opened DomainUtils

  /** Substrings that make a URL suspicious, in the order they are tried. */
  const SuspiciousPatterns: seq<string> := [
    "download", "exec", "install", "setup",
    "/bin/", "/sbin/", "/usr/bin/",
    "malware", "virus", "exploit", "hack",
    "phishing", "scam", "fraud"]

  /** The patterns a blog-like URL may contain without being rejected ... */
  const ExemptPatterns: set<string> := {"download", "install"}

  /** ... provided it also contains one of these words. */
  const BlogWords: set<string> := {"blog", "post", "article"}

  predicate Exempt(pattern: string, u: string) {
    pattern in ExemptPatterns && ContainsAny(u, BlogWords)
  }

  /** The suspicious-pattern loop: patterns are tried in order, and the first
      one present in `u` that is not exempt rejects the URL. */
  function PassesPatterns(u: string, patterns: seq<string>): bool {
    if patterns == [] then true
    else if Contains(u, patterns[0]) && !Exempt(patterns[0], u) then false
    else PassesPatterns(u, patterns[1..])
  }

  /** The early-return loop accepts exactly when every present pattern is exempt. */
  lemma {:induction false} PassesPatternsAll(u: string, patterns: seq<string>)
    ensures PassesPatterns(u, patterns) <==>
      forall i :: 0 <= i < |patterns| && Contains(u, patterns[i]) ==> Exempt(patterns[i], u)
  {
    if patterns != [] {
      PassesPatternsAll(u, patterns[1..]);
      assert forall i :: 1 <= i < |patterns| ==> patterns[i] == patterns[1..][i - 1];
    }
  }

  /** `is_safe_url(url)`: the path of the lower-cased URL has no dangerous
      extension and the lower-cased URL holds no suspicious pattern; a URL
      that cannot be parsed is unsafe. */
  function IsSafeUrl(parse: string -> Option<Parts>, cfg: Config, url: string): bool {
    var u := Lower(url);
    match parse(u)
    case None => false
    case Some(p) => !EndsWithAny(p.path, cfg.dangerousExtensions) && PassesPatterns(u, SuspiciousPatterns)
  }

  /** The safety test as a whole: parseable, no dangerous extension, and every
      suspicious pattern present is `download` or `install` next to a blog word. */
  lemma IsSafeUrlSpec(parse: string -> Option<Parts>, cfg: Config, url: string)
    ensures var u := Lower(url);
      IsSafeUrl(parse, cfg, url) <==>
        parse(u).Some? &&
        !EndsWithAny(parse(u).value.path, cfg.dangerousExtensions) &&
        forall i :: 0 <= i < |SuspiciousPatterns| && Contains(u, SuspiciousPatterns[i]) ==>
          SuspiciousPatterns[i] in ExemptPatterns && ContainsAny(u, BlogWords)
  {
    PassesPatternsAll(Lower(url), SuspiciousPatterns);
  }

  /** A dangerous extension at the end of the path rejects the URL. */
  lemma DangerousExtensionUnsafe(parse: string -> Option<Parts>, cfg: Config, url: string, ext: string)
    requires ext in cfg.dangerousExtensions
    requires parse(Lower(url)).Some? && EndsWith(parse(Lower(url)).value.path, ext)
    ensures !IsSafeUrl(parse, cfg, url)
  {
  }

  /** A suspicious pattern other than `download`/`install` rejects the URL even
      when it mentions a blog, a post or an article. */
  lemma NonExemptPatternUnsafe(parse: string -> Option<Parts>, cfg: Config, url: string, i: nat)
    requires i < |SuspiciousPatterns| && SuspiciousPatterns[i] !in ExemptPatterns
    requires Contains(Lower(url), SuspiciousPatterns[i])
    ensures !IsSafeUrl(parse, cfg, url)
  {
    IsSafeUrlSpec(parse, cfg, url);
  }

  /** `download` or `install` rejects a URL that mentions no blog word, and is
      forgiven once one is present. */
  lemma ExemptPatternNeedsBlogWord(parse: string -> Option<Parts>, cfg: Config, url: string, i: nat)
    requires i < |SuspiciousPatterns| && SuspiciousPatterns[i] in ExemptPatterns
    requires Contains(Lower(url), SuspiciousPatterns[i])
    ensures !ContainsAny(Lower(url), BlogWords) ==> !IsSafeUrl(parse, cfg, url)
  {
    IsSafeUrlSpec(parse, cfg, url);
  }

  /** `is_likely_blog(url)`. */
  function IsLikelyBlog(parse: string -> Option<Parts>, cfg: Config, url: string): bool {
    if !IsSafeUrl(parse, cfg, url) then false
    else
      match parse(url)
      case None => false
      case Some(p) =>
        var host := Lower(p.netloc);
        if ContainsAny(host, cfg.skipDomains) then false
        else if !EndsWithAny(host, cfg.allowedExtensions) then false
        else if ContainsAny(Lower(url), cfg.blogIndicators) then true
        else CountChar(host, '.') <= 2 && !StartsWith(host, WwwPrefix)
  }

  /** A likely blog is always safe, parseable, free of skipped domains and
      ends in an allowed extension. */
  lemma LikelyBlogNecessary(parse: string -> Option<Parts>, cfg: Config, url: string)
    requires IsLikelyBlog(parse, cfg, url)
    ensures IsSafeUrl(parse, cfg, url)
    ensures parse(url).Some?
    ensures !ContainsAny(Lower(parse(url).value.netloc), cfg.skipDomains)
    ensures EndsWithAny(Lower(parse(url).value.netloc), cfg.allowedExtensions)
  {
  }

  /** Once the filters pass, a blog indicator anywhere in the URL decides;
      without one, a host with at most two dots and no `www.` is accepted and
      any other host is rejected. */
  lemma LikelyBlogDecision(parse: string -> Option<Parts>, cfg: Config, url: string)
    requires IsSafeUrl(parse, cfg, url) && parse(url).Some?
    requires !ContainsAny(Lower(parse(url).value.netloc), cfg.skipDomains)
    requires EndsWithAny(Lower(parse(url).value.netloc), cfg.allowedExtensions)
    ensures ContainsAny(Lower(url), cfg.blogIndicators) ==> IsLikelyBlog(parse, cfg, url)
    ensures !ContainsAny(Lower(url), cfg.blogIndicators) ==>
      var host := Lower(parse(url).value.netloc);
      (IsLikelyBlog(parse, cfg, url) <==> CountChar(host, '.') <= 2 && !StartsWith(host, WwwPrefix))
  {
  }

  /** `https://<domain>/robots.txt`, the robots file of a domain. */
  function RobotsUrl(domain: string): string {
    "https://" + domain + "/robots.txt"
  }

  /** The rules a freshly built parser ends up with: the body of a 200
      response, and allow-all for any other status or a failed fetch. */
  function FetchRules(w: World, robotsUrl: string): (rules: Rules)
    ensures rules.Parsed? <==> w.get(robotsUrl).Response? && w.get(robotsUrl).status == 200
  {
    match w.get(robotsUrl)
    case Failed => AllowAll
    case Response(status, text) => if status == 200 then Parsed(text) else AllowAll
  }

  /** `can_fetch("*", url)`: an allow-all parser allows every URL. */
  function Allows(w: World, rules: Rules, url: string): bool {
    match rules
    case AllowAll => true
    case Parsed(text) => w.canFetch(text, url)
  }

  /** Whether a query must fetch robots.txt: its domain is known and not cached. */
  predicate NeedsFetch(w: World, cache: map<string, Rules>, url: string) {
    var d := ExtractDomain(w.parse, url);
    d != "" && d !in cache
  }

  /** `is_allowed_by_robots(url)` as a function of the cache it starts from:
      the decision and the cache it leaves behind. */
  function RobotsLookup(w: World, cache: map<string, Rules>, url: string): (bool, map<string, Rules>) {
    var d := ExtractDomain(w.parse, url);
    if d == "" then (true, cache)
    else
      var rules := if d in cache then cache[d] else FetchRules(w, RobotsUrl(d));
      (Allows(w, rules, url), cache[d := rules])
  }

  /** A URL without a domain is allowed and the cache is left alone; a cached
      domain is answered from the cache, which does not change; an uncached
      domain gets exactly one new entry, the fetched rules. */
  lemma RobotsLookupCache(w: World, cache: map<string, Rules>, url: string)
    ensures var d := ExtractDomain(w.parse, url);
      var (allowed, after) := RobotsLookup(w, cache, url);
      (d == "" ==> allowed && after == cache) &&
      (d != "" && d in cache ==> after == cache && allowed == Allows(w, cache[d], url)) &&
      (NeedsFetch(w, cache, url) ==>
        after == cache[d := FetchRules(w, RobotsUrl(d))] &&
        allowed == Allows(w, FetchRules(w, RobotsUrl(d)), url))
  {
    var d := ExtractDomain(w.parse, url);
    if d != "" && d in cache {
      assert cache[d := cache[d]] == cache;
    }
  }

  /** Fail open: when robots.txt cannot be fetched or answers anything but 200,
      every URL of the domain is allowed, now and on every later query. */
  lemma RobotsFailOpen(w: World, cache: map<string, Rules>, url: string)
    requires NeedsFetch(w, cache, url)
    requires var r := w.get(RobotsUrl(ExtractDomain(w.parse, url))); r.Failed? || r.status != 200
    ensures RobotsLookup(w, cache, url).0
    ensures RobotsLookup(w, cache, url).1[ExtractDomain(w.parse, url)] == AllowAll
  {
  }

  /** After one query, a second query for any URL of the same domain finds the
      domain cached: it fetches nothing and leaves the cache unchanged. */
  lemma RobotsSecondQueryCached(w: World, cache: map<string, Rules>, url1: string, url2: string)
    requires ExtractDomain(w.parse, url1) != ""
    requires ExtractDomain(w.parse, url2) == ExtractDomain(w.parse, url1)
    ensures var after := RobotsLookup(w, cache, url1).1;
      !NeedsFetch(w, after, url2) && RobotsLookup(w, after, url2).1 == after
  {
    var after := RobotsLookup(w, cache, url1).1;
    RobotsLookupCache(w, after, url2);
  }

  /** The validator of the package: a robots.txt parser per domain. */
  class Validator {
    var robotsCache: map<string, Rules>
    /** The robots.txt URLs fetched so far, in order. */
    ghost var robotsFetches: seq<string>

    constructor ()
      ensures robotsCache == map[] && robotsFetches == []
    {
      robotsCache := map[];
      robotsFetches := [];
    }

    /** `Validator.is_allowed_by_robots(url)`. */
    method IsAllowedByRobots(w: World, url: string) returns (allowed: bool)
      modifies this
      ensures (allowed, robotsCache) == RobotsLookup(w, old(robotsCache), url)
      ensures robotsFetches == old(robotsFetches) +
        (if NeedsFetch(w, old(robotsCache), url) then [RobotsUrl(ExtractDomain(w.parse, url))] else [])
    {
      var domain := ExtractDomain(w.parse, url);
      if domain == "" {
        return true;
      }
      var rules: Rules;
      if domain in robotsCache {
        rules := robotsCache[domain];
      } else {
        var robotsUrl := RobotsUrl(domain);
        robotsFetches := robotsFetches + [robotsUrl];
        rules := FetchRules(w, robotsUrl);
        robotsCache := robotsCache[domain := rules];
      }
      assert robotsCache == old(robotsCache)[domain := rules];
      allowed := Allows(w, rules, url);
    }
  }
}
