// The configured sets and limits the crawler reads from its settings. They
// are a parameter of the model rather than fixed values, so every property is
// proved for any configuration.

module Settings {

  datatype Config = Config(
    dangerousExtensions: set<string>,        // DANGEROUS_EXTENSIONS
    skipDomains: set<string>,                // SKIP_DOMAINS
    allowedExtensions: set<string>,          // ALLOWED_EXTENSIONS
    blogIndicators: set<string>,             // BLOG_INDICATORS
    blacklistBaseDomainSites: set<string>,   // BLACKLIST_BASE_DOMAIN_SITES
    maxPostsToCheck: nat,                    // MAX_POSTS_TO_CHECK
    checkpointInterval: int)                 // CHECKPOINT_INTERVAL
}
