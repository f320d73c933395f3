/** The credentials record handed to every adapter (config.py's `APIKeys`); loading it is not modelled. */
module Config {
  import opened Wrappers

  datatype APIKeys = APIKeys(
    twitterBearerToken: Option<string>,
    twitterConsumerKey: Option<string>,
    twitterConsumerSecret: Option<string>,
    twitterAccessToken: Option<string>,
    twitterAccessTokenSecret: Option<string>,
    redditClientId: Option<string>,
    redditClientSecret: Option<string>,
    redditUserAgent: Option<string>,
    youtubeApiKey: Option<string>,
    finnhubApiKey: Option<string>,
    stocktwitsToken: Option<string>)

  /** Python truthiness of an optional string: present and non-empty. */
  predicate Truthy(s: Option<string>) {
    s.Some? && s.value != ""
  }
}
