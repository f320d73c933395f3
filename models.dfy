/** The shared record type of the collection layer (models.py). */
module Models {
  import opened Wrappers

  /** A point in time, in whole seconds since the epoch; parsed timestamps are opaque values of this type. */
  type Timestamp = int

  /** Whether a Reddit item is a submission or one of the comments of its thread. */
  datatype RedditKind = Post | Comment

  /**
   * The `extra` metadata dictionary, one variant per shape the adapters build:
   * `{"mock": True}`, `{"query": q}`, `{"subreddit": s, "kind": k[, "post_id": p]}`,
   * `{"video_id": v, "query": q}` and `{"symbol": s}`.
   */
  datatype Extra =
    | MockExtra
    | QueryExtra(query: string)
    | RedditExtra(subreddit: string, kind: RedditKind, postId: Option<string>)
    | YouTubeExtra(videoId: string, query: string)
    | SymbolExtra(symbol: string)

  /** A normalized text item from any platform (the frozen dataclass `TextItem`). */
  datatype TextItem = TextItem(
    platform: string,
    text: string,
    createdAt: Option<Timestamp>,
    url: Option<string>,
    author: Option<string>,
    externalId: Option<string>,
    extra: Option<Extra>)
}
