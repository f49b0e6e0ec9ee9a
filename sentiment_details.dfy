/** The per-post records (`sentimentDetails`) that the results page hands to its chart components. */
module SentimentDetails {
  import opened Wrappers

  /** One analysed post: its text (absent for some sources), score in [0, 1], date and origin. */
  datatype Post = Post(description: Option<string>, sentimentScore: real, date: string, subreddit: Option<string>)

  /** The identity on posts, for filters that keep the posts themselves. */
  function SamePost(p: Post): Post {
    p
  }
}
