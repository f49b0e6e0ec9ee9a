/**
 * The post list of the results page (`PostTimeline`): a filter by sentiment band chosen
 * with the buttons "all", "positive", "neutral" and "negative", and the label shown next
 * to each post.
 */
module PostTimeline {
  import opened Wrappers
  import opened Seqs
  import opened SentimentDetails

  datatype Band = Positive | Neutral | Negative

  /** The test each filter button applies to a score. */
  predicate InBand(score: real, b: Band) {
    match b
    case Positive => score >= 0.66
    case Neutral => 0.33 < score < 0.66
    case Negative => score <= 0.33
  }

  /** The band a score falls in; no score falls in two bands. */
  function BandOf(score: real): (b: Band)
    ensures InBand(score, b)
    ensures forall other :: InBand(score, other) ==> other == b
  {
    if score >= 0.66 then Positive else if score <= 0.33 then Negative else Neutral
  }

  /** The band a filter button selects; "all", like any other value, selects none. */
  function BandNamed(filter: string): Option<Band> {
    if filter == "positive" then Some(Positive)
    else if filter == "neutral" then Some(Neutral)
    else if filter == "negative" then Some(Negative)
    else None
  }

  function ScoreIn(b: Band): Post -> bool {
    (p: Post) => InBand(p.sentimentScore, b)
  }

  /** The posts whose score lies in band b, in their original order. */
  function BandPosts(posts: seq<Post>, b: Band): seq<Post> {
    KeepIf(posts, ScoreIn(b), SamePost, |posts|)
  }

  /** `filteredPosts`: the posts of the selected band, or all of them when no band is selected. */
  function FilteredPosts(filter: string, posts: seq<Post>): seq<Post> {
    match BandNamed(filter)
    case Some(b) => BandPosts(posts, b)
    case None => posts
  }

  /** A post passes the filter of band b exactly when it is one of the posts and its score lies in b. */
  lemma BandPostsMembers(posts: seq<Post>, b: Band, p: Post)
    ensures p in BandPosts(posts, b) <==> p in posts && InBand(p.sentimentScore, b)
  {
    if p in BandPosts(posts, b) {
      KeepIfSound(posts, ScoreIn(b), SamePost, |posts|, p);
    }
    if p in posts && InBand(p.sentimentScore, b) {
      var i :| 0 <= i < |posts| && posts[i] == p;
      KeepIfComplete(posts, ScoreIn(b), SamePost, |posts|, i);
    }
  }

  /**
   * Each band button keeps exactly the posts of its band, any other filter value keeps
   * every post, and what is shown is always the posts in their original order, some left out.
   */
  lemma FilterSpec(filter: string, posts: seq<Post>)
    ensures filter != "positive" && filter != "neutral" && filter != "negative" ==>
              FilteredPosts(filter, posts) == posts
    ensures forall p :: p in FilteredPosts(filter, posts) <==>
              p in posts && (BandNamed(filter).None? || InBand(p.sentimentScore, BandNamed(filter).value))
    ensures SubsequenceOf(FilteredPosts(filter, posts), posts)
  {
    match BandNamed(filter)
    case Some(b) =>
      forall p ensures p in BandPosts(posts, b) <==> p in posts && InBand(p.sentimentScore, b) {
        BandPostsMembers(posts, b, p);
      }
      KeepIfSubsequence(posts, ScoreIn(b), SamePost);
    case None =>
      SubsequenceOfSelf(posts);
  }

  lemma {:induction false} BandSizes(posts: seq<Post>, n: nat)
    requires n <= |posts|
    ensures |KeepIf(posts, ScoreIn(Positive), SamePost, n)| + |KeepIf(posts, ScoreIn(Neutral), SamePost, n)|
            + |KeepIf(posts, ScoreIn(Negative), SamePost, n)| == n
  {
    if n > 0 {
      BandSizes(posts, n - 1);
      var b := BandOf(posts[n - 1].sentimentScore);
    }
  }

  /** The three bands split the posts: their sizes add up to the number of posts. */
  lemma BandsPartition(posts: seq<Post>)
    ensures |BandPosts(posts, Positive)| + |BandPosts(posts, Neutral)| + |BandPosts(posts, Negative)| == |posts|
  {
    BandSizes(posts, |posts|);
  }

  datatype Label = Label(text: string, color: string, emoji: string)

  /** `getSentimentLabel`: the label, colour and emoji shown for a score, in the same bands as the filters. */
  function SentimentLabel(score: real): (r: Label)
    ensures r.text == "Positive" <==> InBand(score, Positive)
    ensures r.text == "Neutral" <==> InBand(score, Neutral)
    ensures r.text == "Negative" <==> InBand(score, Negative)
  {
    if score >= 0.66 then Label("Positive", "text-green-400", "\U{1F60A}")
    else if score <= 0.33 then Label("Negative", "text-red-400", "\U{1F620}")
    else Label("Neutral", "text-yellow-400", "\U{1F610}")
  }

  function BandName(b: Band): string {
    match b
    case Positive => "Positive"
    case Neutral => "Neutral"
    case Negative => "Negative"
  }

  datatype Row = Row(post: Post, tag: Label)

  /** What the component renders: nothing for missing or empty details, else one labelled row per filtered post. */
  function Timeline(details: Option<seq<Post>>, filter: string): (r: Option<seq<Row>>)
    ensures r.None? <==> details.None? || |details.value| == 0
  {
    match details
    case None => None
    case Some(posts) =>
      if |posts| == 0 then None
      else
        var shown := FilteredPosts(filter, posts);
        Some(seq(|shown|, i requires 0 <= i < |shown| => Row(shown[i], SentimentLabel(shown[i].sentimentScore))))
  }

  /** Under a band filter every row shown is one of the posts and carries that band's label. */
  lemma TimelineLabels(details: Option<seq<Post>>, filter: string, b: Band)
    requires BandNamed(filter) == Some(b) && Timeline(details, filter).Some?
    ensures forall row :: row in Timeline(details, filter).value ==>
              row.post in details.value && row.tag.text == BandName(b)
  {
    var posts := details.value;
    var shown := FilteredPosts(filter, posts);
    var rows := Timeline(details, filter).value;
    forall row | row in rows ensures row.post in posts && row.tag.text == BandName(b) {
      var i :| 0 <= i < |rows| && rows[i] == row;
      assert row.post == shown[i] && shown[i] in shown;
      BandPostsMembers(posts, b, shown[i]);
    }
  }
}
