/** The pie chart of the results page (`SentimentBreakdown`): how many posts fall in each sentiment band. */
module SentimentBreakdown {
  import opened Wrappers
  import opened Seqs
  import opened SentimentDetails
  import opened PostTimeline

  /** The slice colours, index for index with the slices: green, red, yellow. */
  const Colors: seq<string> := ["#10B981", "#EF4444", "#F59E0B"]

  datatype Slice = Slice(name: string, value: nat)

  /** The slices in drawing order, Positive, Negative, Neutral, each the size of the timeline's band filter. */
  function Slices(posts: seq<Post>): seq<Slice> {
    [ Slice("Positive", |BandPosts(posts, Positive)|),
      Slice("Negative", |BandPosts(posts, Negative)|),
      Slice("Neutral", |BandPosts(posts, Neutral)|) ]
  }

  /**
   * The component's counting loop: nothing for missing or empty details; otherwise the
   * three counters, which agree with the timeline's filters and add up to the number of posts.
   */
  method Breakdown(details: Option<seq<Post>>) returns (data: Option<seq<Slice>>)
    ensures data.None? <==> details.None? || |details.value| == 0
    ensures data.Some? ==> data.value == Slices(details.value)
    ensures data.Some? ==> data.value[0].value + data.value[1].value + data.value[2].value == |details.value|
  {
    if details.None? || |details.value| == 0 {
      return None;
    }
    var posts := details.value;
    var positive: nat, negative: nat, neutral: nat := 0, 0, 0;
    for i := 0 to |posts|
      invariant positive == |KeepIf(posts, ScoreIn(Positive), SamePost, i)|
      invariant negative == |KeepIf(posts, ScoreIn(Negative), SamePost, i)|
      invariant neutral == |KeepIf(posts, ScoreIn(Neutral), SamePost, i)|
    {
      var score := posts[i].sentimentScore;
      if score >= 0.66 {
        positive := positive + 1;
      } else if score <= 0.33 {
        negative := negative + 1;
      } else {
        neutral := neutral + 1;
      }
    }
    BandsPartition(posts);
    data := Some([Slice("Positive", positive), Slice("Negative", negative), Slice("Neutral", neutral)]);
  }
}
