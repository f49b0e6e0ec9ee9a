/**
 * The older clustering controller, server/controllers/clusteringController.js: the request
 * checks of `performClustering`, `prepareFeatures` with `calculateKeywordDensity` and
 * `extractTemporalFeatures`, `processClusteringResults`, and `generateClusterSummaries`
 * with `extractClusterKeywords` and `generateClusterDescription`.
 *
 * What the controller draws at random (the cluster labels of `performClusteringAlgorithm`,
 * the engagement and user scores) and the clock that reads a timestamp are parameters.
 */
module LegacyClustering {
  import opened Wrappers
  import opened Text
  import opened Seqs
  import opened Sorting
  import opened WordCount
  import Vectors
  import ClusteringFeatures
  import ClusterSummaries

  // ---------------------------------------------------------------------------
  // Request checks
  // ---------------------------------------------------------------------------

  /** The destructuring defaults of the request body. */
  const DefaultClusters: int := 5
  const DefaultFeatures: seq<string> := ["sentiment", "engagement"]

  datatype LegacyError =
    | Invalid(reason: ClusteringFeatures.RequestError)  // 400
    | NoDataFound                                       // 404 'No data found for the specified query'

  /** The two 400 checks, with `clusters` defaulting to 5 when the body leaves it out. */
  function Validate(query: Option<string>, clusters: Option<int>): (r: Option<LegacyError>)
    ensures r.None? <==> !ClusteringFeatures.Blank(query) && 2 <= clusters.GetOr(DefaultClusters) <= 10
    ensures r == Some(Invalid(ClusteringFeatures.QueryRequired)) <==> ClusteringFeatures.Blank(query)
    ensures clusters.None? && !ClusteringFeatures.Blank(query) ==> r.None?
  {
    match ClusteringFeatures.ValidateRequest(query, clusters.GetOr(DefaultClusters))
    case None => None
    case Some(e) => Some(Invalid(e))
  }

  /** One entry of `sentimentData`; `engagement` is the random number drawn for it. */
  datatype Item = Item(content: string, sentiment: real, engagement: real, timestamp: Option<string>,
                       subreddit: string, source: string)

  /** Where `sentimentData` comes from: the results stored for an identical earlier request, or a fresh fetch. */
  datatype Source =
    | Stored(items: seq<Item>)
    | Fetched(totalPosts: Option<int>, items: seq<Item>)

  /** After a fresh fetch, `!total_posts || sentiment_details.length === 0` answers 404; stored results are taken as they are. */
  function CheckSource(source: Source): (r: Option<LegacyError>)
    ensures r.Some? <==> source.Fetched? && (source.totalPosts in {None, Some(0)} || |source.items| == 0)
    ensures r.Some? ==> r.value == NoDataFound
  {
    match source
    case Stored(_) => None
    case Fetched(total, items) =>
      if total.None? || total.value == 0 || |items| == 0 then Some(NoDataFound) else None
  }

  // ---------------------------------------------------------------------------
  // Feature helpers
  // ---------------------------------------------------------------------------

  /**
   * `calculateKeywordDensity`: the share of distinct words among the white-space separated
   * words of the lower-cased content, and 0 for empty content.
   */
  function KeywordDensity(content: string): (r: real)
    ensures content == "" ==> r == 0.0
    ensures content != "" ==> 0.0 < r <= 1.0
  {
    if content == "" then 0.0 else Density(SplitOnSpaces(Lower(content)))
  }

  /** `new Set(words).size / words.length`: 1 exactly when no word repeats, and less the more words repeat. */
  function Density(words: seq<string>): (r: real)
    requires |words| >= 1
    ensures 0.0 < r <= 1.0
    ensures r == 1.0 <==> NoDuplicates(words)
  {
    assert words[0] in Distinct(words);
    DistinctFull(words);
    ShareInUnit(|Distinct(words)|, |words|);
    |Distinct(words)| as real / |words| as real
  }

  lemma ShareInUnit(d: nat, n: nat)
    requires 0 < d <= n
    ensures 0.0 < d as real / n as real <= 1.0
    ensures d as real / n as real == 1.0 <==> d == n
  {
    var q := d as real / n as real;
    assert q * n as real == d as real;
  }

  /** The density is 1 exactly when no word of non-empty content repeats. */
  lemma KeywordDensityOne(content: string)
    requires content != ""
    ensures KeywordDensity(content) == 1.0 <==> NoDuplicates(SplitOnSpaces(Lower(content)))
  {
    assert KeywordDensity(content) == Density(SplitOnSpaces(Lower(content)));
  }

  /** `new Date(timestamp).getHours()` and `.getDay()`, which depend on the server's time zone. */
  datatype Clock = Clock(hours: string -> int, day: string -> int)

  /** `extractTemporalFeatures`: hour of the week, and 0 for a missing or empty timestamp. */
  function TemporalFeature(timestamp: Option<string>, clock: Clock): (r: int)
    ensures timestamp.None? || timestamp.value == "" ==> r == 0
  {
    if timestamp.None? || timestamp.value == "" then 0
    else clock.hours(timestamp.value) + clock.day(timestamp.value) * 24
  }

  /** For a real date the feature is an hour of the week, from which hour and weekday are recovered. */
  lemma TemporalFeatureDecodes(timestamp: Option<string>, clock: Clock)
    requires timestamp.Some? && timestamp.value != ""
    requires 0 <= clock.hours(timestamp.value) < 24 && 0 <= clock.day(timestamp.value) < 7
    ensures var t := TemporalFeature(timestamp, clock);
            0 <= t < 168 && t % 24 == clock.hours(timestamp.value) && t / 24 == clock.day(timestamp.value)
  {
    var h := clock.hours(timestamp.value);
    var d := clock.day(timestamp.value);
    var t := h + d * 24;
    assert d * 24 <= 6 * 24;
    assert t / 24 == d && t % 24 == h by {
      assert t == d * 24 + h && 0 <= h < 24;
    }
  }

  // ---------------------------------------------------------------------------
  // prepareFeatures
  // ---------------------------------------------------------------------------

  /** The feature names `prepareFeatures` recognises, in the order its `if` blocks add them. */
  const FeatureNames: seq<string> := ["sentiment", "engagement", "length", "keywords", "temporal", "user"]

  /** The value a recognised feature name contributes; `userScore` stands for `Math.random()`. */
  function FeatureValue(item: Item, name: string, clock: Clock, userScore: real): real {
    if name == "sentiment" then item.sentiment
    else if name == "engagement" then item.engagement
    else if name == "length" then JsLength(item.content) as real
    else if name == "keywords" then KeywordDensity(item.content)
    else if name == "temporal" then TemporalFeature(item.timestamp, clock) as real
    else userScore
  }

  function Slot(selected: bool, v: real): seq<real> {
    if selected then [v] else []
  }

  /** `Object.values(features)` after the six `if (selectedFeatures.includes(..))` blocks. */
  function FeatureValues(item: Item, selected: seq<string>, clock: Clock, userScore: real): (r: seq<real>)
    ensures |r| <= |FeatureNames|
    ensures "sentiment" in selected ==> |r| > 0 && r[0] == item.sentiment
    ensures var at := if "sentiment" in selected then 1 else 0;
            "engagement" in selected ==> |r| > at && r[at] == item.engagement
    ensures selected == DefaultFeatures ==> r == [item.sentiment, item.engagement]
  {
    Slot("sentiment" in selected, item.sentiment)
    + Slot("engagement" in selected, item.engagement)
    + Slot("length" in selected, JsLength(item.content) as real)
    + Slot("keywords" in selected, KeywordDensity(item.content))
    + Slot("temporal" in selected, TemporalFeature(item.timestamp, clock) as real)
    + Slot("user" in selected, userScore)
  }

  function Selected(selected: seq<string>): string -> bool {
    (name: string) => name in selected
  }

  function ValueOf(item: Item, clock: Clock, userScore: real): string -> real {
    (name: string) => FeatureValue(item, name, clock, userScore)
  }

  /**
   * The feature vector holds the value of every recognised name that was selected, in the
   * fixed order of `FeatureNames`, whatever the order of the selection; unknown names add nothing.
   */
  lemma FeatureValuesInOrder(item: Item, selected: seq<string>, clock: Clock, userScore: real)
    ensures FeatureValues(item, selected, clock, userScore)
         == KeepIf(FeatureNames, Selected(selected), ValueOf(item, clock, userScore), |FeatureNames|)
  {
    FirstFeatures(item, selected, clock, userScore);
    LastFeatures(item, selected, clock, userScore);
  }

  lemma FirstFeatures(item: Item, selected: seq<string>, clock: Clock, userScore: real)
    ensures KeepIf(FeatureNames, Selected(selected), ValueOf(item, clock, userScore), 3)
         == Slot("sentiment" in selected, item.sentiment) + Slot("engagement" in selected, item.engagement)
            + Slot("length" in selected, JsLength(item.content) as real)
  {
    var keep := Selected(selected);
    var make := ValueOf(item, clock, userScore);
    var fs := FeatureNames;
    assert KeepIf(fs, keep, make, 1) == Slot("sentiment" in selected, item.sentiment);
    assert KeepIf(fs, keep, make, 2) == KeepIf(fs, keep, make, 1) + Slot("engagement" in selected, item.engagement);
    assert KeepIf(fs, keep, make, 3) == KeepIf(fs, keep, make, 2) + Slot("length" in selected, JsLength(item.content) as real);
  }

  lemma LastFeatures(item: Item, selected: seq<string>, clock: Clock, userScore: real)
    ensures KeepIf(FeatureNames, Selected(selected), ValueOf(item, clock, userScore), 6)
         == KeepIf(FeatureNames, Selected(selected), ValueOf(item, clock, userScore), 3)
            + Slot("keywords" in selected, KeywordDensity(item.content))
            + Slot("temporal" in selected, TemporalFeature(item.timestamp, clock) as real)
            + Slot("user" in selected, userScore)
  {
    var keep := Selected(selected);
    var make := ValueOf(item, clock, userScore);
    var fs := FeatureNames;
    assert KeepIf(fs, keep, make, 4) == KeepIf(fs, keep, make, 3) + Slot("keywords" in selected, KeywordDensity(item.content));
    assert KeepIf(fs, keep, make, 5)
        == KeepIf(fs, keep, make, 4) + Slot("temporal" in selected, TemporalFeature(item.timestamp, clock) as real);
    assert KeepIf(fs, keep, make, 6) == KeepIf(fs, keep, make, 5) + Slot("user" in selected, userScore);
  }

  /** An item with its feature vector and its scatter-plot position. */
  datatype Prepared = Prepared(item: Item, features: seq<real>, x: real, y: real)

  function PrepareItem(item: Item, selected: seq<string>, clock: Clock, userScore: real): Prepared {
    Prepared(item, FeatureValues(item, selected, clock, userScore),
             if "sentiment" in selected then item.sentiment else 0.0,
             if "engagement" in selected then item.engagement else 0.0)
  }

  /** `prepareFeatures(data, selectedFeatures)`; `userScore(i)` is the random score of the i-th item. */
  function PrepareFeatures(data: seq<Item>, selected: seq<string>, clock: Clock, userScore: nat -> real)
    : (r: seq<Prepared>)
    ensures |r| == |data|
    ensures forall i :: 0 <= i < |r| ==> r[i] == PrepareItem(data[i], selected, clock, userScore(i))
  {
    seq(|data|, i requires 0 <= i < |data| => PrepareItem(data[i], selected, clock, userScore(i)))
  }

  /**
   * x is the sentiment, and the first feature, when sentiment is selected; y is the
   * engagement, and the feature after it, when engagement is selected; otherwise each is 0.
   * With the default selection the vector is exactly (x, y).
   */
  lemma PreparedPosition(item: Item, selected: seq<string>, clock: Clock, userScore: real)
    ensures var p := PrepareItem(item, selected, clock, userScore);
            && ("sentiment" in selected ==> p.x == item.sentiment == p.features[0])
            && ("sentiment" !in selected ==> p.x == 0.0)
            && ("engagement" in selected ==>
                  p.y == item.engagement == p.features[if "sentiment" in selected then 1 else 0])
            && ("engagement" !in selected ==> p.y == 0.0)
            && (selected == DefaultFeatures ==> p.features == [p.x, p.y])
  {
  }

  // ---------------------------------------------------------------------------
  // processClusteringResults
  // ---------------------------------------------------------------------------

  /** The seven colours of the controller; the first two come back at positions 5 and 6. */
  const LegacyPalette: seq<string> := ["#8b5cf6", "#06b6d4", "#10b981", "#f59e0b", "#ef4444", "#8b5cf6", "#06b6d4"]

  /** `colors[label % colors.length]`. */
  function PaletteColor(lab: nat): (c: string)
    ensures c in LegacyPalette
  {
    LegacyPalette[lab % |LegacyPalette|]
  }

  /** Only the first five labels get colours of their own: 5 and 6 repeat 0 and 1. */
  lemma PaletteRepeats(a: nat, b: nat)
    ensures a < b < 5 ==> PaletteColor(a) != PaletteColor(b)
    ensures PaletteColor(a) == PaletteColor(a + 5) <==> a % 7 < 2
  {
    var i := a % 7;
    var j := (a + 5) % 7;
    assert j == if i < 2 then i + 5 else i - 2;
  }

  /** One entry of `dataPoints`. */
  datatype Point = Point(id: nat, content: string, sentiment: real, engagement: real, cluster: nat,
                         x: real, y: real, timestamp: Option<string>, subreddit: string, source: string,
                         color: string)

  function PointOf(item: Item, index: nat, lab: nat): Point {
    Point(index, item.content, item.sentiment, item.engagement, lab, item.sentiment, item.engagement,
          item.timestamp, item.subreddit, item.source, PaletteColor(lab))
  }

  /** `processClusteringResults`: one point per item, numbered by position, labelled and coloured by its label. */
  function ProcessResults(data: seq<Item>, labels: seq<nat>): (r: seq<Point>)
    requires |labels| == |data|
    ensures |r| == |data|
    ensures forall i :: 0 <= i < |r| ==>
              && r[i].id == i && r[i].cluster == labels[i] && r[i].color == PaletteColor(labels[i])
              && r[i].content == data[i].content && r[i].sentiment == r[i].x == data[i].sentiment
              && r[i].engagement == r[i].y == data[i].engagement
  {
    seq(|data|, i requires 0 <= i < |data| => PointOf(data[i], i, labels[i]))
  }

  // ---------------------------------------------------------------------------
  // generateClusterDescription
  // ---------------------------------------------------------------------------

  const HighlyPositive := "Highly Positive & Engaged"
  const PositiveLow := "Positive but Low Engagement"
  const NegativeEngaged := "Negative but Engaged"
  const NegativeLow := "Negative & Low Engagement"
  const NeutralSentiment := "Neutral Sentiment"

  /** `generateClusterDescription(sentiment, engagement)`. */
  function Describe(sentiment: real, engagement: real): string {
    if sentiment > 0.3 && engagement > 50.0 then HighlyPositive
    else if sentiment > 0.3 && engagement <= 50.0 then PositiveLow
    else if sentiment < -0.3 && engagement > 50.0 then NegativeEngaged
    else if sentiment < -0.3 && engagement <= 50.0 then NegativeLow
    else NeutralSentiment
  }

  /** Each of the five labels names exactly one region of the (sentiment, engagement) plane. */
  lemma DescribeRegions(sentiment: real, engagement: real)
    ensures Describe(sentiment, engagement) == HighlyPositive <==> sentiment > 0.3 && engagement > 50.0
    ensures Describe(sentiment, engagement) == PositiveLow <==> sentiment > 0.3 && engagement <= 50.0
    ensures Describe(sentiment, engagement) == NegativeEngaged <==> sentiment < -0.3 && engagement > 50.0
    ensures Describe(sentiment, engagement) == NegativeLow <==> sentiment < -0.3 && engagement <= 50.0
    ensures Describe(sentiment, engagement) == NeutralSentiment <==> -0.3 <= sentiment <= 0.3
  {
    assert HighlyPositive[0] == 'H' && PositiveLow[0] == 'P' && NeutralSentiment[0] == 'N';
    assert NegativeEngaged[9] == 'b' && NegativeLow[9] == '&' && NeutralSentiment[9] == 'e';
  }

  // ---------------------------------------------------------------------------
  // extractClusterKeywords
  // ---------------------------------------------------------------------------

  /** Only words longer than 3 characters are counted. */
  const LegacyMinLength: nat := 3

  /** The guard `word.length > LegacyMinLength`. */
  predicate LongEnough(w: string) {
    LongerThan(w, LegacyMinLength)
  }

  function PointContents(ps: seq<Point>): (r: seq<string>)
    ensures |r| == |ps|
  {
    seq(|ps|, i requires 0 <= i < |ps| => ps[i].content)
  }

  /** `clusterPoints.map(point => point.content).join(' ').toLowerCase().split(/\s+/)`. */
  function SplitWords(ps: seq<Point>): seq<string> {
    SplitOnSpaces(Lower(JoinWithSpace(PointContents(ps))))
  }

  /** The ten most frequent words longer than 3 characters, without any stop-word list. */
  function KeywordsOf(words: seq<string>): seq<string> {
    ClusterSummaries.Keys(TopByCount(Entries(Eligible(words, LongEnough)), 10))
  }

  /** `extractClusterKeywords`: the filter and counting loop, then sort and slice. */
  method ExtractClusterKeywords(ps: seq<Point>) returns (keywords: seq<string>)
    ensures keywords == KeywordsOf(SplitWords(ps))
  {
    var words := SplitWords(ps);
    var keys, counts := AddWords([], map[], words, LongEnough, []);
    ghost var seen := Eligible(words, LongEnough);
    assert [] + seen == seen;
    TalliedEntries(keys, counts, seen);
    var entries := TallyEntries(keys, counts);
    keywords := ClusterSummaries.Keys(TopByCount(entries, 10));
  }

  /** A word the count may report: present and longer than 3 characters. */
  predicate Counted(words: seq<string>, w: string) {
    w in words && LongerThan(w, LegacyMinLength)
  }

  lemma EntryCounted(words: seq<string>, e: (string, nat))
    requires e in Entries(Eligible(words, LongEnough))
    ensures Counted(words, e.0) && e.1 == multiset(words)[e.0]
  {
    var seen := Eligible(words, LongEnough);
    var entries := Entries(seen);
    EligibleMembers(words, LongEnough);
    var k :| 0 <= k < |entries| && entries[k] == e;
    assert e.0 in Distinct(seen);
    EligibleCount(words, LongEnough, e.0);
  }

  /** Each entry kept by the sort and slice is a counted word with its number of occurrences. */
  lemma TopEntriesCounted(words: seq<string>, top: seq<(string, nat)>)
    requires top == TopByCount(Entries(Eligible(words, LongEnough)), 10)
    ensures forall i :: 0 <= i < |top| ==> Counted(words, top[i].0) && top[i].1 == multiset(words)[top[i].0]
  {
    var entries := Entries(Eligible(words, LongEnough));
    TopByCountProperties(entries, 10);
    forall i | 0 <= i < |top| ensures Counted(words, top[i].0) && top[i].1 == multiset(words)[top[i].0] {
      assert top[i] in top;
      EntryCounted(words, top[i]);
    }
  }

  /**
   * At most ten distinct keywords, each a word of the text longer than 3 characters, in
   * non-increasing order of occurrences.
   */
  lemma KeywordsRanked(words: seq<string>)
    ensures var r := KeywordsOf(words);
            && |r| <= 10
            && (forall i :: 0 <= i < |r| ==> Counted(words, r[i]))
            && (forall i, j :: 0 <= i < j < |r| ==> r[i] != r[j])
            && (forall i, j :: 0 <= i < j < |r| ==> multiset(words)[r[i]] >= multiset(words)[r[j]])
  {
    var seen := Eligible(words, LongEnough);
    var entries := Entries(seen);
    var top := TopByCount(entries, 10);
    var r := KeywordsOf(words);
    EntriesDistinct(seen, entries);
    TopByCountProperties(entries, 10);
    TopByCountDistinct(entries, 10);
    TopEntriesCounted(words, top);
    forall i | 0 <= i < |r| ensures r[i] == top[i].0 && Counted(words, r[i]) && multiset(words)[r[i]] == top[i].1 {
    }
  }

  lemma EntriesDistinct(seen: seq<string>, e: seq<(string, nat)>)
    requires e == Entries(seen)
    ensures forall i, j :: 0 <= i < j < |e| ==> e[i].0 != e[j].0
  {
  }

  /** A counted word that is left out occurs no more often than any keyword kept. */
  lemma KeywordsLeftOut(words: seq<string>, w: string)
    requires Counted(words, w) && w !in KeywordsOf(words)
    ensures var r := KeywordsOf(words);
            forall i :: 0 <= i < |r| ==> multiset(words)[r[i]] >= multiset(words)[w]
  {
    var seen := Eligible(words, LongEnough);
    var entries := Entries(seen);
    var top := TopByCount(entries, 10);
    var r := KeywordsOf(words);
    TopByCountProperties(entries, 10);
    TopEntriesCounted(words, top);
    EligibleMembers(words, LongEnough);
    EntriesComplete(seen, w);
    EligibleCount(words, LongEnough, w);
    var e := (w, multiset(words)[w]);
    assert e in entries;
    forall t | 0 <= t < |top| ensures top[t] != e {
      assert r[t] in r;
    }
    forall i | 0 <= i < |r| ensures multiset(words)[r[i]] >= multiset(words)[w] {
      assert top[i] in top;
    }
  }

  // ---------------------------------------------------------------------------
  // generateClusterSummaries
  // ---------------------------------------------------------------------------

  datatype LegacySummary = LegacySummary(id: nat, name: string, size: nat, avgSentiment: real,
                                         avgEngagement: real, description: string,
                                         keywords: seq<string>, color: string)

  function InCluster(id: nat): Point -> bool {
    (p: Point) => p.cluster == id
  }

  function Itself(p: Point): Point {
    p
  }

  /** `dataPoints.filter(point => point.cluster === i)`. */
  function Members(points: seq<Point>, id: nat): (r: seq<Point>)
    ensures |r| <= |points|
  {
    KeepIf(points, InCluster(id), Itself, |points|)
  }

  /** The members of a cluster are exactly the points labelled with its id. */
  lemma MembersExact(points: seq<Point>, id: nat)
    ensures forall p :: p in Members(points, id) <==> p in points && p.cluster == id
  {
    forall p ensures p in Members(points, id) <==> p in points && p.cluster == id {
      if p in Members(points, id) {
        KeepIfSound(points, InCluster(id), Itself, |points|, p);
      }
      if p in points && p.cluster == id {
        var i :| 0 <= i < |points| && points[i] == p;
        KeepIfComplete(points, InCluster(id), Itself, |points|, i);
      }
    }
  }

  function SentimentOf(p: Point): real {
    p.sentiment
  }

  function EngagementOf(p: Point): real {
    p.engagement
  }

  /** `ps.reduce((sum, p) => sum + f(p), 0) / ps.length`, taken only for non-empty clusters. */
  function Average(ps: seq<Point>, f: Point -> real): real {
    if |ps| == 0 then 0.0 else Total(ps, f, |ps|) / |ps| as real
  }

  /** The average of a non-empty cluster lies within the range of its values. */
  lemma AverageWithin(ps: seq<Point>, f: Point -> real, lo: real, hi: real)
    requires |ps| > 0
    requires forall i :: 0 <= i < |ps| ==> lo <= f(ps[i]) <= hi
    ensures lo <= Average(ps, f) <= hi
  {
    TotalBounds(ps, f, |ps|, lo, hi);
    Vectors.DivBounds(Total(ps, f, |ps|), |ps| as real, lo, hi);
  }

  /** `Cluster ${i + 1}`. */
  function ClusterName(id: nat): string {
    "Cluster " + NatToString(id + 1)
  }

  /** The summary the loop pushes for cluster `id`. */
  function SummaryFor(points: seq<Point>, id: nat): LegacySummary {
    var ps := Members(points, id);
    var s := Average(ps, SentimentOf);
    var e := Average(ps, EngagementOf);
    LegacySummary(id, ClusterName(id), |ps|, s, e, Describe(s, e), Take(KeywordsOf(SplitWords(ps)), 5),
                  PaletteColor(id))
  }

  function NonEmpty(points: seq<Point>): nat -> bool {
    (id: nat) => |Members(points, id)| > 0
  }

  function SummaryOf(points: seq<Point>): nat -> LegacySummary {
    (id: nat) => SummaryFor(points, id)
  }

  /** The cluster ids `0 .. n-1` the loop visits. */
  function Ids(n: nat): (r: seq<nat>)
    ensures |r| == n
    ensures forall i :: 0 <= i < n ==> r[i] == i
  {
    seq(n, i requires 0 <= i < n => i)
  }

  /** `generateClusterSummaries(dataPoints, numClusters)`: the summaries of the non-empty clusters, by id. */
  function Summaries(points: seq<Point>, numClusters: nat): (r: seq<LegacySummary>)
    ensures |r| <= numClusters
  {
    KeepIf(Ids(numClusters), NonEmpty(points), SummaryOf(points), numClusters)
  }

  method GenerateClusterSummaries(points: seq<Point>, numClusters: nat) returns (clusters: seq<LegacySummary>)
    ensures clusters == Summaries(points, numClusters)
  {
    clusters := [];
    for i := 0 to numClusters
      invariant clusters == KeepIf(Ids(numClusters), NonEmpty(points), SummaryOf(points), i)
    {
      var clusterPoints := Members(points, i);
      if |clusterPoints| == 0 {
        SummarySkipped(points, numClusters, i, clusters);
        continue;
      }
      var s := BuildSummary(points, i, clusterPoints);
      SummaryPushed(points, numClusters, i, clusters, s);
      clusters := clusters + [s];
    }
  }

  /** One pass of the loop pushes the summary of cluster i when it has points. */
  lemma SummaryLoopStep(points: seq<Point>, numClusters: nat, i: nat)
    requires i < numClusters
    ensures |Members(points, i)| > 0 ==>
              KeepIf(Ids(numClusters), NonEmpty(points), SummaryOf(points), i + 1)
              == KeepIf(Ids(numClusters), NonEmpty(points), SummaryOf(points), i) + [SummaryFor(points, i)]
    ensures |Members(points, i)| == 0 ==>
              KeepIf(Ids(numClusters), NonEmpty(points), SummaryOf(points), i + 1)
              == KeepIf(Ids(numClusters), NonEmpty(points), SummaryOf(points), i)
  {
    var ids := Ids(numClusters);
    assert ids[i] == i;
    assert NonEmpty(points)(ids[i]) == (|Members(points, i)| > 0);
    assert SummaryOf(points)(ids[i]) == SummaryFor(points, i);
  }

  lemma SummarySkipped(points: seq<Point>, numClusters: nat, i: nat, prev: seq<LegacySummary>)
    requires i < numClusters && |Members(points, i)| == 0
    requires prev == KeepIf(Ids(numClusters), NonEmpty(points), SummaryOf(points), i)
    ensures prev == KeepIf(Ids(numClusters), NonEmpty(points), SummaryOf(points), i + 1)
  {
    SummaryLoopStep(points, numClusters, i);
  }

  lemma SummaryPushed(points: seq<Point>, numClusters: nat, i: nat, prev: seq<LegacySummary>, s: LegacySummary)
    requires i < numClusters && |Members(points, i)| > 0 && s == SummaryFor(points, i)
    requires prev == KeepIf(Ids(numClusters), NonEmpty(points), SummaryOf(points), i)
    ensures prev + [s] == KeepIf(Ids(numClusters), NonEmpty(points), SummaryOf(points), i + 1)
  {
    SummaryLoopStep(points, numClusters, i);
  }

  /** The body of the summary loop for a non-empty cluster. */
  method BuildSummary(points: seq<Point>, i: nat, clusterPoints: seq<Point>) returns (s: LegacySummary)
    requires clusterPoints == Members(points, i)
    ensures s == SummaryFor(points, i)
  {
    var avgSentiment := Average(clusterPoints, SentimentOf);
    var avgEngagement := Average(clusterPoints, EngagementOf);
    var keywords := ExtractClusterKeywords(clusterPoints);
    var description := Describe(avgSentiment, avgEngagement);
    s := LegacySummary(i, ClusterName(i), |clusterPoints|, avgSentiment, avgEngagement,
                       description, Take(keywords, 5), PaletteColor(i));
  }

  /** What each summary says about its cluster. */
  predicate SummarizesCluster(points: seq<Point>, numClusters: nat, s: LegacySummary) {
    var ps := Members(points, s.id);
    && s.id < numClusters
    && s.size == |ps| >= 1
    && s.name == ClusterName(s.id)
    && s.color == PaletteColor(s.id)
    && s.avgSentiment == Average(ps, SentimentOf)
    && s.avgEngagement == Average(ps, EngagementOf)
    && s.description == Describe(s.avgSentiment, s.avgEngagement)
    && s.keywords <= KeywordsOf(SplitWords(ps))
    && |s.keywords| <= 5
  }

  function IdOf(s: LegacySummary): int {
    s.id
  }

  /**
   * Summaries come in strictly increasing id order, each for a non-empty cluster below
   * `numClusters`, named "Cluster i+1" and coloured by its id.
   */
  lemma SummariesShape(points: seq<Point>, numClusters: nat)
    ensures var r := Summaries(points, numClusters);
            && (forall a, b :: 0 <= a < b < |r| ==> r[a].id < r[b].id)
            && (forall k :: 0 <= k < |r| ==> SummarizesCluster(points, numClusters, r[k]))
  {
    var ids := Ids(numClusters);
    var r := Summaries(points, numClusters);
    assert forall i :: 0 <= i < numClusters ==> IdOf(SummaryOf(points)(ids[i])) == i;
    KeepIfOrdered(ids, NonEmpty(points), SummaryOf(points), numClusters, IdOf);
    forall a, b | 0 <= a < b < |r| ensures r[a].id < r[b].id {
      assert IdOf(r[a]) < IdOf(r[b]);
    }
    forall k | 0 <= k < |r| ensures SummarizesCluster(points, numClusters, r[k]) {
      KeepIfSound(ids, NonEmpty(points), SummaryOf(points), numClusters, r[k]);
    }
  }

  /** Every label below `numClusters` that some point carries has its summary. */
  lemma SummariesComplete(points: seq<Point>, numClusters: nat, i: nat)
    requires i < |points| && points[i].cluster < numClusters
    ensures exists k :: 0 <= k < |Summaries(points, numClusters)| && Summaries(points, numClusters)[k].id == points[i].cluster
  {
    var id := points[i].cluster;
    KeepIfComplete(points, InCluster(id), Itself, |points|, i);
    assert Ids(numClusters)[id] == id;
    KeepIfComplete(Ids(numClusters), NonEmpty(points), SummaryOf(points), numClusters, id);
    var s := SummaryFor(points, id);
    var k :| 0 <= k < |Summaries(points, numClusters)| && Summaries(points, numClusters)[k] == s;
  }

  // Every point is counted in exactly one summary.

  /** The sizes of the first n summaries added up. */
  function SizesUpTo(ss: seq<LegacySummary>, n: nat): nat
    requires n <= |ss|
  {
    if n == 0 then 0 else SizesUpTo(ss, n - 1) + ss[n - 1].size
  }

  function SizeSum(ss: seq<LegacySummary>): nat {
    SizesUpTo(ss, |ss|)
  }

  lemma {:induction false} SizesUpToPrefix(ss: seq<LegacySummary>, s: LegacySummary, n: nat)
    requires n <= |ss|
    ensures SizesUpTo(ss + [s], n) == SizesUpTo(ss, n)
  {
    if n > 0 {
      SizesUpToPrefix(ss, s, n - 1);
    }
  }

  lemma SizeSumAppend(ss: seq<LegacySummary>, s: LegacySummary)
    ensures SizeSum(ss + [s]) == SizeSum(ss) + s.size
  {
    SizesUpToPrefix(ss, s, |ss|);
  }

  /** The number of members of cluster `id` among the first n points. */
  function MemberCount(points: seq<Point>, id: nat, n: nat): nat
    requires n <= |points|
  {
    |KeepIf(points, InCluster(id), Itself, n)|
  }

  /** The members of clusters `0 .. k-1` among the first n points, cluster by cluster. */
  function CountAll(points: seq<Point>, n: nat, k: nat): nat
    requires n <= |points|
  {
    if k == 0 then 0 else CountAll(points, n, k - 1) + MemberCount(points, k - 1, n)
  }

  /** The number of the first n points whose label is below k. */
  function Labelled(points: seq<Point>, n: nat, k: nat): nat
    requires n <= |points|
  {
    if n == 0 then 0 else Labelled(points, n - 1, k) + (if points[n - 1].cluster < k then 1 else 0)
  }

  lemma {:induction false} LabelledAll(points: seq<Point>, n: nat, k: nat)
    requires n <= |points|
    requires forall i :: 0 <= i < n ==> points[i].cluster < k
    ensures Labelled(points, n, k) == n
  {
    if n > 0 {
      LabelledAll(points, n - 1, k);
    }
  }

  lemma {:induction false} CountAllNone(points: seq<Point>, k: nat)
    ensures CountAll(points, 0, k) == 0
  {
    if k > 0 {
      CountAllNone(points, k - 1);
    }
  }

  /** One more point adds one to the count of its own cluster only. */
  lemma {:induction false} CountAllStep(points: seq<Point>, n: nat, k: nat)
    requires n < |points|
    ensures CountAll(points, n + 1, k) == CountAll(points, n, k) + (if points[n].cluster < k then 1 else 0)
  {
    if k > 0 {
      CountAllStep(points, n, k - 1);
    }
  }

  lemma {:induction false} CountAllLabelled(points: seq<Point>, n: nat, k: nat)
    requires n <= |points|
    ensures CountAll(points, n, k) == Labelled(points, n, k)
  {
    if n == 0 {
      CountAllNone(points, k);
    } else {
      CountAllLabelled(points, n - 1, k);
      CountAllStep(points, n - 1, k);
    }
  }

  lemma {:induction false} SummarySizes(points: seq<Point>, numClusters: nat, m: nat)
    requires m <= numClusters
    ensures SizeSum(KeepIf(Ids(numClusters), NonEmpty(points), SummaryOf(points), m)) == CountAll(points, |points|, m)
  {
    if m > 0 {
      SummarySizes(points, numClusters, m - 1);
      SummarySizeStep(points, numClusters, m);
    }
  }

  /** The loop's step for cluster m-1 adds the size of that cluster, which is 0 when it is skipped. */
  lemma SummarySizeStep(points: seq<Point>, numClusters: nat, m: nat)
    requires 0 < m <= numClusters
    ensures SizeSum(KeepIf(Ids(numClusters), NonEmpty(points), SummaryOf(points), m))
         == SizeSum(KeepIf(Ids(numClusters), NonEmpty(points), SummaryOf(points), m - 1)) + MemberCount(points, m - 1, |points|)
  {
    var prev := KeepIf(Ids(numClusters), NonEmpty(points), SummaryOf(points), m - 1);
    SummaryLoopStep(points, numClusters, m - 1);
    if |Members(points, m - 1)| > 0 {
      SizeSumAppend(prev, SummaryFor(points, m - 1));
    }
  }

  /** When every label is below `numClusters`, the summary sizes add up to the number of points. */
  lemma SummariesPartition(points: seq<Point>, numClusters: nat)
    requires forall i :: 0 <= i < |points| ==> points[i].cluster < numClusters
    ensures SizeSum(Summaries(points, numClusters)) == |points|
  {
    SummarySizes(points, numClusters, numClusters);
    CountAllLabelled(points, |points|, numClusters);
    LabelledAll(points, |points|, numClusters);
  }

  // ---------------------------------------------------------------------------
  // The response of performClustering
  // ---------------------------------------------------------------------------

  datatype Response = Response(totalPoints: nat, numClusters: nat, dataPoints: seq<Point>,
                               clusterSummaries: seq<LegacySummary>, features: seq<string>)

  /**
   * `performClustering` from the checks to the response; `labels` are the labels
   * `performClusteringAlgorithm` draws, one per item.
   */
  function Respond(query: Option<string>, clusters: Option<int>, features: Option<seq<string>>,
                   source: Source, labels: seq<nat>): (r: Result<Response, LegacyError>)
    requires |labels| == |source.items|
  {
    match Validate(query, clusters)
    case Some(e) => Failure(e)
    case None =>
      match CheckSource(source)
      case Some(e) => Failure(e)
      case None =>
        var k: nat := clusters.GetOr(DefaultClusters);
        var points := ProcessResults(source.items, labels);
        var summaries := Summaries(points, k);
        Success(Response(|source.items|, |summaries|, points, summaries, features.GetOr(DefaultFeatures)))
  }

  /**
   * The request checks come before the fetch check; a response carries the processed items and
   * their summaries, reports every item as a point,
   * at most the requested number of clusters, and, when every label is in range, summaries
   * whose sizes add up to the number of points.
   */
  lemma RespondProperties(query: Option<string>, clusters: Option<int>, features: Option<seq<string>>,
                          source: Source, labels: seq<nat>)
    requires |labels| == |source.items|
    ensures var r := Respond(query, clusters, features, source, labels);
            && (r.Success? <==> Validate(query, clusters).None? && CheckSource(source).None?)
            && (ClusteringFeatures.Blank(query) ==> r == Failure(Invalid(ClusteringFeatures.QueryRequired)))
            && (Validate(query, clusters).Some? ==> r == Failure(Validate(query, clusters).value))
            && (Validate(query, clusters).None? && CheckSource(source).Some? ==> r == Failure(NoDataFound))
            && (r.Success? ==>
                  && r.value.dataPoints == ProcessResults(source.items, labels)
                  && r.value.clusterSummaries == Summaries(r.value.dataPoints, clusters.GetOr(DefaultClusters))
                  && r.value.features == features.GetOr(DefaultFeatures))
            && (r.Success? ==>
                  && r.value.totalPoints == |r.value.dataPoints| == |source.items|
                  && r.value.numClusters == |r.value.clusterSummaries| <= clusters.GetOr(DefaultClusters)
                  && ((forall i :: 0 <= i < |labels| ==> labels[i] < clusters.GetOr(DefaultClusters)) ==>
                        SizeSum(r.value.clusterSummaries) == r.value.totalPoints))
  {
    var r := Respond(query, clusters, features, source, labels);
    var invalid := Validate(query, clusters);
    if invalid.Some? {
      assert r == Failure(invalid.value);
    } else if CheckSource(source).Some? {
      assert r == Failure(NoDataFound);
    } else {
      var k: nat := clusters.GetOr(DefaultClusters);
      var points := ProcessResults(source.items, labels);
      assert r.value.clusterSummaries == Summaries(points, k);
      if forall i :: 0 <= i < |labels| ==> labels[i] < k {
        SummariesPartition(points, k);
      }
    }
  }
}
