/**
 * The input side of server/controllers/clustering.controller.js: request validation in
 * `performClustering`, the data points built from stored results (`rawData`),
 * `calculateEngagement`, `normalizeValue`, `extractKeywordFeatures`,
 * `prepareClusteringFeatures`, and the clamps of `calculateClusteringMetrics`.
 */
module ClusteringFeatures {
  import opened Wrappers
  import opened Text
  import opened Vectors

  const MinClusters := 2
  const MaxClusters := 10

  datatype RequestError =
    | QueryRequired                                  // 'Query parameter is required'
    | ClusterCountOutOfRange                         // 'Number of clusters must be between 2 and 10'
    | InsufficientData(needed: int, available: nat)  // 'Insufficient data for clustering ...'

  /** A query that is missing (`!query`) or blank after `trim()`. */
  predicate Blank(query: Option<string>) {
    query.None? || Trim(query.value) == ""
  }

  /** The two checks at the top of `performClustering`, in source order; both answer 400. */
  function ValidateRequest(query: Option<string>, clusters: int): (r: Option<RequestError>)
    ensures r == Some(QueryRequired)
        <==> query.None? || forall i :: 0 <= i < |query.value| ==> IsSpace(query.value[i])
    ensures r == Some(ClusterCountOutOfRange) <==> !Blank(query) && !(MinClusters <= clusters <= MaxClusters)
    ensures r.None? <==> !Blank(query) && MinClusters <= clusters <= MaxClusters
  {
    assert query.Some? ==> (Blank(query) <==> forall i :: 0 <= i < |query.value| ==> IsSpace(query.value[i])) by {
      if query.Some? {
        TrimEmptyIffBlank(query.value, IsSpace);
      }
    }
    if Blank(query) then Some(QueryRequired)
    else if clusters < MinClusters || clusters > MaxClusters then Some(ClusterCountOutOfRange)
    else None
  }

  /** `trim()` removes a no-break space, so a query made of one is refused as missing. */
  lemma NoBreakSpaceQuery()
    ensures ValidateRequest(Some("\U{A0}"), 5) == Some(QueryRequired)
    ensures ValidateRequest(Some("\U{A0}a"), 5).None?
  {
    assert IsSpace("\U{A0}"[0]);
    assert !IsSpace("\U{A0}a"[1]);
  }

  /** `rawData.length < clusters` answers 400 before any clustering is attempted. */
  function CheckDataSize(count: nat, clusters: int): (r: Option<RequestError>)
    ensures r.None? <==> count >= clusters
    ensures r.Some? ==> r.value == InsufficientData(clusters, count)
  {
    if count < clusters then Some(InsufficientData(clusters, count)) else None
  }

  // ---------------------------------------------------------------- data points

  /** One entry of `rawData`. */
  datatype DataPoint = DataPoint(
    content: string,
    sentiment: real,
    engagement: real,
    subreddit: string,
    wordCount: nat,
    hasLinks: bool,
    hasQuestions: bool,
    hasExclamations: bool,
    hourOfDay: int,
    dayOfWeek: int)

  /** `fields.filter(word => word.length > 0).length`: every field except the empty ones. */
  function CountWords(fields: seq<string>): (n: nat)
    ensures n == |fields| - multiset(fields)[""]
  {
    if fields == [] then 0
    else
      var init := fields[..|fields| - 1];
      assert fields == init + [fields[|fields| - 1]];
      CountWords(init) + (if fields[|fields| - 1] != "" then 1 else 0)
  }

  /** One more field in front counts one more word unless it is empty. */
  lemma CountWordsCons(f: string, rest: seq<string>)
    ensures CountWords([f] + rest) == (if f != "" then 1 else 0) + CountWords(rest)
  {
    assert multiset([f] + rest) == multiset([f]) + multiset(rest);
  }

  /** The fields of a split that are not empty are the words of the text, one per word start. */
  lemma {:induction false} SplitWordCount(s: string, sp: char -> bool)
    ensures CountWords(SplitBy(s, sp)) == WordStarts(s, |s|, sp)
    decreases |s|
  {
    var i := NextSpace(s, 0, sp);
    if i == |s| {
      assert SplitBy(s, sp) == [s] + [];
      CountWordsCons(s, []);
      LeadingWordStarts(s, i, i, |s|, sp);
    } else {
      var j := SpaceRun(s, i, sp);
      SplitWordCount(s[j..], sp);
      SplitHeadCount(s, sp);
      HeadWordStarts(s, sp);
    }
  }

  /** A split past its first white-space run counts the first field, if not empty, and the rest. */
  lemma SplitHeadCount(s: string, sp: char -> bool)
    requires NextSpace(s, 0, sp) < |s|
    ensures var i := NextSpace(s, 0, sp);
      CountWords(SplitBy(s, sp)) == (if i > 0 then 1 else 0) + CountWords(SplitBy(s[SpaceRun(s, i, sp)..], sp))
  {
    var i := NextSpace(s, 0, sp);
    var rest := SplitBy(s[SpaceRun(s, i, sp)..], sp);
    assert SplitBy(s, sp) == [s[..i]] + rest;
    CountWordsCons(s[..i], rest);
    assert |s[..i]| == i;
  }

  /** Past the first white-space run, the word starts are the first word's, if any, and the rest's. */
  lemma HeadWordStarts(s: string, sp: char -> bool)
    requires NextSpace(s, 0, sp) < |s|
    ensures var i := NextSpace(s, 0, sp); var t := s[SpaceRun(s, i, sp)..];
      WordStarts(s, |s|, sp) == (if i > 0 then 1 else 0) + WordStarts(t, |t|, sp)
  {
    var i := NextSpace(s, 0, sp);
    var j := SpaceRun(s, i, sp);
    LeadingWordStarts(s, i, j, j, sp);
    WordStartsAppend(s, j, |s| - j, sp);
    assert j + (|s| - j) == |s|;
  }

  /**
   * `text.split(/\s+/).filter(word => word.length > 0).length`: the number of words, that is
   * of maximal runs without white space; none exactly when the text is all white space.
   */
  function WordCountOf(text: string): (n: nat)
    ensures n == WordStarts(text, |text|, IsSpace)
    ensures n == 0 <==> forall k :: 0 <= k < |text| ==> IsSpace(text[k])
  {
    SplitWordCount(text, IsSpace);
    NoWordStarts(text, |text|, IsSpace);
    CountWords(SplitOnSpaces(text))
  }

  /** `split(/\s+/)` keeps empty fields at the ends; the filter drops them, so surrounding white space adds no word. */
  lemma WordCountIgnoresPadding()
    ensures SplitOnSpaces(" a") == ["", "a"]
    ensures WordCountOf(" a\U{A0}b ") == 2
  {
    assert NextSpace(" a", 0, IsSpace) == 0 && SpaceRun(" a", 0, IsSpace) == 1;
    assert NextSpace("a", 0, IsSpace) == 1;
    var padded := " a\U{A0}b ";
    assert IsSpace(padded[0]) && !IsSpace(padded[1]) && IsSpace(padded[2]);
    assert !IsSpace(padded[3]) && IsSpace(padded[4]);
    assert WordStarts(padded, 1, IsSpace) == 0;
    assert WordStarts(padded, 2, IsSpace) == 1;
    assert WordStarts(padded, 3, IsSpace) == 1;
    assert WordStarts(padded, 4, IsSpace) == 2;
    assert WordStarts(padded, 5, IsSpace) == 2;
  }

  /** `/https?:\/\//.test(text)`. */
  predicate HasLink(text: string) {
    Contains(text, "http://") || Contains(text, "https://")
  }

  /**
   * The `rawData` entry for one stored result: the clock-dependent hour and day and the
   * random base of the engagement score are given.
   */
  function MakeDataPoint(text: string, sentiment: real, engagementBase: real, subreddit: string,
                         hourOfDay: int, dayOfWeek: int): (d: DataPoint)
    ensures 0.0 <= d.engagement <= 100.0
    ensures d.wordCount == WordStarts(text, |text|, IsSpace)
    ensures d.wordCount == 0 <==> forall k :: 0 <= k < |text| ==> IsSpace(text[k])
    ensures d.hasLinks <==> Contains(text, "http://") || Contains(text, "https://")
    ensures d.hasQuestions <==> Contains(text, "?")
    ensures d.hasExclamations <==> Contains(text, "!")
  {
    DataPoint(text, sentiment, Engagement(engagementBase, text, subreddit), subreddit,
              WordCountOf(text), HasLink(text), Contains(text, "?"), Contains(text, "!"),
              hourOfDay, dayOfWeek)
  }

  /** A result without text (`result.description || ""`) has no words, links, questions or exclamations. */
  lemma EmptyTextDataPoint(sentiment: real, engagementBase: real, subreddit: string, hourOfDay: int, dayOfWeek: int)
    ensures var d := MakeDataPoint("", sentiment, engagementBase, subreddit, hourOfDay, dayOfWeek);
            d.wordCount == 0 && !d.hasLinks && !d.hasQuestions && !d.hasExclamations
  {
    assert SplitOnSpaces("") == [""];
    ContainsShortNeedle("", "?");
    ContainsShortNeedle("", "!");
    ContainsShortNeedle("", "http://");
    ContainsShortNeedle("", "https://");
  }

  lemma ContainsShortNeedle(hay: string, needle: string)
    requires |needle| > |hay|
    ensures !Contains(hay, needle)
  {
    if Contains(hay, needle) {
      ContainsLength(hay, needle);
    }
  }

  // ---------------------------------------------------------------- engagement

  function Clamp(x: real, lo: real, hi: real): (r: real)
    requires lo <= hi
    ensures lo <= r <= hi
    ensures lo <= x <= hi ==> r == x
    ensures x < lo ==> r == lo
    ensures x > hi ==> r == hi
  {
    if x < lo then lo else if x > hi then hi else x
  }

  /** The content boosts of `calculateEngagement`; the length test counts UTF-16 code units. */
  function EngagementBoost(content: string, subreddit: string): (b: real)
    ensures 0.0 <= b <= 45.0
  {
    (if Contains(content, "?") then 10.0 else 0.0)
    + (if Contains(content, "!") then 5.0 else 0.0)
    + (if JsLength(content) > 200 then 10.0 else 0.0)
    + (if HasLink(content) then 5.0 else 0.0)
    + (if subreddit != "" && Contains(subreddit, "popular") then 15.0 else 0.0)
  }

  /**
   * `calculateEngagement` with its random base (`Math.random() * 40 + 10`) as a parameter:
   * the base plus the boosts, clamped to [0, 100].
   */
  function Engagement(base: real, content: string, subreddit: string): (r: real)
    ensures 0.0 <= r <= 100.0
  {
    Clamp(base + EngagementBoost(content, subreddit), 0.0, 100.0)
  }

  /** For a base drawn from [10, 50) the clamp never bites: the score is base plus boosts, in [10, 95). */
  lemma EngagementUnclamped(base: real, content: string, subreddit: string)
    requires 10.0 <= base < 50.0
    ensures Engagement(base, content, subreddit) == base + EngagementBoost(content, subreddit)
    ensures 10.0 <= Engagement(base, content, subreddit) < 95.0
  {
  }

  // ---------------------------------------------------------------- normalisation

  /**
   * `normalizeValue`: 0.5 for a value that is not a number (`None`, which also stands
   * for NaN) or a degenerate range, otherwise the position in [min, max] clamped to [0, 1].
   */
  function NormalizeValue(value: Option<real>, min: real, max: real): (r: real)
    ensures 0.0 <= r <= 1.0
    ensures value.None? || max == min ==> r == 0.5
  {
    if value.None? || max == min then 0.5 else Clamp((value.value - min) / (max - min), 0.0, 1.0)
  }

  /**
   * On a proper range the result is the affine position of the value: 0 at or below the
   * minimum, 1 at or above the maximum, linear in between and order-preserving.
   */
  lemma NormalizeValueOnRange(v: real, w: real, min: real, max: real)
    requires min < max
    ensures v <= min ==> NormalizeValue(Some(v), min, max) == 0.0
    ensures v >= max ==> NormalizeValue(Some(v), min, max) == 1.0
    ensures min <= v <= max ==> NormalizeValue(Some(v), min, max) == (v - min) / (max - min)
    ensures v <= w ==> NormalizeValue(Some(v), min, max) <= NormalizeValue(Some(w), min, max)
  {
    var d := max - min;
    if v <= min {
      DivNonPositive(v - min, d);
    }
    if v >= max {
      DivAtLeastOne(v - min, d);
    }
    if min <= v <= max {
      DivAtMostOne(v - min, d);
      DivNonNegative(v - min, d);
    }
    if v <= w {
      DivMonotone(v - min, w - min, d);
    }
  }

  lemma DivMonotone(a: real, b: real, d: real)
    requires d > 0.0 && a <= b
    ensures a / d <= b / d
  {
  }

  lemma DivAtLeastOne(a: real, d: real)
    requires d > 0.0 && a >= d
    ensures a / d >= 1.0
  {
  }

  lemma DivAtMostOne(a: real, d: real)
    requires d > 0.0 && a <= d
    ensures a / d <= 1.0
  {
  }

  lemma DivNonPositive(a: real, d: real)
    requires d > 0.0 && a <= 0.0
    ensures a / d <= 0.0
  {
  }

  lemma DivNonNegative(a: real, d: real)
    requires d > 0.0 && a >= 0.0
    ensures a / d >= 0.0
  {
  }

  // ---------------------------------------------------------------- keyword features

  /** A whole word of the lower-cased text equal to one of `words` (`\b(a|b|...)\b` with the `i` flag). */
  predicate MentionsAny(content: string, words: seq<string>) {
    exists w :: w in WordRuns(Lower(content)) && w in words
  }

  /** The phrase "compared to" standing between word boundaries in the lower-cased text. */
  predicate MentionsComparedTo(content: string) {
    exists i :: 0 <= i <= |content| && PhraseAt(Lower(content), "compared to", i)
  }

  /** `phrase` occurs in `t` at index `i` with a word boundary on each side. */
  predicate PhraseAt(t: string, phrase: string, i: int) {
    && 0 <= i && i + |phrase| <= |t| && t[i..i + |phrase|] == phrase
    && (i == 0 || !IsWordChar(t[i - 1]))
    && (i + |phrase| == |t| || !IsWordChar(t[i + |phrase|]))
  }

  function Flag(b: bool): real {
    if b then 1.0 else 0.0
  }

  const BrandWords := ["brand", "product", "company", "apple", "google", "microsoft"]
  const EmotionalWords := ["love", "hate", "amazing", "terrible", "awesome", "awful", "great", "bad"]
  const ComparisonWords := ["better", "worse", "vs", "versus", "than"]
  const PriceWords := ["cheap", "expensive", "price", "cost", "money", "dollar", "worth"]
  const RecommendationWords := ["recommend", "suggest", "should", "must", "try", "avoid"]

  /** `Object.values(extractKeywordFeatures(content))`: five 0/1 flags, all 0 for empty content. */
  function KeywordFeatures(content: string): (r: seq<real>)
    ensures |r| == 5
    ensures forall i :: 0 <= i < 5 ==> r[i] == 0.0 || r[i] == 1.0
  {
    if content == "" then [0.0, 0.0, 0.0, 0.0, 0.0]
    else
      [ Flag(MentionsAny(content, BrandWords)),
        Flag(MentionsAny(content, EmotionalWords)),
        Flag(MentionsAny(content, ComparisonWords) || MentionsComparedTo(content)),
        Flag(MentionsAny(content, PriceWords)),
        Flag(MentionsAny(content, RecommendationWords)) ]
  }

  // ---------------------------------------------------------------- feature vectors

  /** The names a request may list in `features`; duplicates and other names change nothing. */
  datatype Selection = Selection(sentiment: bool, engagement: bool, content: bool,
                                 temporal: bool, keywords: bool, user: bool)

  function SelectionOf(names: seq<string>): Selection {
    Selection("sentiment" in names, "engagement" in names, "content" in names,
              "temporal" in names, "keywords" in names, "user" in names)
  }

  function Count(b: bool, n: nat): nat {
    if b then n else 0
  }

  /** The vector length the selection asks for: 2, 1, 4, 2, 5 and 2 per group, or 2 when nothing is selected. */
  function Dimension(sel: Selection): (d: nat)
    ensures d >= 1
  {
    var total := Count(sel.sentiment, 2) + Count(sel.engagement, 1) + Count(sel.content, 4)
               + Count(sel.temporal, 2) + Count(sel.keywords, 5) + Count(sel.user, 2);
    if total == 0 then 2 else total
  }

  function Abs(x: real): real {
    if x < 0.0 then -x else x
  }

  /** Every entry lies in [0, 1]. */
  predicate InUnit(v: Vector) {
    forall i :: 0 <= i < |v| ==> 0.0 <= v[i] <= 1.0
  }

  lemma InUnitConcat(a: Vector, b: Vector)
    requires InUnit(a) && InUnit(b)
    ensures InUnit(a + b)
  {
    forall i | 0 <= i < |a + b| ensures 0.0 <= (a + b)[i] <= 1.0 {
      if i >= |a| {
        assert (a + b)[i] == b[i - |a|];
      }
    }
  }

  /**
   * The sentiment mapped from [-1, 1] onto [0, 1], then its magnitude, when the group is
   * selected.
   */
  function SentimentGroup(d: DataPoint, sel: Selection): (v: Vector)
    ensures |v| == Count(sel.sentiment, 2)
    ensures -1.0 <= d.sentiment <= 1.0 ==> InUnit(v)
    ensures sel.sentiment && -1.0 <= d.sentiment <= 1.0 ==> v[0] == (d.sentiment + 1.0) / 2.0
    ensures sel.sentiment ==> v[1] >= 0.0 && (v[1] == d.sentiment || v[1] == -d.sentiment)
  {
    NormalizeValueOnRange(d.sentiment, d.sentiment, -1.0, 1.0);
    if sel.sentiment then [NormalizeValue(Some(d.sentiment), -1.0, 1.0), Abs(d.sentiment)] else []
  }

  function EngagementGroup(d: DataPoint, sel: Selection): (v: Vector)
    ensures |v| == Count(sel.engagement, 1) && InUnit(v)
  {
    if sel.engagement then [NormalizeValue(Some(d.engagement), 0.0, 100.0)] else []
  }

  function ContentGroup(d: DataPoint, sel: Selection): (v: Vector)
    ensures |v| == Count(sel.content, 4) && InUnit(v)
  {
    if sel.content then [NormalizeValue(Some(d.wordCount as real), 0.0, 500.0),
                         Flag(d.hasLinks), Flag(d.hasQuestions), Flag(d.hasExclamations)]
    else []
  }

  function TemporalGroup(d: DataPoint, sel: Selection): (v: Vector)
    ensures |v| == Count(sel.temporal, 2) && InUnit(v)
  {
    if sel.temporal then [NormalizeValue(Some(d.hourOfDay as real), 0.0, 23.0),
                          NormalizeValue(Some(d.dayOfWeek as real), 0.0, 6.0)]
    else []
  }

  function KeywordGroup(d: DataPoint, sel: Selection): (v: Vector)
    ensures |v| == Count(sel.keywords, 5) && InUnit(v)
  {
    if sel.keywords then KeywordFeatures(d.content) else []
  }

  function UserGroup(d: DataPoint, sel: Selection): (v: Vector)
    ensures |v| == Count(sel.user, 2) && InUnit(v)
  {
    if sel.user then [NormalizeValue(Some(d.wordCount as real / 100.0), 0.0, 5.0), Flag(d.subreddit != "")]
    else []
  }

  /** The `features` array that `prepareClusteringFeatures` attaches to one data point. */
  function FeatureVector(d: DataPoint, sel: Selection): Vector {
    var v := SentimentGroup(d, sel) + EngagementGroup(d, sel) + ContentGroup(d, sel)
           + TemporalGroup(d, sel) + KeywordGroup(d, sel) + UserGroup(d, sel);
    if v == [] then [NormalizeValue(Some(d.sentiment), -1.0, 1.0), NormalizeValue(Some(d.engagement), 0.0, 100.0)]
    else v
  }

  /**
   * The vector has exactly the length the selection asks for, never zero, and every
   * entry lies in [0, 1] except the sentiment magnitude, which is |sentiment|.
   */
  lemma FeatureVectorShape(d: DataPoint, sel: Selection)
    ensures |FeatureVector(d, sel)| == Dimension(sel)
    ensures -1.0 <= d.sentiment <= 1.0 ==> InUnit(FeatureVector(d, sel))
  {
    var a, b, c := SentimentGroup(d, sel), EngagementGroup(d, sel), ContentGroup(d, sel);
    var t, k, u := TemporalGroup(d, sel), KeywordGroup(d, sel), UserGroup(d, sel);
    if -1.0 <= d.sentiment <= 1.0 {
      InUnitConcat(a, b);
      InUnitConcat(a + b, c);
      InUnitConcat(a + b + c, t);
      InUnitConcat(a + b + c + t, k);
      InUnitConcat(a + b + c + t + k, u);
    }
  }

  /** `prepareClusteringFeatures(...).map(d => d.features)`: one vector per data point. */
  function PrepareFeatures(data: seq<DataPoint>, names: seq<string>): (points: seq<Vector>)
    ensures |points| == |data|
    ensures Uniform(points, Dimension(SelectionOf(names)))
  {
    var sel := SelectionOf(names);
    seq(|data|, i requires 0 <= i < |data| => FeatureVector(data[i], sel))
  }

  // ---------------------------------------------------------------- metric clamps

  /** The silhouette score as reported: clamped to [-1, 1]. */
  function ReportedSilhouette(score: real): (r: real)
    ensures -1.0 <= r <= 1.0
    ensures -1.0 <= score <= 1.0 ==> r == score
  {
    Clamp(score, -1.0, 1.0)
  }

  /** The coherence measure: the silhouette score floored at 0. */
  function Coherence(score: real): (r: real)
    ensures r >= 0.0 && r >= score
    ensures score >= 0.0 ==> r == score
  {
    if score > 0.0 then score else 0.0
  }

  /**
   * The inertia of `calculateClusteringMetrics`: squared distances of points to the
   * centroid of their label, skipping labels with no centroid.
   */
  function Inertia(points: seq<Vector>, labels: seq<int>, centroids: seq<Vector>): (r: real)
    requires |labels| == |points|
    requires forall i, j :: 0 <= i < |points| && 0 <= j < |centroids| ==> |points[i]| == |centroids[j]|
    ensures r >= 0.0
  {
    if points == [] then 0.0
    else
      var n := |points| - 1;
      Inertia(points[..n], labels[..n], centroids)
        + (if 0 <= labels[n] < |centroids| then SqDist(points[n], centroids[labels[n]]) else 0.0)
  }
}
