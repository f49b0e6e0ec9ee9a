/**
 * What server/controllers/clustering.controller.js reports about the clusters it found:
 * `generateClusterSummaries`, `generateClusterName`, `generateClusterDescription`,
 * `extractClusterKeywords`, `generateClusterActionableInsights`,
 * `generateActionableRecommendations`, and the colour and size of every plotted point.
 *
 * `toFixed` and `Math.round` only format numbers for display and are not modelled: the
 * averages and percentages are exact reals.
 */
module ClusterSummaries {
  import opened Wrappers
  import opened Text
  import opened Sorting
  import opened Seqs
  import opened WordCount
  import opened ClusteringFeatures

  /** The ten summary colours, handed out by cluster id. */
  const Palette: seq<string> := ["#8b5cf6", "#06b6d4", "#10b981", "#f59e0b", "#ef4444",
                                 "#ec4899", "#14b8a6", "#f97316", "#6366f1", "#84cc16"]

  /** The colour of a point whose summary lookup finds nothing. */
  const DefaultColor: string := "#8b5cf6"

  /** `colors[i % colors.length]`. */
  function ColorOf(id: nat): (c: string)
    ensures c in Palette
  {
    Palette[id % |Palette|]
  }

  // ---------------------------------------------------------------------------
  // Levels, names and descriptions
  // ---------------------------------------------------------------------------

  datatype SentimentLevel = Positive | Negative | Neutral

  /** `'High'`, `'Medium'`, `'Low'`, and `'None'` for an empty cluster. */
  datatype EngagementLevel = High | Medium | Low | NoEngagement

  function SentimentLevelName(l: SentimentLevel): string {
    match l
    case Positive => "Positive"
    case Negative => "Negative"
    case Neutral => "Neutral"
  }

  function EngagementLevelName(l: EngagementLevel): string {
    match l
    case High => "High"
    case Medium => "Medium"
    case Low => "Low"
    case NoEngagement => "None"
  }

  /** Positive above 0.2, Negative below -0.2, Neutral in between. */
  function SentimentLevelOf(avg: real): (l: SentimentLevel)
    ensures l == Positive <==> avg > 0.2
    ensures l == Negative <==> avg < -0.2
    ensures l == Neutral <==> -0.2 <= avg <= 0.2
  {
    if avg > 0.2 then Positive else if avg < -0.2 then Negative else Neutral
  }

  /** High above 60, Medium above 30, Low otherwise; never `None`. */
  function EngagementLevelOf(avg: real): (l: EngagementLevel)
    ensures l == High <==> avg > 60.0
    ensures l == Medium <==> 30.0 < avg <= 60.0
    ensures l == Low <==> avg <= 30.0
    ensures l != NoEngagement
  {
    if avg > 60.0 then High else if avg > 30.0 then Medium else Low
  }

  /** `sentimentNames[sentimentCategory]`, with its own engagement thresholds. */
  function BaseName(avgSentiment: real, avgEngagement: real): string {
    if avgSentiment > 0.2 then
      (if avgEngagement > 60.0 then "Enthusiasts" else if avgEngagement > 30.0 then "Supporters" else "Quiet Supporters")
    else if avgSentiment < -0.2 then
      (if avgEngagement > 60.0 then "Active Critics" else if avgEngagement > 30.0 then "Skeptics" else "Silent Critics")
    else
      (if avgEngagement > 60.0 then "Active Observers" else if avgEngagement > 30.0 then "Casual Users" else "Lurkers")
  }

  /** `generateClusterName`: the base name, prefixed by the average word count. */
  function ClusterName(avgSentiment: real, avgEngagement: real, avgWordCount: real): string {
    var base := BaseName(avgSentiment, avgEngagement);
    if avgWordCount > 100.0 then "Detailed " + base
    else if avgWordCount < 20.0 then "Brief " + base
    else base
  }

  /** The name table indexed by the summary's own levels. */
  function LevelName(s: SentimentLevel, e: EngagementLevel): string
    requires e != NoEngagement
  {
    match (s, e)
    case (Positive, High) => "Enthusiasts"
    case (Positive, Medium) => "Supporters"
    case (Positive, _) => "Quiet Supporters"
    case (Negative, High) => "Active Critics"
    case (Negative, Medium) => "Skeptics"
    case (Negative, _) => "Silent Critics"
    case (Neutral, High) => "Active Observers"
    case (Neutral, Medium) => "Casual Users"
    case (Neutral, _) => "Lurkers"
  }

  function WordCountPrefix(avgWordCount: real): string {
    if avgWordCount > 100.0 then "Detailed " else if avgWordCount < 20.0 then "Brief " else ""
  }

  /**
   * The name agrees with the levels the summary reports: its thresholds are the same as
   * those of the sentiment and engagement levels.
   */
  lemma ClusterNameMatchesLevels(avgSentiment: real, avgEngagement: real, avgWordCount: real)
    ensures ClusterName(avgSentiment, avgEngagement, avgWordCount)
         == WordCountPrefix(avgWordCount) + LevelName(SentimentLevelOf(avgSentiment), EngagementLevelOf(avgEngagement))
  {
    assert "" + BaseName(avgSentiment, avgEngagement) == BaseName(avgSentiment, avgEngagement);
  }

  /** Different levels give different names, so the name tells the levels apart. */
  lemma LevelNameInjective(s1: SentimentLevel, e1: EngagementLevel, s2: SentimentLevel, e2: EngagementLevel)
    requires e1 != NoEngagement && e2 != NoEngagement
    requires e1 != Low && e2 != Low
    requires LevelName(s1, e1) == LevelName(s2, e2)
    ensures s1 == s2 && e1 == e2
  {
  }

  /**
   * The `templates` table of `generateClusterDescription`: the text before and after the
   * size, for the nine keys that have a template.
   */
  function Template(s: SentimentLevel, e: EngagementLevel): Option<(string, string)> {
    match (s, e)
    case (Positive, High) =>
      Some(("Highly engaged positive audience segment with ", " members who actively participate and share favorable opinions"))
    case (Positive, Medium) => Some(("Moderately engaged supporters with ", " members who generally express positive views"))
    case (Positive, Low) => Some(("Quiet supporters with ", " members who hold positive opinions but engage less frequently"))
    case (Negative, High) =>
      Some(("Highly active critics with ", " members who frequently express concerns and negative feedback"))
    case (Negative, Medium) => Some(("Moderate critics with ", " members who occasionally share negative opinions"))
    case (Negative, Low) => Some(("Silent critics with ", " members who hold negative views but engage minimally"))
    case (Neutral, High) =>
      Some(("Active observers with ", " members who participate frequently but maintain neutral positions"))
    case (Neutral, Medium) =>
      Some(("Casual participants with ", " members who engage occasionally with balanced perspectives"))
    case (Neutral, Low) => Some(("Passive audience with ", " members who observe but rarely engage actively"))
    case (_, NoEngagement) => None
  }

  const GenericDescriptionStart: string := "Audience segment with "

  /** `sentimentLevel.toLowerCase()`. */
  function SentimentWord(l: SentimentLevel): string {
    match l
    case Positive => "positive"
    case Negative => "negative"
    case Neutral => "neutral"
  }

  /** `engagementLevel.toLowerCase()`. */
  function EngagementWord(l: EngagementLevel): string {
    match l
    case High => "high"
    case Medium => "medium"
    case Low => "low"
    case NoEngagement => "none"
  }

  /** The sentiment words are the lower-cased level names. */
  lemma SentimentWordIsLowerCase(l: SentimentLevel)
    ensures SentimentWord(l) == Lower(SentimentLevelName(l))
  {
  }

  /** The engagement words are the lower-cased level names. */
  lemma EngagementWordIsLowerCase(l: EngagementLevel)
    ensures EngagementWord(l) == Lower(EngagementLevelName(l))
  {
  }

  function GenericRest(s: SentimentLevel, e: EngagementLevel): string {
    " members showing " + SentimentWord(s) + " sentiment and " + EngagementWord(e) + " engagement"
  }

  /** `templates[key] || \`Audience segment with ${size} members showing ...\``. */
  function Description(s: SentimentLevel, e: EngagementLevel, size: nat): string {
    match Template(s, e)
    case Some((before, after)) => before + NatToString(size) + after
    case None => GenericDescriptionStart + NatToString(size) + GenericRest(s, e)
  }

  /** Exactly the engagement level `None` has no template. */
  lemma TemplateCoverage(s: SentimentLevel, e: EngagementLevel)
    ensures Template(s, e).None? <==> e == NoEngagement
  {
  }

  /** Every description states the size of the cluster. */
  lemma DescriptionMentionsSize(s: SentimentLevel, e: EngagementLevel, size: nat)
    ensures Contains(Description(s, e, size), NatToString(size))
  {
    var n := NatToString(size);
    match Template(s, e)
    case Some((before, after)) =>
      ContainsInfix(before, n, after);
    case None =>
      ContainsInfix(GenericDescriptionStart, n, GenericRest(s, e));
  }

  /** Without a template the generic sentence is used. */
  lemma DescriptionGeneric(s: SentimentLevel, size: nat)
    ensures GenericDescriptionStart <= Description(s, NoEngagement, size)
  {
    var d := Description(s, NoEngagement, size);
    assert d == GenericDescriptionStart + (NatToString(size) + GenericRest(s, NoEngagement));
  }

  // ---------------------------------------------------------------------------
  // Keywords
  // ---------------------------------------------------------------------------

  const StopWords: set<string> := {"this", "that", "with", "have", "will", "from", "they", "been", "said",
                                   "each", "which", "their", "time", "about", "would", "there", "could", "other"}

  /** Only words longer than 3 characters are counted. */
  const KeywordMinLength: nat := 3

  /** The guard `word.length > KeywordMinLength`. */
  predicate LongEnough(w: string) {
    LongerThan(w, KeywordMinLength)
  }

  function Contents(points: seq<DataPoint>): (r: seq<string>)
    ensures |r| == |points|
  {
    seq(|points|, i requires 0 <= i < |points| => points[i].content)
  }

  /** `clusterPoints.map(p => p.content).join(' ').toLowerCase().match(/\b\w+\b/g) || []`. */
  function ClusterWords(points: seq<DataPoint>): seq<string> {
    WordRuns(Lower(JoinWithSpace(Contents(points))))
  }

  /** `.filter(([word]) => !stopWords.has(word))`. */
  function KeepNonStop(entries: seq<(string, nat)>): (r: seq<(string, nat)>)
    ensures forall e :: e in r <==> e in entries && e.0 !in StopWords
    ensures (forall i, j :: 0 <= i < j < |entries| ==> entries[i].0 != entries[j].0) ==>
              forall i, j :: 0 <= i < j < |r| ==> r[i].0 != r[j].0
  {
    if entries == [] then []
    else
      var last := entries[|entries| - 1];
      var init := entries[..|entries| - 1];
      assert entries == init + [last];
      KeepNonStop(init) + (if last.0 !in StopWords then [last] else [])
  }

  /** The (word, count) pairs of `words` that survive the length and stop-word filters, before sorting. */
  function CandidateEntries(words: seq<string>): seq<(string, nat)> {
    KeepNonStop(Entries(Eligible(words, LongEnough)))
  }

  function Keys(entries: seq<(string, nat)>): (r: seq<string>)
    ensures |r| == |entries|
    ensures forall i :: 0 <= i < |r| ==> r[i] == entries[i].0
  {
    seq(|entries|, i requires 0 <= i < |entries| => entries[i].0)
  }

  /** The ten most frequent candidate words of `words`. */
  function TopKeywords(words: seq<string>): seq<string> {
    Keys(TopByCount(CandidateEntries(words), 10))
  }

  /** What `extractClusterKeywords` returns for the points of a cluster. */
  function ClusterKeywords(points: seq<DataPoint>): seq<string> {
    TopKeywords(ClusterWords(points))
  }

  /** `extractClusterKeywords`: the counting loop, then filter, sort and slice. */
  method ExtractClusterKeywords(points: seq<DataPoint>) returns (keywords: seq<string>)
    ensures keywords == ClusterKeywords(points)
  {
    var words := ClusterWords(points);
    var keys, counts := AddWords([], map[], words, LongEnough, []);
    ghost var seen := Eligible(words, LongEnough);
    assert [] + seen == seen;
    TalliedEntries(keys, counts, seen);
    var entries := TallyEntries(keys, counts);
    var top := TopByCount(KeepNonStop(entries), 10);
    keywords := Keys(top);
  }

  /** A word the keyword count may report: present, longer than 3 characters and not a stop word. */
  predicate Candidate(words: seq<string>, w: string) {
    w in words && LongerThan(w, KeywordMinLength) && w !in StopWords
  }

  /** Each candidate entry is a candidate word with its number of occurrences. */
  lemma CandidateEntryCounted(words: seq<string>, e: (string, nat))
    requires e in CandidateEntries(words)
    ensures Candidate(words, e.0) && e.1 == multiset(words)[e.0]
  {
    var seen := Eligible(words, LongEnough);
    var entries := Entries(seen);
    EligibleMembers(words, LongEnough);
    var k :| 0 <= k < |entries| && entries[k] == e;
    assert e.0 in Distinct(seen);
    EligibleCount(words, LongEnough, e.0);
  }

  /** No word has two candidate entries. */
  lemma CandidateEntriesDistinct(words: seq<string>)
    ensures var c := CandidateEntries(words);
            forall i, j :: 0 <= i < j < |c| ==> c[i].0 != c[j].0
  {
    var seen := Eligible(words, LongEnough);
    if seen != [] {
      EntriesComplete(seen, seen[0]);
    }
  }

  /** Every candidate word has its entry among the candidate entries. */
  lemma CandidateHasEntry(words: seq<string>, w: string)
    requires Candidate(words, w)
    ensures (w, multiset(words)[w]) in CandidateEntries(words)
  {
    var seen := Eligible(words, LongEnough);
    EligibleMembers(words, LongEnough);
    assert w in seen;
    EntriesComplete(seen, w);
    EligibleCount(words, LongEnough, w);
  }

  /** Each entry kept by the sort and slice is a candidate word with its number of occurrences. */
  lemma TopEntriesCounted(words: seq<string>)
    ensures var top := TopByCount(CandidateEntries(words), 10);
            forall i :: 0 <= i < |top| ==> Candidate(words, top[i].0) && top[i].1 == multiset(words)[top[i].0]
  {
    var top := TopByCount(CandidateEntries(words), 10);
    TopByCountProperties(CandidateEntries(words), 10);
    forall i | 0 <= i < |top| ensures Candidate(words, top[i].0) && top[i].1 == multiset(words)[top[i].0] {
      assert top[i] in top;
      CandidateEntryCounted(words, top[i]);
    }
  }

  /**
   * At most ten distinct keywords, each longer than 3 characters, not a stop word and
   * taken from the words, in non-increasing order of occurrences.
   */
  lemma TopKeywordsRanked(words: seq<string>)
    ensures var r := TopKeywords(words);
            && |r| <= 10
            && (forall i :: 0 <= i < |r| ==> Candidate(words, r[i]))
            && (forall i, j :: 0 <= i < j < |r| ==> r[i] != r[j])
            && (forall i, j :: 0 <= i < j < |r| ==> multiset(words)[r[i]] >= multiset(words)[r[j]])
  {
    var c := CandidateEntries(words);
    CandidateEntriesDistinct(words);
    TopByCountProperties(c, 10);
    TopByCountDistinct(c, 10);
    TopEntriesCounted(words);
  }

  /** A candidate word that is left out occurs no more often than any keyword kept. */
  lemma TopKeywordsLeftOut(words: seq<string>, w: string)
    requires Candidate(words, w) && w !in TopKeywords(words)
    ensures var r := TopKeywords(words);
            forall i :: 0 <= i < |r| ==> multiset(words)[r[i]] >= multiset(words)[w]
  {
    var top := TopByCount(CandidateEntries(words), 10);
    var r := TopKeywords(words);
    TopByCountProperties(CandidateEntries(words), 10);
    TopEntriesCounted(words);
    CandidateHasEntry(words, w);
    var e := (w, multiset(words)[w]);
    forall t | 0 <= t < |top| ensures top[t] != e {
      assert r[t] in r;
    }
    forall i | 0 <= i < |r| ensures multiset(words)[r[i]] >= multiset(words)[w] {
      assert top[i] in top;
    }
  }

  // ---------------------------------------------------------------------------
  // Summaries
  // ---------------------------------------------------------------------------

  datatype Summary = Summary(
    id: nat,
    name: string,
    size: nat,
    percentage: real,
    avgSentiment: real,
    avgEngagement: real,
    color: string,
    description: string,
    sentimentLevel: SentimentLevel,
    engagementLevel: EngagementLevel,
    avgWordCount: int,
    topKeywords: seq<string>,
    hasLinks: bool,
    hasQuestions: bool)

  /** `data.filter((_, index) => labels[index] === id)`. */
  function InCluster(data: seq<DataPoint>, labels: seq<int>, id: int): (r: seq<DataPoint>)
    requires |labels| == |data|
    ensures |r| <= |data|
  {
    if data == [] then []
    else
      var n := |data| - 1;
      InCluster(data[..n], labels[..n], id) + (if labels[n] == id then [data[n]] else [])
  }

  /** A cluster has as many points as there are labels equal to its id. */
  lemma {:induction false} InClusterSize(data: seq<DataPoint>, labels: seq<int>, id: int)
    requires |labels| == |data|
    ensures |InCluster(data, labels, id)| == multiset(labels)[id]
  {
    if data != [] {
      var n := |data| - 1;
      InClusterSize(data[..n], labels[..n], id);
      assert labels == labels[..n] + [labels[n]];
    }
  }

  function Sum(xs: seq<real>): real {
    if xs == [] then 0.0 else Sum(xs[..|xs| - 1]) + xs[|xs| - 1]
  }

  function Sentiments(ps: seq<DataPoint>): seq<real> {
    seq(|ps|, i requires 0 <= i < |ps| => ps[i].sentiment)
  }

  function Engagements(ps: seq<DataPoint>): seq<real> {
    seq(|ps|, i requires 0 <= i < |ps| => ps[i].engagement)
  }

  function WordCounts(ps: seq<DataPoint>): seq<real> {
    seq(|ps|, i requires 0 <= i < |ps| => ps[i].wordCount as real)
  }

  /** `Math.round(x)`: the nearest integer, halves rounded up. */
  function Round(x: real): (r: int)
    ensures x - 0.5 < r as real <= x + 0.5
  {
    (x + 0.5).Floor
  }

  /** `points.reduce((sum, p) => sum + f(p), 0) / points.length`. */
  function Mean(xs: seq<real>): real
    requires |xs| > 0
  {
    Sum(xs) / |xs| as real
  }

  function CountLinks(ps: seq<DataPoint>): (n: nat)
    ensures n <= |ps|
  {
    if ps == [] then 0 else CountLinks(ps[..|ps| - 1]) + (if ps[|ps| - 1].hasLinks then 1 else 0)
  }

  function CountQuestions(ps: seq<DataPoint>): (n: nat)
    ensures n <= |ps|
  {
    if ps == [] then 0 else CountQuestions(ps[..|ps| - 1]) + (if ps[|ps| - 1].hasQuestions then 1 else 0)
  }

  function EmptySummary(id: nat): Summary {
    Summary(id, "Empty Cluster " + NatToString(id + 1), 0, 0.0, 0.0, 0.0, ColorOf(id),
            "No data points in this cluster", Neutral, NoEngagement, 0, [], false, false)
  }

  /** The summary of the points of `ps`, which the loop found for cluster `id` among `total` points. */
  function FilledSummary(id: nat, ps: seq<DataPoint>, keywords: seq<string>, total: nat): Summary
    requires 0 < |ps| <= total
  {
    var avgSentiment := Mean(Sentiments(ps));
    var avgEngagement := Mean(Engagements(ps));
    var avgWordCount := Mean(WordCounts(ps));
    var sl := SentimentLevelOf(avgSentiment);
    var el := EngagementLevelOf(avgEngagement);
    var size := |ps| as real;
    Summary(id, ClusterName(avgSentiment, avgEngagement, avgWordCount), |ps|, size / total as real * 100.0,
            avgSentiment, avgEngagement, ColorOf(id), Description(sl, el, |ps|), sl, el, Round(avgWordCount),
            Take(keywords, 5), CountLinks(ps) as real / size > 0.3, CountQuestions(ps) as real / size > 0.2)
  }

  /** One pass of the summary loop for cluster `id`. */
  function SummaryFor(data: seq<DataPoint>, labels: seq<int>, id: nat): Summary
    requires |labels| == |data|
  {
    var ps := InCluster(data, labels, id);
    if |ps| == 0 then EmptySummary(id) else FilledSummary(id, ps, ClusterKeywords(ps), |data|)
  }

  /** Every summary carries its own id and colour and the number of points labelled with its id. */
  lemma SummaryForBasics(data: seq<DataPoint>, labels: seq<int>, id: nat)
    requires |labels| == |data|
    ensures var s := SummaryFor(data, labels, id);
            s.id == id && s.color == ColorOf(id) && s.size == multiset(labels)[id]
  {
    InClusterSize(data, labels, id);
  }

  /**
   * An empty cluster is named "Empty Cluster i+1" with engagement `None`; a non-empty one
   * reports the levels of its averages, a name that agrees with them and with the exact
   * mean word count, that mean rounded to the nearest integer, a share of the data in
   * (0, 100] and at most five keywords.
   */
  lemma SummaryForProperties(data: seq<DataPoint>, labels: seq<int>, id: nat)
    requires |labels| == |data|
    ensures var s := SummaryFor(data, labels, id);
            var ps := InCluster(data, labels, id);
            && (s.size == 0 ==> s.name == "Empty Cluster " + NatToString(id + 1) && s.engagementLevel == NoEngagement)
            && (s.size > 0 ==>
                  && s.sentimentLevel == SentimentLevelOf(Mean(Sentiments(ps)))
                  && s.engagementLevel == EngagementLevelOf(Mean(Engagements(ps)))
                  && s.name == WordCountPrefix(Mean(WordCounts(ps))) + LevelName(s.sentimentLevel, s.engagementLevel)
                  && Mean(WordCounts(ps)) - 0.5 < s.avgWordCount as real <= Mean(WordCounts(ps)) + 0.5
                  && 0.0 < s.percentage <= 100.0
                  && |s.topKeywords| <= 5)
  {
    var ps := InCluster(data, labels, id);
    if |ps| > 0 {
      var s := SummaryFor(data, labels, id);
      ClusterNameMatchesLevels(s.avgSentiment, s.avgEngagement, Mean(WordCounts(ps)));
      PercentageInRange(|ps|, |data|);
    }
  }

  /**
   * The name is chosen from the exact mean word count, which the summary reports rounded, so
   * a reported 100 can sit under a "Detailed" name and a reported 20 under a "Brief" one.
   */
  lemma NameUsesExactMean()
    ensures Round(100.4) == 100 && WordCountPrefix(100.4) == "Detailed "
    ensures Round(19.6) == 20 && WordCountPrefix(19.6) == "Brief "
    ensures Round(2.5) == 3
  {
  }

  lemma PercentageInRange(size: nat, total: nat)
    requires 0 < size <= total
    ensures 0.0 < size as real / total as real * 100.0 <= 100.0
  {
    var q := size as real / total as real;
    assert q * total as real == size as real;
    assert q <= 1.0;
  }

  /** The summary loop computes one summary per cluster id in order. */
  method BuildSummary(data: seq<DataPoint>, labels: seq<int>, id: nat) returns (s: Summary)
    requires |labels| == |data|
    ensures s == SummaryFor(data, labels, id)
  {
    var clusterPoints := InCluster(data, labels, id);
    if |clusterPoints| == 0 {
      return EmptySummary(id);
    }
    var topKeywords := ExtractClusterKeywords(clusterPoints);
    s := FilledSummary(id, clusterPoints, topKeywords, |data|);
  }

  /** The summary of each cluster id. */
  function SummaryOf(data: seq<DataPoint>, labels: seq<int>): nat -> Summary
    requires |labels| == |data|
  {
    (id: nat) => SummaryFor(data, labels, id)
  }

  /** The summaries of clusters `0 .. m-1`, in id order, as the loop pushes them. */
  function Unsorted(data: seq<DataPoint>, labels: seq<int>, m: nat): (r: seq<Summary>)
    requires |labels| == |data|
    ensures |r| == m
  {
    Tabulate(SummaryOf(data, labels), m)
  }

  lemma UnsortedAt(data: seq<DataPoint>, labels: seq<int>, m: nat, k: nat)
    requires |labels| == |data| && k < m
    ensures Unsorted(data, labels, m)[k] == SummaryFor(data, labels, k)
  {
    TabulateAt(SummaryOf(data, labels), m, k);
  }

  /** The comparator `(a, b) => b.size - a.size`: larger clusters first. */
  function BySizeDesc(a: Summary, b: Summary): bool {
    a.size >= b.size
  }

  /** `generateClusterSummaries(data, { labels }, numClusters)`. */
  function ClusterSummariesOf(data: seq<DataPoint>, labels: seq<int>, numClusters: nat): seq<Summary>
    requires |labels| == |data|
  {
    SortBy(Unsorted(data, labels, numClusters), BySizeDesc)
  }

  method GenerateClusterSummaries(data: seq<DataPoint>, labels: seq<int>, numClusters: nat)
    returns (summaries: seq<Summary>)
    requires |labels| == |data|
    ensures summaries == ClusterSummariesOf(data, labels, numClusters)
  {
    var clusters: seq<Summary> := [];
    for i := 0 to numClusters
      invariant clusters == Unsorted(data, labels, i)
    {
      var s := BuildSummary(data, labels, i);
      clusters := clusters + [s];
    }
    summaries := SortBy(clusters, BySizeDesc);
  }

  lemma BySizeDescIsPreorder()
    ensures IsTotalPreorder(BySizeDesc)
  {
  }

  /** Summary `i` of the loop is the one of cluster `i`. */
  lemma UnsortedIds(data: seq<DataPoint>, labels: seq<int>, m: nat)
    requires |labels| == |data|
    ensures forall i :: 0 <= i < m ==> Unsorted(data, labels, m)[i].id == i
  {
    forall i | 0 <= i < m ensures Unsorted(data, labels, m)[i].id == i {
      UnsortedAt(data, labels, m, i);
      SummaryForBasics(data, labels, i);
    }
  }

  lemma CountsOnce(s: seq<Summary>, a: nat)
    requires a < |s|
    requires forall i, j :: 0 <= i < j < |s| ==> s[i].id != s[j].id
    ensures multiset(s)[s[a]] == 1
  {
    assert s == s[..a] + [s[a]] + s[a + 1..];
    assert s[a] !in s[..a];
    assert s[a] !in s[a + 1..];
  }

  /** Reordering summaries with distinct ids keeps the ids distinct. */
  lemma PermutationKeepsIds(u: seq<Summary>, r: seq<Summary>)
    requires multiset(r) == multiset(u)
    requires forall i, j :: 0 <= i < j < |u| ==> u[i].id != u[j].id
    ensures forall i :: 0 <= i < |r| ==> r[i] in u
    ensures forall i, j :: 0 <= i < j < |r| ==> r[i].id != r[j].id
  {
    forall i | 0 <= i < |r| ensures r[i] in u {
      assert r[i] in multiset(r);
    }
    forall i, j | 0 <= i < j < |r| ensures r[i].id != r[j].id {
      if r[i].id == r[j].id {
        assert r[i] in multiset(u) && r[j] in multiset(u);
        var a :| 0 <= a < |u| && u[a] == r[i];
        var b :| 0 <= b < |u| && u[b] == r[j];
        assert a == b;
        MultisetCountsTwo(r, i, j);
        CountsOnce(u, a);
      }
    }
  }

  /**
   * Exactly `numClusters` summaries, one per id `0 .. numClusters-1`, sorted by size from
   * the largest cluster down.
   */
  lemma ClusterSummariesShape(data: seq<DataPoint>, labels: seq<int>, numClusters: nat)
    requires |labels| == |data|
    ensures var r := ClusterSummariesOf(data, labels, numClusters);
            && |r| == numClusters
            && multiset(r) == multiset(Unsorted(data, labels, numClusters))
            && (forall i :: 0 <= i < |r| ==> r[i].id < numClusters)
            && (forall i, j :: 0 <= i < j < |r| ==> r[i].id != r[j].id)
            && (forall i, j :: 0 <= i < j < |r| ==> r[i].size >= r[j].size)
  {
    var u := Unsorted(data, labels, numClusters);
    var r := ClusterSummariesOf(data, labels, numClusters);
    BySizeDescIsPreorder();
    SortBySorted(u, BySizeDesc);
    UnsortedIds(data, labels, numClusters);
    PermutationKeepsIds(u, r);
    forall i | 0 <= i < |r| ensures r[i].id < numClusters {
      var a :| 0 <= a < |u| && u[a] == r[i];
    }
  }

  // ---------------------------------------------------------------------------
  // Plotted points
  // ---------------------------------------------------------------------------

  /**
   * `clusterSummaries[lab]?.color || '#8b5cf6'` as written: the summary at position
   * `lab` of the list sorted by size, which need not be the summary of cluster `lab`.
   */
  function ColorAtPosition(summaries: seq<Summary>, lab: int): string {
    if 0 <= lab < |summaries| && summaries[lab].color != "" then summaries[lab].color else DefaultColor
  }

  /** The colour of the summary whose id is `lab`, or the default when there is none. */
  function ColorOfCluster(summaries: seq<Summary>, lab: int): (c: string)
    ensures (forall i :: 0 <= i < |summaries| ==> summaries[i].id != lab) ==> c == DefaultColor
  {
    if summaries == [] then DefaultColor
    else if summaries[0].id == lab then summaries[0].color
    else ColorOfCluster(summaries[1..], lab)
  }

  lemma SortTwo(a: Summary, b: Summary)
    requires a.size < b.size
    ensures SortBy([a, b], BySizeDesc) == [b, a]
  {
    assert [a, b][1..] == [b];
    assert SortBy([b], BySizeDesc) == [b] by {
      assert [b][1..] == [];
    }
  }

  lemma PaletteColors()
    ensures ColorOf(0) == DefaultColor && ColorOf(1) == "#06b6d4" && ColorOf(0) != ColorOf(1)
  {
    assert ColorOf(0)[1] != ColorOf(1)[1];
  }

  /**
   * When cluster 1 is larger than cluster 0 it is sorted first, so a point of cluster 0
   * is drawn in cluster 1's colour.
   */
  lemma ColorAtPositionSwapped(data: seq<DataPoint>, labels: seq<int>)
    requires |labels| == |data|
    requires multiset(labels)[0] < multiset(labels)[1]
    ensures var summaries := ClusterSummariesOf(data, labels, 2);
            && ColorAtPosition(summaries, 0) == ColorOf(1)
            && ColorOfCluster(summaries, 0) == ColorOf(0)
  {
    var s0, s1 := SummaryFor(data, labels, 0), SummaryFor(data, labels, 1);
    SummaryForBasics(data, labels, 0);
    SummaryForBasics(data, labels, 1);
    assert Unsorted(data, labels, 1) == [s0];
    SwappedColors(s0, s1);
  }

  /** Sorting the summaries of clusters 0 and 1 when cluster 1 is the larger. */
  lemma SwappedColors(a: Summary, b: Summary)
    requires a.id == 0 && b.id == 1 && a.size < b.size
    requires a.color == ColorOf(0) && b.color == ColorOf(1)
    ensures ColorAtPosition(SortBy([a, b], BySizeDesc), 0) == ColorOf(1)
    ensures ColorOfCluster(SortBy([a, b], BySizeDesc), 0) == ColorOf(0)
  {
    SortTwo(a, b);
    PaletteColors();
    assert [b, a][1..] == [a];
  }

  /** Three points labelled [1, 1, 0]: the point of cluster 0 gets cluster 1's colour. */
  lemma ColorAtPositionMismatch(d0: DataPoint, d1: DataPoint, d2: DataPoint)
    ensures var summaries := ClusterSummariesOf([d0, d1, d2], [1, 1, 0], 2);
            && ColorAtPosition(summaries, 0) == ColorOf(1)
            && ColorOfCluster(summaries, 0) == ColorOf(0)
            && ColorOf(0) != ColorOf(1)
  {
    var labels := [1, 1, 0];
    assert multiset(labels)[0] == 1 && multiset(labels)[1] == 2;
    ColorAtPositionSwapped([d0, d1, d2], labels);
    PaletteColors();
  }

  /** Looking the summary up by id gives every point its own cluster's colour. */
  lemma ColorOfClusterCorrect(data: seq<DataPoint>, labels: seq<int>, numClusters: nat, lab: int)
    requires |labels| == |data| && 0 <= lab < numClusters
    ensures ColorOfCluster(ClusterSummariesOf(data, labels, numClusters), lab) == ColorOf(lab)
  {
    var r := ClusterSummariesOf(data, labels, numClusters);
    var u := Unsorted(data, labels, numClusters);
    ClusterSummariesShape(data, labels, numClusters);
    UnsortedAt(data, labels, numClusters, lab);
    SummaryForBasics(data, labels, lab);
    assert u[lab] in multiset(r);
    var k :| 0 <= k < |r| && r[k] == u[lab];
    ColorOfClusterFinds(r, lab, k);
  }

  lemma {:induction false} ColorOfClusterFinds(summaries: seq<Summary>, lab: int, k: nat)
    requires k < |summaries| && summaries[k].id == lab
    requires forall i, j :: 0 <= i < j < |summaries| ==> summaries[i].id != summaries[j].id
    ensures ColorOfCluster(summaries, lab) == summaries[k].color
  {
    if k > 0 {
      ColorOfClusterFinds(summaries[1..], lab, k - 1);
    }
  }

  /** The colours of the plotted points, looked up by cluster id. */
  function PointColors(labels: seq<int>, summaries: seq<Summary>): (r: seq<string>)
    ensures |r| == |labels|
  {
    seq(|labels|, i requires 0 <= i < |labels| => ColorOfCluster(summaries, labels[i]))
  }

  /** `Math.max(5, Math.min(15, item.wordCount / 10))`. */
  function PointSize(wordCount: nat): (r: real)
    ensures 5.0 <= r <= 15.0
    ensures 50 <= wordCount <= 150 ==> r == wordCount as real / 10.0
  {
    var s := wordCount as real / 10.0;
    if s > 15.0 then 15.0 else if s < 5.0 then 5.0 else s
  }

  // ---------------------------------------------------------------------------
  // Insights and recommendations
  // ---------------------------------------------------------------------------

  const AdvocatesInsight: string := "Leverage this enthusiastic group as brand advocates"
  const TestimonialsInsight: string := "Encourage user-generated content and testimonials"
  const ConcernsInsight: string := "Address concerns raised by this vocal group immediately"
  const FeedbackInsight: string := "Engage directly with feedback to show responsiveness"
  const TargetedContentInsight: string := "Create targeted content to increase engagement"
  const IncentivesInsight: string := "Consider incentives to encourage participation"
  const FaqInsight: string := "Provide comprehensive FAQ or educational content"
  const LinksInsight: string := "This group values external references and detailed information"

  /** The pair of insights chosen by the levels, if any. */
  function LevelInsights(s: Summary): seq<string> {
    if s.sentimentLevel == Positive && s.engagementLevel == High then [AdvocatesInsight, TestimonialsInsight]
    else if s.sentimentLevel == Negative && s.engagementLevel == High then [ConcernsInsight, FeedbackInsight]
    else if s.engagementLevel == Low then [TargetedContentInsight, IncentivesInsight]
    else []
  }

  /** `generateClusterActionableInsights`: the pushes in order, cut to the first three. */
  function ActionableInsights(s: Summary): seq<string> {
    var all := LevelInsights(s) + (if s.hasQuestions then [FaqInsight] else []) + (if s.hasLinks then [LinksInsight] else []);
    Take(all, 3)
  }

  /**
   * At most three insights; the FAQ advice appears exactly when the cluster asks
   * questions; the links advice appears exactly when it shares links and the cut to three
   * does not drop it, which happens when level advice and the FAQ advice both precede it.
   */
  lemma ActionableInsightsContents(s: Summary)
    ensures var r := ActionableInsights(s);
            && |r| <= 3
            && (FaqInsight in r <==> s.hasQuestions)
            && (LinksInsight in r <==> s.hasLinks && (LevelInsights(s) == [] || !s.hasQuestions))
  {
  }

  /** The overall advice of `generateActionableRecommendations`, with its text reduced to its kind. */
  datatype Recommendation =
    | CapitalizeOnPositive
    | CrisisManagement
    | EducateNeutral
    | IncreaseVariety
    | MaintainMomentum
    | FocusOn(name: string, percentage: real)
    | PrioritizeHighActivity(count: nat)

  /** `clusterSummaries.reduce((max, c) => c.size > max.size ? c : max, clusterSummaries[0])`. */
  function Largest(summaries: seq<Summary>): (l: Summary)
    requires |summaries| > 0
    ensures l in summaries
    ensures forall i :: 0 <= i < |summaries| ==> summaries[i].size <= l.size
  {
    if |summaries| == 1 then summaries[0]
    else
      var m := Largest(summaries[..|summaries| - 1]);
      var c := summaries[|summaries| - 1];
      if c.size > m.size then c else m
  }

  /** The first summary is the largest when the list is sorted by size, as the summaries are. */
  lemma {:induction false} LargestOfSorted(summaries: seq<Summary>)
    requires |summaries| > 0
    requires forall i, j :: 0 <= i < j < |summaries| ==> summaries[i].size >= summaries[j].size
    ensures Largest(summaries) == summaries[0]
  {
    if |summaries| > 1 {
      LargestOfSorted(summaries[..|summaries| - 1]);
    }
  }

  function HighEngagementCount(summaries: seq<Summary>): (n: nat)
    ensures n <= |summaries|
  {
    if summaries == [] then 0
    else HighEngagementCount(summaries[..|summaries| - 1]) + (if summaries[|summaries| - 1].engagementLevel == High then 1 else 0)
  }

  function AllRecommendations(summaries: seq<Summary>, avgSentiment: real, avgEngagement: real): seq<Recommendation> {
    [if avgSentiment > 0.3 then CapitalizeOnPositive else if avgSentiment < -0.3 then CrisisManagement else EducateNeutral]
    + (if avgEngagement < 30.0 then [IncreaseVariety] else if avgEngagement > 70.0 then [MaintainMomentum] else [])
    + (if |summaries| > 0 then [FocusOn(Largest(summaries).name, Largest(summaries).percentage)] else [])
    + (if HighEngagementCount(summaries) > 0 then [PrioritizeHighActivity(HighEngagementCount(summaries))] else [])
  }

  /** `generateActionableRecommendations`, cut to five. */
  function Recommendations(summaries: seq<Summary>, avgSentiment: real, avgEngagement: real): seq<Recommendation> {
    Take(AllRecommendations(summaries, avgSentiment, avgEngagement), 5)
  }

  /**
   * Between one and four recommendations, so the cut to five never drops one; the first
   * follows the overall sentiment; on sorted summaries the focus is the first, largest,
   * segment.
   */
  lemma RecommendationsProperties(summaries: seq<Summary>, avgSentiment: real, avgEngagement: real)
    requires forall i, j :: 0 <= i < j < |summaries| ==> summaries[i].size >= summaries[j].size
    ensures var r := Recommendations(summaries, avgSentiment, avgEngagement);
            && r == AllRecommendations(summaries, avgSentiment, avgEngagement)
            && 1 <= |r| <= 4
            && (r[0] == CapitalizeOnPositive <==> avgSentiment > 0.3)
            && (r[0] == CrisisManagement <==> avgSentiment < -0.3)
            && (|summaries| > 0 ==> FocusOn(summaries[0].name, summaries[0].percentage) in r)
  {
    if |summaries| > 0 {
      LargestOfSorted(summaries);
    }
  }
}
