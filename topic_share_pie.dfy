/**
 * The topic pies of the comparison page (`TopicSharePie`): for each of the two queries, the
 * ten most frequent words of its post descriptions, reduced to the letters a-z, without stop
 * words and longer than two characters.
 */
module TopicSharePie {
  import opened Wrappers
  import opened Text
  import opened WordCount
  import opened SentimentDetails

  /** How many topics each pie shows. */
  const TopicCount: nat := 10

  /** A word is counted when `word.length > 2`. */
  const MinLength: nat := 2

  /** The guard `word.length > MinLength`. */
  predicate LongEnough(w: string) {
    LongerThan(w, MinLength)
  }

  const Colors: seq<string> := [
    "#6366F1", "#8B5CF6", "#EC4899", "#10B981", "#F59E0B",
    "#F43F5E", "#3B82F6", "#A855F7", "#14B8A6", "#EAB308"
  ]

  /** The characters that `replace(/[^a-z\s]/g, "")` keeps. */
  predicate Kept(c: char) {
    ('a' <= c <= 'z') || IsSpace(c)
  }

  predicate TopicChar(c: char) {
    'a' <= c <= 'z'
  }

  /** Every post carries a description: the component reads it without a guard. */
  predicate AllDescribed(details: seq<Post>) {
    forall i :: 0 <= i < |details| ==> details[i].description.Some?
  }

  /**
   * The words of one post, before the length test. `.filter(Boolean)` drops the empty
   * strings, which is removing the one word "".
   */
  function PostWords(p: Post, stopwords: set<string>): seq<string> {
    match p.description
    case None => []
    case Some(d) => RemoveStopwords(RemoveStopwords(SplitOnSpaces(KeepChars(Lower(d), Kept)), {""}), stopwords)
  }

  function WordsOf(stopwords: set<string>): Post -> seq<string> {
    (p: Post) => PostWords(p, stopwords)
  }

  /** Every word that goes into `wordFreq`, post after post. */
  function Counted(details: seq<Post>, stopwords: set<string>): seq<string> {
    Collected(details, WordsOf(stopwords), LongEnough, |details|)
  }

  /** The ten most frequent counted words with their counts. */
  function Topics(details: seq<Post>, stopwords: set<string>): seq<(string, nat)> {
    TopByCount(Entries(Counted(details, stopwords)), TopicCount)
  }

  /** `processData`: the counting loops fill the tally, whose entries are sorted by count and cut to ten. */
  method ProcessData(details: seq<Post>, stopwords: set<string>) returns (data: seq<(string, nat)>)
    requires AllDescribed(details)
    ensures data == Topics(details, stopwords)
  {
    var keys, counts := TallyItems(details, WordsOf(stopwords), LongEnough);
    TalliedEntries(keys, counts, Counted(details, stopwords));
    data := TopByCount(TallyEntries(keys, counts), TopicCount);
  }

  /** Both pies: each query's details (empty when absent) go through the same `processData`, independently. */
  method TopicShares(details1: Option<seq<Post>>, details2: Option<seq<Post>>, stopwords: set<string>)
    returns (data1: seq<(string, nat)>, data2: seq<(string, nat)>)
    requires AllDescribed(details1.GetOr([])) && AllDescribed(details2.GetOr([]))
    ensures data1 == Topics(details1.GetOr([]), stopwords)
    ensures data2 == Topics(details2.GetOr([]), stopwords)
  {
    data1 := ProcessData(details1.GetOr([]), stopwords);
    data2 := ProcessData(details2.GetOr([]), stopwords);
  }

  /** Every word of a post is made of the letters a-z only. */
  lemma PostWordsChars(p: Post, stopwords: set<string>)
    ensures forall w, k :: w in PostWords(p, stopwords) && 0 <= k < |w| ==> TopicChar(w[k])
  {
    match p.description
    case None =>
    case Some(d) =>
      var s := KeepChars(Lower(d), Kept);
      var fields := SplitOnSpaces(s);
      SplitFieldsChars(s, Kept);
      forall w, k | w in PostWords(p, stopwords) && 0 <= k < |w| ensures TopicChar(w[k]) {
        RemovedFrom(RemoveStopwords(fields, {""}), stopwords, w);
        RemovedFrom(fields, {""}, w);
        assert Kept(w[k]) && !IsSpace(w[k]);
      }
  }

  /**
   * A pie: at most ten topics, distinct, in non-increasing count order; each name is longer
   * than two characters and made of the letters a-z, and its value is its exact number of
   * occurrences; no word left out occurs more often than a topic shown.
   */
  lemma TopicsSpec(details: seq<Post>, stopwords: set<string>, r: seq<(string, nat)>)
    requires r == Topics(details, stopwords)
    ensures |r| <= TopicCount
    ensures forall i, j :: 0 <= i < j < |r| ==> r[i].1 >= r[j].1 && r[i].0 != r[j].0
    ensures forall i :: 0 <= i < |r| ==> r[i].1 == multiset(Counted(details, stopwords))[r[i].0] >= 1
    ensures forall i :: 0 <= i < |r| ==> JsLength(r[i].0) > MinLength
    ensures forall i, k :: 0 <= i < |r| && 0 <= k < |r[i].0| ==> TopicChar(r[i].0[k])
    ensures forall w, i :: w in Counted(details, stopwords) && w !in TableWords(r) && 0 <= i < |r| ==>
              multiset(Counted(details, stopwords))[w] <= r[i].1
  {
    var seen := Counted(details, stopwords);
    TopEntries(seen, TopicCount, r);
    forall i | 0 <= i < |details|
      ensures forall w, k :: w in WordsOf(stopwords)(details[i]) && 0 <= k < |w| ==> TopicChar(w[k])
    {
      PostWordsChars(details[i], stopwords);
    }
    CollectedWords(details, WordsOf(stopwords), LongEnough, |details|, TopicChar);
  }
}
