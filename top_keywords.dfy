/**
 * The keyword chips of the results page (`TopKeywords`): the words of all post descriptions,
 * lower-cased, stripped of punctuation other than '#', without stop words and longer than two
 * characters, counted, and the `topN` most frequent of them.
 */
module TopKeywords {
  import opened Wrappers
  import opened Text
  import opened Seqs
  import opened WordCount
  import opened SentimentDetails

  const DefaultTopN: nat := 15

  /** A word is counted when `word.length > 2`. */
  const MinLength: nat := 2

  /** The guard `word.length > MinLength`. */
  predicate LongEnough(w: string) {
    LongerThan(w, MinLength)
  }

  /** The characters that `replace(/[^\w\s#]/g, "")` keeps. */
  predicate Kept(c: char) {
    IsWordChar(c) || IsSpace(c) || c == '#'
  }

  /** The characters a keyword can be made of. */
  predicate KeywordChar(c: char) {
    (IsWordChar(c) || c == '#') && !IsUpper(c)
  }

  /** The words of one post, before the length test; a post without a description has none. */
  function PostWords(p: Post, stopwords: set<string>): seq<string> {
    match p.description
    case None => []
    case Some(d) => RemoveStopwords(SplitOnSpaces(KeepChars(Lower(d), Kept)), stopwords)
  }

  function WordsOf(stopwords: set<string>): Post -> seq<string> {
    (p: Post) => PostWords(p, stopwords)
  }

  /** Every word that goes into `wordCount`, post after post. */
  function Counted(posts: seq<Post>, stopwords: set<string>): seq<string> {
    Collected(posts, WordsOf(stopwords), LongEnough, |posts|)
  }

  /** `keywordData`: the `topN` most frequent counted words with their counts. */
  function Keywords(posts: seq<Post>, stopwords: set<string>, topN: nat): seq<(string, nat)> {
    TopByCount(Entries(Counted(posts, stopwords)), topN)
  }

  /**
   * The component's `useMemo`: the counting loops fill the tally, whose entries are then
   * sorted by count and cut to `topN` (15 when the prop is not given).
   */
  method KeywordData(posts: seq<Post>, topN: Option<nat>, stopwords: set<string>) returns (data: seq<(string, nat)>)
    ensures data == Keywords(posts, stopwords, topN.GetOr(DefaultTopN))
  {
    var keys, counts := TallyItems(posts, WordsOf(stopwords), LongEnough);
    TalliedEntries(keys, counts, Counted(posts, stopwords));
    data := TopByCount(TallyEntries(keys, counts), topN.GetOr(DefaultTopN));
  }

  /** Every word of a post is lower-case and made of word characters and '#'. */
  lemma PostWordsChars(p: Post, stopwords: set<string>)
    ensures forall w, k :: w in PostWords(p, stopwords) && 0 <= k < |w| ==> KeywordChar(w[k])
  {
    match p.description
    case None =>
    case Some(d) =>
      var s := KeepChars(Lower(d), Kept);
      KeepCharsLower(d, Kept);
      SplitFieldsChars(s, (c: char) => Kept(c) && !IsUpper(c));
      forall w, k | w in PostWords(p, stopwords) && 0 <= k < |w| ensures KeywordChar(w[k]) {
        assert multiset(PostWords(p, stopwords))[w] > 0;
        assert w in SplitOnSpaces(s);
      }
  }

  /**
   * The keywords: at most `topN`, distinct, in non-increasing count order; each is
   * lower-case, longer than two characters, made of word characters and '#', and carries
   * its exact number of occurrences; no word left out occurs more often than one shown; and
   * (for a positive `topN`) there are none, so nothing is rendered, only when no post
   * contributes a word.
   */
  lemma KeywordsSpec(posts: seq<Post>, stopwords: set<string>, topN: nat, r: seq<(string, nat)>)
    requires r == Keywords(posts, stopwords, topN)
    ensures |r| <= topN
    ensures forall i, j :: 0 <= i < j < |r| ==> r[i].1 >= r[j].1 && r[i].0 != r[j].0
    ensures forall i :: 0 <= i < |r| ==> r[i].1 == multiset(Counted(posts, stopwords))[r[i].0] >= 1
    ensures forall i :: 0 <= i < |r| ==> JsLength(r[i].0) > MinLength
    ensures forall i, k :: 0 <= i < |r| && 0 <= k < |r[i].0| ==> KeywordChar(r[i].0[k])
    ensures forall w, i :: w in Counted(posts, stopwords) && w !in TableWords(r) && 0 <= i < |r| ==>
              multiset(Counted(posts, stopwords))[w] <= r[i].1
    ensures topN > 0 ==> (r == [] <==> Counted(posts, stopwords) == [])
  {
    var seen := Counted(posts, stopwords);
    TopEntries(seen, topN, r);
    forall i | 0 <= i < |posts|
      ensures forall w, k :: w in WordsOf(stopwords)(posts[i]) && 0 <= k < |w| ==> KeywordChar(w[k])
    {
      PostWordsChars(posts[i], stopwords);
    }
    CollectedWords(posts, WordsOf(stopwords), LongEnough, |posts|, KeywordChar);
    if seen != [] {
      assert seen[0] in Distinct(seen);
    }
  }

  predicate Described(p: Post) {
    p.description.Some?
  }

  /** Posts without a description contribute nothing: dropping them changes no count. */
  lemma UndescribedIgnored(posts: seq<Post>, stopwords: set<string>)
    ensures Counted(posts, stopwords) == Counted(KeepIf(posts, Described, SamePost, |posts|), stopwords)
  {
    CollectedSkips(posts, WordsOf(stopwords), LongEnough, Described, SamePost, |posts|);
  }
}
