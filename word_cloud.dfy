/**
 * The word cloud of the results page (`WordCloudChart`): every word of the post descriptions,
 * lower-cased, stripped of all characters but letters, digits, '#', apostrophe, '-' and the
 * space, without stop words and longer than two characters, with its number of occurrences.
 */
module WordCloud {
  import opened Text
  import opened Seqs
  import opened WordCount
  import opened SentimentDetails

  /** A word is counted when `word.length > 2`. */
  const MinLength: nat := 2

  /** The guard `word.length > MinLength`. */
  predicate LongEnough(w: string) {
    LongerThan(w, MinLength)
  }

  /** The characters that `replace(/[^a-zA-Z0-9#'\- ]+/g, "")` keeps: the plain space is the only white space left. */
  predicate Kept(c: char) {
    ('a' <= c <= 'z') || ('A' <= c <= 'Z') || IsDigit(c) || c == '#' || c == '\'' || c == '-' || c == ' '
  }

  /** The characters a cloud word can be made of. */
  predicate CloudChar(c: char) {
    ('a' <= c <= 'z') || IsDigit(c) || c == '#' || c == '\'' || c == '-'
  }

  /** The words of one post, before the length test; a post without a description has none. */
  function PostWords(p: Post, stopwords: set<string>): seq<string> {
    match p.description
    case None => []
    case Some(d) => RemoveStopwords(SplitOnSpaces(KeepChars(Lower(d), Kept)), stopwords)
  }

  function WordsOf(stopwords: set<string>): Post -> seq<string> {
    (p: Post) => PostWords(p, stopwords)
  }

  /** Every word that goes into `wordCount`, post after post. */
  function Counted(posts: seq<Post>, stopwords: set<string>): seq<string> {
    Collected(posts, WordsOf(stopwords), LongEnough, |posts|)
  }

  /** `words`: the counting loops fill the tally, whose entries become the cloud's (text, value) pairs. */
  method CloudWords(posts: seq<Post>, stopwords: set<string>) returns (words: seq<(string, nat)>)
    ensures words == Entries(Counted(posts, stopwords))
  {
    var keys, counts := TallyItems(posts, WordsOf(stopwords), LongEnough);
    TalliedEntries(keys, counts, Counted(posts, stopwords));
    words := TallyEntries(keys, counts);
  }

  /** Every word of a post is made of lower-case letters, digits, '#', apostrophes and '-'. */
  lemma PostWordsChars(p: Post, stopwords: set<string>)
    ensures forall w, k :: w in PostWords(p, stopwords) && 0 <= k < |w| ==> CloudChar(w[k])
  {
    match p.description
    case None =>
    case Some(d) =>
      var s := KeepChars(Lower(d), Kept);
      KeepCharsLower(d, Kept);
      SplitFieldsChars(s, (c: char) => Kept(c) && !IsUpper(c));
      forall w, k | w in PostWords(p, stopwords) && 0 <= k < |w| ensures CloudChar(w[k]) {
        assert multiset(PostWords(p, stopwords))[w] > 0;
        assert w in SplitOnSpaces(s);
      }
  }

  /**
   * The cloud has one entry per distinct counted word, whose value is its number of
   * occurrences (at least 1); every word is longer than two characters and made of
   * lower-case letters, digits, '#', apostrophes and '-'; and the cloud is empty, so nothing
   * is rendered, exactly when no post contributes a word.
   */
  lemma CloudSpec(posts: seq<Post>, stopwords: set<string>, r: seq<(string, nat)>)
    requires r == Entries(Counted(posts, stopwords))
    ensures forall i, j :: 0 <= i < j < |r| ==> r[i].0 != r[j].0
    ensures forall w :: w in Counted(posts, stopwords) ==> w in TableWords(r)
    ensures forall i :: 0 <= i < |r| ==> r[i].0 in Counted(posts, stopwords)
    ensures forall i :: 0 <= i < |r| ==> r[i].1 == multiset(Counted(posts, stopwords))[r[i].0] >= 1
    ensures forall i :: 0 <= i < |r| ==> JsLength(r[i].0) > MinLength
    ensures forall i, k :: 0 <= i < |r| && 0 <= k < |r[i].0| ==> CloudChar(r[i].0[k])
    ensures r == [] <==> Counted(posts, stopwords) == []
  {
    var seen := Counted(posts, stopwords);
    forall w | w in seen ensures w in TableWords(r) {
      EntriesComplete(seen, w);
      var i :| 0 <= i < |r| && r[i] == (w, multiset(seen)[w]);
    }
    forall i | 0 <= i < |r| ensures r[i].0 in seen && r[i].1 == multiset(seen)[r[i].0] >= 1 {
      assert Distinct(seen)[i] in Distinct(seen);
    }
    forall i | 0 <= i < |posts|
      ensures forall w, k :: w in WordsOf(stopwords)(posts[i]) && 0 <= k < |w| ==> CloudChar(w[k])
    {
      PostWordsChars(posts[i], stopwords);
    }
    CollectedWords(posts, WordsOf(stopwords), LongEnough, |posts|, CloudChar);
    if seen != [] {
      assert seen[0] in Distinct(seen);
    }
  }

  predicate Described(p: Post) {
    p.description.Some?
  }

  /** Posts without a description contribute no words: dropping them changes nothing. */
  lemma UndescribedIgnored(posts: seq<Post>, stopwords: set<string>)
    ensures Counted(posts, stopwords) == Counted(KeepIf(posts, Described, SamePost, |posts|), stopwords)
  {
    CollectedSkips(posts, WordsOf(stopwords), LongEnough, Described, SamePost, |posts|);
  }
}
