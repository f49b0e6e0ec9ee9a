/**
 * The history page (`SavedAnalysis`): the saved searches filtered by query text, platform
 * and model, then sorted by the chosen key; the set of flipped cards; removal after a
 * delete; and the page's own copies of the display helpers.
 */
module SavedAnalysis {
  import opened Wrappers
  import opened Text
  import opened Seqs
  import opened Sorting
  import opened SentimentDisplay

  const Platforms: seq<string> := ["all", "reddit", "twitter", "gnews"]
  const Models: seq<string> := ["all", "VADER", "TextBlob", "GenAI"]
  const DefaultSort: string := "date"

  /** The filter of the page: the query contains the search text, ignoring case, and platform and model match unless "all" is selected. */
  predicate Matches(s: SearchRequest, searchText: string, platform: string, model: string) {
    && Contains(Lower(s.searchQuery), Lower(searchText))
    && (platform == "all" || s.platform == platform)
    && (model == "all" || s.model == model)
  }

  function MatchesFilters(searchText: string, platform: string, model: string): SearchRequest -> bool {
    (s: SearchRequest) => Matches(s, searchText, platform, model)
  }

  function SameSearch(s: SearchRequest): SearchRequest {
    s
  }

  /** The searches that pass the filter, in their stored order. */
  function Matching(searches: seq<SearchRequest>, searchText: string, platform: string, model: string): seq<SearchRequest> {
    KeepIf(searches, MatchesFilters(searchText, platform, model), SameSearch, |searches|)
  }

  /** Code-point order on strings, which stands in for `localeCompare`. */
  predicate LexLe(a: string, b: string) {
    |a| == 0 || (|b| > 0 && (a[0] < b[0] || (a[0] == b[0] && LexLe(a[1..], b[1..]))))
  }

  lemma {:induction false} LexTotal(a: string, b: string)
    ensures LexLe(a, b) || LexLe(b, a)
  {
    if |a| > 0 && |b| > 0 && a[0] == b[0] {
      LexTotal(a[1..], b[1..]);
    }
  }

  lemma {:induction false} LexTransitive(a: string, b: string, c: string)
    requires LexLe(a, b) && LexLe(b, c)
    ensures LexLe(a, c)
  {
    if |a| > 0 && a[0] == b[0] && b[0] == c[0] {
      LexTransitive(a[1..], b[1..], c[1..]);
    }
  }

  /** The sort key of "sentiment"; a missing score is ranked as 0. */
  function ScoreKey(s: SearchRequest): real {
    s.averageSentimentScore.GetOr(0.0)
  }

  /** `(item.totalPosts || 0)`. */
  function PostsKey(s: SearchRequest): int {
    s.totalPosts.GetOr(0)
  }

  /** `new Date(b.createdAt) - new Date(a.createdAt) <= 0`: a may stay in front of b when it is not older. */
  function ByDate(a: SearchRequest, b: SearchRequest): bool {
    a.createdAt >= b.createdAt
  }

  function BySentiment(a: SearchRequest, b: SearchRequest): bool {
    ScoreKey(a) >= ScoreKey(b)
  }

  function ByPosts(a: SearchRequest, b: SearchRequest): bool {
    PostsKey(a) >= PostsKey(b)
  }

  function ByQuery(a: SearchRequest, b: SearchRequest): bool {
    LexLe(a.searchQuery, b.searchQuery)
  }

  /** The comparator that returns 0 for every pair. */
  function Unordered(a: SearchRequest, b: SearchRequest): bool {
    true
  }

  /** The comparator chosen by the sort menu. */
  function Order(sortBy: string): (SearchRequest, SearchRequest) -> bool {
    match sortBy
    case "date" => ByDate
    case "sentiment" => BySentiment
    case "posts" => ByPosts
    case "query" => ByQuery
    case _ => Unordered
  }

  lemma OrderIsPreorder(sortBy: string)
    ensures IsTotalPreorder(Order(sortBy))
  {
    if sortBy == "query" {
      forall a: SearchRequest, b: SearchRequest ensures ByQuery(a, b) || ByQuery(b, a) {
        LexTotal(a.searchQuery, b.searchQuery);
      }
      forall a: SearchRequest, b: SearchRequest, c: SearchRequest | ByQuery(a, b) && ByQuery(b, c)
        ensures ByQuery(a, c)
      {
        LexTransitive(a.searchQuery, b.searchQuery, c.searchQuery);
      }
    }
  }

  /** `filteredSearches`: the matching searches, stably sorted by the chosen comparator. */
  function FilteredSearches(searches: seq<SearchRequest>, searchText: string, platform: string, model: string,
                            sortBy: string): seq<SearchRequest> {
    SortBy(Matching(searches, searchText, platform, model), Order(sortBy))
  }

  /** A search is among the matching ones exactly when it is stored and passes the filter. */
  lemma MatchingMembers(searches: seq<SearchRequest>, searchText: string, platform: string, model: string,
                        s: SearchRequest)
    ensures s in Matching(searches, searchText, platform, model) <==>
            s in searches && Matches(s, searchText, platform, model)
  {
    var keep := MatchesFilters(searchText, platform, model);
    if s in Matching(searches, searchText, platform, model) {
      KeepIfSound(searches, keep, SameSearch, |searches|, s);
    }
    if s in searches && Matches(s, searchText, platform, model) {
      var i :| 0 <= i < |searches| && searches[i] == s;
      KeepIfComplete(searches, keep, SameSearch, |searches|, i);
    }
  }

  /**
   * The list shown is a reordering of the searches that pass the filter (which keep their
   * stored order before sorting), sorted newest first, by descending score, by descending
   * post count or by query, and left in stored order for any other sort key.
   */
  lemma FilteredSearchesSpec(searches: seq<SearchRequest>, searchText: string, platform: string, model: string,
                             sortBy: string, r: seq<SearchRequest>)
    requires r == FilteredSearches(searches, searchText, platform, model, sortBy)
    ensures multiset(r) == multiset(Matching(searches, searchText, platform, model))
    ensures SubsequenceOf(Matching(searches, searchText, platform, model), searches)
    ensures forall s :: s in r <==> s in searches && Matches(s, searchText, platform, model)
    ensures sortBy == "date" ==> forall i, j :: 0 <= i < j < |r| ==> r[i].createdAt >= r[j].createdAt
    ensures sortBy == "sentiment" ==> forall i, j :: 0 <= i < j < |r| ==> ScoreKey(r[i]) >= ScoreKey(r[j])
    ensures sortBy == "posts" ==> forall i, j :: 0 <= i < j < |r| ==> PostsKey(r[i]) >= PostsKey(r[j])
    ensures sortBy == "query" ==> forall i, j :: 0 <= i < j < |r| ==> LexLe(r[i].searchQuery, r[j].searchQuery)
    ensures sortBy !in {"date", "sentiment", "posts", "query"} ==> r == Matching(searches, searchText, platform, model)
  {
    var m := Matching(searches, searchText, platform, model);
    KeepIfSubsequence(searches, MatchesFilters(searchText, platform, model), SameSearch);
    forall s ensures s in r <==> s in searches && Matches(s, searchText, platform, model) {
      assert s in r <==> s in multiset(m);
      MatchingMembers(searches, searchText, platform, model, s);
    }
    OrderIsPreorder(sortBy);
    SortBySorted(m, Order(sortBy));
    if sortBy !in {"date", "sentiment", "posts", "query"} {
      SortByAllEqual(m, Order(sortBy));
    }
  }

  /** `toggleCardFlip`: the set of flipped cards with the membership of one id switched. */
  function ToggleCardFlip(flipped: set<string>, cardId: string): (r: set<string>)
    ensures cardId in r <==> cardId !in flipped
    ensures forall id :: id != cardId ==> (id in r <==> id in flipped)
  {
    if cardId in flipped then flipped - {cardId} else flipped + {cardId}
  }

  /** Flipping the same card twice restores the set. */
  lemma ToggleTwice(flipped: set<string>, cardId: string)
    ensures ToggleCardFlip(ToggleCardFlip(flipped, cardId), cardId) == flipped
  {
  }

  function IdIsNot(id: string): SearchRequest -> bool {
    (s: SearchRequest) => s.id != id
  }

  /** `prev.filter(item => item._id !== id)`. */
  function Without(searches: seq<SearchRequest>, id: string): seq<SearchRequest> {
    KeepIf(searches, IdIsNot(id), SameSearch, |searches|)
  }

  /**
   * `deleteSearch`: the list changes only when the user confirmed and the server accepted
   * the deletion; both outcomes are given as parameters.
   */
  function DeleteSearch(searches: seq<SearchRequest>, id: string, confirmed: bool, accepted: bool): seq<SearchRequest> {
    if confirmed && accepted then Without(searches, id) else searches
  }

  /**
   * A delete removes exactly the entries with that id and keeps the rest in order; an id
   * that is not stored changes nothing.
   */
  lemma WithoutSpec(searches: seq<SearchRequest>, id: string, r: seq<SearchRequest>)
    requires r == Without(searches, id)
    ensures forall s :: s in r <==> s in searches && s.id != id
    ensures SubsequenceOf(r, searches)
    ensures (forall s :: s in searches ==> s.id != id) ==> r == searches
  {
    forall s ensures s in r <==> s in searches && s.id != id {
      if s in r {
        KeepIfSound(searches, IdIsNot(id), SameSearch, |searches|, s);
      }
      if s in searches && s.id != id {
        var i :| 0 <= i < |searches| && searches[i] == s;
        KeepIfComplete(searches, IdIsNot(id), SameSearch, |searches|, i);
      }
    }
    KeepIfSubsequence(searches, IdIsNot(id), SameSearch);
    if forall s :: s in searches ==> s.id != id {
      KeepIfIdentity(searches, IdIsNot(id), SameSearch, |searches|);
      assert searches[..|searches|] == searches;
    }
  }

  /** The page's own `getSentimentColor`, the same as the shared helper. */
  function LocalSentimentColor(score: real): (r: string)
    ensures r == SentimentColor(score)
  {
    if score >= 0.6 then "text-green-400"
    else if score >= 0.33 && score < 0.66 then "text-yellow-400"
    else if score > 0.0 && score < 0.33 then "text-red-400"
    else "text-red-400"
  }

  /** The page's own `getSentimentBg`, the same as the shared helper. */
  function LocalSentimentBg(score: real): (r: string)
    ensures r == SentimentBg(score)
  {
    if score >= 0.6 then "from-green-600/20 to-emerald-600/20"
    else if score >= 0.33 && score < 0.66 then "from-yellow-600/20 to-amber-600/20"
    else if score > 0.0 && score < 0.33 then "from-orange-600/20 to-red-600/20"
    else "from-red-600/20 to-pink-600/20"
  }

  /** The page's own `getDataStatusIcon`, the same as the shared helper. */
  function LocalDataStatusIcon(item: SearchRequest): (r: Icon)
    ensures r == DataStatusIcon(item)
  {
    if item.averageSentimentScore.Some? && item.totalPosts.Some? && item.totalPosts.value > 0 then
      Glyph("CheckCircle", "text-green-400")
    else if (item.totalPosts.Some? && item.totalPosts.value > 0) || item.averageSentimentScore.Some? then
      Glyph("AlertCircle", "text-yellow-400")
    else Glyph("XCircle", "text-red-400")
  }

  /** The page's own `getDataStatusText`, the same as the shared helper. */
  function LocalDataStatusText(item: SearchRequest): (r: string)
    ensures r == DataStatusText(item)
  {
    if item.averageSentimentScore.Some? && item.totalPosts.Some? && item.totalPosts.value > 0 then "Complete"
    else if (item.totalPosts.Some? && item.totalPosts.value > 0) || item.averageSentimentScore.Some? then "Partial"
    else "No Data"
  }

  /** The page's own `getModelIcon`, the same as the shared helper. */
  function LocalModelIcon(model: string): (r: Icon)
    ensures r == ModelIcon(model)
  {
    match model
    case "VADER" => Glyph("Brain", "text-purple-400")
    case "TextBlob" => Glyph("BarChart3", "text-cyan-400")
    case "GenAI" => Glyph("Sparkles", "text-pink-400")
    case _ => Glyph("Settings", "text-gray-400")
  }

  /** The page's own `getPlatformIcon`, the same as the shared helper. */
  function LocalPlatformIcon(platform: string): (r: Icon)
    ensures r == PlatformIcon(platform)
  {
    match platform
    case "reddit" => Badge('R', "bg-orange-500")
    case "twitter" => Badge('T', "bg-blue-500")
    case "gnews" => Badge('N', "bg-red-500")
    case _ => Glyph("Globe", "text-gray-400")
  }
}
