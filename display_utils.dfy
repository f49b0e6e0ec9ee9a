/**
 * The shared display helpers of the history and results pages (`sentimentDisplayUtils`):
 * the colour classes of a score, the completeness status of a saved search, and the icons
 * of its model and platform.
 */
module SentimentDisplay {
  import opened Wrappers

  /**
   * A saved search request as the history page receives it. `createdAt` is the creation time
   * as a millisecond count, `averageSentimentScore` is absent unless it is a number, and
   * `totalPosts` is absent when the record has none.
   */
  datatype SearchRequest = SearchRequest(
    id: string, searchQuery: string, platform: string, model: string, createdAt: int,
    averageSentimentScore: Option<real>, totalPosts: Option<int>)

  /**
   * `getSentimentColor`: green from 0.6 up, yellow on [0.33, 0.6), red below 0.33. The
   * yellow test's own upper bound 0.66 never decides, since 0.6 is tested first.
   */
  function SentimentColor(score: real): (r: string)
    ensures r == "text-green-400" <==> score >= 0.6
    ensures r == "text-yellow-400" <==> 0.33 <= score < 0.6
    ensures r == "text-red-400" <==> score < 0.33
  {
    if score >= 0.6 then "text-green-400"
    else if score >= 0.33 && score < 0.66 then "text-yellow-400"
    else if score > 0.0 && score < 0.33 then "text-red-400"
    else "text-red-400"
  }

  /** `getSentimentBg`: four disjoint bands, [0.6, ..), [0.33, 0.6), (0, 0.33) and the rest. */
  function SentimentBg(score: real): (r: string)
    ensures r == "from-green-600/20 to-emerald-600/20" <==> score >= 0.6
    ensures r == "from-yellow-600/20 to-amber-600/20" <==> 0.33 <= score < 0.6
    ensures r == "from-orange-600/20 to-red-600/20" <==> 0.0 < score < 0.33
    ensures r == "from-red-600/20 to-pink-600/20" <==> score <= 0.0
  {
    if score >= 0.6 then "from-green-600/20 to-emerald-600/20"
    else if score >= 0.33 && score < 0.66 then "from-yellow-600/20 to-amber-600/20"
    else if score > 0.0 && score < 0.33 then "from-orange-600/20 to-red-600/20"
    else "from-red-600/20 to-pink-600/20"
  }

  /** `typeof item.averageSentimentScore === "number"`. */
  predicate HasScore(item: SearchRequest) {
    item.averageSentimentScore.Some?
  }

  /** `item.totalPosts > 0`, false when the field is absent. */
  predicate HasPosts(item: SearchRequest) {
    item.totalPosts.Some? && item.totalPosts.value > 0
  }

  /** `getDataStatusText`: "Complete" when both a score and posts are present, "Partial" with one, "No Data" with neither. */
  function DataStatusText(item: SearchRequest): (r: string)
    ensures r == "Complete" <==> HasScore(item) && HasPosts(item)
    ensures r == "Partial" <==> HasScore(item) != HasPosts(item)
    ensures r == "No Data" <==> !HasScore(item) && !HasPosts(item)
  {
    if HasScore(item) && HasPosts(item) then "Complete"
    else if HasPosts(item) || HasScore(item) then "Partial"
    else "No Data"
  }

  /** An icon: a named `lucide-react` glyph in a colour, or a round badge with a letter on a background. */
  datatype Icon = Glyph(name: string, color: string) | Badge(letter: char, background: string)

  /** `getDataStatusIcon`. */
  function DataStatusIcon(item: SearchRequest): Icon {
    if HasScore(item) && HasPosts(item) then Glyph("CheckCircle", "text-green-400")
    else if HasPosts(item) || HasScore(item) then Glyph("AlertCircle", "text-yellow-400")
    else Glyph("XCircle", "text-red-400")
  }

  /** The status icon and the status text always tell the same story. */
  lemma StatusIconMatchesText(item: SearchRequest)
    ensures DataStatusIcon(item) == Glyph("CheckCircle", "text-green-400") <==> DataStatusText(item) == "Complete"
    ensures DataStatusIcon(item) == Glyph("AlertCircle", "text-yellow-400") <==> DataStatusText(item) == "Partial"
    ensures DataStatusIcon(item) == Glyph("XCircle", "text-red-400") <==> DataStatusText(item) == "No Data"
  {
  }

  const DefaultModelIcon: Icon := Glyph("Settings", "text-gray-400")

  /** `getModelIcon`: one glyph per known engine, the settings glyph for anything else. */
  function ModelIcon(model: string): (r: Icon)
    ensures r == Glyph("Brain", "text-purple-400") <==> model == "VADER"
    ensures r == Glyph("BarChart3", "text-cyan-400") <==> model == "TextBlob"
    ensures r == Glyph("Sparkles", "text-pink-400") <==> model == "GenAI"
    ensures r == DefaultModelIcon <==> model != "VADER" && model != "TextBlob" && model != "GenAI"
  {
    match model
    case "VADER" => Glyph("Brain", "text-purple-400")
    case "TextBlob" => Glyph("BarChart3", "text-cyan-400")
    case "GenAI" => Glyph("Sparkles", "text-pink-400")
    case _ => DefaultModelIcon
  }

  const DefaultPlatformIcon: Icon := Glyph("Globe", "text-gray-400")

  /** `getPlatformIcon`: a lettered badge per known platform, the globe glyph for anything else. */
  function PlatformIcon(platform: string): (r: Icon)
    ensures r == Badge('R', "bg-orange-500") <==> platform == "reddit"
    ensures r == Badge('T', "bg-blue-500") <==> platform == "twitter"
    ensures r == Badge('N', "bg-red-500") <==> platform == "gnews"
    ensures r == DefaultPlatformIcon <==> platform != "reddit" && platform != "twitter" && platform != "gnews"
  {
    match platform
    case "reddit" => Badge('R', "bg-orange-500")
    case "twitter" => Badge('T', "bg-blue-500")
    case "gnews" => Badge('N', "bg-red-500")
    case _ => DefaultPlatformIcon
  }
}
