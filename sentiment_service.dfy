/**
 * The fetch-and-score service of server/python/main.py: request validation, the choice
 * of connector (GNews, Reddit, Twitter) and scorer (TextBlob, VADER, the Hugging Face
 * classifier), scoring of each fetched post with its date, and the summary statistics.
 *
 * Everything the service asks of the outside world (environment variables, the GNews
 * HTTP endpoint, PRAW, the three sentiment engines, the clock and the date parser) is a
 * field of `Environment`, so the model is a function of the request and that environment.
 */
module SentimentService {
  import opened Wrappers
  import opened Text
  import opened Seqs

  datatype Platform = Twitter | GNews | Reddit
  datatype Model = Vader | TextBlob | GenAI

  /** The JSON body as `request.get_json()` sees it (string-valued fields only). */
  datatype Body =
    | Unparsable                         // get_json raises
    | NotObject(truthy: bool)            // null, false, 0, "", [] (falsy) or any other non-object
    | Object(fields: map<string, string>)

  datatype Request = Request(search: string, platform: Platform, model: Model)

  datatype Rejection = BadRequest(message: string) | InternalError

  const EmptyBodyMessage := "Invalid JSON or empty request body"
  const MissingFieldsMessage := "Missing required fields"
  const InvalidPlatformMessage := "Invalid platform"
  const InvalidModelMessage := "Invalid sentiment analysis model"

  function PlatformName(p: Platform): string {
    match p
    case Twitter => "twitter"
    case GNews => "gnews"
    case Reddit => "reddit"
  }

  function ModelName(m: Model): string {
    match m
    case Vader => "vader"
    case TextBlob => "textblob"
    case GenAI => "genai"
  }

  /** `platform in ['twitter', 'gnews', 'reddit']`. */
  function ParsePlatform(s: string): (r: Option<Platform>)
    ensures r.Some? ==> PlatformName(r.value) == s
  {
    if s == "twitter" then Some(Twitter)
    else if s == "gnews" then Some(GNews)
    else if s == "reddit" then Some(Reddit)
    else None
  }

  /** `model in ['vader', 'textblob', 'genai']`. */
  function ParseModel(s: string): (r: Option<Model>)
    ensures r.Some? ==> ModelName(r.value) == s
  {
    if s == "vader" then Some(Vader)
    else if s == "textblob" then Some(TextBlob)
    else if s == "genai" then Some(GenAI)
    else None
  }

  /** Every platform and model name is recognised: the names and the parsers are inverse. */
  lemma NamesRoundTrip(p: Platform, m: Model)
    ensures ParsePlatform(PlatformName(p)) == Some(p)
    ensures ParseModel(ModelName(m)) == Some(m)
  {
  }

  /** `data.get(key)`, with a missing key read as the falsy empty string. */
  function Field(fields: map<string, string>, key: string): string {
    if key in fields then fields[key] else ""
  }

  /**
   * The checks at the top of `analyze_sentiment`, in source order: an unreadable body
   * raises (500); a falsy body, a missing or empty field, an unknown platform and an
   * unknown model are each answered with 400 and their own message.
   */
  function Validate(body: Body): (r: Result<Request, Rejection>)
    ensures r == Failure(InternalError) <==> body.Unparsable? || body == NotObject(true)
    ensures r == Failure(BadRequest(EmptyBodyMessage))
        <==> body == NotObject(false) || body == Object(map[])
    ensures r.Success? ==>
              && body.Object?
              && Field(body.fields, "search") == r.value.search != ""
              && Field(body.fields, "platform") == PlatformName(r.value.platform)
              && Field(body.fields, "model") == ModelName(r.value.model)
  {
    match body
    case Unparsable => Failure(InternalError)
    case NotObject(truthy) =>
      if truthy then Failure(InternalError) else Failure(BadRequest(EmptyBodyMessage))
    case Object(fields) =>
      var search := Field(fields, "search");
      var platform := Field(fields, "platform");
      var model := Field(fields, "model");
      if fields == map[] then Failure(BadRequest(EmptyBodyMessage))
      else if search == "" || platform == "" || model == "" then Failure(BadRequest(MissingFieldsMessage))
      else if ParsePlatform(platform).None? then Failure(BadRequest(InvalidPlatformMessage))
      else if ParseModel(model).None? then Failure(BadRequest(InvalidModelMessage))
      else Success(Request(search, ParsePlatform(platform).value, ParseModel(model).value))
  }

  /** A body naming a non-empty search, a known platform and a known model is accepted as it reads. */
  lemma ValidateAccepts(search: string, p: Platform, m: Model, extra: map<string, string>)
    requires search != ""
    ensures Validate(Object(extra["search" := search]["platform" := PlatformName(p)]["model" := ModelName(m)]))
         == Success(Request(search, p, m))
  {
    NamesRoundTrip(p, m);
  }

  /** An object body with all three fields present and an unknown platform is refused as such. */
  lemma ValidateRejectsPlatform(fields: map<string, string>)
    requires Field(fields, "search") != "" && Field(fields, "platform") != "" && Field(fields, "model") != ""
    requires ParsePlatform(Field(fields, "platform")).None?
    ensures Validate(Object(fields)) == Failure(BadRequest(InvalidPlatformMessage))
  {
    assert "search" in fields;
  }

  // ---------------------------------------------------------------- scoring

  /** `(x + 1) / 2`: a native score in [-1, 1] mapped onto [0, 1]. */
  function Normalize(x: real): (r: real)
    ensures 2.0 * r - 1.0 == x
    ensures -1.0 <= x <= 1.0 <==> 0.0 <= r <= 1.0
  {
    (x + 1.0) / 2.0
  }

  /** The three anchor points of the mapping, and its order-preservation. */
  lemma NormalizeAnchors(x: real, y: real)
    ensures Normalize(-1.0) == 0.0 && Normalize(0.0) == 0.5 && Normalize(1.0) == 1.0
    ensures x <= y <==> Normalize(x) <= Normalize(y)
  {
  }

  datatype LabelScore = LabelScore(classLabel: string, score: real)

  /** `next((r['score'] for r in results if r['label'] == wanted), 0)`. */
  function FirstScore(results: seq<LabelScore>, wanted: string): (r: real)
    ensures (forall i :: 0 <= i < |results| ==> results[i].classLabel != wanted) ==> r == 0.0
    ensures forall i :: (0 <= i < |results| && results[i].classLabel == wanted
              && (forall j :: 0 <= j < i ==> results[j].classLabel != wanted)) ==> r == results[i].score
  {
    if results == [] then 0.0
    else if results[0].classLabel == wanted then results[0].score
    else FirstScore(results[1..], wanted)
  }

  /** `(positive + neutral * 0.5) / total`, with 0.5 for a zero total. */
  function Compound(negative: real, neutral: real, positive: real): real {
    var total := positive + neutral + negative;
    if total == 0.0 then 0.5 else (positive + neutral * 0.5) / total
  }

  /**
   * For non-negative class scores the compound score lies in [0, 1]; all mass on one class
   * gives 0, 0.5 or 1, and a zero total gives 0.5.
   */
  lemma CompoundBounds(negative: real, neutral: real, positive: real)
    requires negative >= 0.0 && neutral >= 0.0 && positive >= 0.0
    ensures 0.0 <= Compound(negative, neutral, positive) <= 1.0
    ensures negative > 0.0 && neutral == 0.0 && positive == 0.0 ==> Compound(negative, neutral, positive) == 0.0
    ensures neutral > 0.0 && negative == 0.0 && positive == 0.0 ==> Compound(negative, neutral, positive) == 0.5
    ensures positive > 0.0 && negative == 0.0 && neutral == 0.0 ==> Compound(negative, neutral, positive) == 1.0
    ensures negative + neutral + positive == 0.0 ==> Compound(negative, neutral, positive) == 0.5
  {
    var total := positive + neutral + negative;
    if total != 0.0 {
      var num := positive + neutral * 0.5;
      RatioInUnitRange(num, total);
      if neutral > 0.0 && negative == 0.0 && positive == 0.0 {
        assert num == 0.5 * total;
        assert num / total == 0.5;
      }
    }
  }

  lemma RatioInUnitRange(part: real, whole: real)
    requires whole > 0.0 && 0.0 <= part <= whole
    ensures 0.0 <= part / whole <= 1.0
  {
    var q := part / whole;
    assert q * whole == part;
    assert (1.0 - q) * whole == whole - part;
  }

  const MaxClassifierText := 500
  const MinClassifierText := 10

  /** GenAI pre-processing: strip, and cut text longer than 500 characters to 500 plus "...". */
  function PrepareForClassifier(text: string): (r: string)
    ensures |r| <= MaxClassifierText + 3
    ensures r == Strip(text) || (|Strip(text)| > MaxClassifierText && r == Strip(text)[..MaxClassifierText] + "...")
    ensures |r| < MinClassifierText <==> |Strip(text)| < MinClassifierText
  {
    var t := Strip(text);
    if |t| > MaxClassifierText then t[..MaxClassifierText] + "..." else t
  }

  /**
   * What the world outside the service answers. `None` stands for a call that raises;
   * the service catches those and carries on as the source does.
   */
  datatype Environment = Environment(
    gnewsApiKey: Option<string>,
    gnewsPage: (string, nat) -> Option<seq<Article>>,
    redditSearch: string -> Option<seq<Submission>>,
    textBlobPolarity: string -> real,
    vaderCompound: string -> real,
    pipelineLoads: bool,
    classify: string -> Option<seq<LabelScore>>,
    utcDate: real -> string,
    parseDate: StrField -> Option<string>,
    today: string)

  /** `get_textblob_sentiment` without its final rounding. */
  function TextBlobScore(env: Environment, text: string): real {
    Normalize(env.textBlobPolarity(text))
  }

  /** `get_vader_sentiment` without its final rounding. */
  function VaderScore(env: Environment, text: string): real {
    Normalize(env.vaderCompound(text))
  }

  /**
   * `get_genai_sentiment`: a pipeline that cannot be loaded falls back to VADER on the
   * text as given; a classifier that raises falls back to VADER on the prepared text.
   */
  function GenAIScore(env: Environment, text: string): real {
    if !env.pipelineLoads then VaderScore(env, text)
    else
      var t := PrepareForClassifier(text);
      if |t| < MinClassifierText then 0.5
      else
        match env.classify(t)
        case None => VaderScore(env, t)
        case Some(results) =>
          Compound(FirstScore(results, "LABEL_0"), FirstScore(results, "LABEL_1"), FirstScore(results, "LABEL_2"))
  }

  /** Texts that strip to fewer than ten characters score 0.5 without consulting the classifier. */
  lemma GenAIShortText(env: Environment, env': Environment, text: string)
    requires env.pipelineLoads && env'.pipelineLoads
    requires |Strip(text)| < MinClassifierText
    ensures GenAIScore(env, text) == 0.5 == GenAIScore(env', text)
  {
  }

  /** Engines whose native scores stay in their documented ranges. */
  ghost predicate WellBehaved(env: Environment) {
    && (forall s :: -1.0 <= env.textBlobPolarity(s) <= 1.0)
    && (forall s :: -1.0 <= env.vaderCompound(s) <= 1.0)
    && (forall s :: env.classify(s).Some? ==>
          forall i :: 0 <= i < |env.classify(s).value| ==> env.classify(s).value[i].score >= 0.0)
  }

  /** The scorer selected by `model`. */
  function Score(env: Environment, model: Model, text: string): real {
    match model
    case TextBlob => TextBlobScore(env, text)
    case Vader => VaderScore(env, text)
    case GenAI => GenAIScore(env, text)
  }

  lemma {:induction false} FirstScoreNonNegative(results: seq<LabelScore>, wanted: string)
    requires forall i :: 0 <= i < |results| ==> results[i].score >= 0.0
    ensures FirstScore(results, wanted) >= 0.0
  {
    if results != [] && results[0].classLabel != wanted {
      FirstScoreNonNegative(results[1..], wanted);
    }
  }

  /** Every scorer returns a score in [0, 1] when the engines behave. */
  lemma ScoreInUnitRange(env: Environment, model: Model, text: string)
    requires WellBehaved(env)
    ensures 0.0 <= Score(env, model, text) <= 1.0
  {
    assert -1.0 <= env.vaderCompound(text) <= 1.0;
    assert -1.0 <= env.textBlobPolarity(text) <= 1.0;
    if model == GenAI {
      GenAIInUnitRange(env, text);
    }
  }

  lemma GenAIInUnitRange(env: Environment, text: string)
    requires WellBehaved(env)
    ensures 0.0 <= GenAIScore(env, text) <= 1.0
  {
    assert -1.0 <= env.vaderCompound(text) <= 1.0;
    if env.pipelineLoads {
      var t := PrepareForClassifier(text);
      assert -1.0 <= env.vaderCompound(t) <= 1.0;
      if |t| >= MinClassifierText && env.classify(t).Some? {
        ClassifierInUnitRange(env, t);
      }
    }
  }

  /** The compound of the classifier's three label scores. */
  lemma ClassifierInUnitRange(env: Environment, t: string)
    requires WellBehaved(env) && env.classify(t).Some?
    ensures var results := env.classify(t).value;
            0.0 <= Compound(FirstScore(results, "LABEL_0"), FirstScore(results, "LABEL_1"), FirstScore(results, "LABEL_2")) <= 1.0
  {
    var results := env.classify(t).value;
    FirstScoreNonNegative(results, "LABEL_0");
    FirstScoreNonNegative(results, "LABEL_1");
    FirstScoreNonNegative(results, "LABEL_2");
    CompoundBounds(FirstScore(results, "LABEL_0"), FirstScore(results, "LABEL_1"), FirstScore(results, "LABEL_2"));
  }

  // ---------------------------------------------------------------- connectors

  /** A string-valued JSON field that may be missing or null. */
  datatype StrField = Absent | Null | Str(s: string)

  datatype Article = Article(title: StrField, description: StrField, publishedAt: StrField)

  datatype Submission = Submission(title: string, selftext: string, createdUtc: real)

  /** Reddit posts carry epoch seconds, GNews posts the `publishedAt` field as found. */
  datatype Stamp = Epoch(seconds: real) | Published(field: StrField)

  datatype Post = Post(text: string, stamp: Stamp)

  const RedditLimit := 50
  const MinRedditText := 15

  /** `f"{title} {selftext}".strip()`. */
  function RedditText(s: Submission): string {
    Strip(s.title + " " + s.selftext)
  }

  /** The relevance filter: at least 15 characters, and the query occurs case-insensitively. */
  predicate Relevant(query: string, text: string) {
    |text| >= MinRedditText && Contains(Lower(text), Lower(query))
  }

  /** Whether a submission's text passes the relevance filter. */
  function RelevantSubmission(query: string): Submission -> bool {
    s => Relevant(query, RedditText(s))
  }

  /** The post made from a submission. */
  function RedditPost(s: Submission): Post {
    Post(RedditText(s), Epoch(s.createdUtc))
  }

  /** The posts kept from `subs`, in listing order. */
  function RedditPosts(query: string, subs: seq<Submission>): (r: seq<Post>)
    ensures |r| <= |subs|
  {
    KeepIf(subs, RelevantSubmission(query), RedditPost, |subs|)
  }

  /** The first 50 results of the search, as `limit=50` asks; no posts when the search raises. */
  function RedditSearchPosts(env: Environment, query: string): seq<Post> {
    match env.redditSearch(query)
    case None => []
    case Some(subs) => RedditPosts(query, if |subs| <= RedditLimit then subs else subs[..RedditLimit])
  }

  /**
   * `fetch_reddit_posts`: the first 50 results of the search; a search that raises
   * yields no posts.
   */
  method FetchRedditPosts(env: Environment, query: string) returns (posts: seq<Post>)
    ensures posts == RedditSearchPosts(env, query)
  {
    var listing := env.redditSearch(query);
    if listing.None? {
      return [];
    }
    var subs := listing.value;
    if |subs| > RedditLimit {
      subs := subs[..RedditLimit];
    }
    posts := KeepRelevant(query, subs);
  }

  /** The loop of `fetch_reddit_posts`: skip irrelevant submissions, append the rest. */
  method KeepRelevant(query: string, subs: seq<Submission>) returns (posts: seq<Post>)
    ensures posts == RedditPosts(query, subs)
  {
    posts := [];
    for i := 0 to |subs|
      invariant posts == KeepIf(subs, RelevantSubmission(query), RedditPost, i)
    {
      var s := subs[i];
      var text := RedditText(s);
      if Relevant(query, text) {
        posts := posts + [Post(text, Epoch(s.createdUtc))];
      }
    }
  }

  /**
   * Every Reddit post is made from one of the submissions, is relevant to the query and is
   * stamped in epoch seconds; the filter drops only irrelevant submissions.
   */
  lemma RedditPostsRelevant(query: string, subs: seq<Submission>)
    ensures forall p :: p in RedditPosts(query, subs) ==> exists s :: s in subs && p == RedditPost(s)
    ensures forall p :: p in RedditPosts(query, subs) ==> Relevant(query, p.text) && p.stamp.Epoch?
    ensures (forall i :: 0 <= i < |subs| ==> Relevant(query, RedditText(subs[i])))
            ==> |RedditPosts(query, subs)| == |subs|
  {
    var keep := RelevantSubmission(query);
    forall p | p in RedditPosts(query, subs)
      ensures (exists s :: s in subs && p == RedditPost(s)) && Relevant(query, p.text) && p.stamp.Epoch?
    {
      KeepIfSound(subs, keep, RedditPost, |subs|, p);
      var i :| 0 <= i < |subs| && keep(subs[i]) && p == RedditPost(subs[i]);
      assert subs[i] in subs;
    }
    if forall i :: 0 <= i < |subs| ==> Relevant(query, RedditText(subs[i])) {
      assert forall i :: 0 <= i < |subs| ==> keep(subs[i]);
      KeepIfAll(subs, keep, RedditPost, |subs|);
    }
  }

  const GNewsStopCount := 100

  /**
   * The paging loop of `fetch_gnews_posts` from page `page` on, with `acc` collected so
   * far: an error ends everything with `None`; an empty page or a total of 100 stops.
   */
  function CollectArticles(env: Environment, query: string, page: nat, acc: seq<Article>): Option<seq<Article>>
    requires |acc| < GNewsStopCount
    decreases GNewsStopCount - |acc|
  {
    match env.gnewsPage(query, page)
    case None => None
    case Some(articles) =>
      if articles == [] then Some(acc)
      else
        var all := acc + articles;
        if |all| >= GNewsStopCount then Some(all) else CollectArticles(env, query, page + 1, all)
  }

  /** Paging keeps what it had, and ends either at 100 articles or on an empty page. */
  lemma {:induction false} CollectArticlesStops(env: Environment, query: string, page: nat, acc: seq<Article>)
    requires |acc| < GNewsStopCount
    requires CollectArticles(env, query, page, acc).Some?
    ensures acc <= CollectArticles(env, query, page, acc).value
    ensures |CollectArticles(env, query, page, acc).value| >= GNewsStopCount
            || exists p :: p >= page && env.gnewsPage(query, p) == Some([])
    decreases GNewsStopCount - |acc|
  {
    var articles := env.gnewsPage(query, page).value;
    if articles != [] && |acc + articles| < GNewsStopCount {
      CollectArticlesStops(env, query, page + 1, acc + articles);
    }
  }

  /** `article['title'] + " - " + article.get('description', '')`; `None` where Python raises. */
  function ArticleText(a: Article): Option<string> {
    match (a.title, a.description)
    case (Str(t), Str(d)) => Some(t + " - " + d)
    case (Str(t), Absent) => Some(t + " - ")
    case _ => None
  }

  /** The formatting comprehension; one article that cannot be formatted turns the whole result into `None`. */
  function FormatArticles(articles: seq<Article>): (r: Option<seq<Post>>)
    ensures r.Some? ==> |r.value| == |articles|
    ensures r.Some? ==> forall i :: 0 <= i < |articles| ==>
              Some(r.value[i].text) == ArticleText(articles[i])
              && r.value[i].stamp == Published(articles[i].publishedAt)
    ensures r.None? <==> exists i :: 0 <= i < |articles| && ArticleText(articles[i]).None?
  {
    if articles == [] then Some([])
    else
      match (ArticleText(articles[0]), FormatArticles(articles[1..]))
      case (Some(t), Some(rest)) => Some([Post(t, Published(articles[0].publishedAt))] + rest)
      case _ => None
  }

  /** `fetch_gnews_posts`: no key or any error gives no posts. */
  function GNewsPosts(env: Environment, query: string): seq<Post> {
    if env.gnewsApiKey.None? || env.gnewsApiKey.value == "" then []
    else
      match CollectArticles(env, query, 1, [])
      case None => []
      case Some(all) => FormatArticles(all).GetOr([])
  }

  /** The `while True` paging loop of `fetch_gnews_posts`, followed by the formatting. */
  method FetchGNewsPosts(env: Environment, query: string) returns (posts: seq<Post>)
    ensures posts == GNewsPosts(env, query)
  {
    if env.gnewsApiKey.None? || env.gnewsApiKey.value == "" {
      return [];
    }
    var all: seq<Article> := [];
    var page: nat := 1;
    while true
      invariant |all| < GNewsStopCount
      invariant CollectArticles(env, query, 1, []) == CollectArticles(env, query, page, all)
      decreases GNewsStopCount - |all|
    {
      var response := env.gnewsPage(query, page);
      if response.None? {
        return [];
      }
      var articles := response.value;
      if articles == [] {
        break;
      }
      all := all + articles;
      if |all| >= GNewsStopCount {
        posts := FormatArticles(all).GetOr([]);
        return;
      }
      page := page + 1;
    }
    posts := FormatArticles(all).GetOr([]);
  }

  // ---------------------------------------------------------------- the route

  datatype Detail = Detail(description: string, score: real, date: Option<string>)

  datatype Response =
    | Rejected(rejection: Rejection)
    | Analysis(search: string, platform: Platform, model: Model,
               totalPosts: nat, average: real, details: seq<Detail>)

  /** The connector chosen by the platform; Twitter has none. */
  function FetchPosts(env: Environment, req: Request): seq<Post> {
    match req.platform
    case GNews => GNewsPosts(env, req.search)
    case Reddit => RedditSearchPosts(env, req.search)
    case Twitter => []
  }

  /**
   * The date string per platform: the UTC day of the epoch for Reddit, the parsed
   * publication day or today's for GNews, none otherwise.
   */
  function DateFor(env: Environment, platform: Platform, stamp: Stamp): Option<string> {
    match platform
    case Reddit => if stamp.Epoch? then Some(env.utcDate(stamp.seconds)) else None
    case GNews => if stamp.Published? then Some(env.parseDate(stamp.field).GetOr(env.today)) else None
    case Twitter => None
  }

  function DetailFor(env: Environment, req: Request, post: Post): Detail {
    Detail(post.text, Score(env, req.model, post.text), DateFor(env, req.platform, post.stamp))
  }

  function SumScores(details: seq<Detail>): real {
    if details == [] then 0.0 else SumScores(details[..|details| - 1]) + details[|details| - 1].score
  }

  /** `total / len(results) if results else 0`. */
  function Average(details: seq<Detail>): real {
    if details == [] then 0.0 else SumScores(details) / |details| as real
  }

  /** One detail per post, in order. */
  function Details(env: Environment, req: Request, posts: seq<Post>): (r: seq<Detail>)
    ensures |r| == |posts|
  {
    seq(|posts|, i requires 0 <= i < |posts| => DetailFor(env, req, posts[i]))
  }

  /** The whole answer of the route for a body and an environment. */
  function Analyze(body: Body, env: Environment): Response {
    match Validate(body)
    case Failure(rejection) => Rejected(rejection)
    case Success(req) =>
      var details := Details(env, req, FetchPosts(env, req));
      Analysis(req.search, req.platform, req.model, |details|, Average(details), details)
  }

  /** `analyze_sentiment`: validate, fetch, score each post in order, summarise. */
  method AnalyzeSentiment(body: Body, env: Environment) returns (response: Response)
    ensures response == Analyze(body, env)
  {
    var validated := Validate(body);
    if validated.Failure? {
      return Rejected(validated.error);
    }
    var req := validated.value;
    var posts := FetchFor(env, req);
    var results := ScorePosts(env, req, posts);
    response := Analysis(req.search, req.platform, req.model, |results|, Average(results), results);
  }

  /** The connector call chosen by the platform. */
  method FetchFor(env: Environment, req: Request) returns (posts: seq<Post>)
    ensures posts == FetchPosts(env, req)
  {
    match req.platform {
      case GNews =>
        posts := FetchGNewsPosts(env, req.search);
      case Reddit =>
        posts := FetchRedditPosts(env, req.search);
      case Twitter =>
        posts := [];
    }
  }

  /** The scoring loop: one detail per post, appended in order. */
  method ScorePosts(env: Environment, req: Request, posts: seq<Post>) returns (results: seq<Detail>)
    ensures results == Details(env, req, posts)
  {
    results := [];
    for i := 0 to |posts|
      invariant |results| == i
      invariant forall k :: 0 <= k < i ==> results[k] == DetailFor(env, req, posts[k])
    {
      var text := posts[i].text;
      var date := DateFor(env, req.platform, posts[i].stamp);
      var score := Score(env, req.model, text);
      results := results + [Detail(text, score, date)];
    }
  }

  /** A rejected request is answered before any connector or engine is consulted. */
  lemma RejectionIgnoresEnvironment(body: Body, env: Environment, env': Environment)
    requires Validate(body).Failure?
    ensures Analyze(body, env) == Analyze(body, env') == Rejected(Validate(body).error)
  {
  }

  /**
   * One detail per fetched post, in fetch order: described by the post's text, scored by the
   * requested model and dated as its platform dates posts.
   */
  lemma OneDetailPerPost(body: Body, env: Environment)
    requires Validate(body).Success?
    ensures Analyze(body, env).Analysis?
    ensures Analyze(body, env).totalPosts == |Analyze(body, env).details| == |FetchPosts(env, Validate(body).value)|
    ensures forall i :: 0 <= i < |Analyze(body, env).details| ==>
              Analyze(body, env).details[i].description == FetchPosts(env, Validate(body).value)[i].text
    ensures forall i :: 0 <= i < |Analyze(body, env).details| ==>
              Analyze(body, env).details[i].score
                == Score(env, Validate(body).value.model, FetchPosts(env, Validate(body).value)[i].text)
    ensures forall i :: 0 <= i < |Analyze(body, env).details| ==>
              Analyze(body, env).details[i].date
                == DateFor(env, Validate(body).value.platform, FetchPosts(env, Validate(body).value)[i].stamp)
  {
  }

  /** Twitter has no connector: zero posts and an average of 0. */
  lemma TwitterIsEmpty(body: Body, env: Environment)
    requires Validate(body).Success? && Validate(body).value.platform == Twitter
    ensures Analyze(body, env).totalPosts == 0 && Analyze(body, env).average == 0.0
  {
    assert Analyze(body, env).details == [];
  }

  lemma {:induction false} SumScoresBounds(details: seq<Detail>)
    requires forall i :: 0 <= i < |details| ==> 0.0 <= details[i].score <= 1.0
    ensures 0.0 <= SumScores(details) <= |details| as real
  {
    if details != [] {
      SumScoresBounds(details[..|details| - 1]);
    }
  }

  /** With well-behaved engines every score, and so the average, lies in [0, 1]. */
  lemma AverageInUnitRange(body: Body, env: Environment)
    requires Validate(body).Success? && WellBehaved(env)
    ensures 0.0 <= Analyze(body, env).average <= 1.0
    ensures forall i :: 0 <= i < |Analyze(body, env).details| ==> 0.0 <= Analyze(body, env).details[i].score <= 1.0
  {
    var req := Validate(body).value;
    var posts := FetchPosts(env, req);
    var details := Analyze(body, env).details;
    forall i | 0 <= i < |details| ensures 0.0 <= details[i].score <= 1.0 {
      ScoreInUnitRange(env, req.model, posts[i].text);
    }
    SumScoresBounds(details);
    if details != [] {
      var n := |details| as real;
      var s := SumScores(details);
      RatioInUnitRange(s, n);
    }
  }
}
