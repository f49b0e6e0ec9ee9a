# SentiScope core, modelled in Dafny

SentiScope fetches posts about a search query from Reddit or GNews. It scores each post's
sentiment with TextBlob, VADER or a Hugging Face classifier, stores the analysis, and lets a
user browse, compare and cluster past analyses. This project models the parts of the system
that decide what the user sees:

- **Fetch-and-score service** (`server/python/main.py`), module `SentimentService`:
  - request validation and the dispatch to a connector and a scorer;
  - the Reddit relevance filter and the GNews paging loop;
  - the mapping of native scores onto [0, 1] and the classifier's compound score;
  - one result per post, with its date, and the average score.
- **Clustering pipeline** (`server/controllers/clustering.controller.js`):
  - `ClusteringFeatures`: request checks, the data points, engagement, `normalizeValue`, the feature vectors and the metric clamps;
  - `KMeans`: k-means from given initial centroids;
  - `Hierarchical`: agglomerative merging;
  - `Dbscan`: DBSCAN as written;
  - `Vectors`: distances and `calculateCentroid`;
  - `ClusterSummaries`: cluster summaries, names, descriptions, keywords, insights, recommendations and point colours.
- **Older clustering controller** (`server/controllers/clusteringController.js`), module
  `LegacyClustering`: validation, feature preparation, result points, summaries, descriptions,
  keyword density, the temporal feature and keywords.
- **Client helpers**:
  - `PostTimeline`: the sentiment bands, the band filter and the labels;
  - `SentimentBreakdown`: the counting loop;
  - `SentimentDisplay`: the colour, status and icon helpers;
  - `SavedAnalysis`: history filter and sort, card flipping and delete;
  - `TopKeywords`, `WordCloud` and `TopicSharePie`: word-frequency tables, over the shared `WordCount` module;
  - `ComparisonChart`: the index-wise chart merge;
  - `AuthSlice`: the auth reducer, as a function and as a store class;
  - `ResetPassword`: the password-reset form, as a class with field-granular frames.

The outside world comes in as parameters. This covers:

- the TextBlob, VADER and Hugging Face engines;
- PRAW and the GNews HTTP call;
- clocks and date parsing;
- `Math.random`;
- `parseFloat`;
- the `stopword` package's `removeStopwords`, given as a stop-word set.

Scores are exact `real`s. Distances are compared as squared distances.

Strings are sequences of Unicode code points. The two languages measure and trim them
differently, and the model follows each:

- JavaScript's `trim` and `\s` use the ECMAScript white-space set, which includes U+00A0 and U+FEFF (`Text.IsSpace`).
- Python's `strip` uses `str.isspace`, which also includes U+001C–U+001F and U+0085 but not U+FEFF (`Text.IsPySpace`).
- JavaScript's `length` counts UTF-16 code units (`Text.JsLength`), so a character above U+FFFF counts twice.
- Python's `len` counts code points.

Where a loop in the source updates state step by step, the model has a method with a loop. It
is proved equal to a specification function, and the properties are proved about that function.

## Model

| member | source | states |
|---|---|---|
| Text.Trim | server/controllers/clustering.controller.js:20 | JavaScript `trim`: no longer than the input, and neither end of a non-empty result is ECMAScript white space |
| Text.Strip | server/python/main.py:137 | Python `strip`: no longer than the input, and neither end of a non-empty result is Python white space |
| Text.TrimIsSlice | server/controllers/clustering.controller.js:20 | trimming keeps one contiguous slice of the input and cuts away only white space |
| Text.TrimEmptyIffBlank | server/controllers/clustering.controller.js:20 | the trimmed text is empty exactly when every character is white space |
| Text.JsLength | client/src/components/ResetPassword.jsx:51 | a string's JavaScript `length` counts UTF-16 code units: between its number of code points and twice that |
| Text.JsLengthBmp | client/src/components/ResetPassword.jsx:51 | for text without characters above U+FFFF the JavaScript length is the number of code points |
| Text.JsLengthSurrogates | client/src/components/ResetPassword.jsx:51 | three emoji above U+FFFF have JavaScript length 6; "abc" has length 3 |
| Text.NoBreakSpaceTrimmed | server/controllers/clustering.controller.js:20 | both JavaScript `trim` and Python `strip` empty a lone no-break space |
| Text.NextLineStripped | server/python/main.py:137 | Python `strip` removes U+0085 and JavaScript `trim` keeps it |
| Text.NoBreakSpaceSplits | server/controllers/clusteringController.js:568 | `split(/\s+/)` splits at a no-break space |
| SentimentService.ParsePlatform | server/python/main.py:192-193 | recognises exactly "twitter", "gnews" and "reddit", each as its own platform |
| SentimentService.ParseModel | server/python/main.py:195-196 | recognises exactly "vader", "textblob" and "genai", each as its own model |
| SentimentService.NamesRoundTrip | server/python/main.py:192-196 | the platform and model names parse back to the platform and model they name |
| SentimentService.Validate | server/python/main.py:178-196 | 500 exactly for an unreadable or truthy non-object body; the empty-body 400 exactly for a falsy body; an accepted request carries the body's non-empty search and names its platform and model |
| SentimentService.ValidateAccepts | server/python/main.py:183-196 | a body with a non-empty search, a known platform and a known model is accepted with exactly those values, whatever other fields it has |
| SentimentService.ValidateRejectsPlatform | server/python/main.py:188-193 | with all three fields present, an unknown platform is rejected with the "Invalid platform" 400 |
| SentimentService.Normalize | server/python/main.py:105 | `(x + 1) / 2` maps [-1, 1] onto [0, 1] |
| SentimentService.NormalizeAnchors | server/python/main.py:114 | -1, 0 and 1 map to 0, 0.5 and 1, and the mapping preserves order |
| SentimentService.FirstScore | server/python/main.py:149-151 | the score of the first result with the wanted label, 0 when there is none |
| SentimentService.FirstScoreNonNegative | server/python/main.py:149-151 | non-negative label scores give a non-negative picked score |
| SentimentService.CompoundBounds | server/python/main.py:154-159 | for non-negative class scores the compound lies in [0, 1]; all mass on negative, neutral or positive gives 0, 0.5 or 1; a zero total gives 0.5 |
| SentimentService.PrepareForClassifier | server/python/main.py:137-139 | the text stripped of Python white space (which includes U+0085 and U+00A0), cut to its first 500 code points plus "..." when longer than 500 |
| SentimentService.GenAIShortText | server/python/main.py:141-143 | a text that strips of Python white space to fewer than 10 code points scores 0.5, whatever the classifier |
| SentimentService.ScoreInUnitRange | server/python/main.py:207-212 | every selected scorer returns a score in [0, 1] when the engines stay in their ranges |
| SentimentService.GenAIInUnitRange | server/python/main.py:117-172 | the GenAI scorer, fallbacks included, stays in [0, 1] |
| SentimentService.ClassifierInUnitRange | server/python/main.py:146-162 | the compound of the classifier's label scores lies in [0, 1] |
| SentimentService.RedditPosts | server/python/main.py:80-91 | at most as many posts as submissions |
| SentimentService.KeepRelevant | server/python/main.py:80-91 | the filtering loop produces exactly the relevant submissions' posts, in order |
| SentimentService.FetchRedditPosts | server/python/main.py:71-97 | the posts of the first 50 search results, and none when the search raises |
| SentimentService.RedditPostsRelevant | server/python/main.py:81-85 | every kept post is made from a submission (its text the title and self-text joined by a space and stripped of Python white space), has at least 15 code points and contains the query case-insensitively; when every submission is relevant nothing is dropped |
| SentimentService.CollectArticlesStops | server/python/main.py:45-60 | paging keeps the articles it had and, when it ends without error, holds at least 100 articles or stopped on an empty page |
| SentimentService.FormatArticles | server/python/main.py:63-64 | one post per article with text `title - description`, and a failure exactly when some article cannot be formatted |
| SentimentService.FetchGNewsPosts | server/python/main.py:24-68 | the paging loop followed by formatting; no key or any error gives no posts |
| SentimentService.Details | server/python/main.py:215-237 | one detail per post, in order |
| SentimentService.FetchFor | server/python/main.py:199-204 | gnews and reddit call their connector; twitter gets no posts |
| SentimentService.ScorePosts | server/python/main.py:215-237 | the scoring loop appends one detail per post, in fetch order |
| SentimentService.AnalyzeSentiment | server/python/main.py:176-254 | validate, fetch, score and summarise, as the route answers |
| SentimentService.RejectionIgnoresEnvironment | server/python/main.py:178-196 | a rejected request is answered before any connector or engine is consulted |
| SentimentService.OneDetailPerPost | server/python/main.py:215-247 | `total_posts` equals the number of details and of fetched posts; detail i has post i's text, the score the chosen model gives it, and its platform's date |
| SentimentService.TwitterIsEmpty | server/python/main.py:203-247 | twitter yields 0 posts and average 0 |
| SentimentService.SumScoresBounds | server/python/main.py:240 | scores in [0, 1] add up to between 0 and the number of scores |
| SentimentService.AverageInUnitRange | server/python/main.py:240-241 | with well-behaved engines every score and the average lie in [0, 1] |
| ClusteringFeatures.ValidateRequest | server/controllers/clustering.controller.js:20-32 | a missing query, or one that JavaScript `trim` empties (any `\s` character, U+00A0 and U+FEFF included), is rejected first; a cluster count outside [2, 10] is rejected next; nothing else is rejected |
| ClusteringFeatures.NoBreakSpaceQuery | server/controllers/clustering.controller.js:20-22 | a query of a lone no-break space is rejected as missing; one with a letter after it passes |
| ClusteringFeatures.CheckDataSize | server/controllers/clustering.controller.js:144-149 | rejected exactly when there are fewer data points than clusters |
| ClusteringFeatures.CountWords | server/controllers/clustering.controller.js:64 | the filter keeps every field except the empty ones: the number of fields less the occurrences of "" |
| ClusteringFeatures.SplitWordCount | server/controllers/clustering.controller.js:64 | the non-empty fields of `split(/\s+/)` are exactly the words: one per character that is not white space and starts the text or follows white space |
| ClusteringFeatures.WordCountOf | server/controllers/clustering.controller.js:64 | the word count is the number of word starts, and 0 exactly when the text is all white space |
| ClusteringFeatures.WordCountIgnoresPadding | server/controllers/clustering.controller.js:64 | `split` leaves an empty field for leading white space, which the filter drops: " a\u00A0b " has two words |
| ClusteringFeatures.MakeDataPoint | server/controllers/clustering.controller.js:56-70 | the word count is the number of words of the text (0 exactly when it is all white space); the link flag holds iff the text contains "http://" or "https://", the question and exclamation flags iff it contains "?" or "!"; the engagement lies in [0, 100] |
| ClusteringFeatures.EmptyTextDataPoint | server/controllers/clustering.controller.js:57-67 | a result without text has no words, links, questions or exclamations |
| ClusteringFeatures.Clamp | server/controllers/clustering.controller.js:1150 | the result lies in [lo, hi] and equals x when x does |
| ClusteringFeatures.EngagementBoost | server/controllers/clustering.controller.js:1141-1148 | the content and subreddit boosts add up to between 0 and 45; the length boost counts UTF-16 code units |
| ClusteringFeatures.Engagement | server/controllers/clustering.controller.js:1135-1151 | the engagement score lies in [0, 100] |
| ClusteringFeatures.EngagementUnclamped | server/controllers/clustering.controller.js:1137-1150 | for a base in [10, 50) the clamp never bites: base plus boosts, in [10, 95) |
| ClusteringFeatures.NormalizeValue | server/controllers/clustering.controller.js:1153-1157 | 0.5 for a non-number or a degenerate range, otherwise a value in [0, 1] |
| ClusteringFeatures.NormalizeValueOnRange | server/controllers/clustering.controller.js:1155-1156 | on a proper range: 0 at or below the minimum, 1 at or above the maximum, the affine position in between, and order-preserving |
| ClusteringFeatures.KeywordFeatures | server/controllers/clustering.controller.js:1159-1177 | five 0/1 flags, all 0 for empty content |
| ClusteringFeatures.Dimension | server/controllers/clustering.controller.js:222-266 | the vector length a selection asks for is positive |
| ClusteringFeatures.SentimentGroup | server/controllers/clustering.controller.js:226-229 | none when the group is off; otherwise two entries: the sentiment mapped from [-1, 1] onto [0, 1] as (s + 1) / 2, and its magnitude, s or -s and never negative |
| ClusteringFeatures.EngagementGroup | server/controllers/clustering.controller.js:232-234 | one entry in [0, 1] for a selected group, none otherwise |
| ClusteringFeatures.ContentGroup | server/controllers/clustering.controller.js:237-242 | four entries in [0, 1] for a selected group, none otherwise |
| ClusteringFeatures.TemporalGroup | server/controllers/clustering.controller.js:245-248 | two entries in [0, 1] for a selected group, none otherwise |
| ClusteringFeatures.KeywordGroup | server/controllers/clustering.controller.js:251-254 | five 0/1 entries for a selected group, none otherwise |
| ClusteringFeatures.UserGroup | server/controllers/clustering.controller.js:257-260 | two entries in [0, 1] for a selected group, none otherwise |
| ClusteringFeatures.FeatureVectorShape | server/controllers/clustering.controller.js:222-273 | the vector has exactly 2·sentiment + 1·engagement + 4·content + 2·temporal + 5·keywords + 2·user entries, or 2 when nothing is selected; never empty; every entry in [0, 1] except the sentiment magnitude |
| ClusteringFeatures.PrepareFeatures | server/controllers/clustering.controller.js:222-273 | one feature vector per data point, each of the selection's dimension |
| ClusteringFeatures.ReportedSilhouette | server/controllers/clustering.controller.js:969 | the reported silhouette lies in [-1, 1] and equals the raw score when that does |
| ClusteringFeatures.Coherence | server/controllers/clustering.controller.js:971 | coherence is the silhouette floored at 0 |
| ClusteringFeatures.Inertia | server/controllers/clustering.controller.js:926-933 | the inertia is never negative |
| Vectors.SqDist | server/controllers/clustering.controller.js:1199-1206 | the squared distance is never negative |
| Vectors.SqDistProperties | server/controllers/clustering.controller.js:1199-1206 | distance is symmetric and zero from a vector to itself |
| Vectors.Centroid | server/controllers/clustering.controller.js:677-690 | the empty vector for no points, else as many coordinates as the first point |
| Vectors.CalculateCentroid | server/controllers/clustering.controller.js:677-690 | the summing loop returns the coordinate-wise mean |
| Vectors.CentroidSingleton | server/controllers/clustering.controller.js:677-690 | the centroid of one point is that point |
| Vectors.CentroidWithinBounds | server/controllers/clustering.controller.js:677-690 | every centroid coordinate lies within the bounds of the points' coordinates |
| KMeans.NearestAmong | server/controllers/clustering.controller.js:312-321 | the scan's index lies among the centroids scanned |
| KMeans.NearestAmongMinimal | server/controllers/clustering.controller.js:312-321 | the scan's index is at minimal distance, and strictly closer than every earlier centroid |
| KMeans.Nearest | server/controllers/clustering.controller.js:312-321 | a valid centroid index |
| KMeans.NearestUnique | server/controllers/clustering.controller.js:312-321 | the first centroid at minimal distance is the only index that is both at minimal distance and earlier than every other such index |
| KMeans.NearestCentroid | server/controllers/clustering.controller.js:311-323 | the inner loop with `minDistance` starting at Infinity returns the first nearest centroid |
| KMeans.Assign | server/controllers/clustering.controller.js:310-325 | one label per point, each a centroid index |
| KMeans.AssignUpTo | server/controllers/clustering.controller.js:310-325 | the first n labels, each a centroid index |
| KMeans.AssignNearest | server/controllers/clustering.controller.js:310-325 | point i is labelled with its first nearest centroid |
| KMeans.AssignUpToNearest | server/controllers/clustering.controller.js:310-325 | the same for the first n points |
| KMeans.Members | server/controllers/clustering.controller.js:336 | only points of the input, at most as many |
| KMeans.MembersUpTo | server/controllers/clustering.controller.js:336 | the same for the first n points |
| KMeans.MembersNonEmpty | server/controllers/clustering.controller.js:336-338 | a cluster has members exactly when some point carries its label |
| KMeans.MembersUpToNonEmpty | server/controllers/clustering.controller.js:336-338 | the same for the first n points |
| KMeans.Update | server/controllers/clustering.controller.js:335-344 | as many centroids as before |
| KMeans.UpdateUpTo | server/controllers/clustering.controller.js:335-344 | the first k centroids after the update |
| KMeans.UpdateAt | server/controllers/clustering.controller.js:335-344 | centroid j is the mean of cluster j's members, or unchanged when it has none |
| KMeans.UpdateUpToAt | server/controllers/clustering.controller.js:335-344 | the same for the first k centroids |
| KMeans.UpdateUniform | server/controllers/clustering.controller.js:339-342 | the update keeps every centroid at the points' dimension |
| KMeans.AssignAll | server/controllers/clustering.controller.js:310-325 | the assignment loop computes one assignment pass |
| KMeans.UpdateCentroids | server/controllers/clustering.controller.js:335-344 | the update loop computes the update step |
| KMeans.PerformKMeans | server/controllers/clustering.controller.js:299-349 | the iteration loop computes the k-means result from the given centroids |
| KMeans.LloydShape | server/controllers/clustering.controller.js:309-346 | every label names one of k centroids, and there are still k centroids of the same dimension |
| KMeans.UpdateFits | server/controllers/clustering.controller.js:335-344 | after the update every non-empty cluster's centroid is its mean, and an empty cluster keeps its centroid |
| KMeans.LloydConverged | server/controllers/clustering.controller.js:327-331 | stopping because no label changed leaves labels that are one assignment pass over centroids that fit them |
| KMeans.ChangedRound | server/controllers/clustering.controller.js:333-344 | a round where labels change fits the centroids to the new labels and goes on |
| KMeans.LloydChanged | server/controllers/clustering.controller.js:333-344 | such a round hands fitted centroids to the next round |
| KMeans.ConvergedRound | server/controllers/clustering.controller.js:327-331 | in the round where nothing changes the centroids already fit the labels |
| KMeans.KMeansLabelsInRange | server/controllers/clustering.controller.js:299-349 | every label lies in [0, k) |
| KMeans.KMeansFixedPoint | server/controllers/clustering.controller.js:309-346 | on convergence every point carries its first nearest centroid and every non-empty cluster's centroid is its mean |
| Hierarchical.Centroids | server/controllers/clustering.controller.js:399 | one centroid per cluster, entry c being cluster c's centroid |
| Hierarchical.Gather | server/controllers/clustering.controller.js:385 | entry t is the point at index ms[t], so every gathered vector is one of the points |
| Hierarchical.Singletons | server/controllers/clustering.controller.js:364 | one cluster per point, holding that point's index, centred on it |
| Hierarchical.SingletonsValid | server/controllers/clustering.controller.js:364 | the starting clusters are valid |
| Hierarchical.RowBest | server/controllers/clustering.controller.js:373-380 | row i's column lies after i |
| Hierarchical.RowBestMinimal | server/controllers/clustering.controller.js:373-380 | row i's column is at minimal distance in its row |
| Hierarchical.RowBestFirst | server/controllers/clustering.controller.js:373-380 | row i's column is strictly closer than every earlier column |
| Hierarchical.BestPair | server/controllers/clustering.controller.js:372-381 | a pair i < j of slots |
| Hierarchical.BestPairMinimal | server/controllers/clustering.controller.js:372-381 | after r rows the pair held is at minimal distance among them |
| Hierarchical.BestPairStep | server/controllers/clustering.controller.js:375-379 | a row keeps the held pair unless its own best is strictly closer |
| Hierarchical.MinimalStep | server/controllers/clustering.controller.js:375-379 | minimality extends by one row |
| Hierarchical.BestPairFirstInScan | server/controllers/clustering.controller.js:372-381 | no earlier pair in scan order is as close as the pair held |
| Hierarchical.FirstStep | server/controllers/clustering.controller.js:375-379 | a strictly closer row pair is first in scan order |
| Hierarchical.ClosestPair | server/controllers/clustering.controller.js:369-381 | a pair i < j of slots |
| Hierarchical.ClosestPairIsFirstClosest | server/controllers/clustering.controller.js:369-381 | the merged pair is at minimal distance and is the unique first such pair in scan order |
| Hierarchical.ScanRow | server/controllers/clustering.controller.js:373-380 | the inner loop computes the row's winner |
| Hierarchical.ClosestPairScan | server/controllers/clustering.controller.js:369-381 | the two nested loops compute the first closest pair |
| Hierarchical.Merge | server/controllers/clustering.controller.js:383-388 | one cluster fewer |
| Hierarchical.MergeValid | server/controllers/clustering.controller.js:383-388 | a merge keeps the clusters valid |
| Hierarchical.LastClusterOf | server/controllers/clustering.controller.js:395-399 | -1 or the index of a cluster that holds the point |
| Hierarchical.Labels | server/controllers/clustering.controller.js:393-400 | one label per point |
| Hierarchical.LabelPoints | server/controllers/clustering.controller.js:393-400 | the labelling loop computes the labels and collects the centroids in order |
| Hierarchical.PerformHierarchical | server/controllers/clustering.controller.js:358-403 | the merge loop and the labelling produce the outcome below |
| Hierarchical.AgglomerateCount | server/controllers/clustering.controller.js:367-389 | the loop ends with min(n, k) clusters |
| Hierarchical.SameUpTo | server/controllers/clustering.controller.js:383-388 | clusters that agree on a prefix have the same members there |
| Hierarchical.ReplaceMembers | server/controllers/clustering.controller.js:387 | replacing a slot swaps its members |
| Hierarchical.RemoveMembers | server/controllers/clustering.controller.js:388 | splicing a slot out removes exactly its members |
| Hierarchical.MergeSlots | server/controllers/clustering.controller.js:383-388 | after a merge slot i holds the merged cluster, earlier slots stay and later slots move down |
| Hierarchical.MergeMembers | server/controllers/clustering.controller.js:383-388 | a merge loses and duplicates no point index |
| Hierarchical.AgglomerateMembers | server/controllers/clustering.controller.js:367-389 | merging never loses or duplicates a point index |
| Hierarchical.Indices | server/controllers/clustering.controller.js:364 | the indices 0 .. n-1 |
| Hierarchical.SingletonsMembers | server/controllers/clustering.controller.js:364 | the starting clusters hold each index once |
| Hierarchical.IndicesOnce | server/controllers/clustering.controller.js:364 | each index below n occurs once |
| Hierarchical.SingletonsFit | server/controllers/clustering.controller.js:364 | every starting centroid is its point |
| Hierarchical.AgglomerateFit | server/controllers/clustering.controller.js:367-389 | every centroid stays the mean of its members' points |
| Hierarchical.MergeFit | server/controllers/clustering.controller.js:385-386 | a merge recomputes the merged centroid and keeps the others |
| Hierarchical.MemberCounted | server/controllers/clustering.controller.js:395-399 | a member of a cluster is counted among the members |
| Hierarchical.LastClusterOfHolds | server/controllers/clustering.controller.js:395-399 | the last cluster holding a point holds it, and is the only one when the point is held once |
| Hierarchical.LabelsHold | server/controllers/clustering.controller.js:393-400 | when the clusters share out the indices, every point is labelled with the one cluster holding it |
| Hierarchical.HierarchicalCorrect | server/controllers/clustering.controller.js:358-403 | min(n, k) clusters that share out the point indices, every point labelled with the cluster holding it, every centroid the mean of its cluster |
| Dbscan.NeighborsUpTo | server/controllers/clustering.controller.js:692-706 | the candidates below m within eps, other than p, in order |
| Dbscan.Neighbors | server/controllers/clustering.controller.js:692-706 | only valid indices other than p |
| Dbscan.NeighborsExactly | server/controllers/clustering.controller.js:692-706 | the neighbours are exactly the other points within eps, in increasing order |
| Dbscan.FindNeighbors | server/controllers/clustering.controller.js:692-706 | the loop computes the neighbours |
| Dbscan.Absorb | server/controllers/clustering.controller.js:428-444 | as many labels as before |
| Dbscan.AbsorbPointwise | server/controllers/clustering.controller.js:428-444 | exactly the unlabelled neighbours take the id; every other label stays |
| Dbscan.AbsorbNeighbors | server/controllers/clustering.controller.js:428-444 | the seed loop computes the absorption |
| Dbscan.Visit | server/controllers/clustering.controller.js:416-447 | one visit keeps the number of labels |
| Dbscan.Grow | server/controllers/clustering.controller.js:415-448 | the outer loop keeps one label per point |
| Dbscan.VisitSpec | server/controllers/clustering.controller.js:416-447 | a new cluster starts only at an unlabelled point with at least minPts neighbours, and is that point and its unlabelled neighbours; no set label changes |
| Dbscan.VisitConsistent | server/controllers/clustering.controller.js:416-447 | a visit keeps every label -1 or a handed-out id, and every id in use |
| Dbscan.GrowConsistent | server/controllers/clustering.controller.js:415-448 | the same over the whole loop |
| Dbscan.GrowKeepsLabels | server/controllers/clustering.controller.js:417 | an already clustered point is never relabelled |
| Dbscan.GrowClusters | server/controllers/clustering.controller.js:415-448 | the outer loop computes the labelling |
| Dbscan.MaxLabel | server/controllers/clustering.controller.js:451 | the largest label, which is one of them |
| Dbscan.NumClustersIsNextId | server/controllers/clustering.controller.js:451 | `Math.max(...labels) + 1` is the number of ids handed out |
| Dbscan.ClusterCentroids | server/controllers/clustering.controller.js:454-460 | at most one centroid per id |
| Dbscan.ClusterCentroidsAllUsed | server/controllers/clustering.controller.js:454-460 | every id in use yields the mean of its points, at its own index |
| Dbscan.ClusterCentroidsUniform | server/controllers/clustering.controller.js:454-460 | every centroid has the points' dimension |
| Dbscan.CentroidLoop | server/controllers/clustering.controller.js:454-460 | the loop computes the centroids |
| Dbscan.AssignNoise | server/controllers/clustering.controller.js:463-478 | leftover noise goes to its first nearest centroid when there is one; other labels stay |
| Dbscan.NoiseLoop | server/controllers/clustering.controller.js:463-478 | the loop computes the noise assignment |
| Dbscan.PerformDBSCAN | server/controllers/clustering.controller.js:410-481 | the loops compute the DBSCAN result |
| Dbscan.DbscanOutcome | server/controllers/clustering.controller.js:410-481 | one centroid per cluster found, the mean of its points; with a cluster every point ends in one, otherwise every point stays -1; seed-loop labels survive |
| ClusterSummaries.ColorOf | server/controllers/clustering.controller.js:553-557 | always one of the palette colours |
| ClusterSummaries.SentimentLevelOf | server/controllers/clustering.controller.js:588-590 | Positive iff above 0.2, Negative iff below -0.2, otherwise Neutral |
| ClusterSummaries.EngagementLevelOf | server/controllers/clustering.controller.js:593-595 | High iff above 60, Medium iff in (30, 60], Low otherwise; never None |
| ClusterSummaries.ClusterNameMatchesLevels | server/controllers/clustering.controller.js:797-818 | the name is the word-count prefix plus the name of the summary's own levels |
| ClusterSummaries.LevelNameInjective | server/controllers/clustering.controller.js:798-802 | different level pairs get different names |
| ClusterSummaries.SentimentWordIsLowerCase | server/controllers/clustering.controller.js:834 | the sentiment words are the lower-cased level names |
| ClusterSummaries.EngagementWordIsLowerCase | server/controllers/clustering.controller.js:834 | the engagement words are the lower-cased level names |
| ClusterSummaries.TemplateCoverage | server/controllers/clustering.controller.js:821-833 | exactly the engagement level None has no template |
| ClusterSummaries.DescriptionMentionsSize | server/controllers/clustering.controller.js:820-835 | every description states the size |
| ClusterSummaries.DescriptionGeneric | server/controllers/clustering.controller.js:833-834 | without a template the generic sentence is used |
| ClusterSummaries.Contents | server/controllers/clustering.controller.js:838 | one content string per point |
| ClusterSummaries.KeepNonStop | server/controllers/clustering.controller.js:851-854 | exactly the entries whose word is not a stop word, in order |
| ClusterSummaries.Keys | server/controllers/clustering.controller.js:856 | the words of the entries, in order |
| ClusterSummaries.ExtractClusterKeywords | server/controllers/clustering.controller.js:837-857 | the counting loop, filter, sort and slice compute the keywords |
| ClusterSummaries.CandidateEntryCounted | server/controllers/clustering.controller.js:843-854 | each candidate entry is a candidate word with its number of occurrences |
| ClusterSummaries.CandidateEntriesDistinct | server/controllers/clustering.controller.js:843-854 | no word has two candidate entries |
| ClusterSummaries.CandidateHasEntry | server/controllers/clustering.controller.js:843-854 | every candidate word has an entry |
| ClusterSummaries.TopEntriesCounted | server/controllers/clustering.controller.js:850-856 | each kept entry is a candidate word with its count |
| ClusterSummaries.TopKeywordsRanked | server/controllers/clustering.controller.js:837-857 | at most ten distinct keywords, each longer than 3 UTF-16 code units, not a stop word, taken from the words, in non-increasing count order |
| ClusterSummaries.TopKeywordsLeftOut | server/controllers/clustering.controller.js:853-855 | a candidate left out occurs no more often than any keyword kept |
| ClusterSummaries.InCluster | server/controllers/clustering.controller.js:562 | exactly the data points whose label is the id, in order |
| ClusterSummaries.InClusterSize | server/controllers/clustering.controller.js:562 | a cluster has as many points as labels equal to its id |
| ClusterSummaries.CountLinks | server/controllers/clustering.controller.js:616 | at most the number of points |
| ClusterSummaries.CountQuestions | server/controllers/clustering.controller.js:617 | at most the number of points |
| ClusterSummaries.SummaryForBasics | server/controllers/clustering.controller.js:561-621 | each summary has its own id and colour and the number of points labelled with its id |
| ClusterSummaries.SummaryForProperties | server/controllers/clustering.controller.js:564-621 | an empty cluster is "Empty Cluster i+1" with engagement None; a non-empty one reports its levels, a name built from the exact mean word count, `avgWordCount` rounded half up from that mean, a share in (0, 100] and at most five keywords |
| ClusterSummaries.Round | server/controllers/clustering.controller.js:616 | `Math.round`: the integer nearest to x, with halves rounded up |
| ClusterSummaries.NameUsesExactMean | server/controllers/clustering.controller.js:586-616 | the name is chosen from the exact mean, so a mean of 100.4 is "Detailed" while `avgWordCount` reads 100, and 19.6 is "Brief" while it reads 20; 2.5 rounds to 3 |
| ClusterSummaries.PercentageInRange | server/controllers/clustering.controller.js:606 | a share of a non-empty cluster lies in (0, 100] |
| ClusterSummaries.BuildSummary | server/controllers/clustering.controller.js:561-621 | one loop pass computes the summary of the cluster |
| ClusterSummaries.Unsorted | server/controllers/clustering.controller.js:561-622 | m summaries, in id order |
| ClusterSummaries.UnsortedAt | server/controllers/clustering.controller.js:561-622 | summary k of the loop is the summary of cluster k |
| ClusterSummaries.GenerateClusterSummaries | server/controllers/clustering.controller.js:552-625 | the loop and sort compute the summaries |
| ClusterSummaries.BySizeDescIsPreorder | server/controllers/clustering.controller.js:624 | the size comparator is a total preorder |
| ClusterSummaries.UnsortedIds | server/controllers/clustering.controller.js:561-622 | summary i of the loop has id i |
| ClusterSummaries.CountsOnce | server/controllers/clustering.controller.js:624 | an id occurs once among summaries with distinct ids |
| ClusterSummaries.PermutationKeepsIds | server/controllers/clustering.controller.js:624 | reordering keeps the ids distinct |
| ClusterSummaries.ClusterSummariesShape | server/controllers/clustering.controller.js:552-625 | exactly numClusters summaries, one per id, sorted by size descending |
| ClusterSummaries.ColorOfCluster | server/controllers/clustering.controller.js:175 | the colour of the summary with that id, or the default |
| ClusterSummaries.SortTwo | server/controllers/clustering.controller.js:624 | sorting two summaries puts the strictly larger first |
| ClusterSummaries.PaletteColors | server/controllers/clustering.controller.js:553-557 | the first two palette colours differ |
| ClusterSummaries.ColorAtPositionSwapped | server/controllers/clustering.controller.js:175 | when cluster 1 is larger, a point of cluster 0 is drawn in cluster 1's colour |
| ClusterSummaries.SwappedColors | server/controllers/clustering.controller.js:624 | sorting the summaries of clusters 0 and 1 swaps them when cluster 1 is larger |
| ClusterSummaries.ColorAtPositionMismatch | server/controllers/clustering.controller.js:175 | with labels [1, 1, 0], the point of cluster 0 gets cluster 1's colour |
| ClusterSummaries.ColorOfClusterCorrect | server/controllers/clustering.controller.js:175 | looking the summary up by id gives every point its own cluster's colour |
| ClusterSummaries.ColorOfClusterFinds | server/controllers/clustering.controller.js:175 | the search finds the summary with the wanted id |
| ClusterSummaries.PointColors | server/controllers/clustering.controller.js:175 | one colour per point |
| ClusterSummaries.PointSize | server/controllers/clustering.controller.js:178 | the point size lies in [5, 15] |
| ClusterSummaries.ActionableInsightsContents | server/controllers/clustering.controller.js:859-882 | at most three insights; the FAQ advice iff the cluster asks questions; the links advice iff it shares links and the cut to three keeps it |
| ClusterSummaries.Largest | server/controllers/clustering.controller.js:903-904 | one of the summaries, at least as large as every one |
| ClusterSummaries.LargestOfSorted | server/controllers/clustering.controller.js:903-904 | on summaries sorted by size the largest is the first |
| ClusterSummaries.HighEngagementCount | server/controllers/clustering.controller.js:910-911 | at most the number of summaries |
| ClusterSummaries.RecommendationsProperties | server/controllers/clustering.controller.js:884-918 | between one and four recommendations, so the cut to five drops none; the first follows the overall sentiment; the focus is the first, largest, segment |
| LegacyClustering.Validate | server/controllers/clusteringController.js:8-30 | a missing query or one JavaScript `trim` empties is rejected first; clusters outside [2, 10] next, with 5 when absent; nothing else |
| LegacyClustering.CheckSource | server/controllers/clusteringController.js:55-60 | a fresh fetch with no posts is a 404; stored results are never rejected |
| LegacyClustering.KeywordDensity | server/controllers/clusteringController.js:553-558 | 0 for empty content, otherwise in (0, 1] |
| LegacyClustering.Density | server/controllers/clusteringController.js:556-557 | in (0, 1], and exactly 1 when no word repeats |
| LegacyClustering.KeywordDensityOne | server/controllers/clusteringController.js:553-558 | for non-empty content the density is 1 exactly when no word repeats |
| LegacyClustering.TemporalFeature | server/controllers/clusteringController.js:560-564 | 0 for a missing timestamp, otherwise hour + 24·day in [0, 168) |
| LegacyClustering.TemporalFeatureDecodes | server/controllers/clusteringController.js:560-564 | hour and weekday are recovered from the feature |
| LegacyClustering.FeatureValues | server/controllers/clusteringController.js:417-443 | at most six values |
| LegacyClustering.FeatureValuesInOrder | server/controllers/clusteringController.js:417-446 | the values of the selected recognised names, in the fixed order sentiment, engagement, length, keywordDensity, temporal, userScore, whatever the selection's order |
| LegacyClustering.FirstFeatures | server/controllers/clusteringController.js:421-427 | the sentiment and engagement values come first when selected |
| LegacyClustering.LastFeatures | server/controllers/clusteringController.js:429-443 | the remaining values follow in order |
| LegacyClustering.PrepareFeatures | server/controllers/clusteringController.js:417-451 | one prepared item per input item |
| LegacyClustering.PreparedPosition | server/controllers/clusteringController.js:445-449 | x is the sentiment and y the engagement when selected, 0 otherwise; the default selection gives exactly (x, y) |
| LegacyClustering.PaletteColor | server/controllers/clusteringController.js:478-496 | one of the seven palette entries |
| LegacyClustering.PaletteRepeats | server/controllers/clusteringController.js:478 | labels 5 and 6 repeat the colours of 0 and 1 |
| LegacyClustering.ProcessResults | server/controllers/clusteringController.js:477-498 | one point per item, with id its index, cluster its label and colour palette[label mod 7] |
| LegacyClustering.DescribeRegions | server/controllers/clusteringController.js:581-587 | each of the five labels is given exactly on its region of the ±0.3 sentiment and 50 engagement thresholds |
| LegacyClustering.PointContents | server/controllers/clusteringController.js:567 | one content string per point |
| LegacyClustering.ExtractClusterKeywords | server/controllers/clusteringController.js:566-579 | the counting loop, sort and slice compute the keywords |
| LegacyClustering.EntryCounted | server/controllers/clusteringController.js:568-573 | each entry is a counted word with its number of occurrences |
| LegacyClustering.TopEntriesCounted | server/controllers/clusteringController.js:575-578 | each kept entry is a counted word with its count |
| LegacyClustering.KeywordsRanked | server/controllers/clusteringController.js:566-579 | at most ten distinct keywords, each a word longer than 3 UTF-16 code units, in non-increasing count order |
| LegacyClustering.EntriesDistinct | server/controllers/clusteringController.js:575 | no word has two entries |
| LegacyClustering.KeywordsLeftOut | server/controllers/clusteringController.js:575-578 | a counted word left out occurs no more often than any keyword |
| LegacyClustering.Members | server/controllers/clusteringController.js:508 | only points of the input |
| LegacyClustering.MembersExact | server/controllers/clusteringController.js:508 | the members are exactly the points labelled with the id |
| LegacyClustering.AverageWithin | server/controllers/clusteringController.js:512-513 | the average of a non-empty cluster lies within its values' range |
| LegacyClustering.Ids | server/controllers/clusteringController.js:507 | the ids 0 .. n-1 in order |
| LegacyClustering.Summaries | server/controllers/clusteringController.js:503-533 | at most numClusters summaries |
| LegacyClustering.GenerateClusterSummaries | server/controllers/clusteringController.js:503-533 | the loop with its `continue` computes the summaries |
| LegacyClustering.SummaryLoopStep | server/controllers/clusteringController.js:507-530 | a pass pushes cluster i's summary exactly when it has points |
| LegacyClustering.SummarySkipped | server/controllers/clusteringController.js:510 | an empty cluster adds nothing |
| LegacyClustering.SummaryPushed | server/controllers/clusteringController.js:521-530 | a non-empty cluster adds its summary |
| LegacyClustering.BuildSummary | server/controllers/clusteringController.js:512-530 | the loop body computes the summary |
| LegacyClustering.SummariesShape | server/controllers/clusteringController.js:503-533 | strictly increasing ids below numClusters, each of a non-empty cluster, named "Cluster i+1", coloured by id, of size at least 1 |
| LegacyClustering.SummariesComplete | server/controllers/clusteringController.js:507-510 | every label below numClusters carried by a point has its summary |
| LegacyClustering.LabelledAll | server/controllers/clusteringController.js:507-530 | all points are labelled below k when every label is |
| LegacyClustering.CountAllNone | server/controllers/clusteringController.js:507-530 | no points give no members |
| LegacyClustering.CountAllStep | server/controllers/clusteringController.js:507-530 | one more point adds one to its own cluster only |
| LegacyClustering.CountAllLabelled | server/controllers/clusteringController.js:507-530 | the member counts of the clusters below k add up to the number of points labelled below k |
| LegacyClustering.SummarySizes | server/controllers/clusteringController.js:507-530 | the summaries of clusters below m add up to their members |
| LegacyClustering.SummarySizeStep | server/controllers/clusteringController.js:507-530 | a pass adds its cluster's size, 0 when skipped |
| LegacyClustering.SummariesPartition | server/controllers/clusteringController.js:503-533 | with every label below numClusters, the sizes add up to the number of points |
| LegacyClustering.RespondProperties | server/controllers/clusteringController.js:6-140 | a failed request check is the answer whatever the fetch gives, and the fetch check comes next; a response's points are the processed items, its summaries the per-cluster summaries of those points and its features the requested or default ones, with every item a point, at most the requested number of clusters and, with labels in range, sizes adding up to the points |
| PostTimeline.BandOf | client/src/components/PostTimeline.jsx:7-9 | the score lies in the band returned and in no other |
| PostTimeline.BandPostsMembers | client/src/components/PostTimeline.jsx:7-9 | a post passes a band's filter exactly when it is one of the posts and its score lies in the band |
| PostTimeline.FilterSpec | client/src/components/PostTimeline.jsx:6-11 | each band button keeps exactly its band's posts; any other filter keeps all; the result keeps the original order |
| PostTimeline.BandSizes | client/src/components/PostTimeline.jsx:7-9 | the band sizes of the first n posts add up to n |
| PostTimeline.BandsPartition | client/src/components/PostTimeline.jsx:7-9 | the three bands split the posts |
| PostTimeline.SentimentLabel | client/src/components/PostTimeline.jsx:15-19 | Positive, Negative or Neutral exactly on the filter's bands, with their colour and emoji |
| PostTimeline.Timeline | client/src/components/PostTimeline.jsx:6-19 | nothing exactly for missing or empty details, else one row per filtered post |
| PostTimeline.TimelineLabels | client/src/components/PostTimeline.jsx:6-19 | under a band filter every row is one of the posts and carries that band's label |
| SentimentBreakdown.Breakdown | client/src/components/SentimentBreakdown.jsx:7-22 | nothing exactly for missing or empty details; otherwise Positive, Negative, Neutral slices, each the size of the timeline's band, adding up to the number of posts |
| SentimentDisplay.SentimentColor | client/src/utils/sentimentDisplayUtils.jsx:3-8 | green iff the score is at least 0.6, yellow iff in [0.33, 0.6), red iff below 0.33 |
| SentimentDisplay.SentimentBg | client/src/utils/sentimentDisplayUtils.jsx:10-15 | each of the four backgrounds exactly on its band |
| SentimentDisplay.DataStatusText | client/src/utils/sentimentDisplayUtils.jsx:31-39 | "Complete" iff both a score and posts, "Partial" iff exactly one, "No Data" iff neither |
| SentimentDisplay.StatusIconMatchesText | client/src/utils/sentimentDisplayUtils.jsx:18-39 | the check, alert and cross icons go with "Complete", "Partial" and "No Data" |
| SentimentDisplay.ModelIcon | client/src/utils/sentimentDisplayUtils.jsx:41-48 | each known engine gets its glyph, and anything else the settings glyph |
| SentimentDisplay.PlatformIcon | client/src/utils/sentimentDisplayUtils.jsx:50-57 | each known platform gets its lettered badge, and anything else the globe |
| SavedAnalysis.LexTotal | client/src/pages/DasboardNestedPages/SavedAnalysis.jsx:102 | the string order is total |
| SavedAnalysis.LexTransitive | client/src/pages/DasboardNestedPages/SavedAnalysis.jsx:102 | the string order is transitive |
| SavedAnalysis.OrderIsPreorder | client/src/pages/DasboardNestedPages/SavedAnalysis.jsx:91-105 | each sort menu entry's comparator is a total preorder |
| SavedAnalysis.MatchingMembers | client/src/pages/DasboardNestedPages/SavedAnalysis.jsx:86-90 | a search matches exactly when it is stored and passes the query, platform and model tests |
| SavedAnalysis.FilteredSearchesSpec | client/src/pages/DasboardNestedPages/SavedAnalysis.jsx:86-105 | a reordering of the matching searches, which keep their stored order; sorted newest first, by score, by post count or by query; unsorted for any other key |
| SavedAnalysis.ToggleCardFlip | client/src/pages/DasboardNestedPages/SavedAnalysis.jsx:121-131 | the card's membership switches and every other card stays |
| SavedAnalysis.ToggleTwice | client/src/pages/DasboardNestedPages/SavedAnalysis.jsx:121-131 | flipping the same card twice restores the set |
| SavedAnalysis.WithoutSpec | client/src/pages/DasboardNestedPages/SavedAnalysis.jsx:51 | a delete removes exactly the entries with that id and keeps the rest in order; an unknown id changes nothing |
| SavedAnalysis.LocalSentimentColor | client/src/pages/DasboardNestedPages/SavedAnalysis.jsx:107-112 | the page's copy agrees with the shared helper |
| SavedAnalysis.LocalSentimentBg | client/src/pages/DasboardNestedPages/SavedAnalysis.jsx:114-119 | the page's copy agrees with the shared helper |
| SavedAnalysis.LocalDataStatusIcon | client/src/pages/DasboardNestedPages/SavedAnalysis.jsx:133-144 | the page's copy agrees with the shared helper |
| SavedAnalysis.LocalDataStatusText | client/src/pages/DasboardNestedPages/SavedAnalysis.jsx:146-154 | the page's copy agrees with the shared helper |
| SavedAnalysis.LocalModelIcon | client/src/pages/DasboardNestedPages/SavedAnalysis.jsx:156-163 | the page's copy agrees with the shared helper |
| SavedAnalysis.LocalPlatformIcon | client/src/pages/DasboardNestedPages/SavedAnalysis.jsx:165-172 | the page's copy agrees with the shared helper |
| WordCount.RemoveStopwords | client/src/components/TopKeywords.jsx:15 | every stop word is removed and every other word keeps its number of occurrences |
| WordCount.Eligible | client/src/components/TopKeywords.jsx:18 | only words of the input, in order |
| WordCount.EligibleMembers | client/src/components/TopKeywords.jsx:18 | exactly the words passing the length guard are kept |
| WordCount.EligibleCount | client/src/components/TopKeywords.jsx:18-20 | a word passing the length guard is counted as often as it occurs, any other word never |
| WordCount.EntriesComplete | client/src/components/WordCloudChart.jsx:27 | every word seen has exactly one entry, whose count is its number of occurrences |
| WordCount.AddWords | client/src/components/TopKeywords.jsx:17-21 | the tally counts every word passing the length guard |
| WordCount.TallyItems | client/src/components/TopKeywords.jsx:8-22 | the nested loops leave a tally of exactly the collected words |
| WordCount.CollectedWords | client/src/components/TopKeywords.jsx:17-21 | every collected word passes the length guard and is built from its post's characters |
| WordCount.TopByCountProperties | client/src/components/TopKeywords.jsx:24-26 | the sort and slice keep at most n entries, in non-increasing count order, taken from the table |
| Sorting.SortByStable | client/src/components/TopKeywords.jsx:24-26 | the sort is stable: the elements the comparator cannot order apart from any given one come out in their input order |
| WordCount.TopByCountTies | client/src/components/TopKeywords.jsx:24-26 | of the entries tied with any given count, the ones the slice keeps are the first ones in table order |
| WordCount.TopEntries | client/src/components/TopKeywords.jsx:24-27 | min(n, distinct words) entries, distinct, with exact counts of at least 1, non-increasing; no word left out outnumbers one kept; among words of equal count, those seen first are kept |
| TopKeywords.KeywordData | client/src/components/TopKeywords.jsx:4-30 | the counting loops, sort and slice compute the keywords, with 15 as the default topN |
| TopKeywords.PostWordsChars | client/src/components/TopKeywords.jsx:9-12 | every word is lower-case and made of word characters and '#' |
| TopKeywords.KeywordsSpec | client/src/components/TopKeywords.jsx:4-32 | at most topN keywords, distinct, non-increasing, with exact counts, longer than two UTF-16 code units, lower-case; none left out outnumbers one shown; for positive topN, empty exactly when nothing is counted |
| TopKeywords.UndescribedIgnored | client/src/components/TopKeywords.jsx:9-12 | posts without a description change no count |
| WordCloud.CloudWords | client/src/components/WordCloudChart.jsx:8-28 | the counting loops compute the cloud's entries |
| WordCloud.PostWordsChars | client/src/components/WordCloudChart.jsx:12-16 | every word is made of lower-case letters, digits, '#', apostrophes and '-' |
| WordCloud.CloudSpec | client/src/components/WordCloudChart.jsx:8-30 | one entry per distinct counted word, with its exact count; every word longer than two characters and made of the kept characters; empty exactly when nothing is counted |
| WordCloud.UndescribedIgnored | client/src/components/WordCloudChart.jsx:12-16 | posts without a description change no count |
| TopicSharePie.ProcessData | client/src/components/TopicSharePie.jsx:12-35 | the counting loops, sort and slice compute the ten topics |
| TopicSharePie.TopicShares | client/src/components/TopicSharePie.jsx:11-38 | each pie is computed from its own query's details, empty when absent |
| TopicSharePie.PostWordsChars | client/src/components/TopicSharePie.jsx:16-22 | every word is made of the letters a-z |
| TopicSharePie.TopicsSpec | client/src/components/TopicSharePie.jsx:12-35 | at most ten topics, distinct, non-increasing, exact counts, longer than two UTF-16 code units, letters a-z; none left out outnumbers one shown |
| ComparisonChart.CombinedSpec | client/src/components/ComparisonLineChart.jsx:14-18 | one row per point of the first series, with keys name, label1 and label2; the first series' value, and the second's or null past its end; an equal label keeps the second value |
| AuthSlice.LogoutIdempotent | client/src/store/authSlice.js:16-19 | logout returns to the initial state, and a second logout changes nothing |
| AuthSlice.LoginThenLogout | client/src/store/authSlice.js:12-19 | login then logout leaves the initial state |
| AuthSlice.RehydrateKeeps | client/src/store/authSlice.js:22-24 | the slice's own `persist/REHYDRATE` case only logs: the slice reducer leaves the state as it is |
| AuthSlice.RunFromInitial | client/src/store/authSlice.js:3-24 | signed in exactly when the last login or logout was a login, holding its payload; otherwise the initial state |
| AuthSlice.AuthStore.constructor | client/src/store/authSlice.js:3-6 | the store starts signed out with no user data |
| AuthSlice.AuthStore.Login | client/src/store/authSlice.js:12-15 | the store's new state is the reducer's login state |
| AuthSlice.AuthStore.Logout | client/src/store/authSlice.js:16-19 | the store's new state is the reducer's logout state |
| AuthSlice.AuthStore.Rehydrate | client/src/store/authSlice.js:22-24 | the slice reducer's REHYDRATE case leaves the store's state unchanged |
| ResetPassword.FormErrorsSpec | client/src/components/ResetPassword.jsx:46-63 | a password error iff its JavaScript length (UTF-16 code units) is below six ("required" iff empty); a confirmation error iff empty or different ("please confirm" iff empty); valid iff at least six code units and confirmed |
| ResetPassword.SurrogatePairsCountTwice | client/src/components/ResetPassword.jsx:51-52 | a password of three emoji above U+FFFF is long enough, while "abc" is not |
| ResetPassword.IndicatorsAgainstValidation | client/src/components/ResetPassword.jsx:300-308 | the length indicator lights exactly when validation accepts the password; the uppercase and digit indicators are advice only |
| ResetPassword.ResetPasswordForm.constructor | client/src/components/ResetPassword.jsx:17-29 | empty fields, no errors, not loading, no success, no error message |
| ResetPassword.ResetPasswordForm.ValidateForm | client/src/components/ResetPassword.jsx:46-63 | records the fields' errors, with the length measured in UTF-16 code units, and reports valid exactly when there are none |
| ResetPassword.ResetPasswordForm.HandleInputChange | client/src/components/ResetPassword.jsx:65-71 | sets the one field, blanks its error when it shows one, and leaves the other fields and errors alone |
| ResetPassword.ResetPasswordForm.Submit | client/src/components/ResetPassword.jsx:73-80 | validates; on failure nothing else changes, on success the error is cleared and loading starts |
| ResetPassword.ResetPasswordForm.Completed | client/src/components/ResetPassword.jsx:82-85 | success, no longer loading |

## Left out

- I/O and plumbing are left out: Flask and Express routing, MongoDB reads and writes, axios calls, `setup_environment`, logging, React rendering and animation, navigation, fetching and re-running searches, and the simulated token check and timers of the reset form.
- The TextBlob, VADER and Hugging Face engines, PRAW and the GNews HTTP call are foreign code. They are function-valued parameters; only their documented ranges are assumed, and only where a lemma says so.
- SentimentService.Normalize: `round(..., 2)` and every `toFixed` are left out, so scores, averages and percentages are exact reals.
- The lazily loaded `_sentiment_pipeline` global is caching; the model only distinguishes a pipeline that loads from one that raises.
- Dates are given as functions: `datetime.fromtimestamp`, the dateutil parser, `datetime.now`, `new Date(...)`, `getHours` and `getDay`. History dates are compared as millisecond integers.
- Math.random is a parameter: the engagement base, the user score and the older controller's random labels.
- `initializeCentroidsKMeansPlusPlus` is left out: k-means starts from given centroids. Its catch fallback is left out too.
- Gaussian-mixture and spectral clustering are floating-point numerics and are left out: the similarity matrix, Laplacian and power iteration.
- The silhouette value itself is left out; only its clamps are modelled. So are the older controller's random metrics.
- `generateInsights` is left out because its texts are presentation only. The error-path `catch` blocks of the clustering routines are left out too.
- Vectors.SqDist: `Math.sqrt` is left out because distances are only compared; `(val || 0)` for NaN coordinates is not modelled.
- Hierarchical.PerformHierarchical requires k ≥ 1, which the route's 2..10 check guarantees.
- KMeans.PerformKMeans requires at least one point and k initial centroids, as the route's data-size check guarantees.
- Dbscan.PerformDBSCAN: the seed-expansion branch after the `!== -1` test never runs, so it is not modelled. A cluster is its seed and the seed's unlabelled direct neighbours.
- ClusterSummaries: empty-cluster averages are `0`, with no division.
- SavedAnalysis.FilteredSearchesSpec: `localeCompare` is replaced by code-point order on strings.
- SavedAnalysis.FilteredSearchesSpec: a missing sentiment score is ranked as 0. The source's comparator gives NaN there, and the resulting order is engine-dependent.
- Text.Lower: lower-casing covers ASCII letters only; other letters are left as they are.
- WordCount.RemoveStopwords: the `stopword` package is a stop-word set parameter whose members are dropped; its built-in English list is not reproduced.
- WordCount.TallyItems: keys that collide with JavaScript object prototype members are not modelled, nor is the order `Object.entries` gives integer-like keys. The tally keeps first-seen order.
- LegacyClustering.ExtractClusterKeywords: the tally is WordCount's, so the same keys are not modelled: "constructor" (longer than three code units) makes `wordCount[word] || 0` read Object's function, and an integer-like word such as "2024" is listed by `Object.entries` before all others, which can decide ties at the tenth place.
- ClusterSummaries.ExtractClusterKeywords: the same holds for its tally: prototype-colliding words and the order of integer-like keys are not modelled.
- TopKeywords.KeywordData: topN is a natural number; a negative `topN` given to `slice` is not modelled.
- ComparisonChart.CombinedSpec: `parseFloat` is a parameter, and NaN is not modelled. `data2[i]` is tested as present, not as truthy.
- TopicSharePie.ProcessData: requires every post to carry a description, since the component reads `.toLowerCase()` unguarded and otherwise throws.
- SentimentService.Score: the TextBlob and VADER engines are total functions, so an exception from either is not modelled; in the route it would make the whole request answer 500. Only the Hugging Face pipeline's failure, with its fallbacks, is modelled.
- AuthSlice: redux-persist's restoring of the stored state on `persist/REHYDRATE` (client/src/store/store.js) wraps the slice reducer and is not modelled; after a reload the store holds the persisted login. RunFromInitial describes the slice reducer alone.
- SentimentService.DateFor: `datetime.fromtimestamp` is a total function, so an out-of-range Reddit timestamp, which raises and makes the request answer 500, is not modelled.
- SentimentService.Validate: the request body's fields are strings. A field holding a number or another JSON value is not modelled: `"platform": 1` would be answered "Invalid platform", and a numeric `search` would be passed to the connector.
- An invalid JSON body to the sentiment route answers 500, not 400, because `get_json` raises inside the `try`; the model follows that.
- LegacyClustering.RespondProperties: `featuresData` does not influence the response, because the older controller's labels are random.
- ResetPassword.ResetPasswordForm.Submit: React's batched, asynchronous state updates are modelled as immediate field assignments.

## Findings

| source | as written | input that shows it | evidently intended | confidence | as-written member | corrected member |
|---|---|---|---|---|---|---|
| server/controllers/clustering.controller.js:175 | a point's colour is `clusterSummaries[label].color`, but the summaries were sorted by size at line 624, so position `label` holds another cluster's summary | three points labelled [1, 1, 0]: cluster 1 is larger and sorts first, so the point of cluster 0 is drawn in cluster 1's colour | each point drawn in the colour of the summary whose `id` is its label | not executed | ClusterSummaries.ColorAtPositionMismatch | ClusterSummaries.ColorOfClusterCorrect |
