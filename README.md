# American Dynamism tracker — a verified model of its core

The tracker scores six policy and economic categories from news:

- defense;
- manufacturing reshoring;
- energy;
- workforce;
- technology policy;
- supply chain resilience.

It has two halves.

**The server side.** Every cycle it fetches eight RSS feeds. It admits each new article link once per process and keeps the twenty newest articles per category. It then drains a scoring queue. A language model scores each article in [-5, 5], and a keyword heuristic stands in when the call fails. The category score is 50 plus ten times the mean of the ten most recent scored articles, clamped to [0, 100].

**The admin side.** An admin panel reads a statistics recorder of feed, article and processing counters. It is guarded by password login with 24-hour sessions. A milestone refresher asks the model for new milestones once every milestone is completed. The storage layer turns database rows into the dashboard payload, the news buckets and the category details.

**The browser side.** The browser components merge, filter and sort the news, count milestones by status, and label scores.

This project models that core in Dafny, one module per source file:

| module | file | models |
|---|---|---|
| `RssService` | rss_service.dfy | server/rssService.ts, stateful part: the `Article` class, and the `RssService` class with its dedup set, caches, queue and `isProcessing` flag |
| `RssPipeline` | rss_pipeline.dfy | server/rssService.ts, value part: admission, article construction, the effect of scoring, the category score |
| `KeywordScoring` | rss_keywords.dfy | server/rssService.ts `generateBasicScore` |
| `AdminStats` | admin_stats.dfy | server/adminStats.ts, the `AdminStatsTracker` class |
| `AdminAuth` | admin_auth.dfy | server/adminAuth.ts, the `AdminAuthenticator` class over the session map |
| `MilestoneService` | milestone_service.dfy | server/milestoneService.ts |
| `Storage` | storage.dfy | server/storage.ts: the row-to-response mappings, and the seeding guard |
| `NewsSection` | news_section.dfy | client/src/components/NewsSection.tsx |
| `MilestoneSummary` | milestone_summary.dfy | client/src/components/MilestoneSummary.tsx |
| `NewsCard` | news_card.dfy | client/src/components/NewsCard.tsx |
| `CategoryCard` | category_card.dfy | client/src/components/CategoryCard.tsx |
| `AdminPage` | admin_page.dfy | client/src/pages/admin.tsx: `formatUptime` and the feed Active badge |
| `Common`, `Schema` | common.dfy, schema.dfy | JavaScript semantics the code relies on, and the shared shapes |

The JavaScript semantics in `Common` are:

- `||` on strings and numbers;
- `Math.max(lo, Math.min(hi, x))`;
- `%`, which truncates;
- `slice`;
- `includes`;
- `replace` of the first occurrence;
- `String(n)`.

The shared shapes in `Schema` are the category enumeration, `RSSArticle`, `NewsResponse` and `ADIndexData`.

**Parameters instead of the outside world.** The network, the model calls, the database and the clock all become parameters:

- a fetch is a `FeedOutcome` per url;
- a scoring call is an `AiOutcome`, looked up by article link;
- a database query result is a sequence of rows;
- time is an integer `now`.

**State.** Where the source updates state in place, the model is a class with `modifies` clauses. This covers:

- the service's set, caches and queue;
- the shared article objects that scoring mutates;
- the statistics recorder;
- the session map.

Where the source only computes, the model is a function, and what it means is proved as lemmas.

## Model

| member | source | states |
|---|---|---|
| RssPipeline.Admit | server/rssService.ts:111-129 | Admission never yields more items than the feed had |
| RssPipeline.AdmitStep | server/rssService.ts:112-126 | One item at a time: an item with no link, or with a link already seen, changes nothing; any other item is admitted and its link is seen from then on |
| RssPipeline.AdmitFresh | server/rssService.ts:112-114 | Every admitted item has a non-empty link, that link was not seen before the fetch, and the item comes from the feed |
| RssPipeline.AdmitDistinct | server/rssService.ts:112-126 | No link is admitted twice, even when a feed repeats it |
| RssPipeline.AdmitSeen | server/rssService.ts:126 | The seen set afterwards is the old set plus the admitted links, which are exactly the non-empty links of the examined items |
| RssPipeline.AdmitSpec | server/rssService.ts:111-129 | The whole admission contract together: the admitted items are fresh, non-empty, distinct and from the feed, and the seen set grows by exactly their links |
| RssPipeline.LinkInItemLinks | server/rssService.ts:126 | Every item's link is in the link set of its items |
| RssPipeline.LinkIndex | server/rssService.ts:126 | A link in the link set is the link of some item |
| RssPipeline.NoEmptyPresentLink | server/rssService.ts:112 | The empty link never enters the seen set |
| RssPipeline.ArticleFor | server/rssService.ts:116-123 | A new article keeps the item's link and its category's key. Its title is never empty ("Untitled" fallback). Its date is the item's, or the fetch time when there is none. It has a description, and it is unscored and unprocessed |
| RssPipeline.ArticlesFor | server/rssService.ts:111-125 | One article per admitted item |
| RssPipeline.ArticlesForAppend | server/rssService.ts:125 | Articles are built item by item, in feed order |
| RssPipeline.Scored | server/rssService.ts:177-251 | Without a client the article is unchanged. With one, it ends processed, with a score in [-5, 5] and a summary. Title, link, date, description and category never change |
| RssPipeline.AiScoreClamped | server/rssService.ts:232-234 | A reply's score is kept when it is within [-5, 5] and pinned to the nearer bound otherwise; a reply without a score scores 0 |
| RssPipeline.FailureUsesKeywords | server/rssService.ts:238-250 | A failed call scores the article with the keyword heuristic on its own title and description; the fallback summary is non-empty whenever the title is |
| RssPipeline.ScoredOnly | server/rssService.ts:269-270 | The filter keeps exactly the processed articles with a score: every kept one is scored and comes from the cache, and every scored article of the cache is kept |
| RssPipeline.CategoryScore | server/rssService.ts:265-287 | A category score is always within [0, 100] |
| RssPipeline.SumScoresBounds | server/rssService.ts:278-279 | n scores within [-5, 5] sum to within [-5n, 5n] |
| RssPipeline.SumScoresAllMax | server/rssService.ts:278-279 | n scores of +5 sum to 5n |
| RssPipeline.ScoredOnlyAppend | server/rssService.ts:269-270 | The filter distributes over concatenation of the cache |
| RssPipeline.NothingScoredGivesZero | server/rssService.ts:273-276 | A category with no scored article scores 0, not the neutral 50 |
| RssPipeline.ScoresInRangeNeedNoClamp | server/rssService.ts:282-283 | With scores in [-5, 5] the clamp never bites: the score is exactly 50 plus ten times the mean |
| RssPipeline.MeanWithinBounds | server/rssService.ts:282 | A sum of n values in [-5, 5] has a mean in [-5, 5] |
| RssPipeline.MeanOfEqualScores | server/rssService.ts:282 | n scores of +5 have mean +5 |
| RssPipeline.AllMaxScoresGiveHundred | server/rssService.ts:281-283 | When the cache holds a scored article and every scored article is +5, the category scores 100 |
| RssPipeline.OnlyTenMostRecentCount | server/rssService.ts:269-271 | Once ten scored articles precede them, older cached articles never change the score |
| RssPipeline.PendingArticlesIgnored | server/rssService.ts:270 | An article still waiting to be scored never affects the score |
| KeywordScoring.Hits | server/rssService.ts:329-336 | A list contributes at most one hit per keyword |
| KeywordScoring.BasicScore | server/rssService.ts:323-339 | The heuristic score is within [-5, 5], and 0 for a category without keyword lists |
| KeywordScoring.CountHits | server/rssService.ts:329-331 | The forEach pass counts exactly the keywords of the list that occur in the text |
| KeywordScoring.GenerateBasicScore | server/rssService.ts:290-340 | The method computes the heuristic score of the lower-cased title, a space and the lower-cased description |
| KeywordScoring.HitsCountsDistinctKeywords | server/rssService.ts:329-336 | With a duplicate-free list, the hit count is the number of distinct keywords found, however often each occurs |
| KeywordScoring.DefenseKeywordsDistinct | server/rssService.ts:297-300 | The defense keyword lists hold no duplicate |
| KeywordScoring.ManufacturingKeywordsDistinct | server/rssService.ts:301-304 | The manufacturing keyword lists hold no duplicate |
| KeywordScoring.EnergyKeywordsDistinct | server/rssService.ts:305-308 | The energy keyword lists hold no duplicate |
| KeywordScoring.WorkforceKeywordsDistinct | server/rssService.ts:309-312 | The workforce keyword lists hold no duplicate |
| KeywordScoring.TechPolicyKeywordsDistinct | server/rssService.ts:313-316 | The technology policy keyword lists hold no duplicate |
| KeywordScoring.SupplyChainKeywordsDistinct | server/rssService.ts:317-320 | The supply chain keyword lists hold no duplicate |
| KeywordScoring.KeywordTablesDistinct | server/rssService.ts:296-324 | No keyword list of any category holds a duplicate |
| KeywordScoring.BasicScoreCountsDistinct | server/rssService.ts:323-339 | For every category with keywords, the score is the number of distinct positive keywords found minus the number of distinct negative keywords found, clamped to [-5, 5]; a keyword repeated in the text counts once |
| KeywordScoring.DefenseExample | server/rssService.ts:290-339 | "Major contract awarded for defense modernization" scores 3 in defense: "contract", "award" (inside "awarded") and "modernization" are found, and no negative keyword is |
| KeywordScoring.KeywordInsideWord | server/rssService.ts:330 | Keywords match as substrings, so a keyword inside a longer word counts |
| RssService.Article.constructor | server/rssService.ts:116-123 | A new article is the value its item builds, of its category, unscored |
| RssService.LinksOf | server/rssService.ts:126 | The links of some articles, position by position |
| RssService.Views | server/rssService.ts:255-262 | What the endpoints hand out is each article as it now is |
| RssService.Createds | server/rssService.ts:116-125 | One built value per article |
| RssService.CreatedsAppend | server/rssService.ts:125 | Building articles one by one appends their values |
| RssService.LinkSetAppend | server/rssService.ts:126 | The links of two article lists together are the union of their links |
| RssService.LinkInLinkSet | server/rssService.ts:126 | Each article's link is in the link set of its list |
| RssService.BuiltArticlesLinks | server/rssService.ts:116-126 | Articles built from some items carry the items' links, in order |
| RssService.AppendFreshLinks | server/rssService.ts:112-129 | Appending articles whose links are distinct and unseen keeps every enqueued link distinct |
| RssService.EnqueueKeepsLinksDistinct | server/rssService.ts:111-129 | A fetch keeps two facts: each link is enqueued at most once per process, and the seen set is exactly the set of enqueued links |
| RssService.AdmitTurn | server/rssService.ts:112-129 | One turn of the admission loop advances admission by one item and builds a fresh, pending article for each admitted item |
| RssService.NewArticles | server/rssService.ts:111-130 | The loop creates fresh, pending articles of the fetch's category, exactly the articles of the admitted items, and marks their links seen |
| RssService.CacheOkAfterEnqueue | server/rssService.ts:129 | Enqueuing more articles keeps every cached article an enqueued one |
| RssService.CacheOkAfterStore | server/rssService.ts:133-136 | Prepending a category's new articles and cutting to twenty keeps every cache at most twenty articles long, each of its own category |
| RssService.QueueAfterEnqueue | server/rssService.ts:129 | The queue after a push is the old queue followed by the new articles |
| RssService.EnqueueKeepsState | server/rssService.ts:111-136 | A fetch preserves the service invariant: bounded caches, the queue as the undrained tail of every enqueued article, and distinct seen links |
| RssService.Replies | server/rssService.ts:156-160 | One scoring reply per queued article |
| RssService.CountAfterScoring | server/rssService.ts:177-251 | Scoring one article never touches the fetched, processed or failed counters |
| RssService.AiReplies | server/rssService.ts:237 | The number of AI replies never exceeds the number of replies |
| RssService.CountsAfterQueueSpec | server/rssService.ts:147-175 | Draining n articles adds n to the processed count. With a client it also adds n to the scored count: the AI replies go to the AI counter and the rest to the keyword counter. The fetched and failed counters never move |
| RssService.QuotaSeenIff | server/rssService.ts:242-244 | After a drain the quota flag is raised exactly when some failed call of that drain mentioned "quota" |
| RssService.DrainStep | server/rssService.ts:156-169 | One more article of the queue changes the counters by exactly one scoring and one processed article |
| RssService.DistinctObjects | server/rssService.ts:129 | Articles with distinct links are distinct objects, so no article is scored twice |
| RssService.KnowsOneMore | server/rssService.ts:72-76 | Registering the next configured url, and forgetting none, extends the prefix of urls known to the recorder |
| RssService.RssService.constructor | server/rssService.ts:33-66 | The service starts with no links seen, six empty caches, an empty queue and the flag down |
| RssService.RssService.AdmitItems | server/rssService.ts:111-130 | Exactly the admitted items become new articles, in feed order. Their links join the seen set, and the articles are appended to the queue. The caches are untouched |
| RssService.RssService.Enqueue | server/rssService.ts:126-129 | Marking the new links seen and pushing the articles keeps the service invariant |
| RssService.RssService.StoreItems | server/rssService.ts:109-140 | On a parsed feed the first ten items are admitted. The new articles go in front of their category's cache, cut to twenty. The feed's success is recorded with the number of new articles, and that number is added to the fetched count |
| RssService.RssService.FetchFeed | server/rssService.ts:99-145 | fetchFeed. A fetch or parse error is recorded against the url and changes nothing else. A feed without items changes nothing at all. A parsed feed is stored as above. No other category's cache changes |
| RssService.RssService.ScoreArticle | server/rssService.ts:177-252 | The shared article object takes the scored value, and the counters move by one scoring. The quota flag is raised when a failed call mentions quota. Nothing happens without a client |
| RssService.RssService.ScoreTurn | server/rssService.ts:157-169 | One turn of the drain loop scores the next article and records it as processed |
| RssService.RssService.DrainedOneMore | server/rssService.ts:156-170 | Scoring the next article, and no other, extends the drained prefix by one |
| RssService.RssService.Dequeue | server/rssService.ts:157 | `shift` takes the oldest queued article off the queue |
| RssService.RssService.DrainQueue | server/rssService.ts:156-170 | The loop empties the queue and scores each queued article with its own reply. Every article counts as processed, and the counters and quota flag move as the replies dictate |
| RssService.RssService.StartRun | server/rssService.ts:152-154 | A run raises the flag and records the start and the queue length |
| RssService.RssService.FinishRun | server/rssService.ts:172-173 | A run lowers the flag and records the duration in the window |
| RssService.RssService.ProcessQueue | server/rssService.ts:152-174 | A run that was not already in progress ends with the queue empty and the flag down. Every article is processed, and one duration is recorded |
| RssService.RssService.StartAndDrain | server/rssService.ts:152-170 | Raising the flag and draining scores every queued article and leaves the queue empty |
| RssService.RssService.QueueDistinct | server/rssService.ts:129 | Under the service invariant the queue never holds the same article twice |
| RssService.RssService.ProcessArticleQueue | server/rssService.ts:147-175 | A run already in progress makes the call a no-op that leaves every article unscored. Otherwise the queue is drained, the flag is lowered, and the counters move by the replies |
| RssService.RssService.AttemptFeed | server/rssService.ts:73-80 | Each configured url is registered before it is fetched, and whatever the fetch does the url stays known |
| RssService.RssService.FetchFeeds | server/rssService.ts:70-82 | After the feed loop every configured url has a statistics entry, even if its fetch failed. No seen link is lost, and the processing state is raised |
| RssService.RssService.FinishCycle | server/rssService.ts:84-86 | The queue is drained only after every url was tried, and the cycle ends with processing at (false, 0). Two entries enter the duration window, one when the queue run ends and one at the end of the cycle, because clearing the processing state never resets its start time. Each entry is the finish time minus the start time last recorded, which is `finish - now` under the cycle's single clock |
| RssService.RssService.FetchAndParseFeeds | server/rssService.ts:68-86 | One cycle: every configured url is tried, the queue ends empty, and the processing state ends at (false, 0) |
| RssService.RssService.GetCategoryScores | server/rssService.ts:265-287 | Every one of the six categories gets the score of its current cache, which is within [0, 100]. The call changes nothing |
| RssService.RssService.GetArticles | server/rssService.ts:255-257 | Each bucket is that category's cache as its articles now are |
| RssService.RssService.GetCategoryArticles | server/rssService.ts:260-262 | One category's cache as its articles now are |
| AdminStats.IndexOf | server/adminStats.ts:74 | Finds the entry of a url exactly when there is one |
| AdminStats.SumCountsUpdate | server/adminStats.ts:91 | Changing one entry changes the sum of a per-feed counter by that entry's difference |
| AdminStats.SumCountsAppend | server/adminStats.ts:75-81 | A new entry adds its counter to the sum |
| AdminStats.PushWindow | server/adminStats.ts:144-148 | The duration window never holds more than ten entries |
| AdminStats.PushWindowShape | server/adminStats.ts:144-148 | A push appends the newest duration, dropping the oldest when the window is full |
| AdminStats.PushWindowKeepsNewest | server/adminStats.ts:144-148 | The window is always the last ten durations recorded |
| AdminStats.RegisterFeedKeepsConsistent | server/adminStats.ts:73-84 | recordFeedAttempt adds a zeroed entry and counts it only for an unknown url, so totalFeeds stays the number of entries. The success and failure totals do not move |
| AdminStats.RegisterFeedKeepsKnown | server/adminStats.ts:73-84 | Registering a url forgets no url already known |
| AdminStats.FeedSucceededKeepsConsistent | server/adminStats.ts:86-95 | A success on a known url bumps successfulFeeds by one, and does nothing for an unknown url, so successfulFeeds stays the sum of the per-feed success counts |
| AdminStats.FeedFailedKeepsConsistent | server/adminStats.ts:97-104 | An error on a known url bumps failedFeeds by one, and does nothing for an unknown url, so failedFeeds stays the sum of the per-feed error counts |
| AdminStats.SameUrlsKeepIndex | server/adminStats.ts:87-100 | Updating an entry in place keeps the same set of known urls |
| AdminStats.AdminStatsTracker.constructor | server/adminStats.ts:45-70 | Every counter starts at zero with no feeds, the quota flag down, and the start time as uptime |
| AdminStats.AdminStatsTracker.RecordFeedAttempt | server/adminStats.ts:73-84 | Registers an unknown url and keeps the recorder consistent |
| AdminStats.AdminStatsTracker.RecordFeedSuccess | server/adminStats.ts:86-95 | Stamps and counts a success for a known url only |
| AdminStats.AdminStatsTracker.RecordFeedError | server/adminStats.ts:97-104 | Keeps the message and counts an error for a known url only |
| AdminStats.AdminStatsTracker.RecordArticleFetched | server/adminStats.ts:107-109 | Adds the count to totalFetched and nothing else |
| AdminStats.AdminStatsTracker.RecordArticleProcessed | server/adminStats.ts:111-113 | Adds one to totalProcessed and nothing else |
| AdminStats.AdminStatsTracker.RecordScoringSuccess | server/adminStats.ts:115-122 | Counts one scoring under exactly one method, so the scored total stays AI plus keyword |
| AdminStats.AdminStatsTracker.RecordScoringFailure | server/adminStats.ts:124-126 | Adds one to failedScoring and nothing else |
| AdminStats.AdminStatsTracker.RecordOpenAIQuotaExceeded | server/adminStats.ts:128-130 | Raises the quota flag, which only a reset lowers |
| AdminStats.AdminStatsTracker.SetProcessingState | server/adminStats.ts:133-152 | Stores the flag and the queue length. Starting records the start time. Stopping with a recorded, non-zero start pushes the duration into the ten-entry window and stamps the time; stopping without one records nothing |
| AdminStats.AdminStatsTracker.GetStats | server/adminStats.ts:155-164 | The report is the stored statistics with uptime as the time since start, and nothing is modified |
| AdminStats.AdminStatsTracker.ResetStats | server/adminStats.ts:167-194 | Zeroes every counter and forgets the feeds, the window and the quota flag, but keeps the uptime start |
| AdminAuth.Unexpired | server/adminAuth.ts:38-49 | The sessions that survive cleanup are exactly the unexpired ones, unchanged |
| AdminAuth.ExtractTokenCases | server/adminAuth.ts:87 | A bearer header yields its token. An empty bearer token, or a missing header, falls back to the cookie |
| AdminAuth.AdminAuthenticator.constructor | server/adminAuth.ts:5-9 | The password is the configured one, or "admin123" when it is unset or empty; there are no sessions |
| AdminAuth.AdminAuthenticator.GenerateAdminToken | server/adminAuth.ts:11-19 | Opens a session under the token, created and last accessed now |
| AdminAuth.AdminAuthenticator.ValidateAdminToken | server/adminAuth.ts:21-36 | An unknown token is invalid and changes nothing. An expired one is deleted and invalid. Otherwise the token is valid and only its last access moves |
| AdminAuth.AdminAuthenticator.CollectExpired | server/adminAuth.ts:40-46 | The first pass collects exactly the tokens of the expired sessions |
| AdminAuth.AdminAuthenticator.CleanupExpiredSessions | server/adminAuth.ts:38-49 | Deletes exactly the expired sessions and leaves the rest as they were |
| AdminAuth.AdminAuthenticator.AuthenticateAdmin | server/adminAuth.ts:51-56 | The right password opens a fresh session and returns its token; a wrong one returns nothing and changes nothing |
| AdminAuth.AdminAuthenticator.RequireAdminAuth | server/adminAuth.ts:84-94 | The request passes exactly when the extracted token names a live session. Without a token nothing changes; with one, an unknown token changes nothing, an expired session is deleted and a live one has its last access set to now |
| AdminAuth.ValidationKeepsCreation | server/adminAuth.ts:28-35 | Validating never moves a session's creation time, so access never extends its lifetime |
| AdminAuth.ExpiryIsPermanent | server/adminAuth.ts:28 | An expired session stays expired at every later time |
| AdminAuth.ExpiryBoundary | server/adminAuth.ts:6 | A session is still valid at exactly 24 hours, and expired one millisecond later |
| AdminAuth.CleanupIdempotent | server/adminAuth.ts:38-49 | Cleaning up twice is cleaning up once |
| MilestoneService.CategoryKeysAreTheSix | server/milestoneService.ts:54 | The inspected keys are the six category keys, in order |
| MilestoneService.Flags | server/milestoneService.ts:62-63 | The completion flag of each milestone, in order |
| MilestoneService.Loosen | server/milestoneService.ts:57 | The typed payload seen by key: every listed key and no other |
| MilestoneService.AreAllMilestonesCompleted | server/milestoneService.ts:51-70 | False without category details. Otherwise true exactly when no milestone under the six keys is incomplete. Missing categories and categories without an array are skipped |
| MilestoneService.NoMilestonesMeansCompleted | server/milestoneService.ts:56-69 | With no milestones anywhere the check holds vacuously |
| MilestoneService.OnlySixKeysInspected | server/milestoneService.ts:54-57 | Entries under any key other than the six never change the outcome |
| MilestoneService.LoosenAt | server/milestoneService.ts:57 | With distinct keys, each key reads back its own category's milestones |
| MilestoneService.TypedPayloadCompleted | server/milestoneService.ts:51-70 | For a typed payload with one entry per key, the check holds exactly when every milestone of each of the six categories is completed |
| MilestoneService.DashboardPayloadCompleted | server/milestoneService.ts:51-70 | For the object getADIndexData builds from any category and milestone rows, the check holds exactly when every milestone listed under one of the six keys is completed |
| MilestoneService.ValidateReply | server/milestoneService.ts:127-132 | A reply is accepted exactly when each of the six keys holds an array, and it is returned unchanged |
| MilestoneService.GenerateNewMilestones | server/milestoneService.ts:110-138 | The result is the parsed reply when it is well shaped, and null on a failed call, an empty reply or a bad shape |
| MilestoneService.CheckAndUpdateMilestones | server/milestoneService.ts:21-49 | False with no work without a client. The model is asked only when the payload was read and every milestone is completed. It answers true only when an accepted reply was written; any error answers false |
| MilestoneService.ForceUpdateMilestones | server/milestoneService.ts:142-161 | Skips the completion test. A missing client throws, and so do a failed read and a failed write; an unusable reply answers false |
| Storage.InitializeDefaultData | server/storage.ts:23-186 | The six categories, six milestones and one index row are inserted only into an empty category table |
| Storage.InitializeIdempotent | server/storage.ts:27-29 | A second seeding inserts nothing, whatever its clock |
| Storage.SeededCategoriesAreTheSix | server/storage.ts:32-165 | A fresh seeding gives one category row per category key in order, and one milestone per category |
| Storage.DefaultRowOf | server/storage.ts:32-165 | The i-th seeded category and milestone belong to the i-th category |
| Storage.TruthyText | server/storage.ts:347 | Null and the empty string both read as undefined; any other text is kept |
| Storage.TruthyScore | server/storage.ts:349 | Null and 0 both read as undefined; any other score is kept |
| Storage.ZeroScoreReadsAsUnscored | server/storage.ts:349 | A stored score of 0 is handed out exactly like a missing one |
| Storage.Bucket | server/storage.ts:342-357 | A bucket never holds more articles than there are rows |
| Storage.BucketMembers | server/storage.ts:354-356 | A bucket holds exactly the articles of the rows with its key |
| Storage.GetNews | server/storage.ts:325-360 | Throws exactly when some row's category is a name every object inherits (`constructor`, `toString`, …), which passes the `in` test but has no `push`. Otherwise each of the six buckets receives exactly its rows' articles, in query order |
| Storage.FileRowStep | server/storage.ts:342-356 | Filing one more row extends the bucket its category names by that row's article, and leaves the others as they were |
| Storage.UnknownCategoryDropped | server/storage.ts:354 | A row whose category is none of the six keys adds nothing to any bucket (an inherited name makes getNews throw first, as GetNews states) |
| Storage.GetCategoryNews | server/storage.ts:370-379 | One article per row, in order |
| Storage.CategoryNewsMatchesBucket | server/storage.ts:362-379 | The category endpoint returns the same articles as the news endpoint's bucket for the same rows |
| Storage.MilestonesFor | server/storage.ts:210-222 | A category lists no more milestones than the table holds |
| Storage.MilestonesForAppend | server/storage.ts:210-211 | Filtering distributes over concatenation of the table |
| Storage.MilestonesForMembers | server/storage.ts:210-222 | Each category's list is exactly the milestone rows with its key |
| Storage.DetailsFor | server/storage.ts:224-234 | A category's details carry its own milestones, and keyMetrics falls back to [] |
| Storage.AssignLookup | server/storage.ts:224 | After an assignment the key reads the new value and every other key reads what it did |
| Storage.AssignKeySet | server/storage.ts:224 | An assignment adds its key to the object's keys and no other |
| Storage.AssignKeepsKeysUnique | server/storage.ts:224 | An assignment never makes a key occur twice |
| Storage.KeysUniquePairwise | server/storage.ts:224 | Unique keys differ position by position |
| Storage.LastRowWith | server/storage.ts:209-224 | The row found has the key and no later row has it; None exactly when no row has the key |
| Storage.CategoryObjectLookup | server/storage.ts:207-235 | Each key of the built object holds the details of the last row with that key; a key no row has is absent |
| Storage.BuildCategoryDetails | server/storage.ts:207-235 | The for-of loop builds that object |
| Storage.CategoryObjectKeysDistinct | server/storage.ts:207-235 | The built object has each category row's key exactly once, even when rows repeat a key |
| Storage.NewsItemOf | server/storage.ts:245-252 | impact_score is the stored score, or 0 when it is missing |
| Storage.DatePart | server/storage.ts:267 | The date label is a prefix of the timestamp with no "T" in it, ending either at the end of the timestamp or just before a "T": the part before the first "T" |
| Storage.DayLabelsDistinct | server/storage.ts:265 | Day labels are distinct, and each reads back as its 1-based position |
| Storage.TrendData | server/storage.ts:264-268 | One trend point per score row, labelled D1..Dn in query order, with the row's score and, as date, DatePart of the row's timestamp |
| Storage.GetADIndexData | server/storage.ts:188-284 | Without a score row it throws. Otherwise it returns the latest index and scores, the category object the loop builds, one news item per recent row, and the trend |
| Storage.FirstRowWith | server/storage.ts:287-293 | The row found has the key and no earlier row has it; None exactly when no row has the key |
| Storage.GetCategoryDetails | server/storage.ts:286-323 | Null exactly when no category row has the key; otherwise the details carry the key's milestone rows |
| Storage.FirstIsLast | server/storage.ts:287-291 | With unique keys, the first and the last row with a key are the same row |
| Storage.FirstIsLastTail | server/storage.ts:287-291 | A key held only by the last row is found there first |
| Storage.CategoryDetailsMatchDashboard | server/storage.ts:286-323 | For unique keys, a category's details are the entry the dashboard lists under that key |
| Storage.NewRow | server/storage.ts:457-468 | An inserted milestone belongs to the category, and is completed only when the new milestone says so |
| Storage.WithoutCategory | server/storage.ts:454 | Deletion keeps exactly the rows of the other categories |
| Storage.ReplaceMilestones | server/storage.ts:452-471 | The table afterwards holds the other categories' rows plus one row per new milestone |
| Storage.WithoutCategoryMilestones | server/storage.ts:454 | Deleting a category's rows leaves it no milestones and leaves every other category's list as it was |
| Storage.NewRowsMilestones | server/storage.ts:457-470 | The inserted rows are listed under their category in the order given, and under no other |
| Storage.ReplaceMilestonesEffect | server/storage.ts:452-471 | After a replacement the category lists exactly the new milestones in order, and every other category is unchanged |
| NewsSection.FromBucket | client/src/components/NewsSection.tsx:61-65 | A bucket contributes only scored articles, relabelled with its key, and nothing when a filter names another bucket |
| NewsSection.FromBucketKeeps | client/src/components/NewsSection.tsx:62-65 | Every scored article of an admitted bucket is kept, relabelled |
| NewsSection.CollectFrom | client/src/components/NewsSection.tsx:60-66 | The merged articles are scored, carry a category key, and carry the filtered key when there is a filter |
| NewsSection.Insert | client/src/components/NewsSection.tsx:67 | Inserting adds the article and loses none |
| NewsSection.InsertSorted | client/src/components/NewsSection.tsx:67 | Inserting into a newest-first list keeps it newest first |
| NewsSection.InsertAtTime | client/src/components/NewsSection.tsx:67 | An inserted article goes in front of every article with its own time |
| NewsSection.SortStable | client/src/components/NewsSection.tsx:67 | The sort is newest first, and keeps articles of equal time in their original order |
| NewsSection.SortPermutes | client/src/components/NewsSection.tsx:67 | The sort is a permutation |
| NewsSection.PrefixOfSorted | client/src/components/NewsSection.tsx:68 | A prefix of a newest-first list is newest first, and holds every article newer than one of its own |
| NewsSection.PrefixSubMultiset | client/src/components/NewsSection.tsx:68 | A prefix holds nothing the list does not |
| NewsSection.AllArticlesSelects | client/src/components/NewsSection.tsx:10-68 | The list is as long as `slice(0, maxItems)` makes it: maxItems articles, or all of them when fewer were merged, and for a negative maxItems all but the last -maxItems. Each is scored, of a known bucket, and of the filtered bucket when there is a filter. All are drawn from the merged articles |
| NewsSection.DefaultListsFive | client/src/components/NewsSection.tsx:10-68 | Without props the section lists the five newest scored articles of all buckets, or all of them when fewer exist, newest first |
| NewsSection.AllArticlesNewest | client/src/components/NewsSection.tsx:67-68 | The list is newest first, and no merged article newer than a listed one is left out |
| NewsSection.CollectKeeps | client/src/components/NewsSection.tsx:60-66 | Every scored article of the filtered buckets is a candidate for the list |
| NewsSection.GetImpactIcon | client/src/components/NewsSection.tsx:70-74 | Up for positive scores, down for negative ones, flat for zero |
| NewsSection.ImpactIconBySign | client/src/components/NewsSection.tsx:70-74 | The icon depends on the sign alone |
| NewsSection.ImpactColorBands | client/src/components/NewsSection.tsx:76-82 | Two scores share a colour exactly when they fall in the same one of five bands (> 2, > 0, < -2, < 0, 0) |
| MilestoneSummary.AllMilestonesMembers | client/src/components/MilestoneSummary.tsx:15 | The flattening holds exactly the milestones of the categories |
| MilestoneSummary.AllMilestonesLength | client/src/components/MilestoneSummary.tsx:15-16 | The total is the sum of the categories' milestone counts |
| MilestoneSummary.Count | client/src/components/MilestoneSummary.tsx:17-19 | A count is at most the total, and positive exactly when some milestone qualifies |
| MilestoneSummary.CountAppend | client/src/components/MilestoneSummary.tsx:15-19 | Counting splits over concatenation |
| MilestoneSummary.StatusPartition | client/src/components/MilestoneSummary.tsx:17-19 | The three status counts plus the milestones of any other status make up the total |
| MilestoneSummary.SummarySpec | client/src/components/MilestoneSummary.tsx:10-32 | Nothing without data. The total counts every milestone. For the four-status enumeration, on-track plus at-risk plus behind is the total. The upcoming count is zero exactly when no milestone falls in the next six months. Attention is needed exactly when some milestone is at risk or behind |
| MilestoneSummary.SummaryAddsCategory | client/src/components/MilestoneSummary.tsx:15-19 | Adding a category adds its own counts |
| NewsCard.ImpactLevelOf | client/src/components/NewsCard.tsx:41-43 | High from a magnitude of 4, Medium from 2, Low below |
| NewsCard.ImpactLevelSymmetricMonotone | client/src/components/NewsCard.tsx:41-43 | The level ignores the sign and never drops as the magnitude grows |
| NewsCard.BadgeText | client/src/components/NewsCard.tsx:75 | The badge is never empty |
| NewsCard.BadgeTextFaithful | client/src/components/NewsCard.tsx:75 | The badge starts with "+" exactly for positive scores and with "-" exactly for negative ones, and different scores get different badges |
| NewsCard.SentimentOf | client/src/components/NewsCard.tsx:40 | Positive and negative exactly by the sign |
| NewsCard.StyleForInjective | client/src/components/NewsCard.tsx:48-77 | The three sentiments look different |
| NewsCard.StylingBySign | client/src/components/NewsCard.tsx:48-77 | Icon, border, badge and level text depend on the sign of the score alone |
| NewsCard.CategoryFallbacks | client/src/components/NewsCard.tsx:13-46 | Each category key gets its own colour, none of them grey; any other string is labelled as itself, in grey |
| CategoryCard.IconFor | client/src/components/CategoryCard.tsx:57 | An unknown icon name falls back to Shield |
| CategoryCard.PaletteFor | client/src/components/CategoryCard.tsx:58 | An unknown colour falls back to the blue palette |
| CategoryCard.DashboardCardsUseOwnEntries | client/src/pages/dashboard.tsx:66-115 | Every icon and colour name the dashboard passes to its six cards is a key of the card's tables, so no card falls back, and no two cards share an icon or a palette |
| CategoryCard.PerformanceOf | client/src/components/CategoryCard.tsx:92 | Excellent from 80, Good from 60, Moderate from 40, Needs Attention below; each score gets exactly one label |
| CategoryCard.PerformanceMonotone | client/src/components/CategoryCard.tsx:92 | A higher score never gets a worse label |
| AdminPage.UptimeMeaning | client/src/pages/admin.tsx:272-281 | For a non-negative duration: a day or more shows whole days and the hours past them; an hour or more shows hours and minutes; anything shorter shows minutes and seconds. The second number is always below its unit's bound |
| AdminPage.RenderInjective | client/src/pages/admin.tsx:278-280 | The rendered text loses nothing: equal texts show the same numbers in the same units |
| AdminPage.FormatUptimeSameText | client/src/pages/admin.tsx:272-281 | Two durations read the same exactly when they agree in the units shown |
| AdminPage.ActiveAfterRecording | client/src/pages/admin.tsx:499 | A feed shows Active once a success is recorded for it, and an error never changes which feeds do |
| Common.Clamp | server/rssService.ts:232 | `Math.max(lo, Math.min(hi, x))` stays within the bounds, and is x when x already is |
| Common.ClampReal | server/rssService.ts:283 | The same clamp on exact reals |
| Common.OrElse | server/rssService.ts:117-120 | `a \|\| b` on strings is b exactly when a is empty |
| Common.ContainsIffOccurs | server/rssService.ts:330 | `includes` holds exactly when the keyword occurs at some position |
| Common.ToLower | server/rssService.ts:291-292 | Lower-casing keeps the length and maps each character |
| Common.FirstIndex | server/storage.ts:267 | A found index is an occurrence with none before it; None exactly when the pattern occurs nowhere |
| Common.StripLeadingPattern | server/adminAuth.ts:87 | Removing a leading "Bearer " leaves exactly the rest, even when the rest contains it again |
| Common.JsRem | client/src/pages/admin.tsx:278-280 | JavaScript `%` agrees with the mathematical remainder on non-negative operands, and keeps the dividend's sign otherwise |
| Common.IntToString | client/src/components/NewsCard.tsx:75 | A number's text is never empty, and starts with "-" exactly when it is negative |
| Common.NatToStringRoundTrip | server/storage.ts:265 | A number's decimal text reads back as the same number |
| Common.NumberThenText | client/src/pages/admin.tsx:278-280 | A number followed by a unit that is not a digit can be split back apart |
| Common.Take | server/rssService.ts:136 | `slice(0, n)` is the first n elements, or all of them |
| Common.JsSliceTo | client/src/components/NewsSection.tsx:68 | `slice(0, end)` is a prefix: end elements for a non-negative end, and all but -end elements for a negative one |
| Schema.ParseCategory | server/storage.ts:354-355 | A string names one of the response's own buckets only when it is that bucket's key |
| Schema.KeyRoundTrip | server/rssService.ts:33-40 | Every category's key names it back |
| Schema.ParseIffKey | server/storage.ts:354-355 | A string names one of the response's own buckets exactly when it is one of the six keys; the inherited names `in` also accepts are handled by Storage.GetNews |

## Left out

- Feed fetching and XML parsing, the language-model calls with their prompts and `JSON.parse`, and the database queries are not modelled. Their results are parameters: `FeedOutcome`, `AiOutcome`, `ChatOutcome` and sequences of rows. A row query's order and limit (newest first, 20, 50 or 100 rows) is therefore the caller's to respect.
- Time is a parameter. A cycle runs at one instant `now`: every "no date" fallback in a fetch uses the same `nowIso`, and the per-article `setProcessingState(true, …)` restarts of the start time all record that same instant. The 1-second delay between scoring calls, the 15-minute cron schedule and the hourly session cleanup timer are left out.
- Overlapping cycles and interleaving at `await` points are left out: cycles run one after another, and `isProcessing` is kept as the flag it is.
- `RssService.RssService.FetchAndParseFeeds`: the milestone check the cycle makes at its end (server/rssService.ts:88-96) is not chained into the method; it is modelled on its own as `MilestoneService.CheckAndUpdateMilestones`, whose outcome cannot affect the service's state.
- The catch branch of processArticleQueue (`recordScoringFailure`) and the catch around `fetchFeed` in fetchAndParseFeeds are not modelled, because they cannot be reached: scoreArticle and fetchFeed catch every error themselves.
- `RssService.RssService.ProcessQueue`: its contract states the queue, flag, counter and window effects; the per-article scoring effect is stated on `StartAndDrain` and `DrainQueue`, which it calls.
- `RssService.RssService.AdmitItems`: its contract does not restate that the new articles are unscored; `NewArticles`, which builds them, states it.
- `RssService.RssService.FetchFeeds` and `RssService.RssService.FetchAndParseFeeds`: they state the registration of every url, the growth of the seen set, the queue and the processing state, but not the per-url cache and counter effects, which are stated per fetch on `FetchFeed`.
- Scores are whole numbers: a model reply's `impact_score` is taken as an integer. A fractional or non-numeric reply, and IEEE arithmetic in the mean, are not modelled; the category score uses exact reals.
- `averageProcessingTime`, MilestoneSummary's `avgProgress` (which divides by zero without milestones), `formatBytes`, `toLocaleString` of dates and the CategoryCard progress bar width (`${score}%` of a floating score) are floating-point formatting, and are left out.
- FinishCycle: the two recorded durations are modelled under the single clock of a cycle. In the source each is the time since the last per-article `setProcessingState(true, …)` (server/rssService.ts:169), or since the start of the queue run when the queue is empty, not the length of the run; the model stamps every such restart with the cycle's `now`.
- FetchAndParseFeeds: the same holds for the durations its contract states.
- IconFor: the lookup treats a name every object inherits (`constructor`, `toString`, …) as unknown and falls back to Shield; in the source `iconMap[name]` yields the inherited member instead. The dashboard only ever passes the six table keys (see `CategoryCard.DashboardCardsUseOwnEntries`).
- PaletteFor: the same holds for `colorMap[name]`, which yields the inherited member rather than the blue palette for such a name.
- CategoryFallbacks: the same holds for `categoryLabels[category]` and `categoryColors[category]`, which yield inherited members rather than the category itself and grey for such a name.
- Lower-casing is ASCII only; Unicode case mapping is not modelled. Keyword matching is substring matching, as in the source (see `KeywordScoring.KeywordInsideWord`).
- Date parsing is abstract: MilestoneSummary's `new Date(targetDate)` is a parameter returning no value for an unparsable date, and NewsSection's `new Date(pubDate).getTime()` is a parameter to integer times (NaN comparisons are not modelled).
- Random session tokens are parameters, assumed fresh, and `process.memoryUsage` in getStats is left out.
- The Vercel branch of requireAdminAuth refers to declarations that do not exist (`activeSessions`, `VercelRequest`) and is left out.
- `storage.updateMilestones`, which the milestone service calls, does not exist in server/storage.ts; the write is a parameter `WriteOutcome`. `replaceMilestones` is modelled on its own.
- `Object.entries` order of the caches and the news response is the category order the objects declare; feedStats keeps its urls in insertion order.
- React rendering, the Express routes and the serverless handlers are thin wrappers and are left out.
