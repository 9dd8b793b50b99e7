/** The stateful feed service (server/rssService.ts): the process-wide set
    of links already admitted, the per-category article caches, and the
    scoring queue drained under the `isProcessing` flag. Articles are
    objects: the one pushed onto the queue is the one placed in the cache,
    so scoring updates the cached article in place.

    Fetching, the model calls and the clock are parameters: each fetch
    comes with its FeedOutcome, each scoring call's reply is looked up by
    the article's link, and `now`/`nowIso` give the time of the cycle. */
module RssService {
  import opened Common
  import opened Schema
  import opened AdminStats
  import opened KeywordScoring
  import opened RssPipeline

  /** An article built from a feed item (`RSSArticle`). Only the scoring
      fields change after creation. */
  class Article {
    const title: string
    const link: string
    const pubDate: string
    const description: string
    const category: Category
    var impactScore: Option<int>
    var aiSummary: Option<string>
    var processed: bool

    constructor (item: FeedItem, category: Category, nowIso: string)
      ensures Created() == ArticleFor(item, category, nowIso)
      ensures this.category == category && Pending()
    {
      title := OrElse(item.title, "Untitled");
      link := item.link;
      pubDate := OrElse(item.pubDate, nowIso);
      description := OrElse(item.contentSnippet, OrElse(item.content, ""));
      this.category := category;
      impactScore := None;
      aiSummary := None;
      processed := false;
    }

    /** The article as it was built, before any scoring. */
    function Created(): RssArticle {
      RssArticle(title, link, pubDate, Some(description), category.Key(), None, None, false)
    }

    /** Not scored yet. */
    predicate Pending()
      reads this
    {
      impactScore.None? && aiSummary.None? && !processed
    }

    /** The article as the news endpoints hand it out. */
    function View(): RssArticle
      reads this
    {
      Created().(impactScore := impactScore, aiSummary := aiSummary, processed := processed)
    }
  }

  /** The links of some articles, in order. */
  function LinksOf(articles: seq<Article>): (r: seq<string>)
    ensures |r| == |articles|
    ensures forall i :: 0 <= i < |articles| ==> r[i] == articles[i].link
  {
    seq(|articles|, i requires 0 <= i < |articles| => articles[i].link)
  }

  /** The links of some articles, as a set. */
  function LinkSet(articles: seq<Article>): set<string>
    decreases |articles|
  {
    if articles == [] then {} else LinkSet(articles[..|articles| - 1]) + {articles[|articles| - 1].link}
  }

  /** The current view of each article of a list. */
  function Views(articles: seq<Article>): (r: seq<RssArticle>)
    reads articles
    ensures |r| == |articles|
    ensures forall i :: 0 <= i < |articles| ==> r[i] == articles[i].View()
  {
    seq(|articles|, i requires 0 <= i < |articles| reads articles => articles[i].View())
  }

  /** The articles of a list as they were built. */
  function Createds(articles: seq<Article>): (r: seq<RssArticle>)
    ensures |r| == |articles|
    decreases |articles|
  {
    if articles == [] then []
    else Createds(articles[..|articles| - 1]) + [articles[|articles| - 1].Created()]
  }

  /** Building articles one by one. */
  lemma CreatedsAppend(articles: seq<Article>, a: Article)
    ensures Createds(articles + [a]) == Createds(articles) + [a.Created()]
  {
    assert (articles + [a])[..|articles|] == articles;
  }

  /** The links of two lists of articles together. */
  lemma {:induction false} LinkSetAppend(xs: seq<Article>, ys: seq<Article>)
    ensures LinkSet(xs + ys) == LinkSet(xs) + LinkSet(ys)
    decreases |ys|
  {
    if ys == [] {
      assert xs + ys == xs;
    } else {
      var init := ys[..|ys| - 1];
      assert (xs + ys)[..|xs + ys| - 1] == xs + init;
      LinkSetAppend(xs, init);
    }
  }

  /** Each article's link is among the links of its list. */
  lemma {:induction false} LinkInLinkSet(xs: seq<Article>, i: nat)
    requires i < |xs|
    ensures xs[i].link in LinkSet(xs)
    decreases |xs|
  {
    if i < |xs| - 1 {
      LinkInLinkSet(xs[..|xs| - 1], i);
    }
  }

  /** Articles built from some items carry the items' links. */
  lemma {:induction false} BuiltArticlesLinks(added: seq<Article>, items: seq<FeedItem>, category: Category, nowIso: string)
    requires Createds(added) == ArticlesFor(items, category, nowIso)
    ensures |added| == |items|
    ensures forall i :: 0 <= i < |added| ==> added[i].link == items[i].link
    ensures LinkSet(added) == ItemLinks(items)
    decreases |items|
  {
    if items != [] {
      var n := |items| - 1;
      assert Createds(added)[n] == added[n].Created();
      assert ArticlesFor(items, category, nowIso)[n] == ArticleFor(items[n], category, nowIso);
      assert Createds(added)[..n] == Createds(added[..n]);
      assert ArticlesFor(items, category, nowIso)[..n] == ArticlesFor(items[..n], category, nowIso);
      BuiltArticlesLinks(added[..n], items[..n], category, nowIso);
    }
  }

  /** Appending articles whose links are distinct and new keeps the links of
      the whole list distinct. */
  lemma AppendFreshLinks(xs: seq<Article>, ys: seq<Article>)
    requires NoDuplicates(LinksOf(xs)) && NoDuplicates(LinksOf(ys))
    requires forall j :: 0 <= j < |ys| ==> ys[j].link !in LinkSet(xs)
    ensures NoDuplicates(LinksOf(xs + ys))
  {
    var zs := xs + ys;
    forall i, j | 0 <= i < j < |zs| ensures LinksOf(zs)[i] != LinksOf(zs)[j] {
      if j < |xs| {
        assert LinksOf(xs)[i] != LinksOf(xs)[j];
      } else if i < |xs| {
        LinkInLinkSet(xs, i);
      } else {
        assert LinksOf(ys)[i - |xs|] != LinksOf(ys)[j - |xs|];
      }
    }
  }

  /** Enqueuing the articles built from the admitted items keeps the links of
      everything ever enqueued distinct, and the seen links are then exactly
      those links, none of them empty. */
  lemma EnqueueKeepsLinksDistinct(enqueued: seq<Article>, seen: set<string>, added: seq<Article>,
                                  items: seq<FeedItem>, category: Category, nowIso: string)
    requires LinksOk(enqueued, seen)
    requires Createds(added) == ArticlesFor(Admit(items, seen).admitted, category, nowIso)
    ensures LinksOk(enqueued + added, Admit(items, seen).seen)
  {
    var admission := Admit(items, seen);
    AdmitSpec(items, seen);
    BuiltArticlesLinks(added, admission.admitted, category, nowIso);
    forall i, j | 0 <= i < j < |added| ensures LinksOf(added)[i] != LinksOf(added)[j] {
      assert admission.admitted[i].link != admission.admitted[j].link;
    }
    AppendFreshLinks(enqueued, added);
    LinkSetAppend(enqueued, added);
    NoEmptyPresentLink(items);
  }

  /** One turn of the admission loop: an item with a link not yet seen
      becomes a new pending article and its link is marked as seen; any
      other item changes nothing. */
  method AdmitTurn(item: FeedItem, category: Category, nowIso: string,
                   added: seq<Article>, seen: set<string>, ghost admitted: seq<FeedItem>)
    returns (added': seq<Article>, seen': set<string>, ghost admitted': seq<FeedItem>)
    requires Createds(added) == ArticlesFor(admitted, category, nowIso)
    ensures Admission(admitted', seen') ==
      if item.link == "" || item.link in seen then Admission(admitted, seen)
      else Admission(admitted + [item], seen + {item.link})
    ensures Createds(added') == ArticlesFor(admitted', category, nowIso)
    ensures forall a :: a in added' ==> a in added || (fresh(a) && a.category == category && a.Pending())
  {
    if item.link != "" && item.link !in seen {
      var article := new Article(item, category, nowIso);
      CreatedsAppend(added, article);
      ArticlesForAppend(admitted, item, category, nowIso);
      return added + [article], seen + {item.link}, admitted + [item];
    }
    return added, seen, admitted;
  }

  /** The articles a fetch creates: for each item admitted against the seen
      links, in feed order, a new article; also the seen links afterwards. */
  method NewArticles(items: seq<FeedItem>, seen: set<string>, category: Category, nowIso: string)
    returns (added: seq<Article>, seenAfter: set<string>)
    ensures var admission := Admit(items, seen);
      Createds(added) == ArticlesFor(admission.admitted, category, nowIso) && seenAfter == admission.seen
    ensures forall a :: a in added ==> fresh(a) && a.category == category && a.Pending()
  {
    ghost var admittedSoFar: seq<FeedItem> := [];
    added := [];
    seenAfter := seen;
    for i := 0 to |items|
      invariant Admit(items[..i], seen) == Admission(admittedSoFar, seenAfter)
      invariant Createds(added) == ArticlesFor(admittedSoFar, category, nowIso)
      invariant forall a :: a in added ==> fresh(a) && a.category == category && a.Pending()
    {
      AdmitStep(items, i, seen);
      added, seenAfter, admittedSoFar := AdmitTurn(items[i], category, nowIso, added, seenAfter, admittedSoFar);
    }
    assert items[..|items|] == items;
  }

  /** Every category has a cache of at most twenty articles, each of that
      category and each once enqueued. */
  ghost predicate CacheOk(cache: map<Category, seq<Article>>, enqueued: seq<Article>) {
    && (forall c: Category :: c in cache && |cache[c]| <= MaxCachedPerCategory)
    && (forall c: Category, a: Article :: c in cache && a in cache[c] ==> a.category == c && a in enqueued)
  }

  /** The links of the articles ever enqueued are distinct and non-empty, and
      they are exactly the links marked as seen. */
  ghost predicate LinksOk(enqueued: seq<Article>, seen: set<string>) {
    && NoDuplicates(LinksOf(enqueued))
    && seen == LinkSet(enqueued)
    && "" !in seen
  }

  /** Enqueuing more articles keeps every cached article an enqueued one. */
  lemma CacheOkAfterEnqueue(cache: map<Category, seq<Article>>, enqueued: seq<Article>, added: seq<Article>)
    requires CacheOk(cache, enqueued)
    ensures CacheOk(cache, enqueued + added)
  {
  }

  /** Putting enqueued articles of one category in front of its cache, cut
      to twenty, keeps the caches well formed. */
  lemma CacheOkAfterStore(cache: map<Category, seq<Article>>, enqueued: seq<Article>,
                          category: Category, added: seq<Article>)
    requires CacheOk(cache, enqueued)
    requires forall a :: a in added ==> a.category == category && a in enqueued
    ensures CacheOk(cache[category := Take(added + cache[category], MaxCachedPerCategory)], enqueued)
  {
    var stored := Take(added + cache[category], MaxCachedPerCategory);
    forall a | a in stored ensures a in added || a in cache[category] {
      assert a in added + cache[category];
    }
  }

  /** What is still queued after appending to the history. */
  lemma QueueAfterEnqueue(enqueued: seq<Article>, dequeued: nat, added: seq<Article>)
    requires dequeued <= |enqueued|
    ensures (enqueued + added)[dequeued..] == enqueued[dequeued..] + added
  {
  }

  /** Enqueuing the articles built from the admitted items keeps the
      service state well formed. */
  lemma EnqueueKeepsState(cache: map<Category, seq<Article>>, enqueued: seq<Article>, dequeued: nat,
                          queue: seq<Article>, seen: set<string>, added: seq<Article>,
                          items: seq<FeedItem>, category: Category, nowIso: string)
    requires CacheOk(cache, enqueued) && dequeued <= |enqueued| && queue == enqueued[dequeued..]
    requires LinksOk(enqueued, seen)
    requires Createds(added) == ArticlesFor(Admit(items, seen).admitted, category, nowIso)
    ensures CacheOk(cache, enqueued + added) && dequeued <= |enqueued + added|
    ensures queue + added == (enqueued + added)[dequeued..]
    ensures LinksOk(enqueued + added, Admit(items, seen).seen)
  {
    EnqueueKeepsLinksDistinct(enqueued, seen, added, items, category, nowIso);
    CacheOkAfterEnqueue(cache, enqueued, added);
    QueueAfterEnqueue(enqueued, dequeued, added);
  }

  /** The replies the scoring calls get for some articles, in order; a reply
      is looked up by the article's link. */
  function Replies(q: seq<Article>, ai: string -> AiOutcome): (r: seq<AiOutcome>)
    ensures |r| == |q|
    decreases |q|
  {
    if q == [] then [] else Replies(q[..|q| - 1], ai) + [ai(q[|q| - 1].link)]
  }

  /** The scoring counters after one scoreArticle call: nothing without a
      client; otherwise one more success, counted as an AI or a keyword one. */
  function CountAfterScoring(c: ArticleCounts, hasClient: bool, outcome: AiOutcome): (r: ArticleCounts)
    ensures r.totalFetched == c.totalFetched && r.totalProcessed == c.totalProcessed
    ensures r.failedScoring == c.failedScoring
  {
    if !hasClient then c
    else match outcome
      case AiResult(_, _) =>
        c.(successfullyScored := c.successfullyScored + 1, aiScoredCount := c.aiScoredCount + 1)
      case AiFailed(_) =>
        c.(successfullyScored := c.successfullyScored + 1, keywordScoredCount := c.keywordScoredCount + 1)
  }

  /** The counters after draining a queue whose scoring calls got these
      replies: each article is scored, then counted as processed. */
  function CountsAfterQueue(c: ArticleCounts, hasClient: bool, outcomes: seq<AiOutcome>): ArticleCounts
    decreases |outcomes|
  {
    if outcomes == [] then c
    else
      var before := CountsAfterQueue(c, hasClient, outcomes[..|outcomes| - 1]);
      var scored := CountAfterScoring(before, hasClient, outcomes[|outcomes| - 1]);
      scored.(totalProcessed := scored.totalProcessed + 1)
  }

  /** Whether some failed scoring call of a drained queue was a quota error. */
  predicate QuotaSeen(outcomes: seq<AiOutcome>)
    decreases |outcomes|
  {
    outcomes != [] && (QuotaSeen(outcomes[..|outcomes| - 1]) || QuotaError(outcomes[|outcomes| - 1]))
  }

  /** The replies of the AI kind among some replies. */
  function AiReplies(outcomes: seq<AiOutcome>): (n: nat)
    ensures n <= |outcomes|
    decreases |outcomes|
  {
    if outcomes == [] then 0
    else AiReplies(outcomes[..|outcomes| - 1]) + (if outcomes[|outcomes| - 1].AiResult? then 1 else 0)
  }

  /** Draining a queue counts every article as processed; with a client
      every one is also a success, an AI one exactly when its call got a
      reply, a keyword one otherwise; without a client no success is
      counted. Fetch and failure counters do not move. */
  lemma {:induction false} CountsAfterQueueSpec(c: ArticleCounts, hasClient: bool, outcomes: seq<AiOutcome>)
    ensures var r := CountsAfterQueue(c, hasClient, outcomes);
      && r.totalProcessed == c.totalProcessed + |outcomes|
      && r.totalFetched == c.totalFetched && r.failedScoring == c.failedScoring
      && r.successfullyScored == c.successfullyScored + (if hasClient then |outcomes| else 0)
      && r.aiScoredCount == c.aiScoredCount + (if hasClient then AiReplies(outcomes) else 0)
      && r.keywordScoredCount == c.keywordScoredCount + (if hasClient then |outcomes| - AiReplies(outcomes) else 0)
    decreases |outcomes|
  {
    if outcomes != [] {
      CountsAfterQueueSpec(c, hasClient, outcomes[..|outcomes| - 1]);
    }
  }

  /** A quota error anywhere in the queue raises the flag, and only then. */
  lemma {:induction false} QuotaSeenIff(outcomes: seq<AiOutcome>)
    ensures QuotaSeen(outcomes) <==> exists i :: 0 <= i < |outcomes| && QuotaError(outcomes[i])
    decreases |outcomes|
  {
    if outcomes != [] {
      var init := outcomes[..|outcomes| - 1];
      QuotaSeenIff(init);
      if QuotaSeen(init) {
        var i :| 0 <= i < |init| && QuotaError(init[i]);
        assert outcomes[i] == init[i];
      }
      if exists i :: 0 <= i < |outcomes| && QuotaError(outcomes[i]) {
        var i :| 0 <= i < |outcomes| && QuotaError(outcomes[i]);
        if i < |init| {
          assert init[i] == outcomes[i];
        }
      }
    }
  }

  /** The counters and the quota flag after one more article of a queue. */
  lemma DrainStep(c: ArticleCounts, hasClient: bool, q0: seq<Article>, done: nat, ai: string -> AiOutcome)
    requires done < |q0|
    ensures var before := Replies(q0[..done], ai);
      var after := Replies(q0[..done + 1], ai);
      var scored := CountAfterScoring(CountsAfterQueue(c, hasClient, before), hasClient, ai(q0[done].link));
      && CountsAfterQueue(c, hasClient, after) == scored.(totalProcessed := scored.totalProcessed + 1)
      && (QuotaSeen(after) <==> QuotaSeen(before) || QuotaError(ai(q0[done].link)))
  {
    assert q0[..done + 1][..done] == q0[..done];
    var after := Replies(q0[..done + 1], ai);
    assert after[..done] == Replies(q0[..done], ai);
  }

  /** Articles of a list whose links are distinct are distinct objects. */
  lemma DistinctObjects(articles: seq<Article>)
    requires NoDuplicates(LinksOf(articles))
    ensures NoDuplicates(articles)
  {
    forall i, j | 0 <= i < j < |articles| ensures articles[i] != articles[j] {
      assert LinksOf(articles)[i] != LinksOf(articles)[j];
    }
  }

  /** The first n configured urls are registered. */
  ghost predicate KnowsFirst(feeds: seq<FeedStat>, n: nat)
    requires n <= |FeedUrls|
  {
    forall k :: 0 <= k < n ==> IndexOf(feeds, FeedUrls[k].1).Some?
  }

  /** Registering the next url, and forgetting none, extends the prefix. */
  lemma KnowsOneMore(before: seq<FeedStat>, after: seq<FeedStat>, n: nat)
    requires n < |FeedUrls| && KnowsFirst(before, n)
    requires forall u :: IndexOf(before, u).Some? ==> IndexOf(after, u).Some?
    requires IndexOf(after, FeedUrls[n].1).Some?
    ensures KnowsFirst(after, n + 1)
  {
  }

  /** The statistics from which the drain loop starts. */
  datatype DrainStart = DrainStart(
    counts: ArticleCounts, system: SystemInfo, feeds: FeedTotals, times: seq<int>,
    lastProcessingTime: Option<int>)

  class RssService {
    /** Whether a model client was configured at start-up. */
    const hasClient: bool
    /** The process-wide statistics recorder. */
    const stats: AdminStatsTracker
    /** Every link ever admitted (`processedArticles`). */
    var processedArticles: set<string>
    /** The per-category caches (`articlesCache`), newest first. */
    var cache: map<Category, seq<Article>>
    /** Articles waiting to be scored, oldest first; each entry's category is
        its article's own. */
    var queue: seq<Article>
    var isProcessing: bool
    /** Every article ever enqueued, in order, and how many were dequeued. */
    ghost var enqueued: seq<Article>
    ghost var dequeued: nat

    ghost predicate Valid()
      reads this, stats
    {
      && stats.Valid()
      && CacheOk(cache, enqueued)
      && dequeued <= |enqueued|
      && queue == enqueued[dequeued..]
      && LinksOk(enqueued, processedArticles)
    }

    constructor (hasClient: bool, stats: AdminStatsTracker)
      requires stats.Valid()
      ensures Valid()
      ensures this.hasClient == hasClient && this.stats == stats
      ensures processedArticles == {} && queue == [] && !isProcessing
      ensures forall c: Category :: c in cache && cache[c] == []
    {
      this.hasClient := hasClient;
      this.stats := stats;
      processedArticles := {};
      cache := map[Defense := [], Manufacturing := [], Energy := [], Workforce := [],
                   TechPolicy := [], SupplyChain := []];
      queue := [];
      isProcessing := false;
      enqueued := [];
      dequeued := 0;
      new;
      forall c: Category ensures c in cache && cache[c] == [] {
        match c
        case Defense =>
        case Manufacturing =>
        case Energy =>
        case Workforce =>
        case TechPolicy =>
        case SupplyChain =>
      }
    }

    /** The admission loop of fetchFeed over the examined items: each item
        with a link not yet seen becomes a new article, its link is marked
        seen and the article is enqueued, in feed order. */
    method AdmitItems(items: seq<FeedItem>, category: Category, nowIso: string) returns (added: seq<Article>)
      requires Valid()
      modifies this
      ensures Valid()
      ensures var admission := Admit(items, old(processedArticles));
        && Createds(added) == ArticlesFor(admission.admitted, category, nowIso)
        && processedArticles == admission.seen
      ensures queue == old(queue) + added && enqueued == old(enqueued) + added
      ensures forall a :: a in added ==> fresh(a) && a.category == category
      ensures cache == old(cache) && dequeued == old(dequeued) && isProcessing == old(isProcessing)
    {
      var seen;
      added, seen := NewArticles(items, processedArticles, category, nowIso);
      Enqueue(added, seen, items, category, nowIso);
    }

    /** The new articles are enqueued and their links marked as seen. */
    method Enqueue(added: seq<Article>, seen: set<string>,
                   ghost items: seq<FeedItem>, ghost category: Category, ghost nowIso: string)
      requires Valid()
      requires Createds(added) == ArticlesFor(Admit(items, processedArticles).admitted, category, nowIso)
      requires seen == Admit(items, processedArticles).seen
      modifies this
      ensures Valid()
      ensures processedArticles == seen
      ensures queue == old(queue) + added && enqueued == old(enqueued) + added
      ensures cache == old(cache) && dequeued == old(dequeued) && isProcessing == old(isProcessing)
    {
      EnqueueKeepsState(cache, enqueued, dequeued, queue, processedArticles, added, items, category, nowIso);
      processedArticles, queue, enqueued := seen, queue + added, enqueued + added;
    }

    /** The success path of fetchFeed: the first ten items are examined
        (AdmitItems), the new articles go, in feed order, in front of the
        category's cache, which is cut to twenty, and the feed's success and
        the article count are recorded. */
    method StoreItems(url: string, category: Category, allItems: seq<FeedItem>, nowIso: string, now: int)
      returns (ghost added: seq<Article>)
      requires Valid()
      modifies this, stats
      ensures Valid()
      ensures var admission := Admit(Take(allItems, MaxItemsPerFetch), old(processedArticles));
        && Createds(added) == ArticlesFor(admission.admitted, category, nowIso)
        && processedArticles == admission.seen
      ensures queue == old(queue) + added && enqueued == old(enqueued) + added
      ensures forall a :: a in added ==> fresh(a) && a.category == category
      ensures cache == old(cache)[category := Take(added + old(cache[category]), MaxCachedPerCategory)]
      ensures dequeued == old(dequeued) && isProcessing == old(isProcessing)
      ensures stats.rssFeeds == FeedSucceeded(old(stats.rssFeeds), url, |added|, now)
      ensures stats.articles == old(stats.articles).(totalFetched := old(stats.articles.totalFetched) + |added|)
      ensures stats.processing == old(stats.processing) && stats.system == old(stats.system)
      ensures stats.processingStartTime == old(stats.processingStartTime)
      ensures stats.processingTimes == old(stats.processingTimes)
    {
      var admitted := AdmitItems(Take(allItems, MaxItemsPerFetch), category, nowIso);
      added := admitted;
      CacheOkAfterStore(cache, enqueued, category, admitted);
      cache := cache[category := Take(admitted + cache[category], MaxCachedPerCategory)];
      stats.RecordFeedSuccess(url, |admitted|, now);
      stats.RecordArticleFetched(|admitted|);
    }

    /** fetchFeed for one url of one category. A fetch or parse error is
        recorded against the url; a feed without items changes nothing; a
        parsed feed goes through StoreItems. */
    method FetchFeed(url: string, category: Category, outcome: FeedOutcome, nowIso: string, now: int)
      returns (ghost added: seq<Article>)
      requires Valid()
      modifies this, stats
      ensures Valid()
      ensures queue == old(queue) + added && enqueued == old(enqueued) + added
      ensures forall a :: a in added ==> fresh(a) && a.category == category
      ensures dequeued == old(dequeued) && isProcessing == old(isProcessing)
      ensures stats.processing == old(stats.processing) && stats.system == old(stats.system)
      ensures stats.processingStartTime == old(stats.processingStartTime)
      ensures stats.processingTimes == old(stats.processingTimes)
      ensures outcome.FetchFailed? ==> stats.rssFeeds == FeedFailed(old(stats.rssFeeds), url, outcome.message)
      ensures outcome == Parsed(None) ==> stats.rssFeeds == old(stats.rssFeeds)
      ensures !(outcome.Parsed? && outcome.items.Some?) ==>
        && added == [] && cache == old(cache) && processedArticles == old(processedArticles)
        && stats.articles == old(stats.articles)
      ensures outcome.Parsed? && outcome.items.Some? ==>
        var admission := Admit(Take(outcome.items.value, MaxItemsPerFetch), old(processedArticles));
        && Createds(added) == ArticlesFor(admission.admitted, category, nowIso)
        && processedArticles == admission.seen
        && cache == old(cache)[category := Take(added + old(cache[category]), MaxCachedPerCategory)]
        && stats.rssFeeds == FeedSucceeded(old(stats.rssFeeds), url, |added|, now)
        && stats.articles == old(stats.articles).(totalFetched := old(stats.articles.totalFetched) + |added|)
    {
      match outcome
      case FetchFailed(message) =>
        stats.RecordFeedError(url, message);
        added := [];
      case Parsed(None) =>
        added := [];
      case Parsed(Some(allItems)) =>
        added := StoreItems(url, category, allItems, nowIso, now);
    }

    /** scoreArticle: without a client nothing happens. With one, a reply
        sets the clamped score (0 when absent), the summary (the description
        when empty) and the processed flag, and counts an AI success; a failed
        call raises the quota flag when its message mentions a quota, falls
        back to the keyword score and the description (the title when the
        description is empty), and counts a keyword success. */
    method ScoreArticle(a: Article, outcome: AiOutcome)
      requires stats.Valid()
      modifies a, stats
      ensures stats.Valid()
      ensures a.View() == Scored(old(a.View()), hasClient, outcome)
      ensures stats.articles == CountAfterScoring(old(stats.articles), hasClient, outcome)
      ensures stats.system == old(stats.system).(
        openaiQuotaExceeded := old(stats.system.openaiQuotaExceeded) || (hasClient && QuotaError(outcome)))
      ensures stats.rssFeeds == old(stats.rssFeeds) && stats.processing == old(stats.processing)
      ensures stats.processingStartTime == old(stats.processingStartTime)
      ensures stats.processingTimes == old(stats.processingTimes)
    {
      if !hasClient {
        return;
      }
      match outcome
      case AiResult(score, summary) =>
        a.impactScore := Some(Clamp(score.GetOr(0), -5, 5));
        a.aiSummary := Some(OrElse(summary, a.description));
        a.processed := true;
        stats.RecordScoringSuccess(AI);
      case AiFailed(message) =>
        if Contains(message, "quota") {
          stats.RecordOpenAIQuotaExceeded();
        }
        var score := GenerateBasicScore(a.title, a.description, a.category.Key());
        a.impactScore := Some(score);
        a.aiSummary := Some(OrElse(a.description, a.title));
        a.processed := true;
        stats.RecordScoringSuccess(Keyword);
    }

    /** Each article of q is now the article v held at its position,
        scored with the reply for its link. */
    ghost predicate ScoredAs(q: seq<Article>, v: seq<RssArticle>, ai: string -> AiOutcome)
      reads q
    {
      && |v| == |q|
      && forall i :: 0 <= i < |q| ==> q[i].View() == Scored(v[i], hasClient, ai(q[i].link))
    }

    /** After `done` turns of the drain loop over the queue q0 whose
        articles then looked like v0: the first `done` articles are scored
        with the replies for their links, the rest are as they were. */
    ghost predicate DrainedUpTo(q0: seq<Article>, v0: seq<RssArticle>, done: nat, ai: string -> AiOutcome)
      reads q0
    {
      && |v0| == |q0| && done <= |q0|
      && forall i :: 0 <= i < |q0| ==>
           q0[i].View() == if i < done then Scored(v0[i], hasClient, ai(q0[i].link)) else v0[i]
    }

    /** The articles and the statistics after `done` turns of the drain loop
        over q0, relative to the statistics `start` from which draining
        began. */
    ghost predicate Drained(q0: seq<Article>, v0: seq<RssArticle>, done: nat, ai: string -> AiOutcome,
                            now: int, start: DrainStart)
      reads stats, q0
    {
      && stats.Valid() && NoDuplicates(q0)
      && DrainedUpTo(q0, v0, done, ai)
      && stats.articles == CountsAfterQueue(start.counts, hasClient, Replies(q0[..done], ai))
      && stats.system == start.system.(
           openaiQuotaExceeded := start.system.openaiQuotaExceeded || (hasClient && QuotaSeen(Replies(q0[..done], ai))))
      && stats.rssFeeds == start.feeds
      && stats.processing.isCurrentlyProcessing && stats.processingStartTime == Some(now)
      && stats.processingTimes == start.times
      && stats.processing.lastProcessingTime == start.lastProcessingTime
    }

    /** The statistics from which draining begins. */
    ghost function DrainSnapshot(): DrainStart
      reads stats
    {
      DrainStart(stats.articles, stats.system, stats.rssFeeds, stats.processingTimes,
                 stats.processing.lastProcessingTime)
    }

    /** One turn of the drain loop, once the article at position `done` of q0
        has been taken off the queue: it is scored with the reply for its
        link and counted as processed, and the processing state is refreshed
        with the length of what remains queued. */
    method ScoreTurn(a: Article, remaining: nat, ai: string -> AiOutcome, now: int,
                     ghost q0: seq<Article>, ghost v0: seq<RssArticle>, ghost done: nat, ghost start: DrainStart)
      requires Drained(q0, v0, done, ai, now, start) && done < |q0| && a == q0[done]
      modifies a, stats
      ensures Drained(q0, v0, done + 1, ai, now, start)
      ensures stats.processing.queueLength == remaining
    {
      ghost var before := Views(q0);
      ScoreArticle(a, ai(a.link));
      stats.RecordArticleProcessed();
      stats.SetProcessingState(true, now, remaining);
      forall i | 0 <= i < |q0| && i != done
        ensures q0[i].View() == before[i]
      {
        assert q0[i] != a;
      }
      DrainedOneMore(q0, v0, done, ai, before);
      DrainStep(start.counts, hasClient, q0, done, ai);
    }

    /** Scoring the article at position `done`, and changing no other article
        of the queue, extends the drained prefix by one; `before` are the
        articles as they looked before the turn. */
    lemma DrainedOneMore(q0: seq<Article>, v0: seq<RssArticle>, done: nat, ai: string -> AiOutcome,
                         before: seq<RssArticle>)
      requires |v0| == |q0| == |before| && done < |q0|
      requires forall i :: 0 <= i < |q0| ==>
        before[i] == if i < done then Scored(v0[i], hasClient, ai(q0[i].link)) else v0[i]
      requires q0[done].View() == Scored(before[done], hasClient, ai(q0[done].link))
      requires forall i :: 0 <= i < |q0| && i != done ==> q0[i].View() == before[i]
      ensures DrainedUpTo(q0, v0, done + 1, ai)
    {
    }

    /** `queue.shift()`: the oldest queued article is taken off the queue. */
    method Dequeue() returns (a: Article)
      requires queue != []
      modifies this
      ensures a == old(queue[0]) && queue == old(queue[1..]) && dequeued == old(dequeued) + 1
      ensures enqueued == old(enqueued) && cache == old(cache) && processedArticles == old(processedArticles)
      ensures isProcessing == old(isProcessing)
    {
      a := queue[0];
      queue := queue[1..];
      dequeued := dequeued + 1;
    }

    /** The drain loop of processArticleQueue, with the flag already set:
        the queue is emptied oldest first, each article scored with the reply
        for its link. */
    method DrainQueue(ai: string -> AiOutcome, now: int)
      requires stats.Valid() && NoDuplicates(queue)
      requires stats.processing.isCurrentlyProcessing && stats.processingStartTime == Some(now)
      modifies this, stats, queue
      ensures stats.Valid()
      ensures queue == [] && dequeued == old(dequeued) + |old(queue)|
      ensures enqueued == old(enqueued) && cache == old(cache) && processedArticles == old(processedArticles)
      ensures isProcessing == old(isProcessing)
      ensures ScoredAs(old(queue), old(Views(queue)), ai)
      ensures stats.articles == CountsAfterQueue(old(stats.articles), hasClient, Replies(old(queue), ai))
      ensures stats.system == old(stats.system).(
        openaiQuotaExceeded := old(stats.system.openaiQuotaExceeded) || (hasClient && QuotaSeen(Replies(old(queue), ai))))
      ensures stats.rssFeeds == old(stats.rssFeeds)
      ensures stats.processing.isCurrentlyProcessing && stats.processingStartTime == Some(now)
      ensures stats.processingTimes == old(stats.processingTimes)
      ensures stats.processing.lastProcessingTime == old(stats.processing.lastProcessingTime)
    {
      ghost var q0 := queue;
      ghost var v0 := Views(q0);
      ghost var start := DrainSnapshot();
      ghost var done := 0;
      while |queue| > 0
        invariant done <= |q0| && queue == q0[done..] && dequeued == old(dequeued) + done
        invariant enqueued == old(enqueued) && cache == old(cache) && processedArticles == old(processedArticles)
        invariant isProcessing == old(isProcessing)
        invariant Drained(q0, v0, done, ai, now, start)
      {
        var a := Dequeue();
        ScoreTurn(a, |queue|, ai, now, q0, v0, done, start);
        done := done + 1;
      }
      assert q0[..done] == q0;
    }

    /** The start of a run: the flag is set and the processing state
        records the queue length at `now`. */
    method StartRun(now: int)
      requires stats.Valid()
      modifies this, stats
      ensures stats.Valid() && isProcessing
      ensures stats.processing.isCurrentlyProcessing && stats.processing.queueLength == |queue|
      ensures stats.processingStartTime == Some(now) && stats.processingTimes == old(stats.processingTimes)
      ensures stats.processing.lastProcessingTime == old(stats.processing.lastProcessingTime)
      ensures stats.rssFeeds == old(stats.rssFeeds) && stats.articles == old(stats.articles)
      ensures stats.system == old(stats.system)
      ensures queue == old(queue) && dequeued == old(dequeued) && enqueued == old(enqueued)
      ensures cache == old(cache) && processedArticles == old(processedArticles)
    {
      isProcessing := true;
      stats.SetProcessingState(true, now, |queue|);
    }

    /** The end of a run: the flag is cleared and the processing state is
        cleared at `finish`, which records the run's duration. */
    method FinishRun(finish: int)
      requires stats.Valid()
      modifies this, stats
      ensures stats.Valid() && !isProcessing
      ensures !stats.processing.isCurrentlyProcessing && stats.processing.queueLength == 0
      ensures stats.processingStartTime == old(stats.processingStartTime)
      ensures old(stats.processingStartTime).Some? && old(stats.processingStartTime).value != 0 ==>
        stats.processingTimes == PushWindow(old(stats.processingTimes), finish - old(stats.processingStartTime).value)
        && stats.processing.lastProcessingTime == Some(finish)
      ensures stats.rssFeeds == old(stats.rssFeeds) && stats.articles == old(stats.articles)
      ensures stats.system == old(stats.system)
      ensures queue == old(queue) && dequeued == old(dequeued) && enqueued == old(enqueued)
      ensures cache == old(cache) && processedArticles == old(processedArticles)
    {
      isProcessing := false;
      stats.SetProcessingState(false, finish, 0);
    }

    /** processArticleQueue when no run is in progress: StartAndDrain, then
        the flag and the processing state are cleared at `finish`. The
        effect on the articles is stated on StartAndDrain; this contract
        keeps to the queue and the statistics. */
    method ProcessQueue(ai: string -> AiOutcome, now: int, finish: int)
      requires stats.Valid() && NoDuplicates(queue) && !isProcessing
      modifies this, stats, queue
      ensures stats.Valid()
      ensures queue == [] && dequeued == old(dequeued) + |old(queue)| && !isProcessing
      ensures enqueued == old(enqueued) && cache == old(cache) && processedArticles == old(processedArticles)
      ensures stats.articles == CountsAfterQueue(old(stats.articles), hasClient, Replies(old(queue), ai))
      ensures stats.system == old(stats.system).(
        openaiQuotaExceeded := old(stats.system.openaiQuotaExceeded) || (hasClient && QuotaSeen(Replies(old(queue), ai))))
      ensures !stats.processing.isCurrentlyProcessing && stats.processing.queueLength == 0
      ensures stats.processingStartTime == Some(now)
      ensures now != 0 ==> stats.processingTimes == PushWindow(old(stats.processingTimes), finish - now)
                           && stats.processing.lastProcessingTime == Some(finish)
      ensures stats.rssFeeds == old(stats.rssFeeds)
    {
      StartAndDrain(ai, now);
      FinishRun(finish);
    }

    /** The first two steps of ProcessQueue: the flag is set, and the queue
        is drained oldest first, each article scored with the reply for its
        link and counted as processed, the processing state refreshed with
        the remaining length after each one (all at `now`). */
    method StartAndDrain(ai: string -> AiOutcome, now: int)
      requires stats.Valid() && NoDuplicates(queue)
      modifies this, stats, queue
      ensures stats.Valid() && isProcessing
      ensures queue == [] && dequeued == old(dequeued) + |old(queue)|
      ensures enqueued == old(enqueued) && cache == old(cache) && processedArticles == old(processedArticles)
      ensures ScoredAs(old(queue), old(Views(queue)), ai)
      ensures stats.articles == CountsAfterQueue(old(stats.articles), hasClient, Replies(old(queue), ai))
      ensures stats.system == old(stats.system).(
        openaiQuotaExceeded := old(stats.system.openaiQuotaExceeded) || (hasClient && QuotaSeen(Replies(old(queue), ai))))
      ensures stats.processingStartTime == Some(now) && stats.processingTimes == old(stats.processingTimes)
      ensures stats.rssFeeds == old(stats.rssFeeds)
    {
      StartRun(now);
      DrainQueue(ai, now);
    }

    /** Under Valid the queue never holds the same article twice. */
    lemma QueueDistinct()
      requires Valid()
      ensures NoDuplicates(queue)
    {
      DistinctObjects(enqueued);
      forall i, j | 0 <= i < j < |queue| ensures queue[i] != queue[j] {
        assert queue[i] == enqueued[dequeued + i] && queue[j] == enqueued[dequeued + j];
      }
    }

    /** processArticleQueue: a run already in progress makes this a no-op;
        otherwise ProcessQueue (how every queued article is scored is
        stated on StartAndDrain; this contract keeps to the counters and
        the drained queue). */
    method ProcessArticleQueue(ai: string -> AiOutcome, now: int, finish: int)
      requires Valid()
      modifies this, stats, queue
      ensures Valid()
      ensures enqueued == old(enqueued) && cache == old(cache) && processedArticles == old(processedArticles)
      ensures old(isProcessing) ==>
        && queue == old(queue) && isProcessing
        && stats.articles == old(stats.articles) && stats.system == old(stats.system)
        && stats.processing == old(stats.processing)
        && stats.processingStartTime == old(stats.processingStartTime)
        && stats.processingTimes == old(stats.processingTimes)
        && forall a :: a in old(queue) ==> a.View() == old(a.View())
      ensures !old(isProcessing) ==>
        && queue == [] && !isProcessing
        && stats.articles == CountsAfterQueue(old(stats.articles), hasClient, Replies(old(queue), ai))
        && stats.system == old(stats.system).(
             openaiQuotaExceeded := old(stats.system.openaiQuotaExceeded) || (hasClient && QuotaSeen(Replies(old(queue), ai))))
        && !stats.processing.isCurrentlyProcessing && stats.processing.queueLength == 0
        && stats.processingStartTime == Some(now)
        && (now != 0 ==> stats.processingTimes == PushWindow(old(stats.processingTimes), finish - now)
                         && stats.processing.lastProcessingTime == Some(finish))
      ensures stats.rssFeeds == old(stats.rssFeeds)
    {
      if isProcessing {
        return;
      }
      QueueDistinct();
      ProcessQueue(ai, now, finish);
    }

    /** One turn of the feed loop of fetchAndParseFeeds: the url is
        registered and then fetched. The url is known afterwards, and so is
        every url known before. */
    method AttemptFeed(url: string, category: Category, outcome: FeedOutcome, nowIso: string, now: int)
      returns (ghost added: seq<Article>)
      requires Valid()
      modifies this, stats
      ensures Valid()
      ensures IndexOf(stats.rssFeeds.feedStats, url).Some?
      ensures forall u :: IndexOf(old(stats.rssFeeds.feedStats), u).Some? ==> IndexOf(stats.rssFeeds.feedStats, u).Some?
      ensures old(processedArticles) <= processedArticles && isProcessing == old(isProcessing)
      ensures queue == old(queue) + added && forall a :: a in added ==> fresh(a)
      ensures stats.processing == old(stats.processing)
      ensures stats.processingStartTime == old(stats.processingStartTime)
      ensures stats.processingTimes == old(stats.processingTimes)
    {
      ghost var before := stats.rssFeeds;
      stats.RecordFeedAttempt(url, category.Key());
      ghost var registered := stats.rssFeeds;
      RegisterFeedKeepsConsistent(before, url, category.Key());
      forall u | IndexOf(before.feedStats, u).Some?
        ensures IndexOf(registered.feedStats, u).Some?
      {
        RegisterFeedKeepsKnown(before, url, category.Key(), u);
      }
      added := FetchFeed(url, category, outcome, nowIso, now);
      FeedSucceededKeepsConsistent(registered, url, |added|, now);
      if outcome.FetchFailed? {
        FeedFailedKeepsConsistent(registered, url, outcome.message);
      }
      if outcome.Parsed? && outcome.items.Some? {
        AdmitSpec(Take(outcome.items.value, MaxItemsPerFetch), old(processedArticles));
      }
    }

    /** The fetch phase of fetchAndParseFeeds: the processing state is set
        with the current queue length, then every configured url is
        registered and fetched in order, `fetch` giving each url's outcome. */
    method FetchFeeds(fetch: string -> FeedOutcome, nowIso: string, now: int)
      requires Valid()
      modifies this, stats
      ensures Valid()
      ensures forall k :: 0 <= k < |FeedUrls| ==> IndexOf(stats.rssFeeds.feedStats, FeedUrls[k].1).Some?
      ensures old(processedArticles) <= processedArticles && isProcessing == old(isProcessing)
      ensures forall a :: a in queue ==> a in old(queue) || fresh(a)
      ensures stats.processing.isCurrentlyProcessing
      ensures stats.processingStartTime == Some(now)
      ensures stats.processingTimes == old(stats.processingTimes)
    {
      stats.SetProcessingState(true, now, |queue|);
      for i := 0 to |FeedUrls|
        invariant Valid()
        invariant KnowsFirst(stats.rssFeeds.feedStats, i)
        invariant old(processedArticles) <= processedArticles && isProcessing == old(isProcessing)
        invariant forall a :: a in queue ==> a in old(queue) || fresh(a)
        invariant stats.processing.isCurrentlyProcessing
        invariant stats.processingStartTime == Some(now)
        invariant stats.processingTimes == old(stats.processingTimes)
      {
        var (category, url) := FeedUrls[i];
        ghost var before := stats.rssFeeds.feedStats;
        ghost var added := AttemptFeed(url, category, fetch(url), nowIso, now);
        KnowsOneMore(before, stats.rssFeeds.feedStats, i);
      }
    }

    /** The end of a fetchAndParseFeeds cycle: the queue is processed and
        the processing state is cleared again at `finish`. Clearing never
        resets the start time, so the window receives two entries: once when
        the queue run stops, once here, each `finish` minus the start time
        last recorded. That start is the last per-article refresh of the
        processing state; as every refresh of a cycle happens at `now`, both
        entries are `finish - now`. */
    method FinishCycle(ai: string -> AiOutcome, now: int, finish: int)
      requires Valid() && stats.processingStartTime == Some(now)
      modifies this, stats, queue
      ensures Valid()
      ensures stats.rssFeeds == old(stats.rssFeeds)
      ensures processedArticles == old(processedArticles) && isProcessing == old(isProcessing)
      ensures !old(isProcessing) ==> queue == []
      ensures !stats.processing.isCurrentlyProcessing && stats.processing.queueLength == 0
      ensures stats.processingStartTime == Some(now)
      ensures now != 0 && !old(isProcessing) ==>
        stats.processingTimes == PushWindow(PushWindow(old(stats.processingTimes), finish - now), finish - now)
    {
      ghost var times0 := stats.processingTimes;
      ghost var wasProcessing := isProcessing;
      ProcessArticleQueue(ai, now, finish);
      ghost var times1 := stats.processingTimes;
      assert now != 0 && !wasProcessing ==> times1 == PushWindow(times0, finish - now);
      stats.SetProcessingState(false, finish, 0);
      assert now != 0 ==> stats.processingTimes == PushWindow(times1, finish - now);
    }

    /** fetchAndParseFeeds, one cycle: the fetch phase, then the queue run. */
    method FetchAndParseFeeds(fetch: string -> FeedOutcome, ai: string -> AiOutcome,
                              nowIso: string, now: int, finish: int)
      requires Valid()
      modifies this, stats, queue
      ensures Valid()
      ensures forall k :: 0 <= k < |FeedUrls| ==> IndexOf(stats.rssFeeds.feedStats, FeedUrls[k].1).Some?
      ensures old(processedArticles) <= processedArticles && isProcessing == old(isProcessing)
      ensures !old(isProcessing) ==> queue == []
      ensures !stats.processing.isCurrentlyProcessing && stats.processing.queueLength == 0
      ensures stats.processingStartTime == Some(now)
      ensures now != 0 && !old(isProcessing) ==>
        stats.processingTimes == PushWindow(PushWindow(old(stats.processingTimes), finish - now), finish - now)
    {
      FetchFeeds(fetch, nowIso, now);
      assert forall i :: 0 <= i < |queue| ==> queue[i] in old(queue) || fresh(queue[i]);
      FinishCycle(ai, now, finish);
    }

    /** getCategoryScores: for every category, the score of its cache as the
        articles now are. */
    method GetCategoryScores() returns (scores: map<Category, real>)
      requires Valid()
      ensures forall c: Category :: c in scores && scores[c] == CategoryScore(Views(cache[c]))
    {
      scores := map[];
      for i := 0 to |AllCategories|
        invariant forall k :: 0 <= k < i ==>
          AllCategories[k] in scores && scores[AllCategories[k]] == CategoryScore(Views(cache[AllCategories[k]]))
      {
        var c := AllCategories[i];
        scores := scores[c := CategoryScore(Views(cache[c]))];
      }
      forall c: Category ensures c in scores && scores[c] == CategoryScore(Views(cache[c])) {
        KeyRoundTrip(c);
      }
    }

    /** getArticles: every category's cache, as the articles now are. */
    method GetArticles() returns (news: NewsResponse)
      requires Valid()
      ensures forall c: Category :: news.Get(c) == Views(cache[c])
    {
      news := NewsResponse(Views(cache[Defense]), Views(cache[Manufacturing]), Views(cache[Energy]),
                           Views(cache[Workforce]), Views(cache[TechPolicy]), Views(cache[SupplyChain]));
    }

    /** getCategoryArticles: one category's cache, as the articles now are. */
    method GetCategoryArticles(category: Category) returns (articles: seq<RssArticle>)
      requires Valid()
      ensures articles == Views(cache[category])
    {
      articles := Views(cache[category]);
    }
  }
}
