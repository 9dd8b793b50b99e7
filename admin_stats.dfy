/** The admin statistics recorder (server/adminStats.ts): a process-wide
    object whose record* methods bump counters in place. The clock is a
    parameter (`now`, in milliseconds) of every method that reads it. */
module AdminStats {
  import opened Common

  /** Per-feed entry of `feedStats`. Timestamps are milliseconds. */
  datatype FeedStat = FeedStat(
    url: string,
    category: string,
    lastSuccess: Option<int>,
    lastError: Option<string>,
    totalArticles: nat,
    successCount: nat,
    errorCount: nat)

  /** The `rssFeeds` section. `feedStats` keeps the entries in insertion
      order, which is the order a JavaScript object enumerates its keys in. */
  datatype FeedTotals = FeedTotals(
    totalFeeds: nat,
    successfulFeeds: nat,
    failedFeeds: nat,
    lastFetchTime: Option<int>,
    feedStats: seq<FeedStat>)

  /** The `articles` section. */
  datatype ArticleCounts = ArticleCounts(
    totalFetched: nat,
    totalProcessed: nat,
    successfullyScored: nat,
    failedScoring: nat,
    aiScoredCount: nat,
    keywordScoredCount: nat)

  /** The `processing` section (the average of the duration window is not modelled). */
  datatype ProcessingInfo = ProcessingInfo(
    isCurrentlyProcessing: bool,
    queueLength: nat,
    lastProcessingTime: Option<int>)

  /** The `system` section. `uptime` holds the start time while stored;
      `getStats` reports the elapsed time in its place. */
  datatype SystemInfo = SystemInfo(uptime: int, openaiQuotaExceeded: bool)

  /** What `getStats` returns. */
  datatype StatsReport = StatsReport(
    rssFeeds: FeedTotals,
    articles: ArticleCounts,
    processing: ProcessingInfo,
    system: SystemInfo)

  datatype ScoringMethod = AI | Keyword

  const EmptyFeeds := FeedTotals(0, 0, 0, None, [])
  const ZeroArticles := ArticleCounts(0, 0, 0, 0, 0, 0)
  const IdleProcessing := ProcessingInfo(false, 0, None)

  /** The number of most recent processing durations kept. */
  const WindowSize := 10

  /** Position of the entry for url, if there is one. */
  function IndexOf(entries: seq<FeedStat>, url: string): (r: Option<nat>)
    ensures r.Some? ==> r.value < |entries| && entries[r.value].url == url
    ensures r.None? ==> forall i :: 0 <= i < |entries| ==> entries[i].url != url
    decreases |entries|
  {
    if entries == [] then None
    else if entries[|entries| - 1].url == url then Some(|entries| - 1)
    else IndexOf(entries[..|entries| - 1], url)
  }

  ghost predicate DistinctUrls(entries: seq<FeedStat>) {
    forall i, j :: 0 <= i < j < |entries| ==> entries[i].url != entries[j].url
  }

  datatype Counter = Successes | Errors

  function CountOf(e: FeedStat, which: Counter): nat {
    match which
    case Successes => e.successCount
    case Errors => e.errorCount
  }

  /** Sum of one per-feed counter over all entries. */
  function SumCounts(entries: seq<FeedStat>, which: Counter): nat
    decreases |entries|
  {
    if entries == [] then 0
    else SumCounts(entries[..|entries| - 1], which) + CountOf(entries[|entries| - 1], which)
  }

  /** Replacing one entry changes the sum by exactly that entry's difference. */
  lemma {:induction false} SumCountsUpdate(entries: seq<FeedStat>, i: nat, e: FeedStat, which: Counter)
    requires i < |entries|
    ensures SumCounts(entries[i := e], which)
         == SumCounts(entries, which) - CountOf(entries[i], which) + CountOf(e, which)
    decreases |entries|
  {
    var n := |entries| - 1;
    if i < n {
      SumCountsUpdate(entries[..n], i, e, which);
      assert entries[i := e][..n] == entries[..n][i := e];
    } else {
      assert entries[i := e][..n] == entries[..n];
    }
  }

  /** Appending a fresh entry adds its counter to the sum. */
  lemma SumCountsAppend(entries: seq<FeedStat>, e: FeedStat, which: Counter)
    ensures SumCounts(entries + [e], which) == SumCounts(entries, which) + CountOf(e, which)
  {
    assert (entries + [e])[..|entries|] == entries;
  }

  /** The duration window after recording d: the newest d at the end, the
      oldest entry dropped once there are more than WindowSize. */
  function PushWindow(times: seq<int>, d: int): (r: seq<int>)
    requires |times| <= WindowSize
    ensures |r| <= WindowSize
  {
    var pushed := times + [d];
    if |pushed| > WindowSize then pushed[1..] else pushed
  }

  /** The window after a push ends with the new duration, and drops the
      oldest one exactly when it was full. */
  lemma PushWindowShape(times: seq<int>, d: int)
    requires |times| <= WindowSize
    ensures var r := PushWindow(times, d);
      && |r| > 0 && r[|r| - 1] == d
      && (|times| < WindowSize ==> r == times + [d])
      && (|times| == WindowSize ==> r == times[1..] + [d])
  {
  }

  /** Repeated pushes keep exactly the last WindowSize durations. */
  lemma {:induction false} PushWindowKeepsNewest(times: seq<int>, d: int)
    requires |times| <= WindowSize
    ensures PushWindow(times, d) == (times + [d])[|times + [d]| - |PushWindow(times, d)|..]
    ensures |PushWindow(times, d)| == if |times| + 1 < WindowSize then |times| + 1 else WindowSize
  {
    if |times| == WindowSize {
      assert (times + [d])[1..] == times[1..] + [d];
    } else {
      assert (times + [d])[0..] == times + [d];
    }
  }

  /** The invariant of the `rssFeeds` section: one entry per url, totalFeeds
      counts the entries, and the feed-level success and failure totals are
      the sums of the per-feed counters. */
  ghost predicate FeedsConsistent(f: FeedTotals) {
    && DistinctUrls(f.feedStats)
    && f.totalFeeds == |f.feedStats|
    && f.successfulFeeds == SumCounts(f.feedStats, Successes)
    && f.failedFeeds == SumCounts(f.feedStats, Errors)
  }

  /** recordFeedAttempt: a zeroed entry for a url not yet present. */
  function RegisterFeed(f: FeedTotals, url: string, category: string): FeedTotals {
    if IndexOf(f.feedStats, url).Some? then f
    else f.(totalFeeds := f.totalFeeds + 1,
            feedStats := f.feedStats + [FeedStat(url, category, None, None, 0, 0, 0)])
  }

  /** recordFeedSuccess: stamps, counts and bumps a known url's entry. */
  function FeedSucceeded(f: FeedTotals, url: string, articleCount: nat, now: int): FeedTotals {
    match IndexOf(f.feedStats, url)
    case None => f
    case Some(i) =>
      var e := f.feedStats[i];
      f.(feedStats := f.feedStats[i := e.(lastSuccess := Some(now),
                                          totalArticles := e.totalArticles + articleCount,
                                          successCount := e.successCount + 1)],
         successfulFeeds := f.successfulFeeds + 1,
         lastFetchTime := Some(now))
  }

  /** recordFeedError: keeps the message and bumps a known url's error count. */
  function FeedFailed(f: FeedTotals, url: string, error: string): FeedTotals {
    match IndexOf(f.feedStats, url)
    case None => f
    case Some(i) =>
      var e := f.feedStats[i];
      f.(feedStats := f.feedStats[i := e.(lastError := Some(error), errorCount := e.errorCount + 1)],
         failedFeeds := f.failedFeeds + 1)
  }

  /** Registering keeps the section consistent, makes the url known, and
      changes nothing when it already was; the success and failure totals
      never move. */
  lemma RegisterFeedKeepsConsistent(f: FeedTotals, url: string, category: string)
    requires FeedsConsistent(f)
    ensures var f' := RegisterFeed(f, url, category);
      && FeedsConsistent(f')
      && IndexOf(f'.feedStats, url).Some?
      && f'.totalFeeds == f.totalFeeds + (if IndexOf(f.feedStats, url).Some? then 0 else 1)
      && f'.successfulFeeds == f.successfulFeeds && f'.failedFeeds == f.failedFeeds
  {
    if IndexOf(f.feedStats, url).None? {
      var entry := FeedStat(url, category, None, None, 0, 0, 0);
      SumCountsAppend(f.feedStats, entry, Successes);
      SumCountsAppend(f.feedStats, entry, Errors);
      var f' := RegisterFeed(f, url, category);
      assert IndexOf(f'.feedStats, url) == Some(|f.feedStats|);
    }
  }

  /** Registering forgets no url already known. */
  lemma RegisterFeedKeepsKnown(f: FeedTotals, url: string, category: string, u: string)
    requires IndexOf(f.feedStats, u).Some?
    ensures IndexOf(RegisterFeed(f, url, category).feedStats, u).Some?
  {
    var i := IndexOf(f.feedStats, u).value;
    assert RegisterFeed(f, url, category).feedStats[i].url == u;
  }

  /** A success on a known url bumps successfulFeeds by exactly one (and the
      per-feed count with it); on an unknown url nothing changes. Either way
      the section stays consistent and the known urls stay known. */
  lemma FeedSucceededKeepsConsistent(f: FeedTotals, url: string, articleCount: nat, now: int)
    requires FeedsConsistent(f)
    ensures var f' := FeedSucceeded(f, url, articleCount, now);
      && FeedsConsistent(f')
      && f'.successfulFeeds == f.successfulFeeds + (if IndexOf(f.feedStats, url).Some? then 1 else 0)
      && f'.failedFeeds == f.failedFeeds && f'.totalFeeds == f.totalFeeds
      && (forall u :: IndexOf(f.feedStats, u).Some? <==> IndexOf(f'.feedStats, u).Some?)
  {
    match IndexOf(f.feedStats, url)
    case None =>
    case Some(i) =>
      var e := f.feedStats[i];
      var e' := e.(lastSuccess := Some(now), totalArticles := e.totalArticles + articleCount,
                   successCount := e.successCount + 1);
      SumCountsUpdate(f.feedStats, i, e', Successes);
      SumCountsUpdate(f.feedStats, i, e', Errors);
      SameUrlsKeepIndex(f.feedStats, f.feedStats[i := e']);
  }

  /** An error on a known url bumps failedFeeds by exactly one; on an
      unknown url nothing changes. */
  lemma FeedFailedKeepsConsistent(f: FeedTotals, url: string, error: string)
    requires FeedsConsistent(f)
    ensures var f' := FeedFailed(f, url, error);
      && FeedsConsistent(f')
      && f'.failedFeeds == f.failedFeeds + (if IndexOf(f.feedStats, url).Some? then 1 else 0)
      && f'.successfulFeeds == f.successfulFeeds && f'.totalFeeds == f.totalFeeds
      && (forall u :: IndexOf(f.feedStats, u).Some? <==> IndexOf(f'.feedStats, u).Some?)
  {
    match IndexOf(f.feedStats, url)
    case None =>
    case Some(i) =>
      var e := f.feedStats[i];
      var e' := e.(lastError := Some(error), errorCount := e.errorCount + 1);
      SumCountsUpdate(f.feedStats, i, e', Successes);
      SumCountsUpdate(f.feedStats, i, e', Errors);
      SameUrlsKeepIndex(f.feedStats, f.feedStats[i := e']);
  }

  /** Entries with the same urls in the same places know the same urls. */
  lemma SameUrlsKeepIndex(a: seq<FeedStat>, b: seq<FeedStat>)
    requires |a| == |b| && forall i :: 0 <= i < |a| ==> a[i].url == b[i].url
    ensures forall u :: IndexOf(a, u).Some? <==> IndexOf(b, u).Some?
  {
    forall u ensures IndexOf(a, u).Some? <==> IndexOf(b, u).Some? {
      if IndexOf(a, u).Some? {
        assert b[IndexOf(a, u).value].url == u;
      }
      if IndexOf(b, u).Some? {
        assert a[IndexOf(b, u).value].url == u;
      }
    }
  }

  class AdminStatsTracker {
    var rssFeeds: FeedTotals
    var articles: ArticleCounts
    var processing: ProcessingInfo
    var system: SystemInfo
    var processingStartTime: Option<int>
    var processingTimes: seq<int>

    /** The counters agree with each other: one feed entry per url and
        totalFeeds counts them, the feed-level success and failure totals
        are the sums of the per-feed counters, every successful scoring is
        either an AI or a keyword one, and the window holds at most 10. */
    ghost predicate Valid()
      reads this
    {
      && FeedsConsistent(rssFeeds)
      && articles.successfullyScored == articles.aiScoredCount + articles.keywordScoredCount
      && |processingTimes| <= WindowSize
    }

    constructor (now: int)
      ensures Valid()
      ensures rssFeeds == EmptyFeeds && articles == ZeroArticles && processing == IdleProcessing
      ensures system == SystemInfo(now, false)
      ensures processingStartTime == None && processingTimes == []
    {
      rssFeeds := EmptyFeeds;
      articles := ZeroArticles;
      processing := IdleProcessing;
      system := SystemInfo(now, false);
      processingStartTime := None;
      processingTimes := [];
    }

    /** Registers a feed url with zeroed counters the first time it is seen. */
    method RecordFeedAttempt(url: string, category: string)
      requires Valid()
      modifies this
      ensures Valid()
      ensures rssFeeds == RegisterFeed(old(rssFeeds), url, category)
      ensures articles == old(articles) && processing == old(processing) && system == old(system)
      ensures processingStartTime == old(processingStartTime) && processingTimes == old(processingTimes)
    {
      if IndexOf(rssFeeds.feedStats, url).None? {
        var entry := FeedStat(url, category, None, None, 0, 0, 0);
        rssFeeds := rssFeeds.(feedStats := rssFeeds.feedStats + [entry], totalFeeds := rssFeeds.totalFeeds + 1);
      }
      RegisterFeedKeepsConsistent(old(rssFeeds), url, category);
    }

    /** For a known url: stamps the success, adds the article count and bumps
        both the feed's and the overall success counter. Unknown urls are ignored. */
    method RecordFeedSuccess(url: string, articleCount: nat, now: int)
      requires Valid()
      modifies this
      ensures Valid()
      ensures rssFeeds == FeedSucceeded(old(rssFeeds), url, articleCount, now)
      ensures articles == old(articles) && processing == old(processing) && system == old(system)
      ensures processingStartTime == old(processingStartTime) && processingTimes == old(processingTimes)
    {
      FeedSucceededKeepsConsistent(rssFeeds, url, articleCount, now);
      var found := IndexOf(rssFeeds.feedStats, url);
      if found.Some? {
        var i := found.value;
        var e := rssFeeds.feedStats[i];
        rssFeeds := rssFeeds.(
          feedStats := rssFeeds.feedStats[i := e.(lastSuccess := Some(now),
                                                  totalArticles := e.totalArticles + articleCount,
                                                  successCount := e.successCount + 1)],
          successfulFeeds := rssFeeds.successfulFeeds + 1,
          lastFetchTime := Some(now));
      }
    }

    /** For a known url: keeps the message and bumps both the feed's and the
        overall failure counter. Unknown urls are ignored. */
    method RecordFeedError(url: string, error: string)
      requires Valid()
      modifies this
      ensures Valid()
      ensures rssFeeds == FeedFailed(old(rssFeeds), url, error)
      ensures articles == old(articles) && processing == old(processing) && system == old(system)
      ensures processingStartTime == old(processingStartTime) && processingTimes == old(processingTimes)
    {
      FeedFailedKeepsConsistent(rssFeeds, url, error);
      var found := IndexOf(rssFeeds.feedStats, url);
      if found.Some? {
        var i := found.value;
        var e := rssFeeds.feedStats[i];
        rssFeeds := rssFeeds.(
          feedStats := rssFeeds.feedStats[i := e.(lastError := Some(error), errorCount := e.errorCount + 1)],
          failedFeeds := rssFeeds.failedFeeds + 1);
      }
    }

    method RecordArticleFetched(count: nat := 1)
      requires Valid()
      modifies this
      ensures Valid()
      ensures articles == old(articles).(totalFetched := old(articles.totalFetched) + count)
      ensures rssFeeds == old(rssFeeds) && processing == old(processing) && system == old(system)
      ensures processingStartTime == old(processingStartTime) && processingTimes == old(processingTimes)
    {
      articles := articles.(totalFetched := articles.totalFetched + count);
    }

    method RecordArticleProcessed()
      requires Valid()
      modifies this
      ensures Valid()
      ensures articles == old(articles).(totalProcessed := old(articles.totalProcessed) + 1)
      ensures rssFeeds == old(rssFeeds) && processing == old(processing) && system == old(system)
      ensures processingStartTime == old(processingStartTime) && processingTimes == old(processingTimes)
    {
      articles := articles.(totalProcessed := articles.totalProcessed + 1);
    }

    /** Counts one scored article, under exactly one of the two methods. */
    method RecordScoringSuccess(method_: ScoringMethod)
      requires Valid()
      modifies this
      ensures Valid()
      ensures articles.successfullyScored == old(articles.successfullyScored) + 1
      ensures method_ == AI ==> articles == old(articles).(
        successfullyScored := old(articles.successfullyScored) + 1,
        aiScoredCount := old(articles.aiScoredCount) + 1)
      ensures method_ == Keyword ==> articles == old(articles).(
        successfullyScored := old(articles.successfullyScored) + 1,
        keywordScoredCount := old(articles.keywordScoredCount) + 1)
      ensures rssFeeds == old(rssFeeds) && processing == old(processing) && system == old(system)
      ensures processingStartTime == old(processingStartTime) && processingTimes == old(processingTimes)
    {
      articles := articles.(successfullyScored := articles.successfullyScored + 1);
      if method_ == AI {
        articles := articles.(aiScoredCount := articles.aiScoredCount + 1);
      } else {
        articles := articles.(keywordScoredCount := articles.keywordScoredCount + 1);
      }
    }

    method RecordScoringFailure()
      requires Valid()
      modifies this
      ensures Valid()
      ensures articles == old(articles).(failedScoring := old(articles.failedScoring) + 1)
      ensures rssFeeds == old(rssFeeds) && processing == old(processing) && system == old(system)
      ensures processingStartTime == old(processingStartTime) && processingTimes == old(processingTimes)
    {
      articles := articles.(failedScoring := articles.failedScoring + 1);
    }

    /** Raises the sticky quota flag; nothing but ResetStats lowers it. */
    method RecordOpenAIQuotaExceeded()
      requires Valid()
      modifies this
      ensures Valid()
      ensures system == old(system).(openaiQuotaExceeded := true)
      ensures rssFeeds == old(rssFeeds) && articles == old(articles) && processing == old(processing)
      ensures processingStartTime == old(processingStartTime) && processingTimes == old(processingTimes)
    {
      system := system.(openaiQuotaExceeded := true);
    }

    /** Stores the flag and queue length. Starting records the start time;
        stopping after a (non-zero) recorded start appends the elapsed time to
        the window, dropping the oldest beyond 10. The start time is kept. */
    method SetProcessingState(isProcessing: bool, now: int, queueLength: nat := 0)
      requires Valid()
      modifies this
      ensures Valid()
      ensures processing.isCurrentlyProcessing == isProcessing
      ensures processing.queueLength == queueLength
      ensures isProcessing ==> processingStartTime == Some(now) && processingTimes == old(processingTimes)
                               && processing.lastProcessingTime == old(processing.lastProcessingTime)
      ensures !isProcessing ==> processingStartTime == old(processingStartTime)
      ensures !isProcessing && old(processingStartTime).Some? && old(processingStartTime).value != 0 ==>
        processingTimes == PushWindow(old(processingTimes), now - old(processingStartTime).value)
        && processing.lastProcessingTime == Some(now)
      ensures !isProcessing && !(old(processingStartTime).Some? && old(processingStartTime).value != 0) ==>
        processingTimes == old(processingTimes)
        && processing.lastProcessingTime == old(processing.lastProcessingTime)
      ensures rssFeeds == old(rssFeeds) && articles == old(articles) && system == old(system)
    {
      processing := processing.(isCurrentlyProcessing := isProcessing, queueLength := queueLength);
      if isProcessing {
        processingStartTime := Some(now);
      } else if processingStartTime.Some? && processingStartTime.value != 0 {
        var duration := now - processingStartTime.value;
        processingTimes := processingTimes + [duration];
        if |processingTimes| > WindowSize {
          processingTimes := processingTimes[1..];
        }
        processing := processing.(lastProcessingTime := Some(now));
      }
    }

    /** A copy of the stored statistics with the elapsed time since start in
        place of the start time; nothing stored changes. */
    method GetStats(now: int) returns (report: StatsReport)
      requires Valid()
      ensures report.system.uptime == now - system.uptime
      ensures report.system.openaiQuotaExceeded == system.openaiQuotaExceeded
      ensures report.rssFeeds == rssFeeds && report.articles == articles && report.processing == processing
    {
      report := StatsReport(rssFeeds, articles, processing, system.(uptime := now - system.uptime));
    }

    /** Zeroes every counter, forgets every feed and the duration window and
        lowers the quota flag, but keeps the start time used for uptime. */
    method ResetStats()
      requires Valid()
      modifies this
      ensures Valid()
      ensures rssFeeds == EmptyFeeds && articles == ZeroArticles && processing == IdleProcessing
      ensures system == SystemInfo(old(system.uptime), false)
      ensures processingTimes == [] && processingStartTime == old(processingStartTime)
    {
      var currentUptime := system.uptime;
      rssFeeds := EmptyFeeds;
      articles := ZeroArticles;
      processing := IdleProcessing;
      system := SystemInfo(currentUptime, false);
      processingTimes := [];
    }
  }
}
