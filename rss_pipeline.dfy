/** The value-level half of the feed pipeline (server/rssService.ts): which
    feed items a fetch admits, what article each becomes, what scoring does
    to an article, and the 0-100 category score computed from a category's
    cached articles. The stateful service in rss_service.dfy is specified
    in terms of these functions. */
module RssPipeline {
  import opened Common
  import opened Schema
  import opened KeywordScoring

  /** Only the first items of a parsed feed are examined. */
  const MaxItemsPerFetch := 10
  /** Each category cache keeps at most this many articles, newest first. */
  const MaxCachedPerCategory := 20
  /** A category score looks at this many scored articles at most. */
  const RecentScoredWindow := 10

  /** One parsed feed item; an absent field is the empty string, which the
      source's `||` fallbacks treat exactly like undefined. */
  datatype FeedItem = FeedItem(
    title: string,
    link: string,
    pubDate: string,
    contentSnippet: string,
    content: string)

  /** What fetching and parsing one feed url produced: an error (network,
      timeout, malformed XML), or a parsed feed whose item list may be missing. */
  datatype FeedOutcome = FetchFailed(message: string) | Parsed(items: Option<seq<FeedItem>>)

  /** What one language-model scoring call produced: the parsed reply's
      `impact_score` (None when absent or falsy) and `summary` ("" when
      absent), or the message of the error thrown on the way (request
      failure, empty reply, unparsable JSON). */
  datatype AiOutcome = AiResult(impactScore: Option<int>, summary: string) | AiFailed(message: string)

  /** The feed urls per category, in the order the feed table declares them. */
  const FeedUrls: seq<(Category, string)> := [
    (Defense, "https://breakingdefense.com/full-rss-feed/?v=2"),
    (Defense, "https://www.defensenews.com/arc/outboundfeeds/rss/?outputType=xml"),
    (Manufacturing, "https://www.manufacturingdive.com/feeds/news/"),
    (Workforce, "https://www.bls.gov/feed/empsit.rss"),
    (Workforce, "https://www.laborrelationsupdate.com/feed/"),
    (Energy, "https://www.energylivenews.com/feed/"),
    (TechPolicy, "https://thehill.com/policy/technology/feed/"),
    (SupplyChain, "https://www.supplychaindive.com/feeds/news/")
  ]

  // ---------------------------------------------------------------------
  // Admission of feed items

  /** Where admission stands after some items: the items admitted so far,
      in feed order, and the links seen so far. */
  datatype Admission = Admission(admitted: seq<FeedItem>, seen: set<string>)

  /** Admission over a feed's items, in order: an item is skipped when it has
      no link or its link was already seen; otherwise it is admitted and its
      link is seen from then on, so a link repeated inside one feed is
      admitted once. */
  function Admit(items: seq<FeedItem>, seen: set<string>): (r: Admission)
    ensures |r.admitted| <= |items|
    decreases |items|
  {
    if items == [] then Admission([], seen)
    else
      var before := Admit(items[..|items| - 1], seen);
      var item := items[|items| - 1];
      if item.link == "" || item.link in before.seen then before
      else Admission(before.admitted + [item], before.seen + {item.link})
  }

  /** One step of admission: the item at position i against the links seen
      after the items before it. */
  lemma AdmitStep(items: seq<FeedItem>, i: nat, seen: set<string>)
    requires i < |items|
    ensures var before := Admit(items[..i], seen);
      Admit(items[..i + 1], seen)
        == if items[i].link == "" || items[i].link in before.seen then before
           else Admission(before.admitted + [items[i]], before.seen + {items[i].link})
  {
    assert items[..i + 1][..i] == items[..i];
  }

  /** The links of some items, as a set. */
  function ItemLinks(items: seq<FeedItem>): set<string>
    decreases |items|
  {
    if items == [] then {} else ItemLinks(items[..|items| - 1]) + {items[|items| - 1].link}
  }

  /** The non-empty links among some items. */
  function PresentLinks(items: seq<FeedItem>): set<string>
    decreases |items|
  {
    if items == [] then {}
    else PresentLinks(items[..|items| - 1]) + (if items[|items| - 1].link == "" then {} else {items[|items| - 1].link})
  }

  /** Every item's link is among the items' links. */
  lemma {:induction false} LinkInItemLinks(items: seq<FeedItem>, i: nat)
    requires i < |items|
    ensures items[i].link in ItemLinks(items)
    decreases |items|
  {
    if i < |items| - 1 {
      LinkInItemLinks(items[..|items| - 1], i);
    }
  }

  /** A link among the items' links is some item's link. */
  lemma {:induction false} LinkIndex(items: seq<FeedItem>, link: string) returns (i: nat)
    requires link in ItemLinks(items)
    ensures i < |items| && items[i].link == link
    decreases |items|
  {
    if items[|items| - 1].link == link {
      i := |items| - 1;
    } else {
      i := LinkIndex(items[..|items| - 1], link);
    }
  }

  /** The empty link is never among the present links. */
  lemma {:induction false} NoEmptyPresentLink(items: seq<FeedItem>)
    ensures "" !in PresentLinks(items)
    decreases |items|
  {
    if items != [] {
      NoEmptyPresentLink(items[..|items| - 1]);
    }
  }

  /** The links seen after admission are the links seen before plus the
      admitted ones, which are exactly the feed's non-empty links. */
  lemma {:induction false} AdmitSeen(items: seq<FeedItem>, seen: set<string>)
    ensures var r := Admit(items, seen);
      && r.seen == seen + ItemLinks(r.admitted)
      && r.seen == seen + PresentLinks(items)
    decreases |items|
  {
    if items != [] {
      AdmitSeen(items[..|items| - 1], seen);
    }
  }

  /** Every admitted item has a link, was not seen before and comes from
      the feed. */
  lemma {:induction false} AdmitFresh(items: seq<FeedItem>, seen: set<string>)
    ensures var r := Admit(items, seen);
      forall i :: 0 <= i < |r.admitted| ==>
        r.admitted[i].link != "" && r.admitted[i].link !in seen && r.admitted[i] in items
    decreases |items|
  {
    if items != [] {
      var init, item := items[..|items| - 1], items[|items| - 1];
      AdmitFresh(init, seen);
      AdmitSeen(init, seen);
      assert forall x :: x in init ==> x in items;
      var before := Admit(init, seen);
      if !(item.link == "" || item.link in before.seen) {
        assert Admit(items, seen).admitted == before.admitted + [item];
      }
    }
  }

  /** No link is admitted twice, even when the feed repeats it. */
  lemma {:induction false} AdmitDistinct(items: seq<FeedItem>, seen: set<string>)
    ensures var r := Admit(items, seen);
      forall i, j :: 0 <= i < j < |r.admitted| ==> r.admitted[i].link != r.admitted[j].link
    decreases |items|
  {
    if items != [] {
      var init, item := items[..|items| - 1], items[|items| - 1];
      AdmitDistinct(init, seen);
      AdmitSeen(init, seen);
      var before := Admit(init, seen);
      if !(item.link == "" || item.link in before.seen) {
        var r := Admit(items, seen);
        assert r.admitted == before.admitted + [item];
        forall i | 0 <= i < |before.admitted|
          ensures before.admitted[i].link != item.link
        {
          LinkInItemLinks(before.admitted, i);
        }
      }
    }
  }

  /** Admission keeps the contract of the dedup set: every admitted item has
      a link, comes from the feed and was not seen before; no link is
      admitted twice; the links seen afterwards are the links seen before
      plus the admitted ones, which are exactly the feed's non-empty links. */
  lemma AdmitSpec(items: seq<FeedItem>, seen: set<string>)
    ensures var r := Admit(items, seen);
      && (forall i :: 0 <= i < |r.admitted| ==>
            r.admitted[i].link != "" && r.admitted[i].link !in seen && r.admitted[i] in items)
      && (forall i, j :: 0 <= i < j < |r.admitted| ==> r.admitted[i].link != r.admitted[j].link)
      && r.seen == seen + ItemLinks(r.admitted)
      && r.seen == seen + PresentLinks(items)
  {
    AdmitSeen(items, seen);
    AdmitFresh(items, seen);
    AdmitDistinct(items, seen);
  }

  /** The article a feed item becomes: "Untitled" without a title, the fetch
      time without a date, the content snippet, else the content, as its
      description; unscored and unprocessed. */
  function ArticleFor(item: FeedItem, category: Category, nowIso: string): (a: RssArticle)
    ensures a.link == item.link && a.category == category.Key()
    ensures a.title != "" && a.pubDate == OrElse(item.pubDate, nowIso)
    ensures a.description.Some?
    ensures a.impactScore.None? && a.aiSummary.None? && !a.processed
  {
    RssArticle(
      OrElse(item.title, "Untitled"),
      item.link,
      OrElse(item.pubDate, nowIso),
      Some(OrElse(item.contentSnippet, OrElse(item.content, ""))),
      category.Key(),
      None,
      None,
      false)
  }

  /** The articles some feed items become, in order. */
  function ArticlesFor(items: seq<FeedItem>, category: Category, nowIso: string): (r: seq<RssArticle>)
    ensures |r| == |items|
    decreases |items|
  {
    if items == [] then []
    else ArticlesFor(items[..|items| - 1], category, nowIso) + [ArticleFor(items[|items| - 1], category, nowIso)]
  }

  /** Building articles item by item. */
  lemma ArticlesForAppend(items: seq<FeedItem>, item: FeedItem, category: Category, nowIso: string)
    ensures ArticlesFor(items + [item], category, nowIso)
         == ArticlesFor(items, category, nowIso) + [ArticleFor(item, category, nowIso)]
  {
    assert (items + [item])[..|items|] == items;
  }

  // ---------------------------------------------------------------------
  // Scoring one article

  /** The effect of scoreArticle on an article. Without a client nothing
      changes. With one, a model reply sets the clamped score (0 when the
      reply has none) and the reply's summary, else the description; a
      failed call sets the keyword score and the description, else the
      title, as summary. Either way the article becomes processed. */
  function Scored(v: RssArticle, hasClient: bool, outcome: AiOutcome): (r: RssArticle)
    ensures !hasClient ==> r == v
    ensures hasClient ==> r.processed && r.impactScore.Some? && -5 <= r.impactScore.value <= 5
    ensures hasClient ==> r.aiSummary.Some?
    ensures r.title == v.title && r.link == v.link && r.pubDate == v.pubDate
    ensures r.description == v.description && r.category == v.category
  {
    if !hasClient then v
    else
      var description := v.description.GetOr("");
      match outcome
      case AiResult(score, summary) =>
        v.(impactScore := Some(Clamp(score.GetOr(0), -5, 5)),
           aiSummary := Some(OrElse(summary, description)),
           processed := true)
      case AiFailed(_) =>
        v.(impactScore := Some(BasicScore(v.title, description, v.category)),
           aiSummary := Some(OrElse(description, v.title)),
           processed := true)
  }

  /** Whether a failed scoring call raises the quota flag. */
  predicate QuotaError(outcome: AiOutcome) {
    outcome.AiFailed? && Contains(outcome.message, "quota")
  }

  /** A reply's score is kept when it is within [-5, 5] and pinned to the
      nearer bound otherwise; a reply without a score counts as neutral. */
  lemma AiScoreClamped(v: RssArticle, score: Option<int>, summary: string)
    ensures var r := Scored(v, true, AiResult(score, summary));
      && (score.None? ==> r.impactScore == Some(0))
      && (score.Some? && -5 <= score.value <= 5 ==> r.impactScore == score)
      && (score.Some? && score.value > 5 ==> r.impactScore == Some(5))
      && (score.Some? && score.value < -5 ==> r.impactScore == Some(-5))
  {
  }

  /** A failed call falls back to the keyword heuristic on the article's own
      title, description and category, and the summary is never empty when
      the article has a title. */
  lemma FailureUsesKeywords(v: RssArticle, message: string)
    ensures var r := Scored(v, true, AiFailed(message));
      && r.impactScore == Some(BasicScore(v.title, v.description.GetOr(""), v.category))
      && (v.title != "" ==> r.aiSummary.value != "")
  {
  }

  // ---------------------------------------------------------------------
  // Category scores

  /** An article counts towards its category's score once it is processed
      and has a score. */
  predicate IsScored(v: RssArticle) {
    v.processed && v.impactScore.Some?
  }

  /** The scored articles, in cache order. */
  function ScoredOnly(vs: seq<RssArticle>): (r: seq<RssArticle>)
    ensures |r| <= |vs|
    ensures forall i :: 0 <= i < |r| ==> IsScored(r[i]) && r[i] in vs
    ensures forall v :: v in vs && IsScored(v) ==> v in r
    decreases |vs|
  {
    if vs == [] then []
    else (if IsScored(vs[0]) then [vs[0]] else []) + ScoredOnly(vs[1..])
  }

  /** The sum of the scores (an absent score adds 0). */
  function SumScores(vs: seq<RssArticle>): int
    decreases |vs|
  {
    if vs == [] then 0 else vs[0].impactScore.GetOr(0) + SumScores(vs[1..])
  }

  /** The category score: with no scored article it is 0; otherwise the mean
      of the first ten scored articles' scores mapped to 50 + 10 * mean and
      clamped to [0, 100]. */
  function CategoryScore(vs: seq<RssArticle>): (r: real)
    ensures 0.0 <= r <= 100.0
  {
    var recent := Take(ScoredOnly(vs), RecentScoredWindow);
    if |recent| == 0 then 0.0
    else ClampReal(50.0 + 10.0 * (SumScores(recent) as real / |recent| as real), 0.0, 100.0)
  }

  /** The scaled mean of some scores, before clamping. */
  function ScaledMean(recent: seq<RssArticle>): real
    requires |recent| > 0
  {
    50.0 + 10.0 * (SumScores(recent) as real / |recent| as real)
  }

  /** Scores within [-5, 5] sum to within [-5n, 5n]. */
  lemma {:induction false} SumScoresBounds(vs: seq<RssArticle>)
    requires forall i :: 0 <= i < |vs| ==> -5 <= vs[i].impactScore.GetOr(0) <= 5
    ensures -5 * |vs| <= SumScores(vs) <= 5 * |vs|
    decreases |vs|
  {
    if vs != [] {
      SumScoresBounds(vs[1..]);
    }
  }

  /** When all scores are +5 the sum is 5n. */
  lemma {:induction false} SumScoresAllMax(vs: seq<RssArticle>)
    requires forall i :: 0 <= i < |vs| ==> vs[i].impactScore == Some(5)
    ensures SumScores(vs) == 5 * |vs|
    decreases |vs|
  {
    if vs != [] {
      SumScoresAllMax(vs[1..]);
    }
  }

  /** Filtering distributes over concatenation. */
  lemma {:induction false} ScoredOnlyAppend(a: seq<RssArticle>, b: seq<RssArticle>)
    ensures ScoredOnly(a + b) == ScoredOnly(a) + ScoredOnly(b)
    decreases |a|
  {
    if a == [] {
      assert a + b == b;
    } else {
      assert (a + b)[0] == a[0];
      assert (a + b)[1..] == a[1..] + b;
      ScoredOnlyAppend(a[1..], b);
    }
  }

  /** A category without a scored article scores 0, not the neutral 50. */
  lemma {:induction false} NothingScoredGivesZero(vs: seq<RssArticle>)
    requires forall i :: 0 <= i < |vs| ==> !IsScored(vs[i])
    ensures CategoryScore(vs) == 0.0
    decreases |vs|
  {
    if vs != [] {
      NothingScoredGivesZero(vs[1..]);
      assert ScoredOnly(vs) == ScoredOnly(vs[1..]);
    }
  }

  /** With scores within [-5, 5] the clamp never bites: the result is exactly
      50 + 10 * mean of the recent scored articles. */
  lemma ScoresInRangeNeedNoClamp(vs: seq<RssArticle>)
    requires forall i :: 0 <= i < |vs| ==> IsScored(vs[i]) ==> -5 <= vs[i].impactScore.value <= 5
    ensures var recent := Take(ScoredOnly(vs), RecentScoredWindow);
      |recent| > 0 ==> CategoryScore(vs) == ScaledMean(recent)
  {
    var recent := Take(ScoredOnly(vs), RecentScoredWindow);
    if |recent| > 0 {
      assert forall i :: 0 <= i < |recent| ==> recent[i] in vs;
      SumScoresBounds(recent);
      MeanWithinBounds(SumScores(recent), |recent|);
    }
  }

  /** A sum of n values within [-5, 5] has a mean within [-5, 5]. */
  lemma MeanWithinBounds(sum: int, n: nat)
    requires n > 0 && -5 * n <= sum <= 5 * n
    ensures -5.0 <= sum as real / n as real <= 5.0
  {
    var m := sum as real / n as real;
    assert m * n as real == sum as real;
    if m > 5.0 {
      assert m * n as real > 5.0 * n as real;
    }
  }

  /** n scores of +5 have mean +5. */
  lemma MeanOfEqualScores(n: nat)
    requires n > 0
    ensures (5 * n) as real / n as real == 5.0
  {
  }

  /** When every scored article in the window is +5 the category scores 100. */
  lemma AllMaxScoresGiveHundred(vs: seq<RssArticle>)
    requires exists i :: 0 <= i < |vs| && IsScored(vs[i])
    requires forall i :: 0 <= i < |vs| ==> IsScored(vs[i]) ==> vs[i].impactScore == Some(5)
    ensures CategoryScore(vs) == 100.0
  {
    var i :| 0 <= i < |vs| && IsScored(vs[i]);
    assert vs[i] in ScoredOnly(vs);
    var recent := Take(ScoredOnly(vs), RecentScoredWindow);
    assert forall i :: 0 <= i < |recent| ==> recent[i] in vs;
    SumScoresAllMax(recent);
    MeanOfEqualScores(|recent|);
  }

  /** Only the ten most recent scored articles count: anything cached after
      them leaves the score unchanged. */
  lemma OnlyTenMostRecentCount(vs: seq<RssArticle>, older: seq<RssArticle>)
    requires |ScoredOnly(vs)| >= RecentScoredWindow
    ensures CategoryScore(vs + older) == CategoryScore(vs)
  {
    ScoredOnlyAppend(vs, older);
    var s := ScoredOnly(vs);
    assert (s + ScoredOnly(older))[..RecentScoredWindow] == s[..RecentScoredWindow];
    assert Take(ScoredOnly(vs + older), RecentScoredWindow) == Take(s, RecentScoredWindow);
  }

  /** Articles still waiting to be scored never affect the score. */
  lemma PendingArticlesIgnored(before: seq<RssArticle>, v: RssArticle, after: seq<RssArticle>)
    requires !IsScored(v)
    ensures CategoryScore(before + [v] + after) == CategoryScore(before + after)
  {
    ScoredOnlyAppend(before + [v], after);
    ScoredOnlyAppend(before, [v]);
    ScoredOnlyAppend(before, after);
    assert [v][1..] == [];
    assert ScoredOnly([v]) == [];
    assert ScoredOnly(before + [v]) == ScoredOnly(before);
    assert ScoredOnly(before + [v] + after) == ScoredOnly(before + after);
  }
}
