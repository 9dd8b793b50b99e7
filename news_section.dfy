/** The news list of the dashboard (client/src/components/NewsSection.tsx):
    the articles of every bucket, optionally of one bucket only, kept when
    scored, relabelled with their bucket key, sorted newest first and cut to
    `maxItems`; and the two helpers that pick an icon and a colour for a
    score.

    Reading a publication date (`new Date(pubDate).getTime()`) is a
    parameter `time`; the sort compares with `time(b) - time(a)`, and the
    built-in sort is stable. */
module NewsSection {
  import opened Common
  import opened Schema

  const DefaultMaxItems := 5

  /** The filters of one bucket: the category filter (an empty one is falsy
      and keeps everything), then "processed with a defined score". */
  predicate Shown(a: RssArticle) {
    a.processed && a.impactScore.Some?
  }

  /** One bucket's contribution to the flatMap. */
  function FromBucket(key: string, articles: seq<RssArticle>, categoryFilter: string): (r: seq<RssArticle>)
    ensures |r| <= |articles|
    ensures forall x :: x in r ==> Shown(x) && x.category == key
    ensures categoryFilter != "" && key != categoryFilter ==> r == []
    decreases |articles|
  {
    if articles == [] then []
    else
      var a := articles[|articles| - 1];
      FromBucket(key, articles[..|articles| - 1], categoryFilter)
        + (if (categoryFilter == "" || key == categoryFilter) && Shown(a) then [a.(category := key)] else [])
  }

  /** Every shown article of an admitted bucket is kept, relabelled with the bucket key. */
  lemma {:induction false} FromBucketKeeps(key: string, articles: seq<RssArticle>, categoryFilter: string)
    requires categoryFilter == "" || key == categoryFilter
    ensures forall a :: a in articles && Shown(a) ==> a.(category := key) in FromBucket(key, articles, categoryFilter)
    decreases |articles|
  {
    if articles != [] {
      var init := articles[..|articles| - 1];
      FromBucketKeeps(key, init, categoryFilter);
      assert forall a :: a in articles ==> a in init || a == articles[|articles| - 1];
    }
  }

  /** `Object.entries(newsData).flatMap(...)`, over the buckets in key order. */
  function Collect(news: NewsResponse, categoryFilter: string): seq<RssArticle> {
    CollectFrom(news, AllCategories, categoryFilter)
  }

  function CollectFrom(news: NewsResponse, cats: seq<Category>, categoryFilter: string): (r: seq<RssArticle>)
    ensures forall x :: x in r ==> Shown(x) && exists c :: c in cats && x.category == c.Key()
    ensures categoryFilter != "" ==> forall x :: x in r ==> x.category == categoryFilter
    decreases |cats|
  {
    if cats == [] then []
    else
      var c := cats[|cats| - 1];
      var r := CollectFrom(news, cats[..|cats| - 1], categoryFilter) + FromBucket(c.Key(), news.Get(c), categoryFilter);
      assert forall x :: x in FromBucket(c.Key(), news.Get(c), categoryFilter) ==> x.category == c.Key();
      r
  }

  // ---------------------------------------------------------------------
  // The stable sort, newest first

  /** Non-increasing in time. */
  predicate NewestFirst(xs: seq<RssArticle>, time: string -> int) {
    forall i, j :: 0 <= i < j < |xs| ==> time(xs[i].pubDate) >= time(xs[j].pubDate)
  }

  /** Inserting into a sorted list: in front of the first article that is
      not newer, so behind the strictly newer ones only. */
  function Insert(x: RssArticle, sorted: seq<RssArticle>, time: string -> int): (r: seq<RssArticle>)
    ensures multiset(r) == multiset(sorted) + multiset{x}
    decreases |sorted|
  {
    if sorted == [] || time(sorted[0].pubDate) <= time(x.pubDate) then [x] + sorted
    else
      assert sorted == [sorted[0]] + sorted[1..];
      [sorted[0]] + Insert(x, sorted[1..], time)
  }

  /** The sort: the first article inserted into the sorted rest; ties keep
      the earlier article first, as the built-in stable sort does. */
  function SortNewestFirst(xs: seq<RssArticle>, time: string -> int): seq<RssArticle>
    decreases |xs|
  {
    if xs == [] then []
    else Insert(xs[0], SortNewestFirst(xs[1..], time), time)
  }

  lemma {:induction false} InsertSorted(x: RssArticle, sorted: seq<RssArticle>, time: string -> int)
    requires NewestFirst(sorted, time)
    ensures NewestFirst(Insert(x, sorted, time), time)
    decreases |sorted|
  {
    if !(sorted == [] || time(sorted[0].pubDate) <= time(x.pubDate)) {
      InsertSorted(x, sorted[1..], time);
      var r := Insert(x, sorted, time);
      assert r[1..] == Insert(x, sorted[1..], time);
      forall j | 1 <= j < |r| ensures time(r[0].pubDate) >= time(r[j].pubDate) {
        assert r[j] in multiset(Insert(x, sorted[1..], time));
        assert r[j] == x || r[j] in sorted[1..];
      }
    }
  }

  /** The articles of a list with the given time, in list order. */
  function AtTime(xs: seq<RssArticle>, t: int, time: string -> int): seq<RssArticle>
    decreases |xs|
  {
    if xs == [] then []
    else (if time(xs[0].pubDate) == t then [xs[0]] else []) + AtTime(xs[1..], t, time)
  }

  /** Inserting x puts it in front of every article of its own time. */
  lemma {:induction false} InsertAtTime(x: RssArticle, sorted: seq<RssArticle>, t: int, time: string -> int)
    ensures AtTime(Insert(x, sorted, time), t, time)
      == (if time(x.pubDate) == t then [x] else []) + AtTime(sorted, t, time)
    decreases |sorted|
  {
    if sorted == [] || time(sorted[0].pubDate) <= time(x.pubDate) {
      assert ([x] + sorted)[1..] == sorted;
    } else {
      InsertAtTime(x, sorted[1..], t, time);
      var r := Insert(x, sorted, time);
      assert r[1..] == Insert(x, sorted[1..], time);
    }
  }

  /** Sorting does not reorder articles of equal time, and keeps every one. */
  lemma {:induction false} SortStable(xs: seq<RssArticle>, t: int, time: string -> int)
    ensures NewestFirst(SortNewestFirst(xs, time), time)
    ensures AtTime(SortNewestFirst(xs, time), t, time) == AtTime(xs, t, time)
    decreases |xs|
  {
    if xs != [] {
      SortStable(xs[1..], t, time);
      InsertSorted(xs[0], SortNewestFirst(xs[1..], time), time);
      InsertAtTime(xs[0], SortNewestFirst(xs[1..], time), t, time);
    }
  }

  /** The sort is a permutation. */
  lemma {:induction false} SortPermutes(xs: seq<RssArticle>, time: string -> int)
    ensures multiset(SortNewestFirst(xs, time)) == multiset(xs)
    decreases |xs|
  {
    if xs != [] {
      SortPermutes(xs[1..], time);
      assert xs == [xs[0]] + xs[1..];
    }
  }

  // ---------------------------------------------------------------------
  // The whole chain

  /** `allArticles`: filter, relabel, sort newest first, `slice(0, maxItems)`.
      Both props are optional: no filter (the empty string), five items. */
  function AllArticles(news: NewsResponse, time: string -> int,
                       categoryFilter: string := "", maxItems: int := DefaultMaxItems)
    : seq<RssArticle>
  {
    JsSliceTo(SortNewestFirst(Collect(news, categoryFilter), time), maxItems)
  }

  /** A prefix of a newest-first list is newest first, and holds every
      article of the list newer than one of its own. */
  lemma PrefixOfSorted(sorted: seq<RssArticle>, n: nat, time: string -> int)
    requires NewestFirst(sorted, time) && n <= |sorted|
    ensures NewestFirst(sorted[..n], time)
    ensures forall x, y :: x in sorted[..n] && y in sorted && time(y.pubDate) > time(x.pubDate) ==> y in sorted[..n]
  {
    forall x, y | x in sorted[..n] && y in sorted && time(y.pubDate) > time(x.pubDate) ensures y in sorted[..n] {
      var i :| 0 <= i < n && sorted[i] == x;
      var j :| 0 <= j < |sorted| && sorted[j] == y;
      assert sorted[..n][j] == y;
    }
  }

  /** A prefix takes nothing the list does not hold. */
  lemma PrefixSubMultiset(xs: seq<RssArticle>, n: nat)
    requires n <= |xs|
    ensures multiset(xs[..n]) <= multiset(xs)
  {
    assert xs == xs[..n] + xs[n..];
  }

  /** What the list holds: the first maxItems collected articles (all of
      them when there are fewer; for a negative maxItems, all but the last
      -maxItems), each of them scored, of a known bucket and of the filtered
      bucket when there is a filter, and each taken from the collected
      articles. */
  lemma AllArticlesSelects(news: NewsResponse, categoryFilter: string, maxItems: int, time: string -> int)
    ensures var r := AllArticles(news, time, categoryFilter, maxItems);
      && var n := |Collect(news, categoryFilter)|;
      && |r| == (if maxItems >= 0 then (if maxItems < n then maxItems else n)
                 else if n + maxItems > 0 then n + maxItems else 0)
      && (forall x :: x in r ==> Shown(x) && exists c: Category :: x.category == c.Key())
      && (categoryFilter != "" ==> forall x :: x in r ==> x.category == categoryFilter)
      && multiset(r) <= multiset(Collect(news, categoryFilter))
  {
    var all := Collect(news, categoryFilter);
    var sorted := SortNewestFirst(all, time);
    SortPermutes(all, time);
    var r := JsSliceTo(sorted, maxItems);
    assert |sorted| == |multiset(sorted)| == |all|;
    PrefixSubMultiset(sorted, |r|);
    forall x | x in r ensures x in all {
      assert x in multiset(sorted);
    }
  }

  /** The order of the list: newest first, and no collected article newer
      than a listed one is left out. */
  lemma AllArticlesNewest(news: NewsResponse, categoryFilter: string, maxItems: int, time: string -> int)
    ensures var r := AllArticles(news, time, categoryFilter, maxItems);
      && NewestFirst(r, time)
      && (forall x, y :: x in r && y in Collect(news, categoryFilter) && time(y.pubDate) > time(x.pubDate) ==> y in r)
  {
    var all := Collect(news, categoryFilter);
    var sorted := SortNewestFirst(all, time);
    SortStable(all, 0, time);
    SortPermutes(all, time);
    var r := JsSliceTo(sorted, maxItems);
    PrefixOfSorted(sorted, |r|, time);
    assert forall y :: y in all <==> y in multiset(sorted);
  }

  /** Without props the section lists the five newest scored articles of
      all buckets, or all of them when there are fewer. */
  lemma DefaultListsFive(news: NewsResponse, time: string -> int)
    ensures var r, all := AllArticles(news, time), Collect(news, "");
      && |r| == (if |all| < 5 then |all| else 5)
      && NewestFirst(r, time)
      && multiset(r) <= multiset(all)
  {
    AllArticlesSelects(news, "", DefaultMaxItems, time);
    AllArticlesNewest(news, "", DefaultMaxItems, time);
  }

  /** Every shown article of the filtered buckets is a candidate for the list. */
  lemma {:induction false} CollectKeeps(news: NewsResponse, cats: seq<Category>, categoryFilter: string, c: Category, a: RssArticle)
    requires c in cats && (categoryFilter == "" || c.Key() == categoryFilter)
    requires a in news.Get(c) && Shown(a)
    ensures a.(category := c.Key()) in CollectFrom(news, cats, categoryFilter)
    decreases |cats|
  {
    var last := cats[|cats| - 1];
    if last == c {
      FromBucketKeeps(c.Key(), news.Get(c), categoryFilter);
    } else {
      CollectKeeps(news, cats[..|cats| - 1], categoryFilter, c, a);
    }
  }

  // ---------------------------------------------------------------------
  // Icon and colour of a score

  datatype ImpactIcon = TrendingUp | TrendingDown | Flat

  /** getImpactIcon. */
  function GetImpactIcon(score: int): (r: ImpactIcon)
    ensures r == TrendingUp <==> score > 0
    ensures r == TrendingDown <==> score < 0
  {
    if score > 0 then TrendingUp else if score < 0 then TrendingDown else Flat
  }

  /** The icon depends only on the sign. */
  lemma ImpactIconBySign(a: int, b: int)
    ensures GetImpactIcon(a) == GetImpactIcon(b) <==> (a > 0 <==> b > 0) && (a < 0 <==> b < 0)
  {
  }

  const StrongPositive := "text-green-600 dark:text-green-400"
  const Positive := "text-green-500 dark:text-green-400"
  const StrongNegative := "text-red-600 dark:text-red-400"
  const Negative := "text-red-500 dark:text-red-400"
  const Neutral := "text-neutral dark:text-slate-400"

  /** getImpactColor: five bands, > 2, > 0, < -2, < 0 and 0. */
  function GetImpactColor(score: int): string {
    if score > 2 then StrongPositive
    else if score > 0 then Positive
    else if score < -2 then StrongNegative
    else if score < 0 then Negative
    else Neutral
  }

  /** Two scores get the same colour exactly when they fall in the same band,
      and the five bands get five different classes. */
  lemma ImpactColorBands(a: int, b: int)
    ensures GetImpactColor(a) == GetImpactColor(b) <==>
      (a > 2 && b > 2) || (0 < a <= 2 && 0 < b <= 2) || (a < -2 && b < -2)
      || (-2 <= a < 0 && -2 <= b < 0) || (a == 0 && b == 0)
  {
  }
}
