/** The database-backed storage (server/storage.ts), restricted to what it
    computes from the rows its queries return: the news buckets, the
    dashboard payload, a category's details, the milestone replacement and
    the seeding guard.

    The database is not modelled. A table is a sequence of rows in the order
    the database returns them, the `where` clauses of the queries that only
    filter are written as filters, and the results of the queries that also
    sort or limit (by creation date or score date) are parameters. */
module Storage {
  import opened Common
  import opened Schema

  // ---------------------------------------------------------------------
  // Rows

  /** A row of `categories`. `keyMetrics` is a nullable JSON column. */
  datatype CategoryRow = CategoryRow(
    key: string,
    name: string,
    score: real,
    change: real,
    icon: string,
    color: string,
    description: string,
    currentStatus: string,
    keyMetrics: Option<seq<KeyMetric>>)

  /** A row of `milestones`. */
  datatype MilestoneRow = MilestoneRow(
    milestoneId: string,
    categoryKey: string,
    title: string,
    target: real,
    current: real,
    unit: string,
    targetDate: string,
    status: string,
    description: string,
    completed: bool)

  /** A row of `news_articles`; `createdAt` is its ISO rendering. */
  datatype NewsRow = NewsRow(
    title: string,
    link: string,
    pubDate: string,
    description: Option<string>,
    category: string,
    impactScore: Option<int>,
    aiSummary: Option<string>,
    processed: bool,
    createdAt: string)

  /** A row of `ad_index_scores`; `date` is its ISO rendering. */
  datatype ScoreRow = ScoreRow(overallScore: real, scores: CategoryScores, date: string)

  /** The three tables the seeding step writes. */
  datatype Tables = Tables(
    categories: seq<CategoryRow>,
    milestones: seq<MilestoneRow>,
    scores: seq<ScoreRow>)

  // ---------------------------------------------------------------------
  // Seeding: initializeDefaultData

  const DefaultCategories: seq<CategoryRow> := [
    CategoryRow("defense", "Defense Technology", 72.0, 2.3, "Shield", "#dc2626",
      "Advanced military systems, cybersecurity, and defense innovation",
      "Strong growth in defense contracts and R&D investments", Some([])),
    CategoryRow("manufacturing", "Manufacturing Reshoring", 68.0, 1.8, "Factory", "#ea580c",
      "Bringing production capabilities back to America",
      "287,000 reshored jobs announced in 2023, cumulatively", Some([])),
    CategoryRow("energy", "Energy Infrastructure", 75.0, 3.2, "Zap", "#fbbf24",
      "Clean energy transition, grid modernization, and energy independence",
      "Record renewable energy capacity additions nationwide", Some([])),
    CategoryRow("workforce", "Workforce Development", 64.0, -0.5, "Users", "#10b981",
      "Skills training, STEM education, and talent pipeline development",
      "Skills gap persists in key manufacturing and tech sectors", Some([])),
    CategoryRow("techPolicy", "Technology Policy", 70.0, 1.2, "Cpu", "#3b82f6",
      "AI governance, semiconductor policy, and technology leadership",
      "CHIPS Act implementation showing early positive results", Some([])),
    CategoryRow("supplyChain", "Supply Chain Resilience", 66.0, 2.1, "Truck", "#8b5cf6",
      "Diversifying supply sources and strengthening critical supply chains",
      "Critical minerals and semiconductor supply chains strengthening", Some([]))]

  const DefaultMilestones: seq<MilestoneRow> := [
    MilestoneRow("defense-1", "defense", "5th Generation Fighter Readiness", 400.0, 285.0, "aircraft",
      "2025-12-31", "on-track", "Achieve full operational capability of 400 5th-generation fighter aircraft", false),
    MilestoneRow("manufacturing-1", "manufacturing", "Manufacturing Jobs Reshored", 500000.0, 287000.0, "jobs",
      "2025-06-30", "on-track", "Total cumulative manufacturing jobs brought back to the US", false),
    MilestoneRow("energy-1", "energy", "Renewable Energy Capacity", 300.0, 185.0, "GW",
      "2026-01-01", "on-track", "Total installed renewable energy capacity nationwide", false),
    MilestoneRow("workforce-1", "workforce", "STEM Graduates Annual", 150000.0, 120000.0, "graduates",
      "2025-05-31", "at-risk", "Annual STEM graduates from US universities", false),
    MilestoneRow("techPolicy-1", "techPolicy", "Semiconductor Fab Capacity", 25.0, 12.0, "percent",
      "2028-12-31", "on-track", "US share of global advanced semiconductor manufacturing", false),
    MilestoneRow("supplyChain-1", "supplyChain", "Critical Mineral Independence", 50.0, 28.0, "percent",
      "2027-12-31", "behind", "Percentage of critical minerals sourced domestically or from allies", false)]

  /** The initial index row, dated `now`. */
  function DefaultScore(now: string): ScoreRow {
    ScoreRow(69.2, CategoryScores(72.0, 68.0, 75.0, 64.0, 70.0, 66.0), now)
  }

  /** initializeDefaultData: the defaults are inserted only into an empty
      `categories` table. */
  function InitializeDefaultData(db: Tables, now: string): (r: Tables)
    ensures |db.categories| > 0 ==> r == db
    ensures |db.categories| == 0 ==>
      && r.categories == DefaultCategories
      && r.milestones == db.milestones + DefaultMilestones
      && r.scores == db.scores + [DefaultScore(now)]
  {
    if |db.categories| == 0 then
      Tables(db.categories + DefaultCategories, db.milestones + DefaultMilestones,
             db.scores + [DefaultScore(now)])
    else db
  }

  /** Seeding twice inserts nothing the second time, whatever its clock. */
  lemma InitializeIdempotent(db: Tables, now: string, later: string)
    ensures InitializeDefaultData(InitializeDefaultData(db, now), later) == InitializeDefaultData(db, now)
  {
    assert |DefaultCategories| == 6;
  }

  /** A freshly seeded database holds one category row per category key,
      in the order of the category list, and one milestone per category. */
  lemma SeededCategoriesAreTheSix(db: Tables, now: string)
    requires |db.categories| == 0
    ensures var r := InitializeDefaultData(db, now);
      && |r.categories| == |AllCategories|
      && forall i :: 0 <= i < |AllCategories| ==>
           r.categories[i].key == AllCategories[i].Key() && DefaultMilestones[i].categoryKey == AllCategories[i].Key()
  {
    forall i | 0 <= i < |AllCategories|
      ensures DefaultCategories[i].key == AllCategories[i].Key() && DefaultMilestones[i].categoryKey == AllCategories[i].Key()
    {
      DefaultRowOf(i);
    }
  }

  /** The i-th seeded category and milestone belong to the i-th category. */
  lemma DefaultRowOf(i: nat)
    requires i < |AllCategories|
    ensures DefaultCategories[i].key == AllCategories[i].Key() && DefaultMilestones[i].categoryKey == AllCategories[i].Key()
  {
    if i < 3 {
      assert i == 0 || i == 1 || i == 2;
    } else {
      assert i == 3 || i == 4 || i == 5;
    }
  }

  // ---------------------------------------------------------------------
  // Row mappings

  /** `s || undefined` on a nullable text column: null and "" both read as undefined. */
  function TruthyText(s: Option<string>): (r: Option<string>)
    ensures r.Some? <==> s.Some? && s.value != ""
    ensures r.Some? ==> r == s
  {
    if s.Some? && s.value != "" then s else None
  }

  /** `n || undefined` on a nullable number column: null and 0 both read as undefined. */
  function TruthyScore(n: Option<int>): (r: Option<int>)
    ensures r.Some? <==> n.Some? && n.value != 0
    ensures r.Some? ==> r == n
  {
    if n.Some? && n.value != 0 then n else None
  }

  /** The response shape of a news row (getNews, getCategoryNews). */
  function ToRssArticle(row: NewsRow): RssArticle {
    RssArticle(row.title, row.link, row.pubDate, TruthyText(row.description), row.category,
               TruthyScore(row.impactScore), TruthyText(row.aiSummary), row.processed)
  }

  /** A stored score of 0 is handed out as no score at all, exactly like a
      row that was never scored. */
  lemma ZeroScoreReadsAsUnscored(row: NewsRow)
    ensures ToRssArticle(row.(impactScore := Some(0))) == ToRssArticle(row.(impactScore := None))
    ensures ToRssArticle(row.(impactScore := Some(0))).impactScore.None?
  {
  }

  /** The response shape of a milestone row. */
  function ToMilestone(m: MilestoneRow): Milestone {
    Milestone(m.milestoneId, m.title, m.target, m.current, m.unit, m.targetDate, m.status,
              m.description, m.completed)
  }

  // ---------------------------------------------------------------------
  // getNews and getCategoryNews

  /** The articles of the rows filed under one bucket key, in row order. */
  function Bucket(rows: seq<NewsRow>, key: string): (r: seq<RssArticle>)
    ensures |r| <= |rows|
    decreases |rows|
  {
    if rows == [] then []
    else
      var last := rows[|rows| - 1];
      Bucket(rows[..|rows| - 1], key) + (if last.category == key then [ToRssArticle(last)] else [])
  }

  /** A bucket holds exactly the articles of the rows with its key: each one
      carries that key, and every such row's article is in it. */
  lemma {:induction false} BucketMembers(rows: seq<NewsRow>, key: string)
    ensures forall a :: a in Bucket(rows, key) ==> a.category == key
    ensures forall i :: 0 <= i < |rows| && rows[i].category == key ==> ToRssArticle(rows[i]) in Bucket(rows, key)
    decreases |rows|
  {
    if rows != [] {
      var init := rows[..|rows| - 1];
      BucketMembers(init, key);
      assert forall i :: 0 <= i < |init| ==> rows[i] == init[i];
    }
  }

  /** One row filed: pushed onto the bucket its category names, if any. */
  function FileRow(news: NewsResponse, row: NewsRow): NewsResponse {
    match ParseCategory(row.category)
    case Some(c) => news.With(c, news.Get(c) + [ToRssArticle(row)])
    case None => news
  }

  /** Filing the next row extends every bucket as Bucket does. */
  lemma FileRowStep(rows: seq<NewsRow>, i: nat, news: NewsResponse)
    requires i < |rows|
    requires forall c: Category :: news.Get(c) == Bucket(rows[..i], c.Key())
    ensures forall c: Category :: FileRow(news, rows[i]).Get(c) == Bucket(rows[..i + 1], c.Key())
  {
    assert rows[..i + 1][..i] == rows[..i];
    forall c: Category
      ensures FileRow(news, rows[i]).Get(c) == Bucket(rows[..i + 1], c.Key())
    {
      KeyRoundTrip(c);
    }
  }

  /** getNews: six empty buckets, then each row pushed onto the bucket named
      by its category, in query order; a row whose category is not one of
      the six keys lands in no bucket. `rows` is the query result (processed
      rows, newest first, at most 100).

      The guard is `category in newsResponse`, which also holds for the names
      the response inherits from `Object.prototype`; `.push` on what such a
      name yields is not a function, so one such row makes the call throw. */
  method GetNews(rows: seq<NewsRow>) returns (r: Result<NewsResponse, string>)
    ensures r.Err? <==> exists i :: 0 <= i < |rows| && Inherited(rows[i].category)
    ensures r.Ok? ==> forall c: Category :: r.value.Get(c) == Bucket(rows, c.Key())
  {
    var news := EmptyNews;
    for i := 0 to |rows|
      invariant forall c: Category :: news.Get(c) == Bucket(rows[..i], c.Key())
      invariant forall k :: 0 <= k < i ==> !Inherited(rows[k].category)
    {
      if Inherited(rows[i].category) {
        return Err("TypeError: push is not a function");
      }
      FileRowStep(rows, i, news);
      news := FileRow(news, rows[i]);
    }
    assert rows[..|rows|] == rows;
    return Ok(news);
  }

  /** A row whose category is no bucket key contributes to no bucket. */
  lemma {:induction false} UnknownCategoryDropped(rows: seq<NewsRow>, row: NewsRow, c: Category)
    requires ParseCategory(row.category).None?
    ensures Bucket(rows + [row], c.Key()) == Bucket(rows, c.Key())
  {
    KeyRoundTrip(c);
    assert (rows + [row])[..|rows|] == rows;
  }

  /** getCategoryNews: every row of the query result mapped, in order. */
  function GetCategoryNews(rows: seq<NewsRow>): (r: seq<RssArticle>)
    ensures |r| == |rows|
    ensures forall i :: 0 <= i < |rows| ==> r[i] == ToRssArticle(rows[i])
  {
    seq(|rows|, i requires 0 <= i < |rows| => ToRssArticle(rows[i]))
  }

  /** Both endpoints hand out a row the same way: when every row of the
      category query carries that category, the category endpoint returns
      the same articles as the news endpoint's bucket for the same rows. */
  lemma {:induction false} CategoryNewsMatchesBucket(rows: seq<NewsRow>, key: string)
    requires forall i :: 0 <= i < |rows| ==> rows[i].category == key
    ensures GetCategoryNews(rows) == Bucket(rows, key)
    decreases |rows|
  {
    if rows != [] {
      var init := rows[..|rows| - 1];
      CategoryNewsMatchesBucket(init, key);
      assert GetCategoryNews(rows) == GetCategoryNews(init) + [ToRssArticle(rows[|rows| - 1])];
    }
  }

  // ---------------------------------------------------------------------
  // getADIndexData

  /** The milestones of one category: the milestone rows with its key, in
      table order. */
  function MilestonesFor(ms: seq<MilestoneRow>, key: string): (r: seq<Milestone>)
    ensures |r| <= |ms|
    decreases |ms|
  {
    if ms == [] then []
    else
      var last := ms[|ms| - 1];
      MilestonesFor(ms[..|ms| - 1], key) + (if last.categoryKey == key then [ToMilestone(last)] else [])
  }

  /** Filtering distributes over concatenation of the table. */
  lemma {:induction false} MilestonesForAppend(a: seq<MilestoneRow>, b: seq<MilestoneRow>, key: string)
    ensures MilestonesFor(a + b, key) == MilestonesFor(a, key) + MilestonesFor(b, key)
    decreases |b|
  {
    if b != [] {
      var init := b[..|b| - 1];
      MilestonesForAppend(a, init, key);
      assert (a + b)[..|a + b| - 1] == a + init;
    } else {
      assert a + b == a;
    }
  }

  /** Each category's list is exactly its milestone rows: every listed
      milestone comes from a row with the key, and every such row is listed. */
  lemma {:induction false} MilestonesForMembers(ms: seq<MilestoneRow>, key: string)
    ensures forall m :: m in MilestonesFor(ms, key) ==>
      exists i :: 0 <= i < |ms| && ms[i].categoryKey == key && m == ToMilestone(ms[i])
    ensures forall i :: 0 <= i < |ms| && ms[i].categoryKey == key ==> ToMilestone(ms[i]) in MilestonesFor(ms, key)
    decreases |ms|
  {
    if ms != [] {
      var init := ms[..|ms| - 1];
      MilestonesForMembers(init, key);
      assert forall i :: 0 <= i < |init| ==> ms[i] == init[i];
    }
  }

  /** The details of one category row (keyMetrics falls back to []). */
  function DetailsFor(cat: CategoryRow, ms: seq<MilestoneRow>): (r: CategoryDetails)
    ensures r.milestones == MilestonesFor(ms, cat.key)
    ensures cat.keyMetrics.None? ==> r.keyMetrics == []
  {
    CategoryDetails(cat.name, cat.score, cat.change, cat.icon, cat.color, cat.description,
                    cat.currentStatus, MilestonesFor(ms, cat.key), cat.keyMetrics.GetOr([]))
  }

  /** The value stored under a key of an object built by assignments. */
  function Lookup(entries: seq<(string, CategoryDetails)>, key: string): Option<CategoryDetails>
    decreases |entries|
  {
    if entries == [] then None
    else if entries[0].0 == key then Some(entries[0].1)
    else Lookup(entries[1..], key)
  }

  /** `obj[key] = value`: an existing key keeps its place and takes the new
      value; a new key goes last. */
  function Assign(entries: seq<(string, CategoryDetails)>, key: string, value: CategoryDetails)
    : (r: seq<(string, CategoryDetails)>)
    decreases |entries|
  {
    if entries == [] then [(key, value)]
    else if entries[0].0 == key then [(key, value)] + entries[1..]
    else [entries[0]] + Assign(entries[1..], key, value)
  }

  /** After an assignment the key reads the new value and every other key
      reads what it did before. */
  lemma {:induction false} AssignLookup(entries: seq<(string, CategoryDetails)>, key: string,
                                        value: CategoryDetails, other: string)
    ensures Lookup(Assign(entries, key, value), key) == Some(value)
    ensures other != key ==> Lookup(Assign(entries, key, value), other) == Lookup(entries, other)
    decreases |entries|
  {
    if entries != [] && entries[0].0 != key {
      AssignLookup(entries[1..], key, value, other);
    }
  }

  /** The keys of the object. */
  function KeySet(entries: seq<(string, CategoryDetails)>): (r: set<string>)
    ensures forall i :: 0 <= i < |entries| ==> entries[i].0 in r
    decreases |entries|
  {
    if entries == [] then {} else {entries[0].0} + KeySet(entries[1..])
  }

  /** No key occurs twice among the entries, as in a JavaScript object. */
  predicate KeysUnique(entries: seq<(string, CategoryDetails)>)
    decreases |entries|
  {
    entries == [] || (entries[0].0 !in KeySet(entries[1..]) && KeysUnique(entries[1..]))
  }

  /** Unique keys, position by position. */
  lemma {:induction false} KeysUniquePairwise(entries: seq<(string, CategoryDetails)>)
    requires KeysUnique(entries)
    ensures forall i, j :: 0 <= i < j < |entries| ==> entries[i].0 != entries[j].0
    decreases |entries|
  {
    if entries != [] {
      var tail := entries[1..];
      KeysUniquePairwise(tail);
      forall i, j | 0 <= i < j < |entries| ensures entries[i].0 != entries[j].0 {
        assert entries[j] == tail[j - 1];
        if i > 0 {
          assert entries[i] == tail[i - 1];
        }
      }
    }
  }

  /** An assignment adds its key to the object's keys and no other. */
  lemma {:induction false} AssignKeySet(entries: seq<(string, CategoryDetails)>, key: string,
                                        value: CategoryDetails)
    ensures KeySet(Assign(entries, key, value)) == KeySet(entries) + {key}
    decreases |entries|
  {
    var r := Assign(entries, key, value);
    if entries == [] {
      assert r[1..] == [];
    } else if entries[0].0 == key {
      assert r[1..] == entries[1..];
    } else {
      AssignKeySet(entries[1..], key, value);
      assert r[1..] == Assign(entries[1..], key, value);
    }
  }

  /** An assignment never duplicates a key. */
  lemma {:induction false} AssignKeepsKeysUnique(entries: seq<(string, CategoryDetails)>, key: string,
                                                 value: CategoryDetails)
    requires KeysUnique(entries)
    ensures KeysUnique(Assign(entries, key, value))
    decreases |entries|
  {
    var r := Assign(entries, key, value);
    if entries == [] {
      assert r[1..] == [];
    } else if entries[0].0 == key {
      assert r[1..] == entries[1..];
    } else {
      AssignKeepsKeysUnique(entries[1..], key, value);
      AssignKeySet(entries[1..], key, value);
      assert r[1..] == Assign(entries[1..], key, value);
    }
  }

  /** The object the for-of loop over the category rows builds. */
  function CategoryObject(cats: seq<CategoryRow>, ms: seq<MilestoneRow>): seq<(string, CategoryDetails)>
    decreases |cats|
  {
    if cats == [] then []
    else
      var last := cats[|cats| - 1];
      Assign(CategoryObject(cats[..|cats| - 1], ms), last.key, DetailsFor(last, ms))
  }

  /** The dashboard object holds each category row's key exactly once, even
      when the rows repeat a key. */
  lemma {:induction false} CategoryObjectKeysDistinct(cats: seq<CategoryRow>, ms: seq<MilestoneRow>)
    ensures KeysUnique(CategoryObject(cats, ms))
    ensures KeySet(CategoryObject(cats, ms)) == set c | c in cats :: c.key
    decreases |cats|
  {
    if cats != [] {
      var init, last := cats[..|cats| - 1], cats[|cats| - 1];
      CategoryObjectKeysDistinct(init, ms);
      AssignKeepsKeysUnique(CategoryObject(init, ms), last.key, DetailsFor(last, ms));
      AssignKeySet(CategoryObject(init, ms), last.key, DetailsFor(last, ms));
      assert cats == init + [last];
      assert (set c | c in cats :: c.key) == (set c | c in init :: c.key) + {last.key};
    }
  }

  /** The last category row with a key, if any. */
  function LastRowWith(cats: seq<CategoryRow>, key: string): (r: Option<CategoryRow>)
    ensures r.Some? ==> r.value in cats && r.value.key == key
    ensures r.Some? ==>
      exists i :: 0 <= i < |cats| && cats[i] == r.value && forall j :: i < j < |cats| ==> cats[j].key != key
    ensures r.None? ==> forall c :: c in cats ==> c.key != key
    decreases |cats|
  {
    if cats == [] then None
    else if cats[|cats| - 1].key == key then Some(cats[|cats| - 1])
    else LastRowWith(cats[..|cats| - 1], key)
  }

  /** A key of the built object holds the details of the last row with that
      key; a key no row has is absent. */
  lemma {:induction false} CategoryObjectLookup(cats: seq<CategoryRow>, ms: seq<MilestoneRow>, key: string)
    ensures Lookup(CategoryObject(cats, ms), key) ==
      match LastRowWith(cats, key)
      case None => None
      case Some(c) => Some(DetailsFor(c, ms))
    decreases |cats|
  {
    if cats != [] {
      var last := cats[|cats| - 1];
      CategoryObjectLookup(cats[..|cats| - 1], ms, key);
      AssignLookup(CategoryObject(cats[..|cats| - 1], ms), last.key, DetailsFor(last, ms), key);
    }
  }

  /** The loop of getADIndexData that fills `categoryDetails`. */
  method BuildCategoryDetails(cats: seq<CategoryRow>, ms: seq<MilestoneRow>)
    returns (details: seq<(string, CategoryDetails)>)
    ensures details == CategoryObject(cats, ms)
  {
    details := [];
    for i := 0 to |cats|
      invariant details == CategoryObject(cats[..i], ms)
    {
      assert cats[..i + 1][..i] == cats[..i];
      details := Assign(details, cats[i].key, DetailsFor(cats[i], ms));
    }
    assert cats[..|cats|] == cats;
  }

  /** `impact_score: impactScore || 0`. */
  function NewsItemOf(row: NewsRow): (r: NewsItem)
    ensures r.impactScore == 0 <==> row.impactScore.None? || row.impactScore == Some(0)
    ensures row.impactScore.Some? ==> r.impactScore == row.impactScore.value
  {
    NewsItem(row.category, row.title, row.impactScore.GetOr(0), row.link, row.description, row.createdAt)
  }

  /** `iso.split('T')[0]`: the text before the first 'T'. */
  function DatePart(iso: string): (r: string)
    ensures IsPrefix(r, iso)
    ensures 'T' !in r
    ensures r == iso || (|r| < |iso| && iso[|r|] == 'T')
  {
    match FirstIndex(iso, "T")
    case None =>
      assert forall j :: 0 <= j < |iso| ==> iso[j] != 'T' by {
        forall j | 0 <= j < |iso| ensures iso[j] != 'T' {
          assert iso[j..][..1] == [iso[j]];
          assert !IsPrefix("T", iso[j..]);
        }
      }
      iso
    case Some(i) =>
      assert iso[i..i + 1] == "T";
      assert iso[i] == 'T';
      assert forall j :: 0 <= j < i ==> iso[j] != 'T' by {
        forall j | 0 <= j < i ensures iso[j] != 'T' {
          assert iso[j..][..1] == [iso[j]];
          assert !IsPrefix("T", iso[j..]);
        }
      }
      iso[..i]
  }

  /** The day label of the i-th trend point (0-based). */
  function DayLabel(i: nat): string {
    "D" + NatToString(i + 1)
  }

  /** Day labels are distinct, and each reads back as its 1-based position. */
  lemma DayLabelsDistinct(i: nat, j: nat)
    ensures ParseDigits(DayLabel(i)[1..]) == i + 1
    ensures i != j ==> DayLabel(i) != DayLabel(j)
  {
    assert DayLabel(i)[1..] == NatToString(i + 1);
    NatToStringRoundTrip(i + 1);
    if DayLabel(i) == DayLabel(j) {
      assert DayLabel(j)[1..] == NatToString(j + 1);
      NatToStringInjective(i + 1, j + 1);
    }
  }

  /** trendData: one point per score row of the trend query (ascending by
      date), labelled D1..Dn in that order. */
  function TrendData(rows: seq<ScoreRow>): (r: seq<TrendPoint>)
    ensures |r| == |rows|
    ensures forall i :: 0 <= i < |rows| ==>
      r[i].day == DayLabel(i) && r[i].score == rows[i].overallScore && r[i].date == DatePart(rows[i].date)
  {
    seq(|rows|, i requires 0 <= i < |rows| => TrendPoint(DayLabel(i), rows[i].overallScore, DatePart(rows[i].date)))
  }

  /** getADIndexData after seeding: `latest` is the newest score row (if
      any), `cats` and `ms` the two tables, `recent` the news query (processed,
      newest first, at most 20) and `trend` the score rows of the last 30 days
      in ascending date order. No score row is an error. */
  method GetADIndexData(latest: Option<ScoreRow>, cats: seq<CategoryRow>, ms: seq<MilestoneRow>,
                        recent: seq<NewsRow>, trend: seq<ScoreRow>)
    returns (r: Result<ADIndexData, string>)
    ensures latest.None? <==> r.Err?
    ensures r.Err? ==> r.error == "No AD Index data found"
    ensures r.Ok? ==>
      && r.value.adIndex == latest.value.overallScore
      && r.value.categories == latest.value.scores
      && r.value.categoryDetails == CategoryObject(cats, ms)
      && |r.value.news| == |recent|
      && (forall i :: 0 <= i < |recent| ==> r.value.news[i] == NewsItemOf(recent[i]))
      && r.value.trendData == TrendData(trend)
  {
    if latest.None? {
      return Err("No AD Index data found");
    }
    var details := BuildCategoryDetails(cats, ms);
    var news := seq(|recent|, i requires 0 <= i < |recent| => NewsItemOf(recent[i]));
    r := Ok(ADIndexData(latest.value.overallScore, latest.value.scores, details, news, TrendData(trend)));
  }

  // ---------------------------------------------------------------------
  // getCategoryDetails

  /** `where key = categoryKey limit 1`: the first row with the key. */
  function FirstRowWith(cats: seq<CategoryRow>, key: string): (r: Option<CategoryRow>)
    ensures r.Some? ==> r.value in cats && r.value.key == key
    ensures r.Some? ==>
      exists i :: 0 <= i < |cats| && cats[i] == r.value && forall j :: 0 <= j < i ==> cats[j].key != key
    ensures r.None? ==> forall c :: c in cats ==> c.key != key
    decreases |cats|
  {
    if cats == [] then None
    else if cats[0].key == key then Some(cats[0])
    else FirstRowWith(cats[1..], key)
  }

  /** getCategoryDetails: null when no category row has the key; otherwise
      the details of that row with the milestone rows carrying the key. */
  function GetCategoryDetails(cats: seq<CategoryRow>, ms: seq<MilestoneRow>, key: string)
    : (r: Option<CategoryDetails>)
    ensures r.None? <==> forall c :: c in cats ==> c.key != key
    ensures r.Some? ==> r.value.milestones == MilestonesFor(ms, key)
  {
    match FirstRowWith(cats, key)
    case None => None
    case Some(c) => Some(DetailsFor(c, ms))
  }

  /** Keys of the category table are unique (a column constraint). */
  predicate UniqueKeys(cats: seq<CategoryRow>) {
    forall i, j :: 0 <= i < j < |cats| ==> cats[i].key != cats[j].key
  }

  /** With unique keys the first and the last row with a key are the same row. */
  lemma {:induction false} FirstIsLast(cats: seq<CategoryRow>, key: string)
    requires UniqueKeys(cats)
    ensures FirstRowWith(cats, key) == LastRowWith(cats, key)
    decreases |cats|
  {
    if cats != [] {
      var init := cats[..|cats| - 1];
      assert UniqueKeys(cats[1..]);
      assert UniqueKeys(init);
      FirstIsLast(cats[1..], key);
      FirstIsLast(init, key);
      if cats[0].key == key && |cats| > 1 {
        assert cats[|cats| - 1].key != key;
        assert init[0] == cats[0];
      }
      if cats[0].key != key && cats[|cats| - 1].key == key {
        if |cats| > 1 {
          FirstIsLastTail(cats, key);
        }
      }
    }
  }

  /** A key held only by the last row is found first at the end. */
  lemma {:induction false} FirstIsLastTail(cats: seq<CategoryRow>, key: string)
    requires UniqueKeys(cats) && |cats| > 0 && cats[|cats| - 1].key == key
    ensures FirstRowWith(cats, key) == Some(cats[|cats| - 1])
    decreases |cats|
  {
    if |cats| > 1 {
      assert cats[0].key != key;
      assert UniqueKeys(cats[1..]);
      FirstIsLastTail(cats[1..], key);
    }
  }

  /** The category endpoint and the dashboard agree: for a table with unique
      keys, getCategoryDetails(key) is the entry the dashboard lists under
      that key. */
  lemma CategoryDetailsMatchDashboard(cats: seq<CategoryRow>, ms: seq<MilestoneRow>, key: string)
    requires UniqueKeys(cats)
    ensures GetCategoryDetails(cats, ms, key) == Lookup(CategoryObject(cats, ms), key)
  {
    FirstIsLast(cats, key);
    CategoryObjectLookup(cats, ms, key);
  }

  // ---------------------------------------------------------------------
  // replaceMilestones

  /** A milestone as the replacement receives it; `completed` may be missing. */
  datatype NewMilestone = NewMilestone(
    id: string,
    title: string,
    target: real,
    current: real,
    unit: string,
    targetDate: string,
    status: string,
    description: string,
    completed: Option<bool>)

  /** The row inserted for a new milestone of a category (`completed || false`). */
  function NewRow(key: string, m: NewMilestone): (r: MilestoneRow)
    ensures r.categoryKey == key
    ensures r.completed <==> m.completed == Some(true)
  {
    MilestoneRow(m.id, key, m.title, m.target, m.current, m.unit, m.targetDate, m.status,
                 m.description, m.completed.GetOr(false))
  }

  /** The rows of the other categories, in table order. */
  function WithoutCategory(ms: seq<MilestoneRow>, key: string): (r: seq<MilestoneRow>)
    ensures forall m :: m in r <==> m in ms && m.categoryKey != key
    decreases |ms|
  {
    if ms == [] then []
    else
      var last := ms[|ms| - 1];
      WithoutCategory(ms[..|ms| - 1], key) + (if last.categoryKey != key then [last] else [])
  }

  /** replaceMilestones: delete the category's rows, then insert the new ones. */
  function ReplaceMilestones(ms: seq<MilestoneRow>, key: string, added: seq<NewMilestone>)
    : (r: seq<MilestoneRow>)
    ensures |r| == |WithoutCategory(ms, key)| + |added|
  {
    WithoutCategory(ms, key) + seq(|added|, i requires 0 <= i < |added| => NewRow(key, added[i]))
  }

  /** Removing a category's rows leaves it no milestones and leaves every
      other category's list as it was. */
  lemma {:induction false} WithoutCategoryMilestones(ms: seq<MilestoneRow>, key: string, other: string)
    ensures MilestonesFor(WithoutCategory(ms, key), key) == []
    ensures other != key ==> MilestonesFor(WithoutCategory(ms, key), other) == MilestonesFor(ms, other)
    decreases |ms|
  {
    if ms != [] {
      var init, last := ms[..|ms| - 1], ms[|ms| - 1];
      WithoutCategoryMilestones(init, key, other);
      var kept := if last.categoryKey != key then [last] else [];
      MilestonesForAppend(WithoutCategory(init, key), kept, key);
      MilestonesForAppend(WithoutCategory(init, key), kept, other);
    }
  }

  /** The inserted rows all carry the key, so they are listed under it in order. */
  lemma {:induction false} NewRowsMilestones(key: string, added: seq<NewMilestone>, other: string)
    ensures var rows := seq(|added|, i requires 0 <= i < |added| => NewRow(key, added[i]));
      && MilestonesFor(rows, key) == seq(|added|, i requires 0 <= i < |added| => ToMilestone(NewRow(key, added[i])))
      && (other != key ==> MilestonesFor(rows, other) == [])
    decreases |added|
  {
    if added != [] {
      var init := added[..|added| - 1];
      NewRowsMilestones(key, init, other);
      var rows := seq(|added|, i requires 0 <= i < |added| => NewRow(key, added[i]));
      assert rows[..|rows| - 1] == seq(|init|, i requires 0 <= i < |init| => NewRow(key, init[i]));
    }
  }

  /** After a replacement the category lists exactly the new milestones, in
      the order given, and every other category's milestones are unchanged. */
  lemma ReplaceMilestonesEffect(ms: seq<MilestoneRow>, key: string, added: seq<NewMilestone>, other: string)
    ensures MilestonesFor(ReplaceMilestones(ms, key, added), key)
      == seq(|added|, i requires 0 <= i < |added| => ToMilestone(NewRow(key, added[i])))
    ensures other != key ==> MilestonesFor(ReplaceMilestones(ms, key, added), other) == MilestonesFor(ms, other)
  {
    var rows := seq(|added|, i requires 0 <= i < |added| => NewRow(key, added[i]));
    MilestonesForAppend(WithoutCategory(ms, key), rows, key);
    MilestonesForAppend(WithoutCategory(ms, key), rows, other);
    WithoutCategoryMilestones(ms, key, other);
    NewRowsMilestones(key, added, other);
  }
}
