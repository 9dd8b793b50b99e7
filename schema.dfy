/** The shapes shared between the server and the client: the six fixed
    categories, the article record the feed pipeline and the news endpoints
    hand out, and the news response with one bucket per category. */
module Schema {
  import opened Common

  /** The six policy/economic categories. */
  datatype Category = Defense | Manufacturing | Energy | Workforce | TechPolicy | SupplyChain {
    /** The key under which the category appears in feeds, caches and responses. */
    function Key(): string {
      match this
      case Defense => "defense"
      case Manufacturing => "manufacturing"
      case Energy => "energy"
      case Workforce => "workforce"
      case TechPolicy => "techPolicy"
      case SupplyChain => "supplyChain"
    }
  }

  /** The keys in the order the response object and the cache declare them. */
  const AllCategories: seq<Category> :=
    [Defense, Manufacturing, Energy, Workforce, TechPolicy, SupplyChain]

  /** Looks a string key up among the six categories. */
  function ParseCategory(key: string): (r: Option<Category>)
    ensures r.Some? ==> r.value.Key() == key
  {
    if key == "defense" then Some(Defense)
    else if key == "manufacturing" then Some(Manufacturing)
    else if key == "energy" then Some(Energy)
    else if key == "workforce" then Some(Workforce)
    else if key == "techPolicy" then Some(TechPolicy)
    else if key == "supplyChain" then Some(SupplyChain)
    else None
  }

  /** Every category's key parses back to it, and every category is in the list. */
  lemma KeyRoundTrip(c: Category)
    ensures ParseCategory(c.Key()) == Some(c)
    ensures c in AllCategories
  {
  }

  /** A string is a category key exactly when it parses. */
  lemma ParseIffKey(key: string)
    ensures ParseCategory(key).Some? <==> exists c :: c in AllCategories && c.Key() == key
  {
    if ParseCategory(key).Some? {
      assert ParseCategory(key).value in AllCategories;
    }
  }

  /** An article as the pipeline and the news endpoints hand it out
      (`RSSArticle`): description, score and summary may be undefined. */
  datatype RssArticle = RssArticle(
    title: string,
    link: string,
    pubDate: string,
    description: Option<string>,
    category: string,
    impactScore: Option<int>,
    aiSummary: Option<string>,
    processed: bool)

  /** The news response: one bucket of articles per category key. */
  datatype NewsResponse = NewsResponse(
    defense: seq<RssArticle>,
    manufacturing: seq<RssArticle>,
    energy: seq<RssArticle>,
    workforce: seq<RssArticle>,
    techPolicy: seq<RssArticle>,
    supplyChain: seq<RssArticle>)
  {
    function Get(c: Category): seq<RssArticle> {
      match c
      case Defense => defense
      case Manufacturing => manufacturing
      case Energy => energy
      case Workforce => workforce
      case TechPolicy => techPolicy
      case SupplyChain => supplyChain
    }

    function With(c: Category, articles: seq<RssArticle>): (r: NewsResponse)
      ensures r.Get(c) == articles
      ensures forall d :: d != c ==> r.Get(d) == Get(d)
    {
      match c
      case Defense => this.(defense := articles)
      case Manufacturing => this.(manufacturing := articles)
      case Energy => this.(energy := articles)
      case Workforce => this.(workforce := articles)
      case TechPolicy => this.(techPolicy := articles)
      case SupplyChain => this.(supplyChain := articles)
    }
  }

  const EmptyNews: NewsResponse := NewsResponse([], [], [], [], [], [])

  /** A milestone as the dashboard data carries it. The status is the stored
      text, which the source casts to its four-value union without checking. */
  datatype Milestone = Milestone(
    id: string,
    title: string,
    target: real,
    current: real,
    unit: string,
    targetDate: string,
    status: string,
    description: string,
    completed: bool)

  datatype KeyMetric = KeyMetric(labelText: string, value: string, trend: string)

  /** The details of one category (`CategoryDetails`). */
  datatype CategoryDetails = CategoryDetails(
    name: string,
    score: real,
    change: real,
    icon: string,
    color: string,
    description: string,
    currentStatus: string,
    milestones: seq<Milestone>,
    keyMetrics: seq<KeyMetric>)

  /** One entry of the dashboard's recent news. */
  datatype NewsItem = NewsItem(
    category: string,
    title: string,
    impactScore: int,
    link: string,
    description: Option<string>,
    timestamp: string)

  datatype TrendPoint = TrendPoint(day: string, score: real, date: string)

  /** The per-category scores of one index row. */
  datatype CategoryScores = CategoryScores(
    defense: real, manufacturing: real, energy: real,
    workforce: real, techPolicy: real, supplyChain: real)

  /** The dashboard payload (`ADIndexData`). `categoryDetails` lists the
      entries in the order the object receives its keys. */
  datatype ADIndexData = ADIndexData(
    adIndex: real,
    categories: CategoryScores,
    categoryDetails: seq<(string, CategoryDetails)>,
    news: seq<NewsItem>,
    trendData: seq<TrendPoint>)
}
