/** The labels of a news card (client/src/components/NewsCard.tsx): the
    impact level, the score badge, the styling by sentiment, and the
    category label and colour with their fallbacks. Scores are whole
    numbers, as the scorer produces them. */
module NewsCard {
  import opened Common
  import opened Schema

  datatype ImpactLevel = High | Medium | Low

  function Abs(n: int): nat {
    if n < 0 then -n else n
  }

  /** `impactLevel`: four or more either way is high, two or more medium. */
  function ImpactLevelOf(score: int): (r: ImpactLevel)
    ensures r == High <==> Abs(score) >= 4
    ensures r == Medium <==> 2 <= Abs(score) < 4
  {
    if Abs(score) >= 4 then High else if Abs(score) >= 2 then Medium else Low
  }

  /** The level ignores the sign and never drops as the magnitude grows. */
  lemma ImpactLevelSymmetricMonotone(a: int, b: int)
    ensures ImpactLevelOf(-a) == ImpactLevelOf(a)
    ensures Abs(a) <= Abs(b) && ImpactLevelOf(a) == High ==> ImpactLevelOf(b) == High
    ensures Abs(a) <= Abs(b) && ImpactLevelOf(a) == Medium ==> ImpactLevelOf(b) != Low
  {
  }

  /** The badge: "0" for zero, a plus sign before a positive score, and the
      number as JavaScript prints it (with its minus) otherwise. */
  function BadgeText(score: int): (r: string)
    ensures r != []
  {
    if score == 0 then "0" else (if score > 0 then "+" else "") + IntToString(score)
  }

  /** The badge's first character gives the sign, and different scores get
      different badges. */
  lemma BadgeTextFaithful(a: int, b: int)
    ensures BadgeText(a)[0] == '+' <==> a > 0
    ensures BadgeText(a)[0] == '-' <==> a < 0
    ensures BadgeText(a) == BadgeText(b) <==> a == b
  {
    IntToStringDigits(a);
    IntToStringDigits(b);
    if BadgeText(a) == BadgeText(b) {
      assert BadgeText(a)[0] == BadgeText(b)[0];
      if a == 0 || b == 0 {
        if a != 0 {
          NumberThenText(a, 0, "", "");
        } else if b != 0 {
          NumberThenText(0, b, "", "");
        }
      } else if a > 0 {
        assert IntToString(a) + "" == BadgeText(a)[1..] == BadgeText(b)[1..] == IntToString(b) + "";
        NumberThenText(a, b, "", "");
      } else {
        assert b < 0;
        assert BadgeText(a) == IntToString(a) + "" && BadgeText(b) == IntToString(b) + "";
        NumberThenText(a, b, "", "");
      }
    }
  }

  datatype Sentiment = Positive | Negative | Neutral

  function SentimentOf(score: int): (r: Sentiment)
    ensures r == Positive <==> score > 0
    ensures r == Negative <==> score < 0
  {
    if score > 0 then Positive else if score < 0 then Negative else Neutral
  }

  /** Everything the card styles by the score's sign. */
  datatype Styling = Styling(icon: string, border: string, badge: string, levelText: string)

  const PositiveBadge := "bg-success"
  const NegativeBadge := "bg-danger"
  const NeutralBadge := "bg-gray-500"

  /** `getSentimentIcon`, `getSentimentBorder` and the two ternaries for the
      badge and the level text, for one sentiment. */
  function StyleFor(s: Sentiment): Styling {
    match s
    case Positive => Styling("TrendingUp text-green-600",
                             "border-l-4 border-green-500 bg-green-50/30 dark:bg-green-950/20",
                             PositiveBadge, "text-success")
    case Negative => Styling("TrendingDown text-red-600",
                             "border-l-4 border-red-500 bg-red-50/30 dark:bg-red-950/20",
                             NegativeBadge, "text-danger")
    case Neutral => Styling("Minus text-gray-600",
                            "border-l-4 border-gray-500 bg-gray-50/30 dark:bg-gray-950/20",
                            NeutralBadge, "text-gray-600")
  }

  /** The styling of a card with the given score. */
  function StylingOf(score: int): Styling {
    StyleFor(SentimentOf(score))
  }

  /** The three sentiments look different: their badges differ in the
      fourth character. */
  lemma StyleForInjective(s: Sentiment, t: Sentiment)
    ensures StyleFor(s) == StyleFor(t) <==> s == t
  {
    assert PositiveBadge[3] == 's' && NegativeBadge[3] == 'd' && NeutralBadge[3] == 'g';
  }

  /** The styling depends on the sign alone, and the three signs look
      different. */
  lemma StylingBySign(a: int, b: int)
    ensures StylingOf(a) == StylingOf(b) <==> SentimentOf(a) == SentimentOf(b)
  {
    StyleForInjective(SentimentOf(a), SentimentOf(b));
  }

  const CategoryColors: map<string, string> := map[
    "defense" := "bg-blue-100 text-blue-600",
    "manufacturing" := "bg-orange-100 text-orange-600",
    "energy" := "bg-green-100 text-green-600",
    "workforce" := "bg-purple-100 text-purple-600",
    "techPolicy" := "bg-indigo-100 text-indigo-600",
    "supplyChain" := "bg-red-100 text-red-600"]

  const CategoryLabels: map<string, string> := map[
    "defense" := "Defense",
    "manufacturing" := "Manufacturing",
    "energy" := "Energy",
    "workforce" := "Workforce",
    "techPolicy" := "Tech Policy",
    "supplyChain" := "Supply Chain"]

  const FallbackColor := "bg-gray-100 text-gray-600"

  /** `categoryColors[category] || grey`. */
  function CategoryColor(category: string): string {
    if category in CategoryColors then CategoryColors[category] else FallbackColor
  }

  /** `categoryLabels[category] || category`. */
  function CategoryLabel(category: string): string {
    if category in CategoryLabels then CategoryLabels[category] else category
  }

  /** The tables cover exactly the six category keys: a category's own key
      gets its own colour (no two alike, none grey), and any other string
      is shown as itself in grey. */
  lemma CategoryFallbacks(key: string, c: Category, d: Category)
    ensures CategoryColor(c.Key()) != FallbackColor
    ensures c != d ==> CategoryColor(c.Key()) != CategoryColor(d.Key())
    ensures ParseCategory(key).None? ==> CategoryLabel(key) == key && CategoryColor(key) == FallbackColor
  {
    if ParseCategory(key).None? {
      ParseIffKey(key);
      assert forall c: Category :: c.Key() != key by {
        forall c: Category ensures c.Key() != key {
          KeyRoundTrip(c);
        }
      }
      assert key !in CategoryColors && key !in CategoryLabels by {
        assert Defense.Key() != key && Manufacturing.Key() != key && Energy.Key() != key;
        assert Workforce.Key() != key && TechPolicy.Key() != key && SupplyChain.Key() != key;
      }
    }
  }
}
