/** The keyword heuristic that stands in for the language model when a
    scoring call fails (generateBasicScore in server/rssService.ts). */
module KeywordScoring {
  import opened Common

  datatype KeywordTable = KeywordTable(positive: seq<string>, negative: seq<string>)

  /** The fixed per-category keyword lists; any other category has none. */
  function KeywordsFor(category: string): Option<KeywordTable> {
    if category == "defense" then Some(KeywordTable(
      ["contract", "investment", "innovation", "breakthrough", "success", "award", "modernization", "capability"],
      ["delay", "budget cut", "failure", "setback", "scandal", "violation", "loss"]))
    else if category == "manufacturing" then Some(KeywordTable(
      ["reshoring", "factory", "production", "jobs", "investment", "expansion", "growth", "domestic"],
      ["layoffs", "closure", "offshoring", "decline", "shortage", "disruption"]))
    else if category == "energy" then Some(KeywordTable(
      ["renewable", "clean", "efficiency", "breakthrough", "investment", "capacity", "grid"],
      ["outage", "shortage", "price spike", "emissions", "accident", "delay"]))
    else if category == "workforce" then Some(KeywordTable(
      ["training", "skills", "employment", "wages", "certification", "education", "hiring"],
      ["unemployment", "layoffs", "shortage", "decline", "automation", "displacement"]))
    else if category == "techPolicy" then Some(KeywordTable(
      ["innovation", "funding", "breakthrough", "leadership", "competitiveness", "research"],
      ["regulation", "restriction", "ban", "lag", "dependence", "vulnerability"]))
    else if category == "supplyChain" then Some(KeywordTable(
      ["resilience", "domestic", "diversification", "investment", "capacity", "security"],
      ["disruption", "shortage", "delay", "bottleneck", "dependency", "vulnerability"]))
    else None
  }

  /** The text searched: lower-cased title, a space, lower-cased description. */
  function SearchText(title: string, description: string): string {
    ToLower(title) + " " + ToLower(description)
  }

  /** How many of the keywords occur in the text (each list entry once). */
  function Hits(text: string, keywords: seq<string>): (n: nat)
    ensures n <= |keywords|
    decreases |keywords|
  {
    if keywords == [] then 0
    else Hits(text, keywords[..|keywords| - 1]) + (if Contains(text, keywords[|keywords| - 1]) then 1 else 0)
  }

  /** The heuristic score: positive hits minus negative hits, clamped to
      [-5, 5]; 0 for a category without a keyword table. */
  function BasicScore(title: string, description: string, category: string): (r: int)
    ensures -5 <= r <= 5
    ensures KeywordsFor(category).None? ==> r == 0
  {
    match KeywordsFor(category)
    case None => 0
    case Some(table) =>
      var text := SearchText(title, description);
      Clamp(Hits(text, table.positive) - Hits(text, table.negative), -5, 5)
  }

  /** One forEach pass over a keyword list, counting the keywords found. */
  method CountHits(text: string, keywords: seq<string>) returns (n: nat)
    ensures n == Hits(text, keywords)
  {
    n := 0;
    var i := 0;
    while i < |keywords|
      invariant 0 <= i <= |keywords|
      invariant n == Hits(text, keywords[..i])
    {
      assert keywords[..i + 1][..i] == keywords[..i];
      if Contains(text, keywords[i]) {
        n := n + 1;
      }
      i := i + 1;
    }
    assert keywords[..|keywords|] == keywords;
  }

  /** generateBasicScore: +1 per positive keyword found, -1 per negative one,
      clamped to [-5, 5]. */
  method GenerateBasicScore(title: string, description: string, category: string) returns (score: int)
    ensures score == BasicScore(title, description, category)
  {
    var table := KeywordsFor(category);
    if table.None? {
      return 0;
    }
    var text := ToLower(title) + " " + ToLower(description);
    var up := CountHits(text, table.value.positive);
    var down := CountHits(text, table.value.negative);
    score := Clamp(up as int - down as int, -5, 5);
  }

  /** The keywords of the list that occur in the text. */
  function Found(text: string, keywords: seq<string>): set<string> {
    set k | k in keywords && Contains(text, k)
  }

  /** With a duplicate-free list, Hits is the number of distinct keywords
      found: a keyword repeated in the text still counts once. */
  lemma {:induction false} HitsCountsDistinctKeywords(text: string, keywords: seq<string>)
    requires NoDuplicates(keywords)
    ensures Hits(text, keywords) == |Found(text, keywords)|
    decreases |keywords|
  {
    if keywords != [] {
      var init, last := keywords[..|keywords| - 1], keywords[|keywords| - 1];
      HitsCountsDistinctKeywords(text, init);
      var before, after := Found(text, init), Found(text, keywords);
      assert keywords == init + [last];
      assert last !in init;
      assert forall k :: k in keywords <==> k in init || k == last;
      if Contains(text, last) {
        assert after == before + {last} by {
          forall k ensures k in after <==> k in before + {last} {
          }
        }
        assert last !in before;
        assert |before + {last}| == |before| + 1;
        assert Hits(text, keywords) == Hits(text, init) + 1;
      } else {
        assert after == before by {
          forall k ensures k in after <==> k in before {
          }
        }
      }
    }
  }

  lemma DefenseKeywordsDistinct()
    ensures NoDuplicates(KeywordsFor("defense").value.positive)
    ensures NoDuplicates(KeywordsFor("defense").value.negative)
  {
  }

  lemma ManufacturingKeywordsDistinct()
    ensures NoDuplicates(KeywordsFor("manufacturing").value.positive)
    ensures NoDuplicates(KeywordsFor("manufacturing").value.negative)
  {
  }

  lemma EnergyKeywordsDistinct()
    ensures NoDuplicates(KeywordsFor("energy").value.positive)
    ensures NoDuplicates(KeywordsFor("energy").value.negative)
  {
  }

  lemma WorkforceKeywordsDistinct()
    ensures NoDuplicates(KeywordsFor("workforce").value.positive)
    ensures NoDuplicates(KeywordsFor("workforce").value.negative)
  {
  }

  lemma TechPolicyKeywordsDistinct()
    ensures NoDuplicates(KeywordsFor("techPolicy").value.positive)
    ensures NoDuplicates(KeywordsFor("techPolicy").value.negative)
  {
  }

  lemma SupplyChainKeywordsDistinct()
    ensures NoDuplicates(KeywordsFor("supplyChain").value.positive)
    ensures NoDuplicates(KeywordsFor("supplyChain").value.negative)
  {
  }

  /** None of the keyword lists holds a duplicate, so for every category the
      heuristic counts distinct keywords found. */
  lemma KeywordTablesDistinct(category: string)
    requires KeywordsFor(category).Some?
    ensures NoDuplicates(KeywordsFor(category).value.positive)
    ensures NoDuplicates(KeywordsFor(category).value.negative)
  {
    if category == "defense" {
      DefenseKeywordsDistinct();
    }
    else if category == "manufacturing" {
      ManufacturingKeywordsDistinct();
    }
    else if category == "energy" {
      EnergyKeywordsDistinct();
    }
    else if category == "workforce" {
      WorkforceKeywordsDistinct();
    }
    else if category == "techPolicy" {
      TechPolicyKeywordsDistinct();
    }
    else if category == "supplyChain" {
      SupplyChainKeywordsDistinct();
    }
  }

  /** For every category with a keyword table, the heuristic score is the
      number of distinct positive keywords found minus the number of
      distinct negative keywords found, clamped to [-5, 5]. */
  lemma BasicScoreCountsDistinct(title: string, description: string, category: string)
    requires KeywordsFor(category).Some?
    ensures var text, table := SearchText(title, description), KeywordsFor(category).value;
      BasicScore(title, description, category)
        == Clamp(|Found(text, table.positive)| - |Found(text, table.negative)|, -5, 5)
  {
    var text, table := SearchText(title, description), KeywordsFor(category).value;
    KeywordTablesDistinct(category);
    HitsCountsDistinctKeywords(text, table.positive);
    HitsCountsDistinctKeywords(text, table.negative);
  }

  /** A keyword holding a character the text lacks cannot occur in it. */
  lemma AbsentCharNotContained(s: string, k: string, c: char)
    requires c in k && c !in s
    ensures !Contains(s, k)
  {
    var j :| 0 <= j < |k| && k[j] == c;
    forall i | 0 <= i && i + |k| <= |s|
      ensures !OccursAt(s, k, i)
    {
      assert s[i..i + |k|][j] == s[i + j];
    }
    ContainsIffOccurs(s, k);
  }

  const ExampleHeadline := "Major " + "contract " + "awarded " + "for " + "defense " + "modernization"
  const ExampleText := "major " + "contract " + "awarded " + "for " + "defense " + "modernization "

  lemma ExampleSearchText()
    ensures SearchText(ExampleHeadline, "") == ExampleText
  {
    LowerConcat("Major " + "contract " + "awarded " + "for " + "defense ", "modernization");
    LowerConcat("Major " + "contract " + "awarded " + "for ", "defense ");
    LowerConcat("Major " + "contract " + "awarded ", "for ");
    LowerConcat("Major " + "contract ", "awarded ");
    LowerConcat("Major ", "contract ");
    LowerWords();
  }

  lemma LowerWords()
    ensures ToLower("Major ") == "major "
    ensures ToLower("contract ") == "contract "
    ensures ToLower("awarded ") == "awarded "
    ensures ToLower("for ") == "for "
    ensures ToLower("defense ") == "defense "
    ensures ToLower("modernization") == "modernization"
    ensures ToLower("") == ""
  {
  }

  /** Counting one more keyword of a list. */
  lemma HitsPrefix(text: string, keywords: seq<string>, i: nat)
    requires i < |keywords|
    ensures Hits(text, keywords[..i + 1])
      == Hits(text, keywords[..i]) + (if Contains(text, keywords[i]) then 1 else 0)
  {
    assert keywords[..i + 1][..i] == keywords[..i];
  }

  /** The example text contains "contract", "award" and "modernization". */
  lemma ExampleTextHas()
    ensures Contains(ExampleText, "contract")
    ensures Contains(ExampleText, "award")
    ensures Contains(ExampleText, "modernization")
  {
    var w0, w1, w2 := "major ", "contract ", "awarded ";
    var w3, w4, w5 := "for ", "defense ", "modernization ";
    assert IsPrefix("contract", w1) && IsPrefix("award", w2) && IsPrefix("modernization", w5);
    ContainsInRight(w0, w1, "contract");
    ContainsInLeft(w0 + w1, w2, "contract");
    ContainsInLeft(w0 + w1 + w2, w3, "contract");
    ContainsInLeft(w0 + w1 + w2 + w3, w4, "contract");
    ContainsInLeft(w0 + w1 + w2 + w3 + w4, w5, "contract");
    ContainsInRight(w0 + w1, w2, "award");
    ContainsInLeft(w0 + w1 + w2, w3, "award");
    ContainsInLeft(w0 + w1 + w2 + w3, w4, "award");
    ContainsInLeft(w0 + w1 + w2 + w3 + w4, w5, "award");
    ContainsInRight(w0 + w1 + w2 + w3 + w4, w5, "modernization");
  }

  /** Letters the example text lacks. */
  lemma ExampleTextLacks(c: char)
    requires c == 'v' || c == 'b' || c == 'u' || c == 'p' || c == 'l'
    ensures c !in ExampleText
  {
  }

  /** Counting the first four defense positives. */
  lemma DefensePositiveCountHalf(text: string)
    requires Contains(text, "contract") && !Contains(text, "investment")
    requires !Contains(text, "innovation") && !Contains(text, "breakthrough")
    ensures Hits(text, KeywordsFor("defense").value.positive[..4]) == 1
  {
    var pos := KeywordsFor("defense").value.positive;
    HitsPrefix(text, pos, 0);
    HitsPrefix(text, pos, 1);
    HitsPrefix(text, pos, 2);
    HitsPrefix(text, pos, 3);
    assert pos[..0] == [];
  }

  /** Counting the last four defense positives on top of the first four. */
  lemma DefensePositiveCountRest(text: string)
    requires Hits(text, KeywordsFor("defense").value.positive[..4]) == 1
    requires !Contains(text, "success") && Contains(text, "award")
    requires Contains(text, "modernization") && !Contains(text, "capability")
    ensures Hits(text, KeywordsFor("defense").value.positive) == 3
  {
    var pos := KeywordsFor("defense").value.positive;
    HitsPrefix(text, pos, 4);
    HitsPrefix(text, pos, 5);
    HitsPrefix(text, pos, 6);
    HitsPrefix(text, pos, 7);
    assert pos[..8] == pos;
  }

  /** A text containing none of the defense negatives has no negative hit. */
  lemma DefenseNegativeCount(text: string)
    requires !Contains(text, "delay") && !Contains(text, "budget cut") && !Contains(text, "failure")
    requires !Contains(text, "setback") && !Contains(text, "scandal")
    requires !Contains(text, "violation") && !Contains(text, "loss")
    ensures Hits(text, KeywordsFor("defense").value.negative) == 0
  {
    var neg := KeywordsFor("defense").value.negative;
    HitsPrefix(text, neg, 0);
    HitsPrefix(text, neg, 1);
    HitsPrefix(text, neg, 2);
    HitsPrefix(text, neg, 3);
    HitsPrefix(text, neg, 4);
    HitsPrefix(text, neg, 5);
    HitsPrefix(text, neg, 6);
    assert neg[..7] == neg && neg[..0] == [];
  }

  lemma ExamplePositiveHits()
    ensures Hits(ExampleText, KeywordsFor("defense").value.positive) == 3
  {
    var text := ExampleText;
    ExampleTextHas();
    ExampleTextLacks('v');
    ExampleTextLacks('b');
    ExampleTextLacks('u');
    ExampleTextLacks('p');
    AbsentCharNotContained(text, "investment", 'v');
    AbsentCharNotContained(text, "innovation", 'v');
    AbsentCharNotContained(text, "breakthrough", 'b');
    AbsentCharNotContained(text, "success", 'u');
    AbsentCharNotContained(text, "capability", 'p');
    DefensePositiveCountHalf(text);
    DefensePositiveCountRest(text);
  }

  lemma ExampleNegativeHits()
    ensures Hits(ExampleText, KeywordsFor("defense").value.negative) == 0
  {
    var text := ExampleText;
    ExampleTextLacks('l');
    ExampleTextLacks('b');
    ExampleTextLacks('v');
    AbsentCharNotContained(text, "delay", 'l');
    AbsentCharNotContained(text, "budget cut", 'b');
    AbsentCharNotContained(text, "failure", 'l');
    AbsentCharNotContained(text, "setback", 'b');
    AbsentCharNotContained(text, "scandal", 'l');
    AbsentCharNotContained(text, "violation", 'v');
    AbsentCharNotContained(text, "loss", 'l');
    DefenseNegativeCount(text);
  }

  /** A worked example: a defense headline with three positive keywords
      ("contract", "award" inside "awarded", "modernization") and no
      negative one scores 3. */
  lemma DefenseExample()
    ensures BasicScore(ExampleHeadline, "", "defense") == 3
  {
    ExampleSearchText();
    ExamplePositiveHits();
    ExampleNegativeHits();
  }

  /** Keywords match as substrings, not as words: a keyword found inside a
      longer word ("award" in "awarded") counts as a hit. */
  lemma {:induction false} KeywordInsideWord(before: string, k: string, after: string)
    ensures Contains(before + k + after, k)
  {
    var text := before + k + after;
    assert text[|before|..|before| + |k|] == k;
    assert OccursAt(text, k, |before|);
    ContainsIffOccurs(text, k);
  }

}
