/** The keyword filters of alerts.py: paywall links, sports text and
    "boring" text, each a case-insensitive substring test against a fixed
    keyword list. */
module Filters {
  import opened Text

  const PAYWALL_DOMAINS: seq<string> := [
    "washingtonpost.com", "nytimes.com", "wsj.com", "ft.com",
    "economist.com", "bloomberg.com", "thetimes.co.uk", "telegraph.co.uk"
  ]

  const SPORTS_KEYWORDS: seq<string> := [
    "nfl", "nba", "mlb", "nhl", "fifa", "uefa", "premier league",
    "champions league", "world cup", "super bowl", "playoffs",
    "football", "basketball", "baseball", "hockey", "soccer",
    "espn", "sports", "game", "match", "score", "team wins",
    "quarterback", "touchdown", "goal", "championship"
  ]

  const BORING_KEYWORDS: seq<string> := [
    "trade deal", "economic summit", "diplomatic visit",
    "bilateral talks", "policy speech", "routine meeting",
    "annual report", "quarterly earnings", "market update"
  ]

  /** Priority at which the boring filter no longer applies. */
  const BORING_OVERRIDE_PRIORITY := 20

  /** `is_paywall`: some paywall domain occurs in the lower-cased URL. */
  predicate IsPaywall(url: string)
  {
    AnyKeyword(PAYWALL_DOMAINS, Lower(url))
  }

  /** `contains_sports`: some sports keyword occurs in the lower-cased text. */
  predicate ContainsSports(text: string)
  {
    AnyKeyword(SPORTS_KEYWORDS, Lower(text))
  }

  /** `is_boring`: a priority of 20 or more overrides the keyword test. */
  predicate IsBoring(text: string, priority: int)
  {
    if priority >= BORING_OVERRIDE_PRIORITY then false
    else AnyKeyword(BORING_KEYWORDS, Lower(text))
  }

  /** A URL is paywalled exactly when some listed domain occurs at some
      position of its lower-cased form. */
  lemma PaywallIff(url: string)
    ensures IsPaywall(url) <==>
      exists d, i :: d in PAYWALL_DOMAINS && OccursAt(Lower(url), d, i)
  {
    AnyKeywordIff(PAYWALL_DOMAINS, Lower(url));
  }

  /** Text is sports exactly when some sports keyword occurs at some
      position of its lower-cased form. */
  lemma SportsIff(text: string)
    ensures ContainsSports(text) <==>
      exists k, i :: k in SPORTS_KEYWORDS && OccursAt(Lower(text), k, i)
  {
    AnyKeywordIff(SPORTS_KEYWORDS, Lower(text));
  }

  /** Below the override a text is boring exactly when some boring keyword
      occurs in it; at or above the override it never is. */
  lemma BoringIff(text: string, priority: int)
    ensures priority >= 20 ==> !IsBoring(text, priority)
    ensures priority < 20 ==>
      (IsBoring(text, priority) <==>
        exists k, i :: k in BORING_KEYWORDS && OccursAt(Lower(text), k, i))
  {
    AnyKeywordIff(BORING_KEYWORDS, Lower(text));
  }

  /** The filters ignore letter case: a text and its lower-cased form agree. */
  lemma FiltersIgnoreCase(s: string, priority: int)
    ensures IsPaywall(s) == IsPaywall(Lower(s))
    ensures ContainsSports(s) == ContainsSports(Lower(s))
    ensures IsBoring(s, priority) == IsBoring(Lower(s), priority)
  {
    LowerIdempotent(s);
  }

  /** A link on a paywalled host is rejected whatever else it contains. */
  lemma NytimesIsPaywalled(path: string)
    ensures IsPaywall("https://nytimes.com/" + path)
  {
    var url := "https://nytimes.com/" + path;
    var d := "nytimes.com";
    assert d == PAYWALL_DOMAINS[1];
    assert Lower(url)[8..19] == d;
    assert OccursAt(Lower(url), d, 8);
    PaywallIff(url);
  }
}
