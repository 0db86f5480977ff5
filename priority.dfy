/** `calculate_priority`: an additive score, 10 for every high-priority
    keyword found and a flat 20 when any urgency word is found. */
module Priority {
  import opened Text

  const HIGH_PRIORITY_KEYWORDS: seq<string> := [
    "zero-day", "critical vulnerability", "ransomware attack", "data breach",
    "arrested", "indicted", "sentenced", "convicted", "corruption",
    "earthquake", "tsunami", "hurricane", "tornado", "disaster",
    "emergency", "breaking", "major incident", "explosion", "shooting",
    "fraud", "scam", "hack", "exploit", "leaked", "exposed"
  ]

  const URGENCY_WORDS: seq<string> := ["breaking", "urgent", "critical", "emergency"]

  const KEYWORD_WEIGHT := 10
  const URGENCY_BOOST := 20

  /** Highest score any text can reach: every keyword plus the boost. */
  const MAX_PRIORITY := 10 * 25 + 20

  /** The text both the scorer and the boring filter look at. */
  function ScoredText(title: string, content: string): string
  {
    Lower(title + " " + content)
  }

  /** How many entries of `kws` occur in `text` (each list entry counted once). */
  function CountMatches(kws: seq<string>, text: string): (n: nat)
    ensures n <= |kws|
  {
    if kws == [] then 0
    else CountMatches(kws[..|kws| - 1], text) + (if Contains(text, kws[|kws| - 1]) then 1 else 0)
  }

  /** The score `calculate_priority` computes for a lower-cased text. */
  function PriorityOf(text: string): int
  {
    KEYWORD_WEIGHT * CountMatches(HIGH_PRIORITY_KEYWORDS, text)
      + (if AnyKeyword(URGENCY_WORDS, text) then URGENCY_BOOST else 0)
  }

  /** The keyword loop of `calculate_priority`, accumulating into `score`. */
  method CalculatePriority(title: string, content: string) returns (score: int)
    ensures score == PriorityOf(ScoredText(title, content))
    ensures 0 <= score <= MAX_PRIORITY && score % 10 == 0
  {
    var text := ScoredText(title, content);
    score := 0;
    var i := 0;
    while i < |HIGH_PRIORITY_KEYWORDS|
      invariant 0 <= i <= |HIGH_PRIORITY_KEYWORDS|
      invariant score == KEYWORD_WEIGHT * CountMatches(HIGH_PRIORITY_KEYWORDS[..i], text)
    {
      assert HIGH_PRIORITY_KEYWORDS[..i + 1][..i] == HIGH_PRIORITY_KEYWORDS[..i];
      if Contains(text, HIGH_PRIORITY_KEYWORDS[i]) {
        score := score + KEYWORD_WEIGHT;
      }
      i := i + 1;
    }
    assert HIGH_PRIORITY_KEYWORDS[..i] == HIGH_PRIORITY_KEYWORDS;
    if AnyKeyword(URGENCY_WORDS, text) {
      score := score + URGENCY_BOOST;
    }
    PriorityBounds(text);
  }

  /** A keyword of the list that occurs in the text is counted. */
  lemma {:induction false} CountedWhenPresent(kws: seq<string>, text: string, kw: string)
    requires kw in kws && Contains(text, kw)
    ensures CountMatches(kws, text) >= 1
    decreases |kws|
  {
    if kws[|kws| - 1] != kw {
      assert kw in kws[..|kws| - 1];
      CountedWhenPresent(kws[..|kws| - 1], text, kw);
    }
  }

  /** The list positions whose keyword occurs in `text`. */
  function MatchedPositions(kws: seq<string>, text: string): set<int>
  {
    set i | 0 <= i < |kws| && Contains(text, kws[i])
  }

  /** The count is the number of list positions whose keyword occurs. */
  lemma {:induction false} CountIsMatchedPositions(kws: seq<string>, text: string)
    ensures CountMatches(kws, text) == |MatchedPositions(kws, text)|
    decreases |kws|
  {
    if kws != [] {
      var n := |kws| - 1;
      var front := kws[..n];
      CountIsMatchedPositions(front, text);
      var before := MatchedPositions(front, text);
      if Contains(text, kws[n]) {
        assert MatchedPositions(kws, text) == before + {n};
        assert n !in before;
      } else {
        assert MatchedPositions(kws, text) == before;
      }
    }
  }

  /** The keywords of the list that occur in `text`. */
  function MatchedKeywords(kws: seq<string>, text: string): set<string>
  {
    set kw | kw in kws && Contains(text, kw)
  }

  /** No keyword is listed twice. */
  predicate NoRepeats(kws: seq<string>)
  {
    forall i, j :: 0 <= i < j < |kws| ==> kws[i] != kws[j]
  }

  lemma HighPriorityKeywordsHaveNoRepeats()
    ensures NoRepeats(HIGH_PRIORITY_KEYWORDS)
  {
  }

  /** On a list without repeats, the count is the number of distinct
      keywords found. */
  lemma {:induction false} CountIsMatchedKeywords(kws: seq<string>, text: string)
    requires NoRepeats(kws)
    ensures CountMatches(kws, text) == |MatchedKeywords(kws, text)|
    decreases |kws|
  {
    if kws != [] {
      var n := |kws| - 1;
      var front := kws[..n];
      assert NoRepeats(front);
      CountIsMatchedKeywords(front, text);
      var before := MatchedKeywords(front, text);
      assert kws == front + [kws[n]];
      if Contains(text, kws[n]) {
        assert MatchedKeywords(kws, text) == before + {kws[n]};
        assert kws[n] !in front;
      } else {
        assert MatchedKeywords(kws, text) == before;
      }
    }
  }

  /** The score is 10 per distinct high-priority keyword found, plus the
      urgency boost. */
  lemma ScoreCountsDistinctKeywords(text: string)
    ensures PriorityOf(text) == KEYWORD_WEIGHT * |MatchedKeywords(HIGH_PRIORITY_KEYWORDS, text)|
      + (if AnyKeyword(URGENCY_WORDS, text) then URGENCY_BOOST else 0)
  {
    HighPriorityKeywordsHaveNoRepeats();
    CountIsMatchedKeywords(HIGH_PRIORITY_KEYWORDS, text);
  }

  /** Every score is a multiple of 10 between 0 and 10 * 25 + 20. */
  lemma PriorityBounds(text: string)
    ensures 0 <= PriorityOf(text) <= MAX_PRIORITY
    ensures PriorityOf(text) % 10 == 0
  {
    assert |HIGH_PRIORITY_KEYWORDS| == 25;
  }

  /** Any urgency word lifts the score to 20 or more. */
  lemma UrgencyReachesTwenty(text: string, word: string)
    requires word in URGENCY_WORDS && Contains(text, word)
    ensures PriorityOf(text) >= 20
  {
  }

  /** "breaking" and "emergency" are on both lists, so either scores 30 or more. */
  lemma DoubleListedWordsScoreThirty(text: string)
    requires Contains(text, "breaking") || Contains(text, "emergency")
    ensures PriorityOf(text) >= 30
  {
    assert HIGH_PRIORITY_KEYWORDS[14] == "emergency";
    assert HIGH_PRIORITY_KEYWORDS[15] == "breaking";
    assert URGENCY_WORDS[0] == "breaking" && URGENCY_WORDS[3] == "emergency";
    if Contains(text, "breaking") {
      CountedWhenPresent(HIGH_PRIORITY_KEYWORDS, text, "breaking");
    } else {
      CountedWhenPresent(HIGH_PRIORITY_KEYWORDS, text, "emergency");
    }
  }

  /** If no keyword of the list occurs in the text, the count is 0. */
  lemma {:induction false} NoKeywordCountsZero(kws: seq<string>, text: string)
    requires forall k :: k in kws ==> !Contains(text, k)
    ensures CountMatches(kws, text) == 0
    decreases |kws|
  {
    if kws != [] {
      assert forall k :: k in kws[..|kws| - 1] ==> k in kws;
      NoKeywordCountsZero(kws[..|kws| - 1], text);
    }
  }

  /** A text with no high-priority keyword and no urgency word scores 0. */
  lemma NoKeywordScoresZero(text: string)
    requires forall k :: k in HIGH_PRIORITY_KEYWORDS ==> !Contains(text, k)
    requires !AnyKeyword(URGENCY_WORDS, text)
    ensures PriorityOf(text) == 0
  {
    NoKeywordCountsZero(HIGH_PRIORITY_KEYWORDS, text);
  }

  /** Text naming a "critical vulnerability" scores at least 30: one
      high-priority keyword, plus the urgency boost for "critical", which it
      contains. */
  lemma CriticalVulnerabilityScoresThirty(text: string)
    requires Contains(text, "critical vulnerability")
    ensures PriorityOf(text) >= 30
  {
    var kw := "critical vulnerability";
    ContainsIff(text, kw);
    var i :| OccursAt(text, kw, i);
    assert kw[..8] == "critical";
    assert text[i..i + 8] == text[i..i + |kw|][..8];
    assert OccursAt(text, "critical", i);
    ContainsIff(text, "critical");
    assert HIGH_PRIORITY_KEYWORDS[1] == kw;
    assert URGENCY_WORDS[2] == "critical";
    CountedWhenPresent(HIGH_PRIORITY_KEYWORDS, text, kw);
  }
}
