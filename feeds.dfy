/** The per-entry selection of `check_rss_sources` in normal mode: entry
    normalisation, the gate sequence and the fold over all feeds that
    collects accepted items and grows the seen-id set. */
module Feeds {
  import opened Wrappers
  import opened Text
  import opened Filters
  import opened Priority
  import opened Recency
  import opened Ranking

  /** A feed entry as the parser delivers it; `None` is a missing attribute. */
  datatype Entry = Entry(
    id: Option<string>, guid: Option<string>, link: Option<string>, title: Option<string>,
    published: Option<string>, updated: Option<string>, summary: Option<string>)

  /** One configured source: its label and the entries fetched from it. */
  datatype Feed = Feed(name: string, entries: seq<Entry>)

  /** The clock and parser the recency gate uses. */
  datatype Clock = Clock(parse: Parser, windowMinutes: int, now: int)

  /** `entry_id`: the first non-empty of id, guid, link and title, else "". */
  function EntryId(e: Entry): string
  {
    FirstNonEmpty([e.id, e.guid, e.link, e.title], "")
  }

  /** The id falls back through id, guid, link and title, and is "" only when
      all four are missing or empty. */
  lemma EntryIdFallback(e: Entry)
    ensures Val(e.id) != "" ==> EntryId(e) == Val(e.id)
    ensures Val(e.id) == "" && Val(e.guid) != "" ==> EntryId(e) == Val(e.guid)
    ensures Val(e.id) == "" && Val(e.guid) == "" && Val(e.link) != "" ==> EntryId(e) == Val(e.link)
    ensures Val(e.id) == "" && Val(e.guid) == "" && Val(e.link) == "" ==> EntryId(e) == Val(e.title)
    ensures EntryId(e) == "" <==>
      Val(e.id) == "" && Val(e.guid) == "" && Val(e.link) == "" && Val(e.title) == ""
  {
    assert [e.id, e.guid, e.link, e.title] == [e.id] + [e.guid, e.link, e.title];
    assert [e.guid, e.link, e.title] == [e.guid] + [e.link, e.title];
    assert [e.link, e.title] == [e.link] + [e.title];
    assert [e.title] == [e.title] + [];
    FirstNonEmptyStep(e.id, [e.guid, e.link, e.title], "");
    FirstNonEmptyStep(e.guid, [e.link, e.title], "");
    FirstNonEmptyStep(e.link, [e.title], "");
    FirstNonEmptyStep(e.title, [], "");
  }

  /** The fields the gates read, after the source's defaults are applied. */
  datatype Candidate = Candidate(
    feed: string, id: string, title: string, link: string, published: string, summary: string)

  function Normalise(feedName: string, e: Entry): (c: Candidate)
    ensures c.id == EntryId(e) && c.title != "" && c.link == Val(e.link)
    ensures c.published == "" <==> Val(e.published) == "" && Val(e.updated) == ""
  {
    assert [e.published, e.updated] == [e.published] + [e.updated];
    assert [e.updated] == [e.updated] + [];
    FirstNonEmptyStep(e.published, [e.updated], "");
    FirstNonEmptyStep(e.updated, [], "");
    Candidate(feedName, EntryId(e), FirstNonEmpty([e.title], "New item"), Val(e.link),
              FirstNonEmpty([e.published, e.updated], ""), Val(e.summary))
  }

  /** The link is one of the id fallbacks, so an entry that can pass the
      link gate always has a non-empty id: the empty id is never collected. */
  lemma LinkedEntryHasId(feedName: string, e: Entry)
    ensures Normalise(feedName, e).link != "" ==> Normalise(feedName, e).id != ""
  {
    EntryIdFallback(e);
  }

  function NormaliseAll(feedName: string, es: seq<Entry>): (cs: seq<Candidate>)
    ensures |cs| == |es|
    ensures forall j :: 0 <= j < |es| ==> cs[j] == Normalise(feedName, es[j])
  {
    seq(|es|, j requires 0 <= j < |es| => Normalise(feedName, es[j]))
  }

  lemma NormalisePrefix(feedName: string, es: seq<Entry>, j: int)
    requires 0 <= j < |es|
    ensures NormaliseAll(feedName, es[..j + 1]) == NormaliseAll(feedName, es[..j]) + [Normalise(feedName, es[j])]
  {
  }

  /** All entries of all feeds, in feed order then entry order. */
  function Candidates(feeds: seq<Feed>): seq<Candidate>
  {
    if feeds == [] then []
    else Candidates(feeds[..|feeds| - 1]) + NormaliseAll(feeds[|feeds| - 1].name, feeds[|feeds| - 1].entries)
  }

  /** The text matched by the sports and boring filters and by the scorer. */
  function FilterText(c: Candidate): string
  {
    c.title + " " + c.summary
  }

  function CandidatePriority(c: Candidate): int
  {
    PriorityOf(ScoredText(c.title, c.summary))
  }

  /** Every gate after the seen-check passes. */
  predicate Eligible(c: Candidate, clock: Clock)
  {
    && c.link != ""
    && !IsPaywall(c.link)
    && !ContainsSports(FilterText(c))
    && IsRecent(clock.parse, c.published, clock.windowMinutes, clock.now)
    && !IsBoring(FilterText(c), CandidatePriority(c))
  }

  function ItemOf(c: Candidate): Item
  {
    Item(c.feed, c.title, c.link, CandidatePriority(c), c.id)
  }

  datatype Reason = AlreadySeen | NoLink | Paywall | Sports | NotRecent | Boring

  datatype Verdict = Rejected(reason: Reason) | Accepted(item: Item)

  /** The gates in the source's order; the first that fails names the reason. */
  function Gate(c: Candidate, seen: set<string>, clock: Clock): (v: Verdict)
    ensures v.Accepted? <==> c.id !in seen && Eligible(c, clock)
    ensures v.Accepted? ==> v.item == ItemOf(c)
    ensures v == Rejected(AlreadySeen) <==> c.id in seen
    ensures v == Rejected(NoLink) <==> c.id !in seen && c.link == ""
    ensures v == Rejected(Paywall) <==> c.id !in seen && c.link != "" && IsPaywall(c.link)
    ensures v == Rejected(Sports) <==>
      c.id !in seen && c.link != "" && !IsPaywall(c.link) && ContainsSports(FilterText(c))
    ensures v == Rejected(NotRecent) <==>
      c.id !in seen && c.link != "" && !IsPaywall(c.link) && !ContainsSports(FilterText(c))
      && !IsRecent(clock.parse, c.published, clock.windowMinutes, clock.now)
    ensures v == Rejected(Boring) <==>
      c.id !in seen && c.link != "" && !IsPaywall(c.link) && !ContainsSports(FilterText(c))
      && IsRecent(clock.parse, c.published, clock.windowMinutes, clock.now)
      && IsBoring(FilterText(c), CandidatePriority(c))
  {
    if c.id in seen then Rejected(AlreadySeen)
    else if c.link == "" then Rejected(NoLink)
    else if IsPaywall(c.link) then Rejected(Paywall)
    else if ContainsSports(FilterText(c)) then Rejected(Sports)
    else if !IsRecent(clock.parse, c.published, clock.windowMinutes, clock.now) then Rejected(NotRecent)
    else if IsBoring(FilterText(c), CandidatePriority(c)) then Rejected(Boring)
    else Accepted(ItemOf(c))
  }

  /** The items collected so far and the seen-id set as it now stands. */
  datatype Selection = Selection(items: seq<Item>, seen: set<string>)

  function Step(acc: Selection, c: Candidate, clock: Clock): Selection
  {
    match Gate(c, acc.seen, clock)
    case Accepted(it) => Selection(acc.items + [it], acc.seen + {c.id})
    case Rejected(_) => acc
  }

  /** The gates applied to each candidate in turn, from selection `acc`. */
  function Fold(acc: Selection, cs: seq<Candidate>, clock: Clock): Selection
  {
    if cs == [] then acc
    else Step(Fold(acc, cs[..|cs| - 1], clock), cs[|cs| - 1], clock)
  }

  /** The normal-mode loop over every candidate, starting from `seen0`. */
  function SelectAll(seen0: set<string>, cs: seq<Candidate>, clock: Clock): Selection
  {
    Fold(Selection([], seen0), cs, clock)
  }

  lemma FoldSnoc(acc: Selection, cs: seq<Candidate>, c: Candidate, clock: Clock)
    ensures Fold(acc, cs + [c], clock) == Step(Fold(acc, cs, clock), c, clock)
  {
    assert (cs + [c])[..|cs|] == cs;
  }

  /** Going through `a` and then `b` is going through `a + b`. */
  lemma {:induction false} FoldAppend(acc: Selection, a: seq<Candidate>, b: seq<Candidate>, clock: Clock)
    ensures Fold(Fold(acc, a, clock), b, clock) == Fold(acc, a + b, clock)
  {
    if b == [] {
      assert a + b == a;
    } else {
      var n := |b| - 1;
      FoldAppend(acc, a, b[..n], clock);
      assert (a + b)[..|a + b| - 1] == a + b[..n];
    }
  }

  function IdsOf(items: seq<Item>): set<string>
  {
    set k | 0 <= k < |items| :: items[k].id
  }

  /** The seen set grows by exactly the ids of the collected items, none of
      which was seen before, and no two collected items share an id. */
  lemma {:induction false} SelectionRecordsIds(seen0: set<string>, cs: seq<Candidate>, clock: Clock)
    ensures var r := SelectAll(seen0, cs, clock);
      && r.seen == seen0 + IdsOf(r.items)
      && (forall k :: 0 <= k < |r.items| ==> r.items[k].id !in seen0)
      && (forall k1, k2 :: 0 <= k1 < k2 < |r.items| ==> r.items[k1].id != r.items[k2].id)
  {
    if cs != [] {
      var n := |cs| - 1;
      var acc := SelectAll(seen0, cs[..n], clock);
      SelectionRecordsIds(seen0, cs[..n], clock);
      var v := Gate(cs[n], acc.seen, clock);
      if v.Accepted? {
        var items := acc.items + [v.item];
        assert IdsOf(items) == IdsOf(acc.items) + {cs[n].id} by {
          forall id | id in IdsOf(items) ensures id in IdsOf(acc.items) + {cs[n].id} {
            var k :| 0 <= k < |items| && items[k].id == id;
            if k < |acc.items| {
              assert acc.items[k] == items[k];
            }
          }
          forall id | id in IdsOf(acc.items) ensures id in IdsOf(items) {
            var k :| 0 <= k < |acc.items| && acc.items[k].id == id;
            assert items[k] == acc.items[k];
          }
          assert items[|acc.items|].id == cs[n].id;
        }
        forall k | 0 <= k < |acc.items| ensures acc.items[k].id in acc.seen {
        }
      }
    }
  }

  /** Soundness: every collected item comes from an eligible candidate whose
      id was not seen at the start, with that candidate's score. */
  lemma {:induction false} SelectionSound(seen0: set<string>, cs: seq<Candidate>, clock: Clock)
    ensures var r := SelectAll(seen0, cs, clock);
      forall k :: 0 <= k < |r.items| ==>
        exists j :: 0 <= j < |cs| && Eligible(cs[j], clock) && cs[j].id !in seen0 && r.items[k] == ItemOf(cs[j])
  {
    if cs != [] {
      var n := |cs| - 1;
      var acc := SelectAll(seen0, cs[..n], clock);
      SelectionSound(seen0, cs[..n], clock);
      SelectionRecordsIds(seen0, cs[..n], clock);
      var r := SelectAll(seen0, cs, clock);
      forall k | 0 <= k < |r.items|
        ensures exists j :: 0 <= j < |cs| && Eligible(cs[j], clock) && cs[j].id !in seen0 && r.items[k] == ItemOf(cs[j])
      {
        if k < |acc.items| {
          assert r.items[k] == acc.items[k];
          var j :| 0 <= j < n && Eligible(cs[..n][j], clock) && cs[..n][j].id !in seen0 && acc.items[k] == ItemOf(cs[..n][j]);
          assert cs[j] == cs[..n][j];
        } else {
          assert r.items[k] == ItemOf(cs[n]);
          assert Eligible(cs[n], clock) && cs[n].id !in acc.seen;
        }
      }
    }
  }

  /** Completeness: the id of every eligible candidate is in the final seen
      set, so it was either seen before or collected. */
  lemma {:induction false} SelectionComplete(seen0: set<string>, cs: seq<Candidate>, clock: Clock)
    ensures var r := SelectAll(seen0, cs, clock);
      forall j :: 0 <= j < |cs| && Eligible(cs[j], clock) ==> cs[j].id in r.seen
  {
    if cs != [] {
      var n := |cs| - 1;
      SelectionComplete(seen0, cs[..n], clock);
      SeenOnlyGrows(SelectAll(seen0, cs[..n], clock), cs[n], clock);
      forall j | 0 <= j < n && Eligible(cs[j], clock)
        ensures cs[j].id in SelectAll(seen0, cs[..n], clock).seen
      {
        assert cs[..n][j] == cs[j];
      }
    }
  }

  lemma SeenOnlyGrows(acc: Selection, c: Candidate, clock: Clock)
    ensures acc.seen <= Step(acc, c, clock).seen
    ensures Eligible(c, clock) ==> c.id in Step(acc, c, clock).seen
  {
  }

  /** An id that was already seen never produces an item, whatever else the
      entry holds; an entry without a link never produces one either. */
  lemma SeenOrLinklessNeverCollected(seen0: set<string>, cs: seq<Candidate>, clock: Clock, k: int)
    requires var r := SelectAll(seen0, cs, clock); 0 <= k < |r.items|
    ensures var it := SelectAll(seen0, cs, clock).items[k]; it.id !in seen0 && it.link != ""
  {
    SelectionRecordsIds(seen0, cs, clock);
    SelectionSound(seen0, cs, clock);
  }

  /** A high score overrides the boring filter: text with an urgency word is
      never rejected as boring. */
  lemma UrgentIsNeverBoring(c: Candidate, word: string)
    requires word in URGENCY_WORDS && Contains(ScoredText(c.title, c.summary), word)
    ensures !IsBoring(FilterText(c), CandidatePriority(c))
  {
    UrgencyReachesTwenty(ScoredText(c.title, c.summary), word);
  }
}
