/** `check_rss_sources`: the loop over all feeds. In normal mode it gates and
    scores every entry, adds each accepted id to the caller's seen set in
    place, then sorts the collected items and sends them; in debug mode it
    sends up to two entries per feed unfiltered. */
module Rss {
  import opened Wrappers
  import opened Text
  import opened Filters
  import opened Priority
  import opened Recency
  import opened Ranking
  import opened Notify
  import opened Feeds

  /** The caller's set of seen ids, updated in place. */
  class SeenIds {
    var ids: set<string>

    constructor (initial: set<string>)
      ensures ids == initial
    {
      ids := initial;
    }
  }

  /** Debug mode sends this for an entry, if it has a link. */
  function SampleOf(feedName: string, e: Entry): Option<Message>
  {
    if Val(e.link) == "" then None
    else Some(SampleMessage(feedName, FirstNonEmpty([e.title], "New item"),
                            FirstNonEmpty([e.published, e.updated], "No date"), Val(e.link)))
  }

  /** Debug mode's messages for the given entries of one feed. */
  function FeedSamples(feedName: string, es: seq<Entry>): seq<Message>
  {
    if es == [] then []
    else
      var last := match SampleOf(feedName, es[|es| - 1]) case Some(m) => [m] case None => [];
      FeedSamples(feedName, es[..|es| - 1]) + last
  }

  /** Everything debug mode sends, feed by feed. */
  function DebugSamples(feeds: seq<Feed>): seq<Message>
  {
    if feeds == [] then []
    else
      var last := feeds[|feeds| - 1];
      DebugSamples(feeds[..|feeds| - 1]) + FeedSamples(last.name, FirstTwo(last.entries))
  }

  /** Debug mode sends at most two messages per feed, each with a link. */
  lemma {:induction false} DebugSamplesBounded(feeds: seq<Feed>)
    ensures |DebugSamples(feeds)| <= 2 * |feeds|
    ensures forall m :: m in DebugSamples(feeds) ==> m.SampleMessage? && m.link != ""
  {
    if feeds != [] {
      var n := |feeds| - 1;
      DebugSamplesBounded(feeds[..n]);
      FeedSamplesBounded(feeds[n].name, FirstTwo(feeds[n].entries));
    }
  }

  lemma {:induction false} FeedSamplesBounded(feedName: string, es: seq<Entry>)
    ensures |FeedSamples(feedName, es)| <= |es|
    ensures forall m :: m in FeedSamples(feedName, es) ==> m.SampleMessage? && m.link != ""
  {
    if es != [] {
      FeedSamplesBounded(feedName, es[..|es| - 1]);
    }
  }

  /** The debug branch for one feed: of its first two entries, send those
      that have a link. */
  method SendFeedSamples(feed: Feed) returns (sent: seq<Message>)
    ensures sent == FeedSamples(feed.name, FirstTwo(feed.entries))
  {
    sent := [];
    var sample := FirstTwo(feed.entries);
    var j := 0;
    while j < |sample|
      invariant 0 <= j <= |sample|
      invariant sent == FeedSamples(feed.name, sample[..j])
    {
      var e := sample[j];
      assert sample[..j + 1][..j] == sample[..j];
      var link := Val(e.link);
      var title := FirstNonEmpty([e.title], "New item");
      var published := FirstNonEmpty([e.published, e.updated], "No date");
      if link != "" {
        sent := sent + [SampleMessage(feed.name, title, published, link)];
      }
      j := j + 1;
    }
    assert sample[..j] == sample;
  }

  /** The normal-mode body for one entry: the gates in order, the score, and
      on acceptance the id added to `seen` and the item to `items`. */
  method SelectEntry(feedName: string, e: Entry, clock: Clock, seen: SeenIds, items: seq<Item>)
    returns (items': seq<Item>)
    modifies seen
    ensures Selection(items', seen.ids) == Step(Selection(items, old(seen.ids)), Normalise(feedName, e), clock)
  {
    items' := items;
    var eid := EntryId(e);
    if eid in seen.ids {
      return;
    }
    var title := FirstNonEmpty([e.title], "New item");
    var link := Val(e.link);
    var published := FirstNonEmpty([e.published, e.updated], "");
    var summary := Val(e.summary);
    if link == "" || IsPaywall(link) || ContainsSports(title + " " + summary)
       || !IsRecent(clock.parse, published, clock.windowMinutes, clock.now) {
      return;
    }
    var priority := CalculatePriority(title, summary);
    if IsBoring(title + " " + summary, priority) {
      return;
    }
    seen.ids := seen.ids + {eid};
    items' := items + [Item(feedName, title, link, priority, eid)];
  }

  /** The normal-mode loop over one feed's entries. */
  method SelectFeed(feed: Feed, clock: Clock, seen: SeenIds, items: seq<Item>)
    returns (items': seq<Item>)
    modifies seen
    ensures Selection(items', seen.ids)
         == Fold(Selection(items, old(seen.ids)), NormaliseAll(feed.name, feed.entries), clock)
  {
    items' := items;
    ghost var start := Selection(items, seen.ids);
    var j := 0;
    while j < |feed.entries|
      invariant 0 <= j <= |feed.entries|
      invariant Selection(items', seen.ids) == Fold(start, NormaliseAll(feed.name, feed.entries[..j]), clock)
    {
      var e := feed.entries[j];
      NormalisePrefix(feed.name, feed.entries, j);
      FoldSnoc(start, NormaliseAll(feed.name, feed.entries[..j]), Normalise(feed.name, e), clock);
      items' := SelectEntry(feed.name, e, clock, seen, items');
      j := j + 1;
    }
    assert feed.entries[..j] == feed.entries;
  }

  /** Send the sorted items one by one. */
  method SendItems(items: seq<Item>) returns (sent: seq<Message>)
    ensures sent == Dispatch(items)
  {
    sent := [];
    var k := 0;
    while k < |items|
      invariant 0 <= k <= |items|
      invariant sent == Dispatch(items[..k])
    {
      assert items[..k + 1][..k] == items[..k];
      var item := items[k];
      sent := sent + [ItemMessage(Marker(item.priority), item.feed, item.title, item.link)];
      k := k + 1;
    }
    assert items[..k] == items;
  }

  method CheckRssSources(feeds: seq<Feed>, clock: Clock, debug: bool, seen: SeenIds)
    returns (sent: seq<Message>, totalSent: nat)
    modifies seen
    ensures totalSent == |sent|
    ensures debug ==> seen.ids == old(seen.ids) && sent == DebugSamples(feeds)
    ensures !debug ==>
      var sel := SelectAll(old(seen.ids), Candidates(feeds), clock);
      seen.ids == sel.seen && sent == Dispatch(SortByPriority(sel.items))
  {
    sent := [];
    var newItems: seq<Item> := [];
    ghost var seen0 := seen.ids;
    var i := 0;
    while i < |feeds|
      invariant 0 <= i <= |feeds|
      invariant debug ==> seen.ids == seen0 && newItems == [] && sent == DebugSamples(feeds[..i])
      invariant !debug ==> sent == [] && Selection(newItems, seen.ids) == SelectAll(seen0, Candidates(feeds[..i]), clock)
    {
      var feed := feeds[i];
      assert feeds[..i + 1][..i] == feeds[..i];
      if debug {
        var samples := SendFeedSamples(feed);
        sent := sent + samples;
      } else {
        newItems := SelectFeed(feed, clock, seen, newItems);
        FoldAppend(Selection([], seen0), Candidates(feeds[..i]), NormaliseAll(feed.name, feed.entries), clock);
      }
      i := i + 1;
    }
    assert feeds[..i] == feeds;
    if !debug {
      newItems := SortByPriority(newItems);
      sent := SendItems(newItems);
    }
    totalSent := |sent|;
  }

  /** What a normal-mode run sends: only items whose ids were not seen at the
      start, all with distinct ids, in descending priority, ties in feed and
      entry order, each marked hot exactly when its priority is 20 or more. */
  lemma NormalRunDispatch(seen0: set<string>, feeds: seq<Feed>, clock: Clock)
    ensures var sel := SelectAll(seen0, Candidates(feeds), clock);
      var out := SortByPriority(sel.items);
      && SortedDescending(out)
      && multiset(out) == multiset(sel.items)
      && (forall p :: WithPriority(out, p) == WithPriority(sel.items, p))
      && (forall k :: 0 <= k < |out| ==> out[k].id !in seen0 && out[k].link != "")
      && (forall k :: 0 <= k < |out| ==>
            (Dispatch(out)[k].marker == HOT_MARKER <==> out[k].priority >= HOT_PRIORITY))
  {
    var sel := SelectAll(seen0, Candidates(feeds), clock);
    var out := SortByPriority(sel.items);
    SortByPriorityCorrect(sel.items);
    SelectionRecordsIds(seen0, Candidates(feeds), clock);
    SelectionSound(seen0, Candidates(feeds), clock);
    forall k | 0 <= k < |out| ensures out[k].id !in seen0 && out[k].link != "" {
      assert out[k] in multiset(sel.items);
      var m :| 0 <= m < |sel.items| && sel.items[m] == out[k];
    }
  }
}
