/** One invocation of `main` after configuration: load the seen ids, check
    the feeds and the NWS alerts, and save the seen ids unless in debug mode. */
module Run {
  import opened Ranking
  import opened Notify
  import opened SeenStore
  import opened Feeds
  import opened Rss
  import opened Nws

  method RunOnce(file: StoreFile, feeds: seq<Feed>, nws: NwsResponse, clock: Clock, debug: bool)
    returns (sent: seq<Message>, totalSent: nat, stored: StoreFile)
    ensures totalSent == |sent|
    ensures debug ==> stored == file && sent == DebugSamples(feeds) + NwsMessages(nws, clock, true)
    ensures !debug ==>
      var sel := SelectAll(LoadSeenItems(file, clock.now), Candidates(feeds), clock);
      && sent == Dispatch(SortByPriority(sel.items)) + NwsMessages(nws, clock, false)
      && stored == SavedFile(file, sel.seen, clock.now)
  {
    var seen := new SeenIds(LoadSeenItems(file, clock.now));
    var rssSent, rssTotal := CheckRssSources(feeds, clock, debug, seen);
    var nwsSent, nwsTotal := CheckNwsSevere(nws, clock, debug);
    sent, totalSent := rssSent + nwsSent, rssTotal + nwsTotal;
    if !debug {
      stored := SaveSeenItems(file, seen.ids, clock.now);
    } else {
      stored := file;
    }
  }

  /** After a normal run the store holds every id loaded at the start, and
      every id sent in this run that had no entry in the file; an id sent
      whose stale entry was still in the file is the one case it loses. */
  lemma RunRecordsSentIds(file: StoreFile, feeds: seq<Feed>, clock: Clock)
    requires !file.Unreadable?
    ensures var seen0 := LoadSeenItems(file, clock.now);
      var sel := SelectAll(seen0, Candidates(feeds), clock);
      var saved := SavedFile(file, sel.seen, clock.now).stamps;
      && seen0 <= saved.Keys
      && forall k :: 0 <= k < |sel.items| && (file.Stored? ==> sel.items[k].id !in file.stamps) ==>
           sel.items[k].id in saved && saved[sel.items[k].id] == clock.now
  {
    var seen0 := LoadSeenItems(file, clock.now);
    var sel := SelectAll(seen0, Candidates(feeds), clock);
    SelectionRecordsIds(seen0, Candidates(feeds), clock);
    forall k | 0 <= k < |sel.items| ensures sel.items[k].id in sel.seen {
      assert sel.items[k].id in IdsOf(sel.items);
    }
  }
}
