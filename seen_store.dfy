/** The dedup store: `load_seen_items` and `save_seen_items`. The JSON file
    maps each item id to the Unix second it was first sent. */
module SeenStore {

  const RETENTION_SECONDS := 7 * 24 * 60 * 60

  /** What the store file holds when read: no file, a file that does not
      parse as an id-to-number object, or such an object. */
  datatype StoreFile = Missing | Unreadable | Stored(stamps: map<string, int>)

  /** Entries first seen within the retention window ending at `now`. */
  function Prune(stamps: map<string, int>, now: int): (kept: map<string, int>)
    ensures forall id :: id in kept <==> id in stamps && stamps[id] > now - RETENTION_SECONDS
    ensures forall id :: id in kept ==> kept[id] == stamps[id]
  {
    map id | id in stamps && stamps[id] > now - RETENTION_SECONDS :: stamps[id]
  }

  /** `load_seen_items`: the ids still within retention; nothing when the
      file is missing or unreadable. */
  function LoadSeenItems(file: StoreFile, now: int): (ids: set<string>)
    ensures file.Stored? ==>
      forall id :: id in ids <==> id in file.stamps && file.stamps[id] > now - RETENTION_SECONDS
    ensures !file.Stored? ==> ids == {}
  {
    match file
    case Stored(stamps) => Prune(stamps, now).Keys
    case _ => {}
  }

  /** Stamping: ids already present keep their time, new ids get `now`. */
  function Merge(existing: map<string, int>, seen: set<string>, now: int): map<string, int>
  {
    map id | id in existing.Keys + seen :: if id in existing then existing[id] else now
  }

  /** The file after `save_seen_items(seen)`; an unreadable file makes the
      save fail before writing, so it is left as it was. */
  function SavedFile(file: StoreFile, seen: set<string>, now: int): StoreFile
  {
    match file
    case Unreadable => Unreadable
    case Missing => Stored(Prune(Merge(map[], seen, now), now))
    case Stored(existing) => Stored(Prune(Merge(existing, seen, now), now))
  }

  /** `save_seen_items`: the stamping loop over `seen`, then the pruning. */
  method SaveSeenItems(file: StoreFile, seen: set<string>, now: int) returns (written: StoreFile)
    ensures written == SavedFile(file, seen, now)
  {
    if file.Unreadable? {
      return file;
    }
    var existing: map<string, int> := if file.Stored? then file.stamps else map[];
    ghost var start := existing;
    var rest := seen;
    while rest != {}
      invariant rest <= seen
      invariant existing == Merge(start, seen - rest, now)
      decreases rest
    {
      var id :| id in rest;
      if id !in existing {
        existing := existing[id := now];
      }
      rest := rest - {id};
    }
    assert seen - rest == seen;
    var cleaned := map id | id in existing && existing[id] > now - RETENTION_SECONDS :: existing[id];
    written := Stored(cleaned);
  }

  /** What a save does to each id: an id kept from before keeps its first-seen
      time, a newly seen id is stamped `now`, every id left is within
      retention, and no id appears that was neither stored nor seen. */
  lemma SaveStamps(existing: map<string, int>, seen: set<string>, now: int)
    ensures var saved := SavedFile(Stored(existing), seen, now).stamps;
      && (forall id :: id in existing && existing[id] > now - RETENTION_SECONDS ==>
            id in saved && saved[id] == existing[id])
      && (forall id :: id in seen && id !in existing ==> id in saved && saved[id] == now)
      && (forall id :: id in saved ==> saved[id] > now - RETENTION_SECONDS)
      && saved.Keys <= existing.Keys + seen
  {
  }

  /** Saving ids that are all stored already changes no timestamp. */
  lemma SaveStoredIdsIsIdempotent(existing: map<string, int>, seen: set<string>, now: int)
    requires seen <= existing.Keys
    ensures SavedFile(Stored(existing), seen, now) == Stored(Prune(existing, now))
  {
    assert Merge(existing, seen, now) == existing;
  }

  /** Round trip when no saved id has an expired stamp in the file: loading
      right after a save yields the previously loaded ids and every id saved. */
  lemma LoadAfterSave(file: StoreFile, seen: set<string>, now: int)
    requires !file.Unreadable?
    requires file.Stored? ==>
      forall id :: id in seen && id in file.stamps ==> file.stamps[id] > now - RETENTION_SECONDS
    ensures LoadSeenItems(SavedFile(file, seen, now), now) == LoadSeenItems(file, now) + seen
  {
    if file.Stored? {
      var merged := Merge(file.stamps, seen, now);
      assert Prune(merged, now).Keys == Prune(file.stamps, now).Keys + seen;
    }
  }

  /** As written, an id that was just sent but still has an expired stamp in
      the file is neither re-stamped nor kept: the save forgets it. */
  lemma SaveForgetsExpiredSeenId(now: int)
    ensures var file := Stored(map["x" := now - 8 * 24 * 60 * 60]);
      && "x" !in LoadSeenItems(file, now)
      && SavedFile(file, {"x"}, now) == Stored(map[])
  {
    var file := Stored(map["x" := now - 8 * 24 * 60 * 60]);
    assert Merge(file.stamps, {"x"}, now) == file.stamps;
  }

  /** The save as evidently intended: expired entries are dropped before the
      new ids are stamped, so an id sent again after expiry is re-stamped. */
  function SavedFileCorrected(file: StoreFile, seen: set<string>, now: int): StoreFile
  {
    match file
    case Unreadable => Unreadable
    case Missing => Stored(Merge(map[], seen, now))
    case Stored(existing) => Stored(Merge(Prune(existing, now), seen, now))
  }

  /** The corrected save keeps the first-seen time of every live id, stamps
      every other saved id `now`, keeps only live entries, and a load right
      after it returns the previously loaded ids and every id saved. */
  lemma CorrectedSaveRecordsEverySeenId(file: StoreFile, seen: set<string>, now: int)
    requires !file.Unreadable?
    ensures var saved := SavedFileCorrected(file, seen, now).stamps;
      && (file.Stored? ==> forall id :: id in file.stamps && file.stamps[id] > now - RETENTION_SECONDS ==>
            id in saved && saved[id] == file.stamps[id])
      && (forall id :: id in seen && id !in LoadSeenItems(file, now) ==> id in saved && saved[id] == now)
      && (forall id :: id in saved ==> saved[id] > now - RETENTION_SECONDS)
    ensures LoadSeenItems(SavedFileCorrected(file, seen, now), now) == LoadSeenItems(file, now) + seen
  {
  }

  /** The corrected save is idempotent: saving the same ids again at the same
      time changes nothing. */
  lemma CorrectedSaveTwice(file: StoreFile, seen: set<string>, now: int)
    ensures SavedFileCorrected(SavedFileCorrected(file, seen, now), seen, now)
         == SavedFileCorrected(file, seen, now)
  {
    var once := SavedFileCorrected(file, seen, now);
    if once.Stored? {
      var m := once.stamps;
      assert Prune(m, now) == m;
      assert Merge(m, seen, now) == m;
    }
  }

  /** An id first seen more than seven days ago is no longer loaded. */
  lemma ExpiredIsForgotten(stamps: map<string, int>, id: string, now: int)
    requires id in stamps && stamps[id] <= now - RETENTION_SECONDS
    ensures id !in LoadSeenItems(Stored(stamps), now)
  {
  }

  /** A later save never re-stamps an id that is still within retention. */
  lemma FirstSeenIsPreserved(existing: map<string, int>, seen: set<string>, id: string, now: int)
    requires id in existing && existing[id] > now - RETENTION_SECONDS
    ensures SavedFile(Stored(existing), seen, now).stamps[id] == existing[id]
  {
  }
}
