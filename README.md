# Alert bot item selection, modelled in Dafny

This project models the item-selection pipeline of the alert bot in
`alerts.py`. The bot polls syndication feeds and the US National Weather
Service (NWS) alert endpoint. It picks items that are new, recent, relevant
and not noise, ranks them, and sends them to one chat channel. A small JSON
store records what has already been sent.

Network, file and clock are replaced by plain inputs, so what is left is
deterministic:

- **Keyword filters** (`filters.dfy`): `is_paywall`, `contains_sports` and
  `is_boring` are case-insensitive substring tests against fixed lists. A
  priority of 20 or more overrides `is_boring`.
- **Priority scorer** (`priority.dfy`): `calculate_priority` adds 10 for each
  listed high-priority keyword found, plus 20 once when any urgency word is
  found. It is a method with the source's accumulator loop, proved against
  the function `PriorityOf`.
- **Recency test** (`recency.dfy`): `is_recent` with the date parser as a
  parameter. A parsed timestamp carries an optional UTC offset; a naive
  timestamp is treated as UTC.
- **Dedup store** (`seen_store.dfy`): `load_seen_items` and `save_seen_items`
  over the store file. The file is modelled as missing, unreadable, or a map
  from id to first-seen Unix second.
- **Entry ids and the per-entry gate** (`feeds.dfy`): `entry_id`, the
  source's defaults for title, link, date and summary, and the gates in the
  source's order: seen, link, paywall, sports, recency, score, boring. The
  normal-mode loop is the fold `SelectAll` over all entries of all feeds.
- **Dispatch order** (`ranking.dfy`, `notify.dfy`): the stable descending
  sort by priority, and the fire marker at priority 20 or more.
- **`check_rss_sources`** (`rss.dfy`): the feed loop as a method. It mutates
  the caller's seen set (the class `SeenIds`) in place. It then sorts the
  collected items and appends one message per item to the sent sequence.
  The debug branch, which sends up to two entries per feed, is modelled too.
- **`check_nws_severe`** (`nws.dfy`): the projection of each alert. The
  timestamp comes from `sent`, then `effective`, then `onset`. The link comes
  from `uri`, then `id`, then the alerts portal. Alerts pass only the
  recency gate, and a malformed alert ends the call.
- **One run** (`run.dfy`): `main`'s sequence after configuration: load,
  RSS, NWS, and save unless in debug mode.

Notes on the code that the model follows:

- The paywall test matches a domain anywhere in the lower-cased URL, not
  only in its host.
- `is_boring` has one override: a priority of 20 or more.
- An entry is rejected first when its id is already seen, then when it has
  no link. The paywall, sports and recency tests follow, then the score,
  then the boring test at that score.
- An entry whose id resolves to "" is not specially excluded. However, the
  link is one of the id fallbacks, so such an entry never has a link and
  the link gate rejects it (`Feeds.LinkedEntryHasId`).
- In `check_nws_severe`, any exception ends the call with what was sent so
  far. Two kinds of alert raise: one whose `properties` is not an object,
  and one whose `areaDesc` cannot be sliced (JSON null, a number, a boolean
  or an object). In normal mode only a recent alert reads its area; in
  debug mode either of the first two alerts does, whatever its age. Both
  kinds are modelled.

## Model

| member | source | states |
|---|---|---|
| `Text.ContainsIff` | alerts.py:265 | The keyword scan holds exactly when the keyword occurs at some position of the text (Python's `kw in text`), the empty keyword included. |
| `Text.AnyKeywordIff` | alerts.py:265 | `any(kw in text for kw in kws)` holds exactly when some listed keyword occurs at some position of the text. |
| `Text.FirstNonEmpty` | alerts.py:336-341 | The `a or b or ... or fallback` chain returns the fallback when every attribute is missing or empty; otherwise it returns the first non-empty one, with all before it empty. |
| `Filters.PaywallIff` | alerts.py:262-265 | A URL is paywalled exactly when some `PAYWALL_DOMAINS` entry occurs in its lower-cased form. |
| `Filters.SportsIff` | alerts.py:268-271 | A text is sports exactly when some `SPORTS_KEYWORDS` entry occurs in its lower-cased form. |
| `Filters.BoringIff` | alerts.py:274-279 | At priority 20 or more a text is never boring. Below it, a text is boring exactly when some `BORING_KEYWORDS` entry occurs in its lower-cased form. |
| `Filters.FiltersIgnoreCase` | alerts.py:262-279 | A string and its lower-cased form get the same answer from all three filters. |
| `Filters.NytimesIsPaywalled` | alerts.py:32-41 | Every `https://nytimes.com/...` link is paywalled, whatever its path. |
| `Priority.CalculatePriority` | alerts.py:282-295 | The accumulator loop returns 10 for each position of the keyword list whose keyword is found, plus 20 if an urgency word is found. The result is a multiple of 10 between 0 and 270. |
| `Priority.CountIsMatchedKeywords` | alerts.py:287-289 | On a keyword list without repeats, the count is the number of distinct listed keywords found in the text. |
| `Priority.ScoreCountsDistinctKeywords` | alerts.py:60-66 | The high-priority list has no repeats, so the score is 10 per distinct keyword found plus the urgency boost. |
| `Priority.CountedWhenPresent` | alerts.py:287-289 | A listed keyword that occurs in the text adds at least one to the count. |
| `Priority.CountIsMatchedPositions` | alerts.py:287-289 | The count equals the number of list positions whose keyword occurs in the text. |
| `Priority.PriorityBounds` | alerts.py:60-66 | Every score is a multiple of 10 between 0 and 10·25+20. |
| `Priority.UrgencyReachesTwenty` | alerts.py:292-293 | Any urgency word lifts the score to 20 or more. |
| `Priority.DoubleListedWordsScoreThirty` | alerts.py:60-66 | "breaking" and "emergency" are in both lists, so a text containing either scores at least 30. |
| `Priority.NoKeywordCountsZero` | alerts.py:287-289 | If no listed keyword occurs, the count is 0. |
| `Priority.NoKeywordScoresZero` | alerts.py:282-295 | A text with no high-priority keyword and no urgency word scores 0. |
| `Priority.CriticalVulnerabilityScoresThirty` | alerts.py:282-295 | A text containing "critical vulnerability" scores at least 30: the keyword counts, and its "critical" triggers the boost. |
| `Recency.UnparsedIsNotRecent` | alerts.py:319-324 | An empty or unparseable timestamp is not recent. |
| `Recency.NaiveIsUtc` | alerts.py:325-326 | A timestamp without an offset is compared as a UTC time. |
| `Recency.WindowBoundary` | alerts.py:327-329 | Exactly `window` minutes old is recent; one second older is not. |
| `Recency.RecentIsMonotone` | alerts.py:328-329 | A wider window, or an earlier clock, keeps a recent timestamp recent. |
| `SeenStore.SaveSeenItems` | alerts.py:235-259 | The stamping loop and the pruning produce the saved file. An unreadable file is left unwritten. |
| `SeenStore.SaveStamps` | alerts.py:244-252 | A stored id within retention keeps its first-seen time. A new id is stamped `now`. Only entries newer than seven days remain. Keys come only from the stored and saved ids. |
| `SeenStore.SaveStoredIdsIsIdempotent` | alerts.py:246-248 | Saving ids that are all stored already changes no timestamp; it only prunes. |
| `SeenStore.FirstSeenIsPreserved` | alerts.py:246-248 | A later save never re-stamps an id that is still within retention. |
| `SeenStore.LoadAfterSave` | alerts.py:219-252 | If no saved id has an expired stamp in the file, loading right after a save returns the ids loaded before plus every id saved. |
| `SeenStore.LoadSeenItems` | alerts.py:219-232 | A load returns exactly the stored ids whose stamp is later than seven days before `now`. A missing or unreadable file loads as the empty set. |
| `SeenStore.ExpiredIsForgotten` | alerts.py:226-229 | An id stamped seven days ago or earlier is not returned by a load. |
| `SeenStore.SaveForgetsExpiredSeenId` | alerts.py:244-252 | As written, an id whose only stamp has expired is neither loaded nor re-stamped on save, so the saved file drops it. |
| `SeenStore.CorrectedSaveRecordsEverySeenId` | alerts.py:244-252 | Pruning before stamping keeps live first-seen times and stamps every other saved id `now`. A load right after then returns the earlier ids plus all saved ones. |
| `SeenStore.CorrectedSaveTwice` | alerts.py:244-252 | With the correction, saving the same ids twice at the same time is the same as saving once. |
| `Ranking.SortByPriorityCorrect` | alerts.py:419 | The order is descending by priority and is a permutation of the collected items. Among equal priorities it keeps collection order. |
| `Ranking.SortIsUnique` | alerts.py:419 | Any sequence that is descending and stable with respect to the collected items is the sort's result. |
| `Notify.Dispatch` | alerts.py:421-425 | One message per item, in order, each built from its item. |
| `Notify.MarkerExactlyWhenHot` | alerts.py:422 | A message carries the fire marker exactly when its item's priority is 20 or more, and otherwise none. |
| `Feeds.EntryIdFallback` | alerts.py:334-341 | The id is the first non-empty of id, guid, link and title. It is "" exactly when all four are missing or empty. |
| `Feeds.LinkedEntryHasId` | alerts.py:334-341 | An entry with a link always has a non-empty id. |
| `Feeds.Normalise` | alerts.py:376-379 | The candidate's id is the entry id. The title is never empty because of the "New item" default. The date is "" only when both `published` and `updated` are missing or empty. |
| `Feeds.Gate` | alerts.py:371-404 | An entry is accepted exactly when its id is unseen and it has a link, is not paywalled, not sports, recent and not boring at its own score. The item carries that score. A rejection names the first failing test, in the order seen, link, paywall, sports, recency, boring. |
| `Feeds.SelectionRecordsIds` | alerts.py:373-407 | The seen set grows by exactly the collected ids. None of them was seen at the start, and no two collected items share an id. |
| `Feeds.SelectionSound` | alerts.py:371-413 | Every collected item is the item of an eligible entry whose id was not seen at the start. |
| `Feeds.SelectionComplete` | alerts.py:371-413 | The id of every eligible entry ends up in the seen set: it was either seen before or collected. |
| `Feeds.SeenOrLinklessNeverCollected` | alerts.py:373-382 | A collected item never has an id that was seen at the start, and never has an empty link. |
| `Feeds.UrgentIsNeverBoring` | alerts.py:399-404 | An entry whose text has an urgency word is never rejected as boring. |
| `Rss.SendFeedSamples` | alerts.py:358-368 | Of a feed's first two entries, debug mode sends those that have a link, with the source's title and date defaults. |
| `Rss.SelectEntry` | alerts.py:371-413 | One step of the normal-mode loop equals one step of the gate fold. This covers both the seen set and the collected list. |
| `Rss.SelectFeed` | alerts.py:371-413 | The loop over one feed's entries equals the gate fold over them. |
| `Rss.SendItems` | alerts.py:421-425 | The send loop emits exactly the dispatch messages of the sorted items. |
| `Rss.CheckRssSources` | alerts.py:346-430 | Normal mode leaves the seen set as the fold's and sends the sorted items. Debug mode leaves the seen set alone and sends the samples. The count equals the messages sent. |
| `Rss.DebugSamplesBounded` | alerts.py:358-368 | Debug mode sends at most two messages per feed, each with a link. |
| `Rss.NormalRunDispatch` | alerts.py:371-425 | What normal mode sends is descending by priority, a stable permutation of the collected items, and free of ids seen at the start and of empty links. Each message is marked hot exactly at priority 20 or more. |
| `Nws.CheckNwsSevere` | alerts.py:433-480 | A transport failure, a non-200 status or a non-JSON body sends nothing. Otherwise it sends the debug samples or the recent alerts, up to the first alert that raises. The count equals the messages sent. |
| `Nws.SendDebugAlerts` | alerts.py:451-461 | The debug loop sends each alert given. It stops at a `properties` value that is not an object or an `areaDesc` that cannot be sliced. |
| `Nws.SendAlerts` | alerts.py:463-475 | The normal loop sends the recent alerts in order. It stops at a `properties` value that is not an object, or at a recent alert whose `areaDesc` cannot be sliced. |
| `Nws.AlertTimeFallback` | alerts.py:466 | The timestamp falls back from `sent` to `effective` to `onset`. |
| `Nws.AlertLinkFallback` | alerts.py:472 | The link falls back from `uri` to `id` to the alerts portal, so it is never empty. |
| `Nws.AlertsAreRecent` | alerts.py:464-473 | Every alert sent in normal mode is the projection of a well-formed feature whose timestamp is recent. |
| `Nws.AlertsComplete` | alerts.py:464-475 | When no alert raises, every recent alert is sent. No keyword filter applies. |
| `Nws.AlertsCount` | alerts.py:464-475 | When no alert raises, the number of messages equals the number of recent alerts, so nothing is deduplicated. |
| `Nws.AlertsSplit` | alerts.py:464-475 | The messages of a list are those of its front followed by those of its back, provided nothing in the front raises. Messages keep feed order. |
| `Nws.RaiseEndsAlerts` | alerts.py:464-478 | An alert that raises ends the call: what is sent is what its predecessors produced. |
| `Nws.UnsliceableAreaEndsAlerts` | alerts.py:471-478 | A recent alert whose `areaDesc` is null or a number ends the call, so no later alert is sent. |
| `Nws.DebugAlertsAtMostTwo` | alerts.py:451-452 | Debug mode sends at most two alerts, whatever their age. |
| `Run.RunOnce` | alerts.py:516-528 | A run sends the RSS messages followed by the NWS messages. Normal mode saves the final seen set; debug mode leaves the store file untouched. |
| `Run.RunRecordsSentIds` | alerts.py:516-528 | After a normal run the store keeps every id loaded at the start. Every id sent that had no entry in the file is stamped `now`. |

## Left out

- Network I/O is not modelled: `feedparser.parse`, the `requests.get` to NWS and the Telegram POST. A feed is given as its already-fetched entries, and a feed whose fetch failed is a feed with no entries. The NWS reply is given as a value. Sending a message is appending it to the sent sequence. Send failures change nothing in the source (fire-and-forget), so they are not represented.
- File and JSON I/O for the store are not modelled. The store file is a value: missing, unreadable, or an id-to-second map. A file that is not valid JSON, is not an object, or holds non-numeric values is "unreadable". Both operations then fail inside their `try`: load returns the empty set and save skips the write. A failing write (`mkdir`, `open` for writing) is not modelled.
- Date parsing internals (`dateutil`) are not modelled. The parser is a function parameter that returns `None` when parsing fails or raises.
- Float timestamps and `total_seconds() / 60` are not modelled. Times are whole Unix seconds, and the age test is `now - t <= window * 60`. This is the source's test exactly for whole seconds; sub-second fractions are not modelled.
- The clock is read once per run (`now`). The source reads it separately in each `is_recent` call, and twice in `save_seen_items`.
- Environment variables, `getenv_required`, `parse_args`, the default window of 30 minutes, logging and the top-level exception handler are not modelled.
- The contents of the `FEEDS` catalogue are not modelled: feeds are an opaque sequence of (label, entries). The HTML message layout is not modelled either; messages keep only the marker and the fields they show.
- `.lower()` is modelled only for ASCII letters. All keyword lists are lower-case ASCII.
- `Nws`: JSON null under `sent`, `effective`, `onset`, `uri` or `id` reads as absent, as Python's `or` treats it. A non-null, non-string value under those keys is not modelled. A null `event` is formatted as the text `None`; the model takes the event text as given, so such an alert has the event `Some("None")`. An `areaDesc` that is a list, which slices and prints as its Python text, is not modelled.
- Entry attributes are modelled as optional strings. Non-string attribute values are not modelled.
- `Run.RunOnce` uses the save as written, so it inherits the finding below.
- `Run.RunOnce` passes one store-file value to both the load and the save. The source reads the file again inside `save_seen_items`, so a write by another process between the load and the save is not modelled.

## Findings

| source | as written | input that shows it | evidently intended | confidence | as-written member | corrected member |
|---|---|---|---|---|---|---|
| alerts.py:244-252 | `save_seen_items` stamps only ids missing from the file, then drops entries older than seven days. An id that was just sent, but whose old entry has expired and is still in the file, is neither re-stamped nor kept. | Store `{"x": now − 8 days}` and seen `{"x"}`. The load does not return `"x"`, so the item is sent. The save then writes `{}`, so the item can be sent again on the next run. | Drop expired entries before stamping, so an id sent after its entry expired is stamped `now` and remembered. | medium (not executed) | `SeenStore.SaveForgetsExpiredSeenId` | `SeenStore.CorrectedSaveRecordsEverySeenId` |
