# Emergency Resource Locator: resilient alert-feed pipeline, modelled in Dafny

This project models the two pieces of the Emergency Resource Locator that do all of its failure
handling.

- **The backend's `/fetch-alerts` handler** (`FeedCache`, `feed_cache.dfy`). It is a revalidating
  fetch of the NDMA Sachet CAP/RSS feed with a single durable last-known-good slot `{etag, data}`.
  It sends the stored tag as an `If-None-Match` precondition (section 3.2 of RFC 7232). A 304 is
  answered from the slot. An OK body containing `<` overwrites the slot and is served. Anything
  else falls back to the slot's data, or to the fixed 500 page `<error>NDMA Connection Failed</error>`.
  The cache file is the field `file` of the class `FeedServer`. `FetchAlerts` is the handler,
  proved against the pure functions `Handle` and `After`. The upstream is a function from the
  request headers actually sent to its answer, so the conditional header is part of the model.
- **The dashboard's feed parser** (`CapParser`, `cap_parser.dfy`). `parseLiveCAPData` works over
  an abstract element tree. `FindAll` is the pre-order, name-matched search that stands for
  `querySelectorAll` and `getElementsByTagName`. `FindAllIsNamedPreOrder` proves it equal to the
  filtered pre-order walk. Turning the text into a tree is the parameter `dom`, whose `None` means
  the parser threw. The locale time formatter is the parameter `fmt`.
- **The dashboard's sync step** (`DashboardSync`, `dashboard_sync.dfy`). `fetchLiveNDMA` is split at
  the fetch hop. Its two awaits, `fetch` and `response.text()`, fold into one `HopOutcome`.
  `Begin` is the `isFetching` guard; `Finish` is the try/catch/finally that runs once the hop has
  an outcome. `Storage` says whether `localStorage` works, throws on `setItem` only, or throws on
  every access. The class `Dashboard` holds
  `isFetching`, `loading`, `updates` and the `ndma_xml_cache` snapshot, and its methods are proved
  against those two functions.
- **The joined pipeline** (`Pipeline`, `pipeline.dfy`). The handler's response is what the client's
  hop delivers.

Behaviour of the code that the model makes explicit:

- The markup test is `includes('<')`: a `<` anywhere in the body counts, on both sides.
- The client never checks `response.ok`. A non-2xx body from the backend is treated as a delivered
  feed, not as a failed hop. That includes the backend's own 500 page, which contains `<`. It is
  therefore stored as the offline snapshot, replacing an earlier good feed, and it is shown as the
  "No active alerts" placeholder (`Pipeline.ErrorPageReplacesSnapshot`).
- After a failed hop, the parse of the snapshot is published without the null/empty check of the
  success branch. If that parse threw, the published list would become `null`
  (`DashboardSync.UnparsableSnapshotPublishesNull`), while the page reads `updates.length`. In a
  browser this parse practically never throws (see "## Left out").
- `querySelectorAll("item")` on an XML document matches `item` by local name, whatever its
  namespace. `getElementsByTagName("title")` and `getElementsByTagName("pubDate")` match the
  qualified name, so a prefixed `<cap:title>` is not found. The model's `Node.name` stands for both
  kinds of name, so it assumes unprefixed elements.
- At most one write across two requests to an unchanged upstream holds only when the upstream sends
  a non-empty `etag`. Without one, no `If-None-Match` is sent and every OK reply rewrites the slot.
  `FeedCache.RevalidationIsIdempotent` assumes the upstream sends a non-empty tag, and holds from any slot.

## Model

| member | source | states |
|---|---|---|
| FeedCache.Load | erl1-backend/server.js:32-39 | a missing or unparsable cache file loads as the empty cache `{etag: null, data: null}`, never an error |
| FeedCache.RequestHeaders | erl1-backend/server.js:44-51 | `If-None-Match` is sent exactly when the stored tag is truthy and then equals it; the `User-Agent` and `Accept` headers are always sent and nothing else is |
| FeedCache.Fallback | erl1-backend/server.js:81-90 | the catch branch writes nothing, answers 200 exactly when the cached data is truthy and then serves exactly that data |
| FeedCache.Handle | erl1-backend/server.js:32-90 | a whole request writes a record only after an OK reply whose body contains `<` and a write that succeeds, and then writes exactly `{reply etag, reply body}`; a 500 is answered only when the loaded cache had no data |
| FeedCache.After | erl1-backend/server.js:70-73 | the cache file is either untouched or holds exactly the `<`-containing body that was just served |
| FeedCache.Serve | erl1-backend/server.js:59-90 | whatever is written to the slot is what is served and contains `<`; only 200 or 500 is answered; a 500 is the fixed error page, answered only when the cache had no data and with nothing written |
| FeedCache.FeedServer.FetchAlerts | erl1-backend/server.js:31-91 | the handler sends the headers built from the loaded cache, answers what `Handle` decides and leaves the file as `After` says |
| FeedCache.NotModifiedServesCache | erl1-backend/server.js:59-64 | a 304 serves the cached data (an empty body when there is none) and writes nothing |
| FeedCache.FreshBodyReplacesSlot | erl1-backend/server.js:67-76 | an OK body containing `<` replaces the whole slot with `{response etag (possibly null), body}` and is served |
| FeedCache.RejectedReplyIsNetworkError | erl1-backend/server.js:70-81 | a non-OK status, a body without `<` (the empty body included) or a throwing cache write takes exactly the network-error path |
| FeedCache.EmergencyFallback | erl1-backend/server.js:83-89 | on failure, truthy cached data is served unchanged with the slot untouched; otherwise status 500 with `<error>NDMA Connection Failed</error>` |
| FeedCache.AfterKeepsSlot | erl1-backend/server.js:70-73 | one request keeps stored data `<`-containing and never loses data the slot already had |
| FeedCache.RunKeepsSlotInvariant | erl1-backend/server.js:70-73 | over any sequence of requests, a slot that starts empty or `<`-containing stays `<`-containing |
| FeedCache.NoErrorOnceFilled | erl1-backend/server.js:84-89 | once the slot holds data, no later request in any sequence is answered with the 500 page |
| FeedCache.ServedBodyIsMarkupOrEmpty | erl1-backend/server.js:59-90 | from a `<`-containing slot, every body the handler sends is empty or contains `<` |
| FeedCache.RevalidationIsIdempotent | erl1-backend/server.js:49-76 | against an unchanged upstream honouring a non-empty tag, from any slot and whatever its body, a second request gets the same response as the first and writes nothing (at most one write); from a slot without a tag, the first request stores a `<`-containing body as `{tag, body}` and serves it |
| CapParser.TextContent | erl1-frontend/src/EmergencyDashboard.js:35-36 | `textContent` is the concatenation of the tree's text nodes in tree order |
| CapParser.TextContentAll | erl1-frontend/src/EmergencyDashboard.js:35-36 | the text content of a sequence of trees is the concatenation of their text nodes in tree order |
| CapParser.FirstText | erl1-frontend/src/EmergencyDashboard.js:35-36 | `getElementsByTagName(tag)[0]?.textContent` is absent exactly when no descendant has that name, otherwise the text of the first such descendant in document order |
| CapParser.ItemRecord | erl1-frontend/src/EmergencyDashboard.js:38-43 | a record built from an item is an `alert` with an id starting `live-` and a non-empty msg; its time is "Recent" when the item has no non-empty `pubDate` |
| CapParser.FindAll | erl1-frontend/src/EmergencyDashboard.js:29 | every element found under a node (the node included) has the searched name |
| CapParser.FindAllIn | erl1-frontend/src/EmergencyDashboard.js:35-36 | every element found among the descendants has the searched name |
| CapParser.FindAllIsNamedPreOrder | erl1-frontend/src/EmergencyDashboard.js:29 | the search returns exactly the elements of that name in pre-order (document order), the root included |
| CapParser.FindAllInIsNamedPreOrder | erl1-frontend/src/EmergencyDashboard.js:35-36 | the descendant search returns exactly the descendants of that name in document order |
| CapParser.DecimalString | erl1-frontend/src/EmergencyDashboard.js:39 | the index in `live-${index}` is written as a non-empty string of decimal digits |
| CapParser.DecimalStringValue | erl1-frontend/src/EmergencyDashboard.js:39 | the digits of the index's string spell the index in base 10 |
| CapParser.DecimalStringInjective | erl1-frontend/src/EmergencyDashboard.js:39 | distinct indices give distinct decimal strings |
| CapParser.ParseDocument | erl1-frontend/src/EmergencyDashboard.js:29-44 | between 1 and 5 records; with no `item` exactly the placeholder; otherwise min(n, 5) records, record i built from the i-th item in document order |
| CapParser.ParseLiveCapData | erl1-frontend/src/EmergencyDashboard.js:23-48 | `null` exactly when parsing throws, never a partial list: otherwise exactly the parsed document's whole alert list, which is never empty and has at most 5 records |
| CapParser.NoItemsGivesPlaceholder | erl1-frontend/src/EmergencyDashboard.js:31 | a document with zero `item` elements gives exactly `[{id: 'none', msg: 'No active alerts', time: '--'}]` |
| CapParser.ItemsGiveRecordsInOrder | erl1-frontend/src/EmergencyDashboard.js:33-43 | record i has id `live-i` and type `alert`; its msg is the first title's text or "Disaster Update"; its time is the formatted first pubDate or "Recent" |
| CapParser.MessagesAreNonEmpty | erl1-frontend/src/EmergencyDashboard.js:35-41 | every parsed record has a non-empty msg |
| CapParser.IdsAreDistinct | erl1-frontend/src/EmergencyDashboard.js:39 | the records of one parsed list have pairwise distinct ids |
| CapParser.ParsedIds | erl1-frontend/src/EmergencyDashboard.js:31-39 | a parsed record's id is `none` or starts with `live-` |
| DashboardSync.Initial | erl1-frontend/src/EmergencyDashboard.js:9-15 | the dashboard mounts loading, with an empty list and the stored snapshot, and its first tick issues a hop |
| DashboardSync.Begin | erl1-frontend/src/EmergencyDashboard.js:54-55 | a hop is issued exactly when none is in flight; the in-flight flag is set afterwards and nothing else changes |
| DashboardSync.Recover | erl1-frontend/src/EmergencyDashboard.js:71-83 | the catch branch never changes the snapshot; with no truthy snapshot it publishes the single `err` record; with storage blocked `getItem` throws and nothing is published |
| DashboardSync.Finish | erl1-frontend/src/EmergencyDashboard.js:57-87 | after every attempt both `loading` and `isFetching` are false; the snapshot changes only to a delivered `<`-containing text; the published list never becomes the empty list |
| DashboardSync.Dashboard.constructor | erl1-frontend/src/EmergencyDashboard.js:9-15 | the dashboard mounts loading, not fetching, with an empty list and the snapshot an earlier session left |
| DashboardSync.Dashboard.StartSync | erl1-frontend/src/EmergencyDashboard.js:54-55 | the guard, as `Begin` states it, applied to the fields |
| DashboardSync.Dashboard.CompleteSync | erl1-frontend/src/EmergencyDashboard.js:57-87 | the try/catch/finally, as `Finish` states it, applied to the fields |
| DashboardSync.Dashboard.FetchLiveNdma | erl1-frontend/src/EmergencyDashboard.js:53-88 | a call while a sync is in flight fetches nothing and changes nothing; otherwise the fields end as `Finish` says |
| DashboardSync.TickWhileInFlightIsDropped | erl1-frontend/src/EmergencyDashboard.js:54 | a tick while a hop is in flight issues nothing and changes no state |
| DashboardSync.BackToBackTicksFetchOnce | erl1-frontend/src/EmergencyDashboard.js:54-86 | two ticks back to back issue at most one hop; after the sync finishes, the next tick issues one again |
| DashboardSync.DeliveredMarkupIsSnapshotted | erl1-frontend/src/EmergencyDashboard.js:62-69 | a delivered text containing `<` overwrites the snapshot; the list is replaced exactly when the parse is non-null (hence non-empty), else kept |
| DashboardSync.DeliveredNonMarkupIsIgnored | erl1-frontend/src/EmergencyDashboard.js:62-70 | a delivered text without `<` (the empty text included) changes nothing but clears the two flags |
| DashboardSync.StorageFailureIsHopFailure | erl1-frontend/src/EmergencyDashboard.js:64-75 | a snapshot write that throws, alone or because all storage access throws, takes exactly the failed-hop path |
| DashboardSync.FailedHopFallsBack | erl1-frontend/src/EmergencyDashboard.js:71-83 | a failed hop keeps the snapshot; with a truthy snapshot it publishes its parse (possibly null), else the single `err`/`SYNC ERR` record; with storage blocked the list is kept |
| DashboardSync.UnparsableSnapshotPublishesNull | erl1-frontend/src/EmergencyDashboard.js:73-75 | a failed hop with a readable snapshot whose parse throws sets the list to `null` |
| DashboardSync.StepsKeepSnapshotInvariant | erl1-frontend/src/EmergencyDashboard.js:62-64 | the snapshot, once present, always contains `<` |
| DashboardSync.SnapshotHidesSyncError | erl1-frontend/src/EmergencyDashboard.js:73-82 | with a truthy snapshot, a failed hop never publishes the sync-error record: the list is the snapshot's parse, or the previous list when storage is blocked |
| Pipeline.ServedBodiesAreSnapshotted | erl1-frontend/src/EmergencyDashboard.js:59-64 | from a `<`-containing server slot, every non-empty body the handler sends becomes the client snapshot when `localStorage` accepts the write, whatever the status |
| Pipeline.ErrorPageReplacesSnapshot | erl1-frontend/src/EmergencyDashboard.js:59-69 | when `localStorage` accepts the write and the parser finds no `item` in the page, the backend's 500 page replaces the client snapshot and is published as the "No active alerts" placeholder |

## Left out

- The Express app, CORS, the root informational route and `app.listen` (erl1-backend/server.js:11-26, 93): framework and presentation plumbing.
- Logging (`console.log`, `console.error`, `console.warn`): it has no effect on the outcome.
- The real network, `fs` and `localStorage`. The upstream answer, the fetch hop's outcome, a throwing `writeFileSync` (`writeFails`) and how `localStorage` behaves (`Storage`) are parameters.
- When storage is blocked, the model keeps the snapshot it had as a value, even though the browser cannot read it. It does not model the rejected promise of `fetchLiveNDMA` once `getItem` throws inside the catch.
- JSON serialisation of the cache file. The file is absent, unreadable, or a stored `{etag, data}` record with string-or-null fields. A file that parses to some other JSON value (for example `null`, which would make the handler throw again inside its catch) is not modelled.
- FeedCache.FeedServer.FetchAlerts: a throwing `writeFileSync` is taken to leave the file as it was; a partially written file is not modelled.
- Concurrent requests racing on the cache file: the handler is modelled one request at a time.
- `DOMParser` and XML namespaces. Parsing text into a tree is the parameter `dom`, and element names are matched exactly.
- `new Date(pubDate).toLocaleTimeString()` depends on locale and timezone. It is the parameter `fmt`. In the browser it does not throw; an invalid date gives "Invalid Date". So the only parse failure modelled is `dom` throwing.
- `dom`'s `None` over-approximates. `parseFromString(s, "text/xml")` does not throw on malformed input; it returns a document holding a `parsererror` element. Nothing else in the parser throws either, so in a browser the `null` result (and the `null` list after a failed hop) is practically unreachable.
- FindAll: a prefixed `item`, which `querySelectorAll` finds, is not modelled; element names are taken to be unprefixed.
- React's asynchronous state updates: `setUpdates`/`setLoading` are applied at once. The `useCallback` wrapper is not modelled.
- The 60-second `setInterval` timer, the online/offline listeners, `navigator.onLine`, the modal state and rendering (erl1-frontend/src/EmergencyDashboard.js:90-297): event plumbing and UI. Ticks are modelled as calls of `Begin`, and the in-flight hop as the gap before `Finish`.
- erl1-frontend/src/FAQPage.js (an EmailJS mailer and a random ticket id), erl1-frontend/src/AboutPage.js and erl1-frontend/src/App.js: presentation, routing and a foreign call.
- Response headers beyond the content type (charset, ETag and length headers Express adds itself).
