# tc1-rss-service, modelled in Dafny

The service serves topcoder challenges as an RSS feed. For each request it does the following:

1. It normalizes the query string: it applies a whitelist, derives `type` from `type`, `track` or `contestType`, and defaults `list`.
2. It serves the rendered feed from an in-memory cache when the cache holds it.
3. Otherwise it decides which upstream lists to fetch:
   - both the standard list and the data-science (marathon) list for `type` `"all"`;
   - only the data-science list for `type` `"data"`;
   - only the standard list for the other valid tracks;
   - nothing, with a 400 reply, for an invalid query.
4. It renders the records into RSS, sends the feed and caches it.

Sending is suppressed once the request has timed out. Every upstream response with status 200 is itself cached, under a "raw" key made from its URL and query; an error or any other status is not cached. Every cache entry expires lazily after `CACHE_TIME` minutes.

The model has one module per source file, plus a module of JavaScript values:

- `Js` holds the JavaScript values the code handles:
  - JSON members with `undefined`;
  - truthiness and `a || b`;
  - `_.isEmpty`;
  - `String(v)` and `Array.prototype.join`;
  - the text of `JSON.stringify(object)`;
  - the parsed response body `Body`. It is a class because the raw cache holds it by reference.
- `Config` holds the literals of `config/defaults.js`.
- `Cache` (`utils/cache.js`) is the `TtlCache` class over one map. Write times live in the same keyspace, under `"timestamp_" + key`. `Read` and `Write` are the functions that specify `get` and `put`.
- `RssUtil` (`utils/rssutil.js`) contains:
  - the stable ascending sort by `registrationStartDate` followed by a reverse, as the functions `SortAsc`, `Reverse` and `Ordered`;
  - the item fields: `Link`, `Guid` and `ToItem`;
  - the description blurb, as the method `BuildChallengeInfoBlurb` specified by the function `Blurb`;
  - the feed, as the method `BuildFeedXML`, which pushes items into the `Rss` class and is specified by `FeedItems`.
- `TcApi` (`utils/tcapi.js`) contains:
  - the raw-cache key scheme;
  - the read-through/write-through request `RequestFromApi` over a `Network` with a logged call history;
  - the list-then-detail fetch `GetStandardChallenges`, with its detail loop `FetchDetails`;
  - the marathon fetch and mapping `GetDataScienceChallenges`.
- `Feed` (`utils/feed.js`) contains:
  - the pure `NormalizeQuery` and `Dispatch`;
  - the gated `Response.Send`;
  - `ReturnFeed` and the fetch callback `Answer`;
  - the handler `Handle`.

One behaviour of the code differs from what its own comment announces. The model follows the code:

- **List collapse.** The comment "list: default and collapse" (utils/feed.js:53) announces that a multi-value `list` collapses to its first value. The collapse guard at utils/feed.js:56 takes `_.size` of the boolean `list > 1`, which is always 0. A multi-value list is therefore kept, and it then fails the validity check; see `Feed.CollapseGuardNeverHolds` and `Feed.MultiValueListRejected`. In the `"all"` mode the list is not checked at all (`Feed.AllModeSkipsListCheck`).

Once the request has timed out, `_sendResponse` (utils/feed.js:86-98) sends nothing and passes a timeout error (`TIMEOUT_MESSAGE`) to the next handler, as its comment says; see `Feed.SendGate`. The rendered feed is still cached.

A second behaviour of the code is exposed rather than hidden. The raw cache keeps the response body by reference. `getDataScienceChallenges` then overwrites the cached body's `data` with the mapped records. A second request for the same query within the time-to-live therefore maps already-mapped records, and loses the challenge names and dates (`TcApi.RepeatedDataScienceRequest`, `TcApi.MapMarathonTwice`).

Abstract parameters:

- `now` is the clock, in milliseconds. It is one instant for the whole request (see "Left out").
- `Network.respond` is the upstream API: a fixed function from request to reply.
- `enc` is the member text of `JSON.stringify`.
- `Libs` holds the foreign libraries: sanitize-html, html-truncate, moment formatting, `_.template` escaping and the `rss` serializer.
- `timedout` is the request's timeout flag.

## Model

| member | source | states |
|---|---|---|
| Cache.StampKey | utils/cache.js:33 | the write-time key of `key` is `"timestamp_"` followed by `key` |
| Cache.TtlCache.Get | utils/cache.js:31-42 | `get` returns what `Read` specifies for the current store and changes nothing |
| Cache.TtlCache.Put | utils/cache.js:44-48 | `put` writes the write time under the mark key, then the value under the key, overwriting both; the new store is `Write(old store, key, val, now)` |
| Cache.ReadUnwritten | utils/cache.js:33-41 | a key with no stored write time reads as absent |
| Cache.StampKeyDiffers | utils/cache.js:33 | a key never equals its own write-time key |
| Cache.ReadAfterWrite | utils/cache.js:34-38 | after `put(k, v)` at `t`, `get(k)` at `now` returns `v` exactly when `now - t <= CACHE_TIME*60*1000` (inclusive) and `t` is truthy, else nothing |
| Cache.ReadExpired | utils/cache.js:34-36 | an entry older than the time-to-live reads as absent, although its value is still stored |
| Cache.WriteLastWins | utils/cache.js:45-47 | two puts to one key leave the store as the second put alone would: the last write wins for value and mark |
| Cache.ReadOtherKey | utils/cache.js:45-47 | a put leaves every other key's read unchanged, unless one key is the other's write-time key |
| Cache.MarkOverwriteDefeatsExpiry | utils/cache.js:33-38 | a non-numeric text put under another key's write-time key makes that key's old value readable at any time |
| Js.ObjectText | utils/tcapi.js:45 | the text of `JSON.stringify` of an object opens with `{` and closes with `}` |
| RssUtil.StrLeTotal | utils/rssutil.js:86 | lexicographic string order is total |
| RssUtil.StrLeTrans | utils/rssutil.js:86 | lexicographic string order is transitive |
| RssUtil.KeyLeTotal | utils/rssutil.js:86 | the sort-key order is total |
| RssUtil.KeyLeTrans | utils/rssutil.js:86 | the sort-key order is transitive |
| RssUtil.BeforeTrans | utils/rssutil.js:86 | the stable-sort precedence (key, then input position) is transitive |
| RssUtil.Insert | utils/rssutil.js:86 | inserting into the sorted run lengthens it by one |
| RssUtil.SortAsc | utils/rssutil.js:86 | `sortBy` keeps the number of challenges |
| RssUtil.InsertPerm | utils/rssutil.js:86 | inserting into the sorted run adds exactly that element (multiset) |
| RssUtil.SortAscPerm | utils/rssutil.js:86 | `sortBy` returns a permutation of its input (multiset equality) |
| RssUtil.InsertSorted | utils/rssutil.js:86 | inserting an element from earlier in the input keeps the run sorted by key and, on equal keys, by input position |
| RssUtil.SortAscSorted | utils/rssutil.js:86 | `sortBy` is ascending by key and stable: equal keys keep input order |
| RssUtil.Reverse | utils/rssutil.js:87 | `reverse` keeps the length and swaps the first and the last element |
| RssUtil.ReverseAt | utils/rssutil.js:87 | `reverse` puts each element at its mirror position, keeps the length and is a permutation |
| RssUtil.Ordered | utils/rssutil.js:85-87 | the feed order has one entry per challenge |
| RssUtil.OrderedIsTagPermutation | utils/rssutil.js:85-87 | the feed order has one entry per challenge and is a permutation of the position-tagged input |
| RssUtil.OrderedPermutation | utils/rssutil.js:85-87 | each entry of the feed order is the input challenge at its recorded position, and every input position occurs |
| RssUtil.OrderedDescending | utils/rssutil.js:86-87 | the feed order is non-increasing by `registrationStartDate`, and equal dates appear in reverse input order |
| RssUtil.Link | utils/rssutil.js:91-93 | the link starts with the long-contest template when `problemId` is truthy, and with the challenge-details template otherwise |
| RssUtil.Guid | utils/rssutil.js:94 | the guid is truthy iff `challengeId` or `problemId` is |
| RssUtil.TemplatesExclusive | utils/rssutil.js:91-93 | no link starts with both the long-contest and the challenge-details template |
| RssUtil.LinkTemplate | utils/rssutil.js:91-93 | the link uses the long-contest template followed by `roundId + "&pm=" + problemId` iff `problemId` is truthy, and otherwise the details template followed by `challengeId + "/?type=" + challengeCommunity` |
| RssUtil.GuidChoice | utils/rssutil.js:94 | the guid is `challengeId` when truthy, else `problemId`; it is truthy iff one of them is |
| RssUtil.GuardFields | utils/rssutil.js:43-66 | each section's guard holds iff one of the fields that section tests (requirements: `detailedRequirements`; Prize: `firstPlacePrize` or `totalPrize`; Registration Period: either registration date; Type: `challengeType` or `challengeCommunity`; each other section its own field) is truthy, which needs that field to be present |
| RssUtil.Template | utils/rssutil.js:40-41 | every templated section opens with `<div>` |
| RssUtil.SectionHtml | utils/rssutil.js:43-68 | every section but the requirements opens with `<div>`; the requirements section is at least as long as its closing `<br />` |
| RssUtil.SectionHtmlNonEmpty | utils/rssutil.js:43-67 | the HTML of every section is non-empty |
| RssUtil.RenderActive | utils/rssutil.js:43-68 | the guarded pieces of a section list are the rendering of exactly its active sections |
| RssUtil.ActiveMembers | utils/rssutil.js:43-68 | a section is active iff it is listed and its guard holds |
| RssUtil.ActiveIncreasing | utils/rssutil.js:43-68 | the active sections keep the fixed section order |
| RssUtil.RankOfOrder | utils/rssutil.js:43-68 | the rank of each section is its position in the fixed order |
| RssUtil.BlurbSections | utils/rssutil.js:38-70 | the blurb is the rendering of exactly the sections whose guards hold, each once, in the order requirements, Platforms, Technologies, Prize, Registration Period, Open for registration, Submissions Due, Type |
| RssUtil.PieceEmptyIff | utils/rssutil.js:43-68 | one section contributes nothing iff its guard fails |
| RssUtil.PiecesEmptyIff | utils/rssutil.js:43-68 | a run of sections contributes nothing iff no guard in it holds |
| RssUtil.BlurbEmptyIff | utils/rssutil.js:38-70 | the blurb is empty iff no guard holds |
| RssUtil.BlurbOpensWithRequirements | utils/rssutil.js:31-33 | with truthy requirements the blurb opens with `truncate(sanitize(detailedRequirements), DESC_TRUNC_LENGTH) + "<br />"` |
| RssUtil.Advance | utils/rssutil.js:43-68 | appending the piece at position `k` to the pieces ahead of `k` gives the pieces ahead of `k + 1` |
| RssUtil.AppendSection | utils/rssutil.js:43-68 | one guarded `html +=` step appends exactly that section's piece |
| RssUtil.BuildChallengeInfoBlurb | utils/rssutil.js:38-72 | the blurb built step by step equals `Blurb` |
| RssUtil.Rss.constructor | utils/rssutil.js:82 | a new feed has no items |
| RssUtil.Rss.Item | utils/rssutil.js:89-97 | `feed.item` appends one item and keeps the earlier ones |
| RssUtil.FeedItemsSpec | utils/rssutil.js:85-98 | one item per challenge; item `i` is the item of the challenge at the `i`th feed position (title `challengeName`, date `registrationStartDate`); every challenge gets its item; item dates are non-increasing |
| RssUtil.ToItemFields | utils/rssutil.js:89-96 | an item has the challenge name as title and `registrationStartDate` as date; its link uses the long-contest template iff `problemId` is truthy; its guid is truthy iff `challengeId` or `problemId` is; its description is empty iff no section guard holds |
| RssUtil.FeedItems | utils/rssutil.js:85-98 | one item per challenge |
| RssUtil.BuildFeedXML | utils/rssutil.js:80-102 | the loop pushes the items of the sorted-and-reversed challenges, and the result is the serializer applied to `FeedItems` |
| TcApi.WithDefaults | utils/tcapi.js:29-32 | the merged query has `pageIndex = 1` and `pageSize = PAGE_SIZE`, overriding the caller; every other member is kept; no query gives exactly the defaults |
| TcApi.ListUrl | utils/tcapi.js:82 | the list URL is the standard URL, then `/`, then the text of the list |
| TcApi.DetailUrl | utils/tcapi.js:92 | the detail URL is the standard URL, then `/`, then the text of `challengeId` |
| TcApi.QueryText | utils/tcapi.js:45 | `JSON.stringify(query)` is `null` exactly when there is no query, and otherwise an object text in braces |
| TcApi.DataScienceUrlNotStandard | utils/tcapi.js:27-28 | the data-science URL is not under the standard-challenges URL |
| TcApi.RawKeyShape | utils/tcapi.js:45 | a raw key starts with `TC` and its write-time key with `timestamp_TC`; a key without query ends in the `l` of `null`, one with a query in `}` |
| TcApi.RawKeyInjective | utils/tcapi.js:45 | detail requests (null query) for distinct URLs have distinct raw keys |
| TcApi.RawKeysSeparate | utils/tcapi.js:45-46 | a write under one raw key leaves the read of every other raw key unchanged |
| TcApi.HitInBodies | utils/tcapi.js:46-51 | a body the raw cache serves is one of the bodies it holds |
| TcApi.PutRawKeepsShape | utils/tcapi.js:66 | caching a body keeps raw keys holding bodies, changes only raw-cache entries and adds only that body |
| TcApi.ChangesUnderWiden | utils/tcapi.js:66 | writes confined to the raw entries under a longer URL prefix are confined under any shorter one |
| TcApi.HitsApart | utils/tcapi.js:66 | two distinct raw keys served from the cache serve distinct bodies |
| TcApi.ErrorText | utils/tcapi.js:61-63 | a transport error is passed on as it is; a reply with another status becomes `"HTTP error "` followed by that status |
| TcApi.RawOnlyChangesLookup | utils/tcapi.js:66 | a key outside the raw cache reads the same before and after raw-cache writes |
| TcApi.Network.Fetch | utils/tcapi.js:54-60 | one upstream request: logged in order, answered by `respond` |
| TcApi.FetchAndCache | utils/tcapi.js:54-69 | the miss path makes exactly one call, `(url, query)`; on a 200 reply it returns a fresh body with the reply's members and data, and the store becomes that body written under the request's raw key; on another status or a transport error it returns `"HTTP error " + status` or the error and the store is unchanged; only raw entries under `url` change |
| TcApi.RequestFromApi | utils/tcapi.js:42-71 | on a raw-cache hit: the cached body, no call, no change. On a miss: exactly one call. On a 200 reply: a fresh body with the reply's members, cached under the key. Otherwise: `err` or `"HTTP error " + status`, and nothing cached |
| TcApi.Enrich | utils/tcapi.js:97 | the merge has the keys of both records, and the detail's values win |
| TcApi.EnrichIdempotent | utils/tcapi.js:97 | merging the same detail twice is merging it once |
| TcApi.Enriched | utils/tcapi.js:89-108 | a successful fan-out has one record per summary item |
| TcApi.EnrichedOk | utils/tcapi.js:89-108 | the fan-out succeeds iff the detail of every summary item is served, from the first cache or by a 200 reply |
| TcApi.EnrichedRecords | utils/tcapi.js:97-106 | on success record `k` is summary item `k` merged with its detail, in item order |
| TcApi.EnrichedFirstError | utils/tcapi.js:94-103 | on failure the error is that of the first item, in item order, whose detail fails, and every earlier detail succeeded |
| TcApi.MissCallsMisses | utils/tcapi.js:92-93 | the fan-out makes at most one call per item; each call has a null query, goes to the detail URL of a summary item, and that URL misses the cache |
| TcApi.MissCallsIssued | utils/tcapi.js:89-93 | every summary item whose detail misses the cache is requested |
| TcApi.MissCallsExact | utils/tcapi.js:89-93 | an item's detail is requested iff its lookup misses the cache at the start of the fan-out |
| TcApi.EnrichedStep | utils/tcapi.js:89-108 | one more item extends the fan-out result by its merge, or by its error if none came earlier, and the calls by its detail request iff it misses |
| TcApi.DetailsCachedServed | utils/tcapi.js:61-68 | after the fan-out, every missed detail with a 200 reply is served from the cache, with the reply's members, until the time-to-live passes |
| TcApi.DetailsCachedStep | utils/tcapi.js:61-68 | one detail request keeps every earlier one cached and caches its own 200 reply |
| TcApi.FanOutStep | utils/tcapi.js:89-108 | one detail lookup and reply extend the result, the calls and the cached details to one more item |
| TcApi.FetchDetail | utils/tcapi.js:92-99 | with the lookup `hit` taken beforehand: a hit yields the cached body's members, with no call and no write; a miss makes exactly the call `(detail URL, null)`; its 200 reply is cached under the detail's raw key and its members are the result; another reply or an error yields the error text and nothing is written; only raw entries under the standard URL change |
| TcApi.IssueLookups | utils/tcapi.js:89-93 | `async.map` looks every item's detail up in the cache before any reply arrives; lookup `k` is item `k`'s read |
| TcApi.FetchDetails | utils/tcapi.js:89-108 | against the cache as it was when the lookups ran: the result is exactly the fan-out `Enriched` (the merged records, or the first error in item order); the calls are exactly one `(detail URL, null)` per item whose lookup missed, in item order; every 200 detail reply is cached; only raw entries under the standard URL change |
| TcApi.DetailReadsAfterListPut | utils/tcapi.js:61-68 | caching the list body leaves every detail lookup unchanged |
| TcApi.StandardFetchOk | utils/tcapi.js:81-113 | the standard fetch succeeds iff the list is served (from the cache or by a 200 reply) and every summary item's detail is; its records are then the summary items merged with their details, in order |
| TcApi.StandardFetchCalls | utils/tcapi.js:81-113 | no list call on a list hit; on a miss the first call is `(list URL, query with defaults)`; a failed list call is the only call; after it, one `(detail URL, null)` call for exactly the summary items whose detail misses |
| TcApi.GetStandardChallenges | utils/tcapi.js:81-113 | the result and the calls are those of `StandardFetch` against the cache at the start: the list error, or the fan-out error, or success with the list body's `data` replaced by the merged records; on a list hit the body is the cached one, on a miss a fresh body with the 200 reply's members; a cached list body keeps its `data` when the fetch fails; the only cached body it may update is the one its list lookup serves; only raw entries under the standard URL change |
| TcApi.MapMarathon | utils/tcapi.js:132-137 | a mapped record has exactly `challengeName = fullName`, `problemId`, `roundId` and `registrationStartDate = startDate` |
| TcApi.MapAll | utils/tcapi.js:131-138 | the mapping keeps length and order |
| TcApi.MapMarathonTwice | utils/tcapi.js:131-138 | mapping twice loses the name and the date, and keeps the ids |
| TcApi.ScienceKeyApart | utils/tcapi.js:27-45 | the data-science raw key and its write-time key lie outside the standard URL's raw entries |
| TcApi.ScienceReadKept | utils/tcapi.js:27-45 | writes under the standard URL leave the data-science lookup unchanged |
| TcApi.StandardKeyNotScience | utils/tcapi.js:27-45 | a standard list key is never the data-science key |
| TcApi.GetDataScienceChallenges | utils/tcapi.js:122-142 | with the defaults merged in: on a raw-cache hit the cached body's records are mapped again in place, with no call; on a 200 reply a fresh body holds the mapped reply records and is cached; on an error nothing is cached; the only cached body it may update is the one its lookup serves |
| TcApi.RepeatedDataScienceRequest | utils/tcapi.js:48-51 | two identical data-science requests within the time-to-live make one call, and the second returns records without name or date |
| Feed.Size | utils/feed.js:56 | `_.size` of a value that is neither a string nor an array is 0 |
| Feed.CollapseGuardNeverHolds | utils/feed.js:56 | the collapse guard never holds |
| Feed.NormalizeQuery | utils/feed.js:45-61 | the normalized query always has a truthy `type` and a `list`, and never `track` or `contestType` |
| Feed.NormalizeWhitelist | utils/feed.js:47-51 | the normalized query has only whitelisted keys, always `type` and `list`, never `track` or `contestType`; `challengeType`, `platforms` and `technologies` pass through unchanged |
| Feed.NormalizeType | utils/feed.js:50 | `type` is the first truthy of `type`, `track`, `contestType`, else `"all"`, and is truthy |
| Feed.NormalizeList | utils/feed.js:54-58 | `list` becomes `"active"` iff it is missing or empty; any other list, multi-valued or not, passes unchanged |
| Feed.NormalizeIdempotent | utils/feed.js:45-61 | normalizing a normalized query changes nothing |
| Feed.Dispatch | utils/feed.js:138-193 | a single-list fetch needs a valid track and a valid list; the data-science-only fetch happens iff the query is not in the `"all"` mode, `type` is `"data"` and the list is valid; the standard-only query has no `list` |
| Feed.DispatchBoth | utils/feed.js:138 | both lists are fetched iff the query is empty, `type` is empty, or `type` is `"all"`; the list is taken as it is |
| Feed.DispatchTracks | utils/feed.js:160-186 | otherwise the query is rejected iff the type or the list is not valid; `"data"` fetches only the data-science list; other tracks fetch only the standard list, with the query minus `list` |
| Feed.ListOfValidTrack | utils/feed.js:160-161 | for a valid track and a non-empty list, the query is rejected iff the list is not a valid list |
| Feed.MultiValueListRejected | utils/feed.js:56 | a valid track with a two-value list of valid lists is rejected, while one valid list is served |
| Feed.AllModeSkipsListCheck | utils/feed.js:138-144 | in the `"all"` mode any non-empty list is fetched unchecked |
| Feed.AfterSend | utils/feed.js:86-98 | after a timeout the status, type and body are left as they were and the timeout error is passed on; otherwise the body is sent and nothing is passed on |
| Feed.SendGate | utils/feed.js:86-98 | after a timeout only the timeout error is passed on (no status, type or body); otherwise the body is sent, with the status when a code is given and the XML type when asked |
| Feed.Response.Send | utils/feed.js:86-98 | `_sendResponse` updates the response as `AfterSend` says |
| Feed.FeedKey | utils/feed.js:73-74 | the feed key is the text of the normalized query object, in braces |
| Feed.FeedKeyNotRaw | utils/feed.js:73-74 | a feed key and its write-time key are never raw-cache keys |
| Feed.FeedServedUntilExpiry | utils/feed.js:126-130 | a feed written at `t` is read back until the time-to-live has passed |
| Feed.ReturnFeed | utils/feed.js:107-114 | the feed of the records is sent and then cached under the serialized query, also after a timeout |
| Feed.FeedPutKeepsRaw | utils/feed.js:112 | caching a feed keeps raw keys holding bodies |
| Feed.FeedWrittenAfterRaw | utils/feed.js:112 | after raw-cache writes and the feed put, the feed and its write time are stored, and nothing else outside the raw cache changed |
| Feed.TouchedInBodies | utils/feed.js:138-185 | the bodies a fetch may update in place are bodies the cache holds |
| Feed.DataAfterBoth | utils/feed.js:139-146 | in the `"all"` mode a cached body the standard lookup serves takes the merged records (or keeps its data on failure), one the data-science lookup serves has its records mapped again, and any other keeps its data; no body is both |
| Feed.ScienceAndCombine | utils/feed.js:143-155 | the data-science fetch for `listType` runs with the calls of `ScienceFetch`; the result is the standard error if there is one, else the data-science error, else both record lists; a cached data-science body served by the lookup has its records mapped again |
| Feed.FetchBoth | utils/feed.js:139-155 | the result and the calls are those of `PartsFetch` for the `"all"` mode; every cached body's new `data` is what `DataAfter` says; it may update only the bodies its two lookups serve; only raw entries change |
| Feed.FetchFor | utils/feed.js:138-185 | the result and the calls are those of `PartsFetch` against the cache at the start: `"all"` gives the standard records (list with no query) then the data-science records (for `listType`), standard calls before data-science calls, and fails with the standard error if that fetch fails, else with the data-science error; `"data"` gives only the mapped marathon records; another track gives only the standard records, for the query minus `list`; only raw entries change; every cached body's new `data` is what `DataAfter` says (the served list body takes the merged records on success, the served data-science body is mapped again, every other body keeps its data), and only the bodies its lookups serve may be updated |
| Feed.PartsFetchScoped | utils/feed.js:165-184 | a `"data"` fetch calls only the data-science URL and yields no standard records; another track calls only URLs under the standard URL and yields no data-science records |
| Feed.Answer | utils/feed.js:107-122 | on a fetch error it sends 500 with the internal-error text and leaves the cache as it was; otherwise it sends the feed of the standard-then-science records as XML and the store becomes that feed written under the feed key |
| Feed.Refresh | utils/feed.js:107-185 | after a miss on an accepted query: the calls are those of `PartsFetch`; it fails iff the fetch fails, and then sends 500 with the internal-error text and writes no feed; otherwise it renders the fetched standard-then-science records, sends the feed and caches it; every cached body's `data` ends as `DataAfter` says, and only the bodies the lookups serve may be updated |
| Feed.ServeUncached | utils/feed.js:131-198 | an invalid query gets 400 with the fixed XML, no call, no cache write and no body changed; any other query is fetched, answered and its bodies updated as `Refresh` says |
| Feed.Handle | utils/feed.js:71-195 | it is served from the cache iff the feed key reads a truthy value, then sending it with no call and no change. Otherwise an invalid query gets 400 with the fixed XML, with no call and no cache write. Otherwise the calls are exactly those of `PartsFetch` for the decision; it fails with 500 and the internal-error text iff an upstream fetch fails, with no feed write; else the feed of exactly the fetched standard-then-science records is sent and cached, and only raw-cache entries change besides; a served or rejected request changes no cached body's `data`, and otherwise every cached body's `data` ends as `DataAfter` says for the decision |

## Left out

- HTTP, the `request` library and its timeout (utils/tcapi.js:54-60): `Network.respond` stands for the reply of each request. It is a fixed function of URL and query, so a repeated request gets the same reply.
- Concurrency: `async.map` looks every detail up in the cache before any reply, and then requests every missed detail. The model does the same, in item order. It reports the error of the first failing item in item order; JavaScript reports the first failure in time.
- Feed.FetchFor: `async.parallel` in the `"all"` mode is modelled as the standard fetch (list, then details) followed by the data-science fetch. JavaScript interleaves these requests. The standard fetch writes only raw entries under the standard URL, which the data-science lookup never reads (`TcApi.ScienceReadKept`, `TcApi.StandardKeyNotScience`), and the data-science fetch writes only its own raw entry and body, which the standard fetch never reads, so the result is the same. When both fetches fail, the model reports the standard error; JavaScript reports whichever fails first.
- Logging, `index.js`, the Express server and the timeout middleware. The flag that the middleware sets is the `timedout` input, sampled once per request.
- The foreign libraries (sanitize-html, html-truncate, moment, `_.template` escaping, `rss`) are the uninterpreted functions of `Libs`. `moment(undefined)` formats the current time; that is inside `formatDate`.
- `JSON.stringify` member order and escaping are the abstract `enc`. Only the braces around an object's text are modelled.
- `_.merge` is modelled as a member-wise override, not a deep merge. Its in-place update of the caller's query (utils/tcapi.js:83, 123) is not modelled, because no caller reads that query afterwards.
- The in-place update of each summary item by `_.merge(item, detail)` (utils/tcapi.js:97) is not modelled. The model writes the merged records into the list body only on success, so after a failed detail the cached list keeps its pristine items, whereas JavaScript leaves the already-fetched items merged. A later merge of the same details gives the same records either way (`TcApi.EnrichIdempotent`).
- A detail body's own `data` member is not merged into the item. Only its other members (`fields`) are. A response with no `data` member is taken as having an empty `data`.
- RssUtil.KeyLe: lodash orders non-string sort keys (numbers, `null`, `undefined`) among themselves; the model ties them all after every string.
- `Js.JoinValue`: on a truthy `platforms` or `technologies` that is not an array, `.join` throws, whereas the model renders the value as one element.
- Feed.GreaterThanOne: it converts a value to a number only for text made of decimal digits. This suffices, because the guard around it never holds.
- Cache.Expired: it takes a text mark as NaN. JavaScript would convert a text that is a numeral. The service never writes text under a write-time key.
- The clock: `now` is one instant for the whole request, whereas `get` and `put` each read the clock (utils/cache.js:32, 45). The model does not capture an entry that expires between two lookups of one request, nor the later write times of entries put during it.
- 32-bit and floating-point arithmetic: times and numbers are unbounded integers.
