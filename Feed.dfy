/** The feed request handler: normalize the query, serve the rendered feed
    from the cache when it is there, otherwise decide which upstream lists
    to fetch, render them, send the feed and cache it. Sending is gated on
    the request's `timedout` flag, which the timeout middleware sets. */
module Feed {
  import opened Js
  import opened Cache
  import Config
  import opened RssUtil
  import opened TcApi

  // ---------------------------------------------------------------------------
  // Query normalization

  /** lodash `_.size`: the length of a string or an array; a boolean or a
      number has no length and no own keys, so its size is 0. */
  function Size(v: Json): (n: nat)
    ensures !v.Str? && !v.Arr? ==> n == 0
  {
    match v
    case Str(s) => |s|
    case Arr(a) => |a|
    case _ => 0
  }

  /** The decimal value of a string of digits; any other text converts to
      NaN (`None`). The empty string converts to 0. */
  function DecimalValue(s: string): Option<nat>
  {
    if s == [] then Some(0)
    else if !('0' <= s[|s| - 1] <= '9') then None
    else match DecimalValue(s[..|s| - 1])
      case None => None
      case Some(n) => Some(n * 10 + (s[|s| - 1] as int - '0' as int))
  }

  /** `v > 1` for a query value: the value converts to its string form and
      then to a number, and a comparison with NaN is false. */
  predicate GreaterThanOne(v: Json) {
    match DecimalValue(ToJsString(v))
    case None => false
    case Some(n) => n > 1
  }

  /** `_.first(a)`: the first element, or `undefined`. */
  function First(v: Json): Json {
    if v.Arr? && |v.items| > 0 then v.items[0] else Undef
  }

  /** The guard of the collapse branch, as written: the size of the boolean
      `list > 1`, taken as a truth value. */
  predicate CollapseGuard(list: Json) {
    list.Arr? && Size(Bool(GreaterThanOne(list))) != 0
  }

  /** The collapse guard never holds, whatever the list: a multi-value list
      is never reduced to its first value. */
  lemma CollapseGuardNeverHolds(list: Json)
    ensures !CollapseGuard(list)
  {
  }

  /** `_normalizeQuery`: whitelist, resolve the type, default the list. */
  function NormalizeQuery(query: Record): (nq: Record)
    ensures "type" in nq && Truthy(nq["type"]) && "list" in nq
    ensures "track" !in nq && "contestType" !in nq
  {
    var picked := map k | k in query && k in Config.queryParamsSupported :: query[k];
    var typed := picked["type" := Or(Or(Or(Get(picked, "type"), Get(picked, "track")), Get(picked, "contestType")), Str("all"))];
    var trimmed := typed - {"contestType", "track"};
    if "list" !in trimmed || IsEmpty(trimmed["list"]) then trimmed["list" := Str("active")]
    else
      var list := trimmed["list"];
      if CollapseGuard(list) then trimmed["list" := First(list)] else trimmed
  }

  /** The members a normalized query may carry. */
  const NormalizedKeys: set<string> := {"type", "list", "challengeType", "platforms", "technologies"}

  /** The normalized query carries only whitelisted members, always a `type`
      and a `list`, never `track` or `contestType`; `challengeType`,
      `platforms` and `technologies` pass through exactly as given. */
  lemma NormalizeWhitelist(query: Record)
    ensures NormalizeQuery(query).Keys <= NormalizedKeys
    ensures "type" in NormalizeQuery(query) && "list" in NormalizeQuery(query)
    ensures "track" !in NormalizeQuery(query) && "contestType" !in NormalizeQuery(query)
    ensures forall k :: k in {"challengeType", "platforms", "technologies"} ==>
      (k in NormalizeQuery(query) <==> k in query) && Get(NormalizeQuery(query), k) == Get(query, k)
  {
  }

  /** `type` is the first truthy one of `type`, `track` and `contestType`,
      else `"all"`; the result is always truthy. */
  lemma NormalizeType(query: Record)
    ensures var t := Get(NormalizeQuery(query), "type");
      Truthy(t) &&
      (Truthy(Get(query, "type")) ==> t == query["type"]) &&
      (!Truthy(Get(query, "type")) && Truthy(Get(query, "track")) ==> t == query["track"]) &&
      (!Truthy(Get(query, "type")) && !Truthy(Get(query, "track")) && Truthy(Get(query, "contestType")) ==>
        t == query["contestType"]) &&
      (!Truthy(Get(query, "type")) && !Truthy(Get(query, "track")) && !Truthy(Get(query, "contestType")) ==>
        t == Str("all"))
  {
  }

  /** `list` becomes `"active"` exactly when it is missing or empty; any other
      list, a multi-value one included, passes through unchanged. */
  lemma NormalizeList(query: Record)
    ensures ("list" !in query || IsEmpty(query["list"])) ==> NormalizeQuery(query)["list"] == Str("active")
    ensures ("list" in query && !IsEmpty(query["list"])) ==> NormalizeQuery(query)["list"] == query["list"]
  {
    NormalizeWhitelist(query);
    if "list" in query && !IsEmpty(query["list"]) {
      CollapseGuardNeverHolds(query["list"]);
    }
  }

  /** Normalizing a normalized query changes nothing. */
  lemma NormalizeIdempotent(query: Record)
    ensures NormalizeQuery(NormalizeQuery(query)) == NormalizeQuery(query)
  {
    var n := NormalizeQuery(query);
    NormalizeWhitelist(query);
    NormalizeType(query);
    NormalizeList(query);
    NormalizeWhitelist(n);
    NormalizeType(n);
    NormalizeList(n);
    var n2 := NormalizeQuery(n);
    assert Truthy(n["type"]);
    assert n2["type"] == n["type"];
    assert !IsEmpty(n["list"]);
    assert n2["list"] == n["list"];
    forall k | k in n2 ensures k in n && n2[k] == n[k] {
      assert k in NormalizedKeys;
    }
    assert n2.Keys == n.Keys;
  }

  // ---------------------------------------------------------------------------
  // Dispatch

  /** What the handler does for a query it has no cached feed for. */
  datatype Decision =
    | Both(list: Json)
    | DataOnly(list: Json)
    | StandardOnly(list: Json, query: Record)
    | Invalid

  /** `_.contains(values, v)`, with strict equality: only a string can be
      one of the listed strings. */
  predicate Listed(values: seq<string>, v: Json) {
    v.Str? && v.s in values
  }

  /** The decision table of the handler. A single list is fetched only for
      a listed track and a listed list, the data-science one only for the
      `"data"` track. */
  function Dispatch(nq: Record): (d: Decision)
    ensures (d.DataOnly? || d.StandardOnly?) ==>
      Listed(Config.validTracks, Get(nq, "type")) && Listed(Config.validLists, Get(nq, "list"))
    ensures d.DataOnly? <==> !d.Both? && Get(nq, "type") == Str("data") && Listed(Config.validLists, Get(nq, "list"))
    ensures d.StandardOnly? ==> "list" !in d.query
  {
    var t := Get(nq, "type");
    var list := Get(nq, "list");
    if |nq| == 0 || IsEmpty(t) || t == Str("all") then Both(list)
    else if Listed(Config.validTracks, t) && Listed(Config.validLists, list) then
      if t == Str("data") then DataOnly(list) else StandardOnly(list, nq - {"list"})
    else Invalid
  }

  /** Both lists are fetched exactly when the type is empty or `"all"` (or the
      query is empty), and then the list is taken as it is, valid or not. */
  lemma DispatchBoth(nq: Record)
    ensures Dispatch(nq).Both? <==> |nq| == 0 || IsEmpty(Get(nq, "type")) || Get(nq, "type") == Str("all")
    ensures Dispatch(nq).Both? ==> Dispatch(nq).list == Get(nq, "list")
  {
  }

  /** Otherwise a query is served only for a valid track and a valid list:
      the data-science list for `"data"`, the standard list with the query
      minus `list` for the other tracks. */
  lemma DispatchTracks(nq: Record)
    requires !Dispatch(nq).Both?
    ensures Dispatch(nq).Invalid? <==> !(Listed(Config.validTracks, Get(nq, "type")) && Listed(Config.validLists, Get(nq, "list")))
    ensures Dispatch(nq).DataOnly? <==> Get(nq, "type") == Str("data") && Listed(Config.validLists, Get(nq, "list"))
    ensures Dispatch(nq).StandardOnly? ==>
      Get(nq, "type") in {Str("design"), Str("develop")} &&
      Dispatch(nq).list == Get(nq, "list") && Dispatch(nq).query == nq - {"list"} && "list" !in Dispatch(nq).query
    ensures Dispatch(nq).DataOnly? ==> Dispatch(nq).list == Get(nq, "list")
  {
    assert Config.validTracks == ["design", "develop", "data"];
  }

  /** The collapse defect made visible: a query for a valid track with two
      valid lists keeps its two-value list and is rejected, while a single
      valid list is served. */
  lemma MultiValueListRejected(track: string, l1: string, l2: string)
    requires track in Config.validTracks && l1 in Config.validLists && l2 in Config.validLists
    ensures Dispatch(NormalizeQuery(map["type" := Str(track), "list" := Arr([Str(l1), Str(l2)])])).Invalid?
    ensures !Dispatch(NormalizeQuery(map["type" := Str(track), "list" := Str(l1)])).Invalid?
  {
    ListOfValidTrack(map["type" := Str(track), "list" := Arr([Str(l1), Str(l2)])], track);
    ListOfValidTrack(map["type" := Str(track), "list" := Str(l1)], track);
  }

  /** For a query of a valid track with a non-empty list, the decision
      depends on the list alone. */
  lemma ListOfValidTrack(q: Record, track: string)
    requires track in Config.validTracks && Get(q, "type") == Str(track)
    requires "list" in q && !IsEmpty(q["list"])
    ensures Dispatch(NormalizeQuery(q)).Invalid? <==> !Listed(Config.validLists, q["list"])
  {
    var nq := NormalizeQuery(q);
    NormalizeList(q);
    NormalizeType(q);
    assert Get(nq, "type") == Str(track);
    assert Str(track) != Str("all") by {
      assert track != "all";
    }
  }

  /** In the "all" mode the list is never checked: an unknown list is
      passed upstream as it is. */
  lemma AllModeSkipsListCheck(list: string)
    requires list != ""
    ensures Dispatch(NormalizeQuery(map["list" := Str(list)])) == Both(Str(list))
  {
    var q := map["list" := Str(list)];
    NormalizeList(q);
    NormalizeType(q);
  }

  // ---------------------------------------------------------------------------
  // The response

  /** What has been done with the response: the status set, whether the XML
      content type was set, the body sent, and the error passed on to the
      error handler instead. */
  datatype ResponseState = ResponseState(status: Option<int>, xmlType: bool, body: Option<Cell>, forwarded: Option<string>)

  const TIMEOUT_MESSAGE: string := "request timed out before feed could be sent as response"

  /** `_sendResponse(body, code, mimeType)`: once the request has timed out,
      only the timeout error is passed on; otherwise the status (if a truthy
      code is given) and the type (if a mime type is given) are set, and the
      body is sent. */
  function AfterSend(r: ResponseState, timedout: bool, body: Cell, code: Option<int>, xml: bool): (a: ResponseState)
    ensures timedout ==> a.status == r.status && a.xmlType == r.xmlType && a.body == r.body
    ensures timedout ==> a.forwarded == Some(TIMEOUT_MESSAGE)
    ensures !timedout ==> a.body == Some(body) && a.forwarded == r.forwarded
  {
    if timedout then r.(forwarded := Some(TIMEOUT_MESSAGE))
    else ResponseState(if code.Some? && code.value != 0 then code else r.status, r.xmlType || xml, Some(body), r.forwarded)
  }

  /** A timed-out request gets no body, status or type, only the timeout
      error; any other gets exactly the body given. */
  lemma SendGate(r: ResponseState, timedout: bool, body: Cell, code: Option<int>, xml: bool)
    ensures timedout ==> AfterSend(r, timedout, body, code, xml) == r.(forwarded := Some(TIMEOUT_MESSAGE))
    ensures !timedout ==> AfterSend(r, timedout, body, code, xml).body == Some(body)
    ensures !timedout && code.Some? && code.value != 0 ==> AfterSend(r, timedout, body, code, xml).status == code
    ensures !timedout && xml ==> AfterSend(r, timedout, body, code, xml).xmlType
  {
  }

  /** The response object of the request. */
  class Response {
    var reply: ResponseState

    constructor ()
      ensures reply == ResponseState(None, false, None, None)
    {
      reply := ResponseState(None, false, None, None);
    }

    /** `_sendResponse`: forward the timeout message if the request has
        timed out, else set the status and type and send `body`. Specified
        by `AfterSend`, whose properties its own contract and `SendGate` state. */
    method Send(timedout: bool, body: Cell, code: Option<int>, xml: bool)
      modifies this
      ensures reply == AfterSend(old(reply), timedout, body, code, xml)
    {
      if timedout {
        reply := reply.(forwarded := Some(TIMEOUT_MESSAGE));
      } else {
        if code.Some? && code.value != 0 {
          reply := reply.(status := code);
        }
        if xml {
          reply := reply.(xmlType := true);
        }
        reply := reply.(body := Some(body));
      }
    }
  }

  // ---------------------------------------------------------------------------
  // The handler

  const INVALID_XML: string :=
    "<?xml version=\"1.0\" encoding=\"UTF-8\"?>" + "<text><para>Invalid parameters</para></text>"

  const INTERNAL_ERROR: string := "Internal Error while building feed"

  /** The key of a rendered feed, `JSON.stringify(normalizedQuery)`. */
  function FeedKey(enc: Record -> string, nq: Record): (k: string)
    ensures |k| >= 2 && k[0] == '{' && k[|k| - 1] == '}'
  {
    ObjectText(enc, nq)
  }

  /** Feed keys and their write-time keys are never raw-cache keys. */
  lemma FeedKeyNotRaw(enc: Record -> string, nq: Record)
    ensures !IsRawKey(FeedKey(enc, nq)) && !IsRawKey(StampKey(FeedKey(enc, nq)))
    ensures FeedKey(enc, nq) != StampKey(FeedKey(enc, nq))
  {
    var k := FeedKey(enc, nq);
    assert k[0] == '{';
    assert StampKey(k)[0] == 't';
    assert StampKey(k)[|STAMP_PREFIX|] == '{';
    assert (STAMP_PREFIX + "TC")[|STAMP_PREFIX|] == 'T';
  }

  /** `s1` is `s0` with a feed `xml` written under `key` at `now`, and at most
      raw-cache entries changed besides. */
  ghost predicate FeedWritten(s0: Store, s1: Store, key: string, xml: string, now: int) {
    Lookup(s1, key) == Some(Text(xml)) && Lookup(s1, StampKey(key)) == Some(Number(now)) &&
    forall k :: !IsRawKey(k) && k != key && k != StampKey(key) ==> Lookup(s1, k) == Lookup(s0, k)
  }

  /** A written feed is served from the cache until it expires. */
  lemma FeedServedUntilExpiry(s0: Store, s1: Store, key: string, xml: string, t: int, now: int)
    requires FeedWritten(s0, s1, key, xml, t) && t != 0 && now - t <= TTL_MS
    ensures Read(s1, key, now) == Some(Text(xml))
  {
  }

  /** `_returnFeed`: render, send, then cache the feed, also when the
      request has already timed out. */
  method ReturnFeed(cache: TtlCache, res: Response, libs: Libs, key: string, data: seq<Record>,
                    timedout: bool, now: int)
    modifies cache, res
    ensures cache.store == Write(old(cache.store), key, Text(libs.xml(FeedItems(libs, data))), now)
    ensures res.reply == AfterSend(old(res.reply), timedout, Text(libs.xml(FeedItems(libs, data))), None, true)
  {
    var rssXml := BuildFeedXML(libs, data);
    res.Send(timedout, Text(rssXml), None, true);
    cache.Put(key, Text(rssXml), now);
  }

  /** What a request came to: served from the cache, rejected, failed
      upstream, or rendered from the standard and data-science records. */
  datatype Outcome = Served | Rejected | Failed | Rendered(standard: seq<Record>, science: seq<Record>)

  /** Writing a rendered feed keeps the raw-cache entries as they were typed:
      the feed and its write time are not raw-cache entries, and neither
      holds a body. */
  lemma FeedPutKeepsRaw(s0: Store, s1: Store, enc: Record -> string, nq: Record, xml: string, now: int)
    requires RawTyped(s0) && s1 == Write(s0, FeedKey(enc, nq), Text(xml), now)
    ensures RawTyped(s1)
  {
    var key := FeedKey(enc, nq);
    FeedKeyNotRaw(enc, nq);
    forall k | k in s1 && HasPrefix(k, "TC") ensures s1[k].Object? {
      assert k != key && k != StampKey(key);
    }
    forall k | k in s1 && s1[k].Object? ensures k in s0 && s0[k] == s1[k] {
      assert k != key && k != StampKey(key);
    }
  }

  lemma FeedWrittenAfterRaw(s0: Store, s1: Store, s2: Store, enc: Record -> string, nq: Record, xml: string, now: int)
    requires RawOnlyChanges(s0, s1) && s2 == Write(s1, FeedKey(enc, nq), Text(xml), now)
    ensures FeedWritten(s0, s2, FeedKey(enc, nq), xml, now)
  {
    var key := FeedKey(enc, nq);
    FeedKeyNotRaw(enc, nq);
    forall k | !IsRawKey(k) && k != key && k != StampKey(key) ensures Lookup(s2, k) == Lookup(s0, k) {
      RawOnlyChangesLookup(s0, s1, k);
    }
  }

  /** The records fetched for a decision: the standard records, then the
      data-science records. */
  datatype Parts = Parts(standard: seq<Record>, science: seq<Record>)

  /** What the fetch of a decision delivers and the upstream calls it makes. */
  datatype FetchedParts = FetchedParts(result: Result<Parts>, calls: seq<Call>)

  /** The data-science query of a decision, `{listType: list}`. */
  function ScienceQuery(list: Json): Option<Record> {
    Some(map["listType" := list])
  }

  /** What a decision that is not `Invalid` fetches against the cache
      `store0`: both lists (the standard one without extra query, the
      data-science one for `listType`), failing with the standard error if
      the standard fetch fails and else with the data-science error; only
      the data-science list; or only the standard list with the query. Each
      lookup sees `store0`, since neither fetch writes what the other
      reads. */
  ghost function PartsFetch(d: Decision, store0: Store, respond: Respond, enc: Record -> string, now: int)
    : FetchedParts
    requires !d.Invalid?
    reads Bodies(store0)
  {
    match d
    case Both(list) =>
      var s := StandardFetch(store0, respond, enc, list, None, now);
      var g := ScienceFetch(store0, respond, enc, ScienceQuery(list), now);
      var res :=
        if s.result.Err? then Err(s.result.message)
        else if g.result.Err? then Err(g.result.message)
        else Ok(Parts(s.result.value, g.result.value));
      FetchedParts(res, s.calls + g.calls)
    case DataOnly(list) =>
      var g := ScienceFetch(store0, respond, enc, ScienceQuery(list), now);
      FetchedParts(if g.result.Err? then Err(g.result.message) else Ok(Parts([], g.result.value)), g.calls)
    case StandardOnly(list, q) =>
      var s := StandardFetch(store0, respond, enc, list, Some(q), now);
      FetchedParts(if s.result.Err? then Err(s.result.message) else Ok(Parts(s.result.value, [])), s.calls)
  }

  /** The bodies a fetch may update are bodies the cache holds. */
  lemma TouchedInBodies(d: Decision, store0: Store, enc: Record -> string, now: int)
    ensures Touched(d, store0, enc, now) <= Bodies(store0)
  {
    forall key | Hit(store0, key, now).Some? ensures ServedBody(store0, key, now) <= Bodies(store0) {
      HitInBodies(store0, key, now);
    }
  }

  /** The standard fetch result of a decision, on which the `data` of the
      standard list body depends; a data-science decision has none, and
      `Ok([])` stands in for it. */
  ghost function StandardResult(d: Decision, store0: Store, respond: Respond, enc: Record -> string, now: int)
    : Result<seq<Record>>
    reads Bodies(store0)
  {
    match d
    case Both(list) => StandardFetch(store0, respond, enc, list, None, now).result
    case StandardOnly(list, q) => StandardFetch(store0, respond, enc, list, Some(q), now).result
    case _ => Ok([])
  }

  /** The bodies the fetch of a decision may update in place: the ones its
      lookups serve from `store0`. */
  function Touched(d: Decision, store0: Store, enc: Record -> string, now: int): set<Body> {
    match d
    case Both(list) =>
      ServedBody(store0, StandardKey(enc, list, None), now) +
      ServedBody(store0, ScienceKey(enc, ScienceQuery(list)), now)
    case DataOnly(list) => ServedBody(store0, ScienceKey(enc, ScienceQuery(list)), now)
    case StandardOnly(list, q) => ServedBody(store0, StandardKey(enc, list, Some(q)), now)
    case Invalid => {}
  }

  /** What becomes of the `data` of a body `b` the cache held, with `data`,
      before the fetch of a decision whose standard fetch gave `std`: the
      list body the standard lookup serves takes the merged records when the
      fan-out succeeds, and keeps its data when it fails; the body the
      data-science lookup serves has its records mapped again, in place;
      every other body keeps its data. */
  function DataAfter(d: Decision, store0: Store, std: Result<seq<Record>>, enc: Record -> string, now: int,
                     b: Body, data: seq<Record>): seq<Record>
  {
    var stdKey := if d.Both? then StandardKey(enc, d.list, None)
      else if d.StandardOnly? then StandardKey(enc, d.list, Some(d.query)) else "";
    var m := if (d.Both? || d.StandardOnly?) && Hit(store0, stdKey, now) == Some(b) && std.Ok? then std.value else data;
    if (d.Both? || d.DataOnly?) && Hit(store0, ScienceKey(enc, ScienceQuery(d.list)), now) == Some(b) then MapAll(m)
    else m
  }

  /** For an `"all"` fetch the two lookups never serve the same body, so a
      body takes the standard outcome, or has its records mapped, or keeps
      its data. */
  lemma DataAfterBoth(list: Json, store0: Store, std: Result<seq<Record>>, enc: Record -> string, now: int,
                      b: Body, data: seq<Record>)
    requires RawTyped(store0)
    ensures DataAfter(Both(list), store0, std, enc, now, b, data) ==
      if Hit(store0, StandardKey(enc, list, None), now) == Some(b) then (if std.Ok? then std.value else data)
      else if Hit(store0, ScienceKey(enc, ScienceQuery(list)), now) == Some(b) then MapAll(data)
      else data
  {
    var k1, k2 := StandardKey(enc, list, None), ScienceKey(enc, ScienceQuery(list));
    StandardKeyNotScience(enc, list, None, ScienceQuery(list));
    if Hit(store0, k1, now) == Some(b) && Hit(store0, k2, now) == Some(b) {
      HitsApart(store0, k1, k2, now);
    }
  }

  /** A data-science decision calls only the data-science URL and delivers
      no standard records; a standard decision calls only URLs under the
      standard challenges URL and delivers no data-science records. */
  lemma PartsFetchScoped(d: Decision, store0: Store, respond: Respond, enc: Record -> string, now: int)
    requires !d.Invalid?
    ensures var f := PartsFetch(d, store0, respond, enc, now);
      (d.DataOnly? ==>
        (forall c :: c in f.calls ==> c.url == DATA_SCIENCE_URL) && (f.result.Ok? ==> f.result.value.standard == [])) &&
      (d.StandardOnly? ==>
        (forall c :: c in f.calls ==> HasPrefix(c.url, STANDARD_URL + "/")) && (f.result.Ok? ==> f.result.value.science == []))
  {
    if d.StandardOnly? {
      var list, q := d.list, Some(d.query);
      var s := StandardFetch(store0, respond, enc, list, q, now);
      if Hit(store0, StandardKey(enc, list, q), now).Some? || Succeeded(respond(ListUrl(list), Some(WithDefaults(q)))) {
        var summary := Summary(store0, respond, enc, list, q, now);
        MissCallsMisses(summary, store0, enc, now);
        forall c | c in MissCalls(summary, store0, enc, now) ensures HasPrefix(c.url, STANDARD_URL + "/") {
          var k :| 0 <= k < |summary| && c.url == DetailUrl(summary[k]);
        }
      }
    }
  }

  /** The second task of the `"all"` fetch and the combination of the
      results: fetch the data-science list for `listType`, then fail with the
      standard error `s` if there is one, else with the data-science error,
      else deliver both record lists. */
  method ScienceAndCombine(cache: TtlCache, net: Network, enc: Record -> string, list: Json, s: Result<Body>,
                           now: int) returns (r: Result<Parts>)
    requires RawTyped(cache.store)
    requires s.Ok? ==> s.value !in ServedBody(cache.store, ScienceKey(enc, ScienceQuery(list)), now)
    modifies cache, net, ServedBody(cache.store, ScienceKey(enc, ScienceQuery(list)), now)
    ensures RawTyped(cache.store)
    ensures ChangesUnder(old(cache.store), cache.store, DATA_SCIENCE_URL)
    ensures var g := old(ScienceFetch(cache.store, net.respond, enc, ScienceQuery(list), now));
      net.calls == old(net.calls) + g.calls &&
      r == if s.Err? then Err(s.message)
           else if g.result.Err? then Err(g.result.message)
           else Ok(Parts(old(s.value.data), g.result.value))
    ensures var h := Hit(old(cache.store), ScienceKey(enc, ScienceQuery(list)), now);
      h.Some? ==> h.value.data == MapAll(old(h.value.data))
  {
    var ds := GetDataScienceChallenges(cache, net, enc, ScienceQuery(list), now);
    if s.Err? || ds.Err? {
      r := Err(if s.Err? then s.message else ds.message);
    } else {
      r := Ok(Parts(s.value.data, ds.value.data));
    }
  }

  /** The `"all"` fetch: `async.parallel` over the standard list, with no
      extra query, and the data-science list for `listType`. */
  method FetchBoth(cache: TtlCache, net: Network, enc: Record -> string, list: Json, now: int)
    returns (r: Result<Parts>)
    requires RawTyped(cache.store)
    modifies cache, net, Touched(Both(list), cache.store, enc, now)
    ensures RawTyped(cache.store)
    ensures RawOnlyChanges(old(cache.store), cache.store)
    ensures var f := old(PartsFetch(Both(list), cache.store, net.respond, enc, now));
      r == f.result && net.calls == old(net.calls) + f.calls
    ensures var std := old(StandardResult(Both(list), cache.store, net.respond, enc, now));
      forall b :: b in old(Bodies(cache.store)) ==>
        b.data == DataAfter(Both(list), old(cache.store), std, enc, now, b, old(b.data))
  {
    ghost var store0 := cache.store;
    ghost var calls0 := net.calls;
    assert HasPrefix(STANDARD_URL + "/", "") && HasPrefix(DATA_SCIENCE_URL, "");
    var sq := ScienceQuery(list);
    ghost var stdKey := StandardKey(enc, list, None);
    ghost var sciKey := ScienceKey(enc, sq);
    ghost var stdHit := Hit(store0, stdKey, now);
    ghost var sciHit := Hit(store0, sciKey, now);
    ghost var sciData := HitData(store0, sciKey, now);
    ghost var sci0 := ScienceFetch(store0, net.respond, enc, sq, now);
    ghost var std0 := StandardFetch(store0, net.respond, enc, list, None, now);
    ghost var f := PartsFetch(Both(list), store0, net.respond, enc, now);
    StandardKeyNotScience(enc, list, None, sq);
    if sciHit.Some? {
      HitInBodies(store0, sciKey, now);
      if stdHit.Some? {
        HitsApart(store0, stdKey, sciKey, now);
      }
    }
    var s := GetStandardChallenges(cache, net, enc, list, None, now);
    label Mid:
    ghost var store1 := cache.store;
    ChangesUnderWiden(store0, store1, "", STANDARD_URL + "/");
    ScienceReadKept(store0, store1, enc, sq, now);
    if sciHit.Some? {
      assert HitData(store1, sciKey, now) == sciData;
    }
    assert ScienceFetch(store1, net.respond, enc, sq, now) == sci0;
    r := ScienceAndCombine(cache, net, enc, list, s, now);
    ChangesUnderWiden(store1, cache.store, "", DATA_SCIENCE_URL);
    CallsAppend(calls0, std0.calls, sci0.calls);
    assert r == f.result && net.calls == calls0 + f.calls;
    forall b | b in Bodies(store0)
      ensures b.data == DataAfter(Both(list), store0, std0.result, enc, now, b, old(b.data))
    {
      DataAfterBoth(list, store0, std0.result, enc, now, b, old(b.data));
      if stdHit == Some(b) {
        assert b !in ServedBody(store1, sciKey, now);
        assert b.data == old@Mid(b.data);
      } else if sciHit == Some(b) {
        assert b !in ServedBody(store0, stdKey, now);
        assert old@Mid(b.data) == old(b.data);
      } else {
        assert b !in ServedBody(store0, stdKey, now) && b !in ServedBody(store1, sciKey, now);
        assert b.data == old@Mid(b.data) == old(b.data);
      }
    }
  }

  /** The fetch of a decision: `async.parallel` over both lists, or one of
      them. */
  method FetchFor(cache: TtlCache, net: Network, enc: Record -> string, d: Decision, now: int)
    returns (r: Result<Parts>)
    requires RawTyped(cache.store) && !d.Invalid?
    modifies cache, net, Touched(d, cache.store, enc, now)
    ensures RawTyped(cache.store)
    ensures RawOnlyChanges(old(cache.store), cache.store)
    ensures var f := old(PartsFetch(d, cache.store, net.respond, enc, now));
      r == f.result && net.calls == old(net.calls) + f.calls
    ensures var std := old(StandardResult(d, cache.store, net.respond, enc, now));
      forall b :: b in old(Bodies(cache.store)) ==>
        b.data == DataAfter(d, old(cache.store), std, enc, now, b, old(b.data))
  {
    ghost var store0 := cache.store;
    assert HasPrefix(STANDARD_URL + "/", "") && HasPrefix(DATA_SCIENCE_URL, "");
    match d
    case Both(list) =>
      r := FetchBoth(cache, net, enc, list, now);
    case DataOnly(list) =>
      var ds := GetDataScienceChallenges(cache, net, enc, ScienceQuery(list), now);
      ChangesUnderWiden(store0, cache.store, "", DATA_SCIENCE_URL);
      if ds.Err? {
        r := Err(ds.message);
      } else {
        r := Ok(Parts([], ds.value.data));
      }
    case StandardOnly(list, q) =>
      var s := GetStandardChallenges(cache, net, enc, list, Some(q), now);
      ChangesUnderWiden(store0, cache.store, "", STANDARD_URL + "/");
      if s.Err? {
        r := Err(s.message);
      } else {
        r := Ok(Parts(s.value.data, []));
      }
  }

  /** The callback of a fetch: `_returnError` with 500 on an error, else
      `_returnFeed` of the standard records followed by the data-science
      records. */
  method Answer(cache: TtlCache, res: Response, libs: Libs, enc: Record -> string, nq: Record,
                parts: Result<Parts>, timedout: bool, now: int) returns (ghost outcome: Outcome)
    modifies cache, res
    ensures (outcome.Failed? <==> parts.Err?) && (outcome.Failed? || outcome.Rendered?)
    ensures parts.Ok? ==> outcome == Rendered(parts.value.standard, parts.value.science)
    ensures outcome.Failed? ==>
      cache.store == old(cache.store) &&
      res.reply == AfterSend(old(res.reply), timedout, Text(INTERNAL_ERROR), Some(500), false)
    ensures outcome.Rendered? ==>
      var xml := libs.xml(FeedItems(libs, outcome.standard + outcome.science));
      cache.store == Write(old(cache.store), FeedKey(enc, nq), Text(xml), now) &&
      res.reply == AfterSend(old(res.reply), timedout, Text(xml), None, true)
  {
    if parts.Err? {
      res.Send(timedout, Text(INTERNAL_ERROR), Some(500), false);
      return Failed;
    }
    outcome := Rendered(parts.value.standard, parts.value.science);
    ReturnFeed(cache, res, libs, FeedKey(enc, nq), parts.value.standard + parts.value.science, timedout, now);
  }

  /** The part of the handler after a cache miss on an accepted query:
      fetch, then answer 500 or render, send and cache the feed. */
  method Refresh(cache: TtlCache, net: Network, res: Response, libs: Libs, enc: Record -> string,
                 nq: Record, d: Decision, timedout: bool, now: int) returns (ghost outcome: Outcome)
    requires RawTyped(cache.store) && !d.Invalid?
    modifies cache, net, res, Touched(d, cache.store, enc, now)
    ensures RawTyped(cache.store)
    ensures outcome.Failed? || outcome.Rendered?
    ensures var f := old(PartsFetch(d, cache.store, net.respond, enc, now));
      net.calls == old(net.calls) + f.calls &&
      (outcome.Failed? <==> f.result.Err?) &&
      (f.result.Ok? ==> outcome == Rendered(f.result.value.standard, f.result.value.science))
    ensures outcome.Failed? ==>
      RawOnlyChanges(old(cache.store), cache.store) &&
      res.reply == AfterSend(old(res.reply), timedout, Text(INTERNAL_ERROR), Some(500), false)
    ensures outcome.Rendered? ==>
      var xml := libs.xml(FeedItems(libs, outcome.standard + outcome.science));
      FeedWritten(old(cache.store), cache.store, FeedKey(enc, nq), xml, now) &&
      res.reply == AfterSend(old(res.reply), timedout, Text(xml), None, true)
    ensures var std := old(StandardResult(d, cache.store, net.respond, enc, now));
      forall b :: b in old(Bodies(cache.store)) ==>
        b.data == DataAfter(d, old(cache.store), std, enc, now, b, old(b.data))
  {
    ghost var store0 := cache.store;
    var parts := FetchFor(cache, net, enc, d, now);
    ghost var store1 := cache.store;
    outcome := Answer(cache, res, libs, enc, nq, parts, timedout, now);
    if outcome.Rendered? {
      ghost var xml := libs.xml(FeedItems(libs, outcome.standard + outcome.science));
      FeedPutKeepsRaw(store1, cache.store, enc, nq, xml, now);
      FeedWrittenAfterRaw(store0, store1, cache.store, enc, nq, xml, now);
    }
  }

  /** The handler when no truthy feed is cached for the normalized query
      `nq`: answer 400 to a query that names no valid track and list, and
      otherwise fetch and render. */
  method ServeUncached(cache: TtlCache, net: Network, res: Response, libs: Libs, enc: Record -> string,
                       nq: Record, timedout: bool, now: int) returns (ghost outcome: Outcome)
    requires RawTyped(cache.store)
    modifies cache, net, res, Bodies(cache.store)
    ensures RawTyped(cache.store)
    ensures !outcome.Served? && (outcome.Rejected? <==> Dispatch(nq).Invalid?)
    ensures outcome.Rejected? ==>
      cache.store == old(cache.store) && net.calls == old(net.calls) &&
      res.reply == AfterSend(old(res.reply), timedout, Text(INVALID_XML), Some(400), true) &&
      forall b :: b in old(Bodies(cache.store)) ==> b.data == old(b.data)
    ensures outcome.Failed? ==>
      RawOnlyChanges(old(cache.store), cache.store) &&
      res.reply == AfterSend(old(res.reply), timedout, Text(INTERNAL_ERROR), Some(500), false)
    ensures outcome.Rendered? ==>
      var xml := libs.xml(FeedItems(libs, outcome.standard + outcome.science));
      FeedWritten(old(cache.store), cache.store, FeedKey(enc, nq), xml, now) &&
      res.reply == AfterSend(old(res.reply), timedout, Text(xml), None, true)
    ensures var d := Dispatch(nq);
      !d.Invalid? ==>
        var f := old(PartsFetch(d, cache.store, net.respond, enc, now));
        net.calls == old(net.calls) + f.calls &&
        (outcome.Failed? <==> f.result.Err?) &&
        (f.result.Ok? ==> outcome == Rendered(f.result.value.standard, f.result.value.science))
    ensures var d := Dispatch(nq);
      !d.Invalid? ==>
        var std := old(StandardResult(d, cache.store, net.respond, enc, now));
        forall b :: b in old(Bodies(cache.store)) ==>
        b.data == DataAfter(d, old(cache.store), std, enc, now, b, old(b.data))
  {
    var d := Dispatch(nq);
    if d.Invalid? {
      res.Send(timedout, Text(INVALID_XML), Some(400), true);
      return Rejected;
    }
    TouchedInBodies(d, cache.store, enc, now);
    outcome := Refresh(cache, net, res, libs, enc, nq, d, timedout, now);
  }

  /** The request handler. */
  method Handle(cache: TtlCache, net: Network, res: Response, libs: Libs, enc: Record -> string,
                query: Record, timedout: bool, now: int) returns (ghost outcome: Outcome)
    requires RawTyped(cache.store)
    modifies cache, net, res, Bodies(cache.store)
    ensures RawTyped(cache.store)
    ensures var key := FeedKey(enc, NormalizeQuery(query));
      var hit := Read(old(cache.store), key, now);
      outcome.Served? <==> hit.Some? && CellTruthy(hit.value)
    ensures var key := FeedKey(enc, NormalizeQuery(query));
      var hit := Read(old(cache.store), key, now);
      outcome.Served? ==>
        cache.store == old(cache.store) && net.calls == old(net.calls) &&
        res.reply == AfterSend(old(res.reply), timedout, hit.value, None, true)
    ensures !outcome.Served? ==> (outcome.Rejected? <==> Dispatch(NormalizeQuery(query)).Invalid?)
    ensures outcome.Rejected? ==>
      cache.store == old(cache.store) && net.calls == old(net.calls) &&
      res.reply == AfterSend(old(res.reply), timedout, Text(INVALID_XML), Some(400), true)
    ensures outcome.Failed? ==>
      RawOnlyChanges(old(cache.store), cache.store) &&
      res.reply == AfterSend(old(res.reply), timedout, Text(INTERNAL_ERROR), Some(500), false)
    ensures outcome.Rendered? ==>
      var xml := libs.xml(FeedItems(libs, outcome.standard + outcome.science));
      FeedWritten(old(cache.store), cache.store, FeedKey(enc, NormalizeQuery(query)), xml, now) &&
      res.reply == AfterSend(old(res.reply), timedout, Text(xml), None, true)
    ensures var d := Dispatch(NormalizeQuery(query));
      !outcome.Served? && !d.Invalid? ==>
        var f := old(PartsFetch(d, cache.store, net.respond, enc, now));
        net.calls == old(net.calls) + f.calls &&
        (outcome.Failed? <==> f.result.Err?) &&
        (f.result.Ok? ==> outcome == Rendered(f.result.value.standard, f.result.value.science))
    ensures outcome.Served? || outcome.Rejected? ==>
      forall b :: b in old(Bodies(cache.store)) ==> b.data == old(b.data)
    ensures var d := Dispatch(NormalizeQuery(query));
      !outcome.Served? && !d.Invalid? ==>
        var std := old(StandardResult(d, cache.store, net.respond, enc, now));
        forall b :: b in old(Bodies(cache.store)) ==>
        b.data == DataAfter(d, old(cache.store), std, enc, now, b, old(b.data))
  {
    var nq := NormalizeQuery(query);
    var key := FeedKey(enc, nq);
    var cached := cache.Get(key, now);
    if cached.Some? && CellTruthy(cached.value) {
      res.Send(timedout, cached.value, None, true);
      return Served;
    }
    ghost var d := Dispatch(nq);
    if !d.Invalid? {
      assert StandardResult(d, cache.store, net.respond, enc, now) == old(StandardResult(d, cache.store, net.respond, enc, now));
      assert PartsFetch(d, cache.store, net.respond, enc, now) == old(PartsFetch(d, cache.store, net.respond, enc, now));
    }
    outcome := ServeUncached(cache, net, res, libs, enc, nq, timedout, now);
  }
}
