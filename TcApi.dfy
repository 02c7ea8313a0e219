/** The client of the upstream challenge API: a read-through/write-through
    layer over the response cache (the "raw cache"), the list-and-detail
    fetch of standard challenges, and the data-science (marathon) fetch with
    its record mapping. The HTTP request itself is the abstract `respond`
    function of a `Network`, which also logs every call it is asked to make. */
module TcApi {
  import opened Js
  import opened Cache
  import Config

  const STANDARD_URL: string := Config.API_HOST + "/v2/challenges"
  const DATA_SCIENCE_URL: string := Config.API_HOST + "/v2/data/marathon/challenges"

  // ---------------------------------------------------------------------------
  // Queries and URLs

  /** The default query members, which override the caller's. */
  const Defaults: Record := map["pageIndex" := Num(1), "pageSize" := Num(Config.PAGE_SIZE)]

  /** `_.merge(query || {}, defaultQs)`, member by member. */
  function WithDefaults(query: Option<Record>): (q: Record)
    ensures "pageIndex" in q && "pageSize" in q
    ensures q["pageIndex"] == Num(1) && q["pageSize"] == Num(Config.PAGE_SIZE)
    ensures query.None? ==> q == Defaults
    ensures query.Some? ==> q.Keys == query.value.Keys + {"pageIndex", "pageSize"}
    ensures query.Some? ==> forall k :: k in query.value && k != "pageIndex" && k != "pageSize" ==>
      q[k] == query.value[k]
  {
    (if query.None? then map[] else query.value) + Defaults
  }

  /** The list URL of `getStandardChallenges`: the standard URL, `/`, and the
      list. */
  function ListUrl(list: Json): (u: string)
    ensures HasPrefix(u, STANDARD_URL + "/")
    ensures u[|STANDARD_URL| + 1..] == ToJsString(list)
  {
    var p := STANDARD_URL + "/";
    assert (p + ToJsString(list))[..|p|] == p;
    p + ToJsString(list)
  }

  /** The detail URL of one summary record: the standard URL, `/`, and the
      record's `challengeId`. */
  function DetailUrl(item: Record): (u: string)
    ensures HasPrefix(u, STANDARD_URL + "/")
    ensures u[|STANDARD_URL| + 1..] == ToJsString(Get(item, "challengeId"))
  {
    var p := STANDARD_URL + "/";
    assert (p + ToJsString(Get(item, "challengeId")))[..|p|] == p;
    p + ToJsString(Get(item, "challengeId"))
  }

  /** The two URL families are disjoint: no standard URL is the data-science
      URL. */
  lemma DataScienceUrlNotStandard()
    ensures !HasPrefix(DATA_SCIENCE_URL, STANDARD_URL + "/")
  {
    var n := |Config.API_HOST|;
    assert DATA_SCIENCE_URL[n + 4] == "/v2/data/marathon/challenges"[4] == 'd';
    assert (STANDARD_URL + "/")[n + 4] == "/v2/challenges"[4] == 'c';
  }

  // ---------------------------------------------------------------------------
  // Raw-cache keys

  /** `JSON.stringify(query)`: `"null"` for no query, else the object text. */
  function QueryText(enc: Record -> string, query: Option<Record>): (t: string)
    ensures query.None? <==> t == "null"
    ensures query.Some? ==> |t| >= 2 && t[0] == '{' && t[|t| - 1] == '}'
  {
    if query.None? then "null" else ObjectText(enc, query.value)
  }

  /** The raw-cache key of a request: `"TC" + url + JSON.stringify(query)`. */
  function RawKey(enc: Record -> string, url: string, query: Option<Record>): string {
    "TC" + url + QueryText(enc, query)
  }

  /** The keys the raw cache writes: request keys and their write-time keys. */
  predicate IsRawKey(k: string) {
    HasPrefix(k, "TC") || HasPrefix(k, STAMP_PREFIX + "TC")
  }

  /** A request key opens with `TC`, its write-time key with `timestamp_TC`;
      a key without query ends in `l`, one with a query in `}`. */
  lemma RawKeyShape(enc: Record -> string, url: string, query: Option<Record>)
    ensures HasPrefix(RawKey(enc, url, query), "TC")
    ensures HasPrefix(StampKey(RawKey(enc, url, query)), STAMP_PREFIX + "TC")
    ensures RawKey(enc, url, query)[0] == 'T'
    ensures StampKey(RawKey(enc, url, query))[0] == 't'
    ensures var k := RawKey(enc, url, query); k[|k| - 1] == (if query.None? then 'l' else '}')
  {
    var k := RawKey(enc, url, query);
    assert k == "TC" + (url + QueryText(enc, query));
    assert StampKey(k) == (STAMP_PREFIX + "TC") + (url + QueryText(enc, query));
  }

  /** Requests without a query have distinct keys for distinct URLs. */
  lemma RawKeyInjective(enc: Record -> string, u1: string, u2: string)
    requires RawKey(enc, u1, None) == RawKey(enc, u2, None)
    ensures u1 == u2
  {
    var k := RawKey(enc, u1, None);
    assert k == "TC" + u1 + "null";
    assert u1 == k[2..|k| - 4];
    assert RawKey(enc, u2, None) == "TC" + u2 + "null";
    assert u2 == k[2..|k| - 4];
  }

  /** A write under one request key leaves every read of a different request
      key unchanged (request keys and write-time keys never collide). */
  lemma RawKeysSeparate(store: Store, key: string, val: Cell, t: int, other: string, now: int)
    requires |key| > 0 && key[0] == 'T' && other != key && |other| > 0 && other[0] == 'T'
    ensures Read(Write(store, key, val, t), other, now) == Read(store, other, now)
  {
    assert StampKey(key)[0] == 't' && StampKey(other)[0] == 't';
    ReadOtherKey(store, key, val, t, other, now);
  }

  // ---------------------------------------------------------------------------
  // Stores as the raw cache sees them

  /** Every request key holds a response body, and no two keys hold the same
      body: each 200 reply is cached under its own request key only. */
  ghost predicate RawTyped(store: Store) {
    (forall k :: k in store && HasPrefix(k, "TC") ==> store[k].Object?) &&
    (forall k1, k2 ::
      (k1 in store && k2 in store && store[k1].Object? && store[k2].Object? && store[k1].body == store[k2].body) ==>
      k1 == k2)
  }

  /** The entries of a store outside the raw-cache entries of the URLs that
      start with `p`: request keys `"TC" + p + ...` and their write-time
      keys. */
  ghost function Outside(store: Store, p: string): Store {
    map k | k in store && !HasPrefix(k, "TC" + p) && !HasPrefix(k, STAMP_PREFIX + "TC" + p) :: store[k]
  }

  /** Only raw-cache entries of URLs starting with `p` differ between two
      stores. */
  ghost predicate ChangesUnder(s0: Store, s1: Store, p: string) {
    Outside(s1, p) == Outside(s0, p)
  }

  /** Only raw-cache entries differ between two stores. */
  ghost predicate RawOnlyChanges(s0: Store, s1: Store) {
    ChangesUnder(s0, s1, "")
  }

  lemma ChangesUnderLookup(s0: Store, s1: Store, p: string, k: string)
    requires ChangesUnder(s0, s1, p)
    requires !HasPrefix(k, "TC" + p) && !HasPrefix(k, STAMP_PREFIX + "TC" + p)
    ensures Lookup(s1, k) == Lookup(s0, k)
  {
    assert k in s1 <==> k in Outside(s1, p);
    assert k in s0 <==> k in Outside(s0, p);
    if k in s1 {
      assert s1[k] == Outside(s1, p)[k];
    }
  }

  lemma RawOnlyChangesLookup(s0: Store, s1: Store, k: string)
    requires RawOnlyChanges(s0, s1) && !IsRawKey(k)
    ensures Lookup(s1, k) == Lookup(s0, k)
  {
    assert "TC" + "" == "TC";
    assert STAMP_PREFIX + "TC" + "" == STAMP_PREFIX + "TC";
    ChangesUnderLookup(s0, s1, "", k);
  }

  lemma PrefixTrans(s: string, a: string, b: string)
    requires HasPrefix(s, b) && HasPrefix(b, a)
    ensures HasPrefix(s, a)
  {
    assert s[..|a|] == s[..|b|][..|a|];
  }

  lemma PrefixExtend(x: string, q: string, p: string)
    requires HasPrefix(q, p)
    ensures HasPrefix(x + q, x + p)
  {
    assert (x + q)[..|x + p|] == x + q[..|p|];
  }

  /** A text that differs from `pre` at a position both have does not start
      with `pre`. */
  lemma NotPrefixAt(s: string, pre: string, j: nat)
    requires j < |s| && j < |pre| && s[j] != pre[j]
    ensures !HasPrefix(s, pre)
  {
    assert |pre| <= |s| ==> s[..|pre|][j] == s[j];
  }

  /** Changes confined to the URLs with a longer prefix are confined to the
      URLs with a shorter one. */
  lemma ChangesUnderWiden(s0: Store, s1: Store, p: string, q: string)
    requires HasPrefix(q, p) && ChangesUnder(s0, s1, q)
    ensures ChangesUnder(s0, s1, p)
  {
    PrefixExtend("TC", q, p);
    PrefixExtend(STAMP_PREFIX + "TC", q, p);
    forall k
      ensures HasPrefix(k, "TC" + q) ==> HasPrefix(k, "TC" + p)
      ensures HasPrefix(k, STAMP_PREFIX + "TC" + q) ==> HasPrefix(k, STAMP_PREFIX + "TC" + p)
    {
      if HasPrefix(k, "TC" + q) {
        PrefixTrans(k, "TC" + p, "TC" + q);
      }
      if HasPrefix(k, STAMP_PREFIX + "TC" + q) {
        PrefixTrans(k, STAMP_PREFIX + "TC" + p, STAMP_PREFIX + "TC" + q);
      }
    }
    forall k | k in Outside(s1, p) ensures k in Outside(s0, p) && Outside(s0, p)[k] == Outside(s1, p)[k] {
      assert k in Outside(s1, q);
    }
    forall k | k in Outside(s0, p) ensures k in Outside(s1, p) {
      assert k in Outside(s0, q);
    }
  }

  /** The request key of a URL with prefix `p`, and its write-time key, lie
      under `p`. */
  lemma RawKeyUnder(enc: Record -> string, url: string, query: Option<Record>, p: string)
    requires HasPrefix(url, p)
    ensures HasPrefix(RawKey(enc, url, query), "TC" + p)
    ensures HasPrefix(StampKey(RawKey(enc, url, query)), STAMP_PREFIX + "TC" + p)
  {
    var k := RawKey(enc, url, query);
    var tail := QueryText(enc, query);
    assert k == ("TC" + url) + tail;
    assert StampKey(k) == (STAMP_PREFIX + "TC" + url) + tail;
    assert k[..|"TC" + url|] == "TC" + url;
    assert StampKey(k)[..|STAMP_PREFIX + "TC" + url|] == STAMP_PREFIX + "TC" + url;
    PrefixExtend("TC", url, p);
    PrefixExtend(STAMP_PREFIX + "TC", url, p);
    PrefixTrans(k, "TC" + p, "TC" + url);
    PrefixTrans(StampKey(k), STAMP_PREFIX + "TC" + p, STAMP_PREFIX + "TC" + url);
  }

  /** The bodies a store holds. */
  ghost function Bodies(store: Store): set<Body> {
    set k | k in store && store[k].Object? :: store[k].body
  }

  /** The body a read of `key` serves, if any. */
  function Hit(store: Store, key: string, now: int): Option<Body> {
    match Read(store, key, now)
    case Some(Object(b)) => Some(b)
    case _ => None
  }

  /** The body a read of `key` serves, as a set: the only body a request
      for `key` may update in place. */
  function ServedBody(store: Store, key: string, now: int): set<Body> {
    if Hit(store, key, now).Some? then {Hit(store, key, now).value} else {}
  }

  /** A body the cache serves is one of the bodies it holds. */
  lemma HitInBodies(store: Store, key: string, now: int)
    requires Hit(store, key, now).Some?
    ensures Hit(store, key, now).value in Bodies(store)
  {
    assert store[key].Object? && store[key].body == Hit(store, key, now).value;
  }

  /** Two request keys never serve the same body. */
  lemma HitsApart(store: Store, k1: string, k2: string, now: int)
    requires RawTyped(store) && k1 != k2
    requires Hit(store, k1, now).Some? && Hit(store, k2, now).Some?
    ensures Hit(store, k1, now).value != Hit(store, k2, now).value
  {
    assert store[k1].Object? && store[k1].body == Hit(store, k1, now).value;
    assert store[k2].Object? && store[k2].body == Hit(store, k2, now).value;
  }

  /** The data of the body a read of `key` serves, or nothing. */
  ghost function HitData(store: Store, key: string, now: int): seq<Record>
    reads Bodies(store)
  {
    if Hit(store, key, now).Some? then
      HitInBodies(store, key, now);
      Hit(store, key, now).value.data
    else []
  }

  lemma PutRawKeepsShape(store: Store, enc: Record -> string, url: string, query: Option<Record>, b: Body, now: int)
    requires RawTyped(store) && b !in Bodies(store)
    ensures RawTyped(Write(store, RawKey(enc, url, query), Object(b), now))
    ensures ChangesUnder(store, Write(store, RawKey(enc, url, query), Object(b), now), url)
    ensures Bodies(Write(store, RawKey(enc, url, query), Object(b), now)) <= Bodies(store) + {b}
  {
    var key := RawKey(enc, url, query);
    var s1 := Write(store, key, Object(b), now);
    RawKeyShape(enc, url, query);
    assert HasPrefix(url, url);
    RawKeyUnder(enc, url, query, url);
    forall k | k in s1 && HasPrefix(k, "TC") ensures s1[k].Object? {
      assert k[..2] == "TC";
      assert k[0] == 'T';
    }
    forall k1, k2 | k1 in s1 && k2 in s1 && s1[k1].Object? && s1[k2].Object? && k1 != k2
      ensures s1[k1].body != s1[k2].body
    {
      if k1 == key {
        assert s1[k2] == store[k2] && store[k2].body in Bodies(store);
      } else if k2 == key {
        assert s1[k1] == store[k1] && store[k1].body in Bodies(store);
      } else {
        assert s1[k1] == store[k1] && s1[k2] == store[k2];
      }
    }
    forall k | k in Outside(s1, url) ensures k in Outside(store, url) && Outside(s1, url)[k] == Outside(store, url)[k] {
      assert k != key && k != StampKey(key);
    }
    forall k | k in Outside(store, url) ensures k in Outside(s1, url) {
      assert k != key && k != StampKey(key);
    }
    forall x | x in Bodies(s1) ensures x in Bodies(store) + {b} {
      var k :| k in s1 && s1[k].Object? && s1[k].body == x;
      if k != key {
        assert k != StampKey(key);
        assert k in store && store[k] == s1[k];
      }
    }
  }

  // ---------------------------------------------------------------------------
  // The network

  /** An upstream reply: a status with a parsed body, or a transport error. */
  datatype Reply = Reply(status: int, fields: Record, data: seq<Record>) | Failure(message: string)

  datatype Call = Call(url: string, query: Option<Record>)

  /** What upstream replies to each request. */
  type Respond = (string, Option<Record>) -> Reply

  predicate Succeeded(rep: Reply) {
    rep.Reply? && rep.status == 200
  }

  /** `err || "HTTP error " + rsp.statusCode`. */
  function ErrorText(rep: Reply): (e: string)
    ensures rep.Failure? ==> e == rep.message
    ensures rep.Reply? ==> HasPrefix(e, "HTTP error ") && e[|"HTTP error "|..] == IntToString(rep.status)
  {
    if rep.Failure? then rep.message else "HTTP error " + IntToString(rep.status)
  }

  /** The upstream API. `respond` fixes what each request returns; `calls`
      records the requests made, in order. */
  class Network {
    const respond: Respond
    var calls: seq<Call>

    constructor (respond: Respond)
      ensures this.respond == respond && calls == []
    {
      this.respond := respond;
      calls := [];
    }

    method Fetch(url: string, query: Option<Record>) returns (r: Reply)
      modifies this
      ensures calls == old(calls) + [Call(url, query)]
      ensures r == respond(url, query)
    {
      calls := calls + [Call(url, query)];
      r := respond(url, query);
    }
  }

  // ---------------------------------------------------------------------------
  // Read-through / write-through

  /** The miss path of `requestFromTC_API`: call upstream; on a 200 reply
      cache the new body under the request key and return it, on any other
      status or a transport error return the error and cache nothing. */
  method FetchAndCache(cache: TtlCache, net: Network, enc: Record -> string, url: string,
                       query: Option<Record>, now: int) returns (r: Result<Body>)
    requires RawTyped(cache.store)
    modifies cache, net
    ensures RawTyped(cache.store)
    ensures ChangesUnder(old(cache.store), cache.store, url)
    ensures Bodies(cache.store) <= Bodies(old(cache.store)) + (if r.Ok? then {r.value} else {})
    ensures net.calls == old(net.calls) + [Call(url, query)]
    ensures var rep := net.respond(url, query);
      (Succeeded(rep) ==>
        r.Ok? && fresh(r.value) && r.value.fields == rep.fields && r.value.data == rep.data &&
        cache.store == Write(old(cache.store), RawKey(enc, url, query), Object(r.value), now)) &&
      (!Succeeded(rep) ==> r == Err(ErrorText(rep)) && cache.store == old(cache.store))
  {
    var rep := net.Fetch(url, query);
    if rep.Failure? || rep.status != 200 {
      r := Err(ErrorText(rep));
    } else {
      var body := new Body(rep.fields, rep.data);
      PutRawKeepsShape(cache.store, enc, url, query, body, now);
      cache.Put(RawKey(enc, url, query), Object(body), now);
      r := Ok(body);
    }
  }

  /** `requestFromTC_API`: serve the cached body for the request key if there
      is one, making no call; otherwise take the miss path. */
  method RequestFromApi(cache: TtlCache, net: Network, enc: Record -> string, url: string,
                        query: Option<Record>, now: int) returns (r: Result<Body>)
    requires RawTyped(cache.store)
    modifies cache, net
    ensures RawTyped(cache.store)
    ensures ChangesUnder(old(cache.store), cache.store, url)
    ensures Bodies(cache.store) <= Bodies(old(cache.store)) + (if r.Ok? then {r.value} else {})
    ensures var h := Hit(old(cache.store), RawKey(enc, url, query), now);
      h.Some? ==> r == Ok(h.value) && cache.store == old(cache.store) && net.calls == old(net.calls)
    ensures var h := Hit(old(cache.store), RawKey(enc, url, query), now);
      var rep := net.respond(url, query);
      h.None? ==>
        net.calls == old(net.calls) + [Call(url, query)] &&
        (Succeeded(rep) ==>
          r.Ok? && fresh(r.value) && r.value.fields == rep.fields && r.value.data == rep.data &&
          cache.store == Write(old(cache.store), RawKey(enc, url, query), Object(r.value), now)) &&
        (!Succeeded(rep) ==> r == Err(ErrorText(rep)) && cache.store == old(cache.store))
  {
    var key := RawKey(enc, url, query);
    var cached := cache.Get(key, now);
    RawKeyShape(enc, url, query);
    if cached.Some? && CellTruthy(cached.value) {
      assert cached.value == cache.store[key];
      r := Ok(cached.value.body);
    } else {
      assert Hit(cache.store, key, now).None?;
      r := FetchAndCache(cache, net, enc, url, query, now);
    }
  }

  // ---------------------------------------------------------------------------
  // Standard challenges: what the detail fan-out delivers

  /** `_.merge(item, detailsResult)`, member by member: the detail wins. */
  function Enrich(item: Record, detail: Record): (m: Record)
    ensures m.Keys == item.Keys + detail.Keys
    ensures forall k :: k in detail ==> m[k] == detail[k]
    ensures forall k :: k in item && k !in detail ==> m[k] == item[k]
  {
    item + detail
  }

  /** Enriching twice with the same detail changes nothing more: a cached
      summary list that was already enriched in place is enriched again to
      the same records. */
  lemma EnrichIdempotent(item: Record, detail: Record)
    ensures Enrich(Enrich(item, detail), detail) == Enrich(item, detail)
  {
  }

  /** The detail record of `url` the fan-out obtains when its lookup sees the
      cache `store0`: the cached body's members, else those of a 200 reply,
      else the reply's error. */
  function Detail(store0: Store, respond: Respond, enc: Record -> string, url: string, now: int): Result<Record> {
    var h := Hit(store0, RawKey(enc, url, None), now);
    var rep := respond(url, None);
    if h.Some? then Ok(h.value.fields)
    else if Succeeded(rep) then Ok(rep.fields)
    else Err(ErrorText(rep))
  }

  /** The result of the fan-out over `items`: each item merged with its
      detail, in order, or the error of the first item whose detail fails. */
  function Enriched(items: seq<Record>, store0: Store, respond: Respond, enc: Record -> string, now: int)
    : (r: Result<seq<Record>>)
    ensures r.Ok? ==> |r.value| == |items|
    decreases |items|
  {
    if items == [] then Ok([])
    else
      var n := |items| - 1;
      var front := Enriched(items[..n], store0, respond, enc, now);
      var d := Detail(store0, respond, enc, DetailUrl(items[n]), now);
      if front.Err? then front
      else if d.Err? then Err(d.message)
      else Ok(front.value + [Enrich(items[n], d.value)])
  }

  /** The detail requests of the fan-out: one per item whose lookup misses,
      in item order. */
  function MissCalls(items: seq<Record>, store0: Store, enc: Record -> string, now: int): seq<Call>
    decreases |items|
  {
    if items == [] then []
    else
      var n := |items| - 1;
      var u := DetailUrl(items[n]);
      MissCalls(items[..n], store0, enc, now) +
      (if Hit(store0, RawKey(enc, u, None), now).None? then [Call(u, None)] else [])
  }

  /** The detail URLs of the summary records. */
  ghost function Urls(items: seq<Record>): set<string> {
    set k | 0 <= k < |items| :: DetailUrl(items[k])
  }

  /** The fan-out succeeds exactly when every item's detail does. */
  lemma {:induction false} EnrichedOk(items: seq<Record>, store0: Store, respond: Respond, enc: Record -> string, now: int)
    ensures Enriched(items, store0, respond, enc, now).Ok? <==>
      forall k :: 0 <= k < |items| ==> Detail(store0, respond, enc, DetailUrl(items[k]), now).Ok?
    decreases |items|
  {
    if items != [] {
      var n := |items| - 1;
      EnrichedOk(items[..n], store0, respond, enc, now);
      assert forall k :: 0 <= k < n ==> items[..n][k] == items[k];
    }
  }

  /** On success, record `k` is summary record `k` merged with its detail. */
  lemma {:induction false} EnrichedRecords(items: seq<Record>, store0: Store, respond: Respond, enc: Record -> string, now: int)
    requires Enriched(items, store0, respond, enc, now).Ok?
    ensures forall k :: 0 <= k < |items| ==>
      Detail(store0, respond, enc, DetailUrl(items[k]), now).Ok? &&
      Enriched(items, store0, respond, enc, now).value[k] ==
        Enrich(items[k], Detail(store0, respond, enc, DetailUrl(items[k]), now).value)
    decreases |items|
  {
    if items != [] {
      var n := |items| - 1;
      var front := Enriched(items[..n], store0, respond, enc, now);
      var d := Detail(store0, respond, enc, DetailUrl(items[n]), now);
      assert front.Ok? && d.Ok?;
      assert Enriched(items, store0, respond, enc, now).value == front.value + [Enrich(items[n], d.value)];
      EnrichedRecords(items[..n], store0, respond, enc, now);
      forall k | 0 <= k < |items|
        ensures Detail(store0, respond, enc, DetailUrl(items[k]), now).Ok? &&
          Enriched(items, store0, respond, enc, now).value[k] ==
            Enrich(items[k], Detail(store0, respond, enc, DetailUrl(items[k]), now).value)
      {
        if k < n {
          assert items[..n][k] == items[k];
          assert Enriched(items, store0, respond, enc, now).value[k] == front.value[k];
        } else {
          assert Enriched(items, store0, respond, enc, now).value[k] == Enrich(items[n], d.value);
        }
      }
    }
  }

  /** On failure, the error is that of the first item whose detail fails. */
  lemma {:induction false} EnrichedFirstError(items: seq<Record>, store0: Store, respond: Respond, enc: Record -> string, now: int)
    requires Enriched(items, store0, respond, enc, now).Err?
    ensures exists k ::
      0 <= k < |items| &&
      Detail(store0, respond, enc, DetailUrl(items[k]), now).Err? &&
      Enriched(items, store0, respond, enc, now).message == Detail(store0, respond, enc, DetailUrl(items[k]), now).message &&
      forall j :: 0 <= j < k ==> Detail(store0, respond, enc, DetailUrl(items[j]), now).Ok?
    decreases |items|
  {
    var n := |items| - 1;
    assert forall k :: 0 <= k < n ==> items[..n][k] == items[k];
    if Enriched(items[..n], store0, respond, enc, now).Err? {
      EnrichedFirstError(items[..n], store0, respond, enc, now);
      var k :| 0 <= k < n &&
        Detail(store0, respond, enc, DetailUrl(items[..n][k]), now).Err? &&
        Enriched(items[..n], store0, respond, enc, now).message == Detail(store0, respond, enc, DetailUrl(items[..n][k]), now).message &&
        forall j :: 0 <= j < k ==> Detail(store0, respond, enc, DetailUrl(items[..n][j]), now).Ok?;
      assert items[..n][k] == items[k];
    } else {
      EnrichedOk(items[..n], store0, respond, enc, now);
    }
  }

  /** Every request of the fan-out is a detail request, with a null query,
      for a summary item whose lookup missed; there is at most one per item. */
  lemma {:induction false} MissCallsMisses(items: seq<Record>, store0: Store, enc: Record -> string, now: int)
    ensures |MissCalls(items, store0, enc, now)| <= |items|
    ensures forall c :: c in MissCalls(items, store0, enc, now) ==>
      c.query.None? && c.url in Urls(items) && Hit(store0, RawKey(enc, c.url, None), now).None?
    decreases |items|
  {
    if items != [] {
      var n := |items| - 1;
      MissCallsMisses(items[..n], store0, enc, now);
      assert forall k :: 0 <= k < n ==> items[..n][k] == items[k];
      assert Urls(items[..n]) <= Urls(items);
    }
  }

  /** Exactly the items whose detail the lookup does not find are requested. */
  lemma {:induction false} MissCallsExact(items: seq<Record>, store0: Store, enc: Record -> string, now: int)
    ensures forall k :: 0 <= k < |items| ==>
      (Call(DetailUrl(items[k]), None) in MissCalls(items, store0, enc, now) <==>
       Hit(store0, RawKey(enc, DetailUrl(items[k]), None), now).None?)
  {
    MissCallsMisses(items, store0, enc, now);
    MissCallsIssued(items, store0, enc, now);
  }

  /** Every item whose lookup misses is requested. */
  lemma {:induction false} MissCallsIssued(items: seq<Record>, store0: Store, enc: Record -> string, now: int)
    ensures forall k :: 0 <= k < |items| && Hit(store0, RawKey(enc, DetailUrl(items[k]), None), now).None? ==>
      Call(DetailUrl(items[k]), None) in MissCalls(items, store0, enc, now)
    decreases |items|
  {
    if items != [] {
      var n := |items| - 1;
      MissCallsIssued(items[..n], store0, enc, now);
      assert forall k :: 0 <= k < n ==> items[..n][k] == items[k];
    }
  }

  /** One more item of the fan-out: its detail extends the result, and its
      request, if it misses, extends the calls. */
  lemma EnrichedStep(items: seq<Record>, i: nat, store0: Store, respond: Respond, enc: Record -> string, now: int)
    requires i < |items|
    ensures var e := Enriched(items[..i], store0, respond, enc, now);
      var d := Detail(store0, respond, enc, DetailUrl(items[i]), now);
      Enriched(items[..i + 1], store0, respond, enc, now) ==
        (if e.Err? then e else if d.Err? then Err(d.message) else Ok(e.value + [Enrich(items[i], d.value)]))
    ensures MissCalls(items[..i + 1], store0, enc, now) ==
      MissCalls(items[..i], store0, enc, now) +
      (if Hit(store0, RawKey(enc, DetailUrl(items[i]), None), now).None? then [Call(DetailUrl(items[i]), None)] else [])
  {
    assert items[..i + 1][..i] == items[..i];
  }

  /** `key` holds a body with members `fields`, written at `now`. */
  ghost predicate CachedBody(store: Store, key: string, fields: Record, now: int) {
    key in store && store[key].Object? && store[key].body.fields == fields &&
    Lookup(store, StampKey(key)) == Some(Number(now))
  }

  /** Every detail the fan-out requested and got a 200 reply for is cached. */
  ghost predicate DetailsCached(store: Store, items: seq<Record>, store0: Store, respond: Respond,
                                enc: Record -> string, now: int) {
    forall k ::
      (0 <= k < |items| && Hit(store0, RawKey(enc, DetailUrl(items[k]), None), now).None? &&
       Succeeded(respond(DetailUrl(items[k]), None))) ==>
      CachedBody(store, RawKey(enc, DetailUrl(items[k]), None), respond(DetailUrl(items[k]), None).fields, now)
  }

  /** A detail cached by the fan-out is served for the rest of the
      time-to-live, when the clock is not 0. */
  lemma DetailsCachedServed(store: Store, items: seq<Record>, store0: Store, respond: Respond,
                            enc: Record -> string, now: int, later: int, k: nat)
    requires DetailsCached(store, items, store0, respond, enc, now)
    requires k < |items| && now != 0 && later - now <= TTL_MS
    requires Hit(store0, RawKey(enc, DetailUrl(items[k]), None), now).None? && Succeeded(respond(DetailUrl(items[k]), None))
    ensures var h := Hit(store, RawKey(enc, DetailUrl(items[k]), None), later);
      h.Some? && h.value.fields == respond(DetailUrl(items[k]), None).fields
  {
  }

  /** One more completed detail keeps every fetched detail cached. */
  lemma DetailsCachedStep(s: Store, s1: Store, items: seq<Record>, i: nat, store0: Store, respond: Respond,
                          enc: Record -> string, now: int, written: Option<Body>)
    requires i < |items| && DetailsCached(s, items[..i], store0, respond, enc, now)
    requires written.None? ==> s1 == s
    requires written.Some? ==>
      s1 == Write(s, RawKey(enc, DetailUrl(items[i]), None), Object(written.value), now) &&
      Succeeded(respond(DetailUrl(items[i]), None)) &&
      written.value.fields == respond(DetailUrl(items[i]), None).fields
    requires (Hit(store0, RawKey(enc, DetailUrl(items[i]), None), now).None? &&
              Succeeded(respond(DetailUrl(items[i]), None))) ==> written.Some?
    ensures DetailsCached(s1, items[..i + 1], store0, respond, enc, now)
  {
    var u := DetailUrl(items[i]);
    var key := RawKey(enc, u, None);
    StampKeyDiffers(key);
    RawKeyShape(enc, u, None);
    forall k | 0 <= k < i + 1 &&
      Hit(store0, RawKey(enc, DetailUrl(items[k]), None), now).None? && Succeeded(respond(DetailUrl(items[k]), None))
      ensures CachedBody(s1, RawKey(enc, DetailUrl(items[k]), None), respond(DetailUrl(items[k]), None).fields, now)
    {
      var uk := DetailUrl(items[k]);
      var kk := RawKey(enc, uk, None);
      if uk != u && written.Some? {
        if kk == key {
          RawKeyInjective(enc, uk, u);
        }
        RawKeyShape(enc, uk, None);
        assert items[..i][k] == items[k];
        assert StampKey(kk) != StampKey(key);
      } else if k < i {
        assert items[..i][k] == items[k];
      }
    }
  }

  // ---------------------------------------------------------------------------
  // Standard challenges: the fan-out

  /** One completed detail request carries the fan-out's result, its calls
      and its cached details from the first `i` items to the first `j`,
      which is `i + 1`. */
  lemma FanOutStep(items: seq<Record>, i: nat, j: nat, store0: Store, respond: Respond, enc: Record -> string,
                   now: int, hit: Option<Body>, s: Store, s1: Store, calls0: seq<Call>, calls: seq<Call>,
                   calls1: seq<Call>, r: Result<seq<Record>>, d: Result<Record>, written: Option<Body>,
                   r1: Result<seq<Record>>)
    requires i < |items| && j == i + 1 && hit == Hit(store0, RawKey(enc, DetailUrl(items[i]), None), now)
    requires r == Enriched(items[..i], store0, respond, enc, now)
    requires calls == calls0 + MissCalls(items[..i], store0, enc, now)
    requires DetailsCached(s, items[..i], store0, respond, enc, now)
    requires written.None? ==> s1 == s
    requires hit.Some? ==> d == Ok(hit.value.fields) && written.None? && calls1 == calls
    requires var u := DetailUrl(items[i]);
      var rep := respond(u, None);
      hit.None? ==>
        calls1 == calls + [Call(u, None)] &&
        (Succeeded(rep) ==>
          d == Ok(rep.fields) && written.Some? && written.value.fields == rep.fields &&
          s1 == Write(s, RawKey(enc, u, None), Object(written.value), now)) &&
        (!Succeeded(rep) ==> d == Err(ErrorText(rep)) && written.None?)
    requires r1 == (if r.Err? then r else if d.Err? then Err(d.message) else Ok(r.value + [Enrich(items[i], d.value)]))
    ensures r1 == Enriched(items[..j], store0, respond, enc, now)
    ensures calls1 == calls0 + MissCalls(items[..j], store0, enc, now)
    ensures DetailsCached(s1, items[..j], store0, respond, enc, now)
  {
    EnrichedStep(items, i, store0, respond, enc, now);
    CallsAppend(calls0, MissCalls(items[..i], store0, enc, now),
                if hit.None? then [Call(DetailUrl(items[i]), None)] else []);
    DetailsCachedStep(s, s1, items, i, store0, respond, enc, now, written);
  }

  /** The completion of one detail request of the fan-out, given what its
      lookup found at issue time: the cached body's members, or, after the
      upstream call, those of a 200 reply (whose body is then cached, as
      `written` names) or the reply's error. */
  method FetchDetail(cache: TtlCache, net: Network, enc: Record -> string, item: Record,
                     hit: Option<Body>, now: int) returns (r: Result<Record>, ghost written: Option<Body>)
    requires RawTyped(cache.store)
    modifies cache, net
    ensures RawTyped(cache.store)
    ensures ChangesUnder(old(cache.store), cache.store, STANDARD_URL + "/")
    ensures forall b :: b in Bodies(cache.store) ==> b in Bodies(old(cache.store)) || fresh(b)
    ensures written.None? ==> cache.store == old(cache.store)
    ensures hit.Some? ==> r == Ok(hit.value.fields) && written.None? && net.calls == old(net.calls)
    ensures var u := DetailUrl(item);
      var rep := net.respond(u, None);
      hit.None? ==>
        net.calls == old(net.calls) + [Call(u, None)] &&
        (Succeeded(rep) ==>
          r == Ok(rep.fields) && written.Some? && written.value.fields == rep.fields &&
          cache.store == Write(old(cache.store), RawKey(enc, u, None), Object(written.value), now)) &&
        (!Succeeded(rep) ==> r == Err(ErrorText(rep)) && written.None?)
  {
    written := None;
    if hit.Some? {
      r := Ok(hit.value.fields);
      return;
    }
    var url := DetailUrl(item);
    var res := FetchAndCache(cache, net, enc, url, None, now);
    ChangesUnderWiden(old(cache.store), cache.store, STANDARD_URL + "/", url);
    if res.Err? {
      r := Err(res.message);
      return;
    }
    written := Some(res.value);
    r := Ok(res.value.fields);
  }

  /** The issue phase of the fan-out: one detail lookup per item, in order,
      all against the same cache. */
  method IssueLookups(cache: TtlCache, enc: Record -> string, items: seq<Record>, now: int)
    returns (hits: seq<Option<Body>>)
    ensures |hits| == |items|
    ensures forall k :: 0 <= k < |items| ==> hits[k] == Hit(cache.store, RawKey(enc, DetailUrl(items[k]), None), now)
  {
    hits := [];
    var i := 0;
    while i < |items|
      invariant 0 <= i <= |items| && |hits| == i
      invariant forall k :: 0 <= k < i ==> hits[k] == Hit(cache.store, RawKey(enc, DetailUrl(items[k]), None), now)
    {
      var c := cache.Get(RawKey(enc, DetailUrl(items[i]), None), now);
      var h: Option<Body> := None;
      if c.Some? && c.value.Object? {
        h := Some(c.value.body);
      }
      hits := hits + [h];
      i := i + 1;
    }
  }

  /** The detail fan-out of `getStandardChallenges` under `async.map`. Each
      item's lookup is made when the item is issued, before any reply has
      arrived, so every lookup sees the cache as the fan-out found it
      (`store0` serves the same details). Then every miss is requested, in
      item order, and every 200 reply is cached, also after another detail
      has failed. The result is `Enriched`: the merged records, or the error
      of the first item whose detail fails. */
  method FetchDetails(cache: TtlCache, net: Network, enc: Record -> string, items: seq<Record>,
                      now: int, ghost store0: Store) returns (r: Result<seq<Record>>)
    requires RawTyped(cache.store)
    requires forall u :: Hit(cache.store, RawKey(enc, u, None), now) == Hit(store0, RawKey(enc, u, None), now)
    modifies cache, net
    ensures RawTyped(cache.store)
    ensures ChangesUnder(old(cache.store), cache.store, STANDARD_URL + "/")
    ensures forall b :: b in Bodies(cache.store) ==> b in Bodies(old(cache.store)) || fresh(b)
    ensures r == Enriched(items, store0, net.respond, enc, now)
    ensures net.calls == old(net.calls) + MissCalls(items, store0, enc, now)
    ensures DetailsCached(cache.store, items, store0, net.respond, enc, now)
  {
    ghost var calls0 := net.calls;
    var hits := IssueLookups(cache, enc, items, now);
    // Completion: one reply per miss; `r` keeps the first error.
    r := Ok([]);
    var i := 0;
    while i < |items|
      invariant 0 <= i <= |items| && |hits| == |items|
      invariant forall k :: 0 <= k < |items| ==> hits[k] == Hit(store0, RawKey(enc, DetailUrl(items[k]), None), now)
      invariant r == Enriched(items[..i], store0, net.respond, enc, now)
      invariant net.calls == calls0 + MissCalls(items[..i], store0, enc, now)
      invariant DetailsCached(cache.store, items[..i], store0, net.respond, enc, now)
      invariant RawTyped(cache.store)
      invariant ChangesUnder(old(cache.store), cache.store, STANDARD_URL + "/")
      invariant forall b :: b in Bodies(cache.store) ==> b in Bodies(old(cache.store)) || fresh(b)
    {
      ghost var s, calls, r0 := cache.store, net.calls, r;
      var d, written := FetchDetail(cache, net, enc, items[i], hits[i], now);
      if r.Ok? {
        r := if d.Err? then Err(d.message) else Ok(r.value + [Enrich(items[i], d.value)]);
      }
      i := i + 1;
      FanOutStep(items, i - 1, i, store0, net.respond, enc, now, hits[i - 1], s, cache.store,
                 calls0, calls, net.calls, r0, d, written, r);
    }
    assert items[..i] == items;
  }

  /** A write under a request key with a query leaves every detail read as
      it was. */
  lemma DetailReadsAfterListPut(store: Store, enc: Record -> string, url: string, q: Record, v: Cell, now: int)
    ensures forall u ::
      Hit(Write(store, RawKey(enc, url, Some(q)), v, now), RawKey(enc, u, None), now) == Hit(store, RawKey(enc, u, None), now)
  {
    var key := RawKey(enc, url, Some(q));
    RawKeyShape(enc, url, Some(q));
    forall u ensures Read(Write(store, key, v, now), RawKey(enc, u, None), now) == Read(store, RawKey(enc, u, None), now) {
      RawKeyShape(enc, u, None);
      RawKeysSeparate(store, key, v, now, RawKey(enc, u, None), now);
    }
  }

  // ---------------------------------------------------------------------------
  // Standard challenges: the list

  /** What a list fetch delivers and requests. */
  datatype Fetched = Fetched(result: Result<seq<Record>>, calls: seq<Call>)

  /** The raw-cache key of the standard list request. */
  function StandardKey(enc: Record -> string, list: Json, query: Option<Record>): string {
    RawKey(enc, ListUrl(list), Some(WithDefaults(query)))
  }

  /** The summary list the detail fan-out runs over: the data of the cached
      list body when the cache serves the list, else the reply's. */
  ghost function Summary(store0: Store, respond: Respond, enc: Record -> string, list: Json,
                         query: Option<Record>, now: int): seq<Record>
    reads Bodies(store0)
  {
    if Hit(store0, StandardKey(enc, list, query), now).Some? then HitData(store0, StandardKey(enc, list, query), now)
    else
      var rep := respond(ListUrl(list), Some(WithDefaults(query)));
      if rep.Reply? then rep.data else []
  }

  /** What `getStandardChallenges` delivers and requests against the cache
      `store0`: the list's error when it is neither cached nor fetched with a
      200 reply, else the fan-out over the summary list; the list request,
      when it misses, comes before the detail requests. */
  ghost function StandardFetch(store0: Store, respond: Respond, enc: Record -> string, list: Json,
                               query: Option<Record>, now: int): Fetched
    reads Bodies(store0)
  {
    var url := ListUrl(list);
    var q := Some(WithDefaults(query));
    var cached := Hit(store0, RawKey(enc, url, q), now).Some?;
    var rep := respond(url, q);
    var listCalls := if cached then [] else [Call(url, q)];
    if !cached && !Succeeded(rep) then Fetched(Err(ErrorText(rep)), listCalls)
    else
      var summary := Summary(store0, respond, enc, list, query, now);
      Fetched(Enriched(summary, store0, respond, enc, now), listCalls + MissCalls(summary, store0, enc, now))
  }

  /** The standard fetch succeeds exactly when the list is served, from the
      cache or by a 200 reply, and every summary item's detail is; its
      records are then the summary items, each merged with its detail. */
  lemma StandardFetchOk(store0: Store, respond: Respond, enc: Record -> string, list: Json,
                        query: Option<Record>, now: int)
    ensures var f := StandardFetch(store0, respond, enc, list, query, now);
      var summary := Summary(store0, respond, enc, list, query, now);
      var listed := Hit(store0, StandardKey(enc, list, query), now).Some? ||
                    Succeeded(respond(ListUrl(list), Some(WithDefaults(query))));
      (f.result.Ok? <==> listed && forall k :: 0 <= k < |summary| ==> Detail(store0, respond, enc, DetailUrl(summary[k]), now).Ok?) &&
      (f.result.Ok? ==>
        |f.result.value| == |summary| &&
        forall k :: 0 <= k < |summary| ==>
          f.result.value[k] == Enrich(summary[k], Detail(store0, respond, enc, DetailUrl(summary[k]), now).value))
  {
    var summary := Summary(store0, respond, enc, list, query, now);
    EnrichedOk(summary, store0, respond, enc, now);
    if Enriched(summary, store0, respond, enc, now).Ok? {
      EnrichedRecords(summary, store0, respond, enc, now);
    }
  }

  /** The calls of the standard fetch: the list request first exactly when
      the list misses the cache; then, once the list is served, one detail
      request with no query for each summary item whose detail misses, and
      nothing else. */
  lemma StandardFetchCalls(store0: Store, respond: Respond, enc: Record -> string, list: Json,
                           query: Option<Record>, now: int)
    ensures var f := StandardFetch(store0, respond, enc, list, query, now);
      var summary := Summary(store0, respond, enc, list, query, now);
      var listCall := Call(ListUrl(list), Some(WithDefaults(query)));
      var hit := Hit(store0, StandardKey(enc, list, query), now).Some?;
      var details := if hit then f.calls else f.calls[1..];
      (hit ==> listCall !in f.calls) &&
      (!hit ==> |f.calls| >= 1 && f.calls[0] == listCall) &&
      (!hit && !Succeeded(respond(ListUrl(list), Some(WithDefaults(query)))) ==> f.calls == [listCall]) &&
      (forall c :: c in details ==> c.query.None? && c.url in Urls(summary)) &&
      ((hit || Succeeded(respond(ListUrl(list), Some(WithDefaults(query))))) ==>
        forall k :: 0 <= k < |summary| ==>
          (Call(DetailUrl(summary[k]), None) in details <==>
           Hit(store0, RawKey(enc, DetailUrl(summary[k]), None), now).None?))
  {
    var summary := Summary(store0, respond, enc, list, query, now);
    MissCallsMisses(summary, store0, enc, now);
    MissCallsExact(summary, store0, enc, now);
    var f := StandardFetch(store0, respond, enc, list, query, now);
    if Hit(store0, StandardKey(enc, list, query), now).None? {
      assert f.calls[1..] == [] || f.calls[1..] == MissCalls(summary, store0, enc, now);
    }
  }

  /** Appending a batch of calls after another batch. */
  lemma CallsAppend(a: seq<Call>, b: seq<Call>, c: seq<Call>)
    ensures a + b + c == a + (b + c)
  {
  }

  /** `getStandardChallenges`: fetch the list with the defaults merged into
      the query, then run the detail fan-out over its records; on success
      the list body's `data` is replaced by the merged records, and nothing
      is written to any other body. */
  method GetStandardChallenges(cache: TtlCache, net: Network, enc: Record -> string, list: Json,
                               query: Option<Record>, now: int) returns (r: Result<Body>)
    requires RawTyped(cache.store)
    modifies cache, net, ServedBody(cache.store, StandardKey(enc, list, query), now)
    ensures RawTyped(cache.store)
    ensures ChangesUnder(old(cache.store), cache.store, STANDARD_URL + "/")
    ensures forall b :: b in Bodies(cache.store) ==> b in Bodies(old(cache.store)) || fresh(b)
    ensures var f := old(StandardFetch(cache.store, net.respond, enc, list, query, now));
      net.calls == old(net.calls) + f.calls &&
      (f.result.Err? ==> r == Err(f.result.message)) &&
      (f.result.Ok? ==> r.Ok? && r.value.data == f.result.value)
    ensures var h := Hit(old(cache.store), StandardKey(enc, list, query), now);
      r.Ok? ==>
        (h.Some? ==> r.value == h.value) &&
        (h.None? ==> fresh(r.value) && r.value.fields == net.respond(ListUrl(list), Some(WithDefaults(query))).fields)
    ensures var h := Hit(old(cache.store), StandardKey(enc, list, query), now);
      h.Some? && r.Err? ==> h.value.data == old(h.value.data)
  {
    ghost var store0 := cache.store;
    ghost var f := StandardFetch(store0, net.respond, enc, list, query, now);
    ghost var summary := Summary(store0, net.respond, enc, list, query, now);
    ghost var calls0 := net.calls;
    var url := ListUrl(list);
    var q := WithDefaults(query);
    var res := RequestFromApi(cache, net, enc, url, Some(q), now);
    ChangesUnderWiden(store0, cache.store, STANDARD_URL + "/", url);
    if res.Err? {
      assert f.result == Err(res.message) && net.calls == calls0 + f.calls;
      r := Err(res.message);
      return;
    }
    var body := res.value;
    ghost var listCalls: seq<Call> := if Hit(store0, RawKey(enc, url, Some(q)), now).None? then [Call(url, Some(q))] else [];
    assert net.calls == calls0 + listCalls;
    ghost var callsMid := net.calls;
    if Hit(store0, RawKey(enc, url, Some(q)), now).None? {
      DetailReadsAfterListPut(store0, enc, url, q, Object(body), now);
      assert summary == body.data;
    } else {
      HitInBodies(store0, RawKey(enc, url, Some(q)), now);
      assert summary == body.data;
    }
    assert f == Fetched(Enriched(summary, store0, net.respond, enc, now), listCalls + MissCalls(summary, store0, enc, now));
    var merged := FetchDetails(cache, net, enc, body.data, now, store0);
    assert net.calls == callsMid + MissCalls(summary, store0, enc, now);
    CallsAppend(calls0, listCalls, MissCalls(summary, store0, enc, now));
    if merged.Err? {
      r := Err(merged.message);
      return;
    }
    body.data := merged.value;
    r := Ok(body);
  }

  // ---------------------------------------------------------------------------
  // Data-science challenges

  /** The marathon record mapping of `getDataScienceChallenges`. */
  function MapMarathon(rec: Record): (m: Record)
    ensures m.Keys == {"challengeName", "problemId", "roundId", "registrationStartDate"}
    ensures m["challengeName"] == Get(rec, "fullName")
    ensures m["problemId"] == Get(rec, "problemId")
    ensures m["roundId"] == Get(rec, "roundId")
    ensures m["registrationStartDate"] == Get(rec, "startDate")
  {
    map["challengeName" := Get(rec, "fullName"), "problemId" := Get(rec, "problemId"),
        "roundId" := Get(rec, "roundId"), "registrationStartDate" := Get(rec, "startDate")]
  }

  /** `_.map(body.data, ...)`: one mapped record per record, in order. */
  function MapAll(data: seq<Record>): (m: seq<Record>)
    ensures |m| == |data|
    ensures forall k :: 0 <= k < |m| ==> m[k] == MapMarathon(data[k])
  {
    seq(|data|, k requires 0 <= k < |data| => MapMarathon(data[k]))
  }

  /** The mapping is not idempotent: a record mapped twice has lost its name
      and its date, and keeps only the problem and round ids. */
  lemma MapMarathonTwice(rec: Record)
    ensures Get(MapMarathon(MapMarathon(rec)), "challengeName") == Undef
    ensures Get(MapMarathon(MapMarathon(rec)), "registrationStartDate") == Undef
    ensures Get(MapMarathon(MapMarathon(rec)), "problemId") == Get(rec, "problemId")
    ensures Get(MapMarathon(MapMarathon(rec)), "roundId") == Get(rec, "roundId")
  {
    var m := MapMarathon(rec);
    assert "fullName" !in m && "startDate" !in m;
  }

  /** The raw-cache key of the data-science request. */
  function ScienceKey(enc: Record -> string, query: Option<Record>): string {
    RawKey(enc, DATA_SCIENCE_URL, Some(WithDefaults(query)))
  }

  /** What `getDataScienceChallenges` delivers and requests against the
      cache `store0`: the mapped records of the cached body with no call, or,
      after the call, those of a 200 reply or the reply's error. */
  ghost function ScienceFetch(store0: Store, respond: Respond, enc: Record -> string,
                              query: Option<Record>, now: int): Fetched
    reads Bodies(store0)
  {
    var q := Some(WithDefaults(query));
    var rep := respond(DATA_SCIENCE_URL, q);
    if Hit(store0, ScienceKey(enc, query), now).Some? then
      Fetched(Ok(MapAll(HitData(store0, ScienceKey(enc, query), now))), [])
    else if Succeeded(rep) then Fetched(Ok(MapAll(rep.data)), [Call(DATA_SCIENCE_URL, q)])
    else Fetched(Err(ErrorText(rep)), [Call(DATA_SCIENCE_URL, q)])
  }

  /** No data-science key, and no write-time key of one, lies under the
      standard URL: the URLs part at the character after `/v2/`. */
  lemma ScienceKeyApart(enc: Record -> string, query: Option<Record>)
    ensures var key := ScienceKey(enc, query);
      var p := STANDARD_URL + "/";
      !HasPrefix(key, "TC" + p) && !HasPrefix(key, STAMP_PREFIX + "TC" + p) &&
      !HasPrefix(StampKey(key), "TC" + p) && !HasPrefix(StampKey(key), STAMP_PREFIX + "TC" + p)
  {
    var key := ScienceKey(enc, query);
    var p := STANDARD_URL + "/";
    var j := 2 + |Config.API_HOST| + 4;
    var tail := QueryText(enc, Some(WithDefaults(query)));
    assert key == ("TC" + Config.API_HOST) + ("/v2/data/marathon/challenges" + tail);
    assert "TC" + p == ("TC" + Config.API_HOST) + "/v2/challenges/";
    assert key[j] == 'd' && ("TC" + p)[j] == 'c';
    NotPrefixAt(key, "TC" + p, j);
    NotPrefixAt(key, STAMP_PREFIX + "TC" + p, 0);
    assert StampKey(key)[|STAMP_PREFIX| + j] == key[j];
    assert (STAMP_PREFIX + "TC" + p)[|STAMP_PREFIX| + j] == ("TC" + p)[j];
    NotPrefixAt(StampKey(key), "TC" + p, 0);
    NotPrefixAt(StampKey(key), STAMP_PREFIX + "TC" + p, |STAMP_PREFIX| + j);
  }

  /** Standard requests leave the data-science reads as they were. */
  lemma ScienceReadKept(s0: Store, s1: Store, enc: Record -> string, query: Option<Record>, now: int)
    requires ChangesUnder(s0, s1, STANDARD_URL + "/")
    ensures Hit(s1, ScienceKey(enc, query), now) == Hit(s0, ScienceKey(enc, query), now)
  {
    var key := ScienceKey(enc, query);
    ScienceKeyApart(enc, query);
    ChangesUnderLookup(s0, s1, STANDARD_URL + "/", key);
    ChangesUnderLookup(s0, s1, STANDARD_URL + "/", StampKey(key));
  }

  /** A standard list key is never a data-science key. */
  lemma StandardKeyNotScience(enc: Record -> string, list: Json, q1: Option<Record>, q2: Option<Record>)
    ensures StandardKey(enc, list, q1) != ScienceKey(enc, q2)
  {
    RawKeyUnder(enc, ListUrl(list), Some(WithDefaults(q1)), STANDARD_URL + "/");
    ScienceKeyApart(enc, q2);
  }

  /** `getDataScienceChallenges`: fetch the marathon list with the defaults
      merged into the query and map its records in place, on the body that
      may be the cached one. */
  method GetDataScienceChallenges(cache: TtlCache, net: Network, enc: Record -> string,
                                  query: Option<Record>, now: int) returns (r: Result<Body>)
    requires RawTyped(cache.store)
    modifies cache, net, ServedBody(cache.store, ScienceKey(enc, query), now)
    ensures RawTyped(cache.store)
    ensures ChangesUnder(old(cache.store), cache.store, DATA_SCIENCE_URL)
    ensures forall b :: b in Bodies(cache.store) ==> b in Bodies(old(cache.store)) || fresh(b)
    ensures var f := old(ScienceFetch(cache.store, net.respond, enc, query, now));
      net.calls == old(net.calls) + f.calls &&
      (f.result.Err? ==> r == Err(f.result.message)) &&
      (f.result.Ok? ==> r.Ok? && r.value.data == f.result.value)
    ensures var h := Hit(old(cache.store), ScienceKey(enc, query), now);
      h.Some? ==> r == Ok(h.value) && cache.store == old(cache.store)
    ensures var rep := net.respond(DATA_SCIENCE_URL, Some(WithDefaults(query)));
      Hit(old(cache.store), ScienceKey(enc, query), now).None? ==>
        (Succeeded(rep) ==>
          r.Ok? && fresh(r.value) && r.value.fields == rep.fields &&
          cache.store == Write(old(cache.store), ScienceKey(enc, query), Object(r.value), now)) &&
        (!Succeeded(rep) ==> cache.store == old(cache.store))
  {
    var res := RequestFromApi(cache, net, enc, DATA_SCIENCE_URL, Some(WithDefaults(query)), now);
    if res.Err? {
      r := Err(res.message);
      return;
    }
    var body := res.value;
    body.data := MapAll(body.data);
    r := Ok(body);
  }

  /** The aliasing of cached bodies in action: two data-science requests for
      the same query within the time-to-live make one upstream call, and the
      second maps the already mapped records of the cached body again, so
      the names and dates the first one delivered are gone. */
  method RepeatedDataScienceRequest(enc: Record -> string, rec: Record, now: int)
    returns (first: seq<Record>, second: seq<Record>, calls: nat)
    requires now != 0
    ensures |first| == 1 && first[0] == MapMarathon(rec)
    ensures Get(first[0], "challengeName") == Get(rec, "fullName")
    ensures |second| == 1 && Get(second[0], "challengeName") == Undef
    ensures Get(second[0], "registrationStartDate") == Undef
    ensures calls == 1
  {
    var cache := new TtlCache();
    var net := new Network((u: string, q: Option<Record>) => Reply(200, map[], [rec]));
    var r1 := GetDataScienceChallenges(cache, net, enc, None, now);
    assert r1.Ok? && fresh(r1.value);
    first := r1.value.data;
    var key := ScienceKey(enc, None);
    StampKeyDiffers(key);
    assert Hit(cache.store, key, now) == Some(r1.value);
    var r2 := GetDataScienceChallenges(cache, net, enc, None, now);
    assert r2 == Ok(r1.value);
    second := r2.value.data;
    MapMarathonTwice(rec);
    calls := |net.calls|;
  }
}
