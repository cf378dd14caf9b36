/** One round trip through the caching transport (RoundTripRFC2616 and
    cachingReadCloser of cache/cache.go): its stages as functions, and the method that
    runs them in order against a store. CacheRuns.dfy interleaves the same stages. */
module RoundTrip {
  import opened Options
  import opened Headers
  import opened CacheControl
  import opened Freshness
  import opened Messages
  import opened Store

  const X_FROM_CACHE := "X-From-Cache"

  type Items = map<string, Response>

  function Mark(cached: Response, mark: bool): Response {
    if mark then cached.(header := Set(cached.header, X_FROM_CACHE, "1")) else cached
  }

  // ----- stage 1: look up, or invalidate when the request is not cacheable -----

  function Invalidate(items: Items, req: Request): Items {
    if Cacheable(req) then items else items - {CacheKey(req)}
  }

  function Lookup(items: Items, req: Request, mark: bool): Option<Response> {
    if Cacheable(req) && CacheKey(req) in items then Some(Mark(items[CacheKey(req)], mark)) else None
  }

  // ----- stage 2: answer from the store, or decide what to send -----

  datatype Plan = Answer(resp: Response) | Forward(sent: Request) | TimeOut

  /** Validators the caller has not set, taken from the stored response. */
  function AddValidators(cached: Header, req: Request): Request {
    var etag, lastModified := Get(cached, "etag"), Get(cached, "last-modified");
    var h := if etag != "" && Get(req.header, "etag") == "" then Set(req.header, "if-none-match", etag) else req.header;
    req.(header := if lastModified != "" && Get(req.header, "last-modified") == "" then Set(h, "if-modified-since", lastModified) else h)
  }

  function PlanFor(lib: Library, req: Request, cached: Option<Response>, now: int): Plan {
    match cached
    case None => if "only-if-cached" in Parse(req.header) then TimeOut else Forward(req)
    case Some(e) =>
      if VaryMatches(e.header, req.header) then Use(e, req, GetFreshness(lib, e.header, req.header, now)) else Forward(req)
  }

  /** What to do with an entry that is selected for the request. */
  function Use(e: Response, req: Request, freshness: Freshness): Plan {
    match freshness
    case Fresh => Answer(e)
    case Stale => Forward(AddValidators(e.header, req))
    case Transparent => Forward(req)
  }

  // ----- stage 3: what the transport gave back -----

  datatype Settlement = Fallback(resp: Response) | Error(purge: bool) | Proceed(resp: Response, purge: bool)

  function Refresh(cached: Response, update: Response): Response {
    cached.(header := Merge(cached.header, update.header))
  }

  function Settle(lib: Library, sent: Request, cached: Option<Response>, reply: Reply, now: int): Settlement {
    match cached
    case None => if reply.Failed? then Error(false) else Proceed(reply.resp, false)
    case Some(e) =>
      if reply.Received? && sent.method_ == "GET" && reply.resp.status == 304 then
        Proceed(Refresh(e, reply.resp), false)
      else if (reply.Failed? || reply.resp.status >= 500) && sent.method_ == "GET" && CanStaleOnError(lib, e.header, sent.header, now) then
        Fallback(e)
      else if reply.Failed? then Error(true)
      else Proceed(reply.resp, reply.resp.status != 200)
  }

  function Purge(items: Items, key: string, purge: bool): Items {
    if purge then items - {key} else items
  }

  // ----- stage 4: store at once, wrap the body, or remove the entry -----

  predicate CanStore(sent: Header, resp: Header) {
    "no-store" !in Parse(resp) && "no-store" !in Parse(sent)
  }

  datatype Ending = Streaming(head: Response) | Kept(entry: Response) | Dropped

  function Finish(cacheable: bool, sent: Request, resp: Response): Ending {
    if cacheable && CanStore(sent.header, resp.header) then
      var stamped := resp.(header := Stored(resp.header, sent.header));
      if sent.method_ == "GET" then Streaming(stamped) else Kept(stamped)
    else Dropped
  }

  function Keep(items: Items, key: string, ending: Ending): Items {
    match ending
    case Streaming(_) => items
    case Kept(entry) => items[key := entry]
    case Dropped => items - {key}
  }

  function Returned(resp: Response, ending: Ending): Response {
    match ending
    case Streaming(head) => head
    case Kept(entry) => entry
    case Dropped => resp
  }

  // ----- the whole round trip, undisturbed -----

  /** The store afterwards, what the caller gets, and whether its body is being recorded. */
  datatype Turn = Turn(items: Items, reply: Reply, streaming: bool)

  function Conclude(items: Items, req: Request, sent: Request, resp: Response): Turn {
    var ending := Finish(Cacheable(req), sent, resp);
    Turn(Keep(items, CacheKey(req), ending), Received(Returned(resp, ending)), ending.Streaming?)
  }

  function SettledTurn(items: Items, req: Request, sent: Request, settlement: Settlement): Turn {
    match settlement
    case Fallback(e) => Turn(items, Received(e), false)
    case Error(purge) => Turn(Purge(items, CacheKey(req), purge), Failed, false)
    case Proceed(resp, purge) => Conclude(Purge(items, CacheKey(req), purge), req, sent, resp)
  }

  function PlannedTurn(items: Items, req: Request, plan: Plan, settlement: Settlement): Turn {
    match plan
    case Answer(e) => Turn(items, Received(e), false)
    case TimeOut => Conclude(items, req, req, GATEWAY_TIMEOUT)
    case Forward(sent) => SettledTurn(items, req, sent, settlement)
  }

  /** What becomes of the request that is sent, if one is. `net` is the wrapped transport
      during this call. */
  function Reaction(lib: Library, cached: Option<Response>, plan: Plan, net: Request -> Reply, later: int): Settlement {
    if plan.Forward? then Settle(lib, plan.sent, cached, net(plan.sent), later) else Error(false)
  }

  function CachedTurn(lib: Library, items: Items, req: Request, cached: Option<Response>, net: Request -> Reply, now: int, later: int): Turn {
    var plan := PlanFor(lib, req, cached, now);
    PlannedTurn(items, req, plan, Reaction(lib, cached, plan, net, later))
  }

  /** `now` and `later` are the two readings of the clock. */
  function RunTurn(lib: Library, mark: bool, items: Items, req: Request, net: Request -> Reply, now: int, later: int): Turn {
    CachedTurn(lib, Invalidate(items, req), req, Lookup(items, req, mark), net, now, later)
  }

  /** A round trip touches no entry but the one of its own key, and a GET neither adds nor
      changes an entry: what it got is stored when its body has been read. */
  lemma TouchesOwnKey(lib: Library, mark: bool, items: Items, req: Request, net: Request -> Reply, now: int, later: int, key: string)
    ensures var after := RunTurn(lib, mark, items, req, net, now, later).items;
      (key != CacheKey(req) ==> (key in after <==> key in items)) &&
      ((key != CacheKey(req) || req.method_ == "GET") && key in after ==> key in items && after[key] == items[key])
  {
    var cached := Lookup(items, req, mark);
    var plan := PlanFor(lib, req, cached, now);
    PlanKeepsMethod(lib, req, cached, now);
    PlannedTouches(Invalidate(items, req), req, plan, Reaction(lib, cached, plan, net, later), key);
  }

  lemma PlanKeepsMethod(lib: Library, req: Request, cached: Option<Response>, now: int)
    ensures var plan := PlanFor(lib, req, cached, now); plan.Forward? ==> SameTarget(req, plan.sent)
  {
  }

  lemma PlannedTouches(items: Items, req: Request, plan: Plan, settlement: Settlement, key: string)
    requires plan.Forward? ==> SameTarget(req, plan.sent)
    ensures var after := PlannedTurn(items, req, plan, settlement).items;
      (key != CacheKey(req) ==> (key in after <==> key in items)) &&
      ((key != CacheKey(req) || req.method_ == "GET") && key in after ==> key in items && after[key] == items[key])
  {
  }

  /** An entry survives a GET exactly when it answers it, fresh or in place of a failure
      that it is young enough for, or the origin replied 200 or 304 and neither side says
      no-store. */
  lemma SurvivesGet(lib: Library, mark: bool, items: Items, req: Request, net: Request -> Reply, now: int, later: int)
    requires req.method_ == "GET" && Get(req.header, "range") == "" && CacheKey(req) in items
    ensures
      var e := Mark(items[CacheKey(req)], mark);
      CacheKey(req) in RunTurn(lib, mark, items, req, net, now, later).items <==>
        match PlanFor(lib, req, Some(e), now)
        case Answer(_) => true
        case TimeOut => false
        case Forward(sent) => SurvivesReply(lib, e, sent, net(sent), later)
  {
    hide Parse, CacheKey, Get, Settle, VaryMatches, GetFreshness;
    var e := Mark(items[CacheKey(req)], mark);
    var plan := PlanFor(lib, req, Some(e), now);
    PlanKeepsMethod(lib, req, Some(e), now);
    assert plan.Answer? || plan.Forward?;
    if plan.Forward? {
      SurvivesSending(lib, items, req, plan.sent, e, net(plan.sent), later);
    }
  }

  predicate SurvivesReply(lib: Library, e: Response, sent: Request, reply: Reply, later: int) {
    match reply
    case Failed => UnderLimit(lib, e.header, sent.header, later)
    case Received(resp) =>
      if resp.status == 304 then MayKeep(sent.header, Merge(e.header, resp.header))
      else if resp.status >= 500 then UnderLimit(lib, e.header, sent.header, later)
      else resp.status == 200 && MayKeep(sent.header, resp.header)
  }

  /** Neither side says no-store where it is read. */
  predicate MayKeep(sent: Header, resp: Header) {
    NO_STORE !in Parse(sent) && NO_STORE !in Parse(resp)
  }

  lemma SurvivesSending(lib: Library, items: Items, req: Request, sent: Request, e: Response, reply: Reply, later: int)
    requires req.method_ == sent.method_ == "GET" && Cacheable(req) && CacheKey(req) in items
    ensures CacheKey(req) in SettledTurn(items, req, sent, Settle(lib, sent, Some(e), reply, later)).items <==>
      SurvivesReply(lib, e, sent, reply, later)
  {
    hide Parse, UnderLimit, CanStaleOnError, Merge;
    AllowedUnderLimit(lib, e.header, sent.header, later);
  }

  /** What a request that is not cacheable removes: the entry of its own key and no other,
      whatever the network says. */
  lemma RemovesOwnEntry(lib: Library, mark: bool, items: Items, req: Request, net: Request -> Reply, now: int, later: int)
    requires !Cacheable(req)
    ensures RunTurn(lib, mark, items, req, net, now, later).items == items - {CacheKey(req)}
  {
    hide Parse;
    var plan := PlanFor(lib, req, None, now);
    assert Lookup(items, req, mark) == None;
    MissKeeps(lib, items - {CacheKey(req)}, req, plan, Reaction(lib, None, plan, net, later));
  }

  lemma MissKeeps(lib: Library, items: Items, req: Request, plan: Plan, settlement: Settlement)
    requires !Cacheable(req) && CacheKey(req) !in items
    ensures PlannedTurn(items, req, plan, settlement).items == items || plan.Answer?
  {
  }

  /** The entry of a GET goes exactly when the request is itself a GET, with Range, for that
      URL: a POST or PUT never removes it, contrary to RFC 2616 section 13.10. */
  lemma RemovesGetEntryIff(lib: Library, mark: bool, items: Items, req: Request, stored: Request, net: Request -> Reply, now: int, later: int)
    requires !Cacheable(req) && SpaceFree(req) && SpaceFree(stored) && stored.method_ == "GET" && CacheKey(stored) in items
    ensures CacheKey(stored) !in RunTurn(lib, mark, items, req, net, now, later).items <==>
      req.method_ == "GET" && Get(req.header, "range") != "" && req.url == stored.url
  {
    RemovesOwnEntry(lib, mark, items, req, net, now, later);
    CacheKeyInjective(req, stored);
  }

  /** When nothing is found for a request that only wants a cached answer: it gets a 504
      made here, and that is recorded or stored exactly when the request is cacheable and has
      no no-store that is read. */
  lemma TimeOutIsKept(lib: Library, mark: bool, items: Items, req: Request, net: Request -> Reply, now: int, later: int)
    requires Lookup(items, req, mark).None? && "only-if-cached" in Parse(req.header)
    ensures var turn := RunTurn(lib, mark, items, req, net, now, later);
      && turn.reply == Received(GATEWAY_TIMEOUT)
      && (turn.streaming <==> req.method_ == "GET" && Cacheable(req) && "no-store" !in Parse(req.header))
      && turn.items == if Cacheable(req) && req.method_ == "HEAD" && "no-store" !in Parse(req.header) then items[CacheKey(req) := GATEWAY_TIMEOUT]
                       else items - {CacheKey(req)}
  {
    hide Parse, Stored, Cacheable, Conclude, CacheKey;
    assert PlanFor(lib, req, None, now) == TimeOut;
    TimeOutConcludes(Invalidate(items, req), req);
    assert Invalidate(items, req) - {CacheKey(req)} == items - {CacheKey(req)};
    if Cacheable(req) {
      assert items - {CacheKey(req)} == items;
    }
  }

  lemma TimeOutConcludes(items: Items, req: Request)
    requires CacheKey(req) !in items
    ensures var keeps := Cacheable(req) && "no-store" !in Parse(req.header);
      Conclude(items, req, req, GATEWAY_TIMEOUT) ==
        Turn(if keeps && req.method_ == "HEAD" then items[CacheKey(req) := GATEWAY_TIMEOUT] else items, Received(GATEWAY_TIMEOUT), keeps && req.method_ == "GET")
  {
    hide Parse, VaryNames;
    NothingSaid();
    assert Stored(GATEWAY_TIMEOUT.header, req.header) == map[];
    assert items - {CacheKey(req)} == items;
  }

  lemma NothingSaid()
    ensures Parse(GATEWAY_TIMEOUT.header) == map[] && VaryNames(GATEWAY_TIMEOUT.header) == []
  {
    ParseNothing(GATEWAY_TIMEOUT.header);
  }

  // ----- HEAD -----

  predicate SameAnswer(a: Reply, b: Reply) {
    match a
    case Failed => b.Failed?
    case Received(resp) => b.Received? && resp.status == b.resp.status && resp.body == b.resp.body
  }

  /** A HEAD that finds an entry and is sent on is answered as without a cache, by every
      network, exactly when it goes out as it is: the 304 for an added validator is not
      turned into the stored response, as it is for a GET. */
  lemma HeadTransparentIff(lib: Library, mark: bool, items: Items, req: Request, sent: Request, now: int)
    requires req.method_ == "HEAD" && Cacheable(req) && CacheKey(req) in items
    requires PlanFor(lib, req, Lookup(items, req, mark), now) == Forward(sent)
    ensures (forall net: Request -> Reply, later :: SameAnswer(RunTurn(lib, mark, items, req, net, now, later).reply, net(req))) <==> sent == req
  {
    hide PlanFor, Settle, Conclude;
    PlanKeepsMethod(lib, req, Lookup(items, req, mark), now);
    forall net: Request -> Reply, later
      ensures SameAnswer(RunTurn(lib, mark, items, req, net, now, later).reply, net(sent))
    {
      HeadPasses(lib, items, req, sent, Mark(items[CacheKey(req)], mark), net(sent), later);
    }
    if sent != req {
      var net := (q: Request) => if q == req then Received(Response(200, map[], [])) else Received(Response(304, map[], []));
      assert !SameAnswer(RunTurn(lib, mark, items, req, net, now, now).reply, net(req));
    }
  }

  lemma HeadPasses(lib: Library, items: Items, req: Request, sent: Request, e: Response, reply: Reply, later: int)
    requires sent.method_ == "HEAD"
    ensures SameAnswer(SettledTurn(items, req, sent, Settle(lib, sent, Some(e), reply, later)).reply, reply)
  {
  }

  /** The bare 304 is what the caller gets, and what is stored for the next HEAD. */
  lemma HeadStores304(lib: Library, mark: bool, items: Items, req: Request, sent: Request, net: Request -> Reply, now: int, later: int)
    requires req.method_ == "HEAD" && Cacheable(req) && CacheKey(req) in items
    requires PlanFor(lib, req, Lookup(items, req, mark), now) == Forward(sent)
    requires net(sent).Received? && net(sent).resp.status == 304 && CanStore(sent.header, net(sent).resp.header)
    ensures var turn := RunTurn(lib, mark, items, req, net, now, later);
      turn.reply.Received? && turn.reply.resp.status == 304 && CacheKey(req) in turn.items && turn.items[CacheKey(req)] == turn.reply.resp
  {
    PlanKeepsMethod(lib, req, Lookup(items, req, mark), now);
    hide PlanFor, CanStore, Stored;
  }

  // ----- the Dummy policy -----

  /** The store afterwards, the answer, and whether the origin was contacted. */
  datatype Replay = Replay(items: Items, reply: Reply, contacted: bool)

  /** `dumped` tells whether the response could be read in full for storing. */
  function DummyTurn(mark: bool, items: Items, req: Request, reply: Reply, dumped: bool): Replay {
    match Lookup(items, req, mark)
    case Some(e) => Replay(items, Received(e), false)
    case None =>
      var items1 := Invalidate(items, req);
      match reply
      case Failed => Replay(items1, Failed, true)
      case Received(resp) =>
        Replay(if !Cacheable(req) then items1 - {CacheKey(req)} else if dumped then items1[CacheKey(req) := resp] else items1, reply, true)
  }

  class Transport {
    const cache: MemoryCache<Response>
    const lib: Library
    const markCachedResponses: bool

    constructor (cache: MemoryCache<Response>, lib: Library, mark: bool)
      ensures this.cache == cache && this.lib == lib && this.markCachedResponses == mark
    {
      this.cache := cache;
      this.lib := lib;
      this.markCachedResponses := mark;
    }

    /** cache/cache.go:198-231: answer from the entry, or the request to send for it. */
    method Consult(e: Response, request: Request, now: int) returns (plan: Plan)
      ensures plan == PlanFor(lib, request, Some(e), now)
    {
      var req := request;
      var matches := MatchVary(e.header, req.header);
      if matches {
        var freshness := ComputeFreshness(lib, e.header, req.header, now);
        if freshness == Fresh {
          return Answer(e);
        }
        if freshness == Stale {
          req := AddValidators(e.header, req);
        }
      }
      return Forward(req);
    }

    /** cache/cache.go:231-255: merge a 304, fall back on an error, or take the reply. */
    method Revalidate(e: Response, cacheKey: string, sent: Request, reply: Reply, later: int) returns (s: Settlement)
      modifies cache
      ensures s == Settle(lib, sent, Some(e), reply, later)
      ensures cache.items == Purge(old(cache.items), cacheKey, !s.Fallback? && s.purge)
    {
      if reply.Received? && sent.method_ == "GET" && reply.resp.status == 304 {
        var header := UpdateHeaders(e.header, reply.resp.header);
        return Proceed(e.(header := header), false);
      } else if (reply.Failed? || reply.resp.status >= 500) && sent.method_ == "GET" && CanStaleOnError(lib, e.header, sent.header, later) {
        return Fallback(e);
      }
      var purge := reply.Failed? || reply.resp.status != 200;
      if purge {
        cache.Delete(cacheKey);
      }
      return if reply.Failed? then Error(true) else Proceed(reply.resp, purge);
    }

    /** cache/cache.go:268-300: stamp the Vary values, then record, store or remove. */
    method Complete(cacheable: bool, cacheKey: string, sent: Request, resp: Response) returns (out: Response, reader: CachingReadCloser?)
      modifies cache
      ensures var ending := Finish(cacheable, sent, resp);
        cache.items == Keep(old(cache.items), cacheKey, ending) && out == Returned(resp, ending) && (reader != null <==> ending.Streaming?)
      ensures reader != null ==> fresh(reader) && reader.Records(cache, cacheKey, out)
    {
      reader := null;
      out := resp;
      var reqCC := ParseCacheControl(sent.header);
      var respCC := ParseCacheControl(resp.header);
      if cacheable && "no-store" !in respCC && "no-store" !in reqCC {
        var stamped := StampVary(resp.header, sent.header);
        out := resp.(header := stamped);
        if sent.method_ == "GET" {
          reader := new CachingReadCloser(cache, cacheKey, out);
        } else {
          cache.Set(cacheKey, out);
        }
      } else {
        cache.Delete(cacheKey);
      }
    }

    /** The branch for a stored response. */
    method OnHit(e: Response, req: Request, net: Request -> Reply, now: int, later: int)
      returns (result: Reply, reader: CachingReadCloser?)
      modifies cache
      ensures var turn := CachedTurn(lib, old(cache.items), req, Some(e), net, now, later);
        cache.items == turn.items && result == turn.reply && (reader != null <==> turn.streaming)
      ensures reader != null ==> result.Received? && fresh(reader) && reader.Records(cache, CacheKey(req), result.resp)
    {
      var plan := Consult(e, req, now);
      if plan.Answer? {
        return Received(e), null;
      }
      var s := Revalidate(e, CacheKey(req), plan.sent, net(plan.sent), later);
      if s.Fallback? {
        return Received(e), null;
      }
      if s.Error? {
        return Failed, null;
      }
      var resp, r := Complete(Cacheable(req), CacheKey(req), plan.sent, s.resp);
      return Received(resp), r;
    }

    /** The branch for no stored response: time out if only the cache may answer. */
    method OnMiss(req: Request, net: Request -> Reply, now: int, later: int) returns (result: Reply, reader: CachingReadCloser?)
      modifies cache
      ensures var turn := CachedTurn(lib, old(cache.items), req, None, net, now, later);
        cache.items == turn.items && result == turn.reply && (reader != null <==> turn.streaming)
      ensures reader != null ==> result.Received? && fresh(reader) && reader.Records(cache, CacheKey(req), result.resp)
    {
      var resp := GATEWAY_TIMEOUT;
      var reqCacheControl := ParseCacheControl(req.header);
      if "only-if-cached" !in reqCacheControl {
        var reply := net(req);
        if reply.Failed? {
          return Failed, null;
        }
        resp := reply.resp;
      }
      var out, r := Complete(Cacheable(req), CacheKey(req), req, resp);
      return Received(out), r;
    }

    method RoundTripDummy(req: Request, net: Request -> Reply, dumped: bool) returns (result: Reply)
      modifies cache
      ensures var replay := DummyTurn(markCachedResponses, old(cache.items), req, net(req), dumped);
        cache.items == replay.items && result == replay.reply
    {
      var cacheKey := CacheKey(req);
      var cacheable := Cacheable(req);
      var cachedResp: Option<Response> := None;
      if cacheable {
        cachedResp := cache.Get(cacheKey);
      } else {
        // Need to invalidate an existing value.
        cache.Delete(cacheKey);
      }
      if cachedResp.Some? {
        return Received(Mark(cachedResp.value, markCachedResponses));
      }
      result := net(req);
      if result.Failed? {
        return;
      }
      if cacheable {
        if dumped {
          cache.Set(cacheKey, result.resp);
        }
      } else {
        cache.Delete(cacheKey);
      }
    }

    method RoundTripRFC2616(req: Request, net: Request -> Reply, now: int, later: int)
      returns (result: Reply, reader: CachingReadCloser?)
      modifies cache
      ensures var turn := RunTurn(lib, markCachedResponses, old(cache.items), req, net, now, later);
        cache.items == turn.items && result == turn.reply && (reader != null <==> turn.streaming)
      ensures reader != null ==> result.Received? && fresh(reader) && reader.Records(cache, CacheKey(req), result.resp)
    {
      var cacheKey := CacheKey(req);
      var cachedResp: Option<Response> := None;
      if Cacheable(req) {
        cachedResp := cache.Get(cacheKey);
      } else {
        // Need to invalidate an existing value.
        cache.Delete(cacheKey);
      }
      if cachedResp.Some? {
        result, reader := OnHit(Mark(cachedResp.value, markCachedResponses), req, net, now, later);
      } else {
        result, reader := OnMiss(req, net, now, later);
      }
    }
  }

  /** The body of a response that is stored once it has been read to its end. */
  class CachingReadCloser {
    const cache: MemoryCache<Response>
    const key: string
    const head: Response
    var unread: seq<byte>
    var buf: seq<byte>

    /** Nothing of the body is lost or invented on its way through the buffer. */
    ghost predicate Valid()
      reads this
    {
      buf + unread == head.body
    }

    /** A reader at the start of the body of `head`, to be stored under `key`. */
    ghost predicate Records(cache: MemoryCache<Response>, key: string, head: Response)
      reads this
    {
      Valid() && buf == [] && this.cache == cache && this.key == key && this.head == head
    }

    constructor (cache: MemoryCache<Response>, key: string, head: Response)
      ensures Records(cache, key, head)
    {
      this.cache := cache;
      this.key := key;
      this.head := head;
      this.unread := head.body;
      this.buf := [];
    }

    /** The wrapped reader delivers `n` bytes and reports `eof` only at the end of the body.
        Each report of the end stores the whole response, never a part of it. */
    method Read(n: nat, eof: bool) returns (chunk: seq<byte>)
      requires Valid() && n <= |unread| && (eof ==> n == |unread|)
      modifies this, cache
      ensures Valid()
      ensures chunk == old(unread)[..n] && unread == old(unread)[n..] && buf == old(buf) + chunk
      ensures cache.items == if eof then old(cache.items)[key := head] else old(cache.items)
    {
      chunk := unread[..n];
      unread := unread[n..];
      buf := buf + chunk;
      if eof {
        assert buf == head.body;
        cache.Set(key, head.(body := buf));
      }
    }
  }
}
