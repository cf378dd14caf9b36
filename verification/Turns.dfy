/** What a round trip comes to for its caller, in methods, header values and statuses: who
    is kept away from the store, which replies reach the caller, and what is stored. */
module Turns {
  import opened Options
  import opened Headers
  import opened CacheControl
  import opened Freshness
  import opened Messages
  import opened RoundTrip

  const NO_CACHE := "no-cache"
  const ONLY_IF_CACHED := "only-if-cached"

  // ----- who may use the store -----

  /** A request with Range, or of any method but GET and HEAD, goes to the network as it is,
      gets what the network says, and only removes its own key: whatever is stored, whatever
      the network. Only-if-cached keeps it from the network, but not from the removal. */
  lemma KeptAway(lib: Library, mark: bool, items: Items, req: Request, net: Request -> Reply, now: int, later: int)
    requires Get(req.header, "range") != "" || req.method_ !in {"GET", "HEAD"}
    ensures RunTurn(lib, mark, items, req, net, now, later) ==
      Turn(items - {CacheKey(req)}, if ONLY_IF_CACHED in Parse(req.header) then Received(Response(504, map[], [])) else net(req), false)
  {
    hide Parse, Stored, CacheKey, Get;
    var rest := items - {CacheKey(req)};
    assert rest - {CacheKey(req)} == rest;
  }

  lemma KeptAwayFromDummy(mark: bool, items: Items, req: Request, reply: Reply, dumped: bool)
    requires Get(req.header, "range") != "" || req.method_ !in {"GET", "HEAD"}
    ensures DummyTurn(mark, items, req, reply, dumped) == Replay(items - {CacheKey(req)}, reply, true)
  {
    hide CacheKey, Get;
    var rest := items - {CacheKey(req)};
    assert rest - {CacheKey(req)} == rest;
  }

  /** The Dummy policy keeps whatever a GET or HEAD without Range gets, errors and no-store
      too, if it can be read in full, and gives it unchanged to the next such request. */
  lemma DummyKeepsAnything(mark: bool, items: Items, req: Request, reply: Reply, dumped: bool, next: Reply, nextDumped: bool)
    requires req.method_ in {"GET", "HEAD"} && Get(req.header, "range") == "" && CacheKey(req) !in items
    ensures
      var first := DummyTurn(mark, items, req, reply, dumped);
      var second := DummyTurn(mark, first.items, req, next, nextDumped);
      && first.reply == reply && first.contacted
      && (forall key :: key != CacheKey(req) ==> (key in first.items <==> key in items) && (key in items ==> first.items[key] == items[key]))
      && if reply.Received? && dumped then second == Replay(first.items, Received(Mark(reply.resp, mark)), false)
         else first.items == items && second.contacted
  {
    hide CacheKey, Get, Mark;
  }

  /** What finds an entry is a GET or HEAD without Range, and every such request finds the
      entry of its key, under either policy. */
  lemma FindsIff(mark: bool, items: Items, req: Request, reply: Reply, dumped: bool)
    ensures Lookup(items, req, mark).Some? <==>
      req.method_ in {"GET", "HEAD"} && Get(req.header, "range") == "" && CacheKey(req) in items
    ensures !DummyTurn(mark, items, req, reply, dumped).contacted <==>
      req.method_ in {"GET", "HEAD"} && Get(req.header, "range") == "" && CacheKey(req) in items
  {
    hide CacheKey, Get;
  }

  /** The mark is one header, and there exactly when it is asked for. */
  lemma MarkSays(entry: Response, mark: bool, name: string)
    ensures Mark(entry, mark).status == entry.status && Mark(entry, mark).body == entry.body
    ensures Get(Mark(entry, mark).header, "X-From-Cache") == if mark then "1" else Get(entry.header, "X-From-Cache")
    ensures Canonical(name) != Canonical("X-From-Cache") ==> Lines(Mark(entry, mark).header, name) == Lines(entry.header, name)
  {
    hide Canonical;
  }

  // ----- when the network is asked -----

  /** A request that says no-cache is never answered from the store, and goes out as it is,
      without validators. */
  lemma NoCacheGoesOut(lib: Library, req: Request, e: Response, now: int)
    requires NO_CACHE in Parse(req.header)
    ensures PlanFor(lib, req, Some(e), now) == Forward(req)
  {
    hide Parse, VaryMatches, Get;
  }

  /** When a stored response answers although it may be out of date: it is selected, neither
      side says no-cache, and the request wants a cached answer only, or a dated one however
      old. When it answers for its age is in FreshnessInSeconds. */
  lemma AnswersWhateverItsAge(lib: Library, req: Request, e: Response, now: int)
    requires
      var asked := Parse(req.header);
      ONLY_IF_CACHED in asked || ("max-stale" in asked && asked["max-stale"] == "" && DateOf(lib, e.header).Some?)
    ensures PlanFor(lib, req, Some(e), now) == Answer(e) <==>
      VaryMatches(e.header, req.header) && NO_CACHE !in Parse(req.header) && NO_CACHE !in Parse(e.header)
  {
    hide Parse, VaryMatches, DateOf, Get, AddValidators;
  }

  /** A stored response that says no-cache, has no date that parses, or is not selected
      never answers a request that may go to the network. */
  lemma NeverAnswers(lib: Library, req: Request, e: Response, now: int)
    requires NO_CACHE in Parse(e.header) || !VaryMatches(e.header, req.header) ||
      (DateOf(lib, e.header).None? && ONLY_IF_CACHED !in Parse(req.header))
    ensures PlanFor(lib, req, Some(e), now).Forward?
    ensures !VaryMatches(e.header, req.header) ==> PlanFor(lib, req, Some(e), now) == Forward(req)
  {
    hide Parse, VaryMatches, DateOf, Get, AddValidators;
  }

  // ----- what the network's reply becomes -----

  /** What the caller of a GET gets for a network's response, and whether it is recorded:
      status and body as they are, with the values of the names in Vary if it is recorded. */
  predicate PassesOn(turn: Turn, sent: Request, resp: Response) {
    && turn.streaming == MayKeep(sent.header, resp.header)
    && turn.reply.Received? && turn.reply.resp.status == resp.status && turn.reply.resp.body == resp.body
    && turn.reply.resp.header == if turn.streaming then Stored(resp.header, sent.header) else resp.header
  }

  /** A GET that finds nothing. */
  lemma GetThatMisses(lib: Library, mark: bool, items: Items, req: Request, net: Request -> Reply, now: int, later: int)
    requires req.method_ == "GET" && Get(req.header, "range") == "" && CacheKey(req) !in items && ONLY_IF_CACHED !in Parse(req.header)
    ensures
      var turn := RunTurn(lib, mark, items, req, net, now, later);
      && turn.items == items
      && match net(req)
         case Failed => turn.reply == Failed && !turn.streaming
         case Received(resp) => PassesOn(turn, req, resp)
  {
    hide Parse, Stored, CacheKey, Get;
    assert items - {CacheKey(req)} == items;
  }

  /** The status decides which replies the stored response may stand in for: that of a
      failed network or of a server error, if it is under the stale-if-error limit, and no
      other. A 304 is completed by it; any other reply is passed on, and removes the entry
      unless it is a 200 that may be kept. */
  lemma GetThatIsSentOn(lib: Library, mark: bool, items: Items, req: Request, sent: Request, net: Request -> Reply, now: int, later: int)
    requires req.method_ == "GET" && Get(req.header, "range") == "" && CacheKey(req) in items
    requires PlanFor(lib, req, Some(Mark(items[CacheKey(req)], mark)), now) == Forward(sent)
    ensures
      var e, key := Mark(items[CacheKey(req)], mark), CacheKey(req);
      var turn := RunTurn(lib, mark, items, req, net, now, later);
      var allowed := UnderLimit(lib, e.header, sent.header, later);
      match net(sent)
      case Failed => turn == if allowed then Turn(items, Received(e), false) else Turn(items - {key}, Failed, false)
      case Received(resp) =>
        if resp.status == 304 then
          var merged := e.(header := Merge(e.header, resp.header));
          PassesOn(turn, sent, merged) && turn.items == if turn.streaming then items else items - {key}
        else if resp.status >= 500 && allowed then turn == Turn(items, Received(e), false)
        else PassesOn(turn, sent, resp) && turn.items == if turn.streaming && resp.status == 200 then items else items - {key}
  {
    hide Parse, Stored, CacheKey, Get, PlanFor, Merge, CanStaleOnError, UnderLimit;
    var e := Mark(items[CacheKey(req)], mark);
    PlanKeepsMethod(lib, req, Some(e), now);
    AllowedUnderLimit(lib, e.header, sent.header, later);
    assert (items - {CacheKey(req)}) - {CacheKey(req)} == items - {CacheKey(req)};
  }

  /** A HEAD keeps its answer at once, 304 or error as it may be, and no stored response
      stands in for it. */
  predicate KeepsAtOnce(turn: Turn, items: Items, key: string, sent: Request, reply: Reply) {
    !turn.streaming &&
    match reply
    case Failed => turn.reply == Failed && turn.items == items - {key}
    case Received(resp) =>
      && turn.reply.Received? && turn.reply.resp.status == resp.status && turn.reply.resp.body == resp.body
      && if MayKeep(sent.header, resp.header) then
           turn.reply.resp.header == Stored(resp.header, sent.header) && turn.items == items[key := turn.reply.resp]
         else
           turn.reply.resp.header == resp.header && turn.items == items - {key}
  }

  lemma HeadThatIsSentOn(lib: Library, mark: bool, items: Items, req: Request, sent: Request, net: Request -> Reply, now: int, later: int)
    requires req.method_ == "HEAD" && Get(req.header, "range") == ""
    requires if CacheKey(req) in items then PlanFor(lib, req, Some(Mark(items[CacheKey(req)], mark)), now) == Forward(sent)
             else sent == req && ONLY_IF_CACHED !in Parse(req.header)
    ensures KeepsAtOnce(RunTurn(lib, mark, items, req, net, now, later), items, CacheKey(req), sent, net(sent))
  {
    hide Parse, Stored, CacheKey, Get, PlanFor, Settle, SettledTurn, KeepsAtOnce;
    var key := CacheKey(req);
    if key in items {
      var e := Mark(items[key], mark);
      PlanKeepsMethod(lib, req, Some(e), now);
      HeadKeeps(lib, items, req, sent, Some(e), net(sent), later);
    } else {
      MissIsSent(lib, req, now);
      HeadKeeps(lib, items, req, sent, None, net(sent), later);
    }
  }

  lemma MissIsSent(lib: Library, req: Request, now: int)
    requires ONLY_IF_CACHED !in Parse(req.header)
    ensures PlanFor(lib, req, None, now) == Forward(req)
  {
  }

  lemma HeadKeeps(lib: Library, items: Items, req: Request, sent: Request, cached: Option<Response>, reply: Reply, later: int)
    requires req.method_ == sent.method_ == "HEAD" && Cacheable(req) && (cached.None? ==> CacheKey(req) !in items)
    ensures KeepsAtOnce(SettledTurn(items, req, sent, Settle(lib, sent, cached, reply, later)), items, CacheKey(req), sent, reply)
  {
    hide Parse, Stored, CacheKey, Get, CanStaleOnError;
    var key := CacheKey(req);
    assert (items - {key}) - {key} == items - {key};
    assert cached.None? ==> items - {key} == items;
    if reply.Received? {
      var kept := reply.resp.(header := Stored(reply.resp.header, sent.header));
      assert (items - {key})[key := kept] == items[key := kept];
    }
  }
}
