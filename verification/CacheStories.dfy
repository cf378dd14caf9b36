/** Runs of the interleaved transport built step by step, and one in which all goes well. */
module CacheStories {
  import opened Options
  import opened Text
  import opened Headers
  import opened CacheControl
  import opened Freshness
  import opened Messages
  import opened RoundTrip
  import opened CacheRuns
  import opened CacheOrigin
  import CacheProvenance

  // ----- telling a run -----

  /** The assumptions on the environment, except that `r` may be any request. */
  predicate PoliteBut(o: Origin, w: World, s: State, ev: Event, r: Request)
    requires Enabled(s, ev)
  {
    Polite(o, w, s, ev) || (ev.Begin? && ev.req == r && SpaceFree(r))
  }

  predicate IsPoliteRunBut(o: Origin, w: World, run: seq<Event>, r: Request)
    requires IsRun(w, run)
    decreases |run|
  {
    run == [] || (IsPoliteRunBut(o, w, run[..|run| - 1], r) && PoliteBut(o, w, After(w, run[..|run| - 1]), run[|run| - 1], r))
  }

  lemma {:induction false} PoliteAnyway(o: Origin, w: World, run: seq<Event>, r: Request)
    requires IsRun(w, run) && IsPoliteRunBut(o, w, run, r) && Harmless(r.header)
    ensures IsPoliteRun(o, w, run)
  {
    if run != [] {
      PoliteAnyway(o, w, run[..|run| - 1], r);
    }
  }

  predicate Story(o: Origin, w: World, r: Request, run: seq<Event>) {
    IsRun(w, run) && IsPoliteRunBut(o, w, run, r)
  }

  lemma Then(o: Origin, w: World, r: Request, run: seq<Event>, ev: Event) returns (run': seq<Event>)
    requires Story(o, w, r, run) && Enabled(After(w, run), ev) && PoliteBut(o, w, After(w, run), ev, r)
    ensures Story(o, w, r, run') && After(w, run') == Step(w, After(w, run), ev)
  {
    run' := run + [ev];
    assert run'[..|run'| - 1] == run;
  }

  /** A caller that may begin a call, and a free number for it. */
  predicate MayBegin(s: State, id: nat, req: Request, r: Request) {
    id !in s.calls && id !in s.readers && SpaceFree(req) && CacheableGet(req) && (Harmless(req.header) || req == r)
  }

  /** A call begins and is sent on. */
  lemma Sends(o: Origin, w: World, r: Request, run: seq<Event>, id: nat, req: Request, sent: Request) returns (run': seq<Event>)
    requires Story(o, w, r, run) && MayBegin(After(w, run), id, req, r)
    requires PlanFor(w.lib, req, Lookup(After(w, run).items, req, w.mark), After(w, run).now) == Forward(sent)
    ensures Story(o, w, r, run')
    ensures var s := After(w, run);
      After(w, run') == s.(calls := s.calls[id := Sent(req, sent, Lookup(s.items, req, w.mark))])
  {
    hide PlanFor, Lookup, Harmless, SpaceFree;
    var s := After(w, run);
    run' := Then(o, w, r, run, Begin(id, req));
    assert Invalidate(s.items, req) == s.items;
    run' := Then(o, w, r, run', Choose(id));
    assert After(w, run').calls == s.calls[id := Sent(req, sent, Lookup(s.items, req, w.mark))];
  }

  /** The origin answers it, and the answer is passed on. */
  lemma Receives(o: Origin, w: World, r: Request, run: seq<Event>, id: nat, reply: Response, resp: Response) returns (run': seq<Event>)
    requires Story(o, w, r, run) && id in After(w, run).calls && After(w, run).calls[id].Sent?
    requires var s := After(w, run); var c := s.calls[id];
      Honest(o, w, c.sent, reply, s.now) && Settle(w.lib, c.sent, c.cached, Received(reply), s.now) == Proceed(resp, false)
    ensures Story(o, w, r, run')
    ensures var s := After(w, run); var c := s.calls[id]; var ending := Finish(Cacheable(c.req), c.sent, resp);
      var s' := After(w, run');
      && s'.now == s.now && s'.items == Keep(s.items, CacheKey(c.req), ending) && s'.calls == s.calls - {id}
      && s'.outcomes == s.outcomes + {Passed(c.req, Returned(resp, ending), Some(s.now))}
      && s'.exchanges == s.exchanges + {Network(c.sent, reply, s.now)}
      && s'.readers == if ending.Streaming? then s.readers[id := Reader(CacheKey(c.req), ending.head, [], ending.head.body)] else s.readers
  {
    hide Honest, Settle, Finish, Returned, Keep;
    var s := After(w, run);
    var c := s.calls[id];
    run' := Then(o, w, r, run, Deliver(id, Received(reply)));
    assert After(w, run').calls[id] == Replied(c.req, c.sent, c.cached, Received(reply), s.now);
    run' := Then(o, w, r, run', Resume(id));
    assert After(w, run').calls[id] == Settled(c.req, c.sent, resp, Some(s.now));
    run' := Then(o, w, r, run', Conclude(id));
  }

  /** A first response is fetched, read to its end, and stored. */
  lemma Stores(o: Origin, w: World, r: Request, run: seq<Event>, id: nat, req: Request, resp: Response) returns (run': seq<Event>)
    requires Story(o, w, r, run) && MayBegin(After(w, run), id, req, r)
    requires CacheKey(req) !in After(w, run).items && "only-if-cached" !in Parse(req.header) && CanStore(req.header, resp.header)
    requires Honest(o, w, req, resp, After(w, run).now)
    ensures Story(o, w, r, run')
    ensures var s, s' := After(w, run), After(w, run');
      && s'.now == s.now && s'.items == s.items[CacheKey(req) := resp.(header := Stored(resp.header, req.header))]
      && s'.calls == s.calls - {id} && s'.readers.Keys == s.readers.Keys + {id}
      && s.outcomes <= s'.outcomes
  {
    hide Honest, Parse, Stored, SpaceFree, Harmless;
    run' := Sends(o, w, r, run, id, req, req);
    run' := Receives(o, w, r, run', id, resp, resp);
    var head := resp.(header := Stored(resp.header, req.header));
    assert After(w, run').readers[id] == Reader(CacheKey(req), head, [], head.body);
    run' := ReadsOut(o, w, r, run', id);
  }

  /** The body of a recorded response is read to its end. */
  lemma ReadsOut(o: Origin, w: World, r: Request, run: seq<Event>, id: nat) returns (run': seq<Event>)
    requires Story(o, w, r, run) && id in After(w, run).readers && After(w, run).readers[id].buf == []
    requires After(w, run).readers[id].unread == After(w, run).readers[id].head.body
    ensures Story(o, w, r, run')
    ensures var s, s' := After(w, run), After(w, run'); var d := s.readers[id];
      && s'.now == s.now && s'.calls == s.calls && s'.outcomes == s.outcomes && s'.readers.Keys == s.readers.Keys
      && s'.items == s.items[d.key := d.head]
  {
    var d := After(w, run).readers[id];
    run' := Then(o, w, r, run, Read(id, |d.unread|, true));
    assert [] + d.head.body[..|d.head.body|] == d.head.body;
  }

  lemma Waits(o: Origin, w: World, r: Request, run: seq<Event>, elapsed: nat) returns (run': seq<Event>)
    requires Story(o, w, r, run)
    ensures Story(o, w, r, run') && After(w, run') == After(w, run).(now := After(w, run).now + elapsed)
  {
    run' := Then(o, w, r, run, Tick(elapsed));
  }

  /** The entry is fresh, and answers at once. */
  lemma Hits(o: Origin, w: World, r: Request, run: seq<Event>, id: nat, req: Request, e: Response) returns (run': seq<Event>)
    requires Story(o, w, r, run) && MayBegin(After(w, run), id, req, r)
    requires PlanFor(w.lib, req, Lookup(After(w, run).items, req, w.mark), After(w, run).now) == Answer(e)
    ensures Story(o, w, r, run')
    ensures var s, s' := After(w, run), After(w, run');
      s'.calls == s.calls - {id} && s' == s.(calls := s'.calls, outcomes := s.outcomes + {Hit(req, e, s.now)})
  {
    hide PlanFor, Lookup, Harmless, SpaceFree;
    var s := After(w, run);
    run' := Then(o, w, r, run, Begin(id, req));
    assert Invalidate(s.items, req) == s.items;
    run' := Then(o, w, r, run', Choose(id));
  }

  /** The network fails, and the entry is the fallback. */
  lemma Fails(o: Origin, w: World, r: Request, run: seq<Event>, id: nat, e: Response) returns (run': seq<Event>)
    requires Story(o, w, r, run) && id in After(w, run).calls && After(w, run).calls[id].Sent?
    requires var s := After(w, run); var c := s.calls[id];
      Settle(w.lib, c.sent, c.cached, Failed, s.now) == Fallback(e)
    ensures Story(o, w, r, run')
    ensures var s := After(w, run); var c := s.calls[id]; FellBack(c.req, c.sent, e, s.now) in After(w, run').outcomes
  {
    hide Settle;
    var s := After(w, run);
    var c := s.calls[id];
    run' := Then(o, w, r, run, Deliver(id, Failed));
    assert After(w, run').calls[id] == Replied(c.req, c.sent, c.cached, Failed, s.now);
    run' := Then(o, w, r, run', Resume(id));
  }

  lemma Start(o: Origin, w: World, r: Request)
    ensures Story(o, w, r, []) && After(w, []) == Empty
  {
  }

  // ----- an entry to start from -----

  predicate NoValidatorListed(h: Header) {
    forall name :: name in VaryNames(h) ==> !IsValidator(name)
  }

  /** A response the transport stores for r1, as the entry that r2 finds. */
  predicate Deposits(w: World, r1: Request, resp: Response, at: nat) {
    && CacheableGet(r1) && SpaceFree(r1) && NoConditionals(r1.header) && "only-if-cached" !in Parse(r1.header)
    && resp.status != 304 && NoStamps(resp.header) && NoValidatorListed(resp.header)
    && Dated(w.lib, resp.header, at) && CanStore(r1.header, resp.header)
  }

  function Entry(w: World, r1: Request, resp: Response): Response {
    Mark(resp.(header := Stored(resp.header, r1.header)), w.mark)
  }

  /** The entry has the validators and the Date of the response. */
  lemma EntryValidators(w: World, r1: Request, resp: Response)
    ensures var e := Entry(w, r1, resp);
      && Get(e.header, "date") == Get(resp.header, "date") && Get(e.header, "etag") == Get(resp.header, "etag")
      && Get(e.header, "last-modified") == Get(resp.header, "last-modified")
  {
    var names := VaryNames(resp.header);
    StampKeeps(resp.header, names, r1.header, "date");
    StampKeeps(resp.header, names, r1.header, "etag");
    StampKeeps(resp.header, names, r1.header, "last-modified");
    MarkFacts(Stored(resp.header, r1.header));
  }

  lemma EntryDirectives(w: World, r1: Request, resp: Response)
    ensures Parse(Entry(w, r1, resp).header) == Parse(resp.header)
  {
    CacheProvenance.SameStamped(resp.header, resp.header, r1.header);
    CacheProvenance.SameMarked(Stored(resp.header, r1.header), resp.header);
    CacheProvenance.SameDirectives(Entry(w, r1, resp).header, resp.header);
  }

  lemma EntryBody(w: World, r1: Request, resp: Response)
    ensures Entry(w, r1, resp).body == resp.body && Entry(w, r1, resp).status == resp.status
  {
  }

  /** The response is in the store at instant `at`, and no call is left. */
  lemma Deposited(o: Origin, w: World, r: Request, r1: Request, resp: Response, at: nat) returns (run: seq<Event>)
    requires Deposits(w, r1, resp, at) && Honest(o, w, r1, resp, at)
    ensures Story(o, w, r, run)
    ensures var s := After(w, run);
      s.now == at && s.calls == map[] && 1 !in s.readers && 2 !in s.readers &&
      s.items == map[CacheKey(r1) := resp.(header := Stored(resp.header, r1.header))]
  {
    hide NoStamps, NoConditionals, Parse, Dated, SpaceFree, NoValidatorListed, CanStore, Stored, Honest;
    Start(o, w, r);
    run := Waits(o, w, r, [], at);
    run := Stores(o, w, r, run, 0, r1, resp);
  }

  lemma FindsEntry(w: World, items: Items, r1: Request, r2: Request, resp: Response)
    requires CacheableGet(r1) && CacheableGet(r2) && r1.url == r2.url
    requires items == map[CacheKey(r1) := resp.(header := Stored(resp.header, r1.header))]
    ensures Lookup(items, r2, w.mark) == Some(Entry(w, r1, resp))
  {
    hide Stored;
  }

  lemma DepositsPlainly(w: World, r1: Request, resp: Response, at: nat)
    requires Deposits(w, r1, resp, at)
    ensures NoConditionals(r1.header) && CacheableGet(r1)
  {
  }

  /** A request without headers. */
  lemma PlainHeader()
    ensures forall name :: Get(map[], name) == ""
    ensures Parse(map[]) == map[] && NoConditionals(map[])
  {
    hide Parse;
    ParseNothing(map[]);
  }

  const NOT_MODIFIED: Response := Response(304, map[], [])

  lemma SettlesMerged(lib: Library, sent: Request, e: Response, now: int)
    requires sent.method_ == "GET"
    ensures Settle(lib, sent, Some(e), Received(NOT_MODIFIED), now) == Proceed(Refresh(e, NOT_MODIFIED), false)
  {
  }

  lemma ReturnedBytes(cacheable: bool, sent: Request, resp: Response)
    ensures var out := Returned(resp, Finish(cacheable, sent, resp)); out.status == resp.status && out.body == resp.body
  {
  }

  // ----- a run in which all goes well -----

  const STEADY: Origin := Origin((u: string, h: Header, t: int) => Content(200, [1], "v1", ""), (u: string) => [])

  /** Dates are read as instant 0, other texts as instant 5. */
  function FiveTicks(mark: bool): World {
    World(Library((text: string) => None, (text: string) => if text == "d" then Some(0) else Some(5)), mark)
  }

  const DATED: Response := Response(200, Set(Set(Set(map[], "date", "d"), "etag", "v1"), "Expires", "x"), [1])
  const ASK: Request := Request("GET", "u", map[])

  lemma DatedFacts()
    ensures Get(DATED.header, "date") == "d" && Get(DATED.header, "etag") == "v1" && Get(DATED.header, "Expires") == "x"
    ensures Get(DATED.header, "Cache-Control") == "" && Get(DATED.header, "last-modified") == "" && Lines(DATED.header, "vary") == []
    ensures NoStamps(DATED.header)
  {
    var h1 := Set(map[], "date", "d");
    var h2 := Set(h1, "etag", "v1");
    SetKeeps(h2, "Expires", "x", "date");
    SetKeeps(h2, "Expires", "x", "etag");
    SetKeeps(h1, "etag", "v1", "date");
    Lacks(h1, h2, "Cache-Control");
    Lacks(h1, h2, "last-modified");
    Lacks(h1, h2, "vary");
    NotVaried("date");
    NotVaried("etag");
    NotVaried("Expires");
  }

  lemma Lacks(h1: Header, h2: Header, name: string)
    requires h1 == Set(map[], "date", "d") && h2 == Set(h1, "etag", "v1")
    requires Apart("date", name) && Apart("etag", name) && Apart("Expires", name)
    ensures Get(Set(h2, "Expires", "x"), name) == "" && Lines(Set(h2, "Expires", "x"), name) == []
  {
    SetKeeps(map[], "date", "d", name);
    SetKeeps(h1, "etag", "v1", name);
    SetKeeps(h2, "Expires", "x", name);
  }

  lemma SteadyDeposits(mark: bool)
    ensures WellBehaved(STEADY) && Deposits(FiveTicks(mark), ASK, DATED, 0) && Honest(STEADY, FiveTicks(mark), ASK, DATED, 0)
  {
    DatedFacts();
    hide Get, Lines;
    PlainAsk();
    ParseNothing(DATED.header);
  }

  lemma PlainAsk()
    ensures CacheableGet(ASK) && SpaceFree(ASK) && NoConditionals(ASK.header) && Parse(ASK.header) == map[]
  {
    PlainHeader();
  }

  /** What the plan for the entry is taken from. */
  lemma SteadyEntry(mark: bool)
    ensures var e := Entry(FiveTicks(mark), ASK, DATED);
      && Get(e.header, "date") == "d" && Get(e.header, "etag") == "v1" && Get(e.header, "Expires") == "x"
      && Parse(e.header) == map[] && VaryNames(e.header) == []
  {
    DatedFacts();
    var h := Stored(DATED.header, ASK.header);
    assert VaryNames(DATED.header) == [] && h == DATED.header;
    MarkFacts(h);
    MarkKeeps(h, "Expires");
    ParseNothing(DATED.header);
    EntryDirectives(FiveTicks(mark), ASK, DATED);
  }

  lemma SteadyPlan(mark: bool, now: nat)
    ensures var w := FiveTicks(mark); var e := Entry(w, ASK, DATED); var plan := PlanFor(w.lib, ASK, Some(e), now);
      plan == if now < 5 then Answer(e) else Forward(AddValidators(e.header, ASK))
  {
    SteadyEntry(mark);
    PlainAsk();
    hide Entry, Parse, Get, VaryNames, AddValidators;
  }

  lemma SteadyConfirms(mark: bool, now: nat)
    ensures var w := FiveTicks(mark); Honest(STEADY, w, AddValidators(Entry(w, ASK, DATED).header, ASK), NOT_MODIFIED, now)
  {
    var w := FiveTicks(mark);
    SteadyEntry(mark);
    AddedValidators(Entry(w, ASK, DATED).header, ASK, "");
    hide Entry, AddValidators;
  }

  /** The theorems have something to speak of: a polite run over a well-behaved origin in
      which a request is answered from the store, and a later one by a 304. */
  lemma AHitAndARevalidation(mark: bool) returns (run: seq<Event>, hit: Outcome, passed: Outcome)
    ensures WellBehaved(STEADY) && IsRun(FiveTicks(mark), run) && IsPoliteRun(STEADY, FiveTicks(mark), run)
    ensures var s := After(FiveTicks(mark), run);
      && hit in s.outcomes && hit.Hit? && passed in s.outcomes && passed.Passed?
      && exists x :: x in s.exchanges && x.Network? && x.resp.status == 304 && Some(x.at) == passed.repliedAt
  {
    hide Honest, WellBehaved, Deposits, Entry, NoConditionals, SpaceFree, PlanFor, Finish, Stored, AddValidators;
    var w := FiveTicks(mark);
    var e := Entry(w, ASK, DATED);
    var sent := AddValidators(e.header, ASK);
    SteadyDeposits(mark);
    PlainAsk();
    run := Deposited(STEADY, w, ASK, ASK, DATED, 0);
    FindsEntry(w, After(w, run).items, ASK, ASK, DATED);
    SteadyPlan(mark, 0);
    run := Hits(STEADY, w, ASK, run, 1, ASK, e);
    hit := Hit(ASK, e, 0);
    run := Waits(STEADY, w, ASK, run, 10);
    SteadyPlan(mark, 10);
    run := Sends(STEADY, w, ASK, run, 2, ASK, sent);
    SteadyConfirms(mark, 10);
    SentIsGet(e.header);
    SettlesMerged(w.lib, sent, e, 10);
    run := Receives(STEADY, w, ASK, run, 2, NOT_MODIFIED, Refresh(e, NOT_MODIFIED));
    passed := Passed(ASK, Returned(Refresh(e, NOT_MODIFIED), Finish(Cacheable(ASK), sent, Refresh(e, NOT_MODIFIED))), Some(10));
    assert Network(sent, NOT_MODIFIED, 10) in After(w, run).exchanges;
    PoliteAnyway(STEADY, w, run, ASK);
  }

  lemma SentIsGet(cached: Header)
    ensures AddValidators(cached, ASK).method_ == "GET"
  {
  }
}
