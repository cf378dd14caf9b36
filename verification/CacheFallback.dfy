/** The stale-if-error fallback: the inputs on which it is not what RFC 5861 promises, and
    exactly when it is. */
module CacheFallback {
  import opened Options
  import opened Text
  import opened Headers
  import opened CacheControl
  import opened Freshness
  import opened Messages
  import opened RoundTrip
  import opened CacheRuns
  import opened CacheOrigin
  import opened CacheStories
  import CacheProvenance

  // ----- the fallback -----

  /** What RFC 5861 section 4 asks of a fallback: the content that the request would have
      got at an instant within the limit, if there is one. */
  ghost predicate FallbackBounded(o: Origin, lib: Library, out: Outcome)
    requires out.FellBack?
  {
    exists g :: g <= out.now && Shows(o.content(out.req.url, out.req.header, g), out.entry) && WithinLimit(lib, out, g)
  }

  predicate WithinLimit(lib: Library, out: Outcome, g: int)
    requires out.FellBack?
  {
    var limit := FallbackLimit(lib, FactsOf(lib, out.entry.header, out.sent.header));
    limit.Under? ==> out.now - g < limit.limit
  }

  /** A fallback that was selected for its request is bounded. */
  lemma SelectedIsBounded(o: Origin, w: World, run: seq<Event>, out: Outcome)
    requires WellBehaved(o) && IsRun(w, run) && IsPoliteRun(o, w, run)
    requires out in After(w, run).outcomes && out.FellBack? && CacheableGet(out.req)
    requires VaryMatches(out.entry.header, out.req.header) && !MadeHere(w, out.entry)
    ensures FallbackBounded(o, w.lib, out)
  {
    AlwaysInv(o, w, run);
    assert OutcomeOk(o, w, out);
    FallbackIffUnderLimit(w.lib, FactsOf(w.lib, out.entry.header, out.sent.header), out.now);
    var g := ShownInstant(o, w, out.req, out.entry, out.now);
    assert WithinLimit(w.lib, out, g);
  }

  /** An origin that gives `resp` to all that agree with `h` on Vary, and something else to
      the others. */
  function TwoVariants(resp: Response, h: Header): Origin {
    Origin((u: string, other: Header, t: int) => Variant(resp, h, other), (u: string) => VaryNames(resp.header))
  }

  function Variant(resp: Response, h: Header, other: Header): Content {
    if Agree(VaryNames(resp.header), h, other) then Content(resp.status, resp.body, Get(resp.header, "etag"), Get(resp.header, "last-modified"))
    else Content(200, resp.body + [0], "", "")
  }

  lemma VariantsWellBehaved(resp: Response, h: Header)
    requires resp.status != 304 && NoValidatorListed(resp.header)
    ensures WellBehaved(TwoVariants(resp, h))
  {
    var o := TwoVariants(resp, h);
    forall u, h1, h2, t | Agree(o.vary(u), h1, h2) ensures o.content(u, h1, t) == o.content(u, h2, t) {
      assert Agree(VaryNames(resp.header), h, h1) <==> Agree(VaryNames(resp.header), h, h2);
    }
  }

  lemma EntryVariant(w: World, r1: Request, r2: Request, resp: Response)
    requires NoStamps(resp.header)
    ensures VaryMatches(Entry(w, r1, resp).header, r2.header) <==> Agree(VaryNames(resp.header), r1.header, r2.header)
  {
    forall name | name in VaryNames(resp.header) ensures VariedValue(resp.header, Canonical(name)) == "" {
      VariedCanonical(name);
    }
    VaryRoundTrip(resp.header, r1.header);
    MarkFacts(Stored(resp.header, r1.header));
    SameFactsMatch(Stored(resp.header, r1.header), Set(Stored(resp.header, r1.header), X_FROM_CACHE, "1"), r2.header);
  }

  lemma VariantFacts(w: World, r1: Request, r2: Request, resp: Response, at: nat)
    requires Deposits(w, r1, resp, at) && !VaryMatches(Entry(w, r1, resp).header, r2.header)
    ensures WellBehaved(TwoVariants(resp, r1.header)) && Honest(TwoVariants(resp, r1.header), w, r1, resp, at)
    ensures forall g :: !Shows(TwoVariants(resp, r1.header).content(r2.url, r2.header, g), Entry(w, r1, resp))
  {
    hide WellBehaved, Honest, Entry, VaryMatches, VaryNames;
    VariantsWellBehaved(resp, r1.header);
    HonestVariant(w, r1, resp, at);
    EntryVariant(w, r1, r2, resp);
    EntryBody(w, r1, resp);
  }

  /** The run that fails: the entry of another variant is the fallback. */
  lemma AnotherVariantFallsBack(w: World, r1: Request, r2: Request, resp: Response, at: nat) returns (run: seq<Event>)
    requires Deposits(w, r1, resp, at) && CacheableGet(r2) && SpaceFree(r2) && Harmless(r2.header) && r2.url == r1.url
    requires !VaryMatches(Entry(w, r1, resp).header, r2.header)
    requires CanStaleOnError(w.lib, Entry(w, r1, resp).header, r2.header, at)
    ensures var o := TwoVariants(resp, r1.header);
      WellBehaved(o) && IsRun(w, run) && IsPoliteRun(o, w, run) &&
      FellBack(r2, r2, Entry(w, r1, resp), at) in After(w, run).outcomes &&
      forall g :: !Shows(o.content(r2.url, r2.header, g), Entry(w, r1, resp))
  {
    hide Shows, TwoVariants, WellBehaved, Harmless, SpaceFree, VaryMatches, CanStaleOnError, Deposits, Honest, PlanFor;
    var o, e := TwoVariants(resp, r1.header), Entry(w, r1, resp);
    VariantFacts(w, r1, r2, resp, at);
    run := Deposited(o, w, r1, r1, resp, at);
    DepositsPlainly(w, r1, resp, at);
    PlainIsHarmless(r1.header);
    FindsEntry(w, After(w, run).items, r1, r2, resp);
    UnselectedGoesOut(w.lib, r2, e, at);
    run := FallsBackTo(o, w, r1, run, r2, e);
    PoliteAnyway(o, w, run, r1);
  }

  lemma HonestVariant(w: World, r1: Request, resp: Response, at: nat)
    requires resp.status != 304 && NoStamps(resp.header) && Dated(w.lib, resp.header, at)
    ensures Honest(TwoVariants(resp, r1.header), w, r1, resp, at)
  {
    assert Agree(VaryNames(resp.header), r1.header, r1.header);
  }

  lemma UnselectedGoesOut(lib: Library, req: Request, e: Response, now: int)
    requires !VaryMatches(e.header, req.header)
    ensures PlanFor(lib, req, Some(e), now) == Forward(req)
  {
  }

  /** A request that goes out as it is, and a network that fails. */
  lemma FallsBackTo(o: Origin, w: World, r: Request, run: seq<Event>, req: Request, e: Response) returns (run': seq<Event>)
    requires Story(o, w, r, run) && MayBegin(After(w, run), 1, req, r)
    requires Lookup(After(w, run).items, req, w.mark) == Some(e) && PlanFor(w.lib, req, Some(e), After(w, run).now) == Forward(req)
    requires CanStaleOnError(w.lib, e.header, req.header, After(w, run).now)
    ensures Story(o, w, r, run') && FellBack(req, req, e, After(w, run).now) in After(w, run').outcomes
  {
    hide PlanFor, CanStaleOnError, Harmless, SpaceFree, Lookup;
    run' := Sends(o, w, r, run, 1, req, req);
    run' := Fails(o, w, r, run', 1, e);
  }

  lemma NeverShown(o: Origin, lib: Library, out: Outcome)
    requires out.FellBack? && forall g :: !Shows(o.content(out.req.url, out.req.header, g), out.entry)
    ensures !FallbackBounded(o, lib, out)
  {
  }

  ghost predicate FallsBack(o: Origin, w: World, run: seq<Event>, out: Outcome) {
    WellBehaved(o) && IsRun(w, run) && IsPoliteRun(o, w, run) && out in After(w, run).outcomes && out.FellBack?
  }

  ghost predicate AlwaysBounded(w: World, req: Request, e: Response, at: int) {
    forall o, run, out :: FallsBack(o, w, run, out) && out.req == req && out.entry == e && out.now == at ==> FallbackBounded(o, w.lib, out)
  }

  // ----- the 504 made here -----

  /** A request that only wants a cached answer finds nothing, and reads its 504 to the end. */
  lemma TimesOut(o: Origin, w: World, r: Request, run: seq<Event>, id: nat, req: Request) returns (run': seq<Event>)
    requires Story(o, w, r, run) && MayBegin(After(w, run), id, req, r)
    requires CacheKey(req) !in After(w, run).items && Parse(req.header) == map["only-if-cached" := ""]
    ensures Story(o, w, r, run')
    ensures var s, s' := After(w, run), After(w, run');
      && s'.now == s.now && s'.items == s.items[CacheKey(req) := GATEWAY_TIMEOUT] && s'.calls == s.calls - {id}
      && s'.readers.Keys == s.readers.Keys + {id}
  {
    hide Parse, Harmless, SpaceFree, Finish, PlanFor;
    TimeOutFinishes(req);
    PlansTimeOut(w.lib, req, After(w, run).now);
    run' := Then(o, w, r, run, Begin(id, req));
    run' := Then(o, w, r, run', Choose(id));
    assert After(w, run').calls[id] == Settled(req, req, GATEWAY_TIMEOUT, None);
    run' := Then(o, w, r, run', Conclude(id));
    assert After(w, run').readers[id] == Reader(CacheKey(req), GATEWAY_TIMEOUT, [], []);
    run' := ReadsOut(o, w, r, run', id);
  }

  lemma PlansTimeOut(lib: Library, req: Request, now: int)
    requires "only-if-cached" in Parse(req.header)
    ensures PlanFor(lib, req, None, now) == TimeOut
  {
  }

  lemma TimeOutFinishes(req: Request)
    requires CacheableGet(req) && Parse(req.header) == map["only-if-cached" := ""]
    ensures Finish(Cacheable(req), req, GATEWAY_TIMEOUT) == Streaming(GATEWAY_TIMEOUT)
  {
    hide Parse, VaryNames;
    NothingSaid();
    assert Stored(GATEWAY_TIMEOUT.header, req.header) == map[];
  }

  /** The request is answered from any selected entry, whatever its age. */
  predicate OnlyCached(req: Request) {
    "only-if-cached" in Parse(req.header) && "no-cache" !in Parse(req.header)
  }

  predicate IsTimeOut(w: World, e: Response) {
    e == Mark(GATEWAY_TIMEOUT, w.mark)
  }

  lemma TimeOutSays(w: World, e: Response)
    requires IsTimeOut(w, e)
    ensures Parse(e.header) == map[] && VaryNames(e.header) == [] && MadeHere(w, e)
    ensures Get(e.header, "date") == Get(e.header, "etag") == Get(e.header, "last-modified") == ""
  {
    MadeHereFacts(w, e);
    MarkKeeps(map[], "Cache-Control");
    ParseNothing(e.header);
  }

  lemma TimeOutGoesOut(w: World, req: Request, e: Response, now: int)
    requires IsTimeOut(w, e) && !OnlyCached(req)
    ensures PlanFor(w.lib, req, Some(e), now) == Forward(req)
  {
    TimeOutSays(w, e);
    hide Parse, Get, VaryNames, IsTimeOut;
  }

  lemma SteadyHasNoTimeOut(w: World, req: Request, e: Response)
    requires IsTimeOut(w, e)
    ensures forall g :: !Shows(STEADY.content(req.url, req.header, g), e)
  {
  }

  lemma AskOnlyCached(u: string)
    ensures var q := Request("GET", u, Set(map[], "Cache-Control", "only-if-cached"));
      CacheableGet(q) && NoConditionals(q.header) && Parse(q.header) == map["only-if-cached" := ""]
  {
    var h := Set(map[], "Cache-Control", "only-if-cached");
    SetKeeps(map[], "Cache-Control", "only-if-cached", "range");
    SetKeeps(map[], "Cache-Control", "only-if-cached", "if-none-match");
    SetKeeps(map[], "Cache-Control", "only-if-cached", "if-modified-since");
    hide Get, Set;
    CanonicalStable("Cache-Control");
    SaysOnlyCached(h);
  }

  lemma SaysOnlyCached(h: Header)
    requires h == Set(map[], "Cache-Control", "only-if-cached")
    ensures Parse(h) == map["only-if-cached" := ""]
  {
    hide Parse;
    ParseWord(h, "only-if-cached");
  }

  /** The run that fails: the stored 504 is the fallback, for every request that may fall
      back on it. */
  lemma TimeOutFallsBack(w: World, req: Request, at: nat) returns (run: seq<Event>)
    requires CacheableGet(req) && SpaceFree(req) && Harmless(req.header) && !OnlyCached(req)
    requires CanStaleOnError(w.lib, Mark(GATEWAY_TIMEOUT, w.mark).header, req.header, at)
    ensures FallsBack(STEADY, w, run, FellBack(req, req, Mark(GATEWAY_TIMEOUT, w.mark), at))
    ensures !FallbackBounded(STEADY, w.lib, FellBack(req, req, Mark(GATEWAY_TIMEOUT, w.mark), at))
  {
    hide Parse, Harmless, CanStaleOnError, PlanFor, OnlyCached, WellBehaved, Mark, Shows, NoConditionals, Set, CacheableGet, Lookup, FallbackBounded;
    var q := Request("GET", req.url, Set(map[], "Cache-Control", "only-if-cached"));
    var e := Mark(GATEWAY_TIMEOUT, w.mark);
    AskOnlyCached(req.url);
    PlainIsHarmless(q.header);
    SteadyIsWellBehaved();
    Start(STEADY, w, req);
    run := Waits(STEADY, w, req, [], at);
    SameKey(q, req);
    run := TimesOut(STEADY, w, req, run, 0, q);
    FindsTimeOut(w, After(w, run).items, req);
    TimeOutGoesOut(w, req, e, at);
    run := FallsBackTo(STEADY, w, req, run, req, e);
    PoliteAnyway(STEADY, w, run, req);
    SteadyHasNoTimeOut(w, req, e);
    NeverShown(STEADY, w.lib, FellBack(req, req, e, at));
  }

  lemma SameKey(a: Request, b: Request)
    requires CacheableGet(a) && CacheableGet(b) && a.url == b.url
    ensures CacheKey(a) == CacheKey(b) == a.url
  {
  }

  lemma FindsTimeOut(w: World, items: Items, req: Request)
    requires CacheableGet(req) && CacheKey(req) in items && items[CacheKey(req)] == GATEWAY_TIMEOUT
    ensures Lookup(items, req, w.mark) == Some(Mark(GATEWAY_TIMEOUT, w.mark))
  {
  }

  lemma PlainIsHarmless(h: Header)
    requires NoConditionals(h)
    ensures Harmless(h)
  {
  }

  lemma SteadyIsWellBehaved()
    ensures WellBehaved(STEADY)
  {
  }

  // ----- a request that is answered from the store does not fall back -----

  predicate GoesOut(req: Request, cached: Option<Response>) {
    cached.Some? && VaryMatches(cached.value.header, req.header) && OnlyCached(req) ==> "no-cache" in Parse(cached.value.header)
  }

  predicate CallGoesOut(c: Call) {
    c.Sent? || c.Replied? ==> GoesOut(c.req, c.cached)
  }

  predicate OutcomeGoesOut(out: Outcome) {
    out.FellBack? ==> GoesOut(out.req, Some(out.entry))
  }

  predicate AllGoOut(s: State) {
    && (forall id :: id in s.calls ==> CallGoesOut(s.calls[id]))
    && (forall out :: out in s.outcomes ==> OutcomeGoesOut(out))
  }

  lemma ForwardGoesOut(lib: Library, req: Request, cached: Option<Response>, now: int)
    requires PlanFor(lib, req, cached, now).Forward?
    ensures GoesOut(req, cached)
  {
  }

  lemma AllGoOutStep(w: World, s: State, ev: Event)
    requires AllGoOut(s) && Enabled(s, ev)
    ensures AllGoOut(Step(w, s, ev))
  {
    hide GoesOut, PlanFor, Settle, Finish, Keep, Purge, Lookup, Invalidate, Returned;
    match ev
    case Choose(id) =>
      var c := s.calls[id];
      if PlanFor(w.lib, c.req, c.cached, s.now).Forward? {
        ForwardGoesOut(w.lib, c.req, c.cached, s.now);
      }
    case Resume(id) => CacheProvenance.SettlesBy(w.lib, s.calls[id], s.now);
    case _ =>
  }

  lemma {:induction false} AlwaysGoOut(w: World, run: seq<Event>)
    requires IsRun(w, run)
    ensures AllGoOut(After(w, run))
  {
    hide AllGoOut, Step;
    if run != [] {
      AlwaysGoOut(w, run[..|run| - 1]);
      AllGoOutStep(w, After(w, run[..|run| - 1]), run[|run| - 1]);
    } else {
      NoneGoOut();
    }
  }

  lemma NoneGoOut()
    ensures AllGoOut(Empty)
  {
  }

  lemma TimeOutIsNoFallback(w: World, run: seq<Event>, out: Outcome)
    requires IsRun(w, run) && out in After(w, run).outcomes && out.FellBack? && IsTimeOut(w, out.entry)
    ensures !OnlyCached(out.req)
  {
    AlwaysGoOut(w, run);
    assert OutcomeGoesOut(out);
    TimeOutSays(w, out.entry);
  }

  // ----- the exact condition -----

  /** Every entry that a GET of URL `u` finds: a stored response of the network, or the
      504 made here. */
  ghost predicate Arises(w: World, u: string, e: Response, at: nat) {
    IsTimeOut(w, e) || exists r1: Request, resp :: r1.url == u && Deposits(w, r1, resp, at) && e == Entry(w, r1, resp)
  }

  lemma MarkedIsTimeOut(w: World, x: Response)
    requires MadeHere(w, Mark(x, w.mark))
    ensures IsTimeOut(w, Mark(x, w.mark))
  {
    assert w.mark ==> Canonical(X_FROM_CACHE) in Mark(x, w.mark).header;
  }

  lemma OnlyOneMadeHere(w: World, u: string, e: Response, at: nat)
    requires Arises(w, u, e, at)
    ensures MadeHere(w, e) ==> IsTimeOut(w, e)
  {
    if r1: Request, resp :| r1.url == u && Deposits(w, r1, resp, at) && e == Entry(w, r1, resp) {
      if MadeHere(w, e) {
        MarkedIsTimeOut(w, resp.(header := Stored(resp.header, r1.header)));
      }
    }
  }

  /** Exactly when the fallback is what it should be: for every entry and every request that
      may fall back on it, all well-behaved origins and polite runs bound the fallback if
      and only if the entry is selected for the request and is not the 504 made here, which
      only a request that never gets as far as the network is safe from. The transport asks
      neither (cache/cache.go:240-247). */
  lemma FallbackBoundedIffSelected(w: World, e: Response, req: Request, at: nat)
    requires Arises(w, req.url, e, at) && CacheableGet(req) && SpaceFree(req) && Harmless(req.header)
    requires CanStaleOnError(w.lib, e.header, req.header, at)
    ensures AlwaysBounded(w, req, e, at) <==> VaryMatches(e.header, req.header) && (IsTimeOut(w, e) ==> OnlyCached(req))
  {
    hide Entry, Deposits, WellBehaved, FallbackBounded, CanStaleOnError, Harmless, OnlyCached, IsTimeOut, VaryNames, MadeHere;
    if IsTimeOut(w, e) {
      TimeOutIsSelected(w, e, req);
      if !OnlyCached(req) {
        TimeOutIsMark(w, e);
        var run := TimeOutFallsBack(w, req, at);
      } else {
        forall o, run, out | FallsBack(o, w, run, out) ensures !(out.req == req && out.entry == e) {
          if out.entry == e {
            TimeOutIsNoFallback(w, run, out);
          }
        }
      }
    } else {
      NetworkEntryIff(w, e, req, at);
    }
  }

  lemma TimeOutIsMark(w: World, e: Response)
    requires IsTimeOut(w, e)
    ensures e == Mark(GATEWAY_TIMEOUT, w.mark)
  {
  }

  lemma TimeOutIsSelected(w: World, e: Response, req: Request)
    requires IsTimeOut(w, e)
    ensures VaryMatches(e.header, req.header)
  {
    TimeOutSays(w, e);
  }

  lemma NetworkEntryIff(w: World, e: Response, req: Request, at: nat)
    requires Arises(w, req.url, e, at) && !IsTimeOut(w, e) && CacheableGet(req) && SpaceFree(req) && Harmless(req.header)
    requires CanStaleOnError(w.lib, e.header, req.header, at)
    ensures AlwaysBounded(w, req, e, at) <==> VaryMatches(e.header, req.header)
  {
    hide Entry, Deposits, WellBehaved, FallbackBounded, CanStaleOnError, Harmless, IsTimeOut, VaryMatches, MadeHere;
    if VaryMatches(e.header, req.header) {
      OnlyOneMadeHere(w, req.url, e, at);
      forall o, run, out | FallsBack(o, w, run, out) && out.req == req && out.entry == e ensures FallbackBounded(o, w.lib, out) {
        SelectedIsBounded(o, w, run, out);
      }
    } else {
      var r1: Request, resp :| r1.url == req.url && Deposits(w, r1, resp, at) && e == Entry(w, r1, resp);
      var run := AnotherVariantFallsBack(w, r1, req, resp, at);
      var o, out := TwoVariants(resp, r1.header), FellBack(req, req, e, at);
      assert FallsBack(o, w, run, out);
      NeverShown(o, w.lib, out);
    }
  }

  // ----- two inputs -----

  /** The input: two requests that differ in a header named A, a response that lists it in
      Vary, and stale-if-error without a value. */
  lemma AnotherVariantIsReturned(w: World) returns (o: Origin, run: seq<Event>, out: Outcome)
    ensures FallsBack(o, w, run, out) && !FallbackBounded(o, w.lib, out)
  {
    var r1 := Request("GET", "u", Set(map[], "A", "1"));
    var r2 := Request("GET", "u", Set(Set(map[], "A", "2"), "Cache-Control", "stale-if-error"));
    var resp := Response(200, Set(Set(map[], "vary", "A"), "etag", "v1"), [1]);
    VariantInput(w, r1, r2, resp);
    EntryVariant(w, r1, r2, resp);
    PlainIsHarmless(r2.header);
    hide Deposits, Agree, VaryMatches, Entry, CanStaleOnError, WellBehaved, Harmless;
    run := AnotherVariantFallsBack(w, r1, r2, resp, 0);
    o, out := TwoVariants(resp, r1.header), FellBack(r2, r2, Entry(w, r1, resp), 0);
    NeverShown(o, w.lib, out);
  }

  lemma ListA()
    ensures CommaValues(["A"]) == ["A"] && !IsValidator("A")
  {
    CommaValuesOne("A");
    SplitPlain("A", ',');
    assert "" + "A" + "" == "A";
    TrimPadded("", "A", "", WHITESPACE);
    CanonicalFolds("A");
    CanonicalFolds("if-none-match");
    CanonicalFolds("if-modified-since");
  }

  lemma VaryA(h: Header)
    requires h == Set(Set(map[], "vary", "A"), "etag", "v1")
    ensures Lines(h, "vary") == ["A"] && Get(h, "Cache-Control") == "" && Get(h, "date") == "" && Get(h, "etag") == "v1" && NoStamps(h)
  {
    var g := Set(map[], "vary", "A");
    SetKeeps(g, "etag", "v1", "vary");
    SetKeeps(g, "etag", "v1", "Cache-Control");
    SetKeeps(map[], "vary", "A", "Cache-Control");
    SetKeeps(g, "etag", "v1", "date");
    SetKeeps(map[], "vary", "A", "date");
    NotVaried("vary");
    NotVaried("etag");
  }

  lemma VariantInput(w: World, r1: Request, r2: Request, resp: Response)
    requires r1 == Request("GET", "u", Set(map[], "A", "1"))
    requires r2 == Request("GET", "u", Set(Set(map[], "A", "2"), "Cache-Control", "stale-if-error"))
    requires resp == Response(200, Set(Set(map[], "vary", "A"), "etag", "v1"), [1])
    ensures Deposits(w, r1, resp, 0) && CacheableGet(r2) && SpaceFree(r2) && NoConditionals(r2.header)
    ensures !Agree(VaryNames(resp.header), r1.header, r2.header)
    ensures CanStaleOnError(w.lib, Entry(w, r1, resp).header, r2.header, 0)
  {
    hide Lines, Get, Set, Parse, CommaValues, IsValidator, Entry, NoStamps, CacheableGet, NoConditionals, Canonical;
    VaryA(resp.header);
    ListA();
    VariantRequests(r1, r2);
    ParseNothing(resp.header);
    ParseNothing(r1.header);
    Disagree(r1.header, r2.header);
    EntryDirectives(w, r1, resp);
    ParseWord(r2.header, "stale-if-error");
  }

  lemma Disagree(a: Header, b: Header)
    requires Get(a, "A") == "1" && Get(b, "A") == "2"
    ensures !Agree(["A"], a, b)
  {
    CanonicalStable("A");
    CanonicalFolds("A");
    assert "A" in ["A"] && "1"[0] != "2"[0];
  }

  lemma VariantRequests(r1: Request, r2: Request)
    requires r1 == Request("GET", "u", Set(map[], "A", "1"))
    requires r2 == Request("GET", "u", Set(Set(map[], "A", "2"), "Cache-Control", "stale-if-error"))
    ensures Get(r1.header, "A") == "1" && Get(r2.header, "A") == "2"
    ensures Get(r1.header, "Cache-Control") == "" && Get(r2.header, "Cache-Control") == "stale-if-error"
    ensures CacheableGet(r1) && CacheableGet(r2) && NoConditionals(r1.header) && NoConditionals(r2.header)
  {
    var h := Set(map[], "A", "2");
    SetKeeps(h, "Cache-Control", "stale-if-error", "A");
    SetKeeps(map[], "A", "1", "Cache-Control");
    SetKeeps(map[], "A", "1", "range");
    SetKeeps(map[], "A", "1", "if-none-match");
    SetKeeps(map[], "A", "1", "if-modified-since");
    SetKeeps(map[], "A", "2", "range");
    SetKeeps(map[], "A", "2", "if-none-match");
    SetKeeps(map[], "A", "2", "if-modified-since");
    SetKeeps(h, "Cache-Control", "stale-if-error", "range");
    SetKeeps(h, "Cache-Control", "stale-if-error", "if-none-match");
    SetKeeps(h, "Cache-Control", "stale-if-error", "if-modified-since");
  }

  /** The input: a request that only wants a cached answer, and later one that has
      stale-if-error without a value and a network that fails. */
  lemma TimeOutIsReturned(w: World) returns (run: seq<Event>, out: Outcome)
    ensures FallsBack(STEADY, w, run, out) && !FallbackBounded(STEADY, w.lib, out)
    ensures VaryMatches(out.entry.header, out.req.header) && out.entry.status == 504
  {
    hide Parse, Get, Set, Harmless, CacheableGet, NoConditionals, VaryMatches, Mark, OnlyCached, CanStaleOnError, WellBehaved, FallbackBounded;
    var req := Request("GET", "u", Set(Set(map[], "A", "2"), "Cache-Control", "stale-if-error"));
    var e := Mark(GATEWAY_TIMEOUT, w.mark);
    VariantRequests(Request("GET", "u", Set(map[], "A", "1")), req);
    PlainIsHarmless(req.header);
    ParseWord(req.header, "stale-if-error");
    MayFallBackAnyTime(w, req, e);
    TimeOutIsSelected(w, e, req);
    run := TimeOutFallsBack(w, req, 0);
    out := FellBack(req, req, e, 0);
    TimeOutStatus(w, e);
  }

  lemma MayFallBackAnyTime(w: World, req: Request, e: Response)
    requires IsTimeOut(w, e) && Parse(req.header) == map["stale-if-error" := ""]
    ensures CanStaleOnError(w.lib, e.header, req.header, 0) && !OnlyCached(req)
  {
    hide Parse, Mark, IsTimeOut;
    TimeOutSays(w, e);
  }

  lemma TimeOutStatus(w: World, e: Response)
    requires IsTimeOut(w, e)
    ensures e.status == 504
  {
  }
}
