/** What the interleaved transport promises about the origin: answers from the store are
    boundedly stale, and answers through the origin are what an uncached client gets. */
module CacheOrigin {
  import opened Options
  import opened Text
  import opened Headers
  import opened CacheControl
  import opened Freshness
  import opened Messages
  import opened RoundTrip
  import opened CacheRuns
  import CacheProvenance

  /** What a URL has to offer a request at an instant. */
  datatype Content = Content(status: int, body: seq<byte>, etag: string, lastModified: string)

  /** An origin: its content over time and the names its responses list in Vary. */
  datatype Origin = Origin(content: (string, Header, int) -> Content, vary: string -> seq<string>)

  predicate SameBytes(a: Content, b: Content) {
    a.status == b.status && a.body == b.body
  }

  /** Content depends only on the headers listed in Vary, which are not the validators
      the cache adds; a validator identifies status and body of its URL and variant. */
  ghost predicate WellBehaved(o: Origin) {
    && (forall u, h1, h2, t :: Agree(o.vary(u), h1, h2) ==> o.content(u, h1, t) == o.content(u, h2, t))
    && (forall u, h, t1, t2 :: o.content(u, h, t1).etag == o.content(u, h, t2).etag != "" ==>
          SameBytes(o.content(u, h, t1), o.content(u, h, t2)))
    && (forall u, h, t1, t2 :: o.content(u, h, t1).lastModified == o.content(u, h, t2).lastModified != "" ==>
          SameBytes(o.content(u, h, t1), o.content(u, h, t2)))
    && (forall u, h, t :: o.content(u, h, t).status != 304)
    && (forall u, name :: name in o.vary(u) ==> !IsValidator(name))
  }

  predicate IsValidator(name: string) {
    Canonical(name) == Canonical("if-none-match") || Canonical(name) == Canonical("if-modified-since")
  }

  predicate NoConditionals(h: Header) {
    Get(h, "if-none-match") == "" && Get(h, "if-modified-since") == ""
  }

  /** Its reply does not reach the store as anything but a full response: without
      conditionals, or with a no-store that the code reads. */
  predicate Harmless(h: Header) {
    NoConditionals(h) || "no-store" in Parse(h)
  }

  predicate CacheableGet(req: Request) {
    req.method_ == "GET" && Cacheable(req)
  }

  /** The Date of a response is not later than the instant it was made at. */
  predicate Dated(lib: Library, h: Header, at: int) {
    DateOf(lib, h).Some? ==> DateOf(lib, h).value <= at
  }

  predicate NoStamps(h: Header) {
    forall k :: k in h ==> !IsVaried(k)
  }

  /** A full response shows the content; a 304 is only sent for a matching validator and
      says nothing false about the content. */
  predicate Honest(o: Origin, w: World, sent: Request, resp: Response, at: int) {
    var c := o.content(sent.url, sent.header, at);
    && Dated(w.lib, resp.header, at) && NoStamps(resp.header)
    && if resp.status == 304 then
         && Confirms(c, sent.header)
         && Get(resp.header, "etag") in {"", c.etag} && Get(resp.header, "last-modified") in {"", c.lastModified}
         && (Canonical("vary") in resp.header ==> VaryNames(resp.header) == o.vary(sent.url))
       else
         && resp.status == c.status && resp.body == c.body
         && Get(resp.header, "etag") == c.etag && Get(resp.header, "last-modified") == c.lastModified
         && VaryNames(resp.header) == o.vary(sent.url)
  }

  predicate Confirms(c: Content, sent: Header) {
    || (Get(sent, "if-none-match") != "" && Get(sent, "if-none-match") == c.etag)
    || (Get(sent, "if-modified-since") != "" && Get(sent, "if-modified-since") == c.lastModified)
  }

  /** The assumptions on the environment, event by event: callers send no conditionals of
      their own unless with no-store, and the origin answers cacheable GETs honestly. */
  predicate Polite(o: Origin, w: World, s: State, ev: Event)
    requires Enabled(s, ev)
  {
    match ev
    case Begin(_, req) => SpaceFree(req) && (CacheableGet(req) ==> Harmless(req.header))
    case Deliver(id, reply) =>
      CacheableGet(s.calls[id].sent) && reply.Received? ==> Honest(o, w, s.calls[id].sent, reply.resp, s.now)
    case _ => true
  }

  predicate IsPoliteRun(o: Origin, w: World, run: seq<Event>)
    requires IsRun(w, run)
    decreases |run|
  {
    run == [] || (IsPoliteRun(o, w, run[..|run| - 1]) && Polite(o, w, After(w, run[..|run| - 1]), run[|run| - 1]))
  }

  /** A page that changes at instant 10 and names its two versions by ETags. */
  function Page(u: string, h: Header, t: int): Content {
    if t < 10 then Content(200, [1], "v1", "") else Content(200, [2], "v2", "")
  }

  /** The assumptions can be met: a changing page is well behaved, and a 304 that confirms
      its current version is honest for a request with the validator of that version. */
  lemma ChangingPageIsWellBehaved(w: World, u: string, t: int)
    ensures var o := Origin(Page, _ => []);
      WellBehaved(o) && o.content(u, map[], 0).body != o.content(u, map[], 10).body &&
      Honest(o, w, Request("GET", u, Set(map[], "if-none-match", Page(u, map[], t).etag)), Response(304, map[], []), t)
  {
    var o := Origin(Page, _ => []);
    var tag := Page(u, map[], t).etag;
    assert Get(Set(map[], "if-none-match", tag), "if-none-match") == tag;
    forall u, h, t1, t2 | o.content(u, h, t1).etag == o.content(u, h, t2).etag
      ensures SameBytes(o.content(u, h, t1), o.content(u, h, t2))
    {
      assert (t1 < 10) == (t2 < 10) by {
        assert "v1"[1] != "v2"[1];
      }
    }
  }

  // ----- what is known of an entry -----

  ghost predicate EtagTies(o: Origin, u: string, h: Header, e: Response) {
    Get(e.header, "etag") != "" ==>
      forall t :: o.content(u, h, t).etag == Get(e.header, "etag") ==> Shows(o.content(u, h, t), e)
  }

  ghost predicate DateTies(o: Origin, u: string, h: Header, e: Response) {
    Get(e.header, "last-modified") != "" ==>
      forall t :: o.content(u, h, t).lastModified == Get(e.header, "last-modified") ==> Shows(o.content(u, h, t), e)
  }

  predicate Shows(c: Content, e: Response) {
    c.status == e.status && c.body == e.body
  }

  /** `e` shows what `u` had for a request with headers `h` at the instant `g`, which its
      Date does not exceed, and its validators mean nothing else. */
  ghost predicate Snapshot(o: Origin, w: World, u: string, e: Response, h: Header, g: int) {
    && Shows(o.content(u, h, g), e) && Dated(w.lib, e.header, g)
    && EtagTies(o, u, h, e) && DateTies(o, u, h, e)
    && VaryNames(e.header) == o.vary(u)
  }

  /** The 504 made here, as it is stored and as it is looked up. */
  predicate MadeHere(w: World, e: Response) {
    e == GATEWAY_TIMEOUT || e == Mark(GATEWAY_TIMEOUT, w.mark)
  }

  /** It has no Date and no validators, so it is never fresh by its age or validated. */
  lemma MadeHereFacts(w: World, e: Response)
    requires MadeHere(w, e)
    ensures Get(e.header, "date") == Get(e.header, "etag") == Get(e.header, "last-modified") == ""
    ensures VaryNames(e.header) == []
  {
    if e != GATEWAY_TIMEOUT {
      SetKeeps(map[], X_FROM_CACHE, "1", "date");
      SetKeeps(map[], X_FROM_CACHE, "1", "etag");
      SetKeeps(map[], X_FROM_CACHE, "1", "last-modified");
      SetKeeps(map[], X_FROM_CACHE, "1", "vary");
    }
  }

  /** An entry of URL `u` at time `now`. */
  ghost predicate Current(o: Origin, w: World, u: string, e: Response, now: int) {
    MadeHere(w, e) || exists h, g :: g <= now && Snapshot(o, w, u, e, h, g) && VaryMatches(e.header, h)
  }

  lemma CurrentLater(o: Origin, w: World, u: string, e: Response, now: int, later: int)
    requires Current(o, w, u, e, now) && now <= later
    ensures Current(o, w, u, e, later)
  {
    if !MadeHere(w, e) {
      var h, g :| g <= now && Snapshot(o, w, u, e, h, g) && VaryMatches(e.header, h);
      assert g <= later;
    }
  }

  lemma AgreeBoth(names: seq<string>, e: Header, h1: Header, h2: Header)
    requires AllMatch(names, e, h1) && AllMatch(names, e, h2)
    ensures Agree(names, h1, h2)
  {
    forall name | name in names && Canonical(name) != ""
      ensures Get(h1, Canonical(name)) == Get(h2, Canonical(name))
    {
      var i :| 0 <= i < |names| && names[i] == name;
      assert NameMatches(e, h1, names[i]) && NameMatches(e, h2, names[i]);
    }
  }

  /** Any request the entry is selected for would have been given the same. */
  lemma SnapshotFor(o: Origin, w: World, u: string, e: Response, h: Header, g: int, req: Header)
    requires WellBehaved(o) && Snapshot(o, w, u, e, h, g) && VaryMatches(e.header, h) && VaryMatches(e.header, req)
    ensures Snapshot(o, w, u, e, req, g)
  {
    AgreeBoth(o.vary(u), e.header, h, req);
    forall t ensures o.content(u, h, t) == o.content(u, req, t) {
    }
  }

  // ----- the invariant -----

  /** The request that was sent asks for the same thing; a validator on it comes from the
      stored response, which was selected for it. */
  predicate SentOk(o: Origin, req: Request, sent: Request, cached: Option<Response>) {
    && SameTarget(req, sent) && CacheableGet(sent) && Agree(o.vary(req.url), req.header, sent.header)
    && (!NoConditionals(sent.header) ==>
          cached.Some? && VaryMatches(cached.value.header, sent.header) &&
          Get(sent.header, "if-none-match") in {"", Get(cached.value.header, "etag")} &&
          Get(sent.header, "if-modified-since") in {"", Get(cached.value.header, "last-modified")})
  }

  ghost predicate CachedOk(o: Origin, w: World, u: string, cached: Option<Response>, now: int) {
    cached.Some? ==> Current(o, w, u, cached.value, now)
  }

  /** The response carries no stamp that contradicts the request. */
  predicate StampsAgree(h: Header, sent: Header) {
    forall name :: name in VaryNames(h) && Canonical(name) != "" ==>
      VariedValue(h, Canonical(name)) in {"", Get(sent, Canonical(name))}
  }

  ghost predicate Ready(o: Origin, w: World, sent: Request, resp: Response, repliedAt: Option<int>, now: int) {
    match repliedAt
    case None => resp == GATEWAY_TIMEOUT
    case Some(at) => at <= now && Snapshot(o, w, sent.url, resp, sent.header, at) && StampsAgree(resp.header, sent.header)
  }

  ghost predicate CallOk(o: Origin, w: World, now: int, c: Call) {
    CacheableGet(c.req) ==>
      && Harmless(c.req.header) && (c.Replied? ==> c.at <= now)
      && (!c.Settled? ==> CachedOk(o, w, c.req.url, c.cached, if c.Replied? then c.at else now))
      && if NoConditionals(c.req.header) then InnocentOk(o, w, now, c) else NeverStores(c)
  }

  ghost predicate InnocentOk(o: Origin, w: World, now: int, c: Call) {
    match c
    case Looked(_, _) => true
    case Sent(req, sent, cached) => SentOk(o, req, sent, cached)
    case Replied(req, sent, cached, reply, at) => SentOk(o, req, sent, cached) && (reply.Received? ==> Honest(o, w, sent, reply.resp, at))
    case Settled(req, sent, resp, repliedAt) =>
      SameTarget(req, sent) && Agree(o.vary(req.url), req.header, sent.header) && Ready(o, w, sent, resp, repliedAt, now)
  }

  predicate NeverStores(c: Call) {
    "no-store" in Parse(if c.Looked? then c.req.header else c.sent.header)
  }

  /** A call never leaves the method and URL it was made for. */
  predicate Targeted(c: Call) {
    SpaceFree(c.req) && (!c.Looked? ==> SameTarget(c.req, c.sent))
  }

  ghost predicate OutcomeOk(o: Origin, w: World, out: Outcome) {
    CacheableGet(out.req) ==>
      match out
      case Hit(req, e, t) =>
        Current(o, w, req.url, e, t) && VaryMatches(e.header, req.header) && GetFreshness(w.lib, e.header, req.header, t) == Fresh
      case FellBack(req, sent, e, t) => Current(o, w, req.url, e, t) && CanStaleOnError(w.lib, e.header, sent.header, t)
      case Passed(req, resp, at) => NoConditionals(req.header) && at.Some? ==> Shows(o.content(req.url, req.header, at.value), resp)
      case Errored(_) => true
  }

  ghost predicate Inv(o: Origin, w: World, s: State) {
    && (forall u :: u in s.items && ' ' !in u ==> Current(o, w, u, s.items[u], s.now))
    && (forall id :: id in s.calls ==> Targeted(s.calls[id]) && CallOk(o, w, s.now, s.calls[id]))
    && (forall id :: id in s.readers ==>
          s.readers[id].buf + s.readers[id].unread == s.readers[id].head.body && Current(o, w, s.readers[id].key, s.readers[id].head, s.now))
    && (forall out :: out in s.outcomes ==> OutcomeOk(o, w, out))
  }

  /** Replacing one call by another one that is in order. */
  lemma KeepsCall(o: Origin, w: World, s: State, id: nat, c: Call, xs: set<Exchange>)
    requires Inv(o, w, s) && Targeted(c) && CallOk(o, w, s.now, c)
    ensures Inv(o, w, s.(calls := s.calls[id := c], exchanges := xs))
  {
  }

  lemma KeepsLog(o: Origin, w: World, s: State, id: nat, out: Outcome)
    requires Inv(o, w, s) && OutcomeOk(o, w, out)
    ensures Inv(o, w, Log(s, id, out))
  {
  }

  lemma KeepsPurge(o: Origin, w: World, s: State, key: string, purge: bool)
    requires Inv(o, w, s)
    ensures Inv(o, w, s.(items := Purge(s.items, key, purge)))
  {
  }

  lemma KeepsTick(o: Origin, w: World, s: State, elapsed: nat)
    requires Inv(o, w, s)
    ensures Inv(o, w, s.(now := s.now + elapsed))
  {
    var later := s.now + elapsed;
    forall u | u in s.items && ' ' !in u ensures Current(o, w, u, s.items[u], later) {
      CurrentLater(o, w, u, s.items[u], s.now, later);
    }
    forall id | id in s.calls ensures CallOk(o, w, later, s.calls[id]) {
      CallLater(o, w, s.calls[id], s.now, later);
    }
    forall id | id in s.readers ensures Current(o, w, s.readers[id].key, s.readers[id].head, later) {
      CurrentLater(o, w, s.readers[id].key, s.readers[id].head, s.now, later);
    }
  }

  lemma CallLater(o: Origin, w: World, c: Call, now: int, later: int)
    requires CallOk(o, w, now, c) && now <= later
    ensures CallOk(o, w, later, c)
  {
    if CacheableGet(c.req) && !c.Settled? && c.cached.Some? {
      CurrentLater(o, w, c.req.url, c.cached.value, if c.Replied? then c.at else now, if c.Replied? then c.at else later);
    }
  }

  // ----- looking up -----

  /** The headers a snapshot looks at. */
  ghost predicate SameFacts(a: Header, b: Header) {
    && Get(a, "date") == Get(b, "date") && Get(a, "etag") == Get(b, "etag") && Get(a, "last-modified") == Get(b, "last-modified")
    && VaryNames(a) == VaryNames(b)
    && forall key :: VariedValue(a, Canonical(key)) == VariedValue(b, Canonical(key))
  }

  lemma SameFactsMatch(a: Header, b: Header, req: Header)
    requires SameFacts(a, b)
    ensures VaryMatches(a, req) <==> VaryMatches(b, req)
  {
    forall i | 0 <= i < |VaryNames(a)|
      ensures NameMatches(a, req, VaryNames(a)[i]) <==> NameMatches(b, req, VaryNames(a)[i])
    {
      CanonicalStable(VaryNames(a)[i]);
    }
  }

  lemma CurrentTransfer(o: Origin, w: World, u: string, a: Response, b: Response, now: int)
    requires Current(o, w, u, a, now) && !MadeHere(w, a) && SameFacts(a.header, b.header) && a.status == b.status && a.body == b.body
    ensures Current(o, w, u, b, now)
  {
    var h, g :| g <= now && Snapshot(o, w, u, a, h, g) && VaryMatches(a.header, h);
    assert Snapshot(o, w, u, b, h, g);
    SameFactsMatch(a.header, b.header, h);
  }

  lemma MarkKeeps(h: Header, name: string)
    requires |name| != 12
    ensures Get(Set(h, X_FROM_CACHE, "1"), name) == Get(h, name)
    ensures Lines(Set(h, X_FROM_CACHE, "1"), name) == Lines(h, name)
  {
    SetKeeps(h, X_FROM_CACHE, "1", name);
  }

  lemma MarkKeepsStamps(h: Header, key: string)
    ensures VariedValue(h, Canonical(key)) == VariedValue(Set(h, X_FROM_CACHE, "1"), Canonical(key))
  {
    NotVaried(X_FROM_CACHE);
    VariedCanonical(key);
  }

  lemma MarkFacts(h: Header)
    ensures SameFacts(h, Set(h, X_FROM_CACHE, "1"))
  {
    MarkKeeps(h, "date");
    MarkKeeps(h, "etag");
    MarkKeeps(h, "last-modified");
    MarkKeeps(h, "vary");
    forall key ensures VariedValue(h, Canonical(key)) == VariedValue(Set(h, X_FROM_CACHE, "1"), Canonical(key)) {
      MarkKeepsStamps(h, key);
    }
  }

  lemma MarkedCurrent(o: Origin, w: World, u: string, e: Response, now: int)
    requires Current(o, w, u, e, now)
    ensures Current(o, w, u, Mark(e, w.mark), now)
  {
    if MadeHere(w, e) {
      assert MadeHere(w, Mark(e, w.mark));
    } else if w.mark {
      MarkFacts(e.header);
      CurrentTransfer(o, w, u, e, Mark(e, w.mark), now);
    }
  }

  lemma KeepsBegin(o: Origin, w: World, s: State, id: nat, req: Request)
    requires Inv(o, w, s) && SpaceFree(req) && (CacheableGet(req) ==> Harmless(req.header))
    ensures Inv(o, w, StepBegin(w, s, id, req))
  {
    if CacheableGet(req) && CacheKey(req) in s.items {
      MarkedCurrent(o, w, req.url, s.items[CacheKey(req)], s.now);
    }
  }

  // ----- choosing -----

  ghost predicate PlanOk(o: Origin, w: World, now: int, c: Call, plan: Plan)
    requires c.Looked?
  {
    (plan.Forward? ==> SameTarget(c.req, plan.sent)) &&
    (CacheableGet(c.req) ==>
      match plan
      case Answer(e) =>
        Current(o, w, c.req.url, e, now) && VaryMatches(e.header, c.req.header) && GetFreshness(w.lib, e.header, c.req.header, now) == Fresh
      case Forward(sent) => if NoConditionals(c.req.header) then SentOk(o, c.req, sent, c.cached) else "no-store" in Parse(sent.header)
      case TimeOut => true)
  }

  /** Setting a validator leaves every header that Vary lists as it was. */
  lemma ValidatorKeepsAgree(names: seq<string>, a: Header, h: Header, validator: string, value: string)
    requires Agree(names, a, h)
    requires forall name :: name in names ==> Canonical(name) != Canonical(validator)
    ensures Agree(names, a, Set(h, validator, value))
  {
    forall name | name in names && Canonical(name) != ""
      ensures Get(a, Canonical(name)) == Get(Set(h, validator, value), Canonical(name))
    {
      CanonicalStable(name);
    }
  }

  lemma AgreeingMatch(names: seq<string>, e: Header, h1: Header, h2: Header)
    requires Agree(names, h1, h2) && AllMatch(names, e, h1)
    ensures AllMatch(names, e, h2)
  {
    forall i | 0 <= i < |names| ensures NameMatches(e, h2, names[i]) {
      assert NameMatches(e, h1, names[i]) && names[i] in names;
      CanonicalStable(names[i]);
    }
  }

  /** One validator: the header stays cacheable and gains nothing else. */
  lemma SetValidator(h: Header, validator: string, value: string)
    requires validator == "if-none-match" || validator == "if-modified-since"
    ensures Get(Set(h, validator, value), validator) == value
    ensures Get(Set(h, validator, value), "range") == Get(h, "range")
    ensures validator == "if-none-match" ==> Get(Set(h, validator, value), "if-modified-since") == Get(h, "if-modified-since")
    ensures validator == "if-modified-since" ==> Get(Set(h, validator, value), "if-none-match") == Get(h, "if-none-match")
  {
    CanonicalStable(validator);
    SetKeeps(h, validator, value, "range");
    if validator == "if-none-match" {
      SetKeeps(h, validator, value, "if-modified-since");
    } else {
      SetKeeps(h, validator, value, "if-none-match");
    }
  }

  /** What AddValidators puts on a request that has no conditionals. */
  lemma ValidatorsAdded(o: Origin, e: Header, req: Request)
    requires CacheableGet(req) && NoConditionals(req.header)
    requires forall name :: name in o.vary(req.url) ==> !IsValidator(name)
    ensures var sent := AddValidators(e, req);
      && SameTarget(req, sent) && CacheableGet(sent) && Agree(o.vary(req.url), req.header, sent.header)
      && Get(sent.header, "if-none-match") in {"", Get(e, "etag")}
      && Get(sent.header, "if-modified-since") in {"", Get(e, "last-modified")}
      && (Get(e, "etag") == "" && Get(e, "last-modified") == "" ==> sent == req)
  {
    var etag, lastModified := Get(e, "etag"), Get(e, "last-modified");
    var names := o.vary(req.url);
    var h := if etag != "" && Get(req.header, "etag") == "" then Set(req.header, "if-none-match", etag) else req.header;
    assert Agree(names, req.header, req.header);
    assert Agree(names, req.header, h) && Get(h, "range") == Get(req.header, "range")
      && Get(h, "if-none-match") in {"", etag} && Get(h, "if-modified-since") == "" by {
      SetValidator(req.header, "if-none-match", etag);
      ValidatorKeepsAgree(names, req.header, req.header, "if-none-match", etag);
    }
    SetValidator(h, "if-modified-since", lastModified);
    ValidatorKeepsAgree(names, req.header, h, "if-modified-since", lastModified);
  }

  /** `sent` is `req` with the validators of `cached`, and no other header differs. The test
      for a validator of the caller looks at the wrong headers: an If-None-Match of the
      caller is replaced unless an Etag comes with it. */
  predicate Revalidates(cached: Header, req: Request, sent: Request, key: string) {
    var etag, lastModified := Get(cached, "etag"), Get(cached, "last-modified");
    && SameTarget(req, sent) && (!IsValidator(key) ==> Get(sent.header, key) == Get(req.header, key))
    && Get(sent.header, "if-none-match") ==
      (if etag != "" && Get(req.header, "etag") == "" then etag else Get(req.header, "if-none-match"))
    && Get(sent.header, "if-modified-since") ==
      (if lastModified != "" && Get(req.header, "last-modified") == "" then lastModified else Get(req.header, "if-modified-since"))
  }

  lemma AddedValidators(cached: Header, req: Request, key: string)
    ensures Revalidates(cached, req, AddValidators(cached, req), key)
  {
    hide Get, Set, IsValidator;
    var etag, lastModified := Get(cached, "etag"), Get(cached, "last-modified");
    var h := if etag != "" && Get(req.header, "etag") == "" then Set(req.header, "if-none-match", etag) else req.header;
    ValidatorOnly(req.header, "if-none-match", etag, key);
    ValidatorOnly(h, "if-modified-since", lastModified, key);
    SetValidator(req.header, "if-none-match", etag);
    SetValidator(h, "if-modified-since", lastModified);
  }

  lemma ValidatorOnly(h: Header, validator: string, value: string, key: string)
    requires validator == "if-none-match" || validator == "if-modified-since"
    ensures !IsValidator(key) ==> Get(Set(h, validator, value), key) == Get(h, key)
  {
    CanonicalStable(validator);
  }

  /** A stale selected entry is revalidated with its own validators. */
  lemma StaleIsRevalidated(lib: Library, req: Request, e: Response, now: int)
    requires VaryMatches(e.header, req.header) && GetFreshness(lib, e.header, req.header, now) == Stale
    ensures var plan := PlanFor(lib, req, Some(e), now);
      plan.Forward? && forall key :: Revalidates(e.header, req, plan.sent, key)
  {
    hide AddValidators, Revalidates, VaryMatches, GetFreshness;
    forall key ensures Revalidates(e.header, req, AddValidators(e.header, req), key) {
      AddedValidators(e.header, req, key);
    }
  }

  /** When a caller's own conditionals survive: exactly when the entry has no validator of
      that kind, or the same, or the caller sends the response header of that name. */
  lemma OwnConditionalsKeptIff(lib: Library, req: Request, e: Response, now: int)
    requires VaryMatches(e.header, req.header) && GetFreshness(lib, e.header, req.header, now) == Stale
    ensures var plan := PlanFor(lib, req, Some(e), now);
      && plan.Forward?
      && (Get(plan.sent.header, "if-none-match") == Get(req.header, "if-none-match") <==>
            Get(e.header, "etag") in {"", Get(req.header, "if-none-match")} || Get(req.header, "etag") != "")
      && (Get(plan.sent.header, "if-modified-since") == Get(req.header, "if-modified-since") <==>
            Get(e.header, "last-modified") in {"", Get(req.header, "if-modified-since")} || Get(req.header, "last-modified") != "")
  {
    hide VaryMatches, GetFreshness, Get, AddValidators, IsValidator;
    StaleIsRevalidated(lib, req, e, now);
    AddedValidators(e.header, req, "");
  }

  lemma PlainSentOk(o: Origin, req: Request, cached: Option<Response>)
    requires CacheableGet(req) && NoConditionals(req.header)
    ensures SentOk(o, req, req, cached)
  {
  }

  lemma ValidatedSentOk(o: Origin, w: World, req: Request, e: Response, now: int)
    requires WellBehaved(o) && CacheableGet(req) && NoConditionals(req.header)
    requires Current(o, w, req.url, e, now) && VaryMatches(e.header, req.header)
    ensures SentOk(o, req, AddValidators(e.header, req), Some(e))
  {
    var sent := AddValidators(e.header, req);
    ValidatorsAdded(o, e.header, req);
    if MadeHere(w, e) {
      MadeHereFacts(w, e);
    } else {
      AgreeingMatch(o.vary(req.url), e.header, req.header, sent.header);
    }
  }

  lemma UseIsOk(o: Origin, w: World, now: int, req: Request, e: Response, freshness: Freshness)
    requires WellBehaved(o) && CallOk(o, w, now, Looked(req, Some(e)))
    requires VaryMatches(e.header, req.header) && (freshness == Fresh ==> GetFreshness(w.lib, e.header, req.header, now) == Fresh)
    ensures PlanOk(o, w, now, Looked(req, Some(e)), Use(e, req, freshness))
  {
    ValidatorsKeepDirectives(e.header, req);
    if CacheableGet(req) && NoConditionals(req.header) {
      PlainSentOk(o, req, Some(e));
      ValidatedSentOk(o, w, req, e, now);
    }
  }

  lemma ValidatorsKeepDirectives(cached: Header, req: Request)
    ensures Parse(AddValidators(cached, req).header) == Parse(req.header)
  {
    hide AddValidators;
    AddedValidators(cached, req, "Cache-Control");
    CanonicalFolds("Cache-Control");
    CanonicalFolds("if-none-match");
    CanonicalFolds("if-modified-since");
  }

  lemma PlanIsOk(o: Origin, w: World, now: int, c: Call)
    requires WellBehaved(o) && c.Looked? && CallOk(o, w, now, c)
    ensures PlanOk(o, w, now, c, PlanFor(w.lib, c.req, c.cached, now))
  {
    if CacheableGet(c.req) && NoConditionals(c.req.header) {
      PlainSentOk(o, c.req, c.cached);
    }
    if c.cached.Some? && VaryMatches(c.cached.value.header, c.req.header) {
      var e := c.cached.value;
      UseIsOk(o, w, now, c.req, e, GetFreshness(w.lib, e.header, c.req.header, now));
    }
  }

  lemma KeepsChoose(o: Origin, w: World, s: State, id: nat, c: Call, plan: Plan)
    requires Inv(o, w, s) && id in s.calls && s.calls[id] == c && c.Looked? && PlanOk(o, w, s.now, c, plan)
    ensures Inv(o, w, StepChoose(s, id, c, plan))
  {
    match plan
    case Answer(e) => KeepsLog(o, w, s, id, Hit(c.req, e, s.now));
    case Forward(sent) => KeepsCall(o, w, s, id, Sent(c.req, sent, c.cached), s.exchanges);
    case TimeOut =>
      KeepsCall(o, w, s, id, Settled(c.req, c.req, GATEWAY_TIMEOUT, None), s.exchanges + {Local(c.req)});
  }

  // ----- the reply -----

  lemma KeepsDeliver(o: Origin, w: World, s: State, id: nat, c: Call, reply: Reply)
    requires Inv(o, w, s) && id in s.calls && s.calls[id] == c && c.Sent?
    requires CacheableGet(c.sent) && reply.Received? ==> Honest(o, w, c.sent, reply.resp, s.now)
    ensures Inv(o, w, StepDeliver(s, id, c, reply))
  {
  }

  ghost predicate SettlementOk(o: Origin, w: World, now: int, c: Call, settlement: Settlement)
    requires c.Replied?
  {
    CacheableGet(c.req) ==>
      match settlement
      case Fallback(e) => Current(o, w, c.req.url, e, now) && CanStaleOnError(w.lib, e.header, c.sent.header, now)
      case Error(_) => true
      case Proceed(resp, _) => NoConditionals(c.req.header) ==> Ready(o, w, c.sent, resp, Some(c.at), now)
  }

  /** A full reply shows the content of its instant. */
  lemma FullReply(o: Origin, w: World, sent: Request, resp: Response, at: int)
    requires WellBehaved(o) && Honest(o, w, sent, resp, at) && resp.status != 304
    ensures Snapshot(o, w, sent.url, resp, sent.header, at) && StampsAgree(resp.header, sent.header)
  {
    forall name | name in VaryNames(resp.header) ensures VariedValue(resp.header, Canonical(name)) == "" {
      VariedCanonical(name);
    }
  }

  /** The first value of a merged header is the update's or the stored one. */
  lemma MergedValue(cached: Header, update: Header, name: string)
    ensures Get(Merge(cached, update), name) == Get(update, name) || Get(Merge(cached, update), name) == Get(cached, name)
    ensures Lines(Merge(cached, update), name) == Lines(cached, name)
      || (Canonical(name) in update && Lines(Merge(cached, update), name) == Lines(update, name))
  {
  }

  lemma MergedStamps(e: Header, update: Header, sent: Header)
    requires NoStamps(update) && VaryMatches(e, sent) && VaryNames(Merge(e, update)) == VaryNames(e)
    ensures StampsAgree(Merge(e, update), sent)
  {
    var merged := Merge(e, update);
    forall name | name in VaryNames(e) && Canonical(name) != ""
      ensures VariedValue(merged, Canonical(name)) == Get(sent, Canonical(name))
    {
      VariedCanonical(name);
      var i :| 0 <= i < |VaryNames(e)| && VaryNames(e)[i] == name;
      assert NameMatches(e, sent, VaryNames(e)[i]);
    }
  }

  /** A 304 for the validators of an entry means the entry is the content of its instant;
      merged with the 304's headers it is an entry of that instant. */
  lemma NotModified(o: Origin, w: World, req: Request, sent: Request, e: Response, update: Response, at: int)
    requires WellBehaved(o) && CacheableGet(req) && Current(o, w, req.url, e, at) && SentOk(o, req, sent, Some(e))
    requires Honest(o, w, sent, update, at) && update.status == 304
    ensures Snapshot(o, w, sent.url, Refresh(e, update), sent.header, at)
    ensures StampsAgree(Refresh(e, update).header, sent.header)
  {
    var u, c := sent.url, o.content(sent.url, sent.header, at);
    if MadeHere(w, e) {
      MadeHereFacts(w, e);
    }
    var h, g :| g <= at && Snapshot(o, w, u, e, h, g) && VaryMatches(e.header, h);
    SnapshotFor(o, w, u, e, h, g, sent.header);
    assert Shows(c, e);
    var merged := Refresh(e, update);
    MergedDate(w.lib, e.header, update.header, at);
    MergedValue(e.header, update.header, "vary");
    MergedTies(o, u, sent.header, e, update, at);
    MergedStamps(e.header, update.header, sent.header);
  }

  lemma MergedDate(lib: Library, e: Header, update: Header, at: int)
    requires Dated(lib, e, at) && Dated(lib, update, at)
    ensures Dated(lib, Merge(e, update), at)
  {
    MergedValue(e, update, "date");
  }

  lemma MergedTies(o: Origin, u: string, h: Header, e: Response, update: Response, at: int)
    requires WellBehaved(o) && EtagTies(o, u, h, e) && DateTies(o, u, h, e)
    requires var c := o.content(u, h, at);
      Shows(c, e) && Get(update.header, "etag") in {"", c.etag} && Get(update.header, "last-modified") in {"", c.lastModified}
    ensures EtagTies(o, u, h, Refresh(e, update)) && DateTies(o, u, h, Refresh(e, update))
  {
    MergedValue(e.header, update.header, "etag");
    MergedValue(e.header, update.header, "last-modified");
  }

  /** What an innocent caller's call passes on, whether a full reply or a merged 304. */
  lemma ReplyIsReady(o: Origin, w: World, now: int, c: Call)
    requires WellBehaved(o) && c.Replied? && CallOk(o, w, now, c) && CacheableGet(c.req) && NoConditionals(c.req.header)
    requires c.reply.Received?
    ensures c.sent.method_ == "GET"
    ensures c.reply.resp.status != 304 ==> Ready(o, w, c.sent, c.reply.resp, Some(c.at), now)
    ensures c.reply.resp.status == 304 ==> c.cached.Some? && Ready(o, w, c.sent, Refresh(c.cached.value, c.reply.resp), Some(c.at), now)
  {
    if c.reply.resp.status == 304 {
      NotModified(o, w, c.req, c.sent, c.cached.value, c.reply.resp, c.at);
    } else {
      FullReply(o, w, c.sent, c.reply.resp, c.at);
    }
  }

  lemma SettlementIsOk(o: Origin, w: World, now: int, c: Call)
    requires WellBehaved(o) && c.Replied? && CallOk(o, w, now, c)
    ensures SettlementOk(o, w, now, c, Settle(w.lib, c.sent, c.cached, c.reply, now))
  {
    hide Current, Ready, InnocentOk, WellBehaved, NoConditionals, CanStaleOnError, Refresh;
    if CacheableGet(c.req) {
      if c.cached.Some? {
        CurrentLater(o, w, c.req.url, c.cached.value, c.at, now);
      }
      if c.reply.Received? && NoConditionals(c.req.header) {
        ReplyIsReady(o, w, now, c);
      }
    }
  }

  lemma KeepsResume(o: Origin, w: World, s: State, id: nat, c: Call, settlement: Settlement)
    requires Inv(o, w, s) && id in s.calls && s.calls[id] == c && c.Replied? && SettlementOk(o, w, s.now, c, settlement)
    ensures Inv(o, w, StepResume(s, id, c, settlement))
  {
    match settlement
    case Fallback(e) => KeepsLog(o, w, s, id, FellBack(c.req, c.sent, e, s.now));
    case Error(purge) =>
      KeepsLog(o, w, s, id, Errored(c.req));
      KeepsPurge(o, w, Log(s, id, Errored(c.req)), CacheKey(c.req), purge);
    case Proceed(resp, purge) =>
      KeepsPurge(o, w, s, CacheKey(c.req), purge);
      KeepsCall(o, w, s.(items := Purge(s.items, CacheKey(c.req), purge)), id, Settled(c.req, c.sent, resp, Some(c.at)), s.exchanges);
  }

  // ----- storing -----

  ghost predicate EndingOk(o: Origin, w: World, now: int, c: Call, ending: Ending)
    requires c.Settled?
  {
    && (ending.Streaming? ==> CacheableGet(c.req) && Current(o, w, c.req.url, ending.head, now))
    && (ending.Kept? ==> c.req.method_ != "GET")
    && (CacheableGet(c.req) ==> Returned(c.resp, ending).status == c.resp.status && Returned(c.resp, ending).body == c.resp.body)
  }

  lemma StampedCurrent(o: Origin, w: World, sent: Request, resp: Response, repliedAt: Option<int>, now: int)
    requires Ready(o, w, sent, resp, repliedAt, now)
    ensures Current(o, w, sent.url, resp.(header := Stored(resp.header, sent.header)), now)
  {
    var stamped := resp.(header := Stored(resp.header, sent.header));
    var names := VaryNames(resp.header);
    StampKeeps(resp.header, names, sent.header, "date");
    StampKeeps(resp.header, names, sent.header, "etag");
    StampKeeps(resp.header, names, sent.header, "last-modified");
    StoredKeepsVary(resp.header, sent.header);
    if repliedAt.None? {
      assert stamped == GATEWAY_TIMEOUT;
    } else {
      assert Snapshot(o, w, sent.url, stamped, sent.header, repliedAt.value);
      MatchesIff(resp.header, sent.header, sent.header);
    }
  }

  lemma EndingIsOk(o: Origin, w: World, now: int, c: Call)
    requires c.Settled? && CallOk(o, w, now, c) && SameTarget(c.req, c.sent)
    ensures EndingOk(o, w, now, c, Finish(Cacheable(c.req), c.sent, c.resp))
  {
    if CacheableGet(c.req) && NoConditionals(c.req.header) {
      StampedCurrent(o, w, c.sent, c.resp, c.repliedAt, now);
    }
  }

  lemma HeadKey(req: Request)
    requires req.method_ != "GET"
    ensures ' ' in CacheKey(req)
  {
    assert CacheKey(req)[|req.method_|] == ' ';
  }

  lemma PassedOk(o: Origin, w: World, now: int, c: Call, out: Response)
    requires WellBehaved(o) && c.Settled? && CallOk(o, w, now, c)
    requires CacheableGet(c.req) ==> out.status == c.resp.status && out.body == c.resp.body
    ensures OutcomeOk(o, w, Passed(c.req, out, c.repliedAt))
  {
    if CacheableGet(c.req) && NoConditionals(c.req.header) && c.repliedAt.Some? {
      assert o.content(c.req.url, c.sent.header, c.repliedAt.value) == o.content(c.req.url, c.req.header, c.repliedAt.value);
    }
  }

  /** An entry is stored at once, its reader starts, or the old entry goes. */
  lemma KeepsEnding(o: Origin, w: World, s: State, id: nat, req: Request, ending: Ending)
    requires Inv(o, w, s)
    requires ending.Streaming? ==> CacheableGet(req) && Current(o, w, req.url, ending.head, s.now)
    requires ending.Kept? ==> req.method_ != "GET"
    ensures Inv(o, w, s.(items := Keep(s.items, CacheKey(req), ending),
      readers := if ending.Streaming? then s.readers[id := Reader(CacheKey(req), ending.head, [], ending.head.body)] else s.readers))
  {
    hide CallOk, OutcomeOk, Current, Targeted;
    if ending.Kept? {
      HeadKey(req);
    }
    if ending.Streaming? {
      assert [] + ending.head.body == ending.head.body;
    }
  }

  lemma KeepsConclude(o: Origin, w: World, s: State, id: nat, c: Call, ending: Ending)
    requires WellBehaved(o) && Inv(o, w, s) && id in s.calls && s.calls[id] == c && c.Settled?
    requires EndingOk(o, w, s.now, c, ending)
    ensures Inv(o, w, StepConclude(s, id, c, ending))
  {
    var out := Passed(c.req, Returned(c.resp, ending), c.repliedAt);
    PassedOk(o, w, s.now, c, Returned(c.resp, ending));
    KeepsLog(o, w, s, id, out);
    KeepsEnding(o, w, Log(s, id, out), id, c.req, ending);
    hide Inv, Keep;
  }

  lemma KeepsRead(o: Origin, w: World, s: State, id: nat, r: Reader, n: nat, eof: bool)
    requires Inv(o, w, s) && id in s.readers && s.readers[id] == r && n <= |r.unread| && (eof ==> n == |r.unread|)
    ensures Inv(o, w, StepRead(s, id, r, n, eof))
  {
    CacheProvenance.ReadBytes(r, n, eof);
  }

  lemma ChooseEvent(o: Origin, w: World, s: State, id: nat)
    requires WellBehaved(o) && Inv(o, w, s) && Enabled(s, Choose(id))
    ensures Inv(o, w, Step(w, s, Choose(id)))
  {
    var c := s.calls[id];
    PlanIsOk(o, w, s.now, c);
    KeepsChoose(o, w, s, id, c, PlanFor(w.lib, c.req, c.cached, s.now));
  }

  lemma ResumeEvent(o: Origin, w: World, s: State, id: nat)
    requires WellBehaved(o) && Inv(o, w, s) && Enabled(s, Resume(id))
    ensures Inv(o, w, Step(w, s, Resume(id)))
  {
    var c := s.calls[id];
    SettlementIsOk(o, w, s.now, c);
    KeepsResume(o, w, s, id, c, Settle(w.lib, c.sent, c.cached, c.reply, s.now));
  }

  lemma ConcludeEvent(o: Origin, w: World, s: State, id: nat)
    requires WellBehaved(o) && Inv(o, w, s) && Enabled(s, Conclude(id))
    ensures Inv(o, w, Step(w, s, Conclude(id)))
  {
    var c := s.calls[id];
    EndingIsOk(o, w, s.now, c);
    KeepsConclude(o, w, s, id, c, Finish(Cacheable(c.req), c.sent, c.resp));
  }

  lemma KeepsStep(o: Origin, w: World, s: State, ev: Event)
    requires WellBehaved(o) && Inv(o, w, s) && Enabled(s, ev) && Polite(o, w, s, ev)
    ensures Inv(o, w, Step(w, s, ev))
  {
    hide Inv;
    match ev
    case Tick(elapsed) => KeepsTick(o, w, s, elapsed);
    case Begin(id, req) => KeepsBegin(o, w, s, id, req);
    case Choose(id) => ChooseEvent(o, w, s, id);
    case Deliver(id, reply) => KeepsDeliver(o, w, s, id, s.calls[id], reply);
    case Resume(id) => ResumeEvent(o, w, s, id);
    case Conclude(id) => ConcludeEvent(o, w, s, id);
    case Read(id, n, eof) => KeepsRead(o, w, s, id, s.readers[id], n, eof);
  }

  lemma {:induction false} AlwaysInv(o: Origin, w: World, run: seq<Event>)
    requires WellBehaved(o) && IsRun(w, run) && IsPoliteRun(o, w, run)
    ensures Inv(o, w, After(w, run))
  {
    if run != [] {
      var before := run[..|run| - 1];
      AlwaysInv(o, w, before);
      KeepsStep(o, w, After(w, before), run[|run| - 1]);
    }
  }

  // ----- the theorems about a single outcome -----

  /** The instant an entry shows, for a request it is selected for. */
  lemma ShownInstant(o: Origin, w: World, req: Request, e: Response, now: int) returns (g: int)
    requires WellBehaved(o) && Current(o, w, req.url, e, now) && VaryMatches(e.header, req.header) && !MadeHere(w, e)
    ensures g <= now && Shows(o.content(req.url, req.header, g), e) && Dated(w.lib, e.header, g)
  {
    var h;
    h, g :| g <= now && Snapshot(o, w, req.url, e, h, g) && VaryMatches(e.header, h);
    SnapshotFor(o, w, req.url, e, h, g, req.header);
  }

  /** The bound of a hit: the content of an instant whose age is less than the effective
      lifetime plus max-stale minus min-fresh. */
  lemma HitIsBoundedlyStale(o: Origin, w: World, req: Request, e: Response, now: int) returns (g: int)
    requires WellBehaved(o) && Current(o, w, req.url, e, now) && VaryMatches(e.header, req.header)
    requires var f := FactsOf(w.lib, e.header, req.header);
      Judge(w.lib, f, now) == Fresh && "only-if-cached" !in f.req && ("max-stale" in f.req ==> f.req["max-stale"] != "") && Fits(w.lib, f, now)
    ensures g <= now && Shows(o.content(req.url, req.header, g), e)
    ensures var f := FactsOf(w.lib, e.header, req.header);
      f.date.Some? &&
      now - g < Lifetime(w.lib, f, f.date.value) + Allowance(w.lib, f.req, "max-stale") - Allowance(w.lib, f.req, "min-fresh")
  {
    var f := FactsOf(w.lib, e.header, req.header);
    if MadeHere(w, e) {
      MadeHereFacts(w, e);
    }
    assert Arithmetic(f);
    FreshIffLifetimeExceeds(w.lib, f, now);
    g := ShownInstant(o, w, req, e, now);
  }

  // ----- the theorems about every run -----

  /** The request leaves its answer to the freshness arithmetic. */
  predicate Ordinary(lib: Library, req: Header) {
    "only-if-cached" !in Parse(req) && ("max-stale" in Parse(req) ==> Parse(req)["max-stale"] != "")
  }

  /** Bounded staleness: in every interleaving, a GET answered without contacting the
      origin carries the status and body the origin had for that same request at an
      instant less than effective lifetime + max-stale - min-fresh ago, if the freshness
      sums do not overflow (RFC 2616 sections 13.2.4 and 14.9.3). */
  lemma BoundedStaleness(o: Origin, w: World, run: seq<Event>, out: Outcome) returns (g: int)
    requires WellBehaved(o) && IsRun(w, run) && IsPoliteRun(o, w, run)
    requires out in After(w, run).outcomes && out.Hit? && CacheableGet(out.req) && Ordinary(w.lib, out.req.header)
    requires Fits(w.lib, FactsOf(w.lib, out.entry.header, out.req.header), out.now)
    ensures g <= out.now && Shows(o.content(out.req.url, out.req.header, g), out.entry)
    ensures var f := FactsOf(w.lib, out.entry.header, out.req.header);
      f.date.Some? &&
      out.now - g < Lifetime(w.lib, f, f.date.value) + Allowance(w.lib, f.req, "max-stale") - Allowance(w.lib, f.req, "min-fresh")
  {
    AlwaysInv(o, w, run);
    g := HitIsBoundedlyStale(o, w, out.req, out.entry, out.now);
  }

  /** Stale-if-error: the fallback is the content of an instant within the limit that the
      directives state, if they state one and the entry was selected for the request
      (RFC 5861 section 4). */
  lemma BoundedFallback(o: Origin, w: World, run: seq<Event>, out: Outcome) returns (g: int)
    requires WellBehaved(o) && IsRun(w, run) && IsPoliteRun(o, w, run)
    requires out in After(w, run).outcomes && out.FellBack? && CacheableGet(out.req)
    requires VaryMatches(out.entry.header, out.req.header)
    requires FallbackLimit(w.lib, FactsOf(w.lib, out.entry.header, out.sent.header)).Under?
    ensures g <= out.now && Shows(o.content(out.req.url, out.req.header, g), out.entry)
    ensures out.now - g < FallbackLimit(w.lib, FactsOf(w.lib, out.entry.header, out.sent.header)).limit
  {
    AlwaysInv(o, w, run);
    FallbackIffUnderLimit(w.lib, FactsOf(w.lib, out.entry.header, out.sent.header), out.now);
    if MadeHere(w, out.entry) {
      MadeHereFacts(w, out.entry);
    }
    g := ShownInstant(o, w, out.req, out.entry, out.now);
  }

  lemma {:induction false} PoliteIsSpaceFree(o: Origin, w: World, run: seq<Event>)
    requires IsRun(w, run) && IsPoliteRun(o, w, run)
    ensures CacheProvenance.AllSpaceFree(run)
  {
    if run != [] {
      var before, last := run[..|run| - 1], run[|run| - 1];
      PoliteIsSpaceFree(o, w, before);
      assert run == before + [last];
    }
  }

  /** Revalidation transparency: in every interleaving, a GET that reaches the origin and
      is not answered by the fallback returns the status and body that an uncached
      request would have been given at the instant the origin replied, whether the reply
      was a full response or a 304. Its headers are those of a first exchange overridden,
      over any number of successive revalidations, by exactly the end-to-end headers of
      their 304s, the last exchange being the one of that instant (RFC 2616 sections 10.3.5
      and 13.5.3). */
  lemma Transparency(o: Origin, w: World, run: seq<Event>, out: Outcome) returns (t: CacheProvenance.History)
    requires WellBehaved(o) && IsRun(w, run) && IsPoliteRun(o, w, run)
    requires out in After(w, run).outcomes && out.Passed? && CacheableGet(out.req) && NoConditionals(out.req.header) && out.repliedAt.Some?
    ensures Shows(o.content(out.req.url, out.req.header, out.repliedAt.value), out.resp)
    ensures CacheProvenance.SameTargets(After(w, run).exchanges, out.req, t)
    ensures CacheProvenance.InOrder(t) && CacheProvenance.InstantOf(CacheProvenance.LastOf(t)) == out.repliedAt
    ensures forall key :: !CacheProvenance.IsMark(key) ==>
      CacheProvenance.CarriedLast(out.resp.header, CacheProvenance.ResponseOf(t.base).header, CacheProvenance.HeadersOf(t.updates), key)
  {
    AlwaysInv(o, w, run);
    PoliteIsSpaceFree(o, w, run);
    t := CacheProvenance.AnswerProvenance(w, run, out);
  }

  /** The headers returned after a 304 are the stored ones overridden by exactly its
      end-to-end headers, apart from the recorded Vary values (RFC 2616 section 13.5.3). */
  lemma RefreshedHeaders(lib: Library, cacheable: bool, sent: Request, e: Response, update: Response, now: int, key: string)
    requires sent.method_ == "GET" && update.status == 304 && !IsVaried(key)
    ensures var settlement := Settle(lib, sent, Some(e), Received(update), now);
      settlement.Proceed? && !settlement.purge &&
      var out := Returned(settlement.resp, Finish(cacheable, sent, settlement.resp)).header;
      if key in update.header && !IsHopByHop(update.header, key) then key in out && out[key] == update.header[key]
      else (key in out <==> key in e.header) && (key in out ==> out[key] == e.header[key])
  {
    var resp := Refresh(e, update);
    StampOther(resp.header, VaryNames(resp.header), sent.header, key);
  }

  /** What a stored response stands for: read to its end, it answers the same request from
      the store while it is fresh, whatever the network would say by then. */
  lemma ReusedWhileFresh(lib: Library, mark: bool, items: Items, req: Request, resp: Response,
                         net: Request -> Reply, now: int, later: int, net': Request -> Reply, now': int, later': int)
    requires CacheableGet(req) && CacheKey(req) !in items && "only-if-cached" !in Parse(req.header)
    requires net(req) == Received(resp) && CanStore(req.header, resp.header) && NoStamps(resp.header)
    ensures var first := RunTurn(lib, mark, items, req, net, now, later);
      first.items == items && first.streaming && first.reply.Received? &&
      var e := first.reply.resp;
      e.status == resp.status && e.body == resp.body &&
      var again := RunTurn(lib, mark, items[CacheKey(req) := e], req, net', now', later');
      GetFreshness(lib, Mark(e, mark).header, req.header, now') == Fresh ==>
        again == Turn(items[CacheKey(req) := e], Received(Mark(e, mark)), false)
  {
    var e := resp.(header := Stored(resp.header, req.header));
    assert RunTurn(lib, mark, items, req, net, now, later) == Turn(items, Received(e), true);
    SelectedAgain(resp.header, req.header, mark);
  }

  lemma SelectedAgain(h: Header, req: Header, mark: bool)
    requires NoStamps(h)
    ensures VaryMatches(Stored(h, req), req) && VaryMatches(Set(Stored(h, req), X_FROM_CACHE, "1"), req)
  {
    forall name | name in VaryNames(h) ensures VariedValue(h, Canonical(name)) == "" {
      VariedCanonical(name);
    }
    MatchesIff(h, req, req);
    MarkFacts(Stored(h, req));
    SameFactsMatch(Stored(h, req), Set(Stored(h, req), X_FROM_CACHE, "1"), req);
  }
}
