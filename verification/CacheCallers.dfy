/** Callers that send conditionals of their own: what they are given, what becomes of the
    entry they share with others, and exactly when no harm is done. */
module CacheCallers {
  import opened Options
  import opened Text
  import opened Headers
  import opened CacheControl
  import opened Freshness
  import opened Messages
  import opened RoundTrip
  import opened CacheRuns
  import opened CacheOrigin
  import opened CacheStories

  /** The caller gets the content of the instant of the reply, or a 304 that confirms its
      own copy. */
  predicate Faithful(o: Origin, out: Outcome)
    requires out.Passed? && out.repliedAt.Some?
  {
    var c := o.content(out.req.url, out.req.header, out.repliedAt.value);
    Shows(c, out.resp) || (out.resp.status == 304 && Confirms(c, out.req.header))
  }

  ghost predicate PassesOn(o: Origin, w: World, run: seq<Event>, r: Request, out: Outcome) {
    && WellBehaved(o) && IsRun(w, run) && IsPoliteRunBut(o, w, run, r)
    && out in After(w, run).outcomes && out.Passed? && out.req == r && out.repliedAt.Some?
  }

  ghost predicate AlwaysFaithful(w: World, r: Request) {
    forall o, run, out :: PassesOn(o, w, run, r, out) ==> Faithful(o, out)
  }

  /** A page that gets the caller's validators with its second version. */
  function Replaced(h: Header): Origin {
    Origin((u: string, other: Header, t: int) => ReplacedAt(h, t), (u: string) => [])
  }

  function ReplacedAt(h: Header, t: int): Content {
    if t < 1 then Content(200, [1], "", "") else Content(200, [2], Get(h, "if-none-match"), Get(h, "if-modified-since"))
  }

  lemma ReplacedWellBehaved(h: Header)
    ensures WellBehaved(Replaced(h))
  {
  }

  const NO_CACHE: Response := Response(200, Set(map[], "Cache-Control", "no-cache"), [1])

  lemma OnlyNoCache()
    ensures Get(NO_CACHE.header, "Cache-Control") == "no-cache" && Lines(NO_CACHE.header, "vary") == []
    ensures Get(NO_CACHE.header, "date") == Get(NO_CACHE.header, "etag") == Get(NO_CACHE.header, "last-modified") == ""
  {
    SetKeeps(map[], "Cache-Control", "no-cache", "vary");
    SetKeeps(map[], "Cache-Control", "no-cache", "date");
    SetKeeps(map[], "Cache-Control", "no-cache", "etag");
    SetKeeps(map[], "Cache-Control", "no-cache", "last-modified");
  }

  lemma NoCacheFacts()
    ensures Parse(NO_CACHE.header) == map["no-cache" := ""] && NoStamps(NO_CACHE.header) && VaryNames(NO_CACHE.header) == []
    ensures NoValidatorListed(NO_CACHE.header)
    ensures Get(NO_CACHE.header, "date") == Get(NO_CACHE.header, "etag") == Get(NO_CACHE.header, "last-modified") == ""
  {
    hide Canonical, Get, Lines, Parse, IsVaried;
    OnlyNoCache();
    NoCacheIsAWord();
    ParseWord(NO_CACHE.header, "no-cache");
    NotVaried("Cache-Control");
    assert Lower("Cache-Control"[0]) == 'c';
  }

  lemma NoCacheIsAWord()
    ensures "no-cache" != "" && ',' !in "no-cache" && '=' !in "no-cache" && Trimmed("no-cache", SPACE)
  {
  }

  lemma PlainRequestDeposits(o: Origin, w: World, r: Request, p: Request)
    requires SpaceFree(r) && p == Request("GET", r.url, map[]) && o == Replaced(r.header)
    ensures Deposits(w, p, NO_CACHE, 0) && Honest(o, w, p, NO_CACHE, 0)
  {
    hide Parse, VaryNames, Get, Canonical;
    NoCacheFacts();
    PlainHeader();
  }

  lemma NoCacheEntry(w: World, p: Request)
    ensures var e := Entry(w, p, NO_CACHE);
      VaryNames(e.header) == [] && Parse(e.header) == map["no-cache" := ""] && Get(e.header, "etag") == Get(e.header, "last-modified") == ""
  {
    NoCacheFacts();
    hide Parse, VaryNames, Get, Stored;
    EntryDirectives(w, p, NO_CACHE);
    EntryValidators(w, p, NO_CACHE);
    MarkFacts(Stored(NO_CACHE.header, p.header));
    StoredKeepsVary(NO_CACHE.header, p.header);
  }

  /** The entry asks to be revalidated and has nothing to do it with, so the caller's own
      validators go out as they are. */
  lemma GoesOutAsItIs(w: World, r: Request, p: Request, now: int)
    requires CacheableGet(r)
    ensures PlanFor(w.lib, r, Some(Entry(w, p, NO_CACHE)), now) == Forward(r)
  {
    hide Parse, VaryNames, Entry, Get;
    NoCacheEntry(w, p);
    assert AddValidators(Entry(w, p, NO_CACHE).header, r) == r;
  }

  lemma CallerIsSent(w: World, r: Request, p: Request, at: nat) returns (run: seq<Event>)
    requires CacheableGet(r) && SpaceFree(r) && p == Request("GET", r.url, map[])
    ensures Story(Replaced(r.header), w, r, run)
    ensures var s := After(w, run);
      s.now == at && s.calls == map[1 := Sent(r, r, Some(Entry(w, p, NO_CACHE)))] &&
      1 !in s.readers && 2 !in s.readers && s.items.Keys == {r.url}
  {
    hide Story, Honest, Deposits, Entry, NoConditionals, PlanFor, Stored, Replaced, Lookup, CacheableGet;
    var o := Replaced(r.header);
    PlainRequestDeposits(o, w, r, p);
    DepositsPlainly(w, p, NO_CACHE, 0);
    run := Deposited(o, w, r, p, NO_CACHE, 0);
    run := Waits(o, w, r, run, at);
    FindsEntry(w, After(w, run).items, p, r, NO_CACHE);
    GoesOutAsItIs(w, r, p, at);
    run := Sends(o, w, r, run, 1, r, r);
  }

  /** The run that fails: the origin confirms the caller's copy, and the caller gets the
      stored page instead. */
  lemma CallerIsMisled(w: World, r: Request) returns (run: seq<Event>, out: Outcome)
    requires CacheableGet(r) && SpaceFree(r) && !NoConditionals(r.header)
    ensures PassesOn(Replaced(r.header), w, run, r, out) && !Faithful(Replaced(r.header), out)
  {
    hide Honest, WellBehaved, Entry, NoConditionals, Finish, Settle, Refresh, Replaced, Faithful, Returned;
    var p := Request("GET", r.url, map[]);
    var merged := Refresh(Entry(w, p, NO_CACHE), NOT_MODIFIED);
    ReplacedWellBehaved(r.header);
    run := CallerIsSent(w, r, p, 1);
    ConfirmsCaller(w, r);
    IsAGet(r);
    SettlesMerged(w.lib, r, Entry(w, p, NO_CACHE), 1);
    run := Receives(Replaced(r.header), w, r, run, 1, NOT_MODIFIED, merged);
    out := Passed(r, Returned(merged, Finish(Cacheable(r), r, merged)), Some(1));
    MisledIsUnfaithful(w, r, p, out);
  }

  lemma IsAGet(r: Request)
    requires CacheableGet(r)
    ensures r.method_ == "GET"
  {
  }

  lemma MisledIsUnfaithful(w: World, r: Request, p: Request, out: Outcome)
    requires var resp := Refresh(Entry(w, p, NO_CACHE), NOT_MODIFIED);
      out == Passed(r, Returned(resp, Finish(Cacheable(r), r, resp)), Some(1))
    ensures !Faithful(Replaced(r.header), out)
  {
    hide Entry, Merge, Finish, Returned;
    EntryBody(w, p, NO_CACHE);
    ReturnedBytes(Cacheable(r), r, Refresh(Entry(w, p, NO_CACHE), NOT_MODIFIED));
    assert [1][0] != [2][0];
  }

  lemma ConfirmsCaller(w: World, r: Request)
    requires !NoConditionals(r.header)
    ensures Honest(Replaced(r.header), w, r, NOT_MODIFIED, 1)
  {
  }

  /** Exactly which callers revalidation is transparent to: if nobody else sends
      conditionals, every honest origin and every run are faithful to the request r if and
      only if r has no If-None-Match and no If-Modified-Since of its own. */
  lemma FaithfulIffNoConditionals(w: World, r: Request)
    requires CacheableGet(r) && SpaceFree(r)
    ensures AlwaysFaithful(w, r) <==> NoConditionals(r.header)
  {
    hide WellBehaved, Faithful, NoConditionals, Harmless;
    if NoConditionals(r.header) {
      forall o, run, out | PassesOn(o, w, run, r, out) ensures Faithful(o, out) {
        PlainHarmless(r.header);
        PoliteAnyway(o, w, run, r);
        var _ := Transparency(o, w, run, out);
        ShownIsFaithful(o, out);
      }
    } else {
      var run, out := CallerIsMisled(w, r);
    }
  }

  lemma ShownIsFaithful(o: Origin, out: Outcome)
    requires out.Passed? && out.repliedAt.Some?
    requires Shows(o.content(out.req.url, out.req.header, out.repliedAt.value), out.resp)
    ensures Faithful(o, out)
  {
  }

  lemma PlainHarmless(h: Header)
    requires NoConditionals(h)
    ensures Harmless(h)
  {
  }

  // ----- what a 304 for one caller does to the entry of all -----

  lemma NotFixed(name: string)
    requires |name| == 4 || |name| == 13 || (|name| == 7 && Lower(name[0]) != 'u')
    ensures Canonical(name) !in HOP_BY_HOP
  {
    CanonicalFolds(name);
  }

  /** Without Connection a 304 hands on its own headers and leaves the others alone. */
  lemma TakesOver(cached: Header, update: Header, name: string)
    requires Get(update, "connection") == "" && Canonical(name) !in HOP_BY_HOP
    ensures Canonical(name) in update ==>
      Get(Merge(cached, update), name) == Get(update, name) && Lines(Merge(cached, update), name) == Lines(update, name)
    ensures Canonical(name) !in update ==>
      Get(Merge(cached, update), name) == Get(cached, name) && Lines(Merge(cached, update), name) == Lines(cached, name)
  {
    assert Split("", ',') == [""] && Trim("", {' '}) == "";
  }

  lemma SetNoStamps(h: Header, name: string, value: string)
    requires NoStamps(h) && (|name| < 9 || Lower(name[0]) != 'x' || Lower(name[2]) != 'v')
    ensures NoStamps(Set(h, name, value))
  {
    NotVaried(name);
  }

  lemma EmptyHeader()
    ensures NoStamps(map[]) && forall name :: Get(map[], name) == "" && Lines(map[], name) == []
  {
  }

  /** The caller `r` gets a 304 at instant `at`, reads the answer to its end, and the merged
      page is stored. */
  lemma Poisons(w: World, r: Request, p: Request, update: Response, at: nat) returns (run: seq<Event>)
    requires CacheableGet(r) && SpaceFree(r) && p == Request("GET", r.url, map[]) && update.status == 304
    requires Honest(Replaced(r.header), w, r, update, at)
    requires var merged := Refresh(Entry(w, p, NO_CACHE), update); VaryNames(merged.header) == [] && CanStore(r.header, merged.header)
    ensures Story(Replaced(r.header), w, r, run)
    ensures var s := After(w, run);
      s.now == at && s.calls == map[] && 2 !in s.readers && s.items == map[r.url := Refresh(Entry(w, p, NO_CACHE), update)]
  {
    hide Story, Honest, Entry, Replaced, SpaceFree, CanStore, Refresh, Settle, Finish;
    var o, merged := Replaced(r.header), Refresh(Entry(w, p, NO_CACHE), update);
    run := CallerIsSent(w, r, p, at);
    IsAGet(r);
    SettlesUpdate(w.lib, r, Entry(w, p, NO_CACHE), update, at);
    FinishesMerged(r, merged);
    run := Receives(o, w, r, run, 1, update, merged);
    run := ReadsOut(o, w, r, run, 1);
  }

  lemma SettlesUpdate(lib: Library, sent: Request, e: Response, update: Response, now: int)
    requires sent.method_ == "GET" && update.status == 304
    ensures Settle(lib, sent, Some(e), Received(update), now) == Proceed(Refresh(e, update), false)
  {
  }

  lemma FinishesMerged(r: Request, merged: Response)
    requires CacheableGet(r) && VaryNames(merged.header) == [] && CanStore(r.header, merged.header)
    ensures Finish(Cacheable(r), r, merged) == Streaming(merged) && CacheKey(r) == r.url
  {
    hide CanStore, VaryNames;
    assert Stored(merged.header, r.header) == merged.header;
  }

  // ----- others that are revalidated -----

  ghost predicate PassesOthers(o: Origin, w: World, run: seq<Event>, r: Request, out: Outcome) {
    && WellBehaved(o) && IsRun(w, run) && IsPoliteRunBut(o, w, run, r)
    && out in After(w, run).outcomes && out.Passed? && out.repliedAt.Some?
    && CacheableGet(out.req) && NoConditionals(out.req.header)
  }

  /** Whatever `r` does, callers without conditionals get the content of the instant. */
  ghost predicate SparesOthers(w: World, r: Request) {
    forall o, run, out :: PassesOthers(o, w, run, r, out) ==> Shows(o.content(out.req.url, out.req.header, out.repliedAt.value), out.resp)
  }

  /** The 304 that carries the validators of the new version. */
  function Tagged(h: Header): Response {
    Response(304, Set(Set(map[], "etag", Get(h, "if-none-match")), "last-modified", Get(h, "if-modified-since")), [])
  }

  lemma TaggedFacts(h: Header)
    ensures var u := Tagged(h).header;
      && Get(u, "etag") == Get(h, "if-none-match") && Get(u, "last-modified") == Get(h, "if-modified-since")
      && Get(u, "connection") == "" && Get(u, "date") == "" && NoStamps(u)
      && Canonical("etag") in u && Canonical("last-modified") in u && Canonical("vary") !in u && Canonical("Cache-Control") !in u
  {
    hide Get, Set, Lines, Canonical, NoStamps;
    var etag, lastModified := Get(h, "if-none-match"), Get(h, "if-modified-since");
    var e := Set(map[], "etag", etag);
    EmptyHeader();
    SetGives(map[], "etag", etag);
    SetGives(e, "last-modified", lastModified);
    SetKeeps(e, "last-modified", lastModified, "etag");
    TaggedLacks(e, etag, lastModified, "connection");
    TaggedLacks(e, etag, lastModified, "date");
    TaggedLacks(e, etag, lastModified, "vary");
    TaggedLacks(e, etag, lastModified, "Cache-Control");
    SetNoStamps(map[], "etag", etag);
    SetNoStamps(e, "last-modified", lastModified);
  }

  lemma TaggedLacks(e: Header, etag: string, lastModified: string, name: string)
    requires e == Set(map[], "etag", etag) && Apart("etag", name) && Apart("last-modified", name)
    ensures Get(Set(e, "last-modified", lastModified), name) == "" && Canonical(name) !in Set(e, "last-modified", lastModified)
  {
    hide Get, Set, Lines, Canonical;
    EmptyHeader();
    SetKeeps(map[], "etag", etag, name);
    SetKeeps(e, "last-modified", lastModified, name);
  }

  lemma TaggedMerge(w: World, p: Request, h: Header)
    ensures var m := Refresh(Entry(w, p, NO_CACHE), Tagged(h)).header;
      && VaryNames(m) == [] && Parse(m) == map["no-cache" := ""]
      && Get(m, "etag") == Get(h, "if-none-match") && Get(m, "last-modified") == Get(h, "if-modified-since")
  {
    hide Canonical, Get, Lines, Merge, Parse, Entry, Tagged;
    NoCacheEntry(w, p);
    TaggedFacts(h);
    NotFixed("etag");
    NotFixed("last-modified");
    NotFixed("vary");
    NotFixed("Cache-Control");
    var e, u := Entry(w, p, NO_CACHE).header, Tagged(h).header;
    TakesOver(e, u, "etag");
    TakesOver(e, u, "last-modified");
    TakesOver(e, u, "vary");
    TakesOver(e, u, "Cache-Control");
    SameLine(e, Merge(e, u));
  }

  lemma SameLine(a: Header, b: Header)
    requires Get(a, "Cache-Control") == Get(b, "Cache-Control")
    ensures Parse(a) == Parse(b)
  {
  }

  lemma TaggedHonest(w: World, r: Request, at: nat)
    requires !NoConditionals(r.header) && at >= 1
    ensures Honest(Replaced(r.header), w, r, Tagged(r.header), at)
  {
    hide Get, NoStamps, Set, Canonical;
    TaggedFacts(r.header);
  }

  /** What another caller finds: the old page with the validators of the new version. */
  lemma OtherFinds(w: World, r: Request, p: Request)
    ensures var e := Mark(Refresh(Entry(w, p, NO_CACHE), Tagged(r.header)), w.mark);
      && VaryNames(e.header) == [] && Parse(e.header) == map["no-cache" := ""]
      && Get(e.header, "etag") == Get(r.header, "if-none-match") && Get(e.header, "last-modified") == Get(r.header, "if-modified-since")
  {
    hide Canonical, Get, Entry, Tagged, Refresh, Parse, Set, VaryNames;
    var m := Refresh(Entry(w, p, NO_CACHE), Tagged(r.header));
    TaggedMerge(w, p, r.header);
    MarkFacts(m.header);
    MarkKeeps(m.header, "Cache-Control");
    SameLine(m.header, Mark(m, w.mark).header);
  }

  /** It asks whether the new version is current, and it is. */
  lemma OtherRevalidates(w: World, r: Request, p: Request, e: Response, now: nat)
    requires !NoConditionals(r.header) && p == Request("GET", r.url, map[]) && now >= 1
    requires VaryNames(e.header) == [] && Parse(e.header) == map["no-cache" := ""]
    requires Get(e.header, "etag") == Get(r.header, "if-none-match") && Get(e.header, "last-modified") == Get(r.header, "if-modified-since")
    ensures var sent := AddValidators(e.header, p);
      && PlanFor(w.lib, p, Some(e), now) == Forward(sent) && sent.method_ == "GET"
      && Honest(Replaced(r.header), w, sent, NOT_MODIFIED, now)
  {
    hide Canonical, Get, Parse, Set, VaryNames, AddValidators, IsValidator;
    PlainHeader();
    AddedValidators(e.header, p, "");
    NothingHonest(w);
  }

  lemma NothingHonest(w: World)
    ensures NoStamps(NOT_MODIFIED.header) && Dated(w.lib, NOT_MODIFIED.header, 0) && Canonical("vary") !in NOT_MODIFIED.header
  {
  }

  lemma Finds(w: World, items: Items, p: Request, merged: Response)
    requires CacheableGet(p) && items == map[p.url := merged]
    ensures Lookup(items, p, w.mark) == Some(Mark(merged, w.mark))
  {
  }

  lemma OtherIsSent(w: World, r: Request, p: Request) returns (run: seq<Event>)
    requires CacheableGet(r) && SpaceFree(r) && !Harmless(r.header) && p == Request("GET", r.url, map[])
    ensures Story(Replaced(r.header), w, r, run)
    ensures var s := After(w, run); var e := Mark(Refresh(Entry(w, p, NO_CACHE), Tagged(r.header)), w.mark);
      && s.now == 1 && s.calls == map[2 := Sent(p, AddValidators(e.header, p), Some(e))]
      && AddValidators(e.header, p).method_ == "GET"
      && Honest(Replaced(r.header), w, AddValidators(e.header, p), NOT_MODIFIED, 1)
  {
    hide Honest, Entry, NoConditionals, Refresh, Replaced, Parse, PlanFor, AddValidators, Mark, VaryNames, Lookup, CacheableGet, Get;
    var merged := Refresh(Entry(w, p, NO_CACHE), Tagged(r.header));
    TaggedHonest(w, r, 1);
    TaggedMerge(w, p, r.header);
    run := Poisons(w, r, p, Tagged(r.header), 1);
    OtherFinds(w, r, p);
    OtherRevalidates(w, r, p, Mark(merged, w.mark), 1);
    PlainRequest(p);
    Finds(w, After(w, run).items, p, merged);
    run := Sends(Replaced(r.header), w, r, run, 2, p, AddValidators(Mark(merged, w.mark).header, p));
  }

  /** The run that fails: the origin confirms the new version to a plain request, which gets
      the old one. */
  lemma OthersAreMisled(w: World, r: Request) returns (run: seq<Event>, out: Outcome)
    requires CacheableGet(r) && SpaceFree(r) && !Harmless(r.header)
    ensures PassesOthers(Replaced(r.header), w, run, r, out)
    ensures !Shows(Replaced(r.header).content(out.req.url, out.req.header, out.repliedAt.value), out.resp)
  {
    hide Honest, WellBehaved, Entry, NoConditionals, Finish, Settle, Refresh, Replaced, Returned, AddValidators, Tagged, SpaceFree, Mark, Shows, CacheableGet;
    var o, p := Replaced(r.header), Request("GET", r.url, map[]);
    var e := Mark(Refresh(Entry(w, p, NO_CACHE), Tagged(r.header)), w.mark);
    var sent := AddValidators(e.header, p);
    ReplacedWellBehaved(r.header);
    run := OtherIsSent(w, r, p);
    SettlesMerged(w.lib, sent, e, 1);
    run := Receives(o, w, r, run, 2, NOT_MODIFIED, Refresh(e, NOT_MODIFIED));
    out := Passed(p, Returned(Refresh(e, NOT_MODIFIED), Finish(Cacheable(p), sent, Refresh(e, NOT_MODIFIED))), Some(1));
    PlainRequest(p);
    OldPage(w, r, p, sent, Tagged(r.header), out);
  }

  lemma PlainRequest(p: Request)
    requires p.method_ == "GET" && p.header == map[]
    ensures CacheableGet(p) && Harmless(p.header) && NoConditionals(p.header)
  {
    PlainHeader();
  }

  lemma OldPage(w: World, r: Request, p: Request, sent: Request, update: Response, out: Outcome)
    requires var resp := Refresh(Mark(Refresh(Entry(w, p, NO_CACHE), update), w.mark), NOT_MODIFIED);
      out == Passed(p, Returned(resp, Finish(Cacheable(p), sent, resp)), Some(1))
    ensures !Shows(Replaced(r.header).content(out.req.url, out.req.header, 1), out.resp)
  {
    hide Entry, Merge, Finish, Returned;
    EntryBody(w, p, NO_CACHE);
    ReturnedBytes(Cacheable(p), sent, Refresh(Mark(Refresh(Entry(w, p, NO_CACHE), update), w.mark), NOT_MODIFIED));
    assert [1][0] != [2][0];
  }

  /** Exactly whose conditionals spare the others: every caller without conditionals gets
      the content of the instant of the reply, in all runs over all well-behaved origins in
      which only r may do harm, if and only if r has no conditionals or a no-store that the
      code reads, so that its answer is never stored. */
  lemma SparesOthersIffHarmless(w: World, r: Request)
    requires CacheableGet(r) && SpaceFree(r)
    ensures SparesOthers(w, r) <==> Harmless(r.header)
  {
    hide WellBehaved, Shows, NoConditionals, Harmless;
    if Harmless(r.header) {
      forall o, run, out | PassesOthers(o, w, run, r, out)
        ensures Shows(o.content(out.req.url, out.req.header, out.repliedAt.value), out.resp)
      {
        PoliteAnyway(o, w, run, r);
        var _ := Transparency(o, w, run, out);
      }
    } else {
      var run, out := OthersAreMisled(w, r);
    }
  }

  // ----- others that are answered from the store -----

  ghost predicate HitsAnyone(o: Origin, w: World, run: seq<Event>, r: Request, out: Outcome) {
    && WellBehaved(o) && IsRun(w, run) && IsPoliteRunBut(o, w, run, r)
    && out in After(w, run).outcomes && out.Hit? && CacheableGet(out.req) && Ordinary(w.lib, out.req.header)
    && Fits(w.lib, FactsOf(w.lib, out.entry.header, out.req.header), out.now)
  }

  /** The content of an instant that is as recent as the directives ask. */
  ghost predicate BoundedHit(o: Origin, w: World, out: Outcome)
    requires out.Hit?
  {
    exists g :: g <= out.now && Shows(o.content(out.req.url, out.req.header, g), out.entry) && RecentEnough(w, out, g)
  }

  predicate RecentEnough(w: World, out: Outcome, g: int)
    requires out.Hit?
  {
    var f := FactsOf(w.lib, out.entry.header, out.req.header);
    f.date.Some? &&
    out.now - g < Lifetime(w.lib, f, f.date.value) + Allowance(w.lib, f.req, "max-stale") - Allowance(w.lib, f.req, "min-fresh")
  }

  /** Whatever `r` does, every answer from the store keeps the bound. */
  ghost predicate KeepsHitsBounded(r: Request) {
    forall o, w, run, out :: HitsAnyone(o, w, run, r, out) ==> BoundedHit(o, w, out)
  }

  /** Dates are read as instant 100, other texts as instant 105. */
  function Centuries(): World {
    World(Library((text: string) => None, (text: string) => if text == "d" then Some(100) else Some(105)), false)
  }

  const RENEWED: Response := Response(304, Set(Set(Set(map[], "date", "d"), "Expires", "x"), "Cache-Control", "public"), [])

  lemma RenewedFacts()
    ensures var u := RENEWED.header;
      && Get(u, "date") == "d" && Get(u, "Expires") == "x" && Get(u, "Cache-Control") == "public"
      && Get(u, "connection") == Get(u, "etag") == Get(u, "last-modified") == "" && NoStamps(u)
      && Canonical("date") in u && Canonical("Expires") in u && Canonical("Cache-Control") in u && Canonical("vary") !in u
  {
    hide Get, Set, Lines, Canonical, NoStamps;
    var h1 := Set(map[], "date", "d");
    var h2 := Set(h1, "Expires", "x");
    EmptyHeader();
    SetGives(map[], "date", "d");
    SetGives(h1, "Expires", "x");
    SetGives(h2, "Cache-Control", "public");
    SetKeeps(h2, "Cache-Control", "public", "date");
    SetKeeps(h2, "Cache-Control", "public", "Expires");
    SetKeeps(h1, "Expires", "x", "date");
    RenewedLacks(h1, h2, "connection");
    RenewedLacks(h1, h2, "etag");
    RenewedLacks(h1, h2, "last-modified");
    RenewedLacks(h1, h2, "vary");
    SetNoStamps(map[], "date", "d");
    SetNoStamps(h1, "Expires", "x");
    SetNoStamps(h2, "Cache-Control", "public");
  }

  lemma RenewedLacks(h1: Header, h2: Header, name: string)
    requires h1 == Set(map[], "date", "d") && h2 == Set(h1, "Expires", "x")
    requires Apart("date", name) && Apart("Expires", name) && Apart("Cache-Control", name)
    ensures Get(Set(h2, "Cache-Control", "public"), name) == "" && Canonical(name) !in Set(h2, "Cache-Control", "public")
  {
    hide Get, Set, Lines, Canonical;
    EmptyHeader();
    SetKeeps(map[], "date", "d", name);
    SetKeeps(h1, "Expires", "x", name);
    SetKeeps(h2, "Cache-Control", "public", name);
  }

  lemma RenewedMerge(p: Request)
    ensures var m := Refresh(Entry(Centuries(), p, NO_CACHE), RENEWED).header;
      VaryNames(m) == [] && Parse(m) == map["public" := ""] && Get(m, "date") == "d" && Get(m, "Expires") == "x"
  {
    hide Canonical, Get, Lines, Merge, Parse, Entry, Set, Centuries;
    NoCacheEntry(Centuries(), p);
    RenewedFacts();
    NotFixed("date");
    NotFixed("Expires");
    NotFixed("vary");
    NotFixed("Cache-Control");
    var e, u := Entry(Centuries(), p, NO_CACHE).header, RENEWED.header;
    TakesOver(e, u, "date");
    TakesOver(e, u, "Expires");
    TakesOver(e, u, "vary");
    TakesOver(e, u, "Cache-Control");
    PublicIsAWord();
    ParseWord(Merge(e, u), "public");
  }

  lemma PublicIsAWord()
    ensures "public" != "" && ',' !in "public" && '=' !in "public" && Trimmed("public", SPACE)
  {
  }

  lemma RenewedHonest(r: Request)
    requires !NoConditionals(r.header)
    ensures Honest(Replaced(r.header), Centuries(), r, RENEWED, 100)
  {
    hide Get, NoStamps, Set, Canonical;
    RenewedFacts();
  }

  /** The merged page is as good as new by its Date, and fresh. */
  lemma OtherHits(p: Request)
    requires p.header == map[]
    ensures var w := Centuries(); var e := Refresh(Entry(w, p, NO_CACHE), RENEWED);
      PlanFor(w.lib, p, Some(e), 101) == Answer(e)
    ensures var w := Centuries(); var e := Refresh(Entry(w, p, NO_CACHE), RENEWED); var f := FactsOf(w.lib, e.header, p.header);
      Ordinary(w.lib, p.header) && Fits(w.lib, f, 101) && f.req == map[] && f.date == Some(100) && Lifetime(w.lib, f, 100) == 5
  {
    hide Canonical, Get, Entry, Refresh, Parse, Set, VaryNames;
    RenewedMerge(p);
    PlainHeader();
  }

  /** The renewed old page is in the store at instant 101. */
  lemma Renewed(r: Request, p: Request) returns (run: seq<Event>)
    requires CacheableGet(r) && SpaceFree(r) && !Harmless(r.header) && p == Request("GET", r.url, map[])
    ensures Story(Replaced(r.header), Centuries(), r, run)
    ensures var s := After(Centuries(), run);
      s.now == 101 && s.calls == map[] && 2 !in s.readers && s.items == map[r.url := Refresh(Entry(Centuries(), p, NO_CACHE), RENEWED)]
  {
    hide Honest, Entry, NoConditionals, Refresh, Replaced, Parse, VaryNames, CacheableGet, Centuries, Get;
    RenewedHonest(r);
    RenewedMerge(p);
    run := Poisons(Centuries(), r, p, RENEWED, 100);
    run := Waits(Replaced(r.header), Centuries(), r, run, 1);
  }

  /** The run that fails: a plain request is answered with a page that went away 100
      instants ago, as fresh for 5. */
  lemma OthersAreOutdated(r: Request) returns (run: seq<Event>, out: Outcome)
    requires CacheableGet(r) && SpaceFree(r) && !Harmless(r.header)
    ensures HitsAnyone(Replaced(r.header), Centuries(), run, r, out) && !BoundedHit(Replaced(r.header), Centuries(), out)
  {
    hide WellBehaved, Entry, NoConditionals, Refresh, Replaced, Parse, PlanFor, Lifetime, FactsOf, Fits, Ordinary, BoundedHit, Lookup, CacheableGet, Centuries, Mark;
    var p := Request("GET", r.url, map[]);
    var e := Refresh(Entry(Centuries(), p, NO_CACHE), RENEWED);
    ReplacedWellBehaved(r.header);
    run := Renewed(r, p);
    OtherHits(p);
    PlainRequest(p);
    Finds(Centuries(), After(Centuries(), run).items, p, e);
    Unmarked(e);
    run := Hits(Replaced(r.header), Centuries(), r, run, 2, p, e);
    out := Hit(p, e, 101);
    Outdated(r, p, out);
  }

  lemma Unmarked(e: Response)
    ensures Mark(e, Centuries().mark) == e
  {
  }

  lemma Outdated(r: Request, p: Request, out: Outcome)
    requires p.header == map[] && out == Hit(p, Refresh(Entry(Centuries(), p, NO_CACHE), RENEWED), 101)
    ensures !BoundedHit(Replaced(r.header), Centuries(), out)
  {
    hide Entry, Merge, FactsOf, Lifetime, Fits, Ordinary, PlanFor;
    OtherHits(p);
    EntryBody(Centuries(), p, NO_CACHE);
    assert [1][0] != [2][0];
  }

  /** Exactly whose conditionals leave the bound of every answer from the store alone, in all
      worlds: those of a caller that has none, or a no-store that the code reads. */
  lemma KeepsHitsBoundedIffHarmless(r: Request)
    requires CacheableGet(r) && SpaceFree(r)
    ensures KeepsHitsBounded(r) <==> Harmless(r.header)
  {
    hide WellBehaved, Shows, Harmless, Ordinary, Fits, RecentEnough;
    if Harmless(r.header) {
      forall o, w, run, out | HitsAnyone(o, w, run, r, out) ensures BoundedHit(o, w, out) {
        PoliteAnyway(o, w, run, r);
        HitIsRecent(o, w, run, out);
      }
    } else {
      var run, out := OthersAreOutdated(r);
    }
  }

  lemma HitIsRecent(o: Origin, w: World, run: seq<Event>, out: Outcome)
    requires WellBehaved(o) && IsRun(w, run) && IsPoliteRun(o, w, run)
    requires out in After(w, run).outcomes && out.Hit? && CacheableGet(out.req) && Ordinary(w.lib, out.req.header)
    requires Fits(w.lib, FactsOf(w.lib, out.entry.header, out.req.header), out.now)
    ensures BoundedHit(o, w, out)
  {
    var g := BoundedStaleness(o, w, run, out);
    assert RecentEnough(w, out, g);
  }

  // ----- the caller's own validator -----

  const TAGGED_NO_CACHE: Response := Response(200, Set(Set(map[], "Cache-Control", "no-cache"), "etag", "v1"), [1])

  /** An input for the replaced validator: the caller asks about v2, and v1 is asked about. */
  lemma CallersTagIsReplaced(lib: Library, now: int)
    ensures var req := Request("GET", "u", Set(map[], "if-none-match", "v2")); var plan := PlanFor(lib, req, Some(TAGGED_NO_CACHE), now);
      plan.Forward? && Get(plan.sent.header, "if-none-match") == "v1"
  {
    hide Canonical, Get, Lines, Parse, Set, AddValidators;
    var req, h := Request("GET", "u", Set(map[], "if-none-match", "v2")), Set(map[], "Cache-Control", "no-cache");
    var e := TAGGED_NO_CACHE;
    EmptyHeader();
    SetGives(map[], "Cache-Control", "no-cache");
    SetGives(h, "etag", "v1");
    SetKeeps(h, "etag", "v1", "Cache-Control");
    SetKeeps(h, "etag", "v1", "vary");
    SetKeeps(map[], "Cache-Control", "no-cache", "vary");
    SetKeeps(map[], "if-none-match", "v2", "Cache-Control");
    SetKeeps(map[], "if-none-match", "v2", "etag");
    NoCacheIsAWord();
    ParseWord(e.header, "no-cache");
    ParseNothing(req.header);
    AddedValidators(e.header, req, "");
  }
}
