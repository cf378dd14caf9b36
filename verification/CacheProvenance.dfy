/** Where stored entries and answers come from, over every run and for every origin. */
module CacheProvenance {
  import opened Options
  import opened Headers
  import opened CacheControl
  import opened Freshness
  import opened Messages
  import opened RoundTrip
  import opened CacheRuns

  function ResponseOf(x: Exchange): Response {
    match x case Network(_, resp, _) => resp case Local(_) => GATEWAY_TIMEOUT
  }

  function InstantOf(x: Exchange): Option<int> {
    match x case Network(_, _, at) => Some(at) case Local(_) => None
  }

  /** A 504 is only made here for a request that wants nothing but a cached answer. */
  predicate Genuine(x: Exchange) {
    x.Local? ==> "only-if-cached" in Parse(x.sent.header)
  }

  // ----- headers, leaving aside the ones the transport adds -----

  predicate IsMark(key: string) {
    IsVaried(key) || key == Canonical(X_FROM_CACHE)
  }

  ghost predicate SameButMarks(a: Header, b: Header) {
    forall k :: !IsMark(k) ==> (k in a <==> k in b) && (k in a ==> a[k] == b[k])
  }

  lemma SameMarked(a: Header, b: Header)
    requires SameButMarks(a, b)
    ensures SameButMarks(Set(a, X_FROM_CACHE, "1"), b)
  {
  }

  lemma SameStamped(a: Header, b: Header, req: Header)
    requires SameButMarks(a, b)
    ensures SameButMarks(Stored(a, req), b)
  {
    forall k | !IsMark(k) ensures (k in Stored(a, req) <==> k in a) && (k in a ==> Stored(a, req)[k] == a[k]) {
      StampOther(a, VaryNames(a), req, k);
    }
  }

  lemma SameMerged(a: Header, b: Header, update: Header)
    requires SameButMarks(a, b)
    ensures SameButMarks(Merge(a, update), Merge(b, update))
  {
  }

  /** The transport's own headers say nothing about caching. */
  lemma SameDirectives(a: Header, b: Header)
    requires SameButMarks(a, b)
    ensures Parse(a) == Parse(b)
  {
    NotVaried("Cache-Control");
    CanonicalFolds("Cache-Control");
    CanonicalFolds(X_FROM_CACHE);
    assert !IsMark(Canonical("Cache-Control"));
  }

  // ----- the history of a response -----

  /** A first exchange and the 304s that have been merged into its response, in order. */
  datatype History = History(base: Exchange, updates: seq<Exchange>)

  function HeadersOf(updates: seq<Exchange>): (hs: seq<Header>)
    ensures |hs| == |updates|
  {
    seq(|updates|, i requires 0 <= i < |updates| => ResponseOf(updates[i]).header)
  }

  function HeaderOf(t: History): Header {
    MergeAll(ResponseOf(t.base).header, HeadersOf(t.updates))
  }

  function LastOf(t: History): Exchange {
    if t.updates == [] then t.base else t.updates[|t.updates| - 1]
  }

  function Earlier(t: History): History
    requires t.updates != []
  {
    t.(updates := t.updates[..|t.updates| - 1])
  }

  predicate IsUpdate(x: Exchange, key: string) {
    SpaceFree(x.sent) && CacheKey(x.sent) == key && x.sent.method_ == "GET" && x.Network? && x.resp.status == 304
  }

  /** All of it was exchanged, for that key. */
  predicate Happened(xs: set<Exchange>, key: string, t: History) {
    && t.base in xs && SpaceFree(t.base.sent) && CacheKey(t.base.sent) == key && Genuine(t.base)
    && forall i :: 0 <= i < |t.updates| ==> t.updates[i] in xs && IsUpdate(t.updates[i], key)
  }

  /** `e` has the status and the whole body of the first exchange, and its headers
      overridden by the end-to-end headers of the 304s. */
  ghost predicate Tells(t: History, e: Response) {
    ResponseOf(t.base).status == e.status && ResponseOf(t.base).body == e.body && SameButMarks(e.header, HeaderOf(t))
  }

  /** The exchange was made by then; one made here has no instant. */
  predicate MadeBy(x: Exchange, until: int) {
    InstantOf(x).Some? ==> InstantOf(x).value <= until
  }

  /** Every 304 came no earlier than what it was merged into. */
  predicate InOrder(t: History) {
    forall i :: 0 <= i < |t.updates| ==> CameLater(t, i)
  }

  predicate CameLater(t: History, i: nat)
    requires i < |t.updates|
  {
    t.updates[i].Network? && MadeBy(if i == 0 then t.base else t.updates[i - 1], t.updates[i].at)
  }

  /** Every version was allowed to be stored. */
  predicate Permitted(t: History)
    decreases |t.updates|
  {
    CanStore(LastOf(t).sent.header, HeaderOf(t)) && (t.updates != [] ==> Permitted(Earlier(t)))
  }

  /** What may be stored under `key` at the instant `until`. */
  ghost predicate Originated(xs: set<Exchange>, key: string, e: Response, until: int) {
    exists t :: Happened(xs, key, t) && Tells(t, e) && Permitted(t) && Dates(t, until)
  }

  predicate Dates(t: History, until: int) {
    InOrder(t) && MadeBy(LastOf(t), until)
  }

  /** A response a call is about to pass on, after an exchange it made at `at`. */
  ghost predicate Obtained(xs: set<Exchange>, sent: Request, at: Option<int>, resp: Response) {
    exists t :: Happened(xs, CacheKey(sent), t) && Tells(t, resp) && Fetched(t, sent, at)
  }

  predicate Fetched(t: History, sent: Request, at: Option<int>) {
    InOrder(t) && LastOf(t).sent == sent && InstantOf(LastOf(t)) == at && (t.updates != [] ==> Permitted(Earlier(t)))
  }

  /** What a caller was given for `req` after an exchange made at `at`. */
  ghost predicate Given(xs: set<Exchange>, req: Request, at: Option<int>, resp: Response) {
    exists t :: Happened(xs, CacheKey(req), t) && Tells(t, resp) && Ends(t, at)
  }

  predicate Ends(t: History, at: Option<int>) {
    InOrder(t) && InstantOf(LastOf(t)) == at
  }

  // ----- the invariant -----

  ghost predicate CachedOk(xs: set<Exchange>, req: Request, cached: Option<Response>, until: int) {
    cached.Some? ==> Cacheable(req) && Originated(xs, CacheKey(req), cached.value, until)
  }

  ghost predicate CallOk(xs: set<Exchange>, c: Call, now: int) {
    && SpaceFree(c.req)
    && (!c.Looked? ==> SameTarget(c.req, c.sent))
    && (!c.Settled? ==> CachedOk(xs, c.req, c.cached, if c.Replied? then c.at else now))
    && (c.Replied? ==> c.at <= now && (c.reply.Received? ==> Network(c.sent, c.reply.resp, c.at) in xs))
    && (c.Settled? ==> Obtained(xs, c.sent, c.repliedAt, c.resp) && (c.repliedAt.Some? ==> c.repliedAt.value <= now))
  }

  /** A reader has lost nothing of a body that may be stored. */
  ghost predicate ReaderOk(xs: set<Exchange>, r: Reader, now: int) {
    r.buf + r.unread == r.head.body && Originated(xs, r.key, r.head, now)
  }

  ghost predicate OutcomeOk(xs: set<Exchange>, out: Outcome) {
    && SpaceFree(out.req)
    && match out
       case Hit(req, e, t) => Originated(xs, CacheKey(req), e, t)
       case FellBack(req, _, e, t) => Originated(xs, CacheKey(req), e, t)
       case Passed(req, resp, at) => Given(xs, req, at, resp)
       case Errored(_) => true
  }

  ghost predicate Inv(s: State) {
    && (forall k :: k in s.items ==> Originated(s.exchanges, k, s.items[k], s.now))
    && (forall id :: id in s.calls ==> CallOk(s.exchanges, s.calls[id], s.now))
    && (forall id :: id in s.readers ==> ReaderOk(s.exchanges, s.readers[id], s.now))
    && (forall out :: out in s.outcomes ==> OutcomeOk(s.exchanges, out))
  }

  lemma OriginatedGrows(xs: set<Exchange>, more: set<Exchange>, key: string, e: Response, until: int, later: int)
    requires Originated(xs, key, e, until) && xs <= more && until <= later
    ensures Originated(more, key, e, later)
  {
    hide Tells, Permitted;
    var t :| Happened(xs, key, t) && Tells(t, e) && Permitted(t) && Dates(t, until);
    assert Happened(more, key, t) && Dates(t, later);
  }

  lemma CallGrows(xs: set<Exchange>, more: set<Exchange>, c: Call, now: int, later: int)
    requires CallOk(xs, c, now) && xs <= more && now <= later
    ensures CallOk(more, c, later)
  {
    hide Tells, Fetched, Originated;
    if !c.Settled? {
      if c.cached.Some? {
        OriginatedGrows(xs, more, CacheKey(c.req), c.cached.value, if c.Replied? then c.at else now, if c.Replied? then c.at else later);
      }
    } else {
      var t :| Happened(xs, CacheKey(c.sent), t) && Tells(t, c.resp) && Fetched(t, c.sent, c.repliedAt);
      assert Happened(more, CacheKey(c.sent), t);
    }
  }

  lemma OutcomeGrows(xs: set<Exchange>, more: set<Exchange>, out: Outcome)
    requires OutcomeOk(xs, out) && xs <= more
    ensures OutcomeOk(more, out)
  {
    hide Tells, Originated, Ends;
    match out
    case Hit(req, e, t) => OriginatedGrows(xs, more, CacheKey(req), e, t, t);
    case FellBack(req, _, e, t) => OriginatedGrows(xs, more, CacheKey(req), e, t, t);
    case Passed(req, resp, at) =>
      var t :| Happened(xs, CacheKey(req), t) && Tells(t, resp) && Ends(t, at);
      assert Happened(more, CacheKey(req), t);
    case Errored(_) =>
  }

  /** Time goes on and exchanges are added. */
  lemma InvGrows(s: State, more: set<Exchange>, later: int)
    requires Inv(s) && s.exchanges <= more && s.now <= later
    ensures Inv(s.(exchanges := more, now := later))
  {
    hide Originated, CallOk, OutcomeOk;
    forall key, e | Originated(s.exchanges, key, e, s.now) ensures Originated(more, key, e, later) {
      OriginatedGrows(s.exchanges, more, key, e, s.now, later);
    }
    forall id | id in s.calls ensures CallOk(more, s.calls[id], later) {
      CallGrows(s.exchanges, more, s.calls[id], s.now, later);
    }
    forall out | out in s.outcomes ensures OutcomeOk(more, out) {
      OutcomeGrows(s.exchanges, more, out);
    }
  }

  lemma KeepsCall(s: State, id: nat, c: Call, xs: set<Exchange>)
    requires Inv(s) && s.exchanges <= xs && CallOk(xs, c, s.now)
    ensures Inv(s.(calls := s.calls[id := c], exchanges := xs))
  {
    hide Originated, CallOk, OutcomeOk, ReaderOk;
    InvGrows(s, xs, s.now);
  }

  lemma KeepsLog(s: State, id: nat, out: Outcome)
    requires Inv(s) && OutcomeOk(s.exchanges, out)
    ensures Inv(Log(s, id, out))
  {
    hide Originated, CallOk, OutcomeOk, ReaderOk;
  }

  lemma KeepsPurge(s: State, key: string, purge: bool)
    requires Inv(s)
    ensures Inv(s.(items := Purge(s.items, key, purge)))
  {
    hide Originated, CallOk, OutcomeOk, ReaderOk;
  }

  lemma MarkedOriginated(xs: set<Exchange>, key: string, e: Response, mark: bool, until: int)
    requires Originated(xs, key, e, until)
    ensures Originated(xs, key, Mark(e, mark), until)
  {
    hide Happened, Permitted, HeaderOf, SameButMarks, Dates;
    var t :| Happened(xs, key, t) && Tells(t, e) && Permitted(t) && Dates(t, until);
    SameMarked(e.header, HeaderOf(t));
    assert Tells(t, Mark(e, mark));
  }

  lemma KeepsBegin(w: World, s: State, id: nat, req: Request)
    requires Inv(s) && SpaceFree(req)
    ensures Inv(StepBegin(w, s, id, req))
  {
    hide Originated, OutcomeOk, ReaderOk, Mark;
    if Cacheable(req) && CacheKey(req) in s.items {
      MarkedOriginated(s.exchanges, CacheKey(req), s.items[CacheKey(req)], w.mark, s.now);
    }
    KeepsCall(s.(items := Invalidate(s.items, req)), id, Looked(req, Lookup(s.items, req, w.mark)), s.exchanges);
  }

  /** What the choice of stage 2 respects. */
  predicate PlanOk(c: Call, plan: Plan)
    requires c.Looked?
  {
    match plan
    case Answer(e) => c.cached == Some(e)
    case Forward(sent) => SameTarget(c.req, sent)
    case TimeOut => "only-if-cached" in Parse(c.req.header)
  }

  lemma PlanIsOk(w: World, s: State, c: Call)
    requires c.Looked?
    ensures PlanOk(c, PlanFor(w.lib, c.req, c.cached, s.now))
  {
  }

  /** A response straight from an exchange. */
  lemma NewlyObtained(xs: set<Exchange>, x: Exchange)
    requires x in xs && SpaceFree(x.sent) && Genuine(x)
    ensures Obtained(xs, x.sent, InstantOf(x), ResponseOf(x))
  {
    var t := History(x, []);
    assert HeadersOf([]) == [];
    assert Happened(xs, CacheKey(x.sent), t) && Tells(t, ResponseOf(x)) && Fetched(t, x.sent, InstantOf(x));
  }

  lemma KeepsChoose(s: State, id: nat, c: Call, plan: Plan)
    requires Inv(s) && id in s.calls && s.calls[id] == c && c.Looked? && PlanOk(c, plan)
    ensures Inv(StepChoose(s, id, c, plan))
  {
    hide Originated, Obtained, Given, ReaderOk, Parse;
    match plan
    case Answer(e) => KeepsLog(s, id, Hit(c.req, e, s.now));
    case Forward(sent) => KeepsCall(s, id, Sent(c.req, sent, c.cached), s.exchanges);
    case TimeOut =>
      var xs := s.exchanges + {Local(c.req)};
      NewlyObtained(xs, Local(c.req));
      KeepsCall(s, id, Settled(c.req, c.req, GATEWAY_TIMEOUT, None), xs);
  }

  lemma KeepsDeliver(s: State, id: nat, c: Call, reply: Reply)
    requires Inv(s) && id in s.calls && s.calls[id] == c && c.Sent?
    ensures Inv(StepDeliver(s, id, c, reply))
  {
    hide Originated, Obtained, Given, ReaderOk;
    var xs := StepDeliver(s, id, c, reply).exchanges;
    CallGrows(s.exchanges, xs, c, s.now, s.now);
    KeepsCall(s, id, Replied(c.req, c.sent, c.cached, reply, s.now), xs);
  }

  ghost predicate SettlementOk(xs: set<Exchange>, c: Call, settlement: Settlement)
    requires c.Replied?
  {
    match settlement
    case Fallback(e) => c.cached == Some(e)
    case Error(_) => true
    case Proceed(resp, _) => Obtained(xs, c.sent, Some(c.at), resp)
  }

  /** What Settle passes on is the reply, or the stored response merged with a 304. */
  lemma SettlesBy(lib: Library, c: Call, now: int)
    requires c.Replied?
    ensures var settlement := Settle(lib, c.sent, c.cached, c.reply, now);
      && (settlement.Fallback? ==> c.cached == Some(settlement.resp))
      && (settlement.Proceed? ==> c.reply.Received? && (settlement.resp == c.reply.resp || Merges(c, settlement.resp)))
  {
  }

  /** `resp` is the stored response merged with the 304 the call received. */
  predicate Merges(c: Call, resp: Response)
    requires c.Replied? && c.reply.Received?
  {
    c.cached.Some? && c.sent.method_ == "GET" && c.reply.resp.status == 304 && resp == Refresh(c.cached.value, c.reply.resp)
  }

  lemma SettlementIsOk(w: World, s: State, c: Call)
    requires c.Replied? && CallOk(s.exchanges, c, s.now)
    ensures SettlementOk(s.exchanges, c, Settle(w.lib, c.sent, c.cached, c.reply, s.now))
  {
    hide Originated, Obtained, Settle, Refresh;
    SettlesBy(w.lib, c, s.now);
    if c.reply.Received? {
      var x := Network(c.sent, c.reply.resp, c.at);
      NewlyObtained(s.exchanges, x);
      if c.cached.Some? && c.sent.method_ == "GET" && c.reply.resp.status == 304 {
        RefreshedObtained(s.exchanges, c.cached.value, x);
      }
    }
  }

  lemma MergeLast(t: History, x: Exchange)
    ensures HeaderOf(t.(updates := t.updates + [x])) == Merge(HeaderOf(t), ResponseOf(x).header)
  {
    var more := HeadersOf(t.updates + [x]);
    assert more[..|more| - 1] == HeadersOf(t.updates);
  }

  lemma InOrderLast(t: History, x: Exchange)
    requires x.Network? && Dates(t, x.at)
    ensures InOrder(t.(updates := t.updates + [x]))
  {
    var t' := t.(updates := t.updates + [x]);
    forall i | 0 <= i < |t'.updates| ensures CameLater(t', i) {
      if i < |t.updates| {
        assert CameLater(t, i);
      }
    }
  }

  /** Merging one more 304 lengthens the history. */
  lemma RefreshedObtained(xs: set<Exchange>, e: Response, x: Exchange)
    requires x in xs && IsUpdate(x, CacheKey(x.sent)) && Originated(xs, CacheKey(x.sent), e, x.at)
    ensures Obtained(xs, x.sent, InstantOf(x), Refresh(e, x.resp))
  {
    hide HeaderOf, SameButMarks, Permitted, Merge, InOrder;
    var t :| Happened(xs, CacheKey(x.sent), t) && Tells(t, e) && Permitted(t) && Dates(t, x.at);
    var t' := t.(updates := t.updates + [x]);
    MergeLast(t, x);
    InOrderLast(t, x);
    SameMerged(e.header, HeaderOf(t), x.resp.header);
    assert Earlier(t') == t;
    assert Happened(xs, CacheKey(x.sent), t') && Tells(t', Refresh(e, x.resp)) && Fetched(t', x.sent, InstantOf(x));
  }

  lemma KeepsResume(s: State, id: nat, c: Call, settlement: Settlement)
    requires Inv(s) && id in s.calls && s.calls[id] == c && c.Replied? && SettlementOk(s.exchanges, c, settlement)
    ensures Inv(StepResume(s, id, c, settlement))
  {
    hide Originated, Obtained, Given, ReaderOk, Purge;
    match settlement
    case Fallback(e) =>
      OriginatedGrows(s.exchanges, s.exchanges, CacheKey(c.req), e, c.at, s.now);
      KeepsLog(s, id, FellBack(c.req, c.sent, e, s.now));
    case Error(purge) =>
      KeepsLog(s, id, Errored(c.req));
      KeepsPurge(Log(s, id, Errored(c.req)), CacheKey(c.req), purge);
    case Proceed(resp, purge) =>
      KeepsPurge(s, CacheKey(c.req), purge);
      KeepsCall(s.(items := Purge(s.items, CacheKey(c.req), purge)), id, Settled(c.req, c.sent, resp, Some(c.at)), s.exchanges);
  }

  ghost predicate EndingOk(xs: set<Exchange>, c: Call, ending: Ending, now: int)
    requires c.Settled?
  {
    && Given(xs, c.req, c.repliedAt, Returned(c.resp, ending))
    && match ending
       case Streaming(head) => Originated(xs, CacheKey(c.req), head, now)
       case Kept(entry) => Originated(xs, CacheKey(c.req), entry, now)
       case Dropped => true
  }

  lemma EndingIsOk(s: State, c: Call)
    requires c.Settled? && CallOk(s.exchanges, c, s.now)
    ensures EndingOk(s.exchanges, c, Finish(Cacheable(c.req), c.sent, c.resp), s.now)
  {
    hide HeaderOf, SameButMarks, Permitted, Happened, Stored, Cacheable, CanStore;
    var t :| Happened(s.exchanges, CacheKey(c.sent), t) && Tells(t, c.resp) && Fetched(t, c.sent, c.repliedAt);
    var stamped := c.resp.(header := Stored(c.resp.header, c.sent.header));
    SameStamped(c.resp.header, HeaderOf(t), c.sent.header);
    assert Tells(t, stamped) && Ends(t, c.repliedAt) && Dates(t, s.now);
    if CanStore(c.sent.header, c.resp.header) {
      PermittedNow(t, c.sent, c.resp);
    }
  }

  lemma PermittedNow(t: History, sent: Request, resp: Response)
    requires LastOf(t).sent == sent && Tells(t, resp) && CanStore(sent.header, resp.header)
    requires t.updates != [] ==> Permitted(Earlier(t))
    ensures Permitted(t)
  {
    SameDirectives(resp.header, HeaderOf(t));
  }

  lemma KeepsConclude(s: State, id: nat, c: Call, ending: Ending)
    requires Inv(s) && id in s.calls && s.calls[id] == c && c.Settled? && EndingOk(s.exchanges, c, ending, s.now)
    ensures Inv(StepConclude(s, id, c, ending))
  {
    hide Originated, Obtained, Given;
    KeepsLog(s, id, Passed(c.req, Returned(c.resp, ending), c.repliedAt));
    if ending.Streaming? {
      assert [] + ending.head.body == ending.head.body;
    }
  }

  /** Reading moves bytes from one side of the buffer to the other; at the end of the
      body the buffer is the body. */
  lemma ReadBytes(r: Reader, n: nat, eof: bool)
    requires r.buf + r.unread == r.head.body && n <= |r.unread| && (eof ==> n == |r.unread|)
    ensures var buf := r.buf + r.unread[..n];
      buf + r.unread[n..] == r.head.body && (eof ==> r.head.(body := buf) == r.head)
  {
    var buf := r.buf + r.unread[..n];
    assert buf + r.unread[n..] == r.buf + r.unread;
    assert eof ==> buf == r.head.body;
  }

  lemma KeepsRead(s: State, id: nat, r: Reader, n: nat, eof: bool)
    requires Inv(s) && id in s.readers && s.readers[id] == r && n <= |r.unread| && (eof ==> n == |r.unread|)
    ensures Inv(StepRead(s, id, r, n, eof))
  {
    hide Originated, CallOk, OutcomeOk;
    ReadBytes(r, n, eof);
  }

  predicate AllSpaceFree(run: seq<Event>) {
    forall ev :: ev in run && ev.Begin? ==> SpaceFree(ev.req)
  }

  lemma KeepsStep(w: World, s: State, ev: Event)
    requires Inv(s) && Enabled(s, ev) && (ev.Begin? ==> SpaceFree(ev.req))
    ensures Inv(Step(w, s, ev))
  {
    hide Originated, Obtained, Given, OutcomeOk, ReaderOk, CallOk, PlanOk, SettlementOk, EndingOk, PlanFor, Settle, Finish;
    match ev
    case Tick(elapsed) => InvGrows(s, s.exchanges, s.now + elapsed);
    case Begin(id, req) => KeepsBegin(w, s, id, req);
    case Choose(id) =>
      PlanIsOk(w, s, s.calls[id]);
      var c := s.calls[id];
      KeepsChoose(s, id, c, PlanFor(w.lib, c.req, c.cached, s.now));
    case Deliver(id, reply) => KeepsDeliver(s, id, s.calls[id], reply);
    case Resume(id) =>
      SettlementIsOk(w, s, s.calls[id]);
      var c := s.calls[id];
      KeepsResume(s, id, c, Settle(w.lib, c.sent, c.cached, c.reply, s.now));
    case Conclude(id) =>
      EndingIsOk(s, s.calls[id]);
      var c := s.calls[id];
      KeepsConclude(s, id, c, Finish(Cacheable(c.req), c.sent, c.resp));
    case Read(id, n, eof) => KeepsRead(s, id, s.readers[id], n, eof);
  }

  lemma {:induction false} AlwaysInv(w: World, run: seq<Event>)
    requires IsRun(w, run) && AllSpaceFree(run)
    ensures Inv(After(w, run))
  {
    hide Inv, Step;
    if run != [] {
      var before := run[..|run| - 1];
      AlwaysInv(w, before);
      KeepsStep(w, After(w, before), run[|run| - 1]);
    } else {
      StartsOk();
    }
  }

  lemma StartsOk()
    ensures Inv(Empty)
  {
  }

  // ----- the theorems -----

  /** The value `key` has in `h` is that of the last update that carried it end to end, or
      the one it had in `base`. */
  predicate CarriedLast(h: Header, base: Header, updates: seq<Header>, key: string) {
    var i := LastTrue(Carriers(updates, key));
    if i >= 0 then key in updates[i] && key in h && h[key] == updates[i][key]
    else (key in h <==> key in base) && (key in h ==> h[key] == base[key])
  }

  /** The exchanges are all with the method and URL of `req`. */
  predicate SameTargets(xs: set<Exchange>, req: Request, t: History) {
    && t.base in xs && SameTarget(req, t.base.sent) && Genuine(t.base)
    && forall i :: 0 <= i < |t.updates| ==>
         t.updates[i] in xs && SameTarget(req, t.updates[i].sent) && t.updates[i].Network? && t.updates[i].resp.status == 304
  }

  lemma HappenedTargets(xs: set<Exchange>, req: Request, t: History)
    requires SpaceFree(req) && Happened(xs, CacheKey(req), t)
    ensures SameTargets(xs, req, t)
  {
    CacheKeyInjective(t.base.sent, req);
    forall i | 0 <= i < |t.updates| ensures SameTarget(req, t.updates[i].sent) {
      CacheKeyInjective(t.updates[i].sent, req);
    }
  }

  lemma TellsCarried(t: History, e: Response)
    requires Tells(t, e)
    ensures forall key :: !IsMark(key) ==> CarriedLast(e.header, ResponseOf(t.base).header, HeadersOf(t.updates), key)
  {
    forall key | !IsMark(key) ensures CarriedLast(e.header, ResponseOf(t.base).header, HeadersOf(t.updates), key) {
      SuccessiveMerges(ResponseOf(t.base).header, HeadersOf(t.updates), key);
    }
  }

  /** Nobody says no-store, unless it is hidden from the code. */
  ghost predicate NotMarked(h: Header) {
    SaysNoStore(h) ==> HiddenNoStore(h)
  }

  /** The history as it was after `n` of its 304s. */
  function Version(t: History, n: nat): History
    requires n <= |t.updates|
  {
    t.(updates := t.updates[..n])
  }

  lemma {:induction false} PermittedNotMarked(t: History, n: nat)
    requires Permitted(t) && n <= |t.updates|
    ensures NotMarked(LastOf(Version(t, n)).sent.header) && NotMarked(HeaderOf(Version(t, n)))
    decreases |t.updates|
  {
    if n == |t.updates| {
      assert Version(t, n) == t;
      MissedNoStore(LastOf(t).sent.header);
      MissedNoStore(HeaderOf(t));
    } else {
      assert Version(Earlier(t), n) == Version(t, n);
      PermittedNotMarked(Earlier(t), n);
    }
  }

  /** Store provenance: whatever the interleaving, an entry found for a request has the
      status and the complete body of an exchange with that same method and URL, or of the
      504 made here for an only-if-cached request with them, and its headers, those the
      transport adds apart, are overridden by exactly the end-to-end headers of 304s for
      them that came later, in order. In none of these exchanges and versions did anybody say no-store where
      the code reads it (RFC 2616 sections 13.5.3 and 14.9.2). */
  lemma StoreProvenance(w: World, run: seq<Event>, req: Request) returns (t: History)
    requires IsRun(w, run) && AllSpaceFree(run) && SpaceFree(req)
    requires CacheKey(req) in After(w, run).items
    ensures var s := After(w, run); var e := s.items[CacheKey(req)];
      && SameTargets(s.exchanges, req, t) && ResponseOf(t.base).status == e.status && ResponseOf(t.base).body == e.body
      && forall key :: !IsMark(key) ==> CarriedLast(e.header, ResponseOf(t.base).header, HeadersOf(t.updates), key)
    ensures Dates(t, After(w, run).now)
    ensures forall n: nat :: n <= |t.updates| ==> NotMarked(LastOf(Version(t, n)).sent.header) && NotMarked(HeaderOf(Version(t, n)))
  {
    hide Happened, Tells, Permitted, SameTargets, CarriedLast, NotMarked, HeaderOf, Dates;
    AlwaysInv(w, run);
    var s := After(w, run);
    var e := s.items[CacheKey(req)];
    assert Originated(s.exchanges, CacheKey(req), e, s.now);
    t :| Happened(s.exchanges, CacheKey(req), t) && Tells(t, e) && Permitted(t) && Dates(t, s.now);
    HappenedTargets(s.exchanges, req, t);
    TellsBytes(t, e);
    TellsCarried(t, e);
    forall n: nat | n <= |t.updates|
      ensures NotMarked(LastOf(Version(t, n)).sent.header) && NotMarked(HeaderOf(Version(t, n)))
    {
      PermittedNotMarked(t, n);
    }
  }

  lemma TellsBytes(t: History, e: Response)
    requires Tells(t, e)
    ensures ResponseOf(t.base).status == e.status && ResponseOf(t.base).body == e.body
  {
  }

  ghost predicate AnswerTold(xs: set<Exchange>, out: Outcome, t: History)
    requires !out.Errored?
  {
    Happened(xs, CacheKey(out.req), t) && Tells(t, AnswerOf(out)) && InOrder(t) && (out.Passed? ==> InstantOf(LastOf(t)) == out.repliedAt)
  }

  lemma OutcomeTold(xs: set<Exchange>, out: Outcome) returns (t: History)
    requires OutcomeOk(xs, out) && !out.Errored?
    ensures AnswerTold(xs, out, t)
  {
    hide Happened, Tells, Permitted;
    if out.Passed? {
      t :| Happened(xs, CacheKey(out.req), t) && Tells(t, out.resp) && Ends(t, out.repliedAt);
    } else {
      t :| Happened(xs, CacheKey(out.req), t) && Tells(t, AnswerOf(out)) && Permitted(t) && Dates(t, out.now);
    }
  }

  /** Answer provenance: after any number of successive revalidations an answer has the
      status and body of one exchange with the method and URL of its request, and each
      header has the value of the last 304 that carried it end to end. The last of these
      exchanges is the one a passed-on answer was given after (RFC 2616 section 13.5.3). */
  lemma AnswerProvenance(w: World, run: seq<Event>, out: Outcome) returns (t: History)
    requires IsRun(w, run) && AllSpaceFree(run) && out in After(w, run).outcomes && !out.Errored?
    ensures var s, e := After(w, run), AnswerOf(out);
      && SameTargets(s.exchanges, out.req, t) && ResponseOf(t.base).status == e.status && ResponseOf(t.base).body == e.body
      && (forall key :: !IsMark(key) ==> CarriedLast(e.header, ResponseOf(t.base).header, HeadersOf(t.updates), key))
      && InOrder(t) && (out.Passed? ==> InstantOf(LastOf(t)) == out.repliedAt)
  {
    hide Happened, Tells, SameTargets, CarriedLast, InOrder;
    AlwaysInv(w, run);
    assert OutcomeOk(After(w, run).exchanges, out);
    t := OutcomeTold(After(w, run).exchanges, out);
    HappenedTargets(After(w, run).exchanges, out.req, t);
    TellsBytes(t, AnswerOf(out));
    TellsCarried(t, AnswerOf(out));
  }
}
