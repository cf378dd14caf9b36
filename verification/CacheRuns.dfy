/** Any number of calls of the caching transport at once: every access to the store, every
    reading of the clock, every network reply and every read of a body is its own step, so
    lookups, removals and late stores of different calls interleave freely. */
module CacheRuns {
  import opened Options
  import opened Headers
  import opened CacheControl
  import opened Freshness
  import opened Messages
  import opened RoundTrip

  datatype World = World(lib: Library, mark: bool)

  /** Where one call of RoundTripRFC2616 stands. `at` is the instant the reply was made,
      `repliedAt` is None for a response made here. */
  datatype Call =
    | Looked(req: Request, cached: Option<Response>)
    | Sent(req: Request, sent: Request, cached: Option<Response>)
    | Replied(req: Request, sent: Request, cached: Option<Response>, reply: Reply, at: int)
    | Settled(req: Request, sent: Request, resp: Response, repliedAt: Option<int>)

  /** A response body on its way through a cachingReadCloser. */
  datatype Reader = Reader(key: string, head: Response, buf: seq<byte>, unread: seq<byte>)

  /** A reply received from the network, or a 504 made here for `sent`. */
  datatype Exchange =
    | Network(sent: Request, resp: Response, at: int)
    | Local(sent: Request)

  /** What callers were given. */
  datatype Outcome =
    | Hit(req: Request, entry: Response, now: int)
    | FellBack(req: Request, sent: Request, entry: Response, now: int)
    | Passed(req: Request, resp: Response, repliedAt: Option<int>)
    | Errored(req: Request)

  datatype State = State(
    now: int,
    items: Items,
    calls: map<nat, Call>,
    readers: map<nat, Reader>,
    exchanges: set<Exchange>,
    outcomes: set<Outcome>)

  datatype Event =
    | Tick(elapsed: nat)
    | Begin(id: nat, req: Request)
    | Choose(id: nat)
    | Deliver(id: nat, reply: Reply)
    | Resume(id: nat)
    | Conclude(id: nat)
    | Read(id: nat, n: nat, eof: bool)

  const Empty := State(0, map[], map[], map[], {}, {})

  predicate Enabled(s: State, ev: Event) {
    match ev
    case Tick(_) => true
    case Begin(id, _) => id !in s.calls && id !in s.readers
    case Choose(id) => id in s.calls && s.calls[id].Looked?
    case Deliver(id, _) => id in s.calls && s.calls[id].Sent?
    case Resume(id) => id in s.calls && s.calls[id].Replied?
    case Conclude(id) => id in s.calls && s.calls[id].Settled?
    case Read(id, n, eof) => id in s.readers && n <= |s.readers[id].unread| && (eof ==> n == |s.readers[id].unread|)
  }

  function Log(s: State, id: nat, o: Outcome): State {
    s.(calls := s.calls - {id}, outcomes := s.outcomes + {o})
  }

  function StepBegin(w: World, s: State, id: nat, req: Request): State {
    s.(items := Invalidate(s.items, req), calls := s.calls[id := Looked(req, Lookup(s.items, req, w.mark))])
  }

  function StepChoose(s: State, id: nat, c: Call, plan: Plan): State
    requires c.Looked?
  {
    match plan
    case Answer(e) => Log(s, id, Hit(c.req, e, s.now))
    case Forward(sent) => s.(calls := s.calls[id := Sent(c.req, sent, c.cached)])
    case TimeOut =>
      s.(calls := s.calls[id := Settled(c.req, c.req, GATEWAY_TIMEOUT, None)], exchanges := s.exchanges + {Local(c.req)})
  }

  function StepDeliver(s: State, id: nat, c: Call, reply: Reply): State
    requires c.Sent?
  {
    s.(calls := s.calls[id := Replied(c.req, c.sent, c.cached, reply, s.now)],
       exchanges := if reply.Received? then s.exchanges + {Network(c.sent, reply.resp, s.now)} else s.exchanges)
  }

  function StepResume(s: State, id: nat, c: Call, settlement: Settlement): State
    requires c.Replied?
  {
    match settlement
    case Fallback(e) => Log(s, id, FellBack(c.req, c.sent, e, s.now))
    case Error(purge) => Log(s, id, Errored(c.req)).(items := Purge(s.items, CacheKey(c.req), purge))
    case Proceed(resp, purge) =>
      s.(items := Purge(s.items, CacheKey(c.req), purge), calls := s.calls[id := Settled(c.req, c.sent, resp, Some(c.at))])
  }

  function StepConclude(s: State, id: nat, c: Call, ending: Ending): State
    requires c.Settled?
  {
    Log(s, id, Passed(c.req, Returned(c.resp, ending), c.repliedAt)).(
      items := Keep(s.items, CacheKey(c.req), ending),
      readers := if ending.Streaming? then s.readers[id := Reader(CacheKey(c.req), ending.head, [], ending.head.body)] else s.readers)
  }

  function StepRead(s: State, id: nat, r: Reader, n: nat, eof: bool): State
    requires n <= |r.unread|
  {
    var buf := r.buf + r.unread[..n];
    s.(readers := s.readers[id := r.(buf := buf, unread := r.unread[n..])],
       items := if eof then s.items[r.key := r.head.(body := buf)] else s.items)
  }

  function Step(w: World, s: State, ev: Event): State
    requires Enabled(s, ev)
  {
    match ev
    case Tick(elapsed) => s.(now := s.now + elapsed)
    case Begin(id, req) => StepBegin(w, s, id, req)
    case Choose(id) => var c := s.calls[id]; StepChoose(s, id, c, PlanFor(w.lib, c.req, c.cached, s.now))
    case Deliver(id, reply) => StepDeliver(s, id, s.calls[id], reply)
    case Resume(id) => var c := s.calls[id]; StepResume(s, id, c, Settle(w.lib, c.sent, c.cached, c.reply, s.now))
    case Conclude(id) => var c := s.calls[id]; StepConclude(s, id, c, Finish(Cacheable(c.req), c.sent, c.resp))
    case Read(id, n, eof) => StepRead(s, id, s.readers[id], n, eof)
  }

  /** The events of `run` are enabled one after the other. */
  predicate IsRun(w: World, run: seq<Event>)
    decreases |run|, 0
  {
    run == [] || (IsRun(w, run[..|run| - 1]) && Enabled(After(w, run[..|run| - 1]), run[|run| - 1]))
  }

  function After(w: World, run: seq<Event>): State
    requires IsRun(w, run)
    decreases |run|, 1
  {
    if run == [] then Empty else Step(w, After(w, run[..|run| - 1]), run[|run| - 1])
  }

  // ----- an undisturbed call is the method RoundTripRFC2616 -----

  function FromSettled(s: State, id: nat, c: Call): State
    requires c.Settled?
  {
    StepConclude(s, id, c, Finish(Cacheable(c.req), c.sent, c.resp))
  }

  /** The rest of a call that waits for its reply, with nothing between its steps but time. */
  function FromSent(s: State, id: nat, c: Call, reply: Reply, settlement: Settlement, later: nat): State
    requires c.Sent?
  {
    var s1 := StepDeliver(s, id, c, reply);
    var s2 := s1.(now := s1.now + later);
    var s3 := StepResume(s2, id, s2.calls[id], settlement);
    if settlement.Proceed? then FromSettled(s3, id, s3.calls[id]) else s3
  }

  function FromLooked(s: State, id: nat, c: Call, plan: Plan, reply: Reply, settlement: Settlement, later: nat): State
    requires c.Looked?
  {
    var s2 := StepChoose(s, id, c, plan);
    match plan
    case Answer(_) => s2
    case Forward(_) => FromSent(s2, id, s2.calls[id], reply, settlement, later)
    case TimeOut => FromSettled(s2, id, s2.calls[id])
  }

  /** One call with nothing between its steps but time. */
  function Undisturbed(w: World, s: State, id: nat, req: Request, net: Request -> Reply, later: nat): State {
    var cached := Lookup(s.items, req, w.mark);
    UndisturbedPlan(w, StepBegin(w, s, id, req), id, Looked(req, cached), PlanFor(w.lib, req, cached, s.now), net, later)
  }

  function UndisturbedPlan(w: World, s: State, id: nat, c: Call, plan: Plan, net: Request -> Reply, later: nat): State
    requires c.Looked?
  {
    FromLooked(s, id, c, plan, if plan.Forward? then net(plan.sent) else Failed, Reaction(w.lib, c.cached, plan, net, s.now + later), later)
  }

  /** The state after a call shows the store, the answer and the recording reader of `turn`;
      `before` are the outcomes of earlier calls. */
  ghost predicate Leaves(before: set<Outcome>, s: State, id: nat, req: Request, turn: Turn) {
    && s.items == turn.items && id !in s.calls
    && (exists out :: s.outcomes == before + {out} && Carries(out, req, turn.reply))
    && (id in s.readers <==> turn.streaming)
    && (turn.streaming ==> turn.reply.Received? && s.readers[id] == Reader(CacheKey(req), turn.reply.resp, [], turn.reply.resp.body))
  }

  function AnswerOf(out: Outcome): Response
    requires !out.Errored?
  {
    match out case Hit(_, e, _) => e case FellBack(_, _, e, _) => e case Passed(_, resp, _) => resp
  }

  predicate Carries(out: Outcome, req: Request, reply: Reply) {
    && out.req == req
    && match reply
       case Failed => out.Errored?
       case Received(resp) => !out.Errored? && AnswerOf(out) == resp
  }

  lemma SettledLeaves(s: State, id: nat, c: Call)
    requires c.Settled? && id !in s.readers
    ensures Leaves(s.outcomes, FromSettled(s, id, c), id, c.req, RoundTrip.Conclude(s.items, c.req, c.sent, c.resp))
  {
    var ending := Finish(Cacheable(c.req), c.sent, c.resp);
    assert FromSettled(s, id, c) == StepConclude(s, id, c, ending);
    assert Carries(Passed(c.req, Returned(c.resp, ending), c.repliedAt), c.req, Received(Returned(c.resp, ending)));
  }

  lemma SentLeaves(s: State, id: nat, c: Call, reply: Reply, settlement: Settlement, later: nat)
    requires c.Sent? && id !in s.readers
    ensures Leaves(s.outcomes, FromSent(s, id, c, reply, settlement, later), id, c.req, SettledTurn(s.items, c.req, c.sent, settlement))
  {
    var s2 := StepDeliver(s, id, c, reply).(now := s.now + later);
    var s3 := StepResume(s2, id, s2.calls[id], settlement);
    match settlement
    case Fallback(e) => assert Carries(FellBack(c.req, c.sent, e, s2.now), c.req, Received(e));
    case Error(_) => assert Carries(Errored(c.req), c.req, Failed);
    case Proceed(_, _) => SettledLeaves(s3, id, s3.calls[id]);
  }

  lemma LookedLeaves(s: State, id: nat, c: Call, plan: Plan, reply: Reply, settlement: Settlement, later: nat)
    requires c.Looked? && id !in s.readers
    ensures Leaves(s.outcomes, FromLooked(s, id, c, plan, reply, settlement, later), id, c.req, PlannedTurn(s.items, c.req, plan, settlement))
  {
    var s2 := StepChoose(s, id, c, plan);
    match plan
    case Answer(e) => assert Carries(Hit(c.req, e, s.now), c.req, Received(e));
    case Forward(_) => SentLeaves(s2, id, s2.calls[id], reply, settlement, later);
    case TimeOut => SettledLeaves(s2, id, s2.calls[id]);
  }

  lemma UnfoldTurn(w: World, s: State, req: Request, net: Request -> Reply, later: nat, cached: Option<Response>, plan: Plan)
    requires cached == Lookup(s.items, req, w.mark) && plan == PlanFor(w.lib, req, cached, s.now)
    ensures RunTurn(w.lib, w.mark, s.items, req, net, s.now, s.now + later) ==
      PlannedTurn(Invalidate(s.items, req), req, plan, Reaction(w.lib, cached, plan, net, s.now + later))
  {
  }

  lemma UnfoldUndisturbed(w: World, s: State, id: nat, req: Request, net: Request -> Reply, later: nat, cached: Option<Response>, plan: Plan)
    requires cached == Lookup(s.items, req, w.mark) && plan == PlanFor(w.lib, req, cached, s.now)
    ensures Undisturbed(w, s, id, req, net, later) == UndisturbedPlan(w, StepBegin(w, s, id, req), id, Looked(req, cached), plan, net, later)
  {
  }

  lemma UnfoldPlan(w: World, s: State, id: nat, c: Call, plan: Plan, net: Request -> Reply, later: nat)
    requires c.Looked?
    ensures UndisturbedPlan(w, s, id, c, plan, net, later) ==
      FromLooked(s, id, c, plan, if plan.Forward? then net(plan.sent) else Failed, Reaction(w.lib, c.cached, plan, net, s.now + later), later)
  {
  }

  /** A call that nothing interrupts has the effect the method RoundTripRFC2616 is
      proved to have. */
  lemma UndisturbedIsRoundTrip(w: World, s: State, id: nat, req: Request, net: Request -> Reply, later: nat)
    requires id !in s.calls && id !in s.readers
    ensures Leaves(s.outcomes, Undisturbed(w, s, id, req, net, later), id, req, RunTurn(w.lib, w.mark, s.items, req, net, s.now, s.now + later))
  {
    hide PlanFor, Reaction, PlannedTurn, FromLooked, RunTurn, Undisturbed, UndisturbedPlan, Lookup;
    var c := Looked(req, Lookup(s.items, req, w.mark));
    var plan := PlanFor(w.lib, req, c.cached, s.now);
    UnfoldTurn(w, s, req, net, later, c.cached, plan);
    UnfoldUndisturbed(w, s, id, req, net, later, c.cached, plan);
    UnfoldPlan(w, StepBegin(w, s, id, req), id, c, plan, net, later);
    LookedLeaves(StepBegin(w, s, id, req), id, c, plan, if plan.Forward? then net(plan.sent) else Failed,
      Reaction(w.lib, c.cached, plan, net, s.now + later), later);
  }
}
