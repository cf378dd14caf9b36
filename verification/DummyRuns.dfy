/** The Dummy policy under any interleaving of calls, and its replay in sequence. */
module DummyRuns {
  import opened Options
  import opened Headers
  import opened Messages
  import opened RoundTrip

  /** `waiting` are the calls that found nothing and have not been answered by the network,
      `arrived` those that have a response to store; `contacts` and `missed` log, per key,
      the network exchanges and the lookups that found nothing; `replies` are the responses
      received, and `hits` the ones answered from the store, with their keys. */
  datatype State = State(
    items: Items,
    waiting: seq<Request>,
    arrived: seq<(Request, Response)>,
    contacts: multiset<string>,
    missed: multiset<string>,
    replies: set<(string, Response)>,
    hits: set<(string, Response)>)

  datatype Event =
    | Ask(req: Request)
    | Deliver(i: nat, reply: Reply)
    | Keep(i: nat, dumped: bool)

  const Empty := State(map[], [], [], multiset{}, multiset{}, {}, {})

  predicate Enabled(s: State, ev: Event) {
    match ev
    case Ask(_) => true
    case Deliver(i, _) => i < |s.waiting|
    case Keep(i, _) => i < |s.arrived|
  }

  function Without<T>(s: seq<T>, i: nat): seq<T>
    requires i < |s|
  {
    s[..i] + s[i + 1..]
  }

  predicate Hits(s: State, req: Request) {
    Cacheable(req) && CacheKey(req) in s.items
  }

  function Step(s: State, ev: Event): State
    requires Enabled(s, ev)
  {
    match ev
    case Ask(req) =>
      if Hits(s, req) then s.(hits := s.hits + {(CacheKey(req), s.items[CacheKey(req)])})
      else s.(items := Invalidate(s.items, req), waiting := s.waiting + [req], missed := s.missed + multiset{CacheKey(req)})
    case Deliver(i, reply) =>
      var req := s.waiting[i];
      s.(waiting := Without(s.waiting, i), contacts := s.contacts + multiset{CacheKey(req)},
         arrived := if reply.Received? then s.arrived + [(req, reply.resp)] else s.arrived,
         replies := if reply.Received? then s.replies + {(CacheKey(req), reply.resp)} else s.replies)
    case Keep(i, dumped) =>
      var (req, resp) := s.arrived[i];
      s.(arrived := Without(s.arrived, i),
         items := if !Cacheable(req) then s.items - {CacheKey(req)} else if dumped then s.items[CacheKey(req) := resp] else s.items)
  }

  predicate IsRun(run: seq<Event>)
    decreases |run|, 0
  {
    run == [] || (IsRun(run[..|run| - 1]) && Enabled(After(run[..|run| - 1]), run[|run| - 1]))
  }

  function After(run: seq<Event>): State
    requires IsRun(run)
    decreases |run|, 1
  {
    if run == [] then Empty else Step(After(run[..|run| - 1]), run[|run| - 1])
  }

  /** A call that nothing interrupts has the effect the method RoundTripDummy is proved to
      have: the same store, and an exchange with the network just when that makes one. */
  lemma UndisturbedIsDummyTurn(s: State, mark: bool, req: Request, reply: Reply, dumped: bool)
    ensures var replay := DummyTurn(mark, s.items, req, reply, dumped);
      var s1 := Step(s, Ask(req));
      if !replay.contacted then
        s1.items == replay.items == s.items && s1.waiting == s.waiting && s1.contacts == s.contacts &&
        CacheKey(req) in s.items && (CacheKey(req), s.items[CacheKey(req)]) in s1.hits &&
        replay.reply == Received(Mark(s.items[CacheKey(req)], mark))
      else
        |s1.waiting| == |s.waiting| + 1 &&
        var s2 := Step(s1, Deliver(|s.waiting|, reply));
        s2.waiting == s.waiting && s2.contacts == s.contacts + multiset{CacheKey(req)} &&
        if reply.Failed? then s2.items == replay.items && s2.arrived == s.arrived
        else
          |s2.arrived| == |s.arrived| + 1 &&
          var s3 := Step(s2, Event.Keep(|s.arrived|, dumped)); s3.items == replay.items && s3.arrived == s.arrived
  {
  }

  /** How many of `reqs` have key `key`. */
  function CountKey(reqs: seq<Request>, key: string): nat {
    if reqs == [] then 0
    else CountKey(reqs[..|reqs| - 1], key) + if CacheKey(reqs[|reqs| - 1]) == key then 1 else 0
  }

  lemma {:induction false} CountKeyAppend(a: seq<Request>, b: seq<Request>, key: string)
    ensures CountKey(a + b, key) == CountKey(a, key) + CountKey(b, key)
    decreases b
  {
    if b == [] {
      assert a + b == a;
    } else {
      assert (a + b)[..|a + b| - 1] == a + b[..|b| - 1];
      CountKeyAppend(a, b[..|b| - 1], key);
    }
  }

  lemma CountKeyWithout(reqs: seq<Request>, i: nat, key: string)
    requires i < |reqs|
    ensures CountKey(reqs, key) == CountKey(Without(reqs, i), key) + if CacheKey(reqs[i]) == key then 1 else 0
  {
    assert reqs == reqs[..i] + ([reqs[i]] + reqs[i + 1..]);
    CountKeyAppend(reqs[..i], [reqs[i]] + reqs[i + 1..], key);
    CountKeyAppend([reqs[i]], reqs[i + 1..], key);
    CountKeyAppend(reqs[..i], reqs[i + 1..], key);
    assert [reqs[i]][..0] == [];
  }

  /** Every lookup that found nothing is a network exchange that has happened or a call
      that still waits for one. */
  predicate Balanced(s: State, key: string) {
    s.contacts[key] + CountKey(s.waiting, key) == s.missed[key]
  }

  lemma {:induction false} AlwaysBalanced(run: seq<Event>, key: string)
    requires IsRun(run)
    ensures Balanced(After(run), key)
  {
    if run != [] {
      var before := run[..|run| - 1];
      AlwaysBalanced(before, key);
      var s := After(before);
      match run[|run| - 1]
      case Ask(req) =>
        CountKeyAppend(s.waiting, [req], key);
        assert [req][..0] == [];
      case Deliver(i, _) => CountKeyWithout(s.waiting, i, key);
      case Keep(_, _) =>
    }
  }

  /** Whatever is stored, on its way to the store or answered from it was received for its key. */
  predicate Traced(s: State) {
    && (forall key :: key in s.items ==> (key, s.items[key]) in s.replies)
    && (forall i :: 0 <= i < |s.arrived| ==> (CacheKey(s.arrived[i].0), s.arrived[i].1) in s.replies)
    && s.hits <= s.replies
  }

  lemma TracedStep(s: State, ev: Event)
    requires Traced(s) && Enabled(s, ev)
    ensures Traced(Step(s, ev))
  {
  }

  /** In every run each answer from the store is a response the origin gave for that key. */
  lemma {:induction false} AlwaysTraced(run: seq<Event>)
    requires IsRun(run)
    ensures Traced(After(run))
  {
    if run != [] {
      AlwaysTraced(run[..|run| - 1]);
      TracedStep(After(run[..|run| - 1]), run[|run| - 1]);
    }
  }

  /** No request of the run invalidates `key`. */
  predicate NeverInvalidated(run: seq<Event>, key: string) {
    forall ev :: ev in run && ev.Ask? && CacheKey(ev.req) == key ==> Cacheable(ev.req)
  }

  predicate Harmless(s: State, key: string) {
    && (forall i :: 0 <= i < |s.waiting| && CacheKey(s.waiting[i]) == key ==> Cacheable(s.waiting[i]))
    && (forall i :: 0 <= i < |s.arrived| && CacheKey(s.arrived[i].0) == key ==> Cacheable(s.arrived[i].0))
  }

  lemma HarmlessStep(s: State, ev: Event, key: string)
    requires Enabled(s, ev) && Harmless(s, key)
    requires ev.Ask? && CacheKey(ev.req) == key ==> Cacheable(ev.req)
    ensures Harmless(Step(s, ev), key)
    ensures key in s.items ==> key in Step(s, ev).items
  {
  }

  lemma {:induction false} AlwaysHarmless(run: seq<Event>, key: string)
    requires IsRun(run) && NeverInvalidated(run, key)
    ensures Harmless(After(run), key)
  {
    if run != [] {
      AlwaysHarmless(run[..|run| - 1], key);
      HarmlessStep(After(run[..|run| - 1]), run[|run| - 1], key);
    }
  }

  /** Once stored, a key stays stored, so every later lookup of it hits. */
  lemma {:induction false} StoredForGood(run: seq<Event>, n: nat, key: string)
    requires IsRun(run) && NeverInvalidated(run, key) && n <= |run| && IsRun(run[..n])
    requires key in After(run[..n]).items
    ensures key in After(run).items
  {
    if n == |run| {
      assert run[..n] == run;
    } else {
      var before := run[..|run| - 1];
      assert before[..n] == run[..n];
      StoredForGood(before, n, key);
      AlwaysHarmless(before, key);
      HarmlessStep(After(before), run[|run| - 1], key);
    }
  }

  /** The lookups of `key` begun while it was not stored. */
  function EarlyLookups(run: seq<Event>, key: string): nat
    requires IsRun(run)
  {
    if run == [] then 0
    else
      var before, last := run[..|run| - 1], run[|run| - 1];
      EarlyLookups(before, key) +
        if last.Ask? && CacheKey(last.req) == key && key !in After(before).items then 1 else 0
  }

  lemma {:induction false} MissedAreEarly(run: seq<Event>, key: string)
    requires IsRun(run) && NeverInvalidated(run, key)
    ensures After(run).missed[key] == EarlyLookups(run, key)
  {
    if run != [] {
      MissedAreEarly(run[..|run| - 1], key);
    }
  }

  lemma {:induction false} PrefixesAreRuns(run: seq<Event>, n: nat)
    requires IsRun(run) && n <= |run|
    ensures IsRun(run[..n])
  {
    if n < |run| {
      assert run[..|run| - 1][..n] == run[..n];
      PrefixesAreRuns(run[..|run| - 1], n);
    } else {
      assert run[..n] == run;
    }
  }

  /** No lookup of `key` is early once it has been stored. */
  lemma {:induction false} EarlyMeansBeforeFirstStore(run: seq<Event>, n: nat, key: string)
    requires IsRun(run) && NeverInvalidated(run, key) && n <= |run| && IsRun(run[..n])
    requires key in After(run[..n]).items
    ensures EarlyLookups(run, key) == EarlyLookups(run[..n], key)
  {
    if n == |run| {
      assert run[..n] == run;
    } else {
      var before := run[..|run| - 1];
      assert before[..n] == run[..n];
      EarlyMeansBeforeFirstStore(before, n, key);
      StoredForGood(before, n, key);
    }
  }

  /** The origin is contacted for a key no more often than the key was looked up before
      its first store, whatever the interleaving. */
  lemma ContactsAreEarlyLookups(run: seq<Event>, n: nat, key: string)
    requires IsRun(run) && NeverInvalidated(run, key) && n <= |run| && IsRun(run[..n])
    requires key in After(run[..n]).items
    ensures After(run).contacts[key] <= EarlyLookups(run[..n], key)
  {
    AlwaysBalanced(run, key);
    MissedAreEarly(run, key);
    EarlyMeansBeforeFirstStore(run, n, key);
  }

  // ----- in sequence -----

  /** The store after the first `n` of a sequence of calls with the same request; `net(i)`
      is the network during call `i`, and `dumped(i)` whether its response could be stored. */
  function ItemsAfter(mark: bool, items: Items, req: Request, net: nat -> Reply, dumped: nat -> bool, n: nat): Items
    decreases n, 0
  {
    if n == 0 then items else CallAt(mark, items, req, net, dumped, n - 1).items
  }

  function CallAt(mark: bool, items: Items, req: Request, net: nat -> Reply, dumped: nat -> bool, n: nat): Replay
    decreases n, 1
  {
    DummyTurn(mark, ItemsAfter(mark, items, req, net, dumped, n), req, net(n), dumped(n))
  }

  /** Until a response has been stored every call gets what the network says; from then on
      every call gets that response, marked, and the origin is not contacted again. */
  lemma {:induction false} SequentialReplay(mark: bool, items: Items, req: Request, net: nat -> Reply, dumped: nat -> bool, first: nat, n: nat)
    requires Cacheable(req) && CacheKey(req) !in items
    requires net(first).Received? && dumped(first) && forall i :: 0 <= i < first ==> net(i).Failed? || !dumped(i)
    ensures n < first ==> CallAt(mark, items, req, net, dumped, n) == Replay(items, net(n), true)
    ensures n == first ==> CallAt(mark, items, req, net, dumped, n) == Replay(items[CacheKey(req) := net(first).resp], net(first), true)
    ensures n > first ==>
      CallAt(mark, items, req, net, dumped, n) == Replay(items[CacheKey(req) := net(first).resp], Received(Mark(net(first).resp, mark)), false)
  {
    if n > 0 {
      SequentialReplay(mark, items, req, net, dumped, first, n - 1);
    }
  }
}
