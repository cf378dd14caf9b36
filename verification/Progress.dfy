/** When the crawl engine can always go on, and the run in which it cannot. */
module Progress {
  import opened Engine
  import opened Lifecycle
  import opened Exports
  import opened Halting

  // ----- the assumptions -----

  predicate Async(acts: seq<Action>) {
    forall i :: 0 <= i < |acts| && acts[i].Spawn? ==> !acts[i].req.sync
  }

  predicate NoPanic(acts: seq<Action>) {
    forall i :: 0 <= i < |acts| ==> !acts[i].Panic?
  }

  /** The fetch of `u` comes back, with some callback to run. */
  ghost predicate Responds(cfg: Config, u: string) {
    exists acts :: cfg.behaves(u, acts)
  }

  predicate Decides(cfg: Config, u: string) {
    cfg.admits(u, true) || cfg.admits(u, false)
  }

  /** Only asynchronous requests, draining exporters, a start function that does not panic,
      and a client, middlewares and robots.txt that always come back. */
  ghost predicate Lively(cfg: Config) {
    && cfg.drains && Async(cfg.seeds) && NoPanic(cfg.seeds)
    && (forall u, acts :: cfg.behaves(u, acts) ==> Async(acts))
    && (forall u :: Responds(cfg, u) && Decides(cfg, u))
  }

  /** First lookups of a host do not overlap: whoever is about to install a channel is the
      only one, and its host has none yet. */
  predicate Calm(cfg: Config, s: State) {
    forall id :: 0 <= id < |s.procs| && s.procs[id].pc.Install? ==>
      HostOf(cfg, s.procs[id]) !in s.table &&
      forall j :: 0 <= j < |s.procs| && j != id && s.procs[j].pc.Install? ==> HostOf(cfg, s.procs[j]) != HostOf(cfg, s.procs[id])
  }

  // ----- one channel per host -----

  /** Every channel is the current one of its host. */
  predicate Current(s: State) {
    forall c :: 0 <= c < |s.chans| ==> s.chans[c].host in s.table && s.table[s.chans[c].host] == c
  }

  lemma CurrentProc(cfg: Config, s: State, id: nat)
    requires Linked(cfg, s) && Current(s) && Calm(cfg, s) && id < |s.procs| && ProcEnabled(cfg, s, s.procs[id])
    ensures Current(StepProc(cfg, s, id))
  {
    var p := s.procs[id];
    assert ProcLinked(cfg, s, p);
    if !TouchesHost(p.pc) {
      OtherHost(cfg, s, id, "");
    }
  }

  lemma CurrentStep(cfg: Config, s: State, ev: Event)
    requires Linked(cfg, s) && Current(s) && Calm(cfg, s) && Enabled(cfg, s, ev)
    ensures Current(Step(cfg, s, ev))
  {
    if ev.Advance? {
      CurrentProc(cfg, s, ev.id);
    } else {
      IdleHost(cfg, s, ev, "");
    }
  }

  lemma {:induction false} SingleChannel(chans: seq<Chan>, c: nat, h: string)
    requires c <= |chans| && forall i :: 0 <= i < |chans| && chans[i].host == h ==> i == c
    ensures c < |chans| && chans[c].host == h ==> Tokens(chans, h) == chans[c].tokens && Channels(chans, h) == 1
    ensures c == |chans| || chans[c].host != h ==> Tokens(chans, h) == 0 && Channels(chans, h) == 0
  {
    if chans != [] {
      var front := chans[..|chans| - 1];
      SingleChannel(front, if c < |front| then c else |front|, h);
    }
  }

  lemma CurrentTokens(s: State, h: string)
    requires Current(s)
    ensures Channels(s.chans, h) <= 1
    ensures forall c :: 0 <= c < |s.chans| && s.chans[c].host == h ==> Tokens(s.chans, h) == s.chans[c].tokens
  {
    SingleChannel(s.chans, if h in s.table && s.table[h] < |s.chans| then s.table[h] else |s.chans|, h);
  }

  // ----- asynchronous requests -----

  predicate AsyncPc(pc: Pc) {
    !pc.Await? && Async(Rest(pc))
  }

  predicate AsyncOk(s: State) {
    && Async(MainRest(s.main)) && NoPanic(MainRest(s.main)) && !s.main.Pausing?
    && forall id :: 0 <= id < |s.procs| ==> AsyncPc(s.procs[id].pc)
  }

  lemma AsyncAction(s: State, id: nat, acts: seq<Action>)
    requires id < |s.procs| && acts != [] && Async(acts)
    ensures AsyncPc(StepAction(s, id, acts).procs[id].pc)
  {
    assert Async(acts[1..]);
  }

  lemma AsyncProc(cfg: Config, s: State, id: nat)
    requires AsyncOk(s) && id < |s.procs| && ProcEnabled(cfg, s, s.procs[id])
    ensures AsyncPc(StepProc(cfg, s, id).procs[id].pc)
  {
    if s.procs[id].pc.Run? && s.procs[id].pc.acts != [] {
      AsyncAction(s, id, s.procs[id].pc.acts);
    } else if !s.procs[id].pc.Duplicate? {
      PlainPhase(cfg, s, id);
    }
  }

  lemma AsyncMain(s: State)
    requires AsyncOk(s) && MainEnabled(s)
    ensures var m := StepMain(s).main; Async(MainRest(m)) && NoPanic(MainRest(m)) && !m.Pausing?
  {
  }

  lemma AsyncOther(cfg: Config, s: State, ev: Event)
    requires Lively(cfg) && AsyncOk(s) && Enabled(cfg, s, ev) && !ev.Main?
    ensures var s' := Step(cfg, s, ev);
      s'.main == s.main && (0 <= Mover(ev) < |s'.procs| ==> AsyncPc(s'.procs[Mover(ev)].pc))
  {
    if ev.Advance? {
      AsyncProc(cfg, s, ev.id);
      MainUnmoved(cfg, s, ev.id);
    }
  }

  lemma MainUnmoved(cfg: Config, s: State, id: nat)
    requires id < |s.procs| && ProcEnabled(cfg, s, s.procs[id])
    ensures StepProc(cfg, s, id).main == s.main
  {
    if s.procs[id].pc.Run? && s.procs[id].pc.acts != [] {
      QuietAction(s, id, s.procs[id].pc.acts);
    }
  }

  lemma AsyncKept(s: State, s': State, id: int)
    requires AsyncOk(s) && Moves(s, s', id) && id < |s.procs|
    requires Async(MainRest(s'.main)) && NoPanic(MainRest(s'.main)) && !s'.main.Pausing?
    requires 0 <= id < |s'.procs| ==> AsyncPc(s'.procs[id].pc)
    ensures AsyncOk(s')
  {
    assert Rest(Arrive) == [];
    forall i | 0 <= i < |s'.procs| ensures AsyncPc(s'.procs[i].pc) {
      if i < |s.procs| && i != id {
        assert s'.procs[i] == s.procs[i];
      }
    }
  }

  lemma AsyncStep(cfg: Config, s: State, ev: Event)
    requires Lively(cfg) && AsyncOk(s) && Enabled(cfg, s, ev)
    ensures AsyncOk(Step(cfg, s, ev))
  {
    StepMoves(cfg, s, ev);
    if ev.Main? {
      AsyncMain(s);
    } else {
      AsyncOther(cfg, s, ev);
    }
    AsyncKept(s, Step(cfg, s, ev), Mover(ev));
  }

  // ----- every unfinished state has an enabled step -----

  ghost predicate Good(cfg: Config, s: State) {
    Lifecycle.Inv(cfg, s) && FanOk(cfg, s) && Current(s) && AsyncOk(s)
  }

  /** A request that needs no slot can go on. */
  lemma FreeToMove(cfg: Config, s: State, id: nat) returns (ev: Event)
    requires Lively(cfg) && Good(cfg, s) && id < |s.procs| && s.buffer == []
    requires var pc := s.procs[id].pc; !pc.Arrive? && !pc.Want? && !pc.Gone? && !pc.Drain?
    ensures Enabled(cfg, s, ev) && !ev.Interrupt?
  {
    var p := s.procs[id];
    assert ProcLinked(cfg, s, p);
    match p.pc
    case Robots =>
      assert Decides(cfg, p.req.url);
      var pass :| cfg.admits(p.req.url, pass);
      ev := Judge(id, pass);
    case Fetch =>
      assert Responds(cfg, p.req.url);
      var acts :| cfg.behaves(p.req.url, acts);
      ev := Respond(id, acts);
    case FreeGlobal =>
      CountSet(cfg, HoldsGlobal, s.procs, id, p);
      ev := Advance(id);
    case _ => ev := Advance(id);
  }

  /** Whoever holds a host slot can go on: it holds it in the only channel of its host. */
  lemma HolderMoves(cfg: Config, s: State, id: nat) returns (ev: Event)
    requires Lively(cfg) && Good(cfg, s) && id < |s.procs| && s.buffer == []
    requires cfg.hostLimit > 0 && PastHost(s.procs[id].pc)
    ensures Enabled(cfg, s, ev) && !ev.Interrupt?
  {
    var p := s.procs[id];
    if p.pc.Drain? {
      var h := HostOf(cfg, p);
      assert ProcLinked(cfg, s, p) && HostConserved(cfg, s, h);
      CountSet(cfg, HoldsHost(h), s.procs, id, p);
      CurrentTokens(s, h);
      ev := Advance(id);
    } else {
      ev := FreeToMove(cfg, s, id);
    }
  }

  /** Whoever waits for a host slot can take it, or someone who holds it can go on. */
  lemma WaiterMoves(cfg: Config, s: State, id: nat) returns (ev: Event)
    requires Lively(cfg) && Good(cfg, s) && id < |s.procs| && s.buffer == [] && s.procs[id].pc.Want?
    ensures Enabled(cfg, s, ev) && !ev.Interrupt?
  {
    var p := s.procs[id];
    var h := HostOf(cfg, p);
    assert ProcLinked(cfg, s, p) && HostConserved(cfg, s, h);
    if s.chans[p.pc.chan].tokens < cfg.hostLimit {
      ev := Advance(id);
    } else {
      CurrentTokens(s, h);
      var holder := CountHasOne(cfg, HoldsHost(h), s.procs);
      ev := HolderMoves(cfg, s, holder);
    }
  }

  /** The same for the global slots, although their holders may wait for a host slot. */
  lemma ArriverMoves(cfg: Config, s: State, id: nat) returns (ev: Event)
    requires Lively(cfg) && Good(cfg, s) && id < |s.procs| && s.buffer == [] && s.procs[id].pc.Arrive?
    ensures Enabled(cfg, s, ev) && !ev.Interrupt?
  {
    if cfg.globalLimit == 0 || s.global < cfg.globalLimit {
      ev := Advance(id);
    } else {
      var holder := CountHasOne(cfg, HoldsGlobal, s.procs);
      if s.procs[holder].pc.Want? {
        ev := WaiterMoves(cfg, s, holder);
      } else {
        ev := FreeToMove(cfg, s, holder);
      }
    }
  }

  lemma UndoneMoves(cfg: Config, s: State) returns (ev: Event)
    requires Lively(cfg) && Good(cfg, s) && s.buffer == [] && s.wg > 0
    ensures Enabled(cfg, s, ev) && !ev.Interrupt?
  {
    var id := CountHasOne(cfg, Undone, s.procs);
    if s.procs[id].pc.Arrive? {
      ev := ArriverMoves(cfg, s, id);
    } else if s.procs[id].pc.Want? {
      ev := WaiterMoves(cfg, s, id);
    } else {
      ev := FreeToMove(cfg, s, id);
    }
  }

  lemma ExportersMove(cfg: Config, s: State) returns (ev: Event)
    requires Lively(cfg) && Good(cfg, s) && s.relay.Ended? && !s.main.Returned?
    ensures Enabled(cfg, s, ev) && !ev.Interrupt?
  {
    if ExportersDone(s) {
      ev := Main;
    } else {
      var j :| 0 <= j < |s.finished| && !s.finished[j];
      ev := Export(j);
    }
  }

  lemma RelayMoves(cfg: Config, s: State)
    requires Lively(cfg) && Good(cfg, s) && !s.relay.Ended? && (s.relay.Sending? || s.buffer != [] || s.closed)
    ensures Enabled(cfg, s, Copy)
  {
  }

  lemma SomethingMoves(cfg: Config, s: State) returns (ev: Event)
    requires Lively(cfg) && Good(cfg, s) && !s.main.Returned?
    ensures Enabled(cfg, s, ev) && !ev.Interrupt?
  {
    if s.relay.Ended? {
      ev := ExportersMove(cfg, s);
    } else if s.relay.Sending? || s.buffer != [] || s.closed {
      RelayMoves(cfg, s);
      ev := Copy;
    } else if s.main.Waiting? && s.wg > 0 {
      ev := UndoneMoves(cfg, s);
    } else {
      CountNotNegative(cfg, s);
      ev := Main;
    }
  }

  lemma CountNotNegative(cfg: Config, s: State)
    requires Counted(cfg, s)
    ensures s.wg >= 0
  {
  }

  /** Some step is enabled, leaving aside that an interrupt may come at any time. */
  ghost predicate Live(cfg: Config, s: State) {
    exists ev :: Enabled(cfg, s, ev) && !ev.Interrupt?
  }

  predicate CalmRun(cfg: Config, run: seq<Event>)
    requires IsRun(cfg, run)
    decreases |run|
  {
    Calm(cfg, After(cfg, run)) && (run == [] || CalmRun(cfg, run[..|run| - 1]))
  }

  lemma {:induction false} AlwaysGood(cfg: Config, run: seq<Event>)
    requires Lively(cfg) && IsRun(cfg, run) && CalmRun(cfg, run)
    ensures Good(cfg, After(cfg, run))
  {
    AlwaysInv(cfg, run);
    AlwaysFan(cfg, run);
    if run != [] {
      var before := run[..|run| - 1];
      AlwaysGood(cfg, before);
      CurrentStep(cfg, After(cfg, before), run[|run| - 1]);
      AsyncStep(cfg, After(cfg, before), run[|run| - 1]);
    }
  }

  /** Deadlock freedom: with asynchronous requests, draining exporters and first lookups
      that do not overlap, every reachable state in which Start has not returned has an
      enabled step, although requests wait for host slots while holding global ones. */
  lemma DeadlockFreedom(cfg: Config, run: seq<Event>)
    requires Lively(cfg) && IsRun(cfg, run) && CalmRun(cfg, run) && !After(cfg, run).main.Returned?
    ensures Live(cfg, After(cfg, run))
  {
    AlwaysGood(cfg, run);
    var _ := SomethingMoves(cfg, After(cfg, run));
  }

  lemma {:induction false} AlwaysCurrent(cfg: Config, run: seq<Event>)
    requires IsRun(cfg, run) && CalmRun(cfg, run)
    ensures Current(After(cfg, run))
  {
    if run != [] {
      var before := run[..|run| - 1];
      AlwaysCurrent(cfg, before);
      AlwaysInv(cfg, before);
      CurrentStep(cfg, After(cfg, before), run[|run| - 1]);
    }
  }

  lemma OneShare(share: nat, limit: nat, n: nat)
    requires share <= limit * n && n <= 1
    ensures share <= limit
  {
    assert n == 0 || n == 1;
  }

  /** Without overlapping first lookups the host limit is the limit, for synchronized and
      panicking requests, exporters that give up and clients that never answer too. */
  lemma HostLimitHolds(cfg: Config, run: seq<Event>, h: string)
    requires IsRun(cfg, run) && CalmRun(cfg, run)
    ensures Count(cfg, HoldsHost(h), After(cfg, run).procs) <= cfg.hostLimit
  {
    AlwaysCurrent(cfg, run);
    HostSlots(cfg, run, h);
    CurrentTokens(After(cfg, run), h);
    OneShare(Count(cfg, HoldsHost(h), After(cfg, run).procs), cfg.hostLimit, Channels(After(cfg, run).chans, h));
  }

  // ----- Start returns -----

  /** The sequence has followed the engine up to state `i`. */
  ghost predicate Reached(cfg: Config, states: nat -> State, events: nat -> Event, i: nat) {
    forall j: nat :: j < i ==> Enabled(cfg, states(j), events(j))
  }

  lemma {:induction false} GoodAt(cfg: Config, states: nat -> State, events: nat -> Event, i: nat)
    requires Lively(cfg) && IsExecution(cfg, states, events)
    requires forall j: nat :: Reached(cfg, states, events, j) ==> Calm(cfg, states(j))
    requires Reached(cfg, states, events, i)
    ensures Good(cfg, states(i))
  {
    if i == 0 {
      assert IsRun(cfg, []);
      AlwaysInv(cfg, []);
      AlwaysFan(cfg, []);
    } else {
      GoodAt(cfg, states, events, i - 1);
      var s, ev := states(i - 1), events(i - 1);
      InvStep(cfg, s, ev);
      FanStep(cfg, s, ev);
      assert Calm(cfg, s);
      CurrentStep(cfg, s, ev);
      AsyncStep(cfg, s, ev);
    }
  }

  /** Total correctness of Start: under the assumptions of termination and of deadlock
      freedom, any scheduler that takes some enabled step while there is one reaches a
      state in which Start has returned. */
  lemma StartReturns(cfg: Config, universe: set<string>, states: nat -> State, events: nat -> Event) returns (i: nat)
    requires FiniteCrawl(cfg, universe) && Lively(cfg) && IsExecution(cfg, states, events)
    requires forall i: nat :: Reached(cfg, states, events, i) ==> Calm(cfg, states(i))
    requires forall i: nat :: Live(cfg, states(i)) ==> Enabled(cfg, states(i), events(i))
    ensures states(i).main.Returned?
  {
    i := EveryRunEnds(cfg, universe, states, events);
    GoodAt(cfg, states, events, i);
    if !states(i).main.Returned? {
      var _ := SomethingMoves(cfg, states(i));
      assert Live(cfg, states(i));
    }
  }
}
