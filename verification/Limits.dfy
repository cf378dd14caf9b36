/** Which limits make the crawl engine free of deadlocks, whatever the schedule: no host
    limit, or one request at a time. Under every other pair of limits a crawl can hang. */
module Limits {
  import opened Engine
  import opened Lifecycle
  import opened Exports
  import opened Halting
  import opened Progress
  import opened LostSlot

  predicate Safe(g: nat, k: nat) {
    k == 0 || g == 1
  }

  // ----- under these limits first lookups never overlap -----

  /** Whoever is about to install a channel found none, and there is still none. */
  predicate NoneYet(cfg: Config, s: State) {
    forall id :: 0 <= id < |s.procs| && s.procs[id].pc.Install? ==> HostOf(cfg, s.procs[id]) !in s.table
  }

  /** With one global slot two requests never hold one at once. */
  lemma OneHolder(cfg: Config, procs: seq<Proc>, i: nat, j: nat)
    requires cfg.globalLimit > 0 && Count(cfg, HoldsGlobal, procs) <= 1 && i < |procs| && j < |procs| && i != j
    ensures !(PastGlobal(procs[i].pc) && PastGlobal(procs[j].pc))
  {
    var without := procs[i := procs[i].(pc := Gone)];
    CountSet(cfg, HoldsGlobal, procs, i, without[i]);
    CountSet(cfg, HoldsGlobal, without, j, without[j]);
  }

  lemma InstallsOnlyIfNone(cfg: Config, s: State, id: nat)
    requires id < |s.procs| && ProcEnabled(cfg, s, s.procs[id])
    ensures var s' := StepProc(cfg, s, id);
      && (s'.procs[id].pc.Install? ==> HostOf(cfg, s.procs[id]) !in s'.table)
      && (!s.procs[id].pc.Install? ==> s'.table == s.table)
  {
    if s.procs[id].pc.Run? && s.procs[id].pc.acts != [] {
      ActionTarget(s, id, s.procs[id].pc.acts);
      ActionHost(cfg, s, id, s.procs[id].pc.acts, "");
    }
  }

  lemma NoneYetProc(cfg: Config, s: State, id: nat)
    requires cfg.globalLimit == 1 && GlobalConserved(cfg, s) && NoneYet(cfg, s)
    requires id < |s.procs| && ProcEnabled(cfg, s, s.procs[id])
    ensures NoneYet(cfg, StepProc(cfg, s, id))
  {
    var s' := StepProc(cfg, s, id);
    var pc := s.procs[id].pc;
    ProcMoves(cfg, s, id);
    InstallsOnlyIfNone(cfg, s, id);
    forall i | 0 <= i < |s'.procs| && s'.procs[i].pc.Install? ensures HostOf(cfg, s'.procs[i]) !in s'.table {
      if pc.Install? && i != id {
        OneHolder(cfg, s.procs, i, id);
      }
    }
  }

  lemma NoneYetStep(cfg: Config, s: State, ev: Event)
    requires cfg.globalLimit == 1 && GlobalConserved(cfg, s) && NoneYet(cfg, s) && Enabled(cfg, s, ev)
    ensures NoneYet(cfg, Step(cfg, s, ev))
  {
    if ev.Advance? {
      NoneYetProc(cfg, s, ev.id);
    } else {
      StepMoves(cfg, s, ev);
      IdleHost(cfg, s, ev, "");
    }
  }

  /** What the limits keep. */
  predicate Ordered(cfg: Config, s: State) {
    cfg.globalLimit == 1 ==> NoneYet(cfg, s)
  }

  lemma OrderedStep(cfg: Config, s: State, ev: Event)
    requires Lifecycle.Inv(cfg, s) && Ordered(cfg, s) && Enabled(cfg, s, ev)
    ensures Ordered(cfg, Step(cfg, s, ev))
  {
    if cfg.globalLimit == 1 {
      NoneYetStep(cfg, s, ev);
    }
  }

  lemma OrderedIsCalm(cfg: Config, s: State)
    requires Safe(cfg.globalLimit, cfg.hostLimit) && Lifecycle.Inv(cfg, s) && Ordered(cfg, s)
    ensures Calm(cfg, s)
  {
    forall id | 0 <= id < |s.procs| && s.procs[id].pc.Install?
      ensures cfg.globalLimit == 1 && forall j :: 0 <= j < |s.procs| && j != id ==> !s.procs[j].pc.Install?
    {
      assert ProcLinked(cfg, s, s.procs[id]);
      forall j | 0 <= j < |s.procs| && j != id ensures !s.procs[j].pc.Install? {
        OneHolder(cfg, s.procs, id, j);
      }
    }
  }

  lemma {:induction false} SafeRunsAreCalm(cfg: Config, run: seq<Event>)
    requires Safe(cfg.globalLimit, cfg.hostLimit) && IsRun(cfg, run)
    ensures CalmRun(cfg, run) && Ordered(cfg, After(cfg, run))
  {
    AlwaysInv(cfg, run);
    if run != [] {
      var before := run[..|run| - 1];
      SafeRunsAreCalm(cfg, before);
      AlwaysInv(cfg, before);
      OrderedStep(cfg, After(cfg, before), run[|run| - 1]);
    }
    OrderedIsCalm(cfg, After(cfg, run));
  }

  // ----- a crawl that cannot finish comes to a standstill -----

  lemma {:induction false} AlwaysBounded(cfg: Config, universe: set<string>, run: seq<Event>)
    requires FiniteCrawl(cfg, universe) && IsRun(cfg, run)
    ensures AllBounded(universe, After(cfg, run))
  {
    if run != [] {
      var before := run[..|run| - 1];
      AlwaysBounded(cfg, universe, before);
      BoundedStep(cfg, universe, After(cfg, before), run[|run| - 1]);
    }
  }

  /** Every run of a finite crawl can be continued until no step is left. */
  lemma {:induction false} RunsOut(cfg: Config, universe: set<string>, run: seq<Event>) returns (end: seq<Event>)
    requires FiniteCrawl(cfg, universe) && IsRun(cfg, run)
    ensures run <= end && IsRun(cfg, end) && !Live(cfg, After(cfg, end))
    decreases Unstarted(cfg, universe, After(cfg, run)), Pending(cfg, After(cfg, run)), Motion(cfg, After(cfg, run))
  {
    hide Unstarted, Pending, Motion, Step, Enabled, FiniteCrawl, AllBounded, FanOk;
    if Live(cfg, After(cfg, run)) {
      var ev := NextEvent(cfg, universe, run);
      end := RunsOut(cfg, universe, run + [ev]);
    } else {
      end := run;
    }
  }

  lemma NextEvent(cfg: Config, universe: set<string>, run: seq<Event>) returns (ev: Event)
    requires FiniteCrawl(cfg, universe) && IsRun(cfg, run) && Live(cfg, After(cfg, run))
    ensures IsRun(cfg, run + [ev]) && Motion(cfg, After(cfg, run)) >= 0
    ensures Decreases(cfg, universe, After(cfg, run), After(cfg, run + [ev]))
  {
    hide Unstarted, Pending, Motion, Step, Decreases, AllBounded, FanOk;
    ev :| Enabled(cfg, After(cfg, run), ev) && !ev.Interrupt?;
    AlwaysBounded(cfg, universe, run);
    AlwaysFan(cfg, run);
    StepDecreases(cfg, universe, After(cfg, run), ev);
    MotionIsNat(cfg, After(cfg, run));
    Extend(cfg, run, ev);
  }

  function Urls(n: nat): (us: set<string>)
    ensures forall i :: 0 <= i < n ==> Url(i) in us
  {
    if n == 0 then {} else Urls(n - 1) + {Url(n - 1)}
  }

  /** A reachable state in which Start has not returned and no step is enabled. */
  lemma Standstill(g: nat, k: nat) returns (run: seq<Event>)
    requires !Safe(g, k)
    ensures Lively(OneHost(g, k)) && IsRun(OneHost(g, k), run)
    ensures !After(OneHost(g, k), run).main.Returned? && !Live(OneHost(g, k), After(OneHost(g, k), run))
  {
    run := OverlapLosesASlot(g, k);
    assert FiniteCrawl(OneHost(g, k), Urls(k + 2));
    var end := RunsOut(OneHost(g, k), Urls(k + 2), run);
    assert run + end[|run|..] == end;
    run := end;
  }

  // ----- the theorems -----

  /** Every reachable unfinished state of every lively crawl with these limits has an
      enabled step. */
  ghost predicate DeadlockFree(g: nat, k: nat) {
    forall cfg, run :: Lively(cfg) && cfg.globalLimit == g && cfg.hostLimit == k && IsRun(cfg, run) && !After(cfg, run).main.Returned? ==>
      Live(cfg, After(cfg, run))
  }

  /** Deadlock freedom exactly: a maintainer has it if and only if there is no host limit
      or one request runs at a time. */
  lemma DeadlockFreeIffSafe(g: nat, k: nat)
    ensures DeadlockFree(g, k) <==> Safe(g, k)
  {
    if Safe(g, k) {
      forall cfg, run | Lively(cfg) && cfg.globalLimit == g && cfg.hostLimit == k && IsRun(cfg, run) && !After(cfg, run).main.Returned?
        ensures Live(cfg, After(cfg, run))
      {
        SafeRunsAreCalm(cfg, run);
        DeadlockFreedom(cfg, run);
      }
    } else {
      var run := Standstill(g, k);
    }
  }

  lemma {:induction false} SafeSequenceIsCalm(cfg: Config, states: nat -> State, events: nat -> Event, i: nat)
    requires Safe(cfg.globalLimit, cfg.hostLimit) && IsExecution(cfg, states, events) && Reached(cfg, states, events, i)
    ensures Lifecycle.Inv(cfg, states(i)) && Ordered(cfg, states(i)) && Calm(cfg, states(i))
  {
    if i == 0 {
      assert IsRun(cfg, []);
      AlwaysInv(cfg, []);
    } else {
      SafeSequenceIsCalm(cfg, states, events, i - 1);
      InvStep(cfg, states(i - 1), events(i - 1));
      OrderedStep(cfg, states(i - 1), events(i - 1));
    }
    OrderedIsCalm(cfg, states(i));
  }

  /** Under these limits Start returns with no condition on the schedule. */
  lemma SafeStartReturns(cfg: Config, universe: set<string>, states: nat -> State, events: nat -> Event) returns (i: nat)
    requires Safe(cfg.globalLimit, cfg.hostLimit) && FiniteCrawl(cfg, universe) && Lively(cfg)
    requires IsExecution(cfg, states, events)
    requires forall i: nat :: Live(cfg, states(i)) ==> Enabled(cfg, states(i), events(i))
    ensures states(i).main.Returned?
  {
    forall i: nat | Reached(cfg, states, events, i) ensures Calm(cfg, states(i)) {
      SafeSequenceIsCalm(cfg, states, events, i);
    }
    i := StartReturns(cfg, universe, states, events);
  }
}
