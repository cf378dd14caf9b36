/** Over a finite universe of URLs every run of the crawl engine is finite. */
module Halting {
  import opened Engine
  import opened Lifecycle
  import opened Exports

  /** Every request in `acts` is a GET of a URL of the universe. */
  predicate Bounded(universe: set<string>, acts: seq<Action>) {
    forall i :: 0 <= i < |acts| && acts[i].Spawn? ==> acts[i].req.get && acts[i].req.url in universe
  }

  /** Revisits off and GETs of the universe only; outcomes may vary and panics may strike. */
  ghost predicate FiniteCrawl(cfg: Config, universe: set<string>) {
    !cfg.revisit && Bounded(universe, cfg.seeds) && forall u, acts :: cfg.behaves(u, acts) ==> Bounded(universe, acts)
  }

  predicate ProcBounded(universe: set<string>, p: Proc) {
    p.req.get && p.req.url in universe && Bounded(universe, Rest(p.pc))
  }

  predicate AllBounded(universe: set<string>, s: State) {
    Bounded(universe, MainRest(s.main)) && forall id :: 0 <= id < |s.procs| ==> ProcBounded(universe, s.procs[id])
  }

  // ----- the measure -----

  /** Unvisited URLs, and admitted requests whose callback has not started. */
  function Unstarted(cfg: Config, universe: set<string>, s: State): nat {
    |universe - s.visited| + Count(cfg, Visits, s.procs)
  }

  /** Actions that callbacks and Start have still to do. */
  function Pending(cfg: Config, s: State): nat {
    Count(cfg, Owed, s.procs) + |MainRest(s.main)|
  }

  function MainPhases(m: MainPc): nat {
    match m case Pausing(_, _) => 5 case Starting(_) => 4 case Waiting => 3 case Passed => 2 case Closed => 1 case Returned => 0
  }

  function RelayPhases(s: State): int {
    match s.relay case Sending(_, j) => |s.received| - j + 2 case Idle => 1 case Ended => 0
  }

  function Unfinished(finished: seq<bool>): nat {
    if finished == [] then 0 else Unfinished(finished[..|finished| - 1]) + if finished[|finished| - 1] then 0 else 1
  }

  /** Phases of everything that moves, the items in the export channel among it. */
  function Motion(cfg: Config, s: State): int {
    Count(cfg, Remaining, s.procs) + MainPhases(s.main) + |s.buffer| * (|s.received| + 2) + RelayPhases(s)
      + Unfinished(s.finished) + if s.shutdown then 0 else 1
  }

  /** The three components, compared lexicographically. */
  predicate Decreases(cfg: Config, universe: set<string>, s: State, s': State) {
    || Unstarted(cfg, universe, s') < Unstarted(cfg, universe, s)
    || (Unstarted(cfg, universe, s') == Unstarted(cfg, universe, s) && Pending(cfg, s') < Pending(cfg, s))
    || (Unstarted(cfg, universe, s') == Unstarted(cfg, universe, s) && Pending(cfg, s') == Pending(cfg, s) && Motion(cfg, s') < Motion(cfg, s))
  }

  /** What the moved and launched requests add to the counts, as a step sees it. */
  function Delta(cfg: Config, m: Meter, s: State, s': State, id: int): int {
    MoverWeight(cfg, m, s'.procs, id) + LaunchedWeight(cfg, m, s, s') - MoverWeight(cfg, m, s.procs, id)
  }

  /** The same comparison on what a step changes locally. */
  predicate LocallyDecreases(cfg: Config, universe: set<string>, s: State, s': State, id: int) {
    var a := |universe - s'.visited| - |universe - s.visited| + Delta(cfg, Visits, s, s', id);
    var b := Delta(cfg, Owed, s, s', id) + |MainRest(s'.main)| - |MainRest(s.main)|;
    var c := Delta(cfg, Remaining, s, s', id) + OtherMotion(s') - OtherMotion(s);
    a < 0 || (a == 0 && b < 0) || (a == 0 && b == 0 && c < 0)
  }

  function OtherMotion(s: State): int {
    MainPhases(s.main) + |s.buffer| * (|s.received| + 2) + RelayPhases(s) + Unfinished(s.finished) + if s.shutdown then 0 else 1
  }

  lemma LocalIsEnough(cfg: Config, universe: set<string>, s: State, s': State, id: int)
    requires Moves(s, s', id) && id < |s.procs| && LocallyDecreases(cfg, universe, s, s', id)
    ensures Decreases(cfg, universe, s, s')
  {
    MeterMoves(cfg, Visits, s, s', id);
    MeterMoves(cfg, Owed, s, s', id);
    MeterMoves(cfg, Remaining, s, s', id);
  }

  lemma ActionDecreases(cfg: Config, universe: set<string>, s: State, id: nat, acts: seq<Action>)
    requires id < |s.procs| && acts != [] && s.procs[id].pc == Run(acts)
    ensures LocallyDecreases(cfg, universe, s, StepAction(s, id, acts), id)
  {
  }

  lemma FewerUnvisited(universe: set<string>, visited: set<string>, url: string)
    requires url in universe && url !in visited
    ensures |universe - (visited + {url})| == |universe - visited| - 1
  {
    assert universe - (visited + {url}) == (universe - visited) - {url};
  }

  /** Moving to an earlier phase with nothing more to do. */
  lemma PhaseDecreases(cfg: Config, universe: set<string>, s: State, s': State, id: nat)
    requires id < |s.procs| && |s'.procs| == |s.procs| && s'.visited == s.visited && OtherMotion(s') == OtherMotion(s)
    requires MainRest(s'.main) == MainRest(s.main) && Rest(s'.procs[id].pc) == Rest(s.procs[id].pc)
    requires Phases(s'.procs[id].pc) < Phases(s.procs[id].pc) && (Visiting(s'.procs[id].pc) ==> Visiting(s.procs[id].pc))
    ensures LocallyDecreases(cfg, universe, s, s', id)
  {
  }

  lemma VisitDecreases(cfg: Config, universe: set<string>, s: State, id: nat)
    requires id < |s.procs| && s.procs[id].pc.Duplicate? && ProcBounded(universe, s.procs[id]) && !cfg.revisit
    ensures LocallyDecreases(cfg, universe, s, StepVisit(cfg, s, id, s.procs[id].req), id)
  {
    var url := s.procs[id].req.url;
    if url !in s.visited {
      FirstVisitDecreases(cfg, universe, s, id, url);
    } else {
      PhaseDecreases(cfg, universe, s, Move(s, id, Leave), id);
    }
  }

  lemma FirstVisitDecreases(cfg: Config, universe: set<string>, s: State, id: nat, url: string)
    requires id < |s.procs| && s.procs[id].pc.Duplicate? && url in universe && url !in s.visited
    ensures LocallyDecreases(cfg, universe, s, Move(s, id, Robots).(visited := s.visited + {url}), id)
  {
    var s' := Move(s, id, Robots).(visited := s.visited + {url});
    FewerUnvisited(universe, s.visited, url);
    assert OtherMotion(s') == OtherMotion(s);
  }

  lemma ProcDecreases(cfg: Config, universe: set<string>, s: State, id: nat)
    requires id < |s.procs| && ProcBounded(universe, s.procs[id]) && !cfg.revisit && ProcEnabled(cfg, s, s.procs[id])
    ensures LocallyDecreases(cfg, universe, s, StepProc(cfg, s, id), id)
  {
    var pc := s.procs[id].pc;
    if pc.Duplicate? {
      VisitDecreases(cfg, universe, s, id);
    } else if pc.Run? && pc.acts != [] {
      ActionDecreases(cfg, universe, s, id, pc.acts);
    } else {
      PlainFrame(cfg, s, id);
      PlainPhase(cfg, s, id);
      PhaseDecreases(cfg, universe, s, StepProc(cfg, s, id), id);
    }
  }

  lemma MainDecreases(cfg: Config, universe: set<string>, s: State)
    requires MainEnabled(s)
    ensures LocallyDecreases(cfg, universe, s, StepMain(s), -1)
  {
  }

  lemma CopyDecreases(cfg: Config, universe: set<string>, s: State)
    requires FanOk(cfg, s) && CopyEnabled(s)
    ensures LocallyDecreases(cfg, universe, s, StepCopy(s), -1)
  {
    var s' := StepCopy(s);
    assert |s'.received| == |s.received|;
    if s.relay.Idle? && s.buffer != [] {
      assert |s.buffer| == 1 && |s'.buffer| == 0;
      assert OtherMotion(s') == OtherMotion(s) - 1;
    }
  }

  lemma {:induction false} UnfinishedSet(finished: seq<bool>, j: nat)
    requires j < |finished| && !finished[j]
    ensures Unfinished(finished[j := true]) == Unfinished(finished) - 1
  {
    var front := finished[..|finished| - 1];
    if j == |finished| - 1 {
      assert finished[j := true][..|finished| - 1] == front;
    } else {
      assert finished[j := true][..|finished| - 1] == front[j := true];
      UnfinishedSet(front, j);
    }
  }

  lemma JudgeDecreases(cfg: Config, universe: set<string>, s: State, ev: Event)
    requires Enabled(cfg, s, ev) && (ev.Judge? || ev.Respond? || ev.Crash?)
    ensures LocallyDecreases(cfg, universe, s, Step(cfg, s, ev), Mover(ev))
  {
  }

  lemma OtherDecreases(cfg: Config, universe: set<string>, s: State, ev: Event)
    requires FanOk(cfg, s) && Enabled(cfg, s, ev) && (ev.Main? || ev.Copy? || ev.Export? || ev.Interrupt?)
    ensures LocallyDecreases(cfg, universe, s, Step(cfg, s, ev), -1)
  {
    match ev
    case Main => MainDecreases(cfg, universe, s);
    case Copy => CopyDecreases(cfg, universe, s);
    case Export(j) => UnfinishedSet(s.finished, j);
    case Interrupt =>
  }

  /** Every step decreases the measure. */
  lemma StepDecreases(cfg: Config, universe: set<string>, s: State, ev: Event)
    requires !cfg.revisit && AllBounded(universe, s) && FanOk(cfg, s) && Enabled(cfg, s, ev)
    ensures Decreases(cfg, universe, s, Step(cfg, s, ev))
  {
    StepMoves(cfg, s, ev);
    if ev.Advance? {
      ProcDecreases(cfg, universe, s, ev.id);
    } else if ev.Judge? || ev.Respond? || ev.Crash? {
      JudgeDecreases(cfg, universe, s, ev);
    } else {
      OtherDecreases(cfg, universe, s, ev);
    }
    LocalIsEnough(cfg, universe, s, Step(cfg, s, ev), Mover(ev));
  }

  // ----- requests stay in the universe -----

  predicate StaysBounded(universe: set<string>, s: State, s': State, id: int) {
    && Bounded(universe, MainRest(s'.main))
    && (0 <= id < |s'.procs| ==> ProcBounded(universe, s'.procs[id]))
    && (|s'.procs| > |s.procs| ==> ProcBounded(universe, s'.procs[|s.procs|]))
  }

  lemma ActionBounded(universe: set<string>, s: State, id: nat, acts: seq<Action>)
    requires AllBounded(universe, s) && id < |s.procs| && acts != [] && s.procs[id].pc == Run(acts)
    ensures StaysBounded(universe, s, StepAction(s, id, acts), id)
  {
    assert ProcBounded(universe, s.procs[id]);
    assert Bounded(universe, acts[1..]);
  }

  lemma ProcStaysBounded(cfg: Config, universe: set<string>, s: State, id: nat)
    requires AllBounded(universe, s) && id < |s.procs| && ProcEnabled(cfg, s, s.procs[id])
    ensures StaysBounded(universe, s, StepProc(cfg, s, id), id)
  {
    assert ProcBounded(universe, s.procs[id]);
    if s.procs[id].pc.Run? && s.procs[id].pc.acts != [] {
      ActionBounded(universe, s, id, s.procs[id].pc.acts);
    } else if !s.procs[id].pc.Duplicate? {
      PlainFrame(cfg, s, id);
      PlainPhase(cfg, s, id);
    }
  }

  lemma MainStaysBounded(universe: set<string>, s: State)
    requires AllBounded(universe, s) && MainEnabled(s)
    ensures StaysBounded(universe, s, StepMain(s), -1)
  {
  }

  lemma AllStayBounded(universe: set<string>, s: State, s': State, id: int)
    requires AllBounded(universe, s) && Moves(s, s', id) && id < |s.procs| && StaysBounded(universe, s, s', id)
    ensures AllBounded(universe, s')
  {
  }

  lemma BoundedStep(cfg: Config, universe: set<string>, s: State, ev: Event)
    requires FiniteCrawl(cfg, universe) && AllBounded(universe, s) && Enabled(cfg, s, ev)
    ensures AllBounded(universe, Step(cfg, s, ev))
  {
    StepMoves(cfg, s, ev);
    match ev
    case Main =>
      MainStaysBounded(universe, s);
      AllStayBounded(universe, s, StepMain(s), -1);
    case Advance(id) =>
      ProcStaysBounded(cfg, universe, s, id);
      AllStayBounded(universe, s, StepProc(cfg, s, id), id);
    case _ => JudgeBounded(cfg, universe, s, ev);
  }

  lemma JudgeBounded(cfg: Config, universe: set<string>, s: State, ev: Event)
    requires FiniteCrawl(cfg, universe) && AllBounded(universe, s) && Enabled(cfg, s, ev) && !ev.Main? && !ev.Advance?
    ensures AllBounded(universe, Step(cfg, s, ev))
  {
    if 0 <= Mover(ev) {
      assert ProcBounded(universe, s.procs[Mover(ev)]);
    }
  }

  // ----- the theorem -----

  /** An infinite sequence of states and events that follows the engine. */
  ghost predicate IsExecution(cfg: Config, states: nat -> State, events: nat -> Event) {
    states(0) == Init(cfg) &&
    forall i: nat :: Enabled(cfg, states(i), events(i)) ==> states(i + 1) == Step(cfg, states(i), events(i))
  }

  lemma {:induction false} StopsAfter(cfg: Config, universe: set<string>, states: nat -> State, events: nat -> Event, i: nat) returns (stop: nat)
    requires FiniteCrawl(cfg, universe) && IsExecution(cfg, states, events)
    requires Lifecycle.Inv(cfg, states(i)) && FanOk(cfg, states(i)) && AllBounded(universe, states(i))
    ensures stop >= i && !Enabled(cfg, states(stop), events(stop))
    ensures forall j: nat :: i <= j < stop ==> Enabled(cfg, states(j), events(j))
    decreases Unstarted(cfg, universe, states(i)), Pending(cfg, states(i)), Motion(cfg, states(i))
  {
    var s, ev := states(i), events(i);
    if !Enabled(cfg, s, ev) {
      stop := i;
    } else {
      InvStep(cfg, s, ev);
      FanStep(cfg, s, ev);
      BoundedStep(cfg, universe, s, ev);
      StepDecreases(cfg, universe, s, ev);
      MotionIsNat(cfg, s);
      stop := StopsAfter(cfg, universe, states, events, i + 1);
    }
  }

  lemma MotionIsNat(cfg: Config, s: State)
    requires FanOk(cfg, s)
    ensures Motion(cfg, s) >= 0
  {
  }

  /** Crawl termination: over a finite universe of URLs, with revisits off and GETs only,
      no run is infinite, whatever the outcomes, panics, nesting, exports or shutdown: the
      sequence meets an event that is not enabled, here the first one. */
  lemma EveryRunEnds(cfg: Config, universe: set<string>, states: nat -> State, events: nat -> Event) returns (stop: nat)
    requires FiniteCrawl(cfg, universe) && IsExecution(cfg, states, events)
    ensures !Enabled(cfg, states(stop), events(stop))
    ensures forall j: nat :: j < stop ==> Enabled(cfg, states(j), events(j))
  {
    assert IsRun(cfg, []);
    AlwaysInv(cfg, []);
    AlwaysFan(cfg, []);
    stop := StopsAfter(cfg, universe, states, events, 0);
  }
}
