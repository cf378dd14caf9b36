/** The run that overlapping first lookups of a host allow: a request waits for ever on a
    channel that is no longer in the host table, and Start never returns. */
module LostSlot {
  import opened Engine
  import opened Lifecycle
  import opened Progress

  /** Request `id` waits on a full channel that nobody will look up or drain any more. */
  predicate Stuck(cfg: Config, s: State, id: nat, c: nat) {
    && id < |s.procs| && s.procs[id].pc == Want(c) && c < |s.chans|
    && 0 < cfg.hostLimit <= s.chans[c].tokens
    && s.chans[c].host in s.table && s.table[s.chans[c].host] != c
    && forall i :: 0 <= i < |s.procs| ==> s.procs[i].pc != Drain(c)
  }

  lemma StuckKept(cfg: Config, s: State, s': State, id: nat, c: nat, mover: nat)
    requires Stuck(cfg, s, id, c) && mover != id && Moves(s, s', mover) && s'.chans == s.chans && s'.table == s.table
    requires mover < |s'.procs| ==> s'.procs[mover].pc != Drain(c)
    ensures Stuck(cfg, s', id, c)
  {
  }

  lemma StuckProc(cfg: Config, s: State, id: nat, c: nat, mover: nat)
    requires Linked(cfg, s) && Stuck(cfg, s, id, c) && mover < |s.procs| && ProcEnabled(cfg, s, s.procs[mover])
    ensures Stuck(cfg, StepProc(cfg, s, mover), id, c)
  {
    assert mover != id;
    if TouchesHost(s.procs[mover].pc) {
      assert ProcLinked(cfg, s, s.procs[mover]);
    } else {
      ProcMoves(cfg, s, mover);
      OtherHost(cfg, s, mover, "");
      OtherTarget(cfg, s, mover);
      StuckKept(cfg, s, StepProc(cfg, s, mover), id, c, mover);
    }
  }

  /** Nothing frees the request: not even a panic, a shutdown or another installation. */
  lemma StuckStep(cfg: Config, s: State, id: nat, c: nat, ev: Event)
    requires Linked(cfg, s) && Stuck(cfg, s, id, c) && Enabled(cfg, s, ev)
    ensures Stuck(cfg, Step(cfg, s, ev), id, c)
  {
    if ev.Advance? {
      StuckProc(cfg, s, id, c, ev.id);
    } else {
      StepMoves(cfg, s, ev);
      IdleHost(cfg, s, ev, "");
    }
  }

  lemma LinkedAfter(cfg: Config, run: seq<Event>)
    requires IsRun(cfg, run)
    ensures Linked(cfg, After(cfg, run))
  {
    AlwaysInv(cfg, run);
  }

  lemma {:induction false} StuckForGood(cfg: Config, run: seq<Event>, more: seq<Event>, id: nat, c: nat)
    requires IsRun(cfg, run) && IsRun(cfg, run + more) && Stuck(cfg, After(cfg, run), id, c)
    ensures Stuck(cfg, After(cfg, run + more), id, c)
  {
    if more == [] {
      assert run + more == run;
    } else {
      var less, last := more[..|more| - 1], more[|more| - 1];
      assert run + more == (run + less) + [last];
      LastStep(cfg, run + less, last);
      StuckForGood(cfg, run, less, id, c);
      LinkedAfter(cfg, run + less);
      StuckStep(cfg, After(cfg, run + less), id, c, last);
    }
  }

  /** A stuck request keeps Start from passing Wait. */
  lemma StuckNeverReturns(cfg: Config, run: seq<Event>, id: nat, c: nat)
    requires IsRun(cfg, run) && Stuck(cfg, After(cfg, run), id, c)
    ensures !PastWait(After(cfg, run).main)
  {
    AlwaysInv(cfg, run);
    var s := After(cfg, run);
    CountSet(cfg, Undone, s.procs, id, s.procs[id]);
  }

  // ----- the run -----

  function Url(i: nat): (u: string)
    ensures |u| == i
  {
    seq(i, _ => 'a')
  }

  function Visit(i: nat): Req {
    Req(Url(i), true, false)
  }

  function Seeds(n: nat): (acts: seq<Action>)
    ensures |acts| == n && forall i :: 0 <= i < n ==> acts[i] == Spawn(Visit(i))
  {
    seq(n, (i: nat) => Spawn(Visit(i)))
  }

  /** A site with `k + 2` start URLs on one host and no links, under the limits `g` and `k`. */
  function OneHost(g: nat, k: nat): Config {
    Config(g, k, false, Seeds(k + 2), (u: string) => "host", (u: string) => true, (u: string, pass: bool) => pass,
      (u: string, acts: seq<Action>) => acts == [], false, 0, true)
  }

  lemma OneHostIsLively(g: nat, k: nat)
    ensures Lively(OneHost(g, k))
  {
    var cfg := OneHost(g, k);
    forall u ensures Responds(cfg, u) && Decides(cfg, u) {
      assert cfg.behaves(u, []) && cfg.admits(u, true);
    }
  }

  lemma Extend(cfg: Config, run: seq<Event>, ev: Event)
    requires IsRun(cfg, run) && Enabled(cfg, After(cfg, run), ev)
    ensures IsRun(cfg, run + [ev]) && After(cfg, run + [ev]) == Step(cfg, After(cfg, run), ev)
  {
    assert (run + [ev])[..|run|] == run;
  }

  /** Start launches the first `n` requests. */
  lemma {:induction false} Launching(g: nat, k: nat, n: nat) returns (run: seq<Event>)
    requires n <= k + 2
    ensures IsRun(OneHost(g, k), run)
    ensures After(OneHost(g, k), run) ==
      Init(OneHost(g, k)).(main := Starting(Seeds(k + 2)[n..]), wg := n, procs := Arrived(n))
  {
    hide Seeds, StepProc;
    var cfg := OneHost(g, k);
    if n == 0 {
      run := [];
      assert Seeds(k + 2)[0..] == Seeds(k + 2) && Arrived(0) == [];
    } else {
      run := Launching(g, k, n - 1);
      Extend(cfg, run, Main);
      run := run + [Main];
      assert Seeds(k + 2)[n - 1..][1..] == Seeds(k + 2)[n..];
      assert Arrived(n) == Arrived(n - 1) + [Proc(Visit(n - 1), Arrive)];
    }
  }

  /** The first `n` requests, just launched. */
  function Arrived(n: nat): (procs: seq<Proc>)
    ensures |procs| == n && forall i :: 0 <= i < n ==> procs[i] == Proc(Visit(i), Arrive)
  {
    seq(n, (i: nat) => Proc(Visit(i), Arrive))
  }

  /** A scene of the schedule: request 0 is about to install, requests 1 to `j` hold host
      slots and have given back their global ones, the next one stands at `pc`, and the
      others have not started. `made` tells whether the first channel exists. */
  datatype Scene = Scene(j: nat, pc: Pc, made: bool, tokens: nat, busy: bool, seen: nat)

  predicate Shows(g: nat, k: nat, s: State, sc: Scene) {
    && |s.procs| == k + 2 && sc.j < k + 1 && |s.received| == |s.finished|
    && (forall i :: 0 <= i < |s.procs| ==> s.procs[i].req == Visit(i))
    && s.procs[0].pc == Install
    && (forall i :: 1 <= i <= sc.j ==> s.procs[i].pc == FreeHost)
    && s.procs[sc.j + 1].pc == sc.pc
    && (forall i :: sc.j + 1 < i < |s.procs| ==> s.procs[i].pc == Arrive)
    && s.global == (if g == 0 then 0 else if sc.busy then 2 else 1)
    && (if sc.made then s.table == map["host" := 0] && s.chans == [Chan("host", sc.tokens)] else s.table == map[] && s.chans == [])
    && (forall u :: u in s.visited ==> |u| <= sc.seen)
  }

  predicate Played(g: nat, k: nat, run: seq<Event>, sc: Scene) {
    IsRun(OneHost(g, k), run) && Shows(g, k, After(OneHost(g, k), run), sc)
  }

  /** The event of request `j + 1` that comes next, and the scene it leads to. */
  function Next(sc: Scene): (Event, Scene) {
    var id := sc.j + 1;
    match sc.pc
    case Arrive => (Advance(id), sc.(pc := LookUp, busy := true))
    case LookUp => (Advance(id), sc.(pc := if sc.made then Want(0) else Install))
    case Install => (Advance(id), sc.(pc := Want(0), made := true))
    case Want(_) => (Advance(id), sc.(pc := Domain, tokens := sc.tokens + 1))
    case Domain => (Advance(id), sc.(pc := Duplicate))
    case Duplicate => (Advance(id), sc.(pc := Robots, seen := id))
    case Robots => (Judge(id, true), sc.(pc := Fetch))
    case Fetch => (Respond(id, []), sc.(pc := Run([])))
    case Run(_) => (Advance(id), sc.(pc := Leave))
    case Leave => (Advance(id), sc.(pc := FreeGlobal))
    case _ => (Advance(id), Scene(id, Arrive, sc.made, sc.tokens, false, sc.seen))
  }

  /** The request stands at a point of the way, and nothing makes it wait. */
  predicate OnTheWay(k: nat, sc: Scene) {
    match sc.pc
    case Arrive => !sc.busy
    case LookUp => sc.busy
    case Install => sc.busy && !sc.made && sc.tokens == 0
    case Want(c) => sc.busy && sc.made && c == 0 && sc.tokens < k
    case Duplicate => sc.busy && sc.seen == sc.j
    case Run(acts) => sc.busy && acts == []
    case FreeGlobal => sc.busy && sc.j < k
    case _ => sc.busy && (sc.pc.Domain? || sc.pc.Robots? || sc.pc.Fetch? || sc.pc.Leave?)
  }

  /** Request `j + 1` alone has moved, and neither the host table nor a channel changed. */
  predicate OnlyMoved(s: State, s': State, id: nat, pc: Pc)
    requires id < |s.procs|
  {
    && s'.procs == s.procs[id := s.procs[id].(pc := pc)]
    && s'.received == s.received && s'.finished == s.finished
  }

  lemma SceneKept(g: nat, k: nat, s: State, sc: Scene, s': State, sc': Scene)
    requires Shows(g, k, s, sc) && sc'.j == sc.j && OnlyMoved(s, s', sc.j + 1, sc'.pc)
    requires s'.global == (if g == 0 then 0 else if sc'.busy then 2 else 1)
    requires if sc'.made then s'.table == map["host" := 0] && s'.chans == [Chan("host", sc'.tokens)] else s'.table == map[] && s'.chans == []
    requires forall u :: u in s'.visited ==> |u| <= sc'.seen
    ensures Shows(g, k, s', sc')
  {
  }

  /** What a scene says of the request that moves and of what is shared. */
  lemma SceneNow(g: nat, k: nat, s: State, sc: Scene)
    requires Shows(g, k, s, sc)
    ensures sc.j + 1 < |s.procs| && s.procs[sc.j + 1] == Proc(Visit(sc.j + 1), sc.pc) && |s.received| == |s.finished|
    ensures s.global == if g == 0 then 0 else if sc.busy then 2 else 1
    ensures if sc.made then s.table == map["host" := 0] && s.chans == [Chan("host", sc.tokens)] else s.table == map[] && s.chans == []
    ensures forall u :: u in s.visited ==> |u| <= sc.seen
  {
  }

  lemma BeginsShow(g: nat, k: nat, s: State, sc: Scene)
    requires k > 0 && g != 1 && Shows(g, k, s, sc) && OnTheWay(k, sc) && (sc.pc.Arrive? || sc.pc.LookUp? || sc.pc.Install?)
    ensures Enabled(OneHost(g, k), s, Next(sc).0) && Shows(g, k, Step(OneHost(g, k), s, Next(sc).0), Next(sc).1)
  {
    hide Shows, StepAction, StepVisit, StepMain, StepCopy, Seeds;
    SceneNow(g, k, s, sc);
    SceneKept(g, k, s, sc, Step(OneHost(g, k), s, Next(sc).0), Next(sc).1);
  }

  lemma PassesShow(g: nat, k: nat, s: State, sc: Scene)
    requires k > 0 && Shows(g, k, s, sc) && OnTheWay(k, sc) && (sc.pc.Want? || sc.pc.Domain?)
    ensures Enabled(OneHost(g, k), s, Next(sc).0) && Shows(g, k, Step(OneHost(g, k), s, Next(sc).0), Next(sc).1)
  {
    hide Shows, StepAction, StepVisit, StepMain, StepCopy, Seeds;
    SceneNow(g, k, s, sc);
    SceneKept(g, k, s, sc, Step(OneHost(g, k), s, Next(sc).0), Next(sc).1);
  }

  lemma VisitShows(g: nat, k: nat, s: State, sc: Scene)
    requires Shows(g, k, s, sc) && OnTheWay(k, sc) && sc.pc.Duplicate?
    ensures Enabled(OneHost(g, k), s, Next(sc).0) && Shows(g, k, Step(OneHost(g, k), s, Next(sc).0), Next(sc).1)
  {
    hide Shows, StepAction, StepPlain, StepMain, StepCopy, Seeds;
    SceneNow(g, k, s, sc);
    assert Url(sc.j + 1) !in s.visited;
    SceneKept(g, k, s, sc, Step(OneHost(g, k), s, Next(sc).0), Next(sc).1);
  }

  lemma FetchesShow(g: nat, k: nat, s: State, sc: Scene)
    requires Shows(g, k, s, sc) && OnTheWay(k, sc) && (sc.pc.Robots? || sc.pc.Fetch?)
    ensures Enabled(OneHost(g, k), s, Next(sc).0) && Shows(g, k, Step(OneHost(g, k), s, Next(sc).0), Next(sc).1)
  {
    hide Shows, StepProc, StepMain, StepCopy, Seeds;
    SceneNow(g, k, s, sc);
    SceneKept(g, k, s, sc, Step(OneHost(g, k), s, Next(sc).0), Next(sc).1);
  }

  lemma LeavesShow(g: nat, k: nat, s: State, sc: Scene)
    requires Shows(g, k, s, sc) && OnTheWay(k, sc) && (sc.pc.Run? || sc.pc.Leave?)
    ensures Enabled(OneHost(g, k), s, Next(sc).0) && Shows(g, k, Step(OneHost(g, k), s, Next(sc).0), Next(sc).1)
  {
    hide Shows, StepAction, StepVisit, StepMain, StepCopy, Seeds;
    SceneNow(g, k, s, sc);
    SceneKept(g, k, s, sc, Step(OneHost(g, k), s, Next(sc).0), Next(sc).1);
  }

  lemma ParksShow(g: nat, k: nat, s: State, sc: Scene)
    requires Shows(g, k, s, sc) && OnTheWay(k, sc) && sc.pc.FreeGlobal?
    ensures Enabled(OneHost(g, k), s, Next(sc).0) && Shows(g, k, Step(OneHost(g, k), s, Next(sc).0), Next(sc).1)
  {
    var s' := Step(OneHost(g, k), s, Next(sc).0);
    assert OnlyMoved(s, s', sc.j + 1, FreeHost) && s'.table == s.table && s'.chans == s.chans && s'.visited == s.visited;
  }

  /** One event takes one scene to the next. */
  lemma Play(g: nat, k: nat, run: seq<Event>, sc: Scene) returns (run': seq<Event>)
    requires k > 0 && g != 1 && Played(g, k, run, sc) && OnTheWay(k, sc)
    ensures Played(g, k, run', Next(sc).1)
  {
    hide Shows, Next;
    var s := After(OneHost(g, k), run);
    if sc.pc.Arrive? || sc.pc.LookUp? || sc.pc.Install? {
      BeginsShow(g, k, s, sc);
    } else if sc.pc.Want? || sc.pc.Domain? {
      PassesShow(g, k, s, sc);
    } else if sc.pc.Duplicate? {
      VisitShows(g, k, s, sc);
    } else if sc.pc.Robots? || sc.pc.Fetch? {
      FetchesShow(g, k, s, sc);
    } else if sc.pc.FreeGlobal? {
      ParksShow(g, k, s, sc);
    } else {
      LeavesShow(g, k, s, sc);
    }
    Extend(OneHost(g, k), run, Next(sc).0);
    run' := run + [Next(sc).0];
  }

  lemma Curtain(g: nat, k: nat) returns (run: seq<Event>)
    requires k > 0
    ensures Played(g, k, run, Scene(0, Arrive, false, 0, false, 0))
  {
    var cfg := OneHost(g, k);
    run := Launching(g, k, k + 2);
    Extend(cfg, run, Advance(0));
    run := run + [Advance(0)];
    Extend(cfg, run, Advance(0));
    run := run + [Advance(0)];
  }

  /** Request `j + 1` takes a global slot and finds or makes the first channel. */
  lemma ToTheChannel(g: nat, k: nat, run: seq<Event>, j: nat) returns (run': seq<Event>)
    requires k > 0 && g != 1 && Played(g, k, run, Scene(j, Arrive, j > 0, j, false, j))
    ensures Played(g, k, run', Scene(j, Want(0), true, j, true, j))
  {
    hide Played;
    run' := Play(g, k, run, Scene(j, Arrive, j > 0, j, false, j));
    run' := Play(g, k, run', Scene(j, LookUp, j > 0, j, true, j));
    if j == 0 {
      run' := Play(g, k, run', Scene(j, Install, false, j, true, j));
    }
  }

  /** It takes a host slot, is fetched, and gives back its global slot only. */
  lemma Parks(g: nat, k: nat, run: seq<Event>, j: nat) returns (run': seq<Event>)
    requires g != 1 && j < k && Played(g, k, run, Scene(j, Want(0), true, j, true, j))
    ensures Played(g, k, run', Scene(j + 1, Arrive, true, j + 1, false, j + 1))
  {
    hide Played;
    run' := Play(g, k, run, Scene(j, Want(0), true, j, true, j));
    run' := Play(g, k, run', Scene(j, Domain, true, j + 1, true, j));
    run' := Play(g, k, run', Scene(j, Duplicate, true, j + 1, true, j));
    run' := Play(g, k, run', Scene(j, Robots, true, j + 1, true, j + 1));
    run' := Play(g, k, run', Scene(j, Fetch, true, j + 1, true, j + 1));
    run' := Play(g, k, run', Scene(j, Run([]), true, j + 1, true, j + 1));
    run' := Play(g, k, run', Scene(j, Leave, true, j + 1, true, j + 1));
    run' := Play(g, k, run', Scene(j, FreeGlobal, true, j + 1, true, j + 1));
  }

  /** `j` requests hold the slots of the first channel and no global slot. */
  lemma {:induction false} Parked(g: nat, k: nat, j: nat) returns (run: seq<Event>)
    requires k > 0 && g != 1 && j <= k
    ensures Played(g, k, run, Scene(j, Arrive, j > 0, j, false, j))
  {
    if j == 0 {
      run := Curtain(g, k);
    } else {
      run := Parked(g, k, j - 1);
      run := ToTheChannel(g, k, run, j - 1);
      run := Parks(g, k, run, j - 1);
    }
  }

  lemma Overwrites(g: nat, k: nat, s: State)
    requires k > 0 && Shows(g, k, s, Scene(k, Want(0), true, k, true, k))
    ensures Enabled(OneHost(g, k), s, Advance(0)) && Stuck(OneHost(g, k), Step(OneHost(g, k), s, Advance(0)), k + 1, 0)
  {
    var s' := Step(OneHost(g, k), s, Advance(0));
    assert OnlyMoved(s, s', 0, Want(1)) && s'.table == map["host" := 1] && s'.chans == [Chan("host", k), Chan("host", 0)];
  }

  /** With the first channel full, one more request waits for it, and then request 0
      overwrites it. */
  lemma TheOverlap(g: nat, k: nat) returns (run: seq<Event>)
    requires k > 0 && g != 1
    ensures IsRun(OneHost(g, k), run) && Stuck(OneHost(g, k), After(OneHost(g, k), run), k + 1, 0)
  {
    var cfg := OneHost(g, k);
    run := Parked(g, k, k);
    run := ToTheChannel(g, k, run, k);
    Overwrites(g, k, After(cfg, run));
    Extend(cfg, run, Advance(0));
    run := run + [Advance(0)];
  }

  /** No continuation of `run` lets Start return. */
  ghost predicate NeverReturns(cfg: Config, run: seq<Event>) {
    forall more :: IsRun(cfg, run + more) ==> !After(cfg, run + more).main.Returned?
  }

  /** Dropping the condition on first lookups: under every other assumption of deadlock
      freedom, any host limit and any global limit but 1 admit a run after which no
      continuation lets Start return. */
  lemma OverlapLosesASlot(g: nat, k: nat) returns (run: seq<Event>)
    requires k > 0 && g != 1
    ensures Lively(OneHost(g, k)) && IsRun(OneHost(g, k), run) && NeverReturns(OneHost(g, k), run)
  {
    var cfg := OneHost(g, k);
    OneHostIsLively(g, k);
    run := TheOverlap(g, k);
    forall more | IsRun(cfg, run + more) ensures !After(cfg, run + more).main.Returned? {
      StuckForGood(cfg, run, more, k + 1, 0);
      StuckNeverReturns(cfg, run + more, k + 1, 0);
    }
  }
}
