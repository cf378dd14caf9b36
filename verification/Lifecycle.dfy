/** What every step of the engine keeps: the counters count, tokens are conserved, and
    nothing is launched or exported once Start has closed the export channel. */
module Lifecycle {
  import opened Engine

  // ----- counting requests -----

  /** The actions a request has still to do. */
  function Rest(pc: Pc): seq<Action> {
    match pc case Run(acts) => acts case Await(_, acts) => acts case _ => []
  }

  function MainRest(m: MainPc): seq<Action> {
    match m case Starting(acts) => acts case Pausing(_, acts) => acts case _ => []
  }

  /** The items that `acts` sends before it panics, if it does. */
  function Items(acts: seq<Action>): seq<int> {
    if acts == [] then []
    else match acts[0]
      case Panic => []
      case Emit(item) => [item] + Items(acts[1..])
      case Spawn(_) => Items(acts[1..])
  }

  function Times(items: seq<int>, item: int): nat {
    multiset(items)[item]
  }

  /** Admitted by the visited-URL test, and not yet fetched or turned away. */
  predicate Visiting(pc: Pc) {
    pc.Robots? || pc.Fetch?
  }

  /** The phases a request has still to go through, leaving its actions aside. */
  function Phases(pc: Pc): nat {
    match pc
    case Arrive => 14 case LookUp => 13 case Install => 12 case Want(_) => 11
    case Domain => 10 case Duplicate => 9 case Robots => 8 case Fetch => 7
    case Await(_, _) => 6 case Run(_) => 5
    case Leave => 4 case FreeGlobal => 3 case FreeHost => 2 case Drain(_) => 1 case Gone => 0
  }

  /** What is counted about requests. */
  datatype Meter = Undone | HoldsGlobal | HoldsHost(host: string) | Visits | Owed | Remaining | Unsent(item: int)

  /** Done has not been called yet. */
  predicate IsUndone(pc: Pc) {
    !(pc.FreeGlobal? || pc.FreeHost? || pc.Drain? || pc.Gone?)
  }

  predicate PastGlobal(pc: Pc) {
    !(pc.Arrive? || pc.FreeHost? || pc.Drain? || pc.Gone?)
  }

  predicate PastHost(pc: Pc) {
    !(pc.Arrive? || pc.LookUp? || pc.Install? || pc.Want? || pc.Gone?)
  }

  function Weight(cfg: Config, m: Meter, p: Proc): nat {
    match m
    case Undone => if IsUndone(p.pc) then 1 else 0
    case HoldsGlobal => if cfg.globalLimit > 0 && PastGlobal(p.pc) then 1 else 0
    case Visits => if Visiting(p.pc) then 1 else 0
    case Owed => |Rest(p.pc)|
    case Remaining => Phases(p.pc)
    case Unsent(item) => Times(Items(Rest(p.pc)), item)
    case HoldsHost(h) => if cfg.hostLimit > 0 && PastHost(p.pc) && HostOf(cfg, p) == h then 1 else 0
  }

  function Count(cfg: Config, m: Meter, procs: seq<Proc>): nat {
    if procs == [] then 0 else Count(cfg, m, procs[..|procs| - 1]) + Weight(cfg, m, procs[|procs| - 1])
  }

  lemma {:induction false} CountSet(cfg: Config, m: Meter, procs: seq<Proc>, id: nat, p: Proc)
    requires id < |procs|
    ensures Count(cfg, m, procs[id := p]) + Weight(cfg, m, procs[id]) == Count(cfg, m, procs) + Weight(cfg, m, p)
    ensures Count(cfg, m, procs) >= Weight(cfg, m, procs[id])
  {
    var front := procs[..|procs| - 1];
    if id == |procs| - 1 {
      assert procs[id := p][..|procs| - 1] == front;
    } else {
      assert procs[id := p][..|procs| - 1] == front[id := p];
      CountSet(cfg, m, front, id, p);
    }
  }

  lemma CountAppend(cfg: Config, m: Meter, procs: seq<Proc>, p: Proc)
    ensures Count(cfg, m, procs + [p]) == Count(cfg, m, procs) + Weight(cfg, m, p)
  {
    assert (procs + [p])[..|procs|] == procs;
  }

  /** A positive count has a request behind it. */
  lemma {:induction false} CountHasOne(cfg: Config, m: Meter, procs: seq<Proc>) returns (id: nat)
    requires Count(cfg, m, procs) > 0
    ensures id < |procs| && Weight(cfg, m, procs[id]) > 0
  {
    if Weight(cfg, m, procs[|procs| - 1]) > 0 {
      id := |procs| - 1;
    } else {
      id := CountHasOne(cfg, m, procs[..|procs| - 1]);
    }
  }

  /** The tokens in all channels ever made for `h`, and the number of those channels. */
  function Tokens(chans: seq<Chan>, h: string): nat {
    if chans == [] then 0
    else Tokens(chans[..|chans| - 1], h) + if chans[|chans| - 1].host == h then chans[|chans| - 1].tokens else 0
  }

  function Channels(chans: seq<Chan>, h: string): nat {
    if chans == [] then 0
    else Channels(chans[..|chans| - 1], h) + if chans[|chans| - 1].host == h then 1 else 0
  }

  lemma {:induction false} TokensSet(chans: seq<Chan>, c: nat, tokens: nat, h: string)
    requires c < |chans|
    ensures var chans' := chans[c := chans[c].(tokens := tokens)];
      Tokens(chans', h) == Tokens(chans, h) + (if chans[c].host == h then tokens - chans[c].tokens else 0)
  {
    var front := chans[..|chans| - 1];
    var chan := chans[c].(tokens := tokens);
    if c == |chans| - 1 {
      assert chans[c := chan][..|chans| - 1] == front;
    } else {
      assert chans[c := chan][..|chans| - 1] == front[c := chan];
      TokensSet(front, c, tokens, h);
    }
  }

  lemma TokensAppend(chans: seq<Chan>, chan: Chan, h: string)
    ensures Tokens(chans + [chan], h) == Tokens(chans, h) + if chan.host == h then chan.tokens else 0
  {
    assert (chans + [chan])[..|chans|] == chans;
  }

  lemma {:induction false} TokensBound(chans: seq<Chan>, h: string, limit: nat)
    requires forall c :: 0 <= c < |chans| ==> chans[c].tokens <= limit
    ensures Tokens(chans, h) <= limit * Channels(chans, h)
  {
    if chans != [] {
      TokensBound(chans[..|chans| - 1], h, limit);
      var n := Channels(chans[..|chans| - 1], h);
      assert limit * (n + 1) == limit * n + limit;
    }
  }

  // ----- the invariants -----

  /** The request counter is the number of launched requests that have not reached Done. */
  predicate Counted(cfg: Config, s: State) {
    s.wg == Count(cfg, Undone, s.procs)
  }

  predicate GlobalConserved(cfg: Config, s: State) {
    && s.global == Count(cfg, HoldsGlobal, s.procs)
    && (cfg.globalLimit > 0 ==> s.global <= cfg.globalLimit)
  }

  /** Channels belong to the hosts they are looked up for, and a request past its lookup
      finds its host in the table. */
  predicate Linked(cfg: Config, s: State) {
    && (forall h :: h in s.table ==> s.table[h] < |s.chans| && s.chans[s.table[h]].host == h)
    && (forall id :: 0 <= id < |s.procs| ==> ProcLinked(cfg, s, s.procs[id]))
    && (forall c :: 0 <= c < |s.chans| ==> s.chans[c].tokens <= cfg.hostLimit)
  }

  predicate ProcLinked(cfg: Config, s: State, p: Proc) {
    match p.pc
    case Arrive => true
    case LookUp => true
    case Install => cfg.hostLimit > 0
    case Want(c) => cfg.hostLimit > 0 && c < |s.chans| && s.chans[c].host == HostOf(cfg, p) && HostOf(cfg, p) in s.table
    case Drain(c) => cfg.hostLimit > 0 && c < |s.chans| && s.chans[c].host == HostOf(cfg, p) && HostOf(cfg, p) in s.table
    case _ => cfg.hostLimit > 0 && !p.pc.Gone? ==> HostOf(cfg, p) in s.table
  }

  predicate HostConserved(cfg: Config, s: State, h: string) {
    Tokens(s.chans, h) == Count(cfg, HoldsHost(h), s.procs)
  }

  /** The request that an event moves, if any. */
  function Mover(ev: Event): int {
    match ev
    case Advance(id) => id
    case Judge(id, _) => id
    case Respond(id, _) => id
    case Crash(id) => id
    case _ => -1
  }

  /** A step moves one request and launches at most one. */
  predicate Moves(s: State, s': State, id: int) {
    && |s.procs| <= |s'.procs| <= |s.procs| + 1
    && (0 <= id < |s.procs| ==> s'.procs[id].req == s.procs[id].req)
    && (forall i :: 0 <= i < |s.procs| && i != id ==> s'.procs[i] == s.procs[i])
    && (|s'.procs| > |s.procs| ==> s'.procs[|s.procs|].pc == Arrive && !s.shutdown)
  }

  lemma ActionMoves(s: State, id: nat, acts: seq<Action>)
    requires id < |s.procs| && acts != []
    ensures Moves(s, StepAction(s, id, acts), id)
  {
  }

  lemma ProcMoves(cfg: Config, s: State, id: nat)
    requires id < |s.procs| && ProcEnabled(cfg, s, s.procs[id])
    ensures Moves(s, StepProc(cfg, s, id), id)
  {
    if s.procs[id].pc.Run? && s.procs[id].pc.acts != [] {
      ActionMoves(s, id, s.procs[id].pc.acts);
    }
  }

  lemma StepMoves(cfg: Config, s: State, ev: Event)
    requires Enabled(cfg, s, ev)
    ensures Moves(s, Step(cfg, s, ev), Mover(ev))
  {
    match ev
    case Main =>
    case Advance(id) => ProcMoves(cfg, s, id);
    case _ =>
  }

  function MoverWeight(cfg: Config, m: Meter, procs: seq<Proc>, id: int): nat {
    if 0 <= id < |procs| then Weight(cfg, m, procs[id]) else 0
  }

  function LaunchedWeight(cfg: Config, m: Meter, s: State, s': State): nat {
    if |s'.procs| > |s.procs| then Weight(cfg, m, s'.procs[|s.procs|]) else 0
  }

  /** How a step changes a count: only the moved request and a launched one matter. */
  lemma MeterMoves(cfg: Config, m: Meter, s: State, s': State, id: int)
    requires Moves(s, s', id) && id < |s.procs|
    ensures Count(cfg, m, s'.procs) + MoverWeight(cfg, m, s.procs, id) ==
      Count(cfg, m, s.procs) + MoverWeight(cfg, m, s'.procs, id) + LaunchedWeight(cfg, m, s, s')
  {
    var moved := if id < 0 then s.procs else s.procs[id := s'.procs[id]];
    if id >= 0 {
      CountSet(cfg, m, s.procs, id, s'.procs[id]);
    }
    if |s'.procs| > |s.procs| {
      assert s'.procs == moved + [s'.procs[|s.procs|]];
      CountAppend(cfg, m, moved, s'.procs[|s.procs|]);
    } else {
      assert s'.procs == moved;
    }
  }

  /** A counter of the engine follows a meter through a step: it changes by what the
      moved and the launched request weigh. */
  predicate Follows(cfg: Config, m: Meter, s: State, s': State, id: int, before: int, after: int) {
    after + MoverWeight(cfg, m, s.procs, id) == before + MoverWeight(cfg, m, s'.procs, id) + LaunchedWeight(cfg, m, s, s')
  }

  lemma FollowedCount(cfg: Config, m: Meter, s: State, s': State, id: int, before: int, after: int)
    requires Moves(s, s', id) && id < |s.procs| && Follows(cfg, m, s, s', id, before, after)
    requires before == Count(cfg, m, s.procs)
    ensures after == Count(cfg, m, s'.procs)
  {
    MeterMoves(cfg, m, s, s', id);
  }

  lemma ActionWg(cfg: Config, s: State, id: nat, acts: seq<Action>)
    requires id < |s.procs| && acts != [] && s.procs[id].pc.Run?
    ensures var s' := StepAction(s, id, acts); Follows(cfg, Undone, s, s', id, s.wg, s'.wg)
  {
  }

  lemma ProcWg(cfg: Config, s: State, id: nat)
    requires id < |s.procs| && ProcEnabled(cfg, s, s.procs[id])
    ensures var s' := StepProc(cfg, s, id); Follows(cfg, Undone, s, s', id, s.wg, s'.wg)
  {
    var pc := s.procs[id].pc;
    if IsPlain(pc) {
      NextUndone(cfg, s, s.procs[id]);
    } else if pc.Run? {
      ActionWg(cfg, s, id, pc.acts);
    }
  }

  /** A plain move passes Done exactly when it leaves Leave. */
  lemma NextUndone(cfg: Config, s: State, p: Proc)
    requires ProcEnabled(cfg, s, p) && IsPlain(p.pc)
    ensures IsUndone(NextPc(cfg, s, p)) <==> IsUndone(p.pc) && !p.pc.Leave?
  {
  }

  lemma StepWg(cfg: Config, s: State, ev: Event)
    requires Enabled(cfg, s, ev)
    ensures var s' := Step(cfg, s, ev); Follows(cfg, Undone, s, s', Mover(ev), s.wg, s'.wg)
  {
    if ev.Advance? {
      ProcWg(cfg, s, ev.id);
    }
  }

  lemma CountedStep(cfg: Config, s: State, ev: Event)
    requires Counted(cfg, s) && Enabled(cfg, s, ev)
    ensures Counted(cfg, Step(cfg, s, ev))
  {
    var s' := Step(cfg, s, ev);
    StepMoves(cfg, s, ev);
    StepWg(cfg, s, ev);
    FollowedCount(cfg, Undone, s, s', Mover(ev), s.wg, s'.wg);
  }

  // ----- the global semaphore -----

  lemma ProcGlobal(cfg: Config, s: State, id: nat)
    requires id < |s.procs| && ProcEnabled(cfg, s, s.procs[id])
    ensures var s' := StepProc(cfg, s, id); Follows(cfg, HoldsGlobal, s, s', id, s.global, s'.global)
  {
    if s.procs[id].pc.Run? && s.procs[id].pc.acts != [] {
      ActionGlobal(cfg, s, id, s.procs[id].pc.acts);
    }
  }

  lemma ActionGlobal(cfg: Config, s: State, id: nat, acts: seq<Action>)
    requires id < |s.procs| && acts != [] && s.procs[id].pc.Run?
    ensures var s' := StepAction(s, id, acts); s'.global == s.global && Follows(cfg, HoldsGlobal, s, s', id, s.global, s'.global)
  {
  }

  lemma StepGlobal(cfg: Config, s: State, ev: Event)
    requires Enabled(cfg, s, ev)
    ensures var s' := Step(cfg, s, ev); Follows(cfg, HoldsGlobal, s, s', Mover(ev), s.global, s'.global)
  {
    if ev.Advance? {
      ProcGlobal(cfg, s, ev.id);
    }
  }

  lemma StepGlobalBound(cfg: Config, s: State, ev: Event)
    requires Enabled(cfg, s, ev) && s.global <= cfg.globalLimit
    ensures Step(cfg, s, ev).global <= cfg.globalLimit || cfg.globalLimit == 0
  {
    if ev.Advance? && s.procs[ev.id].pc.Run? && s.procs[ev.id].pc.acts != [] {
      ActionGlobal(cfg, s, ev.id, s.procs[ev.id].pc.acts);
    }
  }

  lemma GlobalStep(cfg: Config, s: State, ev: Event)
    requires GlobalConserved(cfg, s) && Enabled(cfg, s, ev)
    ensures GlobalConserved(cfg, Step(cfg, s, ev))
  {
    var s' := Step(cfg, s, ev);
    StepMoves(cfg, s, ev);
    StepGlobal(cfg, s, ev);
    if cfg.globalLimit > 0 {
      StepGlobalBound(cfg, s, ev);
    }
    FollowedCount(cfg, HoldsGlobal, s, s', Mover(ev), s.global, s'.global);
  }

  // ----- the plain moves -----

  /** What a plain move of a request leaves as it was. */
  lemma PlainFrame(cfg: Config, s: State, id: nat)
    requires id < |s.procs| && ProcEnabled(cfg, s, s.procs[id]) && IsPlain(s.procs[id].pc)
    ensures var s' := StepProc(cfg, s, id);
      && |s'.procs| == |s.procs| && s'.visited == s.visited && s'.fetched == s.fetched
      && s'.buffer == s.buffer && s'.received == s.received && s'.relay == s.relay
      && s'.finished == s.finished && s'.shutdown == s.shutdown && s'.main == s.main
  {
  }

  /** It takes the request to an earlier phase with nothing more to do. */
  lemma PlainPhase(cfg: Config, s: State, id: nat)
    requires id < |s.procs| && ProcEnabled(cfg, s, s.procs[id]) && IsPlain(s.procs[id].pc)
    ensures var p, p' := s.procs[id], StepProc(cfg, s, id).procs[id];
      p'.req == p.req && Rest(p'.pc) == Rest(p.pc) && Phases(p'.pc) < Phases(p.pc) && !Visiting(p'.pc)
  {
  }

  // ----- the host semaphores -----

  predicate TouchesHost(pc: Pc) {
    pc.Install? || pc.Want? || pc.Drain?
  }

  /** The step changes nothing about who holds a slot of `h`. */
  predicate SameHolders(cfg: Config, s: State, s': State, id: int, h: string) {
    MoverWeight(cfg, HoldsHost(h), s.procs, id) == MoverWeight(cfg, HoldsHost(h), s'.procs, id) + LaunchedWeight(cfg, HoldsHost(h), s, s')
  }

  lemma ActionHost(cfg: Config, s: State, id: nat, acts: seq<Action>, h: string)
    requires id < |s.procs| && acts != [] && s.procs[id].pc.Run?
    ensures var s' := StepAction(s, id, acts);
      s'.chans == s.chans && s'.table == s.table && SameHolders(cfg, s, s', id, h)
  {
    match acts[0]
    case Spawn(req) =>
    case _ =>
  }

  /** Steps that leave the channels alone leave the holders alone. */
  lemma OtherHost(cfg: Config, s: State, id: nat, h: string)
    requires id < |s.procs| && ProcEnabled(cfg, s, s.procs[id]) && !TouchesHost(s.procs[id].pc)
    ensures var s' := StepProc(cfg, s, id);
      s'.chans == s.chans && s'.table == s.table && SameHolders(cfg, s, s', id, h)
  {
    if s.procs[id].pc.Run? && s.procs[id].pc.acts != [] {
      ActionHost(cfg, s, id, s.procs[id].pc.acts, h);
    }
  }

  lemma WantHost(cfg: Config, s: State, id: nat, h: string)
    requires Linked(cfg, s) && id < |s.procs| && ProcEnabled(cfg, s, s.procs[id]) && s.procs[id].pc.Want?
    ensures var s' := StepPlain(cfg, s, id);
      Follows(cfg, HoldsHost(h), s, s', id, Tokens(s.chans, h), Tokens(s'.chans, h))
  {
    var p := s.procs[id];
    assert ProcLinked(cfg, s, p);
    TokensSet(s.chans, p.pc.chan, s.chans[p.pc.chan].tokens + 1, h);
  }

  lemma DrainHost(cfg: Config, s: State, id: nat, h: string)
    requires Linked(cfg, s) && id < |s.procs| && ProcEnabled(cfg, s, s.procs[id]) && s.procs[id].pc.Drain?
    ensures var s' := StepPlain(cfg, s, id);
      Follows(cfg, HoldsHost(h), s, s', id, Tokens(s.chans, h), Tokens(s'.chans, h))
  {
    var p := s.procs[id];
    assert ProcLinked(cfg, s, p);
    TokensSet(s.chans, p.pc.chan, s.chans[p.pc.chan].tokens - 1, h);
  }

  lemma InstallHost(cfg: Config, s: State, id: nat, h: string)
    requires id < |s.procs| && s.procs[id].pc.Install?
    ensures var s' := StepPlain(cfg, s, id);
      Follows(cfg, HoldsHost(h), s, s', id, Tokens(s.chans, h), Tokens(s'.chans, h))
  {
    TokensAppend(s.chans, Chan(HostOf(cfg, s.procs[id]), 0), h);
  }

  lemma ProcHost(cfg: Config, s: State, id: nat, h: string)
    requires Linked(cfg, s) && id < |s.procs| && ProcEnabled(cfg, s, s.procs[id])
    ensures var s' := StepProc(cfg, s, id); Follows(cfg, HoldsHost(h), s, s', id, Tokens(s.chans, h), Tokens(s'.chans, h))
  {
    var p := s.procs[id];
    if !TouchesHost(p.pc) {
      OtherHost(cfg, s, id, h);
    } else if p.pc.Install? {
      InstallHost(cfg, s, id, h);
    } else if p.pc.Want? {
      WantHost(cfg, s, id, h);
    } else {
      DrainHost(cfg, s, id, h);
    }
  }

  lemma MainHost(cfg: Config, s: State, h: string)
    requires MainEnabled(s)
    ensures var s' := StepMain(s); s'.chans == s.chans && s'.table == s.table && LaunchedWeight(cfg, HoldsHost(h), s, s') == 0
  {
  }

  /** Every event but Advance leaves the channels and their holders alone. */
  lemma IdleHost(cfg: Config, s: State, ev: Event, h: string)
    requires Enabled(cfg, s, ev) && !ev.Advance?
    ensures var s' := Step(cfg, s, ev);
      s'.chans == s.chans && s'.table == s.table && SameHolders(cfg, s, s', Mover(ev), h)
  {
    if ev.Main? {
      MainHost(cfg, s, h);
    }
  }

  lemma HostStep(cfg: Config, s: State, ev: Event, h: string)
    requires Linked(cfg, s) && HostConserved(cfg, s, h) && Enabled(cfg, s, ev)
    ensures HostConserved(cfg, Step(cfg, s, ev), h)
  {
    var s' := Step(cfg, s, ev);
    StepMoves(cfg, s, ev);
    if ev.Advance? {
      ProcHost(cfg, s, ev.id, h);
    } else {
      IdleHost(cfg, s, ev, h);
    }
    FollowedCount(cfg, HoldsHost(h), s, s', Mover(ev), Tokens(s.chans, h), Tokens(s'.chans, h));
  }

  /** The table and the channels only grow, and a channel keeps its host. */
  predicate Grows(s: State, s': State) {
    && |s.chans| <= |s'.chans|
    && (forall c :: 0 <= c < |s.chans| ==> s'.chans[c].host == s.chans[c].host)
    && (forall h :: h in s.table ==> h in s'.table)
  }

  predicate TableLinked(cfg: Config, s: State) {
    && (forall h :: h in s.table ==> s.table[h] < |s.chans| && s.chans[s.table[h]].host == h)
    && (forall c :: 0 <= c < |s.chans| ==> s.chans[c].tokens <= cfg.hostLimit)
  }

  lemma LinkedGrows(cfg: Config, s: State, s': State, p: Proc)
    requires Grows(s, s') && ProcLinked(cfg, s, p)
    ensures ProcLinked(cfg, s', p)
  {
  }

  lemma TouchLinked(cfg: Config, s: State, id: nat)
    requires Linked(cfg, s) && id < |s.procs| && ProcEnabled(cfg, s, s.procs[id]) && TouchesHost(s.procs[id].pc)
    ensures var s' := StepProc(cfg, s, id); Grows(s, s') && TableLinked(cfg, s') && ProcLinked(cfg, s', s'.procs[id])
  {
    assert ProcLinked(cfg, s, s.procs[id]);
  }

  /** Where a step that leaves the channels alone takes a request. */
  lemma OtherTarget(cfg: Config, s: State, id: nat)
    requires id < |s.procs| && ProcEnabled(cfg, s, s.procs[id]) && !TouchesHost(s.procs[id].pc)
    ensures var p := s.procs[id]; var p' := StepProc(cfg, s, id).procs[id]; var h := HostOf(cfg, p);
      && p'.req == p.req
      && (p'.pc.Want? ==> cfg.hostLimit > 0 && h in s.table && p'.pc.chan == s.table[h])
      && (p'.pc.Drain? ==> cfg.hostLimit > 0 && h in s.table && p'.pc.chan == s.table[h])
      && (p'.pc.Install? ==> cfg.hostLimit > 0)
      && (!p.pc.LookUp? && PastHost(p'.pc) ==> PastHost(p.pc))
      && (p.pc.LookUp? && PastHost(p'.pc) ==> cfg.hostLimit == 0)
  {
    if s.procs[id].pc.Run? && s.procs[id].pc.acts != [] {
      ActionTarget(s, id, s.procs[id].pc.acts);
    }
  }

  lemma ActionTarget(s: State, id: nat, acts: seq<Action>)
    requires id < |s.procs| && acts != []
    ensures var p' := StepAction(s, id, acts).procs[id];
      p'.req == s.procs[id].req && (p'.pc.Run? || p'.pc.Await? || p'.pc.Leave?)
  {
  }

  lemma OtherLinked(cfg: Config, s: State, id: nat)
    requires Linked(cfg, s) && id < |s.procs| && ProcEnabled(cfg, s, s.procs[id]) && !TouchesHost(s.procs[id].pc)
    ensures var s' := StepProc(cfg, s, id); Grows(s, s') && TableLinked(cfg, s') && ProcLinked(cfg, s', s'.procs[id])
  {
    assert ProcLinked(cfg, s, s.procs[id]);
    OtherHost(cfg, s, id, "");
    OtherTarget(cfg, s, id);
  }

  lemma IdleLinked(cfg: Config, s: State, ev: Event)
    requires Linked(cfg, s) && Enabled(cfg, s, ev) && !ev.Advance?
    ensures var s' := Step(cfg, s, ev);
      Grows(s, s') && TableLinked(cfg, s') && (0 <= Mover(ev) ==> ProcLinked(cfg, s', s'.procs[Mover(ev)]))
  {
    IdleHost(cfg, s, ev, "");
    if 0 <= Mover(ev) {
      assert ProcLinked(cfg, s, s.procs[Mover(ev)]);
    }
  }

  lemma AllLinked(cfg: Config, s: State, s': State, id: int)
    requires Linked(cfg, s) && Moves(s, s', id) && id < |s.procs| && Grows(s, s') && TableLinked(cfg, s')
    requires 0 <= id ==> ProcLinked(cfg, s', s'.procs[id])
    ensures Linked(cfg, s')
  {
    forall i | 0 <= i < |s'.procs| ensures ProcLinked(cfg, s', s'.procs[i]) {
      if i < |s.procs| && i != id {
        LinkedGrows(cfg, s, s', s.procs[i]);
      }
    }
  }

  lemma LinkedStep(cfg: Config, s: State, ev: Event)
    requires Linked(cfg, s) && Enabled(cfg, s, ev)
    ensures Linked(cfg, Step(cfg, s, ev)) && Grows(s, Step(cfg, s, ev))
  {
    StepMoves(cfg, s, ev);
    if !ev.Advance? {
      IdleLinked(cfg, s, ev);
    } else if TouchesHost(s.procs[ev.id].pc) {
      TouchLinked(cfg, s, ev.id);
    } else {
      OtherLinked(cfg, s, ev.id);
    }
    AllLinked(cfg, s, Step(cfg, s, ev), Mover(ev));
  }

  // ----- after Wait -----

  predicate PastWait(m: MainPc) {
    m.Passed? || m.Closed? || m.Returned?
  }

  /** Past Wait there is nothing left to count, and the export channel is closed right
      after that, never before. */
  predicate Quiet(s: State) {
    (PastWait(s.main) ==> s.wg == 0) && (s.closed <==> s.main.Closed? || s.main.Returned?)
  }

  lemma {:induction false} NoneUndone(cfg: Config, procs: seq<Proc>)
    requires Count(cfg, Undone, procs) == 0
    ensures forall id :: 0 <= id < |procs| ==> !IsUndone(procs[id].pc)
  {
    if procs != [] {
      NoneUndone(cfg, procs[..|procs| - 1]);
    }
  }

  /** What cannot happen any more. */
  predicate NothingNew(s: State, s': State) {
    s'.wg == s.wg && |s'.procs| == |s.procs| && s'.stream == s.stream && PastWait(s'.main) && s'.fetched == s.fetched
  }

  lemma QuietProc(cfg: Config, s: State, id: nat)
    requires Quiet(s) && id < |s.procs| && ProcEnabled(cfg, s, s.procs[id])
    requires PastWait(s.main) ==> !IsUndone(s.procs[id].pc)
    ensures var s' := StepProc(cfg, s, id); s'.main == s.main && s'.closed == s.closed && (PastWait(s.main) ==> NothingNew(s, s'))
  {
    if s.procs[id].pc.Run? && s.procs[id].pc.acts != [] {
      QuietAction(s, id, s.procs[id].pc.acts);
    }
  }

  lemma QuietAction(s: State, id: nat, acts: seq<Action>)
    requires id < |s.procs| && acts != []
    ensures var s' := StepAction(s, id, acts); s'.main == s.main && s'.closed == s.closed
  {
  }

  lemma QuietMain(cfg: Config, s: State)
    requires Quiet(s) && MainEnabled(s)
    ensures Quiet(StepMain(s)) && (PastWait(s.main) ==> NothingNew(s, StepMain(s)))
  {
  }

  lemma QuietOther(cfg: Config, s: State, ev: Event)
    requires Quiet(s) && Enabled(cfg, s, ev) && !ev.Main? && !ev.Advance?
    requires PastWait(s.main) && 0 <= Mover(ev) ==> !IsUndone(s.procs[Mover(ev)].pc)
    ensures var s' := Step(cfg, s, ev); s'.main == s.main && s'.closed == s.closed && s'.wg == s.wg && (PastWait(s.main) ==> NothingNew(s, s'))
  {
  }

  lemma QuietStep(cfg: Config, s: State, ev: Event)
    requires Counted(cfg, s) && Quiet(s) && Enabled(cfg, s, ev)
    ensures Quiet(Step(cfg, s, ev)) && (PastWait(s.main) ==> NothingNew(s, Step(cfg, s, ev)))
  {
    if PastWait(s.main) {
      NoneUndone(cfg, s.procs);
    }
    if ev.Main? {
      QuietMain(cfg, s);
    } else if ev.Advance? {
      QuietProc(cfg, s, ev.id);
    } else {
      QuietOther(cfg, s, ev);
    }
  }

  // ----- every reachable state -----

  ghost predicate Inv(cfg: Config, s: State) {
    Counted(cfg, s) && GlobalConserved(cfg, s) && Linked(cfg, s) && Quiet(s) && forall h :: HostConserved(cfg, s, h)
  }

  lemma InvStep(cfg: Config, s: State, ev: Event)
    requires Inv(cfg, s) && Enabled(cfg, s, ev)
    ensures Inv(cfg, Step(cfg, s, ev))
  {
    CountedStep(cfg, s, ev);
    GlobalStep(cfg, s, ev);
    LinkedStep(cfg, s, ev);
    QuietStep(cfg, s, ev);
    forall h ensures HostConserved(cfg, Step(cfg, s, ev), h) {
      HostStep(cfg, s, ev, h);
    }
  }

  lemma {:induction false} AlwaysInv(cfg: Config, run: seq<Event>)
    requires IsRun(cfg, run)
    ensures Inv(cfg, After(cfg, run))
  {
    if run != [] {
      var before := run[..|run| - 1];
      AlwaysInv(cfg, before);
      InvStep(cfg, After(cfg, before), run[|run| - 1]);
    }
  }

  lemma ShutdownStops(cfg: Config, s: State, ev: Event)
    requires s.shutdown && Enabled(cfg, s, ev)
    ensures Step(cfg, s, ev).shutdown && |Step(cfg, s, ev).procs| == |s.procs|
  {
    StepMoves(cfg, s, ev);
    if ev.Advance? && s.procs[ev.id].pc.Run? && s.procs[ev.id].pc.acts != [] {
      ActionTarget(s, ev.id, s.procs[ev.id].pc.acts);
    }
  }

  /** Lifecycle safety: the request counter is always the number of launched requests
      that have not reached Done, panicking, cancelled, failed and nested ones alike; after
      a shutdown nothing is launched; once
      Wait has passed no step launches, exports or fetches anything, and the export channel
      is closed only then. */
  lemma LifecycleSafety(cfg: Config, run: seq<Event>, ev: Event)
    requires IsRun(cfg, run) && Enabled(cfg, After(cfg, run), ev)
    ensures var s, s' := After(cfg, run), Step(cfg, After(cfg, run), ev);
      && s.wg == Count(cfg, Undone, s.procs)
      && (s.closed ==> PastWait(s.main))
      && (s.shutdown ==> s'.shutdown && |s'.procs| == |s.procs|)
      && (PastWait(s.main) ==> s.wg == 0 && NothingNew(s, s'))
  {
    AlwaysInv(cfg, run);
    QuietStep(cfg, After(cfg, run), ev);
    if After(cfg, run).shutdown {
      ShutdownStops(cfg, After(cfg, run), ev);
    }
  }

  /** The global slots in use are exactly the requests between acquire and release, and
      never more than ConcurrentRequests. */
  lemma GlobalSlots(cfg: Config, run: seq<Event>)
    requires IsRun(cfg, run) && cfg.globalLimit > 0
    ensures var s := After(cfg, run);
      s.global == Count(cfg, HoldsGlobal, s.procs) <= cfg.globalLimit
  {
    AlwaysInv(cfg, run);
  }

  /** Host-slot conservation as coded: the tokens over all channels ever made for a host
      equal the requests between acquire and release, so these are at most the limit times
      the number of channels made. */
  lemma HostSlots(cfg: Config, run: seq<Event>, h: string)
    requires IsRun(cfg, run)
    ensures var s := After(cfg, run);
      Tokens(s.chans, h) == Count(cfg, HoldsHost(h), s.procs) <= cfg.hostLimit * Channels(s.chans, h)
  {
    AlwaysInv(cfg, run);
    var s := After(cfg, run);
    assert HostConserved(cfg, s, h);
    TokensBound(s.chans, h, cfg.hostLimit);
  }
}
