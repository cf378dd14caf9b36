/** The crawl engine of geziyor.go: one program counter per request, the two kinds of
    semaphore, the wait group, the visited set, Start and the exporter fan-out. */
module Engine {

  datatype Req = Req(url: string, get: bool, sync: bool)

  /** What a callback does, one action after the other. */
  datatype Action = Spawn(req: Req) | Emit(item: int) | Panic

  /** A limit of zero means no limit. `behaves(url, acts)` allows the callback or error
      callback of `url` to do `acts`; `admits(url, pass)` allows robots.txt and custom
      middlewares to let it pass or not; `faulty` lets middlewares and the client panic;
      `drains` says that exporters read until their channel is closed. */
  datatype Config = Config(
    globalLimit: nat, hostLimit: nat, revisit: bool,
    seeds: seq<Action>, host: string -> string, allowed: string -> bool,
    admits: (string, bool) -> bool, behaves: (string, seq<Action>) -> bool,
    faulty: bool, exporters: nat, drains: bool)

  /** Where `do` stands. The deferred calls run in the order recover, Done, release. */
  datatype Pc =
    | Arrive                    // before the global semaphore
    | LookUp                    // before reading the host table
    | Install                   // found no channel for the host
    | Want(chan: nat)           // before the host semaphore
    | Domain | Duplicate | Robots | Fetch
    | Run(acts: seq<Action>)    // in a callback
    | Await(child: nat, acts: seq<Action>)  // inside a synchronized request
    | Leave                     // before wgRequests.Done
    | FreeGlobal | FreeHost
    | Drain(chan: nat)          // before taking a token out of the channel just looked up
    | Gone

  datatype Proc = Proc(req: Req, pc: Pc)
  datatype Chan = Chan(host: string, tokens: nat)

  /** Where Start stands. */
  datatype MainPc =
    | Starting(acts: seq<Action>)
    | Pausing(child: nat, acts: seq<Action>)
    | Waiting | Passed | Closed | Returned

  /** The goroutine that copies exported items to every exporter in turn. */
  datatype Relay = Idle | Sending(item: int, next: nat) | Ended

  datatype State = State(
    procs: seq<Proc>, wg: int, shutdown: bool, main: MainPc,
    visited: set<string>, fetched: seq<string>,
    global: int, table: map<string, nat>, chans: seq<Chan>,
    stream: seq<int>, buffer: seq<int>, closed: bool,
    relay: Relay, received: seq<seq<int>>, finished: seq<bool>)

  function Init(cfg: Config): State {
    State([], 0, false, Starting(cfg.seeds), {}, [], 0, map[], [], [], [], false, Idle,
      seq(cfg.exporters, _ => []), seq(cfg.exporters, _ => false))
  }

  datatype Event =
    | Main
    | Advance(id: nat)
    | Judge(id: nat, pass: bool)
    | Respond(id: nat, acts: seq<Action>)
    | Crash(id: nat)
    | Interrupt
    | Copy
    | Export(j: nat)

  // ----- building blocks -----

  function Move(s: State, id: nat, pc: Pc): State
    requires id < |s.procs|
  {
    s.(procs := s.procs[id := s.procs[id].(pc := pc)])
  }

  /** Do: counted before the goroutine starts, and nothing after a shutdown. */
  function Launch(s: State, req: Req): State {
    if s.shutdown then s else s.(wg := s.wg + 1, procs := s.procs + [Proc(req, Arrive)])
  }

  function Send(s: State, item: int): State {
    s.(stream := s.stream + [item], buffer := s.buffer + [item])
  }

  predicate CanSend(s: State) {
    |s.buffer| < 1
  }

  predicate IsGone(s: State, id: nat) {
    id < |s.procs| && s.procs[id].pc.Gone?
  }

  function HostOf(cfg: Config, p: Proc): string {
    cfg.host(p.req.url)
  }

  // ----- one request -----

  predicate ProcEnabled(cfg: Config, s: State, p: Proc) {
    match p.pc
    case Arrive => cfg.globalLimit == 0 || s.global < cfg.globalLimit
    case Want(c) => c < |s.chans| && s.chans[c].tokens < cfg.hostLimit
    case Robots => false
    case Fetch => false
    case Run(acts) => acts != [] && acts[0].Emit? ==> CanSend(s)
    case Await(child, _) => IsGone(s, child)
    case FreeGlobal => cfg.globalLimit == 0 || s.global > 0
    case FreeHost => cfg.hostLimit == 0 || HostOf(cfg, p) in s.table
    case Drain(c) => c < |s.chans| && s.chans[c].tokens > 0
    case Gone => false
    case _ => true
  }

  function StepAction(s: State, id: nat, acts: seq<Action>): State
    requires id < |s.procs| && acts != []
  {
    match acts[0]
    case Panic => Move(s, id, Leave)
    case Emit(item) => Send(Move(s, id, Run(acts[1..])), item)
    case Spawn(req) =>
      var pc := if req.sync && !s.shutdown then Await(|s.procs|, acts[1..]) else Run(acts[1..]);
      Launch(Move(s, id, pc), req)
  }

  function StepVisit(cfg: Config, s: State, id: nat, req: Req): State
    requires id < |s.procs|
  {
    if cfg.revisit || !req.get then Move(s, id, Robots)
    else if req.url in s.visited then Move(s, id, Leave)
    else Move(s, id, Robots).(visited := s.visited + {req.url})
  }

  /** Everything but an action of a callback and the visited-URL test. */
  predicate IsPlain(pc: Pc) {
    !pc.Duplicate? && !(pc.Run? && pc.acts != [])
  }

  /** Where a plain move takes the request. */
  function NextPc(cfg: Config, s: State, p: Proc): Pc
    requires ProcEnabled(cfg, s, p)
  {
    var h := HostOf(cfg, p);
    match p.pc
    case Arrive => LookUp
    case LookUp => if cfg.hostLimit == 0 then Domain else if h in s.table then Want(s.table[h]) else Install
    case Install => Want(|s.chans|)
    case Want(_) => Domain
    case Domain => if cfg.allowed(p.req.url) then Duplicate else Leave
    case Run(_) => Leave
    case Await(_, acts) => Run(acts)
    case Leave => FreeGlobal
    case FreeGlobal => FreeHost
    case FreeHost => if cfg.hostLimit == 0 then Gone else Drain(s.table[h])
    case Drain(_) => Gone
    case _ => p.pc
  }

  /** What it does to the wait group, the semaphores and the host table. */
  function NextWg(s: State, pc: Pc): int {
    if pc.Leave? then s.wg - 1 else s.wg
  }

  function NextGlobal(cfg: Config, s: State, pc: Pc): int {
    if cfg.globalLimit == 0 then s.global
    else if pc.Arrive? then s.global + 1
    else if pc.FreeGlobal? then s.global - 1
    else s.global
  }

  function NextTable(cfg: Config, s: State, p: Proc): map<string, nat> {
    if p.pc.Install? then s.table[HostOf(cfg, p) := |s.chans|] else s.table
  }

  function NextChans(cfg: Config, s: State, p: Proc): seq<Chan>
    requires ProcEnabled(cfg, s, p)
  {
    match p.pc
    case Install => s.chans + [Chan(HostOf(cfg, p), 0)]
    case Want(c) => s.chans[c := s.chans[c].(tokens := s.chans[c].tokens + 1)]
    case Drain(c) => s.chans[c := s.chans[c].(tokens := s.chans[c].tokens - 1)]
    case _ => s.chans
  }

  function StepPlain(cfg: Config, s: State, id: nat): State
    requires id < |s.procs| && ProcEnabled(cfg, s, s.procs[id])
  {
    var p := s.procs[id];
    Move(s, id, NextPc(cfg, s, p)).(wg := NextWg(s, p.pc), global := NextGlobal(cfg, s, p.pc),
      table := NextTable(cfg, s, p), chans := NextChans(cfg, s, p))
  }

  function StepProc(cfg: Config, s: State, id: nat): State
    requires id < |s.procs| && ProcEnabled(cfg, s, s.procs[id])
  {
    var p := s.procs[id];
    if p.pc.Run? && p.pc.acts != [] then StepAction(s, id, p.pc.acts)
    else if p.pc.Duplicate? then StepVisit(cfg, s, id, p.req)
    else StepPlain(cfg, s, id)
  }

  predicate CanCrash(pc: Pc) {
    pc.Domain? || pc.Duplicate? || pc.Robots? || pc.Fetch? || pc.Run?
  }

  // ----- Start -----

  /** wgExporters: the exporters, or the goroutine that drains when there is none. */
  predicate ExportersDone(s: State) {
    if |s.finished| == 0 then s.relay.Ended? else forall j :: 0 <= j < |s.finished| ==> s.finished[j]
  }

  predicate MainEnabled(s: State) {
    match s.main
    case Starting(acts) => acts == [] || acts[0].Spawn? || (acts[0].Emit? && CanSend(s))
    case Pausing(child, _) => IsGone(s, child)
    case Waiting => s.wg == 0
    case Passed => true
    case Closed => ExportersDone(s)
    case Returned => false
  }

  function StepMain(s: State): State
    requires MainEnabled(s)
  {
    match s.main
    case Starting(acts) =>
      if acts == [] then s.(main := Waiting)
      else if acts[0].Emit? then Send(s, acts[0].item).(main := Starting(acts[1..]))
      else
        var req := acts[0].req;
        Launch(s.(main := if req.sync && !s.shutdown then Pausing(|s.procs|, acts[1..]) else Starting(acts[1..])), req)
    case Pausing(_, acts) => s.(main := Starting(acts))
    case Waiting => s.(main := Passed)
    case Passed => s.(main := Closed, closed := true)
    case Closed => s.(main := Returned)
    case Returned => s
  }

  // ----- exporters -----

  predicate CopyEnabled(s: State) {
    match s.relay
    case Idle => s.buffer != [] || s.closed
    case Sending(_, j) => j < |s.finished| ==> !s.finished[j]
    case Ended => false
  }

  function StepCopy(s: State): State
    requires CopyEnabled(s) && |s.received| == |s.finished|
  {
    match s.relay
    case Idle => if s.buffer != [] then s.(relay := Sending(s.buffer[0], 0), buffer := s.buffer[1..]) else s.(relay := Ended)
    case Sending(item, j) =>
      if j < |s.received| then s.(relay := Sending(item, j + 1), received := s.received[j := s.received[j] + [item]])
      else s.(relay := Idle)
    case Ended => s
  }

  // ----- the whole -----

  predicate Enabled(cfg: Config, s: State, ev: Event) {
    && |s.received| == |s.finished|
    && match ev
       case Main => MainEnabled(s)
       case Advance(id) => id < |s.procs| && ProcEnabled(cfg, s, s.procs[id])
       case Judge(id, pass) => id < |s.procs| && s.procs[id].pc.Robots? && cfg.admits(s.procs[id].req.url, pass)
       case Respond(id, acts) => id < |s.procs| && s.procs[id].pc.Fetch? && cfg.behaves(s.procs[id].req.url, acts)
       case Crash(id) => id < |s.procs| && cfg.faulty && CanCrash(s.procs[id].pc)
       case Interrupt => !s.shutdown && !s.main.Returned?
       case Copy => CopyEnabled(s)
       case Export(j) => j < |s.finished| && !s.finished[j] && (s.relay.Ended? || !cfg.drains)
  }

  function Step(cfg: Config, s: State, ev: Event): State
    requires Enabled(cfg, s, ev)
  {
    match ev
    case Main => StepMain(s)
    case Advance(id) => StepProc(cfg, s, id)
    case Judge(id, pass) => Move(s, id, if pass then Fetch else Leave)
    case Respond(id, acts) => Move(s, id, Run(acts)).(fetched := s.fetched + [s.procs[id].req.url])
    case Crash(id) => Move(s, id, Leave)
    case Interrupt => s.(shutdown := true)
    case Copy => StepCopy(s)
    case Export(j) => s.(finished := s.finished[j := true])
  }

  predicate IsRun(cfg: Config, run: seq<Event>)
    decreases |run|, 0
  {
    run == [] || (IsRun(cfg, run[..|run| - 1]) && Enabled(cfg, After(cfg, run[..|run| - 1]), run[|run| - 1]))
  }

  function After(cfg: Config, run: seq<Event>): State
    requires IsRun(cfg, run)
    decreases |run|, 1
  {
    if run == [] then Init(cfg) else Step(cfg, After(cfg, run[..|run| - 1]), run[|run| - 1])
  }

  /** A run is what came before its last event, and that event. */
  lemma LastStep(cfg: Config, before: seq<Event>, ev: Event)
    requires IsRun(cfg, before + [ev])
    ensures IsRun(cfg, before) && Enabled(cfg, After(cfg, before), ev)
    ensures After(cfg, before + [ev]) == Step(cfg, After(cfg, before), ev)
  {
    assert (before + [ev])[..|before + [ev]| - 1] == before;
  }
}
