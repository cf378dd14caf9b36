/** What a crawl fetches does not depend on its schedule. */
module Crawl {
  import opened Engine
  import opened Lifecycle

  /** What a deterministic site does: the URLs robots.txt forbids, and what the callback
      of each URL does. */
  datatype Site = Site(forbidden: string -> bool, script: string -> seq<Action>)

  /** The URLs that `acts` requests before it panics, if it does. */
  function Reaches(acts: seq<Action>): set<string> {
    if acts == [] then {}
    else match acts[0]
      case Panic => {}
      case Emit(_) => Reaches(acts[1..])
      case Spawn(req) => {req.url} + Reaches(acts[1..])
  }

  predicate OnlyGets(acts: seq<Action>) {
    forall i :: 0 <= i < |acts| && acts[i].Spawn? ==> acts[i].req.get
  }

  /** Revisits off, GET only, and per-URL deterministic outcomes without faults. */
  ghost predicate Deterministic(cfg: Config, site: Site) {
    && !cfg.revisit && !cfg.faulty && OnlyGets(cfg.seeds)
    && (forall u, pass :: cfg.admits(u, pass) <==> pass == !site.forbidden(u))
    && (forall u, acts :: cfg.behaves(u, acts) <==> acts == site.script(u))
    && (forall u :: OnlyGets(site.script(u)))
  }

  predicate Wanted(cfg: Config, site: Site, u: string) {
    cfg.allowed(u) && !site.forbidden(u)
  }

  /** `all` holds the wanted start URLs and the wanted links of its own pages. */
  ghost predicate IsClosed(cfg: Config, site: Site, all: iset<string>) {
    && (forall u :: u in Reaches(cfg.seeds) && Wanted(cfg, site, u) ==> u in all)
    && (forall u, v :: u in all && v in Reaches(site.script(u)) && Wanted(cfg, site, v) ==> v in all)
  }

  // ----- soundness: nothing outside a closed set is fetched, and nothing twice -----

  ghost predicate ActsWithin(cfg: Config, site: Site, all: iset<string>, acts: seq<Action>) {
    OnlyGets(acts) && forall v :: v in Reaches(acts) && Wanted(cfg, site, v) ==> v in all
  }

  ghost predicate ProcWithin(cfg: Config, site: Site, all: iset<string>, p: Proc) {
    && p.req.get && (Wanted(cfg, site, p.req.url) ==> p.req.url in all)
    && (p.pc.Duplicate? || Visiting(p.pc) ==> cfg.allowed(p.req.url))
    && (p.pc.Fetch? ==> Wanted(cfg, site, p.req.url))
    && ActsWithin(cfg, site, all, Rest(p.pc))
  }

  ghost predicate Within(cfg: Config, site: Site, all: iset<string>, s: State) {
    && (forall id :: 0 <= id < |s.procs| ==> ProcWithin(cfg, site, all, s.procs[id]))
    && ActsWithin(cfg, site, all, MainRest(s.main))
    && (forall u :: u in s.fetched ==> u in all)
  }

  lemma ActsTail(cfg: Config, site: Site, all: iset<string>, acts: seq<Action>)
    requires acts != [] && ActsWithin(cfg, site, all, acts)
    ensures !acts[0].Panic? ==> ActsWithin(cfg, site, all, acts[1..])
    ensures acts[0].Spawn? ==> acts[0].req.get && (Wanted(cfg, site, acts[0].req.url) ==> acts[0].req.url in all)
    ensures ActsWithin(cfg, site, all, [])
  {
  }

  /** The moved request, a launched one and Start stay within the closed set. */
  ghost predicate StaysWithin(cfg: Config, site: Site, all: iset<string>, s: State, s': State, id: int) {
    && (0 <= id < |s'.procs| ==> ProcWithin(cfg, site, all, s'.procs[id]))
    && (|s'.procs| > |s.procs| ==> ProcWithin(cfg, site, all, s'.procs[|s.procs|]))
    && ActsWithin(cfg, site, all, MainRest(s'.main))
    && (forall u :: u in s'.fetched ==> u in all)
  }

  lemma ActionWithin(cfg: Config, site: Site, all: iset<string>, s: State, id: nat, acts: seq<Action>)
    requires Within(cfg, site, all, s) && id < |s.procs| && acts != [] && s.procs[id].pc == Run(acts)
    ensures StaysWithin(cfg, site, all, s, StepAction(s, id, acts), id)
  {
    ActsTail(cfg, site, all, acts);
  }

  lemma VisitStaysWithin(cfg: Config, site: Site, all: iset<string>, s: State, id: nat)
    requires Within(cfg, site, all, s) && id < |s.procs| && s.procs[id].pc.Duplicate?
    ensures StaysWithin(cfg, site, all, s, StepVisit(cfg, s, id, s.procs[id].req), id)
  {
    assert ProcWithin(cfg, site, all, s.procs[id]);
  }

  /** Only an allowed request gets to the visited-URL test. */
  lemma AllowedGate(cfg: Config, s: State, id: nat)
    requires id < |s.procs| && ProcEnabled(cfg, s, s.procs[id])
    ensures StepProc(cfg, s, id).procs[id].pc.Duplicate? ==> cfg.allowed(s.procs[id].req.url)
  {
    if s.procs[id].pc.Run? && s.procs[id].pc.acts != [] {
      ActionTarget(s, id, s.procs[id].pc.acts);
    }
  }

  lemma ProcStaysWithin(cfg: Config, site: Site, all: iset<string>, s: State, id: nat)
    requires Within(cfg, site, all, s) && id < |s.procs| && ProcEnabled(cfg, s, s.procs[id])
    ensures StaysWithin(cfg, site, all, s, StepProc(cfg, s, id), id)
  {
    assert ProcWithin(cfg, site, all, s.procs[id]);
    var pc := s.procs[id].pc;
    if pc.Run? && pc.acts != [] {
      ActionWithin(cfg, site, all, s, id, pc.acts);
    } else if pc.Duplicate? {
      VisitStaysWithin(cfg, site, all, s, id);
    } else {
      PlainFrame(cfg, s, id);
      PlainPhase(cfg, s, id);
      AllowedGate(cfg, s, id);
    }
  }

  lemma MainStaysWithin(cfg: Config, site: Site, all: iset<string>, s: State)
    requires Within(cfg, site, all, s) && MainEnabled(s)
    ensures StaysWithin(cfg, site, all, s, StepMain(s), -1)
  {
    if s.main.Starting? && s.main.acts != [] {
      ActsTail(cfg, site, all, s.main.acts);
    }
  }

  lemma StillWithin(cfg: Config, site: Site, all: iset<string>, s: State, s': State, id: int)
    requires Within(cfg, site, all, s) && Moves(s, s', id) && id < |s.procs| && StaysWithin(cfg, site, all, s, s', id)
    ensures Within(cfg, site, all, s')
  {
  }

  lemma JudgeStaysWithin(cfg: Config, site: Site, all: iset<string>, s: State, ev: Event)
    requires Deterministic(cfg, site) && IsClosed(cfg, site, all) && Within(cfg, site, all, s) && Enabled(cfg, s, ev)
    requires !ev.Main? && !ev.Advance?
    ensures StaysWithin(cfg, site, all, s, Step(cfg, s, ev), Mover(ev))
  {
    if 0 <= Mover(ev) {
      assert ProcWithin(cfg, site, all, s.procs[Mover(ev)]);
    }
  }

  lemma WithinStep(cfg: Config, site: Site, all: iset<string>, s: State, ev: Event)
    requires Deterministic(cfg, site) && IsClosed(cfg, site, all) && Within(cfg, site, all, s) && Enabled(cfg, s, ev)
    ensures Within(cfg, site, all, Step(cfg, s, ev))
  {
    StepMoves(cfg, s, ev);
    if ev.Main? {
      MainStaysWithin(cfg, site, all, s);
    } else if ev.Advance? {
      ProcStaysWithin(cfg, site, all, s, ev.id);
    } else {
      JudgeStaysWithin(cfg, site, all, s, ev);
    }
    StillWithin(cfg, site, all, s, Step(cfg, s, ev), Mover(ev));
  }

  lemma {:induction false} AlwaysWithin(cfg: Config, site: Site, all: iset<string>, run: seq<Event>)
    requires Deterministic(cfg, site) && IsClosed(cfg, site, all) && IsRun(cfg, run)
    ensures Within(cfg, site, all, After(cfg, run))
  {
    if run != [] {
      var before := run[..|run| - 1];
      AlwaysWithin(cfg, site, all, before);
      WithinStep(cfg, site, all, After(cfg, before), run[|run| - 1]);
    }
  }

  predicate Anything(u: string) {
    true
  }

  /** The largest closed set. */
  ghost function Everything(): iset<string> {
    iset u: string | Anything(u)
  }

  // ----- each URL at most once -----

  predicate Distinct(s: seq<string>) {
    forall i, j :: 0 <= i < j < |s| ==> s[i] != s[j]
  }

  /** A request that is on its way to be fetched owns its URL. */
  predicate Once(s: State) {
    && Distinct(s.fetched)
    && (forall u :: u in s.fetched ==> u in s.visited)
    && (forall id :: 0 <= id < |s.procs| && Visiting(s.procs[id].pc) ==>
          s.procs[id].req.url in s.visited && s.procs[id].req.url !in s.fetched)
    && (forall i, j :: 0 <= i < j < |s.procs| && Visiting(s.procs[i].pc) && Visiting(s.procs[j].pc) ==>
          s.procs[i].req.url != s.procs[j].req.url)
  }

  /** The visited set and the fetch log, unless the step is the test or the fetch itself. */
  lemma OtherVisits(cfg: Config, s: State, ev: Event)
    requires Enabled(cfg, s, ev)
    requires !(ev.Advance? && s.procs[ev.id].pc.Duplicate?) && !ev.Respond?
    ensures var s' := Step(cfg, s, ev);
      s'.visited == s.visited && s'.fetched == s.fetched && |s.procs| <= |s'.procs| &&
      (0 <= Mover(ev) < |s.procs| && Visiting(s'.procs[Mover(ev)].pc) ==> Visiting(s.procs[Mover(ev)].pc))
  {
    if ev.Advance? {
      OtherVisitsProc(cfg, s, ev.id);
    }
  }

  lemma OtherVisitsProc(cfg: Config, s: State, id: nat)
    requires id < |s.procs| && ProcEnabled(cfg, s, s.procs[id]) && !s.procs[id].pc.Duplicate?
    ensures var s' := StepProc(cfg, s, id); s'.visited == s.visited && s'.fetched == s.fetched && !Visiting(s'.procs[id].pc)
  {
    if s.procs[id].pc.Run? && s.procs[id].pc.acts != [] {
      OtherVisitsAction(s, id, s.procs[id].pc.acts);
    }
  }

  lemma OtherVisitsAction(s: State, id: nat, acts: seq<Action>)
    requires id < |s.procs| && acts != []
    ensures var s' := StepAction(s, id, acts); s'.visited == s.visited && s'.fetched == s.fetched && !Visiting(s'.procs[id].pc)
  {
  }

  lemma VisitOnce(cfg: Config, s: State, id: nat)
    requires Once(s) && !cfg.revisit && id < |s.procs| && s.procs[id].pc.Duplicate? && s.procs[id].req.get
    ensures Once(StepVisit(cfg, s, id, s.procs[id].req))
  {
  }

  lemma FetchOnce(s: State, id: nat, acts: seq<Action>)
    requires Once(s) && id < |s.procs| && s.procs[id].pc.Fetch?
    ensures Once(Move(s, id, Run(acts)).(fetched := s.fetched + [s.procs[id].req.url]))
  {
  }

  lemma OnceKept(s: State, s': State, id: int)
    requires Once(s) && Moves(s, s', id) && id < |s.procs| && s'.visited == s.visited && s'.fetched == s.fetched
    requires 0 <= id && Visiting(s'.procs[id].pc) ==> Visiting(s.procs[id].pc)
    ensures Once(s')
  {
  }

  predicate AllGets(s: State) {
    forall id :: 0 <= id < |s.procs| ==> s.procs[id].req.get
  }

  lemma OnceStep(cfg: Config, s: State, ev: Event)
    requires Once(s) && !cfg.revisit && AllGets(s) && Enabled(cfg, s, ev)
    ensures Once(Step(cfg, s, ev))
  {
    if ev.Advance? && s.procs[ev.id].pc.Duplicate? {
      VisitOnce(cfg, s, ev.id);
    } else if ev.Respond? {
      FetchOnce(s, ev.id, ev.acts);
    } else {
      StepMoves(cfg, s, ev);
      OtherVisits(cfg, s, ev);
      OnceKept(s, Step(cfg, s, ev), Mover(ev));
    }
  }

  lemma {:induction false} AlwaysOnce(cfg: Config, site: Site, run: seq<Event>)
    requires Deterministic(cfg, site) && IsRun(cfg, run)
    ensures Once(After(cfg, run))
  {
    if run != [] {
      var before := run[..|run| - 1];
      AlwaysOnce(cfg, site, before);
      AlwaysWithin(cfg, site, Everything(), before);
      OnceStep(cfg, After(cfg, before), run[|run| - 1]);
    }
  }

  // ----- completeness: without a shutdown nothing is missed -----

  predicate HasProc(s: State, u: string) {
    exists id :: 0 <= id < |s.procs| && s.procs[id].req.url == u
  }

  predicate IsVisiting(s: State, u: string) {
    exists id :: 0 <= id < |s.procs| && Visiting(s.procs[id].pc) && s.procs[id].req.url == u
  }

  /** Some request for `u` has still to request `v`. */
  predicate Owes(s: State, u: string, v: string) {
    exists id :: 0 <= id < |s.procs| && s.procs[id].req.url == u && v in Reaches(Rest(s.procs[id].pc))
  }

  predicate Tested(pc: Pc) {
    !(pc.Arrive? || pc.LookUp? || pc.Install? || pc.Want? || pc.Domain? || pc.Duplicate?)
  }

  predicate Complete(cfg: Config, site: Site, s: State) {
    !s.shutdown && VisitsAccounted(cfg, site, s) && LinksAccounted(cfg, site, s)
  }

  lemma HasProcKept(s: State, s': State, id: int, u: string)
    requires Moves(s, s', id) && id < |s.procs| && HasProc(s, u)
    ensures HasProc(s', u)
  {
    var i :| 0 <= i < |s.procs| && s.procs[i].req.url == u;
    assert s'.procs[i].req.url == u;
  }

  /** What the moved request owes is what it owed, less what has just been launched. */
  predicate PaysOff(s: State, s': State, id: int)
    requires |s.procs| <= |s'.procs|
  {
    0 <= id < |s.procs| ==>
      forall v :: v in Reaches(Rest(s.procs[id].pc)) ==> HasProc(s', v) || v in Reaches(Rest(s'.procs[id].pc))
  }

  lemma ActionPaysOff(s: State, id: nat, acts: seq<Action>)
    requires !s.shutdown && id < |s.procs| && acts != [] && s.procs[id].pc == Run(acts)
    ensures PaysOff(s, StepAction(s, id, acts), id)
  {
    if acts[0].Spawn? {
      var s' := StepAction(s, id, acts);
      assert s'.procs[|s.procs|].req.url == acts[0].req.url;
    }
  }

  lemma ProcPaysOff(cfg: Config, s: State, id: nat)
    requires !s.shutdown && id < |s.procs| && ProcEnabled(cfg, s, s.procs[id])
    ensures PaysOff(s, StepProc(cfg, s, id), id)
  {
    if s.procs[id].pc.Run? && s.procs[id].pc.acts != [] {
      ActionPaysOff(s, id, s.procs[id].pc.acts);
    }
  }

  lemma OwesKept(s: State, s': State, id: int, u: string, v: string)
    requires Moves(s, s', id) && id < |s.procs| && PaysOff(s, s', id) && Owes(s, u, v)
    ensures HasProc(s', v) || Owes(s', u, v)
  {
    var i :| 0 <= i < |s.procs| && s.procs[i].req.url == u && v in Reaches(Rest(s.procs[i].pc));
    if !HasProc(s', v) {
      assert s'.procs[i].req.url == u && v in Reaches(Rest(s'.procs[i].pc));
    }
  }

  lemma VisitingKept(s: State, s': State, id: int, u: string)
    requires Moves(s, s', id) && id < |s.procs| && IsVisiting(s, u)
    requires 0 <= id && Visiting(s.procs[id].pc) ==> Visiting(s'.procs[id].pc) || s.procs[id].req.url != u
    ensures IsVisiting(s', u)
  {
    var i :| 0 <= i < |s.procs| && Visiting(s.procs[i].pc) && s.procs[i].req.url == u;
    assert Visiting(s'.procs[i].pc) && s'.procs[i].req.url == u;
  }

  /** The parts of Complete that speak of visits. */
  predicate VisitsAccounted(cfg: Config, site: Site, s: State) {
    && (forall u :: u in s.visited ==> u in s.fetched || site.forbidden(u) || IsVisiting(s, u))
    && (forall id :: 0 <= id < |s.procs| && Tested(s.procs[id].pc) ==>
          !cfg.allowed(s.procs[id].req.url) || s.procs[id].req.url in s.visited)
  }

  /** The parts of Complete that speak of links. */
  predicate LinksAccounted(cfg: Config, site: Site, s: State) {
    && (forall u, v :: u in s.fetched && v in Reaches(site.script(u)) ==> HasProc(s, v) || Owes(s, u, v))
    && (forall v :: v in Reaches(cfg.seeds) ==> HasProc(s, v) || v in Reaches(MainRest(s.main)))
  }

  lemma VisitsKept(cfg: Config, site: Site, s: State, s': State, id: int)
    requires VisitsAccounted(cfg, site, s) && Moves(s, s', id) && id < |s.procs|
    requires s'.visited == s.visited && (forall u :: u in s.fetched ==> u in s'.fetched)
    requires 0 <= id ==>
      && (Visiting(s.procs[id].pc) ==> Visiting(s'.procs[id].pc) || s.procs[id].req.url in s'.fetched || site.forbidden(s.procs[id].req.url))
      && (Tested(s'.procs[id].pc) ==> Tested(s.procs[id].pc) || !cfg.allowed(s.procs[id].req.url))
    ensures VisitsAccounted(cfg, site, s')
  {
    forall u | u in s'.visited ensures u in s'.fetched || site.forbidden(u) || IsVisiting(s', u) {
      if u !in s'.fetched && !site.forbidden(u) {
        VisitingKept(s, s', id, u);
      }
    }
  }

  lemma VisitAccounted(cfg: Config, site: Site, s: State, id: nat)
    requires VisitsAccounted(cfg, site, s) && !cfg.revisit && id < |s.procs| && s.procs[id].pc.Duplicate? && s.procs[id].req.get
    ensures VisitsAccounted(cfg, site, StepVisit(cfg, s, id, s.procs[id].req))
  {
    var url := s.procs[id].req.url;
    var s' := StepVisit(cfg, s, id, s.procs[id].req);
    forall u | u in s'.visited ensures u in s'.fetched || site.forbidden(u) || IsVisiting(s', u) {
      if u == url && url !in s.visited {
        assert Visiting(s'.procs[id].pc) && s'.procs[id].req.url == u;
      } else if u !in s'.fetched && !site.forbidden(u) {
        VisitingKept(s, s', id, u);
      }
    }
  }

  lemma LinksKept(cfg: Config, site: Site, s: State, s': State, id: int)
    requires LinksAccounted(cfg, site, s) && Moves(s, s', id) && id < |s.procs| && PaysOff(s, s', id)
    requires s'.fetched == s.fetched && (forall v :: v in Reaches(MainRest(s.main)) ==> HasProc(s', v) || v in Reaches(MainRest(s'.main)))
    ensures LinksAccounted(cfg, site, s')
  {
    forall u, v | u in s'.fetched && v in Reaches(site.script(u)) ensures HasProc(s', v) || Owes(s', u, v) {
      if HasProc(s, v) {
        HasProcKept(s, s', id, v);
      } else {
        OwesKept(s, s', id, u, v);
      }
    }
    forall v | v in Reaches(cfg.seeds) ensures HasProc(s', v) || v in Reaches(MainRest(s'.main)) {
      if HasProc(s, v) {
        HasProcKept(s, s', id, v);
      }
    }
  }

  lemma LinksFetched(cfg: Config, site: Site, s: State, id: nat)
    requires LinksAccounted(cfg, site, s) && id < |s.procs| && s.procs[id].pc.Fetch?
    ensures LinksAccounted(cfg, site, Move(s, id, Run(site.script(s.procs[id].req.url))).(fetched := s.fetched + [s.procs[id].req.url]))
  {
    var url := s.procs[id].req.url;
    var s' := Move(s, id, Run(site.script(url))).(fetched := s.fetched + [url]);
    forall u, v | u in s'.fetched && v in Reaches(site.script(u)) ensures HasProc(s', v) || Owes(s', u, v) {
      if u == url {
        assert s'.procs[id].req.url == u && Rest(s'.procs[id].pc) == site.script(u);
      } else if HasProc(s, v) {
        HasProcKept(s, s', id, v);
      } else {
        OwesKept(s, s', id, u, v);
      }
    }
    forall v | v in Reaches(cfg.seeds) && HasProc(s, v) ensures HasProc(s', v) {
      HasProcKept(s, s', id, v);
    }
  }

  lemma MainPaysOff(s: State)
    requires !s.shutdown && MainEnabled(s)
    ensures var s' := StepMain(s); forall v :: v in Reaches(MainRest(s.main)) ==> HasProc(s', v) || v in Reaches(MainRest(s'.main))
    ensures var s' := StepMain(s); s'.visited == s.visited && s'.fetched == s.fetched
  {
    if s.main.Starting? && s.main.acts != [] && s.main.acts[0].Spawn? {
      var s' := StepMain(s);
      assert s'.procs[|s.procs|].req.url == s.main.acts[0].req.url;
    }
  }

  lemma TestedProc(cfg: Config, s: State, id: nat)
    requires id < |s.procs| && ProcEnabled(cfg, s, s.procs[id]) && !s.procs[id].pc.Duplicate?
    ensures var s' := StepProc(cfg, s, id);
      && (Tested(s'.procs[id].pc) ==> Tested(s.procs[id].pc) || !cfg.allowed(s.procs[id].req.url))
      && s'.main == s.main && s'.shutdown == s.shutdown && !Visiting(s.procs[id].pc)
  {
    if s.procs[id].pc.Run? && s.procs[id].pc.acts != [] {
      QuietAction(s, id, s.procs[id].pc.acts);
    }
  }

  lemma CompleteProc(cfg: Config, site: Site, s: State, id: nat)
    requires Complete(cfg, site, s) && !cfg.revisit && AllGets(s) && id < |s.procs| && ProcEnabled(cfg, s, s.procs[id])
    ensures Complete(cfg, site, StepProc(cfg, s, id))
  {
    var s' := StepProc(cfg, s, id);
    ProcMoves(cfg, s, id);
    ProcPaysOff(cfg, s, id);
    if s.procs[id].pc.Duplicate? {
      VisitAccounted(cfg, site, s, id);
    } else {
      OtherVisitsProc(cfg, s, id);
      TestedProc(cfg, s, id);
      VisitsKept(cfg, site, s, s', id);
    }
    LinksKept(cfg, site, s, s', id);
  }

  lemma CompleteStep(cfg: Config, site: Site, s: State, ev: Event)
    requires Deterministic(cfg, site) && Complete(cfg, site, s) && AllGets(s) && Enabled(cfg, s, ev) && !ev.Interrupt?
    ensures Complete(cfg, site, Step(cfg, s, ev))
  {
    var s' := Step(cfg, s, ev);
    StepMoves(cfg, s, ev);
    match ev
    case Main =>
      MainPaysOff(s);
      VisitsKept(cfg, site, s, s', -1);
      LinksKept(cfg, site, s, s', -1);
    case Advance(id) => CompleteProc(cfg, site, s, id);
    case Respond(id, acts) =>
      VisitsKept(cfg, site, s, s', id);
      LinksFetched(cfg, site, s, id);
    case Judge(id, _) =>
      VisitsKept(cfg, site, s, s', id);
      LinksKept(cfg, site, s, s', id);
    case _ =>
      VisitsKept(cfg, site, s, s', -1);
      LinksKept(cfg, site, s, s', -1);
  }

  predicate NoShutdown(run: seq<Event>) {
    forall ev :: ev in run ==> !ev.Interrupt?
  }

  lemma {:induction false} AlwaysComplete(cfg: Config, site: Site, run: seq<Event>)
    requires Deterministic(cfg, site) && IsRun(cfg, run) && NoShutdown(run)
    ensures Complete(cfg, site, After(cfg, run))
  {
    if run != [] {
      var before := run[..|run| - 1];
      AlwaysComplete(cfg, site, before);
      AlwaysWithin(cfg, site, Everything(), before);
      CompleteStep(cfg, site, After(cfg, before), run[|run| - 1]);
    }
  }

  // ----- the theorems -----

  ghost function Fetched(cfg: Config, run: seq<Event>): iset<string>
    requires IsRun(cfg, run)
  {
    iset u | u in After(cfg, run).fetched
  }

  /** Whatever the schedule, the limits and the moment of a shutdown, no page outside the
      closure is fetched and none is fetched twice. */
  lemma FetchesAreSound(cfg: Config, site: Site, run: seq<Event>)
    requires Deterministic(cfg, site) && IsRun(cfg, run)
    ensures Distinct(After(cfg, run).fetched)
    ensures forall all :: IsClosed(cfg, site, all) ==> Fetched(cfg, run) <= all
  {
    AlwaysOnce(cfg, site, run);
    forall all | IsClosed(cfg, site, all) ensures Fetched(cfg, run) <= all {
      AlwaysWithin(cfg, site, all, run);
    }
  }

  /** When everything launched is done, the fetched pages are closed. */
  lemma DoneIsClosed(cfg: Config, site: Site, s: State)
    requires Deterministic(cfg, site) && Complete(cfg, site, s) && Within(cfg, site, Everything(), s)
    requires MainRest(s.main) == [] && forall id :: 0 <= id < |s.procs| ==> !IsUndone(s.procs[id].pc)
    ensures forall u :: u in Reaches(cfg.seeds) && Wanted(cfg, site, u) ==> u in s.fetched
    ensures forall u, v :: u in s.fetched && v in Reaches(site.script(u)) && Wanted(cfg, site, v) ==> v in s.fetched
  {
    forall v | HasProc(s, v) && Wanted(cfg, site, v) ensures v in s.fetched {
      var id :| 0 <= id < |s.procs| && s.procs[id].req.url == v;
      assert Tested(s.procs[id].pc);
      assert v in s.visited && !IsVisiting(s, v);
    }
    forall u, v | u in s.fetched && v in Reaches(site.script(u)) ensures HasProc(s, v) {
      assert !Owes(s, u, v);
    }
  }

  /** Schedule independence: once Wait has passed in a run without a shutdown, the fetched
      pages are exactly the least set closed under wanted start URLs and wanted links of
      fetched pages, each fetched exactly once. */
  lemma ScheduleIndependence(cfg: Config, site: Site, run: seq<Event>)
    requires Deterministic(cfg, site) && IsRun(cfg, run) && NoShutdown(run) && PastWait(After(cfg, run).main)
    ensures Distinct(After(cfg, run).fetched)
    ensures IsClosed(cfg, site, Fetched(cfg, run))
    ensures forall all :: IsClosed(cfg, site, all) ==> Fetched(cfg, run) <= all
  {
    FetchesAreSound(cfg, site, run);
    AlwaysComplete(cfg, site, run);
    AlwaysWithin(cfg, site, Everything(), run);
    AlwaysInv(cfg, run);
    NoneUndone(cfg, After(cfg, run).procs);
    DoneIsClosed(cfg, site, After(cfg, run));
  }

  /** Two crawls of one site fetch the same pages, whatever their limits, exporters and
      schedules; a third one that is shut down fetches no others. */
  lemma SameSiteSamePages(cfg1: Config, run1: seq<Event>, cfg2: Config, run2: seq<Event>, site: Site)
    requires Deterministic(cfg1, site) && Deterministic(cfg2, site) && cfg1.seeds == cfg2.seeds
    requires forall u :: cfg1.allowed(u) <==> cfg2.allowed(u)
    requires IsRun(cfg1, run1) && NoShutdown(run1) && PastWait(After(cfg1, run1).main)
    requires IsRun(cfg2, run2)
    ensures Fetched(cfg2, run2) <= Fetched(cfg1, run1)
    ensures NoShutdown(run2) && PastWait(After(cfg2, run2).main) ==> Fetched(cfg2, run2) == Fetched(cfg1, run1)
  {
    ScheduleIndependence(cfg1, site, run1);
    FetchesAreSound(cfg2, site, run2);
    assert IsClosed(cfg2, site, Fetched(cfg1, run1));
    if NoShutdown(run2) && PastWait(After(cfg2, run2).main) {
      ScheduleIndependence(cfg2, site, run2);
      assert IsClosed(cfg1, site, Fetched(cfg2, run2));
    }
  }
}
