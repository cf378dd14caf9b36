/** What gets into the stream of exported items: everything that the start function and the
    callbacks send, each in its order, and nothing else. */
module Stream {
  import opened Engine
  import opened Lifecycle
  import opened Exports
  import opened Crawl

  // ----- the log of the sends performed -----

  /** Who sends, and what. The start function goes by -1, a callback by its request. */
  datatype Sent = Sent(who: int, item: int)

  const START := -1

  /** The action that an event performs, if it performs one, and whose it is. */
  datatype Deed = Nothing | Doing(who: int, act: Action)

  function DeedOf(s: State, ev: Event): Deed {
    match ev
    case Main => if s.main.Starting? && s.main.acts != [] then Doing(START, s.main.acts[0]) else Nothing
    case Advance(id) => if id < |s.procs| && s.procs[id].pc.Run? && s.procs[id].pc.acts != [] then Doing(id, s.procs[id].pc.acts[0]) else Nothing
    case _ => Nothing
  }

  function Sends(s: State, ev: Event): seq<Sent> {
    match DeedOf(s, ev)
    case Doing(who, Emit(item)) => [Sent(who, item)]
    case _ => []
  }

  /** The sends of a run, in the order they were performed. */
  function Log(cfg: Config, run: seq<Event>): seq<Sent>
    requires IsRun(cfg, run)
  {
    if run == [] then [] else Log(cfg, run[..|run| - 1]) + Sends(After(cfg, run[..|run| - 1]), run[|run| - 1])
  }

  function ItemsOf(log: seq<Sent>): (items: seq<int>)
    ensures |items| == |log|
  {
    seq(|log|, i requires 0 <= i < |log| => log[i].item)
  }

  lemma StepStreams(cfg: Config, s: State, ev: Event)
    requires Enabled(cfg, s, ev)
    ensures Step(cfg, s, ev).stream == s.stream + ItemsOf(Sends(s, ev))
  {
    if ev.Advance? && s.procs[ev.id].pc.Run? && s.procs[ev.id].pc.acts != [] {
      ActionStreams(s, ev.id, s.procs[ev.id].pc.acts);
    }
  }

  lemma ActionStreams(s: State, id: nat, acts: seq<Action>)
    requires id < |s.procs| && acts != []
    ensures StepAction(s, id, acts).stream == s.stream + if acts[0].Emit? then [acts[0].item] else []
  {
  }

  /** The stream is the items of the log: nothing is lost, invented, or put out of order. */
  lemma {:induction false} StreamIsLog(cfg: Config, run: seq<Event>)
    requires IsRun(cfg, run)
    ensures After(cfg, run).stream == ItemsOf(Log(cfg, run))
  {
    if run != [] {
      var before, ev := run[..|run| - 1], run[|run| - 1];
      StreamIsLog(cfg, before);
      StepStreams(cfg, After(cfg, before), ev);
      assert ItemsOf(Log(cfg, before) + Sends(After(cfg, before), ev)) == ItemsOf(Log(cfg, before)) + ItemsOf(Sends(After(cfg, before), ev));
    }
  }

  // ----- what each of them sends -----

  function By(who: int, log: seq<Sent>): seq<int> {
    if log == [] then []
    else By(who, log[..|log| - 1]) + if log[|log| - 1].who == who then [log[|log| - 1].item] else []
  }

  lemma ByAppend(who: int, log: seq<Sent>, more: seq<Sent>)
    requires |more| <= 1
    ensures By(who, log + more) == By(who, log) + By(who, more)
  {
    if more == [] {
      assert log + more == log;
    } else {
      assert (log + more)[..|log|] == log && more[..0] == [];
    }
  }

  /** What the callback of a request has been given to do in the run, once it runs. */
  function Script(run: seq<Event>, id: int): seq<Action> {
    if run == [] then [] else Given(run[|run| - 1], id, Script(run[..|run| - 1], id))
  }

  function Given(ev: Event, id: int, script: seq<Action>): seq<Action> {
    if ev.Respond? && ev.id == id then ev.acts else script
  }

  /** Before its callback. */
  predicate Unanswered(pc: Pc) {
    pc.Arrive? || pc.LookUp? || pc.Install? || pc.Want? || pc.Domain? || pc.Duplicate? || pc.Robots? || pc.Fetch?
  }

  /** What a request has sent so far, against what its callback is to send: nothing before
      the callback, what is not still to come while it runs, all of it when it is over,
      unless a middleware or the client panicked on the way. */
  predicate InOrder(cfg: Config, pc: Pc, script: seq<Action>, sent: seq<int>) {
    if Unanswered(pc) then sent == [] && script == []
    else if pc.Run? || pc.Await? then Items(script) == sent + Items(Rest(pc))
    else sent <= Items(script) && (!cfg.faulty ==> sent == Items(script))
  }

  /** The same for the start function. */
  predicate StartInOrder(cfg: Config, m: MainPc, sent: seq<int>) {
    Items(cfg.seeds) == sent + Items(MainRest(m))
  }

  lemma ActionInOrder(cfg: Config, s: State, id: nat, acts: seq<Action>, script: seq<Action>, sent: seq<int>)
    requires id < |s.procs| && acts != [] && InOrder(cfg, Run(acts), script, sent)
    ensures InOrder(cfg, StepAction(s, id, acts).procs[id].pc, script, sent + if acts[0].Emit? then [acts[0].item] else [])
  {
    if acts[0].Emit? {
      assert sent + ([acts[0].item] + Items(acts[1..])) == sent + [acts[0].item] + Items(acts[1..]);
    } else {
      assert sent + [] == sent;
    }
  }

  lemma PlainInOrder(cfg: Config, s: State, p: Proc, script: seq<Action>, sent: seq<int>)
    requires ProcEnabled(cfg, s, p) && IsPlain(p.pc) && InOrder(cfg, p.pc, script, sent)
    ensures InOrder(cfg, NextPc(cfg, s, p), script, sent)
  {
    if p.pc.Run? {
      assert sent + [] == sent;
    }
  }

  lemma ProcInOrder(cfg: Config, s: State, id: nat, script: seq<Action>, sent: seq<int>)
    requires id < |s.procs| && ProcEnabled(cfg, s, s.procs[id]) && InOrder(cfg, s.procs[id].pc, script, sent)
    ensures InOrder(cfg, StepProc(cfg, s, id).procs[id].pc, script, sent + By(id, Sends(s, Advance(id))))
  {
    var p := s.procs[id];
    assert sent + [] == sent;
    if p.pc.Run? && p.pc.acts != [] {
      ActionInOrder(cfg, s, id, p.pc.acts, script, sent);
      if p.pc.acts[0].Emit? {
        ByOne(id, p.pc.acts[0].item);
      }
    } else if IsPlain(p.pc) {
      PlainInOrder(cfg, s, p, script, sent);
    }
  }

  lemma ByOne(who: int, item: int)
    ensures By(who, [Sent(who, item)]) == [item]
  {
    assert [Sent(who, item)][..0] == [];
  }

  /** Nobody sends but the one whose action it is. */
  lemma OthersSendNothing(s: State, ev: Event, who: int)
    requires DeedOf(s, ev).Doing? ==> DeedOf(s, ev).who != who
    ensures By(who, Sends(s, ev)) == []
  {
    if Sends(s, ev) != [] {
      assert Sends(s, ev)[..0] == [];
    }
  }

  lemma StepInOrder(cfg: Config, s: State, ev: Event, id: nat, script: seq<Action>, sent: seq<int>)
    requires Enabled(cfg, s, ev) && id < |s.procs| && InOrder(cfg, s.procs[id].pc, script, sent)
    ensures id < |Step(cfg, s, ev).procs|
    ensures InOrder(cfg, Step(cfg, s, ev).procs[id].pc, Given(ev, id, script), sent + By(id, Sends(s, ev)))
  {
    StepMoves(cfg, s, ev);
    if ev == Advance(id) {
      ProcInOrder(cfg, s, id, script, sent);
    } else {
      OthersSendNothing(s, ev, id);
      assert sent + [] == sent;
      if Mover(ev) == id {
        assert ev.Respond? ==> [] + Items(ev.acts) == Items(ev.acts);
      }
    }
  }

  lemma StepStartInOrder(cfg: Config, s: State, ev: Event, sent: seq<int>)
    requires Enabled(cfg, s, ev) && StartInOrder(cfg, s.main, sent)
    ensures StartInOrder(cfg, Step(cfg, s, ev).main, sent + By(START, Sends(s, ev)))
  {
    assert sent + [] == sent;
    if ev.Main? && s.main.Starting? && s.main.acts != [] && s.main.acts[0].Emit? {
      var item, rest := s.main.acts[0].item, s.main.acts[1..];
      ByOne(START, item);
      assert sent + ([item] + Items(rest)) == sent + [item] + Items(rest);
    } else {
      StartSendsNothing(s, ev);
      if ev.Advance? {
        ProcMain(cfg, s, ev.id);
      }
    }
  }

  lemma ProcMain(cfg: Config, s: State, id: nat)
    requires id < |s.procs| && ProcEnabled(cfg, s, s.procs[id])
    ensures StepProc(cfg, s, id).main == s.main
  {
    if s.procs[id].pc.Run? && s.procs[id].pc.acts != [] {
      QuietAction(s, id, s.procs[id].pc.acts);
    }
  }

  lemma StartSendsNothing(s: State, ev: Event)
    requires !(ev.Main? && s.main.Starting? && s.main.acts != [] && s.main.acts[0].Emit?)
    ensures By(START, Sends(s, ev)) == []
  {
    if ev.Advance? {
      OthersSendNothing(s, ev, START);
    }
  }

  lemma {:induction false} AlwaysInOrder(cfg: Config, run: seq<Event>, id: nat)
    requires IsRun(cfg, run)
    ensures
      var s, sent := After(cfg, run), By(id, Log(cfg, run));
      if id < |s.procs| then InOrder(cfg, s.procs[id].pc, Script(run, id), sent) else sent == [] && Script(run, id) == []
  {
    if run != [] {
      var before, ev := run[..|run| - 1], run[|run| - 1];
      AlwaysInOrder(cfg, before, id);
      var s := After(cfg, before);
      ByAppend(id, Log(cfg, before), Sends(s, ev));
      NextInOrder(cfg, s, ev, id, Script(before, id), By(id, Log(cfg, before)));
    }
  }

  lemma NextInOrder(cfg: Config, s: State, ev: Event, id: nat, script: seq<Action>, sent: seq<int>)
    requires Enabled(cfg, s, ev)
    requires if id < |s.procs| then InOrder(cfg, s.procs[id].pc, script, sent) else sent == [] && script == []
    ensures
      var s', script', sent' := Step(cfg, s, ev), Given(ev, id, script), sent + By(id, Sends(s, ev));
      if id < |s'.procs| then InOrder(cfg, s'.procs[id].pc, script', sent') else sent' == [] && script' == []
  {
    if id < |s.procs| {
      StepInOrder(cfg, s, ev, id, script, sent);
    } else {
      hide Step, InOrder;
      StepMoves(cfg, s, ev);
      OthersSendNothing(s, ev, id);
      StartsInOrder(cfg, script, sent);
    }
  }

  lemma StartsInOrder(cfg: Config, script: seq<Action>, sent: seq<int>)
    requires sent == [] && script == []
    ensures InOrder(cfg, Arrive, script, sent)
  {
  }

  lemma {:induction false} AlwaysStartInOrder(cfg: Config, run: seq<Event>)
    requires IsRun(cfg, run)
    ensures StartInOrder(cfg, After(cfg, run).main, By(START, Log(cfg, run)))
  {
    if run == [] {
      assert [] + Items(cfg.seeds) == Items(cfg.seeds);
    } else {
      var before, ev := run[..|run| - 1], run[|run| - 1];
      AlwaysStartInOrder(cfg, before);
      ByAppend(START, Log(cfg, before), Sends(After(cfg, before), ev));
      StepStartInOrder(cfg, After(cfg, before), ev, By(START, Log(cfg, before)));
    }
  }

  /** In every run, what each callback and the start function have sent is a beginning of
      what they are to send, in that order; and all of it once the callback is over, unless
      a middleware or the client panicked, or once Start waits. By StreamIsLog it stands in
      the stream in the same order. */
  lemma SendsInOrder(cfg: Config, run: seq<Event>, id: nat)
    requires IsRun(cfg, run) && id < |After(cfg, run).procs|
    ensures
      var sent, pc := By(id, Log(cfg, run)), After(cfg, run).procs[id].pc;
      sent <= Items(Script(run, id)) && (!cfg.faulty && (pc.Leave? || !IsUndone(pc)) ==> sent == Items(Script(run, id)))
    ensures
      var sent, main := By(START, Log(cfg, run)), After(cfg, run).main;
      sent <= Items(cfg.seeds) && (main.Waiting? || PastWait(main) ==> sent == Items(cfg.seeds))
  {
    hide By, Log, Script, After, IsRun;
    AlwaysInOrder(cfg, run, id);
    AlwaysStartInOrder(cfg, run);
    var sent := By(START, Log(cfg, run));
    assert sent + [] == sent;
  }

  // ----- all of them together -----

  /** How often `item` is to be sent by all callbacks that have run in `run`. */
  function Answered(run: seq<Event>, item: int): nat {
    if run == [] then 0 else Answered(run[..|run| - 1], item) + Answers(run[|run| - 1], item)
  }

  function Answers(ev: Event, item: int): nat {
    if ev.Respond? then Times(Items(ev.acts), item) else 0
  }

  /** Every item sent or still to be sent by somebody is one that somebody was to send. */
  predicate Accounted(cfg: Config, s: State, item: int, answered: nat) {
    Times(s.stream, item) + Times(Items(MainRest(s.main)), item) + Count(cfg, Unsent(item), s.procs) == Times(Items(cfg.seeds), item) + answered
  }

  /** A step takes an item out of what is to be sent and puts it into the stream, or adds
      what a new callback is to send. */
  predicate Balances(cfg: Config, s: State, s': State, id: int, item: int, answers: nat) {
    Times(s'.stream, item) + Times(Items(MainRest(s'.main)), item) + MoverWeight(cfg, Unsent(item), s'.procs, id) + LaunchedWeight(cfg, Unsent(item), s, s')
    == Times(s.stream, item) + Times(Items(MainRest(s.main)), item) + MoverWeight(cfg, Unsent(item), s.procs, id) + answers
  }

  lemma TimesAppend(items: seq<int>, more: seq<int>, item: int)
    ensures Times(items + more, item) == Times(items, item) + Times(more, item)
  {
  }

  /** The items of the first action come first. */
  lemma ItemsTail(acts: seq<Action>, item: int)
    requires acts != []
    ensures Times(Items(acts), item) ==
      match acts[0]
      case Panic => 0
      case Emit(i) => Times([i], item) + Times(Items(acts[1..]), item)
      case Spawn(_) => Times(Items(acts[1..]), item)
    ensures Times(Items([]), item) == 0
  {
    if acts[0].Emit? {
      TimesAppend([acts[0].item], Items(acts[1..]), item);
    }
  }

  lemma ActionBalances(cfg: Config, s: State, id: nat, acts: seq<Action>, item: int)
    requires id < |s.procs| && acts != [] && s.procs[id].pc == Run(acts)
    ensures Balances(cfg, s, StepAction(s, id, acts), id, item, 0)
  {
    hide Times, Items;
    ItemsTail(acts, item);
    if acts[0].Emit? {
      TimesAppend(s.stream, [acts[0].item], item);
    }
  }

  lemma PlainBalances(cfg: Config, s: State, id: nat, item: int)
    requires id < |s.procs| && ProcEnabled(cfg, s, s.procs[id]) && IsPlain(s.procs[id].pc)
    ensures Balances(cfg, s, StepProc(cfg, s, id), id, item, 0)
  {
    hide Times, Items;
    PlainPhase(cfg, s, id);
  }

  lemma ProcBalances(cfg: Config, s: State, id: nat, item: int)
    requires id < |s.procs| && ProcEnabled(cfg, s, s.procs[id])
    ensures Balances(cfg, s, StepProc(cfg, s, id), id, item, 0)
  {
    hide Times, Items;
    var pc := s.procs[id].pc;
    if IsPlain(pc) {
      PlainBalances(cfg, s, id, item);
    } else if pc.Run? {
      ActionBalances(cfg, s, id, pc.acts, item);
    }
  }

  lemma MainBalances(cfg: Config, s: State, item: int)
    requires MainEnabled(s)
    ensures Balances(cfg, s, StepMain(s), -1, item, 0)
  {
    hide Times, Items;
    if s.main.Starting? && s.main.acts != [] {
      ItemsTail(s.main.acts, item);
      if s.main.acts[0].Emit? {
        TimesAppend(s.stream, [s.main.acts[0].item], item);
      }
    }
    NoItems(item);
  }

  lemma NoItems(item: int)
    ensures Times(Items([]), item) == 0
  {
  }

  lemma StepBalances(cfg: Config, s: State, ev: Event, item: int)
    requires Enabled(cfg, s, ev) && !ev.Crash?
    ensures Balances(cfg, s, Step(cfg, s, ev), Mover(ev), item, Answers(ev, item))
  {
    hide Times, Items, StepProc, StepMain;
    NoItems(item);
    if ev.Main? {
      MainBalances(cfg, s, item);
    } else if ev.Advance? {
      ProcBalances(cfg, s, ev.id, item);
    }
  }

  lemma {:induction false} AlwaysAccounted(cfg: Config, run: seq<Event>, item: int)
    requires IsRun(cfg, run) && !cfg.faulty
    ensures Accounted(cfg, After(cfg, run), item, Answered(run, item))
  {
    hide Times, Items, Step, Enabled;
    if run != [] {
      var before, ev := run[..|run| - 1], run[|run| - 1];
      AlwaysAccounted(cfg, before, item);
      NextAccounted(cfg, After(cfg, before), ev, item, Answered(before, item));
    } else {
      NoTimes(item);
    }
  }

  lemma NoTimes(item: int)
    ensures Times([], item) == 0
  {
  }

  lemma NextAccounted(cfg: Config, s: State, ev: Event, item: int, answered: nat)
    requires Enabled(cfg, s, ev) && !cfg.faulty && Accounted(cfg, s, item, answered)
    ensures Accounted(cfg, Step(cfg, s, ev), item, answered + Answers(ev, item))
  {
    hide Times, Items, Step;
    StepMoves(cfg, s, ev);
    StepBalances(cfg, s, ev, item);
    MeterMoves(cfg, Unsent(item), s, Step(cfg, s, ev), Mover(ev));
  }

  /** Past Wait there is nothing left to send. */
  lemma {:induction false} NothingUnsent(cfg: Config, procs: seq<Proc>, item: int)
    requires forall id :: 0 <= id < |procs| ==> !IsUndone(procs[id].pc)
    ensures Count(cfg, Unsent(item), procs) == 0
  {
    if procs != [] {
      NothingUnsent(cfg, procs[..|procs| - 1], item);
    }
  }

  // ----- deterministic sites -----

  /** The items that the callbacks of these pages send. */
  function PageItems(site: Site, urls: seq<string>): multiset<int> {
    if urls == [] then multiset{} else PageItems(site, urls[..|urls| - 1]) + multiset(Items(site.script(urls[|urls| - 1])))
  }

  lemma {:induction false} AnsweredByPages(cfg: Config, site: Site, run: seq<Event>, item: int)
    requires Deterministic(cfg, site) && IsRun(cfg, run)
    ensures Answered(run, item) == PageItems(site, After(cfg, run).fetched)[item]
  {
    hide Items;
    if run != [] {
      var before, ev := run[..|run| - 1], run[|run| - 1];
      AnsweredByPages(cfg, site, before, item);
      var s := After(cfg, before);
      if ev.Respond? {
        var url := s.procs[ev.id].req.url;
        assert (s.fetched + [url])[..|s.fetched|] == s.fetched;
      } else {
        FetchesNothing(cfg, s, ev);
      }
    }
  }

  lemma FetchesNothing(cfg: Config, s: State, ev: Event)
    requires Enabled(cfg, s, ev) && !ev.Respond?
    ensures Step(cfg, s, ev).fetched == s.fetched
  {
    if ev.Advance? {
      if !s.procs[ev.id].pc.Duplicate? {
        OtherVisitsProc(cfg, s, ev.id);
      }
    }
  }

  /** What a crawl exports: once Wait has passed, exactly the items of the start function
      and of the pages it fetched, each as often as their scripts send it. */
  lemma ExportsArePageItems(cfg: Config, site: Site, run: seq<Event>)
    requires Deterministic(cfg, site) && IsRun(cfg, run) && PastWait(After(cfg, run).main)
    ensures multiset(After(cfg, run).stream) == multiset(Items(cfg.seeds)) + PageItems(site, After(cfg, run).fetched)
  {
    hide Items;
    var s := After(cfg, run);
    AlwaysInv(cfg, run);
    NoneUndone(cfg, s.procs);
    forall item ensures multiset(s.stream)[item] == multiset(Items(cfg.seeds))[item] + PageItems(site, s.fetched)[item] {
      AlwaysAccounted(cfg, run, item);
      NothingUnsent(cfg, s.procs, item);
      NoItems(item);
      AnsweredByPages(cfg, site, run, item);
    }
  }

  /** So every exporter that drains has received exactly these when Start returns. */
  lemma ExportersGetPageItems(cfg: Config, site: Site, run: seq<Event>, j: nat)
    requires Deterministic(cfg, site) && IsRun(cfg, run) && After(cfg, run).main.Returned? && cfg.drains && j < cfg.exporters
    ensures
      var s := After(cfg, run);
      |s.received| == cfg.exporters && multiset(s.received[j]) == multiset(Items(cfg.seeds)) + PageItems(site, s.fetched)
  {
    hide Items;
    CompleteOnReturn(cfg, run);
    ExportsArePageItems(cfg, site, run);
  }

  // ----- the schedule does not matter -----

  lemma {:induction false} PageItemsWithout(site: Site, urls: seq<string>, i: nat)
    requires i < |urls|
    ensures PageItems(site, urls) == PageItems(site, urls[..i] + urls[i + 1..]) + multiset(Items(site.script(urls[i])))
  {
    hide Items;
    var front, last := urls[..|urls| - 1], urls[|urls| - 1];
    var rest := urls[..i] + urls[i + 1..];
    if i == |urls| - 1 {
      assert rest == front;
    } else {
      PageItemsWithout(site, front, i);
      assert rest[..|rest| - 1] == front[..i] + front[i + 1..];
      assert rest[|rest| - 1] == last;
    }
  }

  lemma WithoutOne(urls: seq<string>, i: nat)
    requires i < |urls|
    ensures multiset(urls[..i] + urls[i + 1..]) == multiset(urls) - multiset{urls[i]}
  {
    assert urls == urls[..i] + [urls[i]] + urls[i + 1..];
  }

  lemma {:induction false} PageItemsPermute(site: Site, a: seq<string>, b: seq<string>)
    requires multiset(a) == multiset(b)
    ensures PageItems(site, a) == PageItems(site, b)
  {
    hide Items;
    if a == [] {
      assert |multiset(b)| == |b|;
    } else {
      var last := a[|a| - 1];
      assert last in multiset(b);
      var i :| 0 <= i < |b| && b[i] == last;
      WithoutOne(a, |a| - 1);
      WithoutOne(b, i);
      assert a[..|a| - 1] + a[|a|..] == a[..|a| - 1];
      PageItemsPermute(site, a[..|a| - 1], b[..i] + b[i + 1..]);
      PageItemsWithout(site, b, i);
    }
  }

  lemma {:induction false} DistinctOnce(urls: seq<string>, u: string)
    requires Distinct(urls)
    ensures multiset(urls)[u] == if u in urls then 1 else 0
  {
    if urls != [] {
      var front, last := urls[..|urls| - 1], urls[|urls| - 1];
      DistinctOnce(front, u);
      assert urls == front + [last];
    }
  }

  /** Two complete crawls of one site export the same items, each as often, whatever their
      limits, exporters and schedules. */
  lemma SameSiteSameItems(cfg1: Config, run1: seq<Event>, cfg2: Config, run2: seq<Event>, site: Site)
    requires Deterministic(cfg1, site) && Deterministic(cfg2, site) && cfg1.seeds == cfg2.seeds
    requires forall u :: cfg1.allowed(u) <==> cfg2.allowed(u)
    requires IsRun(cfg1, run1) && NoShutdown(run1) && PastWait(After(cfg1, run1).main)
    requires IsRun(cfg2, run2) && NoShutdown(run2) && PastWait(After(cfg2, run2).main)
    ensures multiset(After(cfg1, run1).stream) == multiset(After(cfg2, run2).stream)
  {
    hide Items, PageItems;
    var urls1, urls2 := After(cfg1, run1).fetched, After(cfg2, run2).fetched;
    ScheduleIndependence(cfg1, site, run1);
    ScheduleIndependence(cfg2, site, run2);
    SameSiteSamePages(cfg1, run1, cfg2, run2, site);
    forall u ensures multiset(urls1)[u] == multiset(urls2)[u] {
      DistinctOnce(urls1, u);
      DistinctOnce(urls2, u);
      assert u in Fetched(cfg1, run1) <==> u in Fetched(cfg2, run2);
    }
    PageItemsPermute(site, urls1, urls2);
    ExportsArePageItems(cfg1, site, run1);
    ExportsArePageItems(cfg2, site, run2);
  }
}
