/** Synchronized requests: whoever launches one goes on when it is over, deferred calls and
    all. And what an interrupt leaves to be launched: nothing. */
module Nested {
  import opened Engine
  import opened Lifecycle
  import opened Stream

  /** The start function or a callback is inside the request `child`, with `acts` to do
      after it. */
  predicate Inside(s: State, who: int, child: nat, acts: seq<Action>) {
    if who == START then s.main == Pausing(child, acts)
    else 0 <= who < |s.procs| && s.procs[who].pc == Await(child, acts)
  }

  /** It has `acts` to do. */
  predicate GoesOn(s: State, who: int, acts: seq<Action>) {
    if who == START then s.main == Starting(acts)
    else 0 <= who < |s.procs| && s.procs[who].pc == Run(acts)
  }

  /** Launching: the request starts at its beginning, and only a synchronized one is waited
      for; after a shutdown there is none, and nothing to wait for. */
  lemma Launches(cfg: Config, s: State, ev: Event, who: int, req: Req, acts: seq<Action>)
    requires Enabled(cfg, s, ev) && DeedOf(s, ev) == Doing(who, Spawn(req)) && GoesOn(s, who, [Spawn(req)] + acts)
    ensures
      var s' := Step(cfg, s, ev);
      if s.shutdown then |s'.procs| == |s.procs| && GoesOn(s', who, acts)
      else
        && |s'.procs| == |s.procs| + 1 && s'.procs[|s.procs|] == Proc(req, Arrive)
        && if req.sync then Inside(s', who, |s.procs|, acts) else GoesOn(s', who, acts)
  {
    assert ([Spawn(req)] + acts)[1..] == acts;
    if ev.Advance? {
      SpawnLaunches(s, ev.id, req, acts);
    }
  }

  lemma SpawnLaunches(s: State, id: nat, req: Req, acts: seq<Action>)
    requires id < |s.procs|
    ensures
      var s' := StepAction(s, id, [Spawn(req)] + acts);
      && s'.procs[id].pc == (if req.sync && !s.shutdown then Await(|s.procs|, acts) else Run(acts))
      && |s'.procs| == (if s.shutdown then |s.procs| else |s.procs| + 1)
      && (!s.shutdown ==> s'.procs[|s.procs|] == Proc(req, Arrive))
  {
    assert ([Spawn(req)] + acts)[1..] == acts;
  }

  lemma StaysInside(cfg: Config, s: State, ev: Event, who: int, child: nat, acts: seq<Action>)
    requires Enabled(cfg, s, ev) && Inside(s, who, child, acts) && !IsGone(s, child)
    ensures Inside(Step(cfg, s, ev), who, child, acts)
  {
    if who == START {
      if ev.Advance? {
        ProcMain(cfg, s, ev.id);
      }
    } else {
      StepMoves(cfg, s, ev);
    }
  }

  lemma StaysGone(cfg: Config, s: State, ev: Event, child: nat)
    requires Enabled(cfg, s, ev) && IsGone(s, child)
    ensures IsGone(Step(cfg, s, ev), child)
  {
    StepMoves(cfg, s, ev);
  }

  lemma {:induction false} InsideUntilGone(cfg: Config, before: seq<Event>, rest: seq<Event>, who: int, child: nat, acts: seq<Action>)
    requires IsRun(cfg, before + rest) && IsRun(cfg, before) && Inside(After(cfg, before), who, child, acts)
    ensures var s := After(cfg, before + rest); IsGone(s, child) || Inside(s, who, child, acts)
  {
    if rest == [] {
      assert before + rest == before;
    } else {
      var front, ev := rest[..|rest| - 1], rest[|rest| - 1];
      assert before + rest == (before + front) + [ev];
      LastStep(cfg, before + front, ev);
      InsideUntilGone(cfg, before, front, who, child, acts);
      if IsGone(After(cfg, before + front), child) {
        StaysGone(cfg, After(cfg, before + front), ev, child);
      } else {
        StaysInside(cfg, After(cfg, before + front), ev, who, child, acts);
      }
    }
  }

  lemma {:induction false} Beginning(cfg: Config, before: seq<Event>, rest: seq<Event>)
    requires IsRun(cfg, before + rest)
    ensures IsRun(cfg, before)
  {
    if rest == [] {
      assert before + rest == before;
    } else {
      var front := rest[..|rest| - 1];
      assert before + rest == (before + front) + [rest[|rest| - 1]];
      LastStep(cfg, before + front, rest[|rest| - 1]);
      Beginning(cfg, before, front);
    }
  }

  /** In every run: once a callback or the start function has launched a synchronized
      request, it does nothing more until that one is gone, its semaphores released, and
      then it goes on where it was. */
  lemma SynchronizedIsDoneFirst(cfg: Config, before: seq<Event>, ev: Event, rest: seq<Event>, who: int, req: Req, acts: seq<Action>)
    requires IsRun(cfg, (before + [ev]) + rest) && IsRun(cfg, before)
    requires
      var s := After(cfg, before);
      DeedOf(s, ev) == Doing(who, Spawn(req)) && GoesOn(s, who, [Spawn(req)] + acts) && req.sync && !s.shutdown
    ensures
      var s, child := After(cfg, (before + [ev]) + rest), |After(cfg, before).procs|;
      && (IsGone(s, child) || Inside(s, who, child, acts))
      && forall next :: DeedOf(s, next).Doing? && DeedOf(s, next).who == who ==> IsGone(s, child)
  {
    hide Step, Enabled;
    Beginning(cfg, before + [ev], rest);
    LastStep(cfg, before, ev);
    Launches(cfg, After(cfg, before), ev, who, req, acts);
    InsideUntilGone(cfg, before + [ev], rest, who, |After(cfg, before).procs|, acts);
  }

  /** It is the child's end, and nothing else, that lets it go on. */
  lemma GoesOnAfterChild(cfg: Config, s: State, ev: Event, who: int, child: nat, acts: seq<Action>)
    requires Enabled(cfg, s, ev) && Inside(s, who, child, acts) && !Inside(Step(cfg, s, ev), who, child, acts)
    ensures IsGone(s, child) && ev == (if who == START then Main else Advance(who)) && GoesOn(Step(cfg, s, ev), who, acts)
  {
    if !IsGone(s, child) {
      StaysInside(cfg, s, ev, who, child, acts);
    }
    if who == START {
      if ev.Advance? {
        ProcMain(cfg, s, ev.id);
      }
    } else {
      StepMoves(cfg, s, ev);
    }
  }

  /** After an interrupt nothing is launched, whatever callbacks still ask for. */
  lemma {:induction false} InterruptStopsLaunches(cfg: Config, before: seq<Event>, rest: seq<Event>)
    requires IsRun(cfg, (before + [Interrupt]) + rest) && IsRun(cfg, before)
    ensures var s := After(cfg, (before + [Interrupt]) + rest); s.shutdown && |s.procs| == |After(cfg, before).procs|
  {
    var run := before + [Interrupt];
    if rest == [] {
      assert run + rest == run;
      LastStep(cfg, before, Interrupt);
    } else {
      var front, ev := rest[..|rest| - 1], rest[|rest| - 1];
      assert run + rest == (run + front) + [ev];
      LastStep(cfg, run + front, ev);
      InterruptStopsLaunches(cfg, before, front);
      ShutdownStops(cfg, After(cfg, run + front), ev);
    }
  }
}
