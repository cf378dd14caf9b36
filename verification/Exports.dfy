/** The exporter fan-out of geziyor.go: one stream, copied to every exporter in order. */
module Exports {
  import opened Engine
  import opened Lifecycle

  function Front(items: seq<int>): seq<int> {
    if items == [] then [] else items[..|items| - 1]
  }

  /** The items the relay has taken out of the export channel. */
  function Taken(s: State): seq<int> {
    if |s.buffer| <= |s.stream| then s.stream[..|s.stream| - |s.buffer|] else []
  }

  /** How many exporters have been sent the last item taken. */
  function Served(s: State): nat {
    match s.relay case Sending(_, j) => j case _ => |s.received|
  }

  predicate FanOk(cfg: Config, s: State) {
    && |s.received| == |s.finished| == cfg.exporters
    && |s.buffer| <= 1 && s.stream == Taken(s) + s.buffer
    && Served(s) <= |s.received|
    && (forall j :: 0 <= j < |s.received| ==> s.received[j] == if j < Served(s) then Taken(s) else Front(Taken(s)))
    && (s.relay.Sending? ==> Taken(s) != [] && s.relay.item == Taken(s)[|Taken(s)| - 1])
    && (s.relay.Ended? ==> s.closed && s.buffer == [])
    && (cfg.drains ==> forall j :: 0 <= j < |s.finished| && s.finished[j] ==> s.relay.Ended?)
  }

  /** The exporter side as other steps see it: at most one item is added to the channel. */
  predicate AtMostSends(s: State, s': State) {
    && s'.relay == s.relay && s'.received == s.received && s'.finished == s.finished
    && (s.closed ==> s'.closed)
    && ((s'.stream == s.stream && s'.buffer == s.buffer) ||
        (s.buffer == [] && |s'.buffer| == 1 && s'.stream == s.stream + s'.buffer))
  }

  lemma ActionSends(s: State, id: nat, acts: seq<Action>)
    requires id < |s.procs| && acts != [] && (acts[0].Emit? ==> CanSend(s))
    ensures AtMostSends(s, StepAction(s, id, acts))
  {
    if acts[0].Emit? {
      assert s.buffer == [];
      assert [] + [acts[0].item] == [acts[0].item];
    }
  }

  lemma ProcSends(cfg: Config, s: State, id: nat)
    requires id < |s.procs| && ProcEnabled(cfg, s, s.procs[id])
    ensures AtMostSends(s, StepProc(cfg, s, id))
  {
    if s.procs[id].pc.Run? && s.procs[id].pc.acts != [] {
      ActionSends(s, id, s.procs[id].pc.acts);
    }
  }

  lemma MainSends(s: State)
    requires MainEnabled(s)
    ensures AtMostSends(s, StepMain(s))
  {
    if s.main.Starting? && s.main.acts != [] && s.main.acts[0].Emit? {
      assert [] + [s.main.acts[0].item] == [s.main.acts[0].item];
    }
  }

  lemma StepSends(cfg: Config, s: State, ev: Event)
    requires Enabled(cfg, s, ev) && !ev.Copy? && !ev.Export?
    ensures AtMostSends(s, Step(cfg, s, ev))
  {
    match ev
    case Main => MainSends(s);
    case Advance(id) => ProcSends(cfg, s, id);
    case _ =>
  }

  lemma SendsKeepFan(cfg: Config, s: State, s': State)
    requires FanOk(cfg, s) && AtMostSends(s, s') && (s.closed ==> s'.stream == s.stream)
    ensures FanOk(cfg, s')
  {
    if s'.stream != s.stream {
      assert Taken(s') == s'.stream[..|s.stream|] == s.stream == Taken(s) + [];
    }
  }

  /** The relay takes the item out of the channel. */
  lemma TakeKeepsFan(cfg: Config, s: State)
    requires FanOk(cfg, s) && s.relay.Idle? && s.buffer != []
    ensures FanOk(cfg, StepCopy(s))
  {
    var s' := StepCopy(s);
    assert Taken(s') == s.stream == Taken(s) + s.buffer;
    assert Front(Taken(s')) == Taken(s);
  }

  /** It sends the item to the next exporter. */
  lemma PassKeepsFan(cfg: Config, s: State)
    requires FanOk(cfg, s) && s.relay.Sending? && CopyEnabled(s)
    ensures FanOk(cfg, StepCopy(s))
  {
    assert Taken(StepCopy(s)) == Taken(s);
    if s.relay.next < |s.received| {
      assert Front(Taken(s)) + [s.relay.item] == Taken(s);
    }
  }

  lemma CopyKeepsFan(cfg: Config, s: State)
    requires FanOk(cfg, s) && CopyEnabled(s)
    ensures FanOk(cfg, StepCopy(s))
  {
    if s.relay.Sending? {
      PassKeepsFan(cfg, s);
    } else if s.buffer != [] {
      TakeKeepsFan(cfg, s);
    }
  }

  lemma ExportKeepsFan(cfg: Config, s: State, j: nat)
    requires FanOk(cfg, s) && j < |s.finished| && (s.relay.Ended? || !cfg.drains)
    ensures FanOk(cfg, s.(finished := s.finished[j := true]))
  {
    assert Taken(s.(finished := s.finished[j := true])) == Taken(s);
  }

  lemma FanStep(cfg: Config, s: State, ev: Event)
    requires Lifecycle.Inv(cfg, s) && FanOk(cfg, s) && Enabled(cfg, s, ev)
    ensures FanOk(cfg, Step(cfg, s, ev))
  {
    match ev
    case Copy => CopyKeepsFan(cfg, s);
    case Export(j) => ExportKeepsFan(cfg, s, j);
    case _ =>
      StepSends(cfg, s, ev);
      QuietStep(cfg, s, ev);
      SendsKeepFan(cfg, s, Step(cfg, s, ev));
  }

  lemma {:induction false} AlwaysFan(cfg: Config, run: seq<Event>)
    requires IsRun(cfg, run)
    ensures FanOk(cfg, After(cfg, run))
  {
    if run != [] {
      var before := run[..|run| - 1];
      AlwaysFan(cfg, before);
      AlwaysInv(cfg, before);
      FanStep(cfg, After(cfg, before), run[|run| - 1]);
    }
  }

  /** At every step the sequences the exporters have received are prefixes of the one
      stream of exported items, no longer for a later exporter than for an earlier one,
      and they differ by at most one item. */
  lemma FanOut(cfg: Config, run: seq<Event>, i: nat, j: nat)
    requires IsRun(cfg, run) && i <= j < cfg.exporters
    ensures var s := After(cfg, run);
      |s.received| == cfg.exporters && s.received[j] <= s.received[i] <= s.stream && |s.received[i]| <= |s.received[j]| + 1
  {
    AlwaysFan(cfg, run);
  }

  lemma DoneMeansComplete(cfg: Config, s: State)
    requires FanOk(cfg, s) && ExportersDone(s) && cfg.drains
    ensures s.relay.Ended? && s.buffer == [] && forall j :: 0 <= j < cfg.exporters ==> s.received[j] == s.stream
  {
    if cfg.exporters > 0 {
      assert s.finished[0];
    }
    assert Taken(s) == s.stream;
  }

  /** When Start has returned and the exporters drain, each of them has received exactly
      the full stream, in order; nothing is left in the channel, even with no exporter. */
  lemma CompleteOnReturn(cfg: Config, run: seq<Event>)
    requires IsRun(cfg, run) && After(cfg, run).main.Returned? && cfg.drains
    ensures var s := After(cfg, run);
      s.buffer == [] && s.relay.Ended? && |s.received| == cfg.exporters &&
      forall j :: 0 <= j < cfg.exporters ==> s.received[j] == s.stream
  {
    AlwaysFan(cfg, run);
    AlwaysDone(cfg, run);
    DoneMeansComplete(cfg, After(cfg, run));
  }

  /** Start returns only after the exporters are done. */
  lemma {:induction false} AlwaysDone(cfg: Config, run: seq<Event>)
    requires IsRun(cfg, run)
    ensures After(cfg, run).main.Returned? ==> ExportersDone(After(cfg, run))
  {
    if run != [] {
      var before, ev := run[..|run| - 1], run[|run| - 1];
      AlwaysDone(cfg, before);
      var s := After(cfg, before);
      if !ev.Copy? && !ev.Export? {
        StepSends(cfg, s, ev);
      }
      if s.main.Returned? || ev.Main? {
        DoneStep(cfg, s, ev);
      } else {
        OnlyMainReturns(cfg, s, ev);
      }
    }
  }

  lemma DoneStep(cfg: Config, s: State, ev: Event)
    requires Enabled(cfg, s, ev) && (s.main.Returned? ==> ExportersDone(s)) && (s.main.Returned? || ev.Main?)
    requires !ev.Copy? && !ev.Export? ==> AtMostSends(s, Step(cfg, s, ev))
    ensures Step(cfg, s, ev).main.Returned? ==> ExportersDone(Step(cfg, s, ev))
  {
  }

  lemma OnlyMainReturns(cfg: Config, s: State, ev: Event)
    requires Enabled(cfg, s, ev) && !ev.Main? && !s.main.Returned?
    ensures !Step(cfg, s, ev).main.Returned?
  {
    if ev.Advance? && s.procs[ev.id].pc.Run? && s.procs[ev.id].pc.acts != [] {
      QuietAction(s, ev.id, s.procs[ev.id].pc.acts);
    }
  }
}
