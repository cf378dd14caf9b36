/** The shared state of the Geziyor object and its methods, each atomic section of them
    proved to be the engine's step for the request that executes it. */
module Scraper {
  import opened Engine

  class Geziyor {
    const cfg: Config
    var wgRequests: int
    var shutdown: bool
    var semGlobal: int
    /** The host table, and every channel ever made, with the tokens it holds. */
    var hostSems: map<string, nat>
    var channels: seq<Chan>
    var exports: seq<int>
    var closed: bool

    /** The fields are the shared part of an engine state. */
    ghost predicate Matches(s: State)
      reads this
    {
      && wgRequests == s.wg && shutdown == s.shutdown && semGlobal == s.global
      && hostSems == s.table && channels == s.chans && exports == s.buffer && closed == s.closed
    }

    constructor (cfg: Config)
      ensures this.cfg == cfg && Matches(Init(cfg))
    {
      this.cfg := cfg;
      wgRequests, shutdown, semGlobal := 0, false, 0;
      hostSems, channels, exports, closed := map[], [], [], false;
    }

    /** Do, up to the start of the goroutine. */
    method Do(req: Req, ghost s: State) returns (launched: bool)
      requires Matches(s)
      modifies this
      ensures Matches(Launch(s, req)) && launched == !old(shutdown)
      ensures launched ==> Launch(s, req).procs == s.procs + [Proc(req, Arrive)] && wgRequests == old(wgRequests) + 1
    {
      if shutdown {
        return false;
      }
      wgRequests := wgRequests + 1;
      launched := true;
    }

    /** The send on the global semaphore, when it does not block. */
    method AcquireGlobal(ghost s: State, ghost id: nat)
      requires Matches(s) && id < |s.procs| && s.procs[id].pc.Arrive? && ProcEnabled(cfg, s, s.procs[id])
      modifies this
      ensures Matches(StepProc(cfg, s, id))
    {
      if cfg.globalLimit != 0 {
        semGlobal := semGlobal + 1;
      }
    }

    /** The lookup under the read lock; what it returns decides how the request goes on. */
    method LookUpHost(host: string, ghost s: State, ghost id: nat) returns (exists_: bool, hostSem: nat)
      requires Matches(s) && id < |s.procs| && s.procs[id].pc.LookUp? && HostOf(cfg, s.procs[id]) == host && cfg.hostLimit != 0
      ensures Matches(StepProc(cfg, s, id))
      ensures StepProc(cfg, s, id).procs[id].pc == if exists_ then Want(hostSem) else Install
    {
      exists_ := host in hostSems;
      hostSem := if exists_ then hostSems[host] else 0;
    }

    /** Making a channel and storing it under the write lock, whatever is there by now. */
    method InstallHost(host: string, ghost s: State, ghost id: nat) returns (hostSem: nat)
      requires Matches(s) && id < |s.procs| && s.procs[id].pc.Install? && HostOf(cfg, s.procs[id]) == host
      modifies this
      ensures Matches(StepProc(cfg, s, id)) && StepProc(cfg, s, id).procs[id].pc == Want(hostSem)
    {
      hostSem := |channels|;
      channels := channels + [Chan(host, 0)];
      hostSems := hostSems[host := hostSem];
    }

    /** The send on the host semaphore, when it does not block. */
    method AcquireHost(hostSem: nat, ghost s: State, ghost id: nat)
      requires Matches(s) && id < |s.procs| && s.procs[id].pc == Want(hostSem) && ProcEnabled(cfg, s, s.procs[id])
      modifies this
      ensures Matches(StepProc(cfg, s, id)) && StepProc(cfg, s, id).procs[id].pc == Domain
    {
      channels := channels[hostSem := channels[hostSem].(tokens := channels[hostSem].tokens + 1)];
    }

    /** geziyor.go:277-288 with nothing in between, when the host has a free slot. */
    method AcquireHostSem(host: string, ghost s: State, ghost id: nat) returns (ghost t: State)
      requires Matches(s) && id < |s.procs| && s.procs[id].pc.LookUp? && HostOf(cfg, s.procs[id]) == host
      requires host in s.table ==> s.table[host] < |s.chans| && s.chans[s.table[host]].tokens < cfg.hostLimit
      modifies this
      ensures Matches(t) && t.procs == s.procs[id := s.procs[id].(pc := Domain)] && t.global == s.global
      ensures cfg.hostLimit != 0 ==>
        host in t.table && t.table[host] < |t.chans| && t.chans[t.table[host]].tokens == 1 + if host in s.table then s.chans[s.table[host]].tokens else 0
    {
      t := StepProc(cfg, s, id);
      if cfg.hostLimit != 0 {
        var exists_, hostSem := LookUpHost(host, s, id);
        if !exists_ {
          hostSem := InstallHost(host, t, id);
          t := StepProc(cfg, t, id);
        }
        AcquireHost(hostSem, t, id);
        t := StepProc(cfg, t, id);
      }
    }

    /** acquireSem with nothing in between, for a request that nothing makes wait. */
    method AcquireSem(host: string, ghost s: State, ghost id: nat) returns (ghost t: State)
      requires Matches(s) && id < |s.procs| && s.procs[id].pc.Arrive? && HostOf(cfg, s.procs[id]) == host
      requires cfg.globalLimit == 0 || s.global < cfg.globalLimit
      requires host in s.table ==> s.table[host] < |s.chans| && s.chans[s.table[host]].tokens < cfg.hostLimit
      modifies this
      ensures Matches(t) && t.procs == s.procs[id := s.procs[id].(pc := Domain)]
      ensures t.global == s.global + if cfg.globalLimit == 0 then 0 else 1
      ensures cfg.hostLimit != 0 ==>
        host in t.table && t.table[host] < |t.chans| && t.chans[t.table[host]].tokens == 1 + if host in s.table then s.chans[s.table[host]].tokens else 0
    {
      AcquireGlobal(s, id);
      t := AcquireHostSem(host, StepProc(cfg, s, id), id);
    }

    /** wgRequests.Done. */
    method Done(ghost s: State, ghost id: nat)
      requires Matches(s) && id < |s.procs| && s.procs[id].pc.Leave?
      modifies this
      ensures Matches(StepProc(cfg, s, id))
    {
      wgRequests := wgRequests - 1;
    }

    method ReleaseGlobal(ghost s: State, ghost id: nat)
      requires Matches(s) && id < |s.procs| && s.procs[id].pc.FreeGlobal? && ProcEnabled(cfg, s, s.procs[id])
      modifies this
      ensures Matches(StepProc(cfg, s, id))
    {
      if cfg.globalLimit != 0 {
        semGlobal := semGlobal - 1;
      }
    }

    /** The second lookup: the channel found now need not be the one acquired. */
    method CurrentHost(host: string, ghost s: State, ghost id: nat) returns (hostSem: nat)
      requires Matches(s) && id < |s.procs| && s.procs[id].pc.FreeHost? && HostOf(cfg, s.procs[id]) == host
      requires cfg.hostLimit != 0 && ProcEnabled(cfg, s, s.procs[id])
      ensures Matches(StepProc(cfg, s, id)) && StepProc(cfg, s, id).procs[id].pc == Drain(hostSem)
    {
      hostSem := hostSems[host];
    }

    method ReleaseHost(hostSem: nat, ghost s: State, ghost id: nat)
      requires Matches(s) && id < |s.procs| && s.procs[id].pc == Drain(hostSem) && ProcEnabled(cfg, s, s.procs[id])
      modifies this
      ensures Matches(StepProc(cfg, s, id)) && StepProc(cfg, s, id).procs[id].pc == Gone
    {
      channels := channels[hostSem := channels[hostSem].(tokens := channels[hostSem].tokens - 1)];
    }

    /** geziyor.go:295-300 with nothing in between. */
    method ReleaseHostSem(host: string, ghost s: State, ghost id: nat) returns (ghost t: State)
      requires Matches(s) && id < |s.procs| && s.procs[id].pc.FreeHost? && HostOf(cfg, s.procs[id]) == host
      requires cfg.hostLimit != 0 ==> host in s.table && s.table[host] < |s.chans| && s.chans[s.table[host]].tokens > 0
      modifies this
      ensures Matches(t) && t.procs == s.procs[id := s.procs[id].(pc := Gone)] && t.global == s.global && t.table == s.table
      ensures cfg.hostLimit != 0 ==>
        var c := s.table[host]; t.chans == s.chans[c := s.chans[c].(tokens := s.chans[c].tokens - 1)]
    {
      t := StepProc(cfg, s, id);
      if cfg.hostLimit != 0 {
        var hostSem := CurrentHost(host, s, id);
        ReleaseHost(hostSem, t, id);
        t := StepProc(cfg, t, id);
      }
    }

    /** releaseSem with nothing in between; it is deferred first, so it runs after Done. */
    method ReleaseSem(host: string, ghost s: State, ghost id: nat) returns (ghost t: State)
      requires Matches(s) && id < |s.procs| && s.procs[id].pc.FreeGlobal? && HostOf(cfg, s.procs[id]) == host
      requires cfg.globalLimit == 0 || s.global > 0
      requires cfg.hostLimit != 0 ==> host in s.table && s.table[host] < |s.chans| && s.chans[s.table[host]].tokens > 0
      modifies this
      ensures Matches(t) && t.procs == s.procs[id := s.procs[id].(pc := Gone)] && t.table == s.table
      ensures t.global == s.global - if cfg.globalLimit == 0 then 0 else 1
      ensures cfg.hostLimit != 0 ==>
        var c := s.table[host]; t.chans == s.chans[c := s.chans[c].(tokens := s.chans[c].tokens - 1)]
    {
      ReleaseGlobal(s, id);
      t := ReleaseHostSem(host, StepProc(cfg, s, id), id);
    }

    /** A send on Exports by a callback, when it does not block. */
    method Export(item: int, ghost s: State, ghost id: nat)
      requires Matches(s) && id < |s.procs| && s.procs[id].pc.Run? && s.procs[id].pc.acts != [] && s.procs[id].pc.acts[0] == Emit(item)
      requires ProcEnabled(cfg, s, s.procs[id])
      modifies this
      ensures Matches(StepProc(cfg, s, id)) && exports == old(exports) + [item]
    {
      exports := exports + [item];
    }

    /** Start, after wgRequests.Wait. */
    method CloseExports(ghost s: State)
      requires Matches(s) && s.main.Passed?
      modifies this
      ensures Matches(StepMain(s))
    {
      closed := true;
    }

    /** interruptSignalWaiter on SIGINT. */
    method Interrupt(ghost s: State)
      requires Matches(s)
      modifies this
      ensures Matches(s.(shutdown := true))
    {
      shutdown := true;
    }
  }
}
