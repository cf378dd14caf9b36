/** middleware/duplicate_requests.go: the atomic visited-URL test. */
module Middleware {
  import opened Engine

  class Request {
    const method_: string
    const url: string
    var cancelled: bool

    constructor (method_: string, url: string)
      ensures this.method_ == method_ && this.url == url && !cancelled
    {
      this.method_ := method_;
      this.url := url;
      this.cancelled := false;
    }

    method Cancel()
      modifies this
      ensures cancelled
    {
      cancelled := true;
    }
  }

  class DuplicateRequests {
    const revisitEnabled: bool
    var visitedURLs: set<string>
    var logOnlyOnce: set<string>

    constructor (revisitEnabled: bool)
      ensures this.revisitEnabled == revisitEnabled && visitedURLs == {} && logOnlyOnce == {}
    {
      this.revisitEnabled := revisitEnabled;
      this.visitedURLs := {};
      this.logOnlyOnce := {};
    }

    predicate Applies(r: Request) {
      !revisitEnabled && r.method_ == "GET"
    }

    /** A URL is let through once, and its repetition is logged once. */
    method ProcessRequest(r: Request) returns (logged: bool)
      requires !r.cancelled
      modifies this, r
      ensures visitedURLs == old(visitedURLs) + if Applies(r) then {r.url} else {}
      ensures r.cancelled <==> Applies(r) && r.url in old(visitedURLs)
      ensures logged <==> r.cancelled && r.url !in old(logOnlyOnce)
      ensures logOnlyOnce == old(logOnlyOnce) + if r.cancelled then {r.url} else {}
    {
      logged := false;
      if !revisitEnabled && r.method_ == "GET" {
        // LoadOrStore: one atomic step.
        var visited := r.url in visitedURLs;
        visitedURLs := visitedURLs + {r.url};
        if visited {
          logged := r.url !in logOnlyOnce;
          logOnlyOnce := logOnlyOnce + {r.url};
          r.Cancel();
        }
      }
    }
  }

  /** The engine's visit step is this middleware: it cancels exactly the GET of a URL in
      the visited set, which grows by that URL. */
  lemma VisitIsProcessRequest(cfg: Config, s: State, id: nat, req: Req)
    requires id < |s.procs|
    ensures var s' := StepVisit(cfg, s, id, req); var applies := !cfg.revisit && req.get;
      && s'.visited == s.visited + (if applies then {req.url} else {})
      && (s'.procs[id].pc == Leave <==> applies && req.url in s.visited)
  {
    if req.url in s.visited {
      assert s.visited + {req.url} == s.visited;
    }
  }
}
