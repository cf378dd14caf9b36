/** Freshness in the numbers of the headers: what a directive of so many seconds comes to. */
module FreshnessInSeconds {
  import opened Options
  import opened Text
  import opened Headers
  import opened CacheControl
  import opened Freshness
  import opened Messages
  import opened RoundTrip
  import opened CacheRuns
  import opened CacheOrigin

  const SECOND: int := 1_000_000_000

  const DIGITS := "0123456789"

  function Decimal(n: nat): (digits: string)
    ensures digits != "" && forall c :: c in digits ==> c in DIGITS
  {
    (if n < 10 then "" else Decimal(n / 10)) + [DIGITS[n % 10]]
  }

  /** time.ParseDuration on the decimal text of a number followed by s: so many seconds, or
      an error if they do not fit in a Duration. What it says of any other text, another
      unit included, is left open. */
  ghost predicate ReadsSeconds(lib: Library) {
    forall n: nat :: lib.duration(Decimal(n) + "s") == if n * SECOND <= MAX then Some(n * SECOND) else None
  }

  /** The directive has this number of seconds, or is absent. */
  predicate Gives(cc: Directives, name: string, seconds: Option<nat>) {
    match seconds
    case None => name !in cc
    case Some(n) => name in cc && cc[name] == Decimal(n)
  }

  /** In nanoseconds; a number too large for the clock counts as none at all. */
  function Nanos(seconds: Option<nat>): Duration {
    match seconds
    case None => 0
    case Some(n) => if n * SECOND <= MAX then n * SECOND else 0
  }

  predicate Dated(lib: Library, h: Header, date: int) {
    Get(h, "date") != "" && lib.date(Get(h, "date")) == Some(date)
  }

  /** Neither side asks for something other than a comparison of ages. */
  predicate Compares(resp: Directives, req: Directives) {
    "no-cache" !in resp && "no-cache" !in req && "only-if-cached" !in req
  }

  lemma ReadsNanos(lib: Library, cc: Directives, name: string, seconds: Option<nat>)
    requires ReadsSeconds(lib) && Gives(cc, name, seconds)
    ensures Allowance(lib, cc, name) == Nanos(seconds)
    ensures seconds.Some? ==> cc[name] != ""
  {
  }

  /** The request's max-age, else the response's, against the age plus min-fresh less
      max-stale, all in the numbers of the headers (RFC 2616 sections 13.2.4 and 14.9.3). */
  lemma FreshInNumbers(lib: Library, resp: Header, req: Header, now: int, date: int,
      respAge: Option<nat>, reqAge: Option<nat>, minFresh: Option<nat>, maxStale: Option<nat>)
    requires ReadsSeconds(lib) && Dated(lib, resp, date) && Compares(Parse(resp), Parse(req))
    requires Gives(Parse(resp), "max-age", respAge) && Gives(Parse(req), "max-age", reqAge)
    requires Gives(Parse(req), "min-fresh", minFresh) && Gives(Parse(req), "max-stale", maxStale)
    requires reqAge.Some? || respAge.Some?
    ensures
      var lifetime := Nanos(if reqAge.Some? then reqAge else respAge);
      && GetFreshness(lib, resp, req, now) == Verdict(lifetime, Between(now, date), Nanos(minFresh), Nanos(maxStale))
      && (InRange(now - date) && InRange(now - date + Nanos(minFresh) - Nanos(maxStale)) ==>
            (GetFreshness(lib, resp, req, now) == Fresh <==> lifetime > now - date + Nanos(minFresh) - Nanos(maxStale)))
  {
    hide Parse, Get;
    ReadsNanos(lib, Parse(req), "min-fresh", minFresh);
    ReadsNanos(lib, Parse(req), "max-stale", maxStale);
    ReadsNanos(lib, Parse(req), "max-age", reqAge);
    ReadsNanos(lib, Parse(resp), "max-age", respAge);
  }

  /** Without a max-age on either side: the instant of Expires, or the one of Date if that
      does not parse or is missing. */
  lemma FreshUntilExpires(lib: Library, resp: Header, req: Header, now: int, date: int, minFresh: Option<nat>, maxStale: Option<nat>)
    requires ReadsSeconds(lib) && Dated(lib, resp, date) && Compares(Parse(resp), Parse(req))
    requires "max-age" !in Parse(resp) && "max-age" !in Parse(req)
    requires Gives(Parse(req), "min-fresh", minFresh) && Gives(Parse(req), "max-stale", maxStale)
    requires InRange(now - date) && InRange(now - date + Nanos(minFresh) - Nanos(maxStale))
    ensures
      var expires := if Get(resp, "Expires") == "" then None else lib.date(Get(resp, "Expires"));
      var until := if expires.None? then date else expires.value;
      InRange(until - date) ==> (GetFreshness(lib, resp, req, now) == Fresh <==> now + Nanos(minFresh) - Nanos(maxStale) < until)
  {
    hide Parse, Get;
    ReadsNanos(lib, Parse(req), "min-fresh", minFresh);
    ReadsNanos(lib, Parse(req), "max-stale", maxStale);
  }

  /** A Cache-Control with one directive and its value. */
  lemma ParsesOne(h: Header, name: string, value: string)
    requires Get(h, "Cache-Control") == name + "=" + value
    requires name != "" && Trimmed(name, SPACE) && ',' !in name && '=' !in name
    requires ',' !in value && '=' !in value && ' ' !in value
    ensures Parse(h) == map[name := value]
  {
    hide Parse, Get;
    var it := Directive("", name, "", value, true, "");
    assert Print(it) == name + "=" + value;
    assert PrintAll([it]) == [Print(it)];
    assert [it][..0] == [];
    assert Meaning([it]) == map[name := value];
    ParsePrint(h, [it]);
  }

  lemma DecimalIsPlain(n: nat)
    ensures ',' !in Decimal(n) && '=' !in Decimal(n) && ' ' !in Decimal(n)
  {
    hide Decimal;
  }

  /** From the text of the headers to the verdict: max-age=n is fresh for n seconds after
      its Date, however far back or ahead that is, and for none if n is too large. */
  lemma FreshForSeconds(lib: Library, resp: Header, req: Header, now: int, date: int, n: nat)
    requires ReadsSeconds(lib) && Dated(lib, resp, date)
    requires Get(resp, "Cache-Control") == "max-age=" + Decimal(n) && Get(req, "Cache-Control") == ""
    ensures GetFreshness(lib, resp, req, now) == Fresh <==> now - date < if n * SECOND <= MAX then n * SECOND else 0
  {
    hide Parse, Get;
    DecimalIsPlain(n);
    ParsesOne(resp, "max-age", Decimal(n));
    ParseNothing(req);
    FreshInNumbers(lib, resp, req, now, date, Some(n), None, None, None);
  }

  /** So a GET without directives is answered from the store for that long. */
  lemma AnswersForSeconds(lib: Library, e: Response, req: Request, now: int, date: int, n: nat)
    requires ReadsSeconds(lib) && Dated(lib, e.header, date) && VaryMatches(e.header, req.header)
    requires Get(e.header, "Cache-Control") == "max-age=" + Decimal(n) && Get(req.header, "Cache-Control") == ""
    ensures PlanFor(lib, req, Some(e), now) == Answer(e) <==> now - date < if n * SECOND <= MAX then n * SECOND else 0
  {
    hide Parse, Get, Dated, ReadsSeconds, VaryMatches;
    FreshForSeconds(lib, e.header, req.header, now, date, n);
    assert GetFreshness(lib, e.header, req.header, now) != Fresh ==> !Use(e, req, GetFreshness(lib, e.header, req.header, now)).Answer?;
  }

  /** stale-if-error: a response younger than the request's number of seconds, else than its
      own; never if either is too large, or nobody gives one. */
  lemma FallbackInNumbers(lib: Library, resp: Header, req: Header, now: int, respLimit: Option<nat>, reqLimit: Option<nat>)
    requires ReadsSeconds(lib)
    requires Gives(Parse(resp), "stale-if-error", respLimit) && Gives(Parse(req), "stale-if-error", reqLimit)
    ensures
      var limit := if reqLimit.Some? then reqLimit else respLimit;
      CanStaleOnError(lib, resp, req, now) <==>
        && limit.Some?
        && (respLimit.Some? ==> respLimit.value * SECOND <= MAX) && (reqLimit.Some? ==> reqLimit.value * SECOND <= MAX)
        && exists date :: Dated(lib, resp, date) && now - date < limit.value * SECOND
  {
    hide Parse, Get;
    FallbackIffUnderLimit(lib, FactsOf(lib, resp, req), now);
    if DateOf(lib, resp).Some? {
      assert Dated(lib, resp, DateOf(lib, resp).value);
    }
    LimitInNumbers(lib, Parse(resp), respLimit);
    LimitInNumbers(lib, Parse(req), reqLimit);
  }

  lemma LimitInNumbers(lib: Library, cc: Directives, limit: Option<nat>)
    requires ReadsSeconds(lib) && Gives(cc, STALE_IF_ERROR, limit)
    ensures LimitOf(lib, cc) ==
      if limit.Some? && limit.value * SECOND <= MAX then Under(limit.value * SECOND) else Never
  {
  }

  /** Without a value: at any age and without a date. The response's word is final; the
      request's counts if the response says nothing or a number that fits. */
  lemma FallbackAtAnyAge(lib: Library, resp: Header, req: Header, now: int, respLimit: Option<nat>)
    requires ReadsSeconds(lib)
    requires
      var said, asked := Parse(resp), Parse(req);
      if "stale-if-error" in said && said["stale-if-error"] == "" then true
      else "stale-if-error" in asked && asked["stale-if-error"] == "" && Gives(said, "stale-if-error", respLimit)
    ensures CanStaleOnError(lib, resp, req, now) <==>
      ("stale-if-error" in Parse(resp) && Parse(resp)["stale-if-error"] == "") || respLimit.None? || respLimit.value * SECOND <= MAX
  {
    hide Parse, Get;
    FallbackIffUnderLimit(lib, FactsOf(lib, resp, req), now);
    if Gives(Parse(resp), "stale-if-error", respLimit) {
      LimitInNumbers(lib, Parse(resp), respLimit);
    }
  }

  /** The bound of BoundedStaleness in the numbers of the headers: in every polite run, what
      answers from the store is what the origin had less than so many seconds ago. */
  lemma BoundedStalenessInSeconds(o: Origin, w: World, run: seq<Event>, out: Outcome,
      respAge: Option<nat>, reqAge: Option<nat>, minFresh: Option<nat>, maxStale: Option<nat>) returns (g: int)
    requires WellBehaved(o) && IsRun(w, run) && IsPoliteRun(o, w, run) && ReadsSeconds(w.lib)
    requires out in After(w, run).outcomes && out.Hit? && CacheableGet(out.req)
    requires
      var asked := Parse(out.req.header);
      && "only-if-cached" !in asked && Gives(asked, "max-age", reqAge) && Gives(asked, "min-fresh", minFresh) && Gives(asked, "max-stale", maxStale)
    requires Gives(Parse(out.entry.header), "max-age", respAge) && (reqAge.Some? || respAge.Some?)
    requires Fits(w.lib, FactsOf(w.lib, out.entry.header, out.req.header), out.now)
    ensures g <= out.now && Shows(o.content(out.req.url, out.req.header, g), out.entry)
    ensures out.now - g < Nanos(if reqAge.Some? then reqAge else respAge) + Nanos(maxStale) - Nanos(minFresh)
  {
    hide Parse, Get, WellBehaved, IsRun, IsPoliteRun, After, CacheableGet, Fits, Shows;
    ReadsNanos(w.lib, Parse(out.req.header), "min-fresh", minFresh);
    ReadsNanos(w.lib, Parse(out.req.header), "max-stale", maxStale);
    ReadsNanos(w.lib, Parse(out.req.header), "max-age", reqAge);
    ReadsNanos(w.lib, Parse(out.entry.header), "max-age", respAge);
    g := BoundedStaleness(o, w, run, out);
  }

  // ----- such a library exists -----

  /** The number that a text of digits stands for. */
  function Value(digits: string): nat {
    if digits == "" then 0 else 10 * Value(digits[..|digits| - 1]) + DigitValue(digits[|digits| - 1])
  }

  function DigitValue(c: char): nat {
    if '0' <= c <= '9' then c as int - '0' as int else 0
  }

  lemma {:induction false} ValueOfDecimal(n: nat)
    ensures Value(Decimal(n)) == n
  {
    var front := if n < 10 then "" else Decimal(n / 10);
    assert Decimal(n)[..|front|] == front;
    if n >= 10 {
      ValueOfDecimal(n / 10);
    }
    DigitIsItsValue(n % 10);
  }

  lemma DigitIsItsValue(k: nat)
    requires k < 10
    ensures DigitValue(DIGITS[k]) == k
  {
  }

  lemma SomeLibraryReadsSeconds()
    ensures exists lib: Library :: ReadsSeconds(lib)
  {
    var read := (text: string) =>
      if text == "" then None
      else
        var d := Value(text[..|text| - 1]) * SECOND;
        if d <= MAX then Some(d) else None;
    var lib := Library(read, _ => None);
    forall n: nat ensures lib.duration(Decimal(n) + "s") == if n * SECOND <= MAX then Some(n * SECOND) else None {
      var text := Decimal(n) + "s";
      assert text[..|text| - 1] == Decimal(n);
      ValueOfDecimal(n);
    }
    assert ReadsSeconds(lib);
  }
}
