/** Freshness of a stored response on int64 nanoseconds (getFreshness and
    canStaleOnError of cache/cache.go). */
module Freshness {
  import opened Options
  import opened Headers
  import opened CacheControl

  const MAX: int := 0x7FFF_FFFF_FFFF_FFFF
  const MIN: int := -0x8000_0000_0000_0000

  /** time.Duration. */
  type Duration = d: int | MIN <= d <= MAX

  /** The two library parsers: time.ParseDuration, which rejects what does not fit
      in a Duration, and time.Parse for RFC 1123 dates (an instant in nanoseconds). */
  datatype Library = Library(duration: string -> Option<Duration>, date: string -> Option<int>)

  datatype Freshness = Stale | Fresh | Transparent

  const TWO_64: int := 0x1_0000_0000_0000_0000

  /** Two's complement wrap-around of the sum or difference of two int64 values. */
  function Wrap(x: int): Duration
    requires 2 * MIN <= x <= MAX - MIN
  {
    if x > MAX then x - TWO_64 else if x < MIN then x + TWO_64 else x
  }

  /** time.Time.Sub saturates. */
  function Between(later: int, earlier: int): Duration {
    var d := later - earlier;
    if d > MAX then MAX else if d < MIN then MIN else d
  }

  function DateOf(lib: Library, h: Header): Option<int> {
    var text := Get(h, "date");
    if text == "" then None else lib.date(text)
  }

  function Seconds(lib: Library, text: string): Option<Duration> {
    lib.duration(text + "s")
  }

  /** A max-age that does not parse counts as zero. */
  function SecondsOrZero(lib: Library, text: string): Duration {
    match Seconds(lib, text) case Some(d) => d case None => 0
  }

  /** What the verdict is taken from: the two parsed Cache-Control headers, the response's
      date if it has one that parses, and its Expires text. */
  datatype Facts = Facts(resp: Directives, req: Directives, date: Option<int>, expires: string)

  function FactsOf(lib: Library, resp: Header, req: Header): Facts {
    Facts(Parse(resp), Parse(req), DateOf(lib, resp), Get(resp, "Expires"))
  }

  /** A max-age of the request replaces the lifetime of the response, even a smaller one;
      a max-age of the response replaces Expires. */
  function Lifetime(lib: Library, f: Facts, date: int): Duration {
    if "max-age" in f.req then SecondsOrZero(lib, f.req["max-age"])
    else if "max-age" in f.resp then SecondsOrZero(lib, f.resp["max-age"])
    else if f.expires == "" then 0
    else match lib.date(f.expires) case None => 0 case Some(t) => Between(t, date)
  }

  /** max-age overrides Expires, and the request's max-age overrides both, even where what
      is overridden is more restrictive. */
  lemma LifetimePrecedence(lib: Library, f: Facts, resp: Directives, expires: string, date: int)
    ensures "max-age" in f.resp ==> Lifetime(lib, f.(expires := expires), date) == Lifetime(lib, f, date)
    ensures "max-age" in f.req ==> Lifetime(lib, f.(resp := resp, expires := expires), date) == Lifetime(lib, f, date)
    ensures "max-age" in f.resp && "max-age" !in f.req ==> Lifetime(lib, f, date) == Lifetime(lib, f.(req := f.resp), date)
  {
  }

  /** The value of a duration directive of the request, zero if absent or unparsable. */
  function Allowance(lib: Library, req: Directives, name: string): Duration {
    if name in req then SecondsOrZero(lib, req[name]) else 0
  }

  function Verdict(lifetime: Duration, age: Duration, minFresh: Duration, maxStale: Duration): Freshness {
    if lifetime > Wrap(Wrap(age + minFresh) - maxStale) then Fresh else Stale
  }

  function Judge(lib: Library, f: Facts, now: int): Freshness {
    if "no-cache" in f.req then Transparent
    else if "no-cache" in f.resp then Stale
    else if "only-if-cached" in f.req then Fresh
    else match f.date
      case None => Stale
      case Some(date) =>
        if "max-stale" in f.req && f.req["max-stale"] == "" then Fresh
        else Verdict(Lifetime(lib, f, date), Between(now, date), Allowance(lib, f.req, "min-fresh"), Allowance(lib, f.req, "max-stale"))
  }

  function GetFreshness(lib: Library, resp: Header, req: Header, now: int): Freshness {
    Judge(lib, FactsOf(lib, resp, req), now)
  }

  /** cache/cache.go:357-385, reassigning the lifetime. */
  method ComputeLifetime(lib: Library, f: Facts, date: int) returns (lifetime: Duration)
    ensures lifetime == Lifetime(lib, f, date)
  {
    lifetime := 0;
    if "max-age" in f.resp {
      lifetime := SecondsOrZero(lib, f.resp["max-age"]);
    } else if f.expires != "" {
      var expires := lib.date(f.expires);
      lifetime := if expires.None? then 0 else Between(expires.value, date);
    }
    if "max-age" in f.req {
      lifetime := SecondsOrZero(lib, f.req["max-age"]);
    }
  }

  /** The rest of getFreshness after parsing, reassigning the current age. */
  method Decide(lib: Library, f: Facts, now: int) returns (freshness: Freshness)
    ensures freshness == Judge(lib, f, now)
  {
    if "no-cache" in f.req { return Transparent; }
    if "no-cache" in f.resp { return Stale; }
    if "only-if-cached" in f.req { return Fresh; }
    if f.date.None? { return Stale; }
    var currentAge := Between(now, f.date.value);
    var lifetime := ComputeLifetime(lib, f, f.date.value);
    if "min-fresh" in f.req {
      var minFresh := Seconds(lib, f.req["min-fresh"]);
      if minFresh.Some? {
        currentAge := Wrap(currentAge as int + minFresh.value);
      }
    }
    if "max-stale" in f.req {
      if f.req["max-stale"] == "" { return Fresh; }
      var maxStale := Seconds(lib, f.req["max-stale"]);
      if maxStale.Some? {
        currentAge := Wrap(currentAge as int - maxStale.value);
      }
    }
    return if lifetime > currentAge then Fresh else Stale;
  }

  method ComputeFreshness(lib: Library, respHeaders: Header, reqHeaders: Header, now: int) returns (freshness: Freshness)
    ensures freshness == GetFreshness(lib, respHeaders, reqHeaders, now)
  {
    var respCacheControl := ParseCacheControl(respHeaders);
    var reqCacheControl := ParseCacheControl(reqHeaders);
    freshness := Decide(lib, Facts(respCacheControl, reqCacheControl, DateOf(lib, respHeaders), Get(respHeaders, "Expires")), now);
  }

  // ----- the unbounded rule -----

  predicate InRange(x: int) {
    MIN <= x <= MAX
  }

  lemma WrapSum(age: Duration, minFresh: Duration, maxStale: Duration)
    ensures var t := age + minFresh - maxStale;
      Wrap(Wrap(age + minFresh) - maxStale) == if t > MAX then t - TWO_64 else if t < MIN then t + TWO_64 else t
  {
  }

  /** Only the final sum matters: the wrapping verdict is the unbounded rule exactly when
      that sum fits, or wraps to the same side of the lifetime. */
  lemma VerdictIsUnboundedRule(lifetime: Duration, age: Duration, minFresh: Duration, maxStale: Duration)
    ensures var t := age + minFresh - maxStale;
      (Verdict(lifetime, age, minFresh, maxStale) == Fresh <==> lifetime > t) <==>
        (InRange(t) || (t > MAX && t - lifetime >= TWO_64) || (t < MIN && lifetime - t > TWO_64))
  {
    WrapSum(age, minFresh, maxStale);
  }

  /** The freshness question is decided by comparing a lifetime with an age. */
  predicate Arithmetic(f: Facts) {
    && "no-cache" !in f.req && "no-cache" !in f.resp && "only-if-cached" !in f.req
    && f.date.Some?
    && ("max-stale" in f.req ==> f.req["max-stale"] != "")
  }

  /** age + min-fresh - max-stale in unbounded integers. */
  function Excess(lib: Library, f: Facts, now: int): int
    requires f.date.Some?
  {
    now - f.date.value + Allowance(lib, f.req, "min-fresh") - Allowance(lib, f.req, "max-stale")
  }

  predicate Fits(lib: Library, f: Facts, now: int) {
    f.date.Some? ==> InRange(now - f.date.value) && InRange(Excess(lib, f, now))
  }

  /** RFC 2616 sections 13.2.4 and 14.9.3, when neither the age nor the sum overflows. */
  lemma FreshIffLifetimeExceeds(lib: Library, f: Facts, now: int)
    requires Arithmetic(f) && Fits(lib, f, now)
    ensures Judge(lib, f, now) == Fresh <==> Lifetime(lib, f, f.date.value) > Excess(lib, f, now)
  {
    VerdictIsUnboundedRule(Lifetime(lib, f, f.date.value), now - f.date.value,
      Allowance(lib, f.req, "min-fresh"), Allowance(lib, f.req, "max-stale"));
  }

  /** The verdict against unbounded arithmetic on the age of the Date itself, however far
      back or ahead that is: they agree exactly when the final sum fits and the lifetime does
      not lie between it and what saturating the age cut off, or the sum wraps to the same
      side of the lifetime. */
  lemma JudgeIsUnboundedRule(lib: Library, f: Facts, now: int)
    requires Arithmetic(f)
    ensures var lifetime, excess := Lifetime(lib, f, f.date.value), Excess(lib, f, now);
      var t := Between(now, f.date.value) + Allowance(lib, f.req, "min-fresh") - Allowance(lib, f.req, "max-stale");
      (Judge(lib, f, now) == Fresh <==> lifetime > excess) <==>
        if t > MAX then t - lifetime >= TWO_64
        else if t < MIN then lifetime - t > TWO_64
        else !(t < lifetime <= excess) && !(excess < lifetime <= t)
  {
    VerdictIsUnboundedRule(Lifetime(lib, f, f.date.value), Between(now, f.date.value),
      Allowance(lib, f.req, "min-fresh"), Allowance(lib, f.req, "max-stale"));
  }

  /** A Date that the age saturates at: with max-age=9223372036 and max-stale=1 a response
      is fresh for ever, however old. */
  lemma AncientIsFresh(lib: Library, f: Facts, now: int)
    requires Arithmetic(f) && now - f.date.value > MAX && Lifetime(lib, f, f.date.value) == 9223372036 * 1_000_000_000
    requires Allowance(lib, f.req, "min-fresh") == 0 && Allowance(lib, f.req, "max-stale") == 1_000_000_000
    ensures Judge(lib, f, now) == Fresh
    ensures now - f.date.value >= MAX + 1_000_000_000 ==> Lifetime(lib, f, f.date.value) <= Excess(lib, f, now)
  {
  }

  /** While the sum fits, a stale response never becomes fresh again. */
  lemma StaleStaysStale(lib: Library, f: Facts, now: int, later: int)
    requires Arithmetic(f) && now <= later
    requires Fits(lib, f, now) && Fits(lib, f, later)
    ensures Judge(lib, f, later) == Fresh ==> Judge(lib, f, now) == Fresh
  {
    FreshIffLifetimeExceeds(lib, f, now);
    FreshIffLifetimeExceeds(lib, f, later);
  }

  /** An overflow within reach: a one second old response with no lifetime is fresh for
      a request that asks for 9223372036 more seconds of freshness. */
  lemma OverflowWitness(lib: Library, f: Facts, now: int)
    requires Arithmetic(f) && f.date == Some(now - 1_000_000_000) && Lifetime(lib, f, f.date.value) == 0
    requires Allowance(lib, f.req, "min-fresh") == 9223372036 * 1_000_000_000
    requires Allowance(lib, f.req, "max-stale") == 0
    ensures Judge(lib, f, now) == Fresh && Excess(lib, f, now) > 0
  {
    VerdictIsUnboundedRule(0, 1_000_000_000, 9223372036 * 1_000_000_000, 0);
  }

  // ----- stale-if-error (RFC 5861 section 4) -----

  const STALE_IF_ERROR := "stale-if-error"

  /** canStaleOnError: the request's directive replaces the response's one, except that
      an empty or unparsable response directive decides at once. */
  function MayFallBack(lib: Library, f: Facts, now: int): bool {
    if STALE_IF_ERROR in f.resp && f.resp[STALE_IF_ERROR] == "" then true
    else if STALE_IF_ERROR in f.resp && Seconds(lib, f.resp[STALE_IF_ERROR]).None? then false
    else if STALE_IF_ERROR in f.req && f.req[STALE_IF_ERROR] == "" then true
    else if STALE_IF_ERROR in f.req && Seconds(lib, f.req[STALE_IF_ERROR]).None? then false
    else
      var lifetime: Duration :=
        if STALE_IF_ERROR in f.req then Seconds(lib, f.req[STALE_IF_ERROR]).value
        else if STALE_IF_ERROR in f.resp then Seconds(lib, f.resp[STALE_IF_ERROR]).value
        else -1;
      lifetime >= 0 && f.date.Some? && lifetime > Between(now, f.date.value)
  }

  function CanStaleOnError(lib: Library, resp: Header, req: Header, now: int): bool {
    MayFallBack(lib, FactsOf(lib, resp, req), now)
  }

  /** How old a fallback may be. */
  datatype Limit = AnyAge | Under(limit: Duration) | Never

  /** A directive without a value sets no limit and one that does not parse forbids the
      fallback, the response's directive being looked at first; else the request's value
      counts before the response's. */
  function FallbackLimit(lib: Library, f: Facts): Limit {
    var resp := LimitOf(lib, f.resp);
    var req := LimitOf(lib, f.req);
    if STALE_IF_ERROR in f.resp && !resp.Under? then resp else if STALE_IF_ERROR in f.req then req else resp
  }

  function LimitOf(lib: Library, cc: Directives): Limit {
    if STALE_IF_ERROR !in cc then Never
    else if cc[STALE_IF_ERROR] == "" then AnyAge
    else match Seconds(lib, cc[STALE_IF_ERROR]) case None => Never case Some(d) => Under(d)
  }

  /** RFC 5861 section 4 in unbounded arithmetic: saturation of the age does no harm. */
  lemma FallbackIffUnderLimit(lib: Library, f: Facts, now: int)
    ensures MayFallBack(lib, f, now) <==>
      match FallbackLimit(lib, f)
      case AnyAge => true
      case Under(limit) => limit >= 0 && f.date.Some? && now - f.date.value < limit
      case Never => false
  {
  }

  /** No limit, or a dated response younger than the limit. */
  predicate UnderLimit(lib: Library, resp: Header, req: Header, now: int) {
    var f := FactsOf(lib, resp, req);
    match FallbackLimit(lib, f)
    case AnyAge => true
    case Under(limit) => limit >= 0 && f.date.Some? && now - f.date.value < limit
    case Never => false
  }

  lemma AllowedUnderLimit(lib: Library, resp: Header, req: Header, now: int)
    ensures CanStaleOnError(lib, resp, req, now) <==> UnderLimit(lib, resp, req, now)
  {
    hide FallbackLimit, MayFallBack, FactsOf;
    FallbackIffUnderLimit(lib, FactsOf(lib, resp, req), now);
  }
}
