# Verification of Geziyor's cache transport and crawl engine

A Dafny 4.11 model of the parts of [Geziyor](https://github.com/geziyor/geziyor) whose behaviour depends on
interleaving, arithmetic or recursion. `dafny verify dfyconfig.toml` checks everything.

## What is modelled

**The caching HTTP transport** (`cache/cache.go` over `cache/memorycache/memorycache.go`).
`Text`, `Headers`, `CacheControl`, `Freshness` and `Messages` hold header maps, canonical names, the
Cache-Control parser, freshness on int64 nanoseconds with wrap-around and saturation, cache keys and Vary.
`RoundTrip` has the methods of the transport against the map, each proved equal to a composition of stage
functions (look up, plan, settle, finish), and the body reader that stores a response at end of file. `Turns` says what
that composition comes to in methods, header values and statuses, and `FreshnessInSeconds` in the numbers of the
directives, for every library that reads a number followed by s as so many seconds (`SomeLibraryReadsSeconds`).
`CacheRuns` interleaves the same stages of any number of calls: every access to the store, reading of the clock,
network reply and read of a body is a step of its own; `UndisturbedIsRoundTrip` ties that machine to the method.
`CacheProvenance` and `CacheOrigin` prove what holds over every run. `CacheStories` builds runs step by step;
`CacheFallback` and `CacheCallers` use it for the promises that fail, and prove exactly when they are kept. `DummyRuns`
treats the Dummy policy.

The origin of `CacheOrigin` is a content function of URL, request headers and time. The assumptions on it are
written out: content depends on the headers named in Vary (the same names for a URL at all times), an ETag or
Last-Modified value identifies status and body of a URL and variant, Date is not later than the generation instant,
a 304 is sent only for a matching validator, and responses carry no `X-Varied-` header. Callers of cacheable GETs send
conditionals only with a no-store that the code reads, which is exactly what keeps others from harm
(`SparesOthersIffHarmless`, `KeepsHitsBoundedIffHarmless`). `ChangingPageIsWellBehaved` gives an origin that meets the
assumptions, and `AHitAndARevalidation` a run in which the theorems have something to speak of.

**The crawl engine** (`geziyor.go` with `middleware/duplicate_requests.go`). `Engine` is a transition system: one
program counter per request, the global semaphore, one channel per host as created (not one per host: lookup and
installation are two steps), the wait group, the visited set, `Start`, and the goroutine that copies exports to every
exporter. Deferred calls run in their order: recover, Done, release. `Scraper` and `Middleware` hold the shared
objects as classes whose methods are proved to be the engine's steps. `Lifecycle`, `Exports`, `Crawl`, `Halting`,
`Stream`, `Nested`, `Progress`, `LostSlot` and `Limits` prove the properties over every run; `Stream` against a log of
the sends that start function and callbacks perform.

**Two small cores**: the retry recursion over a counter kept in the request (`Retry`) and the wrapping round-robin
ticket counter (`Proxy`).

## Where the code differs from what it is meant to do

- The freshness sums can wrap and the age saturates: `OverflowWitness` and `AncientIsFresh` are expired responses judged
  fresh, and `JudgeIsUnboundedRule` is the exact condition for the verdict of unbounded arithmetic.
- A number of seconds too large for a Duration is not a long time: as max-age it counts as zero, as stale-if-error it
  forbids the fallback (`FreshForSeconds`, `FallbackInNumbers`).
- Only the first Cache-Control line is read, and names only in lower case: a `no-store` on a second line or in another
  case is stored (`NoStoreOnASecondLine`, `NoStoreInAnotherCase`). `MissedNoStore` says exactly which are missed, and
  `LaterLinesUnread` that the multi-line law proved for Vary does not hold for Cache-Control.
- Header names with white space around them, or on a later line, in `Connection` are not recognised, so a 304 overrides
  the headers they name (`ListedHeaderIsMerged`); `MissedHopByHop` says exactly which are missed.
- `Vary: *` is an ordinary name: such an entry is selected for every request without a header of that name
  (`StarIsAName`, `StarSelectsAll`).
- A stored response is selected for exactly the agreeing requests if and only if it came without a stray `X-Varied-`
  value (`VaryRoundTrip`).
- The test for a validator of the caller looks at its `Etag` and `Last-Modified` headers, so an `If-None-Match` of its
  own is replaced (`StaleIsRevalidated` states exactly what is sent).
- A 304 that confirms the caller's own copy is answered with the stored page (`CallerIsMisled`): the reply is what it
  should be, to a caller with whom nobody else interferes, if and only if it sends no conditionals
  (`FaithfulIffNoConditionals`).
- That 304 also renews the old page in the store, for everybody: a plain request is then revalidated to the old page
  (`OthersAreMisled`) or answered with it as fresh (`OthersAreOutdated`). Both are excluded, for all other callers and in
  all runs, if and only if the caller sends no conditionals or a no-store that the code reads
  (`SparesOthersIffHarmless`, `KeepsHitsBoundedIffHarmless`).
- A HEAD that goes out with an added validator gets the bare 304, which is then stored (`HeadStores304`). It is answered
  as without a cache if and only if it goes out as it is (`HeadTransparentIff`).
- The stale-if-error fallback does not ask what it returns: it can be another variant (`AnotherVariantIsReturned`) or
  the 504 that was made here for somebody else (`TimeOutIsReturned`), neither of which the request would ever have got.
  It is what RFC 5861 promises if and only if the entry is selected and is not that 504, or the request is one that is
  then answered from the store anyway (`FallbackBoundedIffSelected`).
- The locally made 504 is recorded or stored exactly for a cacheable request that finds nothing, wants only a cached
  answer and has no no-store that is read (`TimeOutIsKept`).
- The removal on POST, PUT and the like never touches the entry of a GET, contrary to the comment on it and to RFC 2616
  section 13.10: a request that is not cacheable removes that entry if and only if it is itself a GET, with Range, for
  the same URL (`RemovesGetEntryIff`).
- Overlapping first lookups of a host lose a slot, after which `Start` never returns (`OverlapLosesASlot`). The engine
  is free of deadlocks whatever the schedule if and only if there is no host limit or the global limit is one
  (`DeadlockFreeIffSafe`). `HostSlots` bounds concurrency by the limit times the number of channels created.
- The round robin is balanced across the wrap exactly when the number of proxies divides 2^32 (`BalancedIffDivides`).

## Model

| member | source | states |
|---|---|---|
| Headers.HeaderAllCommaSepValues | cache/cache.go:552-562 | the loop returns the trimmed comma-separated values of all lines of a header, in order |
| Headers.MultiLineLaw | cache/cache.go:546-562 | any non-empty list of lines gives the same values in the same order as the one line that joins them with commas (RFC 2616 section 4.2) |
| Headers.GetEndToEndHeaders | cache/cache.go:463-489 | returns, each once, exactly the names present that are neither fixed hop-by-hop nor listed in Connection |
| Headers.ConnectionNamesAreNotTrimmed | cache/cache.go:477-482 | a token counts as hop-by-hop if and only if it is a fixed one or some comma-separated piece of the first Connection line spells it with nothing around it |
| Headers.MissedHopByHop | cache/cache.go:477-482 | the code recognises no name that Connection does not list, and misses a listed one exactly when it stands only on later lines or with white space around it (RFC 2616 section 14.10) |
| Headers.ListedHeaderIsMerged | cache/cache.go:477-487 | for every header name that is not fixed: listed after `close, ` it is still overridden by a 304 |
| Headers.Merge | cache/cache.go:234-237 | a 304 overrides exactly its own end-to-end headers; every other header, present or absent, is as stored |
| Headers.UpdateHeaders | cache/cache.go:234-237 | the update loop computes that merge for whatever order the names are visited in |
| Headers.FixedHopByHop | cache/cache.go:465-475 | a 304 without Connection overrides every header it has but the eight named ones, and no other |
| Headers.CanonicalIgnoresCase | cache/cache.go:112-120 | two tokens are looked up as the same header if and only if they differ only in the case of letters |
| Headers.SuccessiveMerges | cache/cache.go:232-239 | after any number of merges each header has the value of the last 304 that carried it end to end, else the first one; StoreProvenance and AnswerProvenance apply it to every run |
| CacheControl.ParseCacheControl | cache/cache.go:528-544 | the loop computes the parsed directives of the first Cache-Control line |
| CacheControl.ParsePrint | cache/cache.go:526-544 | parsing a printed list of directives, with any padding, empty parts and either spelling of an empty value, gives its meaning, the last duplicate winning |
| CacheControl.ParsePrintedMap | cache/cache.go:526-544 | every printing of a map of well-formed directives, in any order and with repetitions, parses to that map |
| CacheControl.ValueEndsAtEquals | cache/cache.go:536-539 | a value ends at its first equals sign; what follows is dropped |
| CacheControl.MissedNoStore | cache/cache.go:491-544 | a no-store the code reads was said; one that was said is missed exactly when every piece that says it is on a later line or not in lower case with only blanks around it |
| CacheControl.NoStoreOnASecondLine | cache/cache.go:528-530 | a no-store on the second line is missed, whatever the first line is that is not itself read as no-store |
| CacheControl.NoStoreInAnotherCase | cache/cache.go:491-498 | a no-store with any capital letter is missed |
| CacheControl.LaterLinesUnread | cache/cache.go:528-530 | two headers with the same first line parse alike |
| Freshness.ComputeLifetime | cache/cache.go:357-385 | request max-age replaces response max-age, which replaces Expires minus Date; what does not parse counts as zero |
| Freshness.Decide | cache/cache.go:341-417 | the branches and the wrapping updates of the current age give the specified verdict |
| Freshness.ComputeFreshness | cache/cache.go:338-417 | the same from the two header maps |
| Freshness.VerdictIsUnboundedRule | cache/cache.go:386-416 | for the age as the clock reports it, the int64 verdict is that of unbounded integers if and only if the final sum fits or wraps to the same side of the lifetime |
| Freshness.JudgeIsUnboundedRule | cache/cache.go:351-416 | for the real age of any Date, beyond 292 years too, exactly when the verdict is that of unbounded integers |
| Freshness.AncientIsFresh | cache/cache.go:355-412 | with max-age=9223372036 and max-stale=1 a response whose age saturates is fresh, however old |
| Freshness.FreshIffLifetimeExceeds | cache/cache.go:350-416 | when the sum fits, fresh if and only if lifetime exceeds age + min-fresh - max-stale |
| Freshness.StaleStaysStale | cache/cache.go:355-416 | as the clock advances the verdict goes from fresh to stale at most once |
| Freshness.OverflowWitness | cache/cache.go:386-392 | min-fresh=9223372036, age one second and lifetime zero wrap to fresh |
| Freshness.LifetimePrecedence | cache/cache.go:360-385 | the lifetime does not depend on Expires once there is a max-age, nor on the response once the request has one, and a response max-age counts as the request's would |
| Freshness.FallbackIffUnderLimit | cache/cache.go:421-461 | the fallback is allowed if and only if the age in unbounded integers is under the limit the directives set, or they set none (RFC 5861 section 4) |
| Store.MemoryCache.Get | cache/memorycache/memorycache.go:14-20 | the stored value, or none |
| Store.MemoryCache.Set | cache/memorycache/memorycache.go:22-27 | the map updated at one key |
| Store.MemoryCache.Delete | cache/memorycache/memorycache.go:29-33 | the map without one key |
| Messages.CacheKeyInjective | cache/cache.go:62-68 | for space-free methods and URLs, keys are equal if and only if method and URL are |
| Messages.MatchVary | cache/cache.go:112-120 | true if and only if the request has the recorded value for every name of Vary |
| Messages.StampVary | cache/cache.go:269-276 | the loop records the request's non-empty values of the names of Vary |
| Messages.StampValue | cache/cache.go:269-276 | what is recorded for any name afterwards: the request's value if listed and non-empty, else what was there |
| Messages.VaryRoundTrip | cache/cache.go:112-120 | an entry stored for r1 is selected for exactly the r2 that agree with r1 on Vary, if and only if the response came without stray recorded values (RFC 2616 section 13.6) |
| Messages.SelectedIffSameValues | cache/cache.go:112-120 | from the lines of Vary: an entry whose response carried no stamp is selected for exactly the requests with the same value of every name between commas on every line |
| Messages.StarIsAName | cache/cache.go:112-120 | with an asterisk in Vary the entry is selected for exactly the requests that agree on the other names and on a header called so |
| Messages.StarSelectsAll | cache/cache.go:112-120 | with an asterisk alone it is selected for every request without such a header |
| Messages.RevalidationKeepsSelection | cache/cache.go:234-276 | merging a 304 that is silent about Vary and storing again selects the same requests as before |
| RoundTrip.Transport.Consult | cache/cache.go:203-229 | answer if selected and fresh, add validators if selected and stale, else send as it is |
| RoundTrip.Transport.Revalidate | cache/cache.go:231-255 | merged 304, fallback, error or plain reply, and exactly when the entry is removed |
| RoundTrip.Transport.Complete | cache/cache.go:268-300 | records a GET body, stores a HEAD at once, or removes the entry; the reader starts with the whole body unread |
| RoundTrip.Transport.OnHit | cache/cache.go:198-300 | the branch for a stored response: new store, result and reader |
| RoundTrip.Transport.OnMiss | cache/cache.go:256-300 | the branch for none, with the 504 of only-if-cached |
| RoundTrip.Transport.RoundTripRFC2616 | cache/cache.go:182-301 | the whole round trip: new store, result and reader as the composed stages |
| RoundTrip.Transport.RoundTripDummy | cache/cache.go:136-173 | the Dummy round trip: new store and result |
| RoundTrip.CachingReadCloser.Read | cache/cache.go:580-587 | the buffer grows by the chunk; at end of file the whole response is stored, before it nothing |
| RoundTrip.TouchesOwnKey | cache/cache.go:182-301 | a round trip leaves every other key alone, and a GET neither adds nor changes an entry before its body is read |
| RoundTrip.SurvivesGet | cache/cache.go:198-300 | by the network's reply: the entry survives a GET if and only if it answers it, the reply was a failure or a status from 500 and the entry is under the stale-if-error limit, or the reply was 200 or 304 and neither side says no-store |
| RoundTrip.RemovesOwnEntry | cache/cache.go:183-191 | a request that is not cacheable removes the entry of its own key and changes nothing else, whatever the network says |
| RoundTrip.RemovesGetEntryIff | cache/cache.go:183-191 | such a request removes the entry of a GET if and only if it is a GET with Range for the same URL |
| RoundTrip.TimeOutIsKept | cache/cache.go:256-300 | a request that only wants a cached answer and finds none gets the 504, which is recorded or stored exactly when the request is cacheable and no no-store of it is read |
| RoundTrip.HeadTransparentIff | cache/cache.go:210-255 | a HEAD that finds an entry and is sent on is answered by every network as without a cache if and only if it goes out as it is |
| RoundTrip.HeadStores304 | cache/cache.go:231-296 | the bare 304 to an added validator is what a HEAD gets and what is stored for the next one |
| Turns.KeptAway | cache/cache.go:182-301 | a request with Range, or of any method but GET and HEAD, is sent as it is and gets the network's reply as it is, or the 504 of only-if-cached; the store loses its own key and nothing else |
| Turns.KeptAwayFromDummy | cache/cache.go:136-173 | the same of the Dummy policy, with no exception: the network is always asked |
| Turns.DummyKeepsAnything | cache/cache.go:136-173 | under the Dummy policy a GET or HEAD that finds nothing keeps any response that can be read in full, and the next one gets it with no contact; otherwise nothing is kept and the next one asks again |
| Turns.FindsIff | cache/cache.go:138-157 | under both policies an entry is found if and only if the request is a GET or HEAD without Range and the store has its key |
| Turns.MarkSays | cache/cache.go:198-201 | X-From-Cache is 1 when marking is on and as stored when it is off; nothing else of the entry changes |
| Turns.NoCacheGoesOut | cache/cache.go:341-343 | a request that says no-cache is never answered from the store and goes out as it is, without validators |
| Turns.AnswersWhateverItsAge | cache/cache.go:341-405 | for only-if-cached, or a max-stale without value and a dated entry, the entry answers if and only if it is selected and neither side says no-cache |
| Turns.NeverAnswers | cache/cache.go:203-229 | an entry that says no-cache, is not selected or has no date never answers a request that may go out; one that is not selected adds no validator |
| Turns.GetThatMisses | cache/cache.go:256-300 | a GET that finds nothing gets the network's status and body, recorded if and only if neither side says no-store; the store is as it was |
| Turns.GetThatIsSentOn | cache/cache.go:231-300 | for every reply, by its status: the entry takes the place of the network's reply if and only if that is a failure or at least 500 and the entry is under the stale-if-error limit; a 304 is completed by it; every other reply reaches the caller, and the entry goes unless it is a 200 that may be kept |
| Turns.HeadThatIsSentOn | cache/cache.go:231-300 | a HEAD gets the network's status and body, errors and 304 too, which is stored at once unless a side says no-store; after a failure nothing is stored |
| FreshnessInSeconds.FreshInNumbers | cache/cache.go:357-416 | with max-age=n (the request's before the response's), min-fresh=b and max-stale=c: fresh if and only if n seconds exceed the age plus b seconds less c seconds, when that is within int64; the wrapped comparison always |
| FreshnessInSeconds.FreshUntilExpires | cache/cache.go:367-416 | without max-age: fresh if and only if now plus min-fresh less max-stale is before Expires, or before Date when Expires is missing or does not parse |
| FreshnessInSeconds.FreshForSeconds | cache/cache.go:338-417 | from the header text: a response with max-age=n alone is fresh for a request without directives if and only if fewer than n seconds have passed since its Date, none if n does not fit |
| FreshnessInSeconds.AnswersForSeconds | cache/cache.go:203-208 | so such an entry, if selected, answers for n seconds and no longer |
| FreshnessInSeconds.FallbackInNumbers | cache/cache.go:421-461 | with stale-if-error=n of the response and m of the request: allowed if and only if the response is dated and younger than m seconds, else n, and every number given fits (RFC 5861 section 4) |
| FreshnessInSeconds.FallbackAtAnyAge | cache/cache.go:428-447 | with a stale-if-error without value on the response's side, or on the request's beside a number: allowed at any age, except after a number of the response that does not fit |
| FreshnessInSeconds.BoundedStalenessInSeconds | cache/cache.go:182-301 | the bound of CacheOrigin.BoundedStaleness in the numbers of the headers: in every polite run an answer from the store is the content of less than n + c - b seconds ago |
| CacheRuns.UndisturbedIsRoundTrip | cache/cache.go:182-301 | a call of the interleaved machine that nothing interrupts has the effect proved of the method: the store, the answer that is logged, and the reader |
| CacheProvenance.ReadBytes | cache/cache.go:564-587 | buffered and unread bytes together are always the body; at end of file the buffer is the body |
| CacheProvenance.KeepsStep | cache/cache.go:182-301 | every step keeps the provenance invariant |
| CacheProvenance.StoreProvenance | cache/cache.go:232-300 | in every run an entry found for a request is the complete body and status of an exchange with that method and URL, or of a 504 made for an only-if-cached request, its headers overridden by exactly the end-to-end headers of 304s for them that came no earlier, in order, recorded Vary values and X-From-Cache apart; in no exchange and no version was a no-store said that the code does not miss (RFC 2616 sections 13.5.3 and 14.9.2) |
| CacheProvenance.AnswerProvenance | cache/cache.go:198-300 | in every run the same of the status, body and headers of every answer, over any number of successive revalidations in order of their instants, the last exchange being the one the answer was given after |
| CacheOrigin.ChangingPageIsWellBehaved | cache/cache.go:212-224 | the origin assumptions are met by a page that changes, whose 304 confirms the current ETag |
| CacheOrigin.StaleIsRevalidated | cache/cache.go:210-228 | a stale selected entry is sent for with its ETag and Last-Modified as validators, every other header as the caller set it |
| CacheOrigin.OwnConditionalsKeptIff | cache/cache.go:212-224 | a caller's own If-None-Match goes out unchanged if and only if the entry has no ETag or the same, or the caller sends an Etag header; likewise for If-Modified-Since |
| CacheOrigin.NotModified | cache/cache.go:231-239 | the entry merged with a 304 is the content of the instant of the 304 |
| CacheOrigin.KeepsStep | cache/cache.go:182-301 | every step keeps: stored, looked-up and recorded responses show the content of a past instant not before their Date |
| CacheOrigin.HitIsBoundedlyStale | cache/cache.go:203-208 | a fresh answer is younger than lifetime + max-stale - min-fresh |
| CacheOrigin.BoundedStaleness | cache/cache.go:182-301 | in every polite run, in which other callers may send conditionals with a no-store, a GET answered without contacting the origin shows what the origin had for that same request less than lifetime + max-stale - min-fresh ago (RFC 2616 sections 13.2.4 and 14.9.3) |
| CacheOrigin.BoundedFallback | cache/cache.go:240-247 | in every run a fallback selected for the request is within the stated stale-if-error limit (RFC 5861 section 4) |
| CacheFallback.FallbackBoundedIffSelected | cache/cache.go:240-247 | for every stored response of the network, every 504 made here, and every request that may fall back on it: all well-behaved origins and polite runs give content of an instant within the limit if and only if the entry is selected and is not the 504 made here, unless the request only wants a cached answer |
| CacheFallback.TimeOutFallsBack | cache/cache.go:240-268 | for every other request that may fall back on it, a polite run in which the stored 504 is the fallback and the origin never had such a page |
| CacheFallback.TimeOutIsReturned | cache/cache.go:240-268 | such an input: only-if-cached first, then stale-if-error without a value and a network that fails |
| CacheFallback.TimeOutIsNoFallback | cache/cache.go:203-208 | in every run a request that only wants a cached answer never falls back on the 504 made here |
| CacheFallback.AnotherVariantFallsBack | cache/cache.go:240-247 | whenever it is not selected, a well-behaved origin and a polite run in which the fallback is what the request would never have got |
| CacheFallback.AnotherVariantIsReturned | cache/cache.go:240-247 | such an input: two requests that differ in a listed header and a stale-if-error without a value |
| CacheOrigin.Transparency | cache/cache.go:198-300 | in every polite run a GET without conditionals that goes to the origin and is not answered by the fallback returns the status and body an uncached request would get at the instant of the reply, with the headers of a first exchange overridden by exactly the end-to-end headers of the 304s since, in order, over any number of revalidations (RFC 2616 sections 10.3.5 and 13.5.3) |
| CacheOrigin.RefreshedHeaders | cache/cache.go:231-276 | what is returned after a 304 has the stored headers overridden by exactly the end-to-end headers of the 304, apart from recorded Vary values (RFC 2616 section 13.5.3) |
| CacheOrigin.ReusedWhileFresh | cache/cache.go:182-301 | a storable GET response, put in the store as its reader does at end of file, answers the same request again while fresh, whatever the network would say |
| CacheCallers.FaithfulIffNoConditionals | cache/cache.go:210-239 | for every cacheable GET: all well-behaved origins and runs in which nobody else sends conditionals give it the content of the instant of the reply, or a 304 confirming its own copy, if and only if it has no conditionals itself |
| CacheCallers.CallerIsMisled | cache/cache.go:231-239 | for every request with conditionals, a run in which the origin honestly confirms the caller's copy and the caller gets the older stored page |
| CacheCallers.SparesOthersIffHarmless | cache/cache.go:210-300 | for every cacheable GET r: in all runs over all well-behaved origins in which only r may do harm, callers without conditionals get the content of the instant of the reply if and only if r has no conditionals or a no-store that is read |
| CacheCallers.OthersAreMisled | cache/cache.go:231-300 | for every other r, a run in which a plain request is revalidated to the old page that r's 304 gave the new validators |
| CacheCallers.KeepsHitsBoundedIffHarmless | cache/cache.go:182-301 | for every cacheable GET r: in all worlds, runs and origins in which only r may do harm, every answer from the store keeps the bound of BoundedStaleness if and only if r has no conditionals or a no-store that is read |
| CacheCallers.OthersAreOutdated | cache/cache.go:231-300 | for every other r, a run in which a plain request is answered, as fresh for 5, with a page that went away 100 instants ago |
| CacheCallers.CallersTagIsReplaced | cache/cache.go:213-217 | an input: the caller asks about v2 and the origin is asked about v1 |
| CacheStories.AHitAndARevalidation | cache/cache.go:182-301 | a polite run over a well-behaved origin with an answer from the store and a later one by a 304 |
| DummyRuns.UndisturbedIsDummyTurn | cache/cache.go:136-173 | lookup, exchange and store in sequence have the effect proved of the method |
| DummyRuns.AlwaysBalanced | cache/cache.go:152-162 | in every run, per key, exchanges plus waiting calls equal the lookups that found nothing |
| DummyRuns.AlwaysTraced | cache/cache.go:136-173 | in every run each answer from the store is a response the origin gave for that key |
| DummyRuns.StoredForGood | cache/cache.go:136-173 | once stored, a key that no range request invalidates stays stored |
| DummyRuns.EarlyMeansBeforeFirstStore | cache/cache.go:152-157 | no lookup after the first store misses |
| DummyRuns.ContactsAreEarlyLookups | cache/cache.go:136-173 | in every run the origin is contacted for a key no more often than it was looked up before its first store |
| DummyRuns.SequentialReplay | cache/cache.go:136-173 | in sequence, from the first response that could be stored on every call gets it, marked, with no further contact |
| Retry.Client.DoRequest | client/client.go:94-121 | the attempts made, the result of the last one, and the counter left in the request; an error or a status to be retried is returned only when the budget is used up, and every attempt before the last came to one of these |
| Retry.TriesIsFirstSettled | client/client.go:94-121 | the recursion is the bounded loop: it stops at the first attempt that is a response with a status not to be retried, or at the last the budget allows, and at no other |
| Retry.ReturnsTheSettled | client/client.go:101-118 | an error is returned only after budget + 1 attempts; fewer attempts mean a response whose status is not in the codes; each earlier attempt was an error or had a status in them |
| Retry.ReuseBound | client/client.go:111-118 | over any number of calls that reuse one request the attempts are at most calls + max(RetryTimes, 0), with RetryTimes = -1 too |
| Retry.StoredErrorIsReplayed | client/client.go:111-118 | over a Dummy cache the first stored response, if retryable, uses up the whole budget and no retry after it reaches the origin |
| Proxy.RoundRobinProxy.GetProxy | client/proxy.go:19-27 | the proxy of the ticket before the increment, and the wrapped counter |
| Proxy.MakeProxy | client/proxy.go:34-48 | the environment for no URLs, nothing if some URL does not parse, else the parsed URLs in order from ticket zero |
| Proxy.NoWrapIsBalanced | client/proxy.go:19-22 | in a window that does not cross 2^32 each proxy is chosen its share, rounded down or up |
| Proxy.WrapImbalance | client/proxy.go:19-22 | the window across the wrap that is not balanced |
| Proxy.BalancedIffDivides | client/proxy.go:19-22 | all windows are balanced if and only if the number of proxies divides 2^32; three are not |
| Lifecycle.CountedStep | geziyor.go:224-236 | every step keeps the wait group equal to the launched requests before Done |
| Lifecycle.GlobalStep | geziyor.go:274-294 | every step keeps the global tokens equal to their holders and within the limit |
| Lifecycle.HostStep | geziyor.go:277-300 | every step keeps the tokens of a host over all its channels equal to the requests between acquire and release |
| Lifecycle.LinkedStep | geziyor.go:277-300 | every step keeps channels with the hosts they were made for, and hosts in the table once looked up |
| Lifecycle.QuietStep | geziyor.go:169-172 | past Wait no step launches, exports or fetches |
| Lifecycle.LifecycleSafety | geziyor.go:161-172 | in every run, panics, cancellations and nested requests included, the wait group counts the requests before Done, Exports is closed only past Wait, nothing is launched after a shutdown, and nothing is launched or exported past Wait |
| Lifecycle.GlobalSlots | geziyor.go:274-294 | in every run the global slots in use equal their holders and never exceed ConcurrentRequests |
| Lifecycle.HostSlots | geziyor.go:277-300 | in every run the tokens over all channels of a host equal its holders, at most the limit times the channels created |
| Exports.FanStep | geziyor.go:349-354 | every step keeps what each exporter has received |
| Exports.FanOut | geziyor.go:326-355 | at every step what exporters have received are prefixes of one stream, not longer for later exporters, differing by at most one item |
| Exports.CompleteOnReturn | geziyor.go:169-171 | when Start has returned, each draining exporter has the full stream in order and the channel is empty, with no exporter too |
| Stream.StreamIsLog | geziyor.go:326-354 | in every run the stream is exactly the items sent by the start function and the callbacks, in the order of their sends |
| Stream.SendsInOrder | geziyor.go:233-268 | in every run what each callback and the start function have sent is a beginning of what they are to send, in order; all of it when they are over, unless a middleware or the client panicked |
| Stream.ExportsArePageItems | geziyor.go:161-172 | a deterministic crawl that has passed Wait has exported exactly the items of its start function and of the scripts of the fetched pages, each up to its panic and as often as sent |
| Stream.ExportersGetPageItems | geziyor.go:326-364 | when Start has returned, each draining exporter has received exactly these items |
| Stream.SameSiteSameItems | geziyor.go:220-268 | two complete crawls of one site export the same items, each as often, whatever their limits, exporters and schedules |
| Nested.Launches | geziyor.go:220-230 | a launch starts the request at its beginning; the launcher waits for a synchronized one and goes on at once after another; after a shutdown it launches nothing and goes on |
| Nested.SynchronizedIsDoneFirst | geziyor.go:225-227 | in every continuation of a run the launcher of a synchronized request does nothing more until that request is gone |
| Nested.GoesOnAfterChild | geziyor.go:225-227 | it is its own step after the end of that request, and nothing else, that takes the launcher to its next action |
| Nested.InterruptStopsLaunches | geziyor.go:220-224 | after an interrupt no continuation of the run launches a request |
| Crawl.FetchesAreSound | geziyor.go:220-268 | in every run, shut down or not, nothing outside any closed set is fetched and nothing twice |
| Crawl.ScheduleIndependence | geziyor.go:220-268 | every complete run without shutdown fetches, each URL once, exactly the least set closed under wanted start URLs and wanted links of fetched pages |
| Crawl.SameSiteSamePages | geziyor.go:220-268 | two crawls of one site fetch the same pages whatever their limits, exporters and schedules; a shut down one fetches a subset |
| Halting.StepDecreases | geziyor.go:220-268 | every step decreases the lexicographic measure: unvisited URLs with admitted unstarted requests, actions owed, remaining phases |
| Halting.EveryRunEnds | geziyor.go:220-268 | over a finite set of URLs with revisits off and GETs only no run is infinite |
| Progress.DeadlockFreedom | geziyor.go:233-301 | with asynchronous requests, draining exporters and no overlapping first lookups every unfinished reachable state has an enabled step other than an interrupt |
| Progress.HostLimitHolds | geziyor.go:277-300 | without overlapping first lookups a host never has more requests than its limit, whatever panics, nests or hangs |
| Progress.StartReturns | geziyor.go:142-174 | under the assumptions of both theorems every scheduler that takes enabled steps brings Start to its return |
| Limits.SafeRunsAreCalm | geziyor.go:274-287 | without a host limit or with a global limit of one, first lookups never overlap in any run |
| Limits.Standstill | geziyor.go:270-301 | under any other limits, a reachable state in which Start has not returned and no step is enabled |
| Limits.DeadlockFreeIffSafe | geziyor.go:233-301 | all lively crawls under two limits are free of deadlocks in every run if and only if there is no host limit or the global limit is one |
| Limits.SafeStartReturns | geziyor.go:142-174 | under these limits Start returns with no condition on the schedule |
| LostSlot.StuckStep | geziyor.go:278-300 | a request that waits on a full channel no longer in the table waits after every step |
| LostSlot.TheOverlap | geziyor.go:278-287 | for every host limit and every global limit but one, the run: two requests install a channel each, and one more waits on the full one that was overwritten |
| LostSlot.OverlapLosesASlot | geziyor.go:270-301 | under every other assumption of deadlock freedom, each of these limits has a run no continuation of which lets Start return |
| Middleware.DuplicateRequests.ProcessRequest | middleware/duplicate_requests.go:16-26 | cancels exactly the GET of a visited URL, marks the URL visited, and logs each once |
| Middleware.VisitIsProcessRequest | middleware/duplicate_requests.go:16-26 | the engine's visit step has the effect of the middleware |
| Scraper.Geziyor.Do | geziyor.go:220-230 | counted before it starts; nothing after a shutdown |
| Scraper.Geziyor.LookUpHost | geziyor.go:278-280 | the lookup decides between waiting and installing |
| Scraper.Geziyor.InstallHost | geziyor.go:281-286 | installs a new channel over whatever is there |
| Scraper.Geziyor.AcquireSem | geziyor.go:270-289 | undisturbed, takes one token of the global semaphore and one of the host's current channel |
| Scraper.Geziyor.ReleaseSem | geziyor.go:291-301 | undisturbed, returns one token of the global semaphore and one of the channel looked up now |
| Scraper.Geziyor.Done | geziyor.go:236 | the wait group goes down by one |
| Scraper.Geziyor.Export | geziyor.go:350-352 | a callback's send appends its item to the channel, as the engine's step does whose effect on the stream Stream.StreamIsLog states |
| Scraper.Geziyor.CloseExports | geziyor.go:169-171 | Start closes the channel after Wait |
| Scraper.Geziyor.Interrupt | geziyor.go:313-324 | SIGINT sets the shutdown flag |

## Left out

- `DumpResponse` and `ReadResponse`: serialisation is an identity round trip, so a stored response is a value and no dump fails, except that the Dummy method takes the failure of a dump as a parameter.
- `time.ParseDuration`, date parsing and URL parsing are parameters; URLs are space-free strings and dates are instants in nanoseconds.
- Aliasing in the transport: request and response headers are values, so `cloneRequest` is the absence of a change to the caller's request, and callers that mutate a returned header map while its body is still being read are not modelled.
- RoundTrip.CachingReadCloser.Read: a read error other than end of file stores nothing and is not a step of its own; end of file is reported only at the end of the body, as the wrapped reader promises.
- Policy dispatch (`cache/cache.go:126-131`), the default transport, and the disk and LevelDB stores.
- RoundTrip.Transport.RoundTripRFC2616: runs against one network answer at a time; concurrency is in CacheRuns, whose steps are the same stages.
- The two branches of RoundTripRFC2616 are methods of their own (OnHit with Consult and Revalidate, OnMiss, Complete) where the source has one body.
- CacheOrigin.BoundedStaleness: says nothing of requests with only-if-cached or a valueless max-stale, which ask for an answer of any age.
- DummyRuns: the mark on replayed answers is in SequentialReplay and UndisturbedIsDummyTurn only; the interleaved part counts contacts and traces answers.
- Blocking operations of the engine are enabling conditions of its steps; the methods of Scraper are the sections between them. `Start`, `startExporters` and the signal loop are program counters of the engine, not methods.
- The rate limiter, request delays and robots.txt fetching are steps of any duration; robots.txt and custom middlewares are one predicate per URL, and middlewares that panic are a switch.
- Data races on the shutdown flag: reads and writes of it are atomic.
- A panic in the start function, which is not recovered and ends the program.
- The goroutine that closes the exporters' channels one after the other closes them in one step.
- Exporters are modelled as draining their channel or giving up; formats (CSV, JSON, pretty print) are not.
- Chrome rendering, charset decoding, cookies, redirects, TLS, metrics, logging, header and HTML middlewares.
- Proxy.RoundRobinProxy.GetProxy: the URL stored in the request's context for later lookup is not modelled.
- Retry.Client.DoRequest: an attempt is its outcome, an error or a status; the retry codes are a set.
