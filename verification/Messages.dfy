/** Requests, responses, cache keys and Vary selection (cache/cache.go). */
module Messages {
  import opened Options
  import opened Text
  import opened Headers

  newtype byte = b: int | 0 <= b < 256

  datatype Request = Request(method_: string, url: string, header: Header)
  datatype Response = Response(status: int, header: Header, body: seq<byte>)

  /** What the network gives back: a response or a transport error. */
  datatype Reply = Received(resp: Response) | Failed

  const GATEWAY_TIMEOUT := Response(504, map[], [])

  function CacheKey(req: Request): string {
    if req.method_ == "GET" then req.url else req.method_ + " " + req.url
  }

  /** Keys are never shared between methods or URLs: so the invalidation of a POST never
      touches the entry of a GET of the same URL. */
  lemma CacheKeyInjective(a: Request, b: Request)
    requires SpaceFree(a) && SpaceFree(b)
    ensures CacheKey(a) == CacheKey(b) <==> a.method_ == b.method_ && a.url == b.url
  {
    KeyParts(a);
    KeyParts(b);
  }

  lemma KeyParts(r: Request)
    requires SpaceFree(r)
    ensures Split(CacheKey(r), ' ') == if r.method_ == "GET" then [r.url] else [r.method_, r.url]
  {
    SplitPlain(r.url, ' ');
    if r.method_ != "GET" {
      SplitPlain(r.method_, ' ');
      assert r.method_ + " " + r.url == r.method_ + [' '] + r.url;
      SplitAppend(r.method_, r.url, ' ');
    }
  }

  predicate SpaceFree(req: Request) {
    ' ' !in req.method_ && ' ' !in req.url
  }

  predicate SameTarget(req: Request, sent: Request) {
    sent.method_ == req.method_ && sent.url == req.url
  }

  predicate Cacheable(req: Request) {
    (req.method_ == "GET" || req.method_ == "HEAD") && Get(req.header, "range") == ""
  }

  // ----- Vary -----

  function VaryNames(h: Header): seq<string> {
    CommaValues(Lines(h, "vary"))
  }

  function VariedValue(h: Header, key: string): string {
    Get(h, X_VARIED + key)
  }

  predicate NameMatches(cached: Header, req: Header, name: string) {
    var key := Canonical(name);
    key != "" ==> Get(req, key) == VariedValue(cached, key)
  }

  predicate AllMatch(names: seq<string>, cached: Header, req: Header) {
    forall i :: 0 <= i < |names| ==> NameMatches(cached, req, names[i])
  }

  predicate VaryMatches(cached: Header, req: Header) {
    AllMatch(VaryNames(cached), cached, req)
  }

  method MatchVary(cached: Header, req: Header) returns (ok: bool)
    ensures ok == VaryMatches(cached, req)
  {
    var names := HeaderAllCommaSepValues(cached, "vary");
    ok := MatchNames(names, cached, req);
  }

  method MatchNames(names: seq<string>, cached: Header, req: Header) returns (ok: bool)
    ensures ok == AllMatch(names, cached, req)
  {
    for i := 0 to |names|
      invariant AllMatch(names[..i], cached, req)
    {
      var header := Canonical(names[i]);
      if header != "" && Get(req, header) != Get(cached, X_VARIED + header) {
        assert !NameMatches(cached, req, names[i]);
        return false;
      }
      assert NameMatches(cached, req, names[i]);
      assert names[..i + 1] == names[..i] + [names[i]];
    }
    assert names[..|names|] == names;
    return true;
  }

  /** Recording, for each name of Vary, the request's value under X-Varied-name. */
  function Stamp(h: Header, names: seq<string>, req: Header): Header {
    if names == [] then h
    else
      var rest := Stamp(h, names[..|names| - 1], req);
      var key := Canonical(names[|names| - 1]);
      if Get(req, key) != "" then Set(rest, X_VARIED + key, Get(req, key)) else rest
  }

  method StampVary(h: Header, req: Header) returns (stamped: Header)
    ensures stamped == Stamp(h, VaryNames(h), req)
  {
    var names := HeaderAllCommaSepValues(h, "vary");
    stamped := StampNames(h, names, req);
  }

  method StampNames(h: Header, names: seq<string>, req: Header) returns (stamped: Header)
    ensures stamped == Stamp(h, names, req)
  {
    stamped := h;
    for i := 0 to |names|
      invariant stamped == Stamp(h, names[..i], req)
    {
      assert names[..i + 1][..i] == names[..i] && names[..i + 1][i] == names[i];
      var varyKey := Canonical(names[i]);
      var reqValue := Get(req, varyKey);
      if reqValue != "" {
        stamped := Set(stamped, X_VARIED + varyKey, reqValue);
      }
    }
    assert names[..|names|] == names;
  }

  predicate Listed(names: seq<string>, key: string) {
    exists name :: name in names && Canonical(name) == key
  }

  lemma VariedInjective(a: string, b: string)
    requires X_VARIED + a == X_VARIED + b
    ensures a == b
  {
    assert (X_VARIED + a)[|X_VARIED|..] == a && (X_VARIED + b)[|X_VARIED|..] == b;
  }

  /** Recording `value` under one name changes the recorded value of that name only. */
  lemma SetVaried(h: Header, name: string, value: string, key: string)
    requires Canonical(key) == key
    ensures VariedValue(Set(h, X_VARIED + Canonical(name), value), key) ==
      if Canonical(name) == key then value else VariedValue(h, key)
  {
    VariedCanonical(key);
    VariedCanonical(name);
    if X_VARIED + Canonical(name) == X_VARIED + key {
      VariedInjective(Canonical(name), key);
    }
  }

  /** The value a stamp leaves for `key`. */
  lemma {:induction false} StampValue(h: Header, names: seq<string>, req: Header, key: string)
    requires Canonical(key) == key
    ensures VariedValue(Stamp(h, names, req), key) ==
      if Listed(names, key) && Get(req, key) != "" then Get(req, key) else VariedValue(h, key)
  {
    if names != [] {
      var front, last := names[..|names| - 1], names[|names| - 1];
      StampValue(h, front, req, key);
      ListedFront(names, key);
      SetVaried(Stamp(h, front, req), last, Get(req, Canonical(last)), key);
    }
  }

  lemma ListedFront(names: seq<string>, key: string)
    requires names != []
    ensures Listed(names, key) <==> Listed(names[..|names| - 1], key) || Canonical(names[|names| - 1]) == key
  {
    assert names == names[..|names| - 1] + [names[|names| - 1]];
  }

  predicate IsVaried(key: string) {
    X_VARIED <= key
  }

  lemma {:induction false} StampOther(h: Header, names: seq<string>, req: Header, key: string)
    requires !IsVaried(key)
    ensures key in Stamp(h, names, req) <==> key in h
    ensures key in h ==> Stamp(h, names, req)[key] == h[key]
  {
    if names != [] {
      StampOther(h, names[..|names| - 1], req, key);
      VariedCanonical(names[|names| - 1]);
    }
  }

  /** A header name whose third character is not v, in either case, is never a stamp. */
  lemma NotVaried(name: string)
    requires |name| < 9 || Lower(name[0]) != 'x' || Lower(name[2]) != 'v'
    ensures !IsVaried(Canonical(name))
  {
    CanonicalFolds(name);
    assert X_VARIED[0] == 'X' && X_VARIED[2] == 'V';
  }

  lemma StampKeeps(h: Header, names: seq<string>, req: Header, name: string)
    requires |name| < 9 || Lower(name[0]) != 'x' || Lower(name[2]) != 'v'
    ensures Get(Stamp(h, names, req), name) == Get(h, name)
    ensures Lines(Stamp(h, names, req), name) == Lines(h, name)
  {
    NotVaried(name);
    StampOther(h, names, req, Canonical(name));
  }

  /** The requests agree on the first value of every header listed in Vary. */
  predicate Agree(names: seq<string>, a: Header, b: Header) {
    forall name :: name in names && Canonical(name) != "" ==> Get(a, Canonical(name)) == Get(b, Canonical(name))
  }

  /** The response comes with no X-Varied- value for a listed name the request leaves empty. */
  predicate Unstamped(h: Header, req: Header) {
    forall name :: name in VaryNames(h) && Canonical(name) != "" && Get(req, Canonical(name)) == "" ==>
      VariedValue(h, Canonical(name)) == ""
  }

  function Stored(h: Header, req: Header): Header {
    Stamp(h, VaryNames(h), req)
  }

  lemma StoredKeepsVary(h: Header, req: Header)
    ensures VaryNames(Stored(h, req)) == VaryNames(h)
  {
    StampKeeps(h, VaryNames(h), req, "vary");
  }

  lemma MatchesIff(h: Header, r1: Header, r2: Header)
    ensures VaryMatches(Stored(h, r1), r2) <==>
      forall name :: name in VaryNames(h) && Canonical(name) != "" ==>
        Get(r2, Canonical(name)) == if Get(r1, Canonical(name)) != "" then Get(r1, Canonical(name)) else VariedValue(h, Canonical(name))
  {
    StoredKeepsVary(h, r1);
    forall name | name in VaryNames(h)
      ensures VariedValue(Stored(h, r1), Canonical(name)) ==
        if Get(r1, Canonical(name)) != "" then Get(r1, Canonical(name)) else VariedValue(h, Canonical(name))
    {
      CanonicalStable(name);
      StampValue(h, VaryNames(h), r1, Canonical(name));
      assert Listed(VaryNames(h), Canonical(name));
    }
  }

  /** RFC 2616 section 13.6: an entry stored for r1 is selected for exactly the requests
      that agree with r1 on Vary, if and only if the response was unstamped. */
  lemma VaryRoundTrip(h: Header, r1: Header)
    ensures Unstamped(h, r1) <==>
      forall r2 :: VaryMatches(Stored(h, r1), r2) <==> Agree(VaryNames(h), r1, r2)
  {
    forall r2 ensures Unstamped(h, r1) ==> (VaryMatches(Stored(h, r1), r2) <==> Agree(VaryNames(h), r1, r2)) {
      MatchesIff(h, r1, r2);
    }
    if forall r2 :: VaryMatches(Stored(h, r1), r2) <==> Agree(VaryNames(h), r1, r2) {
      MatchesIff(h, r1, r1);
      assert Agree(VaryNames(h), r1, r1);
    }
  }

  /** From the lines of Vary: an entry whose response carried no stamp is selected for
      exactly the requests with the same value of every name between commas, on every line,
      whatever white space and letter case it is written with. */
  lemma SelectedIffSameValues(h: Header, r1: Header, r2: Header)
    requires forall k :: k in h ==> !IsVaried(k)
    ensures VaryMatches(Stored(h, r1), r2) <==>
      forall i: nat, p :: PieceOf(Lines(h, "vary"), i, p) && TrimSpace(p) != "" ==> Get(r1, TrimSpace(p)) == Get(r2, TrimSpace(p))
  {
    hide Split, Canonical, Stored, VaryMatches, CommaValues, TrimSpace, Lines;
    var names := VaryNames(h);
    forall name ensures VariedValue(h, Canonical(name)) == "" {
      VariedCanonical(name);
    }
    VaryRoundTrip(h, r1);
    forall name ensures Canonical(Canonical(name)) == Canonical(name) && (Canonical(name) == "" <==> name == "") {
      CanonicalStable(name);
      CanonicalFolds(name);
    }
    forall v ensures v in names <==> exists i: nat, p :: PieceOf(Lines(h, "vary"), i, p) && TrimSpace(p) == v {
      CommaValuesMembers(Lines(h, "vary"), v);
    }
  }

  const STAR := "*"

  lemma CanonicalStar()
    ensures Canonical(STAR) == STAR
  {
    assert STAR[1..] == "";
    assert Title(STAR, true) == ['*'] + Title("", false);
  }

  /** An asterisk in Vary is taken for a header name, where RFC 2616 section 13.6 has the
      entry selected for no request: it is selected for exactly those that agree on the
      other names and on a header called so. */
  lemma StarIsAName(h: Header, r1: Header, r2: Header)
    requires STAR in VaryNames(h) && Unstamped(h, r1)
    ensures VaryMatches(Stored(h, r1), r2) <==>
      Get(r1, STAR) == Get(r2, STAR) &&
      forall name :: name in VaryNames(h) && name != STAR && Canonical(name) != "" ==> Get(r1, Canonical(name)) == Get(r2, Canonical(name))
  {
    CanonicalStar();
    VaryRoundTrip(h, r1);
    assert Agree(VaryNames(h), r1, r2) ==> Get(r1, Canonical(STAR)) == Get(r2, Canonical(STAR));
  }

  /** So a response with Vary: * alone answers every request without such a header. */
  lemma StarSelectsAll(h: Header, r1: Header, r2: Header)
    requires Lines(h, "vary") == [STAR] && Unstamped(h, r1) && Get(r1, STAR) == "" && Get(r2, STAR) == ""
    ensures VaryMatches(Stored(h, r1), r2)
  {
    CommaValuesOne(STAR);
    SplitPlain(STAR, ',');
    assert "" + STAR + "" == STAR;
    TrimPadded("", STAR, "", WHITESPACE);
    assert VaryNames(h) == [STAR];
    StarIsAName(h, r1, r2);
  }

  lemma MergeKeepsStamps(stored: Header, update: Header, key: string)
    requires forall k :: k in update ==> !IsVaried(k)
    ensures VariedValue(Merge(stored, update), Canonical(key)) == VariedValue(stored, Canonical(key))
  {
    VariedCanonical(key);
  }

  /** Storing again for a matching request records what was recorded. */
  lemma RestampKeeps(stored: Header, merged: Header, names: seq<string>, sent: Header, name: string)
    requires name in names && Canonical(name) != "" && NameMatches(stored, sent, name)
    requires VariedValue(merged, Canonical(name)) == VariedValue(stored, Canonical(name))
    ensures VariedValue(Stamp(merged, names, sent), Canonical(name)) == VariedValue(stored, Canonical(name))
  {
    CanonicalStable(name);
    StampValue(merged, names, sent, Canonical(name));
  }

  /** A 304 that says nothing about Vary and carries no stamp leaves the selection
      as it was, once the merged entry is stored again for a matching request. */
  lemma RevalidationKeepsSelection(stored: Header, update: Header, sent: Header, req: Header)
    requires VaryMatches(stored, sent)
    requires Canonical("vary") !in update && forall k :: k in update ==> !IsVaried(k)
    ensures VaryMatches(Stored(Merge(stored, update), sent), req) <==> VaryMatches(stored, req)
  {
    var merged := Merge(stored, update);
    var names := VaryNames(stored);
    assert VaryNames(merged) == names;
    var final := Stored(merged, sent);
    StoredKeepsVary(merged, sent);
    forall i | 0 <= i < |names|
      ensures NameMatches(final, req, names[i]) <==> NameMatches(stored, req, names[i])
    {
      if Canonical(names[i]) != "" {
        MergeKeepsStamps(stored, update, names[i]);
        RestampKeeps(stored, merged, names, sent, names[i]);
      }
    }
  }
}
