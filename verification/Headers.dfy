/** HTTP header maps: canonical names, first-value lookup, comma-separated value
    lists, and the selection of end-to-end headers (cache/cache.go). */
module Headers {
  import opened Text

  type Header = map<string, seq<string>>

  /** The characters of an HTTP token. */
  predicate TokenChar(c: char) {
    'a' <= c <= 'z' || 'A' <= c <= 'Z' || '0' <= c <= '9' || c in "!#$%&'*+-.^_`|~"
  }

  predicate IsToken(s: string) {
    forall i :: 0 <= i < |s| ==> TokenChar(s[i])
  }

  function Upper(c: char): char {
    if 'a' <= c <= 'z' then (c as int - 32) as char else c
  }

  function Lower(c: char): char {
    if 'A' <= c <= 'Z' then (c as int + 32) as char else c
  }

  /** Upper case at the start and after each hyphen, lower case elsewhere. */
  function Title(s: string, start: bool): (t: string)
    ensures |t| == |s|
  {
    if s == "" then ""
    else [if start then Upper(s[0]) else Lower(s[0])] + Title(s[1..], s[0] == '-')
  }

  /** http.CanonicalHeaderKey: anything that is not a token is left unchanged. */
  function Canonical(name: string): string {
    if IsToken(name) then Title(name, true) else name
  }

  lemma {:induction false} TitleStable(s: string, start: bool)
    requires IsToken(s)
    ensures IsToken(Title(s, start))
    ensures Title(Title(s, start), start) == Title(s, start)
  {
    if s != "" {
      var rest := s[1..];
      TitleStable(rest, s[0] == '-');
      var t := Title(s, start);
      assert t[1..] == Title(rest, s[0] == '-');
      assert t[0] == '-' <==> s[0] == '-';
    }
  }

  lemma CanonicalStable(name: string)
    ensures Canonical(Canonical(name)) == Canonical(name)
  {
    if IsToken(name) {
      TitleStable(name, true);
    }
  }

  /** Canonicalising changes nothing but the case of letters. */
  lemma CanonicalFolds(name: string)
    ensures |Canonical(name)| == |name|
    ensures forall i :: 0 <= i < |name| ==> Lower(Canonical(name)[i]) == Lower(name[i])
  {
    TitleFolds(name, true);
  }

  lemma {:induction false} TitleFolds(s: string, start: bool)
    ensures forall i :: 0 <= i < |s| ==> Lower(Title(s, start)[i]) == Lower(s[i])
  {
    if s != "" {
      TitleFolds(s[1..], s[0] == '-');
      var t := Title(s, start);
      forall i | 0 <= i < |s| ensures Lower(t[i]) == Lower(s[i]) {
        if i > 0 {
          assert t[i] == Title(s[1..], s[0] == '-')[i - 1] && s[i] == s[1..][i - 1];
        }
      }
    }
  }

  /** Two spellings of a token are the same header exactly when they differ in the case of
      letters only. */
  lemma CanonicalIgnoresCase(a: string, b: string)
    requires IsToken(a) && IsToken(b)
    ensures Canonical(a) == Canonical(b) <==> |a| == |b| && forall i :: 0 <= i < |a| ==> Lower(a[i]) == Lower(b[i])
  {
    CanonicalFolds(a);
    CanonicalFolds(b);
    if |a| == |b| && forall i :: 0 <= i < |a| ==> Lower(a[i]) == Lower(b[i]) {
      TitleIgnoresCase(a, b, true);
    }
  }

  lemma {:induction false} TitleIgnoresCase(a: string, b: string, start: bool)
    requires |a| == |b| && forall i :: 0 <= i < |a| ==> Lower(a[i]) == Lower(b[i])
    ensures Title(a, start) == Title(b, start)
  {
    if a != "" {
      TitleIgnoresCase(a[1..], b[1..], a[0] == '-');
    }
  }

  /** Header.Get: the first value stored under the canonical name, or "". */
  function Get(h: Header, name: string): string {
    var key := Canonical(name);
    if key in h && |h[key]| > 0 then h[key][0] else ""
  }

  /** Header.Set. */
  function Set(h: Header, name: string, value: string): Header {
    h[Canonical(name) := [value]]
  }

  function Lines(h: Header, name: string): seq<string> {
    if Canonical(name) in h then h[Canonical(name)] else []
  }

  /** Two names that differ in length or in the first letter are different headers. */
  predicate Apart(a: string, b: string) {
    |a| != |b| || (a != "" && Lower(a[0]) != Lower(b[0]))
  }

  lemma SetKeeps(h: Header, name: string, value: string, other: string)
    requires Apart(name, other)
    ensures Get(Set(h, name, value), other) == Get(h, other)
    ensures Lines(Set(h, name, value), other) == Lines(h, other)
    ensures Canonical(other) in Set(h, name, value) <==> Canonical(other) in h
  {
    CanonicalFolds(name);
    CanonicalFolds(other);
  }

  lemma SetGives(h: Header, name: string, value: string)
    ensures Get(Set(h, name, value), name) == value && Canonical(name) in Set(h, name, value)
  {
  }

  const X_VARIED: string := "X-Varied-"

  lemma {:induction false} TitleAppend(a: string, b: string, start: bool)
    requires a != ""
    ensures Title(a + b, start) == Title(a, start) + Title(b, a[|a| - 1] == '-')
  {
    assert (a + b)[1..] == a[1..] + b;
    if |a| > 1 {
      TitleAppend(a[1..], b, a[0] == '-');
    } else {
      assert a[1..] + b == b;
    }
  }

  /** Prefixing a canonical name with X-Varied- gives a canonical name. */
  lemma VariedCanonical(name: string)
    ensures Canonical(X_VARIED + Canonical(name)) == X_VARIED + Canonical(name)
  {
    var key := Canonical(name);
    CanonicalStable(name);
    var full := X_VARIED + key;
    assert full[|X_VARIED|..] == key;
    if IsToken(key) {
      forall i | 0 <= i < |full| ensures TokenChar(full[i]) {
        if i >= |X_VARIED| {
          assert full[i] == key[i - |X_VARIED|];
        }
      }
      VariedTitle();
      TitleAppend(X_VARIED, key, true);
    } else {
      var i :| 0 <= i < |key| && !TokenChar(key[i]);
      assert full[i + |X_VARIED|] == key[i];
    }
  }

  predicate Cased(c: char, start: bool) {
    c == if start then Upper(c) else Lower(c)
  }

  /** A character in its place keeps its case. */
  lemma TitleCons(c: char, rest: string, start: bool)
    requires Cased(c, start) && Title(rest, c == '-') == rest
    ensures Title([c] + rest, start) == [c] + rest
  {
    assert ([c] + rest)[1..] == rest;
  }

  lemma VariedTail()
    ensures Title("ied-", false) == "ied-"
  {
    TitleCons('-', "", false);
    TitleCons('d', "-", false);
    TitleCons('e', "d-", false);
    TitleCons('i', "ed-", false);
    assert ['-'] + "" == "-" && ['d'] + "-" == "d-" && ['e'] + "d-" == "ed-" && ['i'] + "ed-" == "ied-";
  }

  lemma VariedWord()
    ensures Title("Varied-", true) == "Varied-"
  {
    VariedTail();
    TitleCons('r', "ied-", false);
    TitleCons('a', "ried-", false);
    TitleCons('V', "aried-", true);
    assert ['r'] + "ied-" == "ried-" && ['a'] + "ried-" == "aried-" && ['V'] + "aried-" == "Varied-";
  }

  lemma VariedDash()
    ensures Title("-Varied-", false) == "-Varied-"
  {
    VariedWord();
    TitleCons('-', "Varied-", false);
    assert ['-'] + "Varied-" == "-Varied-";
  }

  lemma VariedLetters()
    ensures ['X'] + "-Varied-" == X_VARIED && Cased('X', true)
  {
  }

  lemma VariedTitle()
    ensures Title(X_VARIED, true) == X_VARIED
  {
    hide Title, Cased;
    VariedDash();
    VariedLetters();
    TitleCons('X', "-Varied-", true);
  }

  // ----- comma-separated values -----

  function TrimAll(fields: seq<string>): (r: seq<string>)
    ensures |r| == |fields|
  {
    seq(|fields|, i requires 0 <= i < |fields| => TrimSpace(fields[i]))
  }

  /** All comma-separated values of some header lines, trimmed, in order. */
  function CommaValues(lines: seq<string>): seq<string> {
    if lines == [] then []
    else CommaValues(lines[..|lines| - 1]) + TrimAll(Split(lines[|lines| - 1], ','))
  }

  method HeaderAllCommaSepValues(headers: Header, name: string) returns (vals: seq<string>)
    ensures vals == CommaValues(Lines(headers, name))
  {
    vals := [];
    var lines := Lines(headers, name);
    for i := 0 to |lines|
      invariant vals == CommaValues(lines[..i])
    {
      var fields := Split(lines[i], ',');
      ghost var pieces := fields;
      for j := 0 to |fields|
        invariant |fields| == |pieces|
        invariant forall k :: 0 <= k < j ==> fields[k] == TrimSpace(pieces[k])
        invariant forall k :: j <= k < |pieces| ==> fields[k] == pieces[k]
      {
        fields := fields[j := TrimSpace(fields[j])];
      }
      assert fields == TrimAll(pieces);
      assert lines[..i + 1][..i] == lines[..i];
      vals := vals + fields;
    }
    assert lines[..|lines|] == lines;
  }

  lemma {:induction false} CommaValuesAppend(a: seq<string>, b: seq<string>)
    ensures CommaValues(a + b) == CommaValues(a) + CommaValues(b)
    decreases b
  {
    if b == [] {
      assert a + b == a;
    } else {
      var front, last := b[..|b| - 1], b[|b| - 1];
      CommaValuesAppend(a, front);
      assert a + b == (a + front) + [last] && b == front + [last];
      CommaValuesLast(a + front, last);
      CommaValuesLast(front, last);
    }
  }

  lemma CommaValuesLast(lines: seq<string>, last: string)
    ensures CommaValues(lines + [last]) == CommaValues(lines) + TrimAll(Split(last, ','))
  {
    assert (lines + [last])[..|lines|] == lines;
  }

  lemma TrimAllAppend(a: seq<string>, b: seq<string>)
    ensures TrimAll(a + b) == TrimAll(a) + TrimAll(b)
  {
  }

  lemma CommaValuesOne(line: string)
    ensures CommaValues([line]) == TrimAll(Split(line, ','))
  {
    assert [line][..0] == [];
  }

  /** RFC 2616 section 4.2: several lines mean the same as one joined line. */
  lemma {:induction false} MultiLineLaw(lines: seq<string>)
    requires lines != []
    ensures CommaValues([Join(lines, ',')]) == CommaValues(lines)
  {
    if |lines| == 1 {
      assert lines == [lines[0]];
    } else {
      var rest := lines[1..];
      var joined := Join(rest, ',');
      SplitAppend(lines[0], joined, ',');
      CommaValuesOne(Join(lines, ','));
      TrimAllAppend(Split(lines[0], ','), Split(joined, ','));
      CommaValuesOne(lines[0]);
      CommaValuesOne(joined);
      MultiLineLaw(rest);
      assert lines == [lines[0]] + rest;
      CommaValuesAppend([lines[0]], rest);
    }
  }

  /** `p` is a comma-separated piece of line `i`. */
  predicate PieceOf(lines: seq<string>, i: nat, p: string) {
    i < |lines| && p in Split(lines[i], ',')
  }

  lemma TrimAllMembers(fields: seq<string>, v: string)
    ensures v in TrimAll(fields) <==> exists p :: p in fields && TrimSpace(p) == v
  {
    if v in TrimAll(fields) {
      var i :| 0 <= i < |fields| && TrimAll(fields)[i] == v;
      assert fields[i] in fields && TrimSpace(fields[i]) == v;
    }
    if p :| p in fields && TrimSpace(p) == v {
      var i :| 0 <= i < |fields| && fields[i] == p;
      assert TrimAll(fields)[i] == v;
    }
  }

  /** The values are the trimmed pieces of all lines. */
  lemma {:induction false} CommaValuesMembers(lines: seq<string>, v: string)
    ensures v in CommaValues(lines) <==> exists i: nat, p :: PieceOf(lines, i, p) && TrimSpace(p) == v
  {
    if lines != [] {
      var front, last := lines[..|lines| - 1], lines[|lines| - 1];
      CommaValuesMembers(front, v);
      TrimAllMembers(Split(last, ','), v);
      assert v in CommaValues(lines) <==> v in CommaValues(front) || v in TrimAll(Split(last, ','));
      if i: nat, p :| PieceOf(front, i, p) && TrimSpace(p) == v {
        assert PieceOf(lines, i, p);
      }
      if p :| p in Split(last, ',') && TrimSpace(p) == v {
        assert PieceOf(lines, |lines| - 1, p);
      }
      if i: nat, p :| PieceOf(lines, i, p) && TrimSpace(p) == v {
        assert i < |lines| - 1 ==> PieceOf(front, i, p);
      }
    }
  }

  // ----- end-to-end headers and the 304 merge -----

  const HOP_BY_HOP: set<string> := {"Connection", "Keep-Alive", "Proxy-Authenticate",
    "Proxy-Authorization", "Te", "Trailers", "Transfer-Encoding", "Upgrade"}

  /** One element of the Connection header names `key`: it is not trimmed before use. */
  predicate Names(extra: string, key: string) {
    Trim(extra, {' '}) != "" && Canonical(extra) == key
  }

  predicate ListedIn(extras: seq<string>, key: string) {
    exists i :: 0 <= i < |extras| && Names(extras[i], key)
  }

  predicate IsHopByHop(h: Header, key: string) {
    key in HOP_BY_HOP || ListedIn(Split(Get(h, "connection"), ','), key)
  }

  /** The names of `h` that are not hop-by-hop, each once, in some order. */
  method GetEndToEndHeaders(h: Header) returns (names: seq<string>)
    ensures forall k :: k in names <==> k in h && !IsHopByHop(h, k)
    ensures forall i, j :: 0 <= i < j < |names| ==> names[i] != names[j]
  {
    hide Split, Trim, Canonical;
    var hop := HOP_BY_HOP;
    var extras := Split(Get(h, "connection"), ',');
    for i := 0 to |extras|
      invariant forall k :: k in hop <==> k in HOP_BY_HOP || ListedIn(extras[..i], k)
    {
      if Trim(extras[i], {' '}) != "" {
        hop := hop + {Canonical(extras[i])};
      }
      ListedInNext(extras, i);
    }
    assert extras[..|extras|] == extras;
    names := [];
    var todo := h.Keys;
    while todo != {}
      invariant todo <= h.Keys
      invariant forall k :: k in names <==> k in h && k !in todo && !IsHopByHop(h, k)
      invariant forall i, j :: 0 <= i < j < |names| ==> names[i] != names[j]
      decreases todo
    {
      var k :| k in todo;
      todo := todo - {k};
      if k !in hop {
        names := names + [k];
      }
    }
  }

  lemma ListedInNext(extras: seq<string>, i: nat)
    requires i < |extras|
    ensures forall k :: ListedIn(extras[..i + 1], k) <==> ListedIn(extras[..i], k) || Names(extras[i], k)
  {
    var more, less := extras[..i + 1], extras[..i];
    assert more == less + [extras[i]];
    forall k
      ensures ListedIn(more, k) <==> ListedIn(less, k) || Names(extras[i], k)
    {
      assert Names(more[i], k) ==> ListedIn(more, k);
      if ListedIn(less, k) {
        var j :| 0 <= j < |less| && Names(less[j], k);
        assert Names(more[j], k);
      }
      if ListedIn(more, k) {
        var j :| 0 <= j < |more| && Names(more[j], k);
        assert j < i ==> Names(less[j], k);
      }
    }
  }

  /** The stored header after a 304: overridden by exactly the 304's end-to-end headers. */
  function Merge(cached: Header, update: Header): (merged: Header)
    ensures forall k :: k in update && !IsHopByHop(update, k) ==> k in merged && merged[k] == update[k]
    ensures forall k :: !(k in update && !IsHopByHop(update, k)) ==>
      (k in merged <==> k in cached) && (k in cached ==> merged[k] == cached[k])
  {
    map k | k in cached.Keys + update.Keys && (k in cached || !IsHopByHop(update, k)) ::
      if k in update && !IsHopByHop(update, k) then update[k] else cached[k]
  }

  /** A 304 without Connection overrides every header it has but these eight. */
  lemma FixedHopByHop(cached: Header, update: Header, key: string)
    requires Get(update, "connection") == ""
    ensures
      var taken := key in update && key !in {"Connection", "Keep-Alive", "Proxy-Authenticate", "Proxy-Authorization",
        "Te", "Trailers", "Transfer-Encoding", "Upgrade"};
      if taken then key in Merge(cached, update) && Merge(cached, update)[key] == update[key]
      else (key in Merge(cached, update) <==> key in cached) && (key in cached ==> Merge(cached, update)[key] == cached[key])
  {
    assert Split("", ',') == [""] && !Names("", key);
  }

  /** The update loop of a revalidation, run over any enumeration of the names. */
  method UpdateHeaders(cached: Header, update: Header) returns (merged: Header)
    ensures merged == Merge(cached, update)
  {
    var names := GetEndToEndHeaders(update);
    merged := cached;
    for i := 0 to |names|
      invariant forall k :: k in names[..i] ==> k in merged && merged[k] == update[k]
      invariant forall k :: k !in names[..i] ==> (k in merged <==> k in cached) && (k in merged ==> merged[k] == cached[k])
    {
      merged := merged[names[i] := update[names[i]]];
    }
    assert names[..|names|] == names;
    assert forall k :: k in merged <==> k in Merge(cached, update);
  }

  function MergeAll(cached: Header, updates: seq<Header>): Header {
    if updates == [] then cached
    else Merge(MergeAll(cached, updates[..|updates| - 1]), updates[|updates| - 1])
  }

  /** The index of the last true flag, or -1. */
  function LastTrue(flags: seq<bool>): (i: int)
    ensures -1 <= i < |flags|
    ensures i >= 0 ==> flags[i]
    ensures forall j :: i < j < |flags| ==> !flags[j]
  {
    if flags == [] then -1
    else if flags[|flags| - 1] then |flags| - 1
    else LastTrue(flags[..|flags| - 1])
  }

  /** Which updates carry `k` end to end. */
  function Carriers(updates: seq<Header>, k: string): (flags: seq<bool>)
    ensures |flags| == |updates|
  {
    seq(|updates|, i requires 0 <= i < |updates| => k in updates[i] && !IsHopByHop(updates[i], k))
  }

  /** After any number of revalidations each header has the value of the last 304
      that carried it end to end, and its stored value if none did. */
  lemma {:induction false} SuccessiveMerges(cached: Header, updates: seq<Header>, k: string)
    ensures var i := LastTrue(Carriers(updates, k));
      if i >= 0 then k in updates[i] && k in MergeAll(cached, updates) && MergeAll(cached, updates)[k] == updates[i][k]
      else (k in MergeAll(cached, updates) <==> k in cached) && (k in cached ==> MergeAll(cached, updates)[k] == cached[k])
  {
    if updates != [] {
      var front := updates[..|updates| - 1];
      SuccessiveMerges(cached, front, k);
      assert Carriers(updates, k)[..|updates| - 1] == Carriers(front, k);
    }
  }

  predicate ListedUnpadded(extras: seq<string>, key: string) {
    exists e :: e in extras && e != "" && IsToken(e) && Canonical(e) == key
  }

  lemma NamesOnlyUnpadded(extra: string, key: string)
    requires IsToken(key)
    ensures Names(extra, key) <==> extra != "" && IsToken(extra) && Canonical(extra) == key
  {
    if extra != "" && IsToken(extra) {
      assert "" + extra + "" == extra;
      assert !TokenChar(' ');
      TrimPadded("", extra, "", {' '});
    }
  }

  /** What the missing trim costs: a header name counts as hop-by-hop exactly when some
      element of Connection spells it with no space around it, so the name in
      "close, Foo" does not count and a 304 still overrides it. */
  lemma ConnectionNamesAreNotTrimmed(h: Header, key: string)
    requires IsToken(key)
    ensures IsHopByHop(h, key) <==> (key in HOP_BY_HOP || ListedUnpadded(Split(Get(h, "connection"), ','), key))
  {
    var extras := Split(Get(h, "connection"), ',');
    forall e | e in extras
      ensures Names(e, key) <==> e != "" && IsToken(e) && Canonical(e) == key
    {
      NamesOnlyUnpadded(e, key);
    }
    assert ListedIn(extras, key) <==> exists e :: e in extras && Names(e, key);
  }

  /** Connection as RFC 2616 section 14.10 means it: any line, white space around a name
      does not count. */
  predicate Lists(piece: string, key: string) {
    TrimSpace(piece) != "" && Canonical(TrimSpace(piece)) == key
  }

  predicate IsListed(h: Header, key: string) {
    exists v :: v in CommaValues(Lines(h, "connection")) && v != "" && Canonical(v) == key
  }

  lemma ListedByPiece(h: Header, key: string)
    ensures IsListed(h, key) <==> exists i: nat, p :: PieceOf(Lines(h, "connection"), i, p) && Lists(p, key)
  {
    var lines := Lines(h, "connection");
    if v :| v in CommaValues(lines) && v != "" && Canonical(v) == key {
      CommaValuesMembers(lines, v);
      var i: nat, p :| PieceOf(lines, i, p) && TrimSpace(p) == v;
      assert Lists(p, key);
    }
    if i: nat, p :| PieceOf(lines, i, p) && Lists(p, key) {
      CommaValuesMembers(lines, TrimSpace(p));
    }
  }

  lemma TokenIsNoSpace(c: char)
    requires TokenChar(c)
    ensures c !in WHITESPACE
  {
  }

  lemma TokenIsTrimmed(s: string)
    requires IsToken(s)
    ensures TrimSpace(s) == s
  {
    if s != "" {
      TokenIsNoSpace(s[0]);
      TokenIsNoSpace(s[|s| - 1]);
    }
    hide TokenChar, IsToken;
    assert "" + s + "" == s;
    TrimPadded("", s, "", WHITESPACE);
  }

  /** A name the code recognises is one the rule lists without white space around it. */
  lemma UnpaddedLists(p: string, key: string)
    requires IsToken(key)
    ensures p != "" && IsToken(p) && Canonical(p) == key <==> Lists(p, key) && TrimSpace(p) == p
  {
    if IsToken(p) {
      TokenIsTrimmed(p);
    }
  }

  lemma FirstLinePieces(h: Header, name: string)
    ensures forall p :: p in Split(Get(h, name), ',') && p != "" ==> PieceOf(Lines(h, name), 0, p)
    ensures forall p :: PieceOf(Lines(h, name), 0, p) ==> p in Split(Get(h, name), ',')
  {
    assert Split("", ',') == [""];
  }

  /** Exactly which names the code misses: those that Connection lists, but only on later
      lines or with white space around them. It never adds one. */
  lemma MissedHopByHop(h: Header, key: string)
    requires IsToken(key) && key !in HOP_BY_HOP
    ensures IsHopByHop(h, key) ==> IsListed(h, key)
    ensures IsListed(h, key) && !IsHopByHop(h, key) <==>
      IsListed(h, key) && forall i: nat, p :: PieceOf(Lines(h, "connection"), i, p) && Lists(p, key) ==> i > 0 || TrimSpace(p) != p
  {
    var extras, lines := Split(Get(h, "connection"), ','), Lines(h, "connection");
    ConnectionNamesAreNotTrimmed(h, key);
    ListedByPiece(h, key);
    FirstLinePieces(h, "connection");
    forall p ensures p != "" && IsToken(p) && Canonical(p) == key <==> Lists(p, key) && TrimSpace(p) == p {
      UnpaddedLists(p, key);
    }
    if e :| e in extras && e != "" && IsToken(e) && Canonical(e) == key {
      assert PieceOf(lines, 0, e) && Lists(e, key) && TrimSpace(e) == e;
    }
    if p :| PieceOf(lines, 0, p) && Lists(p, key) && TrimSpace(p) == p {
      assert p in extras && p != "" && IsToken(p) && Canonical(p) == key;
    }
  }

  /** The input that shows it, for every header name: after "close, " the name is listed,
      and yet a 304 overrides the stored header. */
  lemma ListedHeaderIsMerged(cached: Header, key: string, value: seq<string>)
    requires IsToken(key) && key != "" && Canonical(key) == key && key !in HOP_BY_HOP
    requires key != Canonical("connection") && key != Canonical("close")
    ensures var update := map[Canonical("connection") := ["close, " + key], key := value];
      IsListed(update, key) && key in Merge(cached, update) && Merge(cached, update)[key] == value
  {
    hide Split, Canonical, TrimSpace;
    var update := map[Canonical("connection") := ["close, " + key], key := value];
    var lines := Lines(update, "connection");
    CloseAnd(key);
    assert lines == ["close, " + key];
    assert PieceOf(lines, 0, " " + key) && Lists(" " + key, key);
    ListedByPiece(update, key);
    ConnectionNamesAreNotTrimmed(update, key);
  }

  lemma CloseAnd(key: string)
    requires IsToken(key)
    ensures Split("close, " + key, ',') == ["close", " " + key]
    ensures TrimSpace(" " + key) == key && !IsToken(" " + key)
  {
    hide IsToken, TrimSpace, Split;
    var padded := " " + key;
    PaddedToken(key);
    assert "close, " + key == "close" + [','] + padded;
    SplitAppend("close", padded, ',');
    SplitPlain("close", ',');
    SplitPlain(padded, ',');
  }

  lemma PaddedToken(key: string)
    requires IsToken(key)
    ensures TrimSpace(" " + key) == key && !IsToken(" " + key) && ',' !in key
  {
    assert !TokenChar(',');
    TokenIsTrimmed(key);
    assert " " + key == " " + key + "";
    TrimOuter(" ", key, "", WHITESPACE);
    assert !TokenChar((" " + key)[0]);
  }
}
