/** The Cache-Control parser of cache/cache.go and the printer it undoes. */
module CacheControl {
  import opened Text
  import opened Headers

  type Directives = map<string, string>

  const SPACE: set<char> := {' '}

  /** The effect of one comma-free part of the header. */
  function AddPart(cc: Directives, raw: string): Directives {
    var part := Trim(raw, SPACE);
    if part == "" then cc
    else if '=' in part then
      SplitPieces(part, '=');
      var keyval := Split(part, '=');
      cc[Trim(keyval[0], SPACE) := Trim(keyval[1], {','})]
    else cc[part := ""]
  }

  function AddParts(parts: seq<string>): Directives {
    if parts == [] then map[] else AddPart(AddParts(parts[..|parts| - 1]), parts[|parts| - 1])
  }

  /** What the directives of a header are; only its first Cache-Control line is read. */
  function Parse(h: Header): Directives {
    AddParts(Split(Get(h, "Cache-Control"), ','))
  }

  method ParseCacheControl(headers: Header) returns (cc: Directives)
    ensures cc == Parse(headers)
  {
    cc := map[];
    var parts := Split(Get(headers, "Cache-Control"), ',');
    for i := 0 to |parts|
      invariant cc == AddParts(parts[..i])
    {
      assert parts[..i + 1][..i] == parts[..i];
      var part := Trim(parts[i], SPACE);
      if part == "" {
        continue;
      }
      if '=' in part {
        SplitPieces(part, '=');
        var keyval := Split(part, '=');
        cc := cc[Trim(keyval[0], SPACE) := Trim(keyval[1], {','})];
      } else {
        cc := cc[part := ""];
      }
    }
    assert parts[..|parts|] == parts;
  }

  // ----- printing -----

  /** One printed part: padding only, or a directive with padding around it and around
      its name; an empty value may be written with or without the equals sign. */
  datatype Item =
    | Blank(pad: string)
    | Directive(before: string, name: string, gap: string, value: string, equals: bool, after: string)

  predicate WellFormed(it: Item) {
    match it
    case Blank(pad) => Within(pad, SPACE)
    case Directive(before, name, gap, value, equals, after) =>
      && Within(before, SPACE) && Within(gap, SPACE) && Within(after, SPACE)
      && name != "" && Trimmed(name, SPACE) && ',' !in name && '=' !in name
      && ',' !in value && '=' !in value && (value != "" ==> value[|value| - 1] != ' ')
      && (value != "" ==> equals)
  }

  function Print(it: Item): string {
    match it
    case Blank(pad) => pad
    case Directive(before, name, gap, value, equals, after) =>
      before + (name + gap + (if equals then "=" + value else "")) + after
  }

  function PrintAll(items: seq<Item>): (texts: seq<string>)
    ensures |texts| == |items|
  {
    seq(|items|, i requires 0 <= i < |items| => Print(items[i]))
  }

  /** The map a list of parts stands for: the last duplicate wins. */
  function Meaning(items: seq<Item>): Directives {
    if items == [] then map[]
    else
      var rest := Meaning(items[..|items| - 1]);
      match items[|items| - 1]
      case Blank(_) => rest
      case Directive(_, name, _, value, _, _) => rest[name := value]
  }

  lemma TrimName(name: string, gap: string)
    requires Within(gap, SPACE) && Trimmed(name, SPACE)
    ensures Trim(name + gap, SPACE) == name
  {
    assert "" + name + gap == name + gap;
    TrimPadded("", name, gap, SPACE);
  }

  lemma AddEquals(cc: Directives, raw: string, name: string, gap: string, value: string)
    requires Within(gap, SPACE) && Trimmed(name, SPACE) && '=' !in name && '=' !in value && ',' !in value
    requires Trim(raw, SPACE) == (name + gap) + ['='] + value
    ensures AddPart(cc, raw) == cc[name := value]
  {
    var part := (name + gap) + ['='] + value;
    assert part[|name + gap|] == '=';
    SplitAppend(name + gap, value, '=');
    SplitPlain(name + gap, '=');
    SplitPlain(value, '=');
    assert Split(part, '=') == [name + gap, value];
    TrimName(name, gap);
    TrimComma(value);
  }

  /** A second equals sign ends the value: what follows it is dropped. */
  lemma ValueEndsAtEquals(cc: Directives, name: string, value: string, rest: string)
    requires name != "" && Trimmed(name, SPACE) && '=' !in name && '=' !in value && ',' !in value
    requires rest == "" || rest[|rest| - 1] != ' '
    ensures AddPart(cc, (name + ['='] + value) + ['='] + rest) == cc[name := value]
  {
    hide Split, Trim;
    var part := (name + ['='] + value) + ['='] + rest;
    assert part[|name|] == '=';
    TrimsNothing(name);
    assert part[0] == name[0] && part[|part| - 1] == if rest == "" then '=' else rest[|rest| - 1];
    TrimsNothing(part);
    SplitAppend(name + ['='] + value, rest, '=');
    SplitAppend(name, value, '=');
    SplitPlain(name, '=');
    SplitPlain(value, '=');
    assert Split(part, '=') == [name, value] + Split(rest, '=');
    TrimComma(value);
  }

  lemma TrimsNothing(s: string)
    requires s != "" && Trimmed(s, SPACE)
    ensures Trim(s, SPACE) == s
  {
    assert "" + s + "" == s;
    TrimPadded("", s, "", SPACE);
  }

  lemma AddPrinted(cc: Directives, it: Item)
    requires WellFormed(it)
    ensures AddPart(cc, Print(it)) ==
      match it case Blank(_) => cc case Directive(_, name, _, value, _, _) => cc[name := value]
  {
    match it
    case Blank(pad) =>
      assert pad + "" + "" == pad;
      TrimPadded(pad, "", "", SPACE);
    case Directive(before, name, gap, value, equals, after) =>
      if equals {
        var core := name + gap + ("=" + value);
        assert core == (name + gap) + ['='] + value;
        assert core[|core| - 1] == if value == "" then '=' else value[|value| - 1];
        TrimPadded(before, core, after, SPACE);
        AddEquals(cc, Print(it), name, gap, value);
      } else {
        assert Print(it) == before + name + (gap + after);
        TrimPadded(before, name, gap + after, SPACE);
      }
  }

  lemma TrimComma(value: string)
    requires ',' !in value
    ensures Trim(value, {','}) == value
  {
    assert "" + value + "" == value;
    TrimPadded("", value, "", {','});
  }

  lemma {:induction false} AddAllPrinted(items: seq<Item>)
    requires forall it :: it in items ==> WellFormed(it)
    ensures AddParts(PrintAll(items)) == Meaning(items)
  {
    if items != [] {
      var front := items[..|items| - 1];
      AddAllPrinted(front);
      assert PrintAll(items)[..|items| - 1] == PrintAll(front);
      AddPrinted(Meaning(front), items[|items| - 1]);
    }
  }

  lemma PrintHasNoComma(it: Item)
    requires WellFormed(it)
    ensures ',' !in Print(it)
  {
  }

  /** The parser undoes the printer: any spacing, empty parts, either spelling of an
      empty value, any order, the last duplicate winning. */
  lemma ParsePrint(h: Header, items: seq<Item>)
    requires forall it :: it in items ==> WellFormed(it)
    requires Get(h, "Cache-Control") == Join(PrintAll(items), ',')
    ensures Parse(h) == Meaning(items)
  {
    var texts := PrintAll(items);
    if items == [] {
      assert AddParts([""][..0]) == map[];
      assert Split("", ',') == [""];
      assert Trim("", SPACE) == "";
    } else {
      forall t | t in texts ensures ',' !in t {
        var i :| 0 <= i < |texts| && texts[i] == t;
        PrintHasNoComma(items[i]);
      }
      SplitJoin(texts, ',');
      AddAllPrinted(items);
    }
  }

  /** Every printing of the same map parses to that map, whatever the order. */
  lemma {:induction false} MeaningOfMap(items: seq<Item>, m: Directives)
    requires forall it :: it in items && it.Directive? ==> it.name in m && m[it.name] == it.value
    ensures forall k :: k in Meaning(items) ==> k in m && Meaning(items)[k] == m[k]
    ensures forall it :: it in items && it.Directive? ==> it.name in Meaning(items)
  {
    if items != [] {
      MeaningOfMap(items[..|items| - 1], m);
    }
  }

  lemma ParsePrintedMap(h: Header, items: seq<Item>, m: Directives)
    requires forall it :: it in items ==> WellFormed(it)
    requires forall it :: it in items && it.Directive? ==> it.name in m && m[it.name] == it.value
    requires forall k :: k in m ==> exists it :: it in items && it.Directive? && it.name == k
    requires Get(h, "Cache-Control") == Join(PrintAll(items), ',')
    ensures Parse(h) == m
  {
    ParsePrint(h, items);
    MeaningOfMap(items, m);
    forall k | k in m ensures k in Meaning(items) {
      var it :| it in items && it.Directive? && it.name == k;
    }
  }

  /** A header whose only directive is a word without a value. */
  lemma ParseWord(h: Header, word: string)
    requires Get(h, "Cache-Control") == word != "" && ',' !in word && '=' !in word && Trimmed(word, SPACE)
    ensures Parse(h) == map[word := ""]
  {
    SplitPlain(word, ',');
    assert "" + word + "" == word;
    TrimPadded("", word, "", SPACE);
    assert AddParts([word]) == AddPart(AddParts([]), word) by {
      assert [word][..0] == [];
    }
    assert AddPart(map[], word) == map[word := ""];
  }

  lemma ParseNothing(h: Header)
    requires Get(h, "Cache-Control") == ""
    ensures Parse(h) == map[]
  {
    assert AddParts([""]) == AddPart(AddParts([]), "") by {
      assert [""][..0] == [];
    }
    assert AddPart(map[], "") == map[];
  }

  // ----- no-store -----

  const CACHE_CONTROL := "Cache-Control"
  const NO_STORE := "no-store"

  /** The directive that a comma-separated piece names, the characters of `cut` around it
      not counted. */
  function NameOf(piece: string, cut: set<char>): string {
    Trim(Before(piece, '='), cut)
  }

  function Fold(s: string): (t: string)
    ensures |t| == |s|
  {
    seq(|s|, i requires 0 <= i < |s| => Lower(s[i]))
  }

  /** RFC 2616 sections 2.1, 4.2 and 14.9.2: in any line, in any case, with any white
      space around the name. */
  predicate SaysNoStore(h: Header) {
    exists v :: v in CommaValues(Lines(h, CACHE_CONTROL)) && Says(v)
  }

  predicate Says(piece: string) {
    Fold(NameOf(piece, WHITESPACE)) == NO_STORE
  }

  /** Lower case, with nothing but blanks around the name. */
  predicate Plain(piece: string) {
    NameOf(piece, SPACE) == NO_STORE
  }

  lemma SaysByPiece(h: Header)
    ensures SaysNoStore(h) <==> exists i: nat, p :: PieceOf(Lines(h, CACHE_CONTROL), i, p) && Says(p)
  {
    var lines := Lines(h, CACHE_CONTROL);
    forall p ensures Says(TrimSpace(p)) <==> Says(p) {
      TrimBefore(p, '=', WHITESPACE);
    }
    if v :| v in CommaValues(lines) && Says(v) {
      CommaValuesMembers(lines, v);
      var i: nat, p :| PieceOf(lines, i, p) && TrimSpace(p) == v;
      assert Says(p);
    }
    if i: nat, p :| PieceOf(lines, i, p) && Says(p) {
      CommaValuesMembers(lines, TrimSpace(p));
    }
  }

  lemma PlainSays(piece: string)
    requires Plain(piece)
    ensures Says(piece)
  {
    TrimMore(Before(piece, '='), SPACE, WHITESPACE);
    assert Fold(NO_STORE) == NO_STORE;
  }

  /** One piece puts no-store into the map exactly when it spells it plainly. */
  lemma AddsNoStore(cc: Directives, piece: string)
    ensures NO_STORE in AddPart(cc, piece) <==> NO_STORE in cc || Plain(piece)
  {
    var part := Trim(piece, SPACE);
    TrimBefore(piece, '=', SPACE);
    if part != "" && '=' !in part {
      BeforeAppend(part, "", '=');
      assert part + "" == part;
      TrimTwice(piece, SPACE);
    }
  }

  lemma {:induction false} ReadsNoStore(parts: seq<string>)
    ensures NO_STORE in AddParts(parts) <==> exists p :: p in parts && Plain(p)
  {
    if parts != [] {
      var front, last := parts[..|parts| - 1], parts[|parts| - 1];
      ReadsNoStore(front);
      AddsNoStore(AddParts(front), last);
      assert parts == front + [last];
    }
  }

  /** Every piece that says no-store is one the code does not read: not on the first line,
      or not in lower case with only blanks around it. */
  ghost predicate HiddenNoStore(h: Header) {
    forall i: nat, p :: PieceOf(Lines(h, CACHE_CONTROL), i, p) && Says(p) ==> i > 0 || !Plain(p)
  }

  /** The code never reads a no-store that nobody said, and misses one exactly when it is
      hidden. */
  lemma MissedNoStore(h: Header)
    ensures NO_STORE in Parse(h) ==> SaysNoStore(h)
    ensures SaysNoStore(h) && NO_STORE !in Parse(h) <==> SaysNoStore(h) && HiddenNoStore(h)
  {
    var parts, lines := Split(Get(h, CACHE_CONTROL), ','), Lines(h, CACHE_CONTROL);
    ReadsNoStore(parts);
    FirstLinePieces(h, CACHE_CONTROL);
    SaysByPiece(h);
    if p :| p in parts && Plain(p) {
      PlainSays(p);
      assert Before("", '=') == "" && Trim("", SPACE) == "";
      assert PieceOf(lines, 0, p);
    }
    if i: nat, p :| PieceOf(lines, i, p) && Says(p) && i == 0 && Plain(p) {
      assert p in parts;
    }
  }

  lemma NameOfWord(word: string, cut: set<char>)
    requires '=' !in word && Trimmed(word, cut)
    ensures NameOf(word, cut) == word
  {
    BeforeAppend(word, "", '=');
    assert word + "" == word && "" + word + "" == word;
    TrimPadded("", word, "", cut);
  }

  lemma PlainNoStore()
    ensures Says(NO_STORE) && Split(NO_STORE, ',') == [NO_STORE]
  {
    SplitPlain(NO_STORE, ',');
    NameOfWord(NO_STORE, SPACE);
    PlainSays(NO_STORE);
  }

  /** Inputs that show it: no-store on a second line, unless the first is read as saying it
      too, and in any other case. */
  lemma NoStoreOnASecondLine(h: Header, first: string)
    requires Lines(h, CACHE_CONTROL) == [first, NO_STORE] && NO_STORE !in Parse(map[Canonical(CACHE_CONTROL) := [first]])
    ensures SaysNoStore(h) && NO_STORE !in Parse(h)
  {
    hide Split, Plain, Says;
    PlainNoStore();
    assert PieceOf(Lines(h, CACHE_CONTROL), 1, NO_STORE);
    SaysByPiece(h);
    var alone: Header := map[Canonical(CACHE_CONTROL) := [first]];
    LaterLinesUnread(h, alone);
  }

  lemma FoldsToNoStore(word: string)
    requires Fold(word) == NO_STORE
    ensures ',' !in word && '=' !in word && Trimmed(word, SPACE) && Trimmed(word, WHITESPACE)
  {
    forall i | 0 <= i < |word| ensures Lower(word[i]) in NO_STORE {
      assert Fold(word)[i] == Lower(word[i]);
    }
    assert Fold(word)[0] == Lower(word[0]) == 'n' && Fold(word)[7] == Lower(word[7]) == 'e';
  }

  lemma NoStoreInAnotherCase(h: Header, word: string)
    requires Lines(h, CACHE_CONTROL) == [word] && Fold(word) == NO_STORE && word != NO_STORE
    ensures SaysNoStore(h) && NO_STORE !in Parse(h)
  {
    FoldsToNoStore(word);
    SplitPlain(word, ',');
    NameOfWord(word, SPACE);
    NameOfWord(word, WHITESPACE);
    hide Split, NameOf, Fold;
    assert PieceOf(Lines(h, CACHE_CONTROL), 0, word);
    SaysByPiece(h);
    assert [word][..0] == [];
    ReadsNoStore([word]);
  }

  /** What lies behind the first: the parser reads one line only, unlike the lists of
      section 4.2. */
  lemma LaterLinesUnread(a: Header, b: Header)
    requires Lines(a, CACHE_CONTROL) != [] && Lines(b, CACHE_CONTROL) != []
    requires Lines(a, CACHE_CONTROL)[0] == Lines(b, CACHE_CONTROL)[0]
    ensures Parse(a) == Parse(b)
  {
  }
}
