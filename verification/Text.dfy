/** The string operations the cache relies on: splitting at a separator, joining,
    and trimming a cutset, with the laws that relate them. */
module Text {

  /** The maximal separator-free pieces of `s`, in order; one piece more than separators. */
  function Split(s: string, sep: char): (parts: seq<string>)
    ensures |parts| > 0
  {
    if s == "" then [""]
    else
      var rest := Split(s[1..], sep);
      if s[0] == sep then [""] + rest else [[s[0]] + rest[0]] + rest[1..]
  }

  function Join(parts: seq<string>, sep: char): string {
    if parts == [] then ""
    else if |parts| == 1 then parts[0]
    else parts[0] + [sep] + Join(parts[1..], sep)
  }

  /** Splitting distributes over a separator. */
  lemma {:induction false} SplitAppend(a: string, b: string, sep: char)
    ensures Split(a + [sep] + b, sep) == Split(a, sep) + Split(b, sep)
  {
    var whole := a + [sep] + b;
    if a == "" {
      assert whole[1..] == b;
    } else {
      assert whole[1..] == a[1..] + [sep] + b;
      SplitAppend(a[1..], b, sep);
    }
  }

  lemma {:induction false} SplitPlain(s: string, sep: char)
    requires sep !in s
    ensures Split(s, sep) == [s]
  {
    if s != "" {
      SplitPlain(s[1..], sep);
      assert s == [s[0]] + s[1..];
    }
  }

  /** Joining separator-free pieces loses nothing. */
  lemma {:induction false} SplitJoin(parts: seq<string>, sep: char)
    requires parts != []
    requires forall p :: p in parts ==> sep !in p
    ensures Split(Join(parts, sep), sep) == parts
  {
    SplitPlain(parts[0], sep);
    if |parts| > 1 {
      SplitJoin(parts[1..], sep);
      SplitAppend(parts[0], Join(parts[1..], sep), sep);
    }
  }

  /** The pieces contain no separator. */
  lemma {:induction false} SplitPieces(s: string, sep: char)
    ensures forall p :: p in Split(s, sep) ==> sep !in p
    ensures |Split(s, sep)| == 1 <==> sep !in s
  {
    if s != "" {
      SplitPieces(s[1..], sep);
    }
  }

  function TrimLeft(s: string, cut: set<char>): string {
    if s != "" && s[0] in cut then TrimLeft(s[1..], cut) else s
  }

  function TrimRight(s: string, cut: set<char>): string {
    if s != "" && s[|s| - 1] in cut then TrimRight(s[..|s| - 1], cut) else s
  }

  /** `s` without the leading and trailing characters that belong to `cut`. */
  function Trim(s: string, cut: set<char>): string {
    TrimRight(TrimLeft(s, cut), cut)
  }

  predicate Within(s: string, cut: set<char>) {
    forall c :: c in s ==> c in cut
  }

  /** Neither end of `s` would be trimmed. */
  predicate Trimmed(s: string, cut: set<char>) {
    s == "" || (s[0] !in cut && s[|s| - 1] !in cut)
  }

  lemma {:induction false} TrimLeftPadded(pad: string, core: string, cut: set<char>)
    requires Within(pad, cut)
    ensures TrimLeft(pad + core, cut) == TrimLeft(core, cut)
  {
    if pad == "" {
      assert pad + core == core;
    } else {
      assert (pad + core)[1..] == pad[1..] + core;
      TrimLeftPadded(pad[1..], core, cut);
    }
  }

  lemma {:induction false} TrimRightPadded(core: string, pad: string, cut: set<char>)
    requires Within(pad, cut)
    ensures TrimRight(core + pad, cut) == TrimRight(core, cut)
    decreases pad
  {
    if pad == "" {
      assert core + pad == core;
    } else {
      var shorter := pad[..|pad| - 1];
      assert (core + pad)[..|core + pad| - 1] == core + shorter;
      TrimRightPadded(core, shorter, cut);
    }
  }

  /** Trimming recovers a trimmed core from any padding. */
  lemma {:induction false} TrimPadded(left: string, core: string, right: string, cut: set<char>)
    requires Within(left, cut) && Within(right, cut) && Trimmed(core, cut)
    ensures Trim(left + core + right, cut) == core
  {
    assert left + core + right == left + (core + right);
    TrimLeftPadded(left, core + right, cut);
    if core == "" {
      assert core + right == right + "";
      TrimLeftPadded(right, "", cut);
    } else {
      TrimRightPadded(core, right, cut);
    }
  }

  /** The part of `s` before the first `c`. */
  function Before(s: string, c: char): (b: string)
    ensures b == Split(s, c)[0]
  {
    if s == "" || s[0] == c then "" else [s[0]] + Before(s[1..], c)
  }

  lemma {:induction false} BeforeAppend(a: string, b: string, c: char)
    ensures Before(a + b, c) == if c in a then Before(a, c) else a + Before(b, c)
  {
    hide Split;
    if a == "" {
      assert a + b == b;
    } else {
      assert (a + b)[1..] == a[1..] + b;
      BeforeAppend(a[1..], b, c);
    }
  }

  /** What trimming takes away. */
  lemma {:induction false} TrimLeftParts(s: string, cut: set<char>) returns (pad: string)
    ensures s == pad + TrimLeft(s, cut) && Within(pad, cut)
    ensures TrimLeft(s, cut) == "" || TrimLeft(s, cut)[0] !in cut
  {
    pad := "";
    if s != "" && s[0] in cut {
      var rest := TrimLeftParts(s[1..], cut);
      pad := [s[0]] + rest;
    }
  }

  lemma {:induction false} TrimRightParts(s: string, cut: set<char>) returns (pad: string)
    ensures s == TrimRight(s, cut) + pad && Within(pad, cut)
    ensures TrimRight(s, cut) == "" || (TrimRight(s, cut)[|TrimRight(s, cut)| - 1] !in cut && TrimRight(s, cut)[0] == s[0])
    decreases s
  {
    pad := "";
    if s != "" && s[|s| - 1] in cut {
      var rest := TrimRightParts(s[..|s| - 1], cut);
      pad := rest + [s[|s| - 1]];
    }
  }

  lemma TrimParts(s: string, cut: set<char>) returns (left: string, right: string)
    ensures s == left + Trim(s, cut) + right && Within(left, cut) && Within(right, cut) && Trimmed(Trim(s, cut), cut)
  {
    left := TrimLeftParts(s, cut);
    right := TrimRightParts(TrimLeft(s, cut), cut);
  }

  /** Padding does not matter to a trim. */
  lemma TrimOuter(left: string, s: string, right: string, cut: set<char>)
    requires Within(left, cut) && Within(right, cut)
    ensures Trim(left + s + right, cut) == Trim(s, cut)
  {
    var l, r := TrimParts(s, cut);
    assert left + s + right == (left + l) + Trim(s, cut) + (r + right);
    TrimPadded(left + l, Trim(s, cut), r + right, cut);
  }

  /** Trimming first does not matter to the part before `c`, trimmed. */
  lemma TrimBefore(s: string, c: char, cut: set<char>)
    requires c !in cut
    ensures Trim(Before(Trim(s, cut), c), cut) == Trim(Before(s, c), cut)
  {
    hide Trim, Before;
    var l, r := TrimParts(s, cut);
    var core := Trim(s, cut);
    assert s == l + (core + r);
    BeforeAppend(l, core + r, c);
    BeforeAppend(core, r, c);
    BeforeAppend(core, "", c);
    BeforeAppend(r, "", c);
    assert core + "" == core && r + "" == r;
    if c in core {
      assert l + Before(core, c) == l + Before(core, c) + "";
      TrimOuter(l, Before(core, c), "", cut);
    } else {
      TrimOuter(l, core, r, cut);
    }
  }

  /** What is left by a smaller cutset, if a larger one would take nothing more. */
  lemma TrimMore(s: string, cut: set<char>, more: set<char>)
    requires cut <= more && Trimmed(Trim(s, cut), more)
    ensures Trim(s, more) == Trim(s, cut)
  {
    var l, r := TrimParts(s, cut);
    TrimPadded(l, Trim(s, cut), r, more);
  }

  lemma TrimTwice(s: string, cut: set<char>)
    ensures Trim(Trim(s, cut), cut) == Trim(s, cut)
  {
    var l, r := TrimParts(s, cut);
    var core := Trim(s, cut);
    assert "" + core + "" == core;
    TrimPadded("", core, "", cut);
  }

  /** The code points Go's unicode.IsSpace accepts. */
  const WHITESPACE: set<char> := {' ', '\t', '\n', '\U{0B}', '\U{0C}', '\r', '\U{85}', '\U{A0}',
    '\U{1680}', '\U{2000}', '\U{2001}', '\U{2002}', '\U{2003}', '\U{2004}', '\U{2005}', '\U{2006}',
    '\U{2007}', '\U{2008}', '\U{2009}', '\U{200A}', '\U{2028}', '\U{2029}', '\U{202F}', '\U{205F}', '\U{3000}'}

  function TrimSpace(s: string): string {
    Trim(s, WHITESPACE)
  }
}
