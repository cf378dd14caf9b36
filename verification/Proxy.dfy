/** client/proxy.go: a wrapping uint32 ticket counter taken modulo the proxy count. */
module Proxy {
  import opened Options

  const TWO_32: nat := 0x1_0000_0000

  class RoundRobinProxy<T> {
    const proxyURLs: seq<T>
    var index: nat

    ghost predicate Valid()
      reads this
    {
      0 < |proxyURLs| < TWO_32 && index < TWO_32
    }

    constructor (urls: seq<T>)
      requires 0 < |urls| < TWO_32
      ensures Valid() && proxyURLs == urls && index == 0
    {
      proxyURLs := urls;
      index := 0;
    }

    /** One atomic increment: the caller's ticket is the value before it. */
    method GetProxy() returns (u: T)
      requires Valid()
      modifies this
      ensures Valid()
      ensures u == proxyURLs[Pick(|proxyURLs|, old(index), 0)]
      ensures index == (old(index) + 1) % TWO_32
    {
      index := (index + 1) % TWO_32;
      var ticket := (index + TWO_32 - 1) % TWO_32;
      assert ticket == old(index);
      u := proxyURLs[ticket % |proxyURLs|];
    }
  }

  /** What RoundRobinProxy returns: the proxies of the environment, nothing when a URL does
      not parse, or the rotation over the parsed URLs in their order. */
  datatype ProxyFunc<T> = FromEnvironment | Nothing | Rotation(proxy: RoundRobinProxy<T>)

  method MakeProxy<T(0)>(proxyURLs: seq<string>, parse: string -> Option<T>) returns (f: ProxyFunc<T>)
    requires |proxyURLs| < TWO_32
    ensures f.FromEnvironment? <==> proxyURLs == []
    ensures f.Nothing? <==> exists i :: 0 <= i < |proxyURLs| && parse(proxyURLs[i]).None?
    ensures f.Rotation? ==> fresh(f.proxy) && f.proxy.Valid() && f.proxy.index == 0 && |f.proxy.proxyURLs| == |proxyURLs|
    ensures f.Rotation? ==> forall i :: 0 <= i < |proxyURLs| ==> parse(proxyURLs[i]) == Some(f.proxy.proxyURLs[i])
  {
    if |proxyURLs| < 1 {
      return FromEnvironment;
    }
    var parsedProxyURLs := new T[|proxyURLs|];
    for i := 0 to |proxyURLs|
      invariant forall k :: 0 <= k < i ==> parse(proxyURLs[k]) == Some(parsedProxyURLs[k])
    {
      var parsedURL := parse(proxyURLs[i]);
      if parsedURL.None? {
        return Nothing;
      }
      parsedProxyURLs[i] := parsedURL.value;
    }
    var proxy := new RoundRobinProxy(parsedProxyURLs[..]);
    return Rotation(proxy);
  }

  /** The proxy of the caller that draws ticket number `start + i`, for any order in
      which concurrent callers draw. */
  function Pick(n: nat, start: nat, i: nat): (p: nat)
    requires n > 0
    ensures p < n
  {
    (start + i) % TWO_32 % n
  }

  /** How many of the `w` tickets from `start` on go to proxy `p`. */
  function Chosen(n: nat, start: nat, w: nat, p: nat): nat
    requires n > 0
  {
    if w == 0 then 0 else Chosen(n, start, w - 1, p) + if Pick(n, start, w - 1) == p then 1 else 0
  }

  function CeilDiv(w: nat, n: nat): nat
    requires n > 0
  {
    (w + n - 1) / n
  }

  /** Each proxy gets its share of a window, rounded down or up. */
  predicate Balanced(n: nat, start: nat, w: nat)
    requires n > 0
  {
    forall p :: 0 <= p < n ==> w / n <= Chosen(n, start, w, p) <= CeilDiv(w, n)
  }

  /** How many x < m have x % n == p. */
  function Below(n: nat, m: nat, p: nat): nat
    requires p < n
  {
    (m + n - 1 - p) / n
  }

  lemma TimesAtLeast(d: int, n: nat)
    requires d >= 1
    ensures d * n >= n
  {
    assert d * n == (d - 1) * n + n;
  }

  lemma TimesMinus(a: int, b: int, n: int)
    ensures (a - b) * n == a * n - b * n
  {
  }

  lemma TimesPlus(a: int, b: int, n: int)
    ensures (a + b) * n == a * n + b * n
  {
  }

  lemma DivUnique(x: nat, n: nat, q: nat, r: nat)
    requires n > 0 && x == q * n + r && r < n
    ensures x / n == q && x % n == r
  {
    var q', r' := x / n, x % n;
    assert x == q' * n + r';
    TimesMinus(q, q', n);
    TimesMinus(q', q, n);
    if q > q' {
      TimesAtLeast(q - q', n);
    } else if q < q' {
      TimesAtLeast(q' - q, n);
    }
  }

  lemma BelowStep(n: nat, m: nat, p: nat)
    requires p < n
    ensures Below(n, m + 1, p) == Below(n, m, p) + if m % n == p then 1 else 0
  {
    var q, r := m / n, m % n;
    assert m == q * n + r;
    TimesMinus(q, -1, n);
    // The two dividends m + n - p and m + n - 1 - p, written with quotient and remainder.
    if r >= p {
      DivUnique(m + n - p, n, q + 1, r - p);
    } else {
      DivUnique(m + n - p, n, q, n + r - p);
    }
    if r > p {
      DivUnique(m + n - 1 - p, n, q + 1, r - p - 1);
    } else {
      DivUnique(m + n - 1 - p, n, q, n + r - p - 1);
    }
  }

  /** Where the counter wraps without effect, the choice is the ticket modulo n. */
  predicate Plain(n: nat, start: nat, w: nat)
    requires n > 0
  {
    forall i :: 0 <= i < w ==> Pick(n, start, i) == (start + i) % n
  }

  lemma {:induction false} ChosenIsDifference(n: nat, start: nat, w: nat, p: nat)
    requires p < n && Plain(n, start, w)
    ensures Chosen(n, start, w, p) == Below(n, start + w, p) - Below(n, start, p)
  {
    if w > 0 {
      ChosenIsDifference(n, start, w - 1, p);
      BelowStep(n, start + w - 1, p);
    }
  }

  lemma CeilOfWindow(w: nat, n: nat)
    requires n > 0
    ensures CeilDiv(w, n) == w / n + if w % n == 0 then 0 else 1
  {
    var q, r := w / n, w % n;
    assert w == q * n + r;
    if r == 0 {
      DivUnique(w + n - 1, n, q, n - 1);
    } else {
      TimesMinus(q, -1, n);
      DivUnique(w + n - 1, n, q + 1, r - 1);
    }
  }

  lemma DivMod(x: nat, n: nat)
    requires n > 0
    ensures x == x / n * n + x % n
  {
  }

  lemma SumQuotient(y: nat, w: nat, n: nat, qy: nat, ry: nat, qw: nat, rw: nat)
    requires ry < n && rw < n && y == qy * n + ry && w == qw * n + rw
    ensures (y + w) / n == qy + qw + if ry + rw < n then 0 else 1
  {
    TimesPlus(qy, qw, n);
    if ry + rw < n {
      DivUnique(y + w, n, qy + qw, ry + rw);
    } else {
      TimesPlus(qy + qw, 1, n);
      DivUnique(y + w, n, qy + qw + 1, ry + rw - n);
    }
  }

  lemma DivOfSum(y: nat, w: nat, n: nat)
    requires n > 0
    ensures (y + w) / n == y / n + w / n + if y % n + w % n < n then 0 else 1
  {
    DivMod(y, n);
    DivMod(w, n);
    SumQuotient(y, w, n, y / n, y % n, w / n, w % n);
  }

  /** (y + w) / n exceeds y / n by w / n, rounded down or up. */
  lemma ShareOfWindow(y: nat, w: nat, n: nat)
    requires n > 0
    ensures w / n <= (y + w) / n - y / n <= CeilDiv(w, n)
  {
    CeilOfWindow(w, n);
    DivOfSum(y, w, n);
  }

  lemma PlainIsBalanced(n: nat, start: nat, w: nat)
    requires n > 0 && Plain(n, start, w)
    ensures Balanced(n, start, w)
  {
    forall p | 0 <= p < n ensures w / n <= Chosen(n, start, w, p) <= CeilDiv(w, n) {
      ChosenIsDifference(n, start, w, p);
      ShareOfWindow(start + n - 1 - p, w, n);
    }
  }

  /** A window of tickets that does not cross the wrap is balanced. */
  lemma NoWrapIsBalanced(n: nat, start: nat, w: nat)
    requires n > 0 && start + w <= TWO_32
    ensures Balanced(n, start, w)
  {
    forall i | 0 <= i < w ensures Pick(n, start, i) == (start + i) % n {
      assert (start + i) % TWO_32 == start + i;
    }
    PlainIsBalanced(n, start, w);
  }

  lemma ModMultiple(x: nat, n: nat)
    requires n > 0 && TWO_32 % n == 0
    ensures x % TWO_32 % n == x % n
  {
    var k := TWO_32 / n;
    assert TWO_32 == k * n;
    var q, r := x / TWO_32, x % TWO_32;
    var q1, r1 := r / n, r % n;
    assert x == q * TWO_32 + r && r == q1 * n + r1;
    assert q * TWO_32 == q * k * n;
    assert x == (q * k + q1) * n + r1;
    DivUnique(x, n, q * k + q1, r1);
  }

  /** The window that shows the imbalance: the last TWO_32 % n tickets, then one more. */
  lemma WrapImbalance(n: nat)
    requires 0 < n < TWO_32 && TWO_32 % n != 0
    ensures var r := TWO_32 % n; !Balanced(n, TWO_32 - r, r + 1)
  {
    var r := TWO_32 % n;
    var start := TWO_32 - r;
    assert start == TWO_32 / n * n;
    DivUnique(start, n, TWO_32 / n, 0);
    assert Pick(n, start, 0) == 0;
    assert Pick(n, start, r) == 0;
    ChosenAtLeastOne(n, start, r);
    assert Chosen(n, start, r + 1, 0) >= 2;
    assert r + 1 <= n;
    assert r + 1 + n - 1 == 1 * n + r;
    DivUnique(r + 1 + n - 1, n, 1, r);
  }

  lemma {:induction false} ChosenAtLeastOne(n: nat, start: nat, w: nat)
    requires n > 0 && w > 0 && Pick(n, start, 0) == 0
    ensures Chosen(n, start, w, 0) >= 1
  {
    if w > 1 {
      ChosenAtLeastOne(n, start, w - 1);
    } else {
      assert Chosen(n, start, 0, 0) == 0;
    }
  }

  /** Every window, wherever it starts and however often it wraps, is balanced exactly
      when the number of proxies divides 2^32; three proxies do not. */
  lemma BalancedIffDivides(n: nat)
    requires 0 < n < TWO_32
    ensures (forall start: nat, w: nat :: Balanced(n, start, w)) <==> TWO_32 % n == 0
    ensures n == 3 ==> !Balanced(n, TWO_32 - 1, 2)
  {
    if TWO_32 % n == 0 {
      forall start: nat, w: nat ensures Balanced(n, start, w) {
        forall i | 0 <= i < w ensures Pick(n, start, i) == (start + i) % n {
          ModMultiple(start + i, n);
        }
        PlainIsBalanced(n, start, w);
      }
    } else {
      WrapImbalance(n);
    }
  }
}
