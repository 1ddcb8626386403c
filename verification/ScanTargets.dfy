/** CIDR expansion into scan targets (internal/scanner/scanner.go). */
module ScanTargets {
  import opened Wrappers

  datatype Family = V4 | V6

  /** A parsed prefix; the address need not be the first of the range. */
  datatype Prefix = Prefix(family: Family, addr: nat, bits: nat)

  datatype Target = Target(family: Family, addr: nat, port: int)

  datatype Error = InvalidCidr(k: nat) | PrivateBlocked(k: nat) | TooLarge(k: nat)

  datatype Result = Targets(targets: seq<Target>) | Failed(error: Error)

  function Pow2(n: nat): (p: nat)
    ensures p >= 1
  {
    if n == 0 then 1 else 2 * Pow2(n - 1)
  }

  lemma {:induction false} Pow2Add(m: nat, n: nat)
    ensures Pow2(m + n) == Pow2(m) * Pow2(n)
  {
    if m > 0 {
      Pow2Add(m - 1, n);
      MulAssoc(2, Pow2(m - 1), Pow2(n));
    }
  }

  lemma MulAssoc(a: nat, b: nat, c: nat)
    ensures a * (b * c) == (a * b) * c
  {
  }

  function Width(f: Family): nat {
    if f.V4? then 32 else 128
  }

  ghost predicate Valid(p: Prefix) {
    p.bits <= Width(p.family) && p.addr < Pow2(Width(p.family))
  }

  /** How many addresses the prefix spans. */
  function Span(p: Prefix): nat {
    if p.bits <= Width(p.family) then Pow2(Width(p.family) - p.bits) else 1
  }

  predicate Contains(p: Prefix, addr: nat) {
    Span(p) > 0 && addr / Span(p) == p.addr / Span(p)
  }

  function Masked(p: Prefix): nat {
    if Span(p) > 0 then p.addr / Span(p) * Span(p) else 0
  }

  /** The successor of an address; none after the last of its family. */
  function Next(f: Family, addr: nat): Option<nat> {
    if addr + 1 < Pow2(Width(f)) then Some(addr + 1) else None
  }

  // ----- private addresses -----

  const TWO8: nat := 0x100
  const TWO16: nat := 0x1_0000
  const TWO20: nat := 0x10_0000
  const TWO24: nat := 0x100_0000

  /** Section 3 of RFC 1918. */
  predicate IsPrivate4(a: nat) {
    a / TWO24 == 10 || a / TWO20 == 0xac1 || a / TWO16 == 0xc0a8
  }

  predicate IsLoopback4(a: nat) {
    a / TWO24 == 127
  }

  predicate IsLinkLocalUnicast4(a: nat) {
    a / TWO16 == 0xa9fe
  }

  predicate IsLinkLocalMulticast4(a: nat) {
    a / TWO8 == 0xe0_0000
  }

  /** private6 stands for the classification of IPv6 addresses. */
  predicate IsPrivateAddr(f: Family, a: nat, private6: nat -> bool) {
    if f.V4? then IsPrivate4(a) || IsLoopback4(a) || IsLinkLocalUnicast4(a) || IsLinkLocalMulticast4(a)
    else private6(a)
  }

  predicate Accepted(p: Prefix, allowPrivate: bool, private6: nat -> bool) {
    && (allowPrivate || !IsPrivateAddr(p.family, p.addr, private6))
    && !(p.family.V4? && p.bits < 16)
  }

  // ----- expansion -----

  function AtAddress(f: Family, addr: nat, ports: seq<int>): (ts: seq<Target>)
    ensures |ts| == |ports|
  {
    seq(|ports|, i requires 0 <= i < |ports| => Target(f, addr, ports[i]))
  }

  /** The targets of the first n addresses of the range. */
  function TargetsOf(p: Prefix, ports: seq<int>, n: nat): seq<Target> {
    if n == 0 then [] else TargetsOf(p, ports, n - 1) + AtAddress(p.family, Masked(p) + (n - 1), ports)
  }

  function AllTargets(cidrs: seq<Option<Prefix>>, ports: seq<int>, n: nat): seq<Target>
    requires n <= |cidrs|
  {
    if n == 0 then []
    else AllTargets(cidrs, ports, n - 1)
         + if cidrs[n - 1].Some? then TargetsOf(cidrs[n - 1].value, ports, Span(cidrs[n - 1].value)) else []
  }

  lemma RangeBounds(p: Prefix, addr: nat)
    requires Valid(p)
    ensures Contains(p, addr) <==> Masked(p) <= addr < Masked(p) + Span(p)
    ensures Masked(p) + Span(p) <= Pow2(Width(p.family))
  {
    var s, total, blocks := Span(p), Pow2(Width(p.family)), Pow2(p.bits);
    Blocks(p, s, total, blocks);
    BlockBounds(p.addr, addr, blocks, s, total);
  }

  lemma BlockBounds(base: nat, addr: nat, blocks: nat, s: nat, total: nat)
    requires s > 0 && blocks * s == total && base < total
    ensures addr / s == base / s <==> base / s * s <= addr < base / s * s + s
    ensures base / s * s + s <= total
  {
    DivBounds(addr, s, base / s);
    DivBelow(base, blocks, s, total);
  }

  lemma Blocks(p: Prefix, s: nat, total: nat, blocks: nat)
    requires Valid(p) && s == Span(p) && total == Pow2(Width(p.family)) && blocks == Pow2(p.bits)
    ensures blocks * s == total
  {
    Pow2Add(p.bits, Width(p.family) - p.bits);
  }

  lemma MulUp(a: nat, b: nat, s: nat)
    requires a <= b
    ensures a * s <= b * s
  {
  }

  lemma OneMore(q: nat, s: nat)
    ensures (q + 1) * s == q * s + s
  {
  }

  lemma DivBounds(a: nat, s: nat, q: nat)
    requires s > 0
    ensures a / s == q <==> q * s <= a < q * s + s
  {
    var r := a / s;
    assert r * s <= a < r * s + s;
    if r < q {
      MulUp(r + 1, q, s);
      OneMore(r, s);
    } else if r > q {
      MulUp(q + 1, r, s);
      OneMore(q, s);
    }
  }

  lemma DivBelow(a: nat, n: nat, s: nat, total: nat)
    requires s > 0 && n * s == total && a < total
    ensures a / s < n && a / s * s + s <= total
  {
    var q := a / s;
    DivBounds(a, s, q);
    if q >= n {
      MulUp(n, q, s);
    } else {
      OneMore(q, s);
      MulUp(q + 1, n, s);
    }
  }

  /** Why an entry is refused, checked in this order. None stands for a text that does not parse. */
  function Refusal(k: nat, entry: Option<Prefix>, allowPrivate: bool, private6: nat -> bool): (e: Option<Error>)
    ensures e.None? <==> entry.Some? && Accepted(entry.value, allowPrivate, private6)
    ensures e.Some? ==> e.value.k == k
    ensures e.Some? ==> (e.value.InvalidCidr? <==> entry.None?)
    ensures e.Some? ==> (e.value.PrivateBlocked? <==>
                           entry.Some? && !allowPrivate && IsPrivateAddr(entry.value.family, entry.value.addr, private6))
  {
    if entry.None? then Some(InvalidCidr(k))
    else if !allowPrivate && IsPrivateAddr(entry.value.family, entry.value.addr, private6) then Some(PrivateBlocked(k))
    else if entry.value.family.V4? && entry.value.bits < 16 then Some(TooLarge(k))
    else None
  }

  /** The first n entries are all accepted. */
  predicate NoneRefused(cidrs: seq<Option<Prefix>>, n: nat, allowPrivate: bool, private6: nat -> bool)
    requires n <= |cidrs|
  {
    forall k :: 0 <= k < n ==> Refusal(k, cidrs[k], allowPrivate, private6).None?
  }

  lemma OneMoreAccepted(cidrs: seq<Option<Prefix>>, n: nat, allowPrivate: bool, private6: nat -> bool)
    requires n < |cidrs| && NoneRefused(cidrs, n, allowPrivate, private6)
    requires Refusal(n, cidrs[n], allowPrivate, private6).None?
    ensures NoneRefused(cidrs, n + 1, allowPrivate, private6)
  {
  }

  /** All ranges expand, or the first refused entry is reported. */
  method ExpandTargets(cidrs: seq<Option<Prefix>>, ports: seq<int>, allowPrivate: bool, private6: nat -> bool) returns (r: Result)
    requires forall k :: 0 <= k < |cidrs| && cidrs[k].Some? ==> Valid(cidrs[k].value)
    ensures r.Targets? ==> NoneRefused(cidrs, |cidrs|, allowPrivate, private6)
    ensures r.Targets? ==> r.targets == AllTargets(cidrs, ports, |cidrs|)
    ensures r.Failed? ==> r.error.k < |cidrs| && Refusal(r.error.k, cidrs[r.error.k], allowPrivate, private6) == Some(r.error)
                          && NoneRefused(cidrs, r.error.k, allowPrivate, private6)
  {
    var targets := [];
    for i := 0 to |cidrs|
      invariant NoneRefused(cidrs, i, allowPrivate, private6)
      invariant targets == AllTargets(cidrs, ports, i)
    {
      var refusal := Refusal(i, cidrs[i], allowPrivate, private6);
      if refusal.Some? {
        return Failed(refusal.value);
      }
      OneMoreAccepted(cidrs, i, allowPrivate, private6);
      var here := ExpandPrefix(cidrs[i].value, ports);
      targets := targets + here;
    }
    r := Targets(targets);
  }

  /** The walk over a range stops at its last address, even when that is the last of all. */
  method ExpandPrefix(p: Prefix, ports: seq<int>) returns (targets: seq<Target>)
    requires Valid(p)
    ensures targets == TargetsOf(p, ports, Span(p))
  {
    targets := [];
    RangeBounds(p, Masked(p));
    var addr := Some(Masked(p));
    ghost var n: nat := 0;
    while addr.Some? && Contains(p, addr.value)
      invariant n <= Span(p) && targets == TargetsOf(p, ports, n)
      invariant addr == if Masked(p) + n < Pow2(Width(p.family)) then Some(Masked(p) + n) else None
      decreases Span(p) - n
    {
      RangeBounds(p, addr.value);
      for i := 0 to |ports|
        invariant targets == TargetsOf(p, ports, n) + AtAddress(p.family, addr.value, ports)[..i]
      {
        targets := targets + [Target(p.family, addr.value, ports[i])];
      }
      n := n + 1;
      addr := Next(p.family, addr.value);
    }
    if addr.Some? {
      RangeBounds(p, addr.value);
    }
    RangeBounds(p, Masked(p));
  }

  // ----- what a range expands to -----

  /** Targets come address by address, port by port: the k-th is known outright, so every
      address and port of the range appears, and at exactly one place per listed port. */
  lemma {:induction false} TargetAt(p: Prefix, ports: seq<int>, n: nat, k: nat)
    requires ports != [] && k < n * |ports|
    ensures |TargetsOf(p, ports, n)| == n * |ports|
    ensures TargetsOf(p, ports, n)[k] == Target(p.family, Masked(p) + k / |ports|, ports[k % |ports|])
  {
    var m := |ports|;
    TargetCount(p, ports, n);
    TargetCount(p, ports, n - 1);
    assert n * m == (n - 1) * m + m;
    if k < (n - 1) * m {
      TargetAt(p, ports, n - 1, k);
    } else {
      DivBounds(k, m, n - 1);
      assert k % m == k - (n - 1) * m;
      assert TargetsOf(p, ports, n)[k] == AtAddress(p.family, Masked(p) + (n - 1), ports)[k - (n - 1) * m];
    }
  }

  lemma {:induction false} TargetCount(p: Prefix, ports: seq<int>, n: nat)
    ensures |TargetsOf(p, ports, n)| == n * |ports|
  {
    if n > 0 {
      TargetCount(p, ports, n - 1);
      assert n * |ports| == (n - 1) * |ports| + |ports|;
    }
  }

  lemma Quotient(k: nat, n: nat, m: nat) returns (q: nat)
    requires m > 0 && k < n * m
    ensures q == k / m && q < n
  {
    q := k / m;
    DivBelow(k, n, m, n * m);
  }

  lemma OffsetInRange(p: Prefix, q: nat)
    requires Valid(p) && q < Span(p)
    ensures Contains(p, Masked(p) + q)
  {
    RangeBounds(p, Masked(p) + q);
  }

  lemma ListedIsInRange(p: Prefix, ports: seq<int>, t: Target)
    requires Valid(p) && t in TargetsOf(p, ports, Span(p))
    ensures t.family == p.family && Contains(p, t.addr) && t.port in ports
  {
    var n, m := Span(p), |ports|;
    TargetCount(p, ports, n);
    var k: nat :| k < n * m && TargetsOf(p, ports, n)[k] == t;
    TargetAt(p, ports, n, k);
    var q := Quotient(k, n, m);
    OffsetInRange(p, q);
  }

  lemma QuotientAndRest(i: nat, j: nat, m: nat, k: nat)
    requires j < m && k == i * m + j
    ensures k / m == i && k % m == j
  {
    DivBounds(k, m, i);
  }

  lemma SameQuotientAndRest(i: nat, k: nat, m: nat)
    requires m > 0 && i / m == k / m && i % m == k % m
    ensures i == k
  {
    assert i == i / m * m + i % m && k == k / m * m + k % m;
  }

  lemma InRangeIsListed(p: Prefix, ports: seq<int>, addr: nat, j: nat)
    requires Valid(p) && Contains(p, addr) && j < |ports|
    ensures Target(p.family, addr, ports[j]) in TargetsOf(p, ports, Span(p))
  {
    RangeBounds(p, addr);
    var i, m := addr - Masked(p), |ports|;
    OneMore(i, m);
    MulUp(i + 1, Span(p), m);
    var k := i * m + j;
    QuotientAndRest(i, j, m, k);
    TargetCount(p, ports, Span(p));
    TargetAt(p, ports, Span(p), k);
    assert TargetsOf(p, ports, Span(p))[k] == Target(p.family, addr, ports[j]);
  }

  /** A range expands to exactly its addresses, each with every port, two to the power of the
      free bits of them. */
  lemma ExpandsToTheRange(p: Prefix, ports: seq<int>, addr: nat, port: int)
    requires Valid(p)
    ensures Target(p.family, addr, port) in TargetsOf(p, ports, Span(p)) <==> Contains(p, addr) && port in ports
    ensures |TargetsOf(p, ports, Span(p))| == Pow2(Width(p.family) - p.bits) * |ports|
  {
    TargetCount(p, ports, Span(p));
    if Target(p.family, addr, port) in TargetsOf(p, ports, Span(p)) {
      ListedIsInRange(p, ports, Target(p.family, addr, port));
    }
    if Contains(p, addr) && port in ports {
      var j :| 0 <= j < |ports| && ports[j] == port;
      InRangeIsListed(p, ports, addr, j);
    }
  }

  /** With distinct ports no target appears twice. */
  lemma NoTargetTwice(p: Prefix, ports: seq<int>, i: nat, k: nat)
    requires Valid(p) && forall a, b :: 0 <= a < b < |ports| ==> ports[a] != ports[b]
    requires i < k < |TargetsOf(p, ports, Span(p))|
    ensures TargetsOf(p, ports, Span(p))[i] != TargetsOf(p, ports, Span(p))[k]
  {
    TargetCount(p, ports, Span(p));
    assert ports != [];
    TargetAt(p, ports, Span(p), i);
    TargetAt(p, ports, Span(p), k);
    if TargetsOf(p, ports, Span(p))[i] == TargetsOf(p, ports, Span(p))[k] {
      SameQuotientAndRest(i, k, |ports|);
    }
  }

  // ----- private ranges -----

  lemma DivDiv(a: nat, x: nat, y: nat, xy: nat)
    requires x > 0 && y > 0 && xy == x * y
    ensures xy > 0 && a / xy == a / x / y
  {
    var b := a / x;
    var q := b / y;
    DivBounds(b, y, q);
    DivBounds(a, x, b);
    MulUp(q * y, b, x);
    MulUp(b + 1, q * y + y, x);
    OneMore(b, x);
    MulThree(q, y, x);
    assert q * y * x == q * xy && (q * y + y) * x == q * xy + xy;
    MulUp(1, x, y);
    DivBounds(a, xy, q);
  }

  lemma MulThree(q: nat, y: nat, x: nat)
    ensures q * y * x == q * (x * y) && (q * y + y) * x == q * (x * y) + x * y
  {
  }

  /** Addresses of one range of at least 16 prefix bits agree on their first 16 bits. */
  lemma SameBlock(p: Prefix, addr: nat)
    requires p.family.V4? && 16 <= p.bits <= 32 && Contains(p, addr)
    ensures addr / TWO16 == p.addr / TWO16
  {
    var s, t := Span(p), Pow2(p.bits - 16);
    SixteenFree(32 - p.bits, p.bits - 16);
    DivDiv(addr, s, t, TWO16);
    DivDiv(p.addr, s, t, TWO16);
  }

  lemma SixteenFree(m: nat, n: nat)
    requires m + n == 16
    ensures Pow2(m) * Pow2(n) == TWO16
  {
    Pow2Add(m, n);
    Sixteen();
  }

  lemma Sixteen()
    ensures Pow2(16) == TWO16
  {
    Pow2Add(8, 8);
    Eight();
  }

  lemma SixteenBitsDecide(a: nat)
    ensures a / TWO24 == a / TWO16 / TWO8 && a / TWO20 == a / TWO16 / 16
  {
    DivDiv(a, TWO16, TWO8, TWO24);
    DivDiv(a, TWO16, 16, TWO20);
  }

  /** The check of one address covers the whole of an accepted range: with private ranges
      disallowed no target is private, loopback or link-local unicast. */
  lemma NoPrivateTarget(p: Prefix, ports: seq<int>, private6: nat -> bool, t: Target)
    requires Valid(p) && p.family.V4? && Accepted(p, false, private6)
    requires t in TargetsOf(p, ports, Span(p))
    ensures !IsPrivate4(t.addr) && !IsLoopback4(t.addr) && !IsLinkLocalUnicast4(t.addr)
  {
    TargetFamily(p, ports, Span(p), t);
    ExpandsToTheRange(p, ports, t.addr, t.port);
    SameBlock(p, t.addr);
    SixteenBitsDecide(t.addr);
    SixteenBitsDecide(p.addr);
  }

  lemma {:induction false} TargetFamily(p: Prefix, ports: seq<int>, n: nat, t: Target)
    requires t in TargetsOf(p, ports, n)
    ensures t == Target(p.family, t.addr, t.port)
  {
    if n > 0 && t in TargetsOf(p, ports, n - 1) {
      TargetFamily(p, ports, n - 1, t);
    }
  }

  /** The first address of the dotted form a.b.0.0. */
  function Dotted(a: nat, b: nat): nat {
    a * TWO24 + b * TWO16
  }

  /** The IPv4 addresses that count as private, by their ranges. */
  predicate InPrivateRange(a: nat) {
    || Dotted(10, 0) <= a < Dotted(11, 0)
    || Dotted(127, 0) <= a < Dotted(128, 0)
    || Dotted(169, 254) <= a < Dotted(169, 255)
    || Dotted(172, 16) <= a < Dotted(172, 32)
    || Dotted(192, 168) <= a < Dotted(192, 169)
    || Dotted(224, 0) <= a < Dotted(224, 0) + TWO8
  }

  /** An IPv4 range is accepted exactly when it has at least 16 prefix bits and, unless private
      ranges are allowed, the address given for it lies in none of the private ranges. */
  lemma AcceptedIff(p: Prefix, allowPrivate: bool, private6: nat -> bool)
    requires p.family.V4?
    ensures Accepted(p, allowPrivate, private6) <==> p.bits >= 16 && (allowPrivate || !InPrivateRange(p.addr))
  {
    DivBounds(p.addr, TWO24, 10);
    DivBounds(p.addr, TWO24, 127);
    DivBounds(p.addr, TWO20, 0xac1);
    DivBounds(p.addr, TWO16, 0xc0a8);
    DivBounds(p.addr, TWO16, 0xa9fe);
    DivBounds(p.addr, TWO8, 0xe0_0000);
  }

  /** The check does not cover the link-local multicast block, which is smaller than a /16: an
      accepted range expands to such addresses exactly when it has fewer than 24 prefix bits
      and holds 224.0.0.0. */
  lemma MulticastTargetIff(p: Prefix, ports: seq<int>, private6: nat -> bool)
    requires Valid(p) && p.family.V4? && Accepted(p, false, private6) && ports != []
    ensures (exists t :: t in TargetsOf(p, ports, Span(p)) && IsLinkLocalMulticast4(t.addr))
            <==> p.bits < 24 && Contains(p, 0xe0_0000 * TWO8)
  {
    if t :| t in TargetsOf(p, ports, Span(p)) && IsLinkLocalMulticast4(t.addr) {
      ListedIsInRange(p, ports, t);
      MulticastSpan(p, t.addr);
    }
    if p.bits < 24 && Contains(p, 0xe0_0000 * TWO8) {
      InRangeIsListed(p, ports, 0xe0_0000 * TWO8, 0);
      assert IsLinkLocalMulticast4(Target(p.family, 0xe0_0000 * TWO8, ports[0]).addr);
    }
  }

  lemma MulticastSpan(p: Prefix, addr: nat)
    requires p.family.V4? && 16 <= p.bits <= 32 && Contains(p, addr) && IsLinkLocalMulticast4(addr)
    requires !IsLinkLocalMulticast4(p.addr)
    ensures p.bits < 24 && Contains(p, 0xe0_0000 * TWO8)
  {
    var s := Span(p);
    if p.bits >= 24 {
      EightFree(32 - p.bits, p.bits - 24);
      DivDiv(addr, s, Pow2(p.bits - 24), TWO8);
      DivDiv(p.addr, s, Pow2(p.bits - 24), TWO8);
    } else {
      var t := Pow2(24 - p.bits);
      Pow2Add(8, 24 - p.bits);
      Eight();
      DivDiv(addr, TWO8, t, s);
      DivDiv(0xe0_0000 * TWO8, TWO8, t, s);
    }
  }

  lemma EightFree(m: nat, n: nat)
    requires m + n == 8
    ensures Pow2(m) * Pow2(n) == TWO8
  {
    Pow2Add(m, n);
    Eight();
  }

  lemma Eight()
    ensures Pow2(8) == TWO8
  {
  }
}
