/** Little-endian octets of unsigned integers, and 64-bit two's complement. */
module Octets {
  import opened Types

  const TWO_32: int := 0x1_0000_0000
  const TWO_64: int := 0x1_0000_0000_0000_0000

  function Pow256(n: nat): (p: nat)
    ensures p > 0
  {
    if n == 0 then 1 else 256 * Pow256(n - 1)
  }

  lemma Pow256Values()
    ensures Pow256(2) == 0x1_0000 && Pow256(4) == TWO_32 && Pow256(8) == TWO_64
  {}

  lemma LowAndHigh(low: nat, high: nat)
    requires low < 256
    ensures (low + 256 * high) % 256 == low && (low + 256 * high) / 256 == high
  {}

  /** The low `n` octets of `v`, least significant first. */
  function ToOctets(v: nat, n: nat): (s: Bytes)
    ensures |s| == n
    decreases n
  {
    if n == 0 then [] else [v % 256] + ToOctets(v / 256, n - 1)
  }

  function OfOctets(s: Bytes): (v: nat) {
    if |s| == 0 then 0 else s[0] + 256 * OfOctets(s[1..])
  }

  lemma {:induction false} OfToOctets(v: nat, n: nat)
    ensures OfOctets(ToOctets(v, n)) == v % Pow256(n)
  {
    if n > 0 {
      var s := ToOctets(v, n);
      assert s[1..] == ToOctets(v / 256, n - 1);
      OfToOctets(v / 256, n - 1);
      SplitModulus(v, Pow256(n - 1));
    }
  }

  lemma SplitModulus(v: nat, p: nat)
    requires p > 0
    ensures v % (256 * p) == v % 256 + 256 * ((v / 256) % p)
  {
    var q, r := v / 256, v % 256;
    var k, t := q / p, q % p;
    assert q == p * k + t;
    assert v == 256 * (p * k + t) + r;
    assert 256 * (p * k) == (256 * p) * k;
    RemainderUnique(v, 256 * p, k, 256 * t + r);
  }

  lemma RemainderUnique(v: int, d: int, k: int, r: int)
    requires d > 0 && v == d * k + r && 0 <= r < d
    ensures v % d == r
  {
    var q, m := v / d, v % d;
    assert v == d * q + m && 0 <= m < d;
    assert d * (q - k) == d * q - d * k;
    MultipleBelow(d, q - k, r - m);
  }

  lemma MultipleBelow(d: int, n: int, x: int)
    requires d > 0 && -d < x < d && d * n == x
    ensures n == 0
  {}

  lemma {:induction false} OfOctetsBound(s: Bytes)
    ensures OfOctets(s) < Pow256(|s|)
  {
    if |s| > 0 { OfOctetsBound(s[1..]); }
  }

  lemma {:induction false} ToOfOctets(s: Bytes)
    ensures ToOctets(OfOctets(s), |s|) == s
  {
    if |s| > 0 {
      ToOfOctets(s[1..]);
      LowAndHigh(s[0], OfOctets(s[1..]));
    }
  }

  /** Different octets of one length are different numbers. */
  lemma OfOctetsInjective(s: Bytes, t: Bytes)
    requires |s| == |t| && OfOctets(s) == OfOctets(t)
    ensures s == t
  {
    ToOfOctets(s);
    ToOfOctets(t);
  }

  lemma {:induction false} OfOctetsPush(s: Bytes, b: u8)
    ensures OfOctets(s + [b]) == OfOctets(s) + Pow256(|s|) * b
  {
    if |s| == 0 {
      assert s + [b] == [b];
    } else {
      assert (s + [b])[1..] == s[1..] + [b];
      OfOctetsPush(s[1..], b);
      Scale(OfOctets(s[1..]), Pow256(|s| - 1), b);
    }
  }

  lemma Scale(v: int, p: int, b: int)
    ensures 256 * (v + p * b) == 256 * v + 256 * p * b
  {}

  lemma {:induction false} ToOctetsPush(v: nat, n: nat, rest: nat)
    requires rest == Shift(v, n)
    ensures ToOctets(v, n + 1) == ToOctets(v, n) + [rest % 256]
    ensures Shift(v, n + 1) == rest / 256
    decreases n
  {
    if n > 0 { ToOctetsPush(v / 256, n - 1, rest); }
  }

  /** `v` shifted right by `n` octets. */
  function Shift(v: nat, n: nat): nat
    decreases n
  {
    if n == 0 then v else Shift(v / 256, n - 1)
  }

  // ---- fixed widths ---------------------------------------------------------------------

  lemma U32RoundTrip(v: u32)
    ensures OfOctets(ToOctets(v, 4)) == v
  {
    OfToOctets(v, 4);
    Pow256Values();
  }

  lemma U64RoundTrip(v: u64)
    ensures OfOctets(ToOctets(v, 8)) == v
  {
    OfToOctets(v, 8);
    Pow256Values();
  }

  lemma U16RoundTrip(v: nat)
    requires v < 0x1_0000
    ensures OfOctets(ToOctets(v, 2)) == v
  {
    OfToOctets(v, 2);
    Pow256Values();
  }

  lemma OctetsBelow(s: Bytes)
    ensures |s| == 4 ==> OfOctets(s) < TWO_32
    ensures |s| == 8 ==> OfOctets(s) < TWO_64
  {
    OfOctetsBound(s);
    Pow256Values();
  }

  /** The unsigned representation of a signed 64-bit value. */
  function Unsigned(v: i64): (u: u64)
    ensures Wrap(u) == v
  {
    v % TWO_64
  }

  lemma UnsignedOfWrap(u: u64)
    ensures Unsigned(Wrap(u)) == u
  {}
}
