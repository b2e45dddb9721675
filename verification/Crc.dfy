/** CRC-32 with the reflected polynomial 0xEDB88320, and the errors it is certain to detect. */
module Crc {
  import opened Types

  const POLYNOMIAL: bv32 := 0xEDB88320

  /** One bit of the register. */
  function Shift1(c: bv32): bv32 {
    (c >> 1) ^ (POLYNOMIAL & !((c & 1) - 1))
  }

  function Mix(a: bv32, b: bv32): bv32 { a ^ b }

  function Pick(bit: bool, mask: bv32): bv32 { if bit then mask else 0 }

  /** The low `n` bits of a number, lowest first. */
  function Bits(x: nat, n: nat): (bits: seq<bool>)
    ensures |bits| == n
    decreases n
  {
    if n == 0 then [] else [x % 2 == 1] + Bits(x / 2, n - 1)
  }

  const OCTET_BITS: nat := 8

  function Octet(b: u8): seq<bool> {
    Bits(b, OCTET_BITS)
  }

  /** One bit more at the low end. */
  function Push(w: bv32, bit: bool): bv32 { (w << 1) | Pick(bit, 1) }

  /** A shift register: the bit step, the mixing of two values, and how a word is built from bits. The argument
  below is about any register that obeys a few laws. */
  datatype Register<!R> = Register(shift: R -> R, mix: (R, R) -> R, zero: R, push: (R, bool) -> R)
  {
    function Shift(c: R, n: nat): R
      decreases n
    {
      if n == 0 then c else Shift(shift(c), n - 1)
    }

    /** Bits in the low end of the register, the first of them lowest. */
    function Word(bits: seq<bool>): R {
      if |bits| == 0 then zero else push(Word(bits[1..]), bits[0])
    }

    function Absorb(c: R, b: u8): R {
      Shift(mix(c, Word(Octet(b))), OCTET_BITS)
    }

    function Fold(c: R, data: Bytes): R {
      if |data| == 0 then c else Absorb(Fold(c, data[..|data| - 1]), data[|data| - 1])
    }

    function FeedBit(c: R, bit: bool): R {
      shift(mix(c, push(zero, bit)))
    }

    /** One bit after the other. */
    function Feed(c: R, bits: seq<bool>): R
      decreases |bits|
    {
      if |bits| == 0 then c else Feed(FeedBit(c, bits[0]), bits[1..])
    }
  }

  const CRC: Register<bv32> := Register(Shift1, Mix, 0, Push)
  const ALL_ONES: bv32 := 0xFFFF_FFFF

  function Crc32(data: Bytes): bv32 {
    !CRC.Fold(ALL_ONES, data)
  }

  method ComputeCrc32(data: Bytes) returns (r: bv32)
    ensures r == Crc32(data)
  {
    var crc := ALL_ONES;
    for i := 0 to |data|
      invariant crc == CRC.Fold(ALL_ONES, data[..i])
    {
      assert data[..i + 1][..i] == data[..i];
      crc := AbsorbOctet(crc, data[i]);
    }
    assert data[..|data|] == data;
    return !crc;
  }

  method AbsorbOctet(before: bv32, b: u8) returns (crc: bv32)
    ensures crc == CRC.Absorb(before, b)
  {
    crc := Mix(before, CRC.Word(Octet(b)));
    for bit := 0 to OCTET_BITS
      invariant CRC.Shift(crc, OCTET_BITS - bit) == CRC.Absorb(before, b)
    {
      crc := Shift1(crc);
    }
  }

  // ---- the laws -------------------------------------------------------------------------

  /** The width of the register. */
  const WIDTH: nat := 32

  /** Each bit step and each mixing can be undone. */
  ghost predicate Reversible<R(!new)>(m: Register<R>) {
    && (forall a, b :: m.shift(a) == m.shift(b) ==> a == b)
    && (forall a, b, x :: m.mix(a, x) == m.mix(b, x) ==> a == b)
  }

  /** A word of `n` bits, fewer than the register has, takes one bit more: the two are shifted like that bit,
  with the word mixed in after it. */
  predicate Splits<R(==)>(m: Register<R>, c: R, w: R, bit: bool) {
    m.shift(m.mix(c, m.push(w, bit))) == m.mix(m.FeedBit(c, bit), w)
  }

  /** It then is a word of one bit more. */
  predicate Grows<R>(m: Register<R>, fits: (R, nat) -> bool, w: R, n: nat, bit: bool) {
    fits(w, n) ==> fits(m.push(w, bit), n + 1)
  }

  ghost predicate Serial<R(!new)>(m: Register<R>, fits: (R, nat) -> bool) {
    && fits(m.zero, 0) && (forall c :: m.mix(c, m.zero) == c)
    && (forall w, n: nat, bit :: n < WIDTH ==> Grows(m, fits, w, n, bit))
    && (forall c, w, n: nat, bit :: n < WIDTH && fits(w, n) ==> Splits(m, c, w, bit))
  }

  predicate PushTold<R(==)>(m: Register<R>, w: R, v: R, a: bool, b: bool) {
    m.push(w, a) == m.push(v, b) ==> w == v && a == b
  }

  /** ... and the two can be told from what they make. */
  ghost predicate Telling<R(!new)>(m: Register<R>, fits: (R, nat) -> bool) {
    && (forall c, w, v :: m.mix(c, w) == m.mix(c, v) ==> w == v)
    && (forall w, v, n: nat, a, b :: n < WIDTH && fits(w, n) && fits(v, n) ==> PushTold(m, w, v, a, b))
  }

  // ---- any such register ----------------------------------------------------------------

  lemma {:induction false} ShiftInjective<R(!new)>(m: Register<R>, a: R, b: R, n: nat)
    requires Reversible(m) && m.Shift(a, n) == m.Shift(b, n)
    ensures a == b
    decreases n
  {
    if n > 0 { ShiftInjective(m, m.shift(a), m.shift(b), n - 1); }
  }

  /** The state after any suffix tells the states before it apart. */
  lemma {:induction false} FeedInjective<R(!new)>(m: Register<R>, a: R, b: R, bits: seq<bool>)
    requires Reversible(m) && m.Feed(a, bits) == m.Feed(b, bits)
    ensures a == b
    decreases |bits|
  {
    if |bits| > 0 { FeedInjective(m, m.FeedBit(a, bits[0]), m.FeedBit(b, bits[0]), bits[1..]); }
  }

  lemma {:induction false} FeedConcat<R>(m: Register<R>, c: R, u: seq<bool>, v: seq<bool>)
    ensures m.Feed(c, u + v) == m.Feed(m.Feed(c, u), v)
    decreases |u|
  {
    if |u| == 0 {
      assert u + v == v;
    } else {
      assert (u + v)[0] == u[0] && (u + v)[1..] == u[1..] + v;
      FeedConcat(m, m.FeedBit(c, u[0]), u[1..], v);
    }
  }

  lemma {:induction false} WordFits<R(!new)>(m: Register<R>, fits: (R, nat) -> bool, bits: seq<bool>)
    requires Serial(m, fits) && |bits| <= WIDTH
    ensures fits(m.Word(bits), |bits|)
  {
    if |bits| > 0 {
      WordFits(m, fits, bits[1..]);
      assert Grows(m, fits, m.Word(bits[1..]), |bits| - 1, bits[0]);
    }
  }

  /** Feeding bits one by one is mixing their word in and shifting. */
  lemma {:induction false} FeedWord<R(!new)>(m: Register<R>, fits: (R, nat) -> bool, c: R, bits: seq<bool>)
    requires Serial(m, fits) && |bits| <= WIDTH
    ensures m.Feed(c, bits) == m.Shift(m.mix(c, m.Word(bits)), |bits|)
    decreases |bits|
  {
    if |bits| > 0 {
      WordFits(m, fits, bits[1..]);
      assert Splits(m, c, m.Word(bits[1..]), bits[0]);
      FeedWord(m, fits, m.FeedBit(c, bits[0]), bits[1..]);
    }
  }

  lemma {:induction false} WordTells<R(!new)>(m: Register<R>, fits: (R, nat) -> bool, u: seq<bool>, v: seq<bool>)
    requires Serial(m, fits) && Telling(m, fits) && |u| == |v| <= WIDTH && m.Word(u) == m.Word(v)
    ensures u == v
  {
    if |u| > 0 {
      WordFits(m, fits, u[1..]);
      WordFits(m, fits, v[1..]);
      assert PushTold(m, m.Word(u[1..]), m.Word(v[1..]), u[0], v[0]);
      WordTells(m, fits, u[1..], v[1..]);
      assert u == [u[0]] + u[1..] && v == [v[0]] + v[1..];
    }
  }

  /** What each spells, one after the other. */
  function Spell<T, U>(xs: seq<T>, spell: T -> seq<U>): seq<U> {
    if |xs| == 0 then [] else Spell(xs[..|xs| - 1], spell) + spell(xs[|xs| - 1])
  }

  lemma {:induction false} SpellWidth<T(!new), U>(xs: seq<T>, spell: T -> seq<U>, width: nat)
    requires forall x :: |spell(x)| == width
    ensures |Spell(xs, spell)| == width * |xs|
  {
    if |xs| > 0 { SpellWidth(xs[..|xs| - 1], spell, width); }
  }

  lemma {:induction false} SpellConcat<T, U>(xs: seq<T>, ys: seq<T>, spell: T -> seq<U>)
    ensures Spell(xs + ys, spell) == Spell(xs, spell) + Spell(ys, spell)
  {
    if |ys| == 0 {
      assert xs + ys == xs;
    } else {
      var n := |ys| - 1;
      assert (xs + ys)[..|xs| + n] == xs + ys[..n] && (xs + ys)[|xs| + n] == ys[n];
      SpellConcat(xs, ys[..n], spell);
    }
  }

  lemma {:induction false} SpellTells<T(!new), U>(xs: seq<T>, ys: seq<T>, spell: T -> seq<U>, width: nat)
    requires forall x :: |spell(x)| == width
    requires forall x, y :: spell(x) == spell(y) ==> x == y
    requires |xs| == |ys| && Spell(xs, spell) == Spell(ys, spell)
    ensures xs == ys
  {
    if |xs| > 0 {
      var n := |xs| - 1;
      SpellWidth(xs[..n], spell, width);
      SpellWidth(ys[..n], spell, width);
      SameHalves(Spell(xs[..n], spell), spell(xs[n]), Spell(ys[..n], spell), spell(ys[n]));
      SpellTells(xs[..n], ys[..n], spell, width);
      assert xs == xs[..n] + [xs[n]] && ys == ys[..n] + [ys[n]];
    }
  }

  lemma SameHalves<T>(a: seq<T>, b: seq<T>, c: seq<T>, d: seq<T>)
    requires |a| == |c| && a + b == c + d
    ensures a == c && b == d
  {
    assert a == (a + b)[..|a|] && b == (a + b)[|a|..];
    assert c == (c + d)[..|a|] && d == (c + d)[|a|..];
  }

  /** The bits of the data in the order in which they enter: octet by octet, the lowest first. */
  function DataBits(data: Bytes): (bits: seq<bool>)
    ensures |bits| == OCTET_BITS * |data|
  {
    SpellWidth(data, Octet, OCTET_BITS);
    Spell(data, Octet)
  }

  /** Octets absorbed whole are their bits fed one by one. */
  lemma {:induction false} FoldIsFeed<R(!new)>(m: Register<R>, fits: (R, nat) -> bool, c: R, data: Bytes)
    requires Serial(m, fits)
    ensures m.Fold(c, data) == m.Feed(c, DataBits(data))
  {
    if |data| > 0 {
      var before, bits := data[..|data| - 1], Octet(data[|data| - 1]);
      FoldIsFeed(m, fits, c, before);
      FeedWord(m, fits, m.Fold(c, before), bits);
      FeedConcat(m, c, DataBits(before), bits);
    }
  }

  lemma MiddleTold<R(!new)>(m: Register<R>, fits: (R, nat) -> bool, c: R,
                            before: seq<bool>, u: seq<bool>, v: seq<bool>, after: seq<bool>)
    requires Reversible(m) && Serial(m, fits) && Telling(m, fits) && |u| == |v| <= WIDTH
    requires m.Feed(c, before + u + after) == m.Feed(c, before + v + after)
    ensures u == v
  {
    var d := m.Feed(c, before);
    FeedConcat(m, c, before + u, after);
    FeedConcat(m, c, before, u);
    FeedConcat(m, c, before + v, after);
    FeedConcat(m, c, before, v);
    FeedInjective(m, m.Feed(d, u), m.Feed(d, v), after);
    FeedWord(m, fits, d, u);
    FeedWord(m, fits, d, v);
    ShiftInjective(m, m.mix(d, m.Word(u)), m.mix(d, m.Word(v)), |u|);
    WordTells(m, fits, u, v);
  }

  /** Bits of one length that agree but for at most a register's width of them from the `i`th on. */
  predicate SameOutside(a: seq<bool>, b: seq<bool>, i: nat) {
    |a| == |b| && forall j :: 0 <= j < |a| && !(i <= j < i + WIDTH) ==> a[j] == b[j]
  }

  /** They leave the register in different states. */
  lemma WindowTold<R(!new)>(m: Register<R>, fits: (R, nat) -> bool, c: R, a: seq<bool>, b: seq<bool>, i: nat)
    requires Reversible(m) && Serial(m, fits) && Telling(m, fits)
    requires SameOutside(a, b, i) && m.Feed(c, a) == m.Feed(c, b)
    ensures a == b
  {
    var n := |a|;
    var lo, hi := if i <= n then i else n, if i + WIDTH <= n then i + WIDTH else n;
    assert a == a[..lo] + a[lo..hi] + a[hi..];
    assert b == a[..lo] + b[lo..hi] + a[hi..];
    MiddleTold(m, fits, c, a[..lo], a[lo..hi], b[lo..hi], a[hi..]);
  }

  // ---- this register --------------------------------------------------------------------

  /** The polynomial has its top bit set, so the bit that is shifted out can be read off. */
  lemma Shift1Tells(a: bv32, b: bv32)
    ensures Shift1(a) == Shift1(b) ==> a == b
  {}

  lemma MixTells(a: bv32, b: bv32, x: bv32)
    ensures Mix(a, x) == Mix(b, x) ==> a == b
    ensures Mix(x, a) == Mix(x, b) ==> a == b
    ensures Mix(x, 0) == x
  {}

  lemma CrcReversible()
    ensures Reversible(CRC)
  {
    forall a, b | CRC.shift(a) == CRC.shift(b) ensures a == b { Shift1Tells(a, b); }
    forall a, b, x | CRC.mix(a, x) == CRC.mix(b, x) ensures a == b { MixTells(a, b, x); }
  }

  function Half(w: bv32): bv32 { w >> 1 }

  /** `top` after `k` steps. */
  function Steps<R>(step: R -> R, top: R, k: nat): R {
    if k == 0 then top else step(Steps(step, top, k - 1))
  }

  lemma FourSteps<R>(step: R -> R, top: R, k: nat)
    ensures Steps(step, top, k + 4) == step(step(step(step(Steps(step, top, k)))))
  {
    assert Steps(step, top, k + 1) == step(Steps(step, top, k));
    assert Steps(step, top, k + 2) == step(Steps(step, top, k + 1));
    assert Steps(step, top, k + 3) == step(Steps(step, top, k + 2));
  }

  lemma {:induction false} StepsKeep<R(!new)>(step: R -> R, top: R, k: nat, keeps: R -> bool)
    requires keeps(top) && forall r :: keeps(r) ==> keeps(step(r))
    ensures keeps(Steps(step, top, k))
  {
    if k > 0 { StepsKeep(step, top, k - 1, keeps); }
  }

  const TOP: bv32 := 0x8000_0000

  predicate Less(a: bv32, b: bv32) { a < b }

  predicate AtMostTop(w: bv32) { w <= TOP }

  /** A word of `n` bits, below `top` halved for each bit it is short of the register. */
  predicate Fits<R>(less: (R, R) -> bool, half: R -> R, top: R, w: R, n: nat) {
    n < WIDTH ==> less(w, Steps(half, top, WIDTH - 1 - n))
  }

  predicate FitsIn(w: bv32, n: nat) {
    Fits(Less, Half, TOP, w, n)
  }

  lemma FourHalves(w: bv32)
    ensures Half(Half(Half(Half(w)))) == w >> 4
  {}

  lemma CapFour(k: nat)
    ensures Steps(Half, TOP, k + 4) == Steps(Half, TOP, k) >> 4
  {
    FourSteps(Half, TOP, k);
    FourHalves(Steps(Half, TOP, k));
  }

  lemma ZeroFits()
    ensures FitsIn(0, 0)
  {
    CapFour(0);
    CapFour(4);
    CapFour(8);
    CapFour(12);
    CapFour(16);
    CapFour(20);
    CapFour(24);
    assert Steps(Half, TOP, 31) == Half(Half(Half(Steps(Half, TOP, 28))));
  }

  lemma FitsBelow(w: bv32, n: nat)
    requires n < WIDTH && FitsIn(w, n)
    ensures w < TOP
  {
    HalfAtMost();
    StepsKeep(Half, TOP, WIDTH - 1 - n, AtMostTop);
  }

  lemma HalfAtMost()
    ensures forall w :: AtMostTop(w) ==> AtMostTop(Half(w))
  {}

  lemma Widens(w: bv32, cap: bv32, bit: bool)
    ensures Less(w, Half(cap)) ==> Less(Push(w, bit), cap)
  {}

  lemma PushFits<R(!new)>(less: (R, R) -> bool, half: R -> R, top: R, push: (R, bool) -> R, w: R, n: nat, bit: bool)
    requires forall w, cap, bit :: less(w, half(cap)) ==> less(push(w, bit), cap)
    requires n < WIDTH && Fits(less, half, top, w, n)
    ensures Fits(less, half, top, push(w, bit), n + 1)
  {}

  lemma CrcGrows(w: bv32, n: nat, bit: bool)
    requires n < WIDTH
    ensures Grows(CRC, FitsIn, w, n, bit)
  {
    forall w, cap, bit | Less(w, Half(cap)) ensures Less(Push(w, bit), cap) { Widens(w, cap, bit); }
    if FitsIn(w, n) { PushFits(Less, Half, TOP, Push, w, n, bit); }
  }

  lemma PushTells(v: bv32, w: bv32, a: bool, b: bool)
    requires v < TOP && w < TOP
    ensures PushTold(CRC, v, w, a, b)
  {}

  lemma Shift1Xor(a: bv32, w: bv32)
    requires w < 0x8000_0000
    ensures Shift1(a ^ (w << 1)) == Shift1(a) ^ w
  {}

  lemma Shift1Adds(a: bv32, w: bv32)
    requires w < TOP
    ensures CRC.shift(CRC.mix(a, w << 1)) == CRC.mix(CRC.shift(a), w)
  {
    Shift1Xor(a, w);
  }

  lemma PushMixes(c: bv32, w: bv32, bit: bool)
    ensures CRC.mix(c, CRC.push(w, bit)) == CRC.mix(CRC.mix(c, CRC.push(CRC.zero, bit)), w << 1)
  {}

  /** `twice` is the word moved up one place. */
  lemma SplitsFrom<R>(m: Register<R>, c: R, w: R, bit: bool, twice: R)
    requires var a := m.mix(c, m.push(m.zero, bit));
             m.mix(c, m.push(w, bit)) == m.mix(a, twice) && m.shift(m.mix(a, twice)) == m.mix(m.shift(a), w)
    ensures Splits(m, c, w, bit)
  {}

  lemma CrcSplits(c: bv32, w: bv32, bit: bool)
    requires w < TOP
    ensures Splits(CRC, c, w, bit)
  {
    PushMixes(c, w, bit);
    Shift1Adds(CRC.mix(c, CRC.push(CRC.zero, bit)), w);
    SplitsFrom(CRC, c, w, bit, w << 1);
  }

  lemma CrcSerial()
    ensures Serial(CRC, FitsIn)
  {
    ZeroFits();
    forall c ensures CRC.mix(c, CRC.zero) == c { MixTells(0, 0, c); }
    forall w, n: nat, bit | n < WIDTH ensures Grows(CRC, FitsIn, w, n, bit) { CrcGrows(w, n, bit); }
    forall c, w, n: nat, bit | n < WIDTH && FitsIn(w, n) ensures Splits(CRC, c, w, bit) {
      FitsBelow(w, n);
      CrcSplits(c, w, bit);
    }
  }

  lemma CrcTelling()
    ensures Telling(CRC, FitsIn)
  {
    forall c, w, v | CRC.mix(c, w) == CRC.mix(c, v) ensures w == v { MixTells(w, v, c); }
    forall w, v, n: nat, a, b | n < WIDTH && FitsIn(w, n) && FitsIn(v, n) ensures PushTold(CRC, w, v, a, b) {
      FitsBelow(w, n);
      FitsBelow(v, n);
      PushTells(w, v, a, b);
    }
  }

  // ---- detection ------------------------------------------------------------------------

  /** The checksum as the number that is stored. */
  function Checksum(data: Bytes): (v: u32) {
    CrcNumber(Crc32(data))
  }

  method ComputeChecksum(data: Bytes) returns (v: u32)
    ensures v == Checksum(data)
  {
    var crc := ComputeCrc32(data);
    return CrcNumber(crc);
  }

  function CrcNumber(c: bv32): (v: u32) { c as int }

  lemma NumberTells(a: bv32, b: bv32)
    requires CrcNumber(a) == CrcNumber(b)
    ensures a == b
  {
    assert (a as int) as bv32 == a;
    assert (b as int) as bv32 == b;
  }

  lemma ComplementTells(a: bv32, b: bv32)
    ensures !a == !b ==> a == b
  {}

  lemma ChecksumTells(x: Bytes, y: Bytes)
    requires Checksum(x) == Checksum(y)
    ensures CRC.Fold(ALL_ONES, x) == CRC.Fold(ALL_ONES, y)
  {
    NumberTells(Crc32(x), Crc32(y));
    ComplementTells(CRC.Fold(ALL_ONES, x), CRC.Fold(ALL_ONES, y));
  }

  /** Data of one length that differ at most in the 32 bits from the `i`th on. */
  predicate WithinBurst(x: Bytes, y: Bytes, i: nat) {
    |x| == |y| && SameOutside(DataBits(x), DataBits(y), i)
  }

  lemma {:induction false} BitsTell(x: nat, y: nat, n: nat)
    requires x < Pow2(n) && y < Pow2(n) && Bits(x, n) == Bits(y, n)
    ensures x == y
    decreases n
  {
    if n > 0 {
      assert Bits(x, n)[1..] == Bits(x / 2, n - 1) && Bits(y, n)[1..] == Bits(y / 2, n - 1);
      assert Bits(x, n)[0] == Bits(y, n)[0];
      BitsTell(x / 2, y / 2, n - 1);
    }
  }

  function Pow2(n: nat): nat { if n == 0 then 1 else 2 * Pow2(n - 1) }

  lemma OctetTells(x: u8, y: u8)
    requires Octet(x) == Octet(y)
    ensures x == y
  {
    assert Pow2(8) == 256;
    BitsTell(x, y, OCTET_BITS);
  }

  lemma DataBitsTell(x: Bytes, y: Bytes)
    requires |x| == |y| && DataBits(x) == DataBits(y)
    ensures x == y
  {
    forall a: u8, b: u8 | Octet(a) == Octet(b) ensures a == b { OctetTells(a, b); }
    SpellTells(x, y, Octet, OCTET_BITS);
  }

  /** Data that differ only within 32 consecutive bits, wherever these begin, have different checksums. */
  lemma BurstDetected(x: Bytes, y: Bytes, i: nat)
    requires WithinBurst(x, y, i) && Checksum(x) == Checksum(y)
    ensures x == y
  {
    ChecksumTells(x, y);
    CrcReversible();
    CrcSerial();
    CrcTelling();
    FoldIsFeed(CRC, FitsIn, ALL_ONES, x);
    FoldIsFeed(CRC, FitsIn, ALL_ONES, y);
    WindowTold(CRC, FitsIn, ALL_ONES, DataBits(x), DataBits(y), i);
    DataBitsTell(x, y);
  }

  lemma DataBitsConcat(x: Bytes, y: Bytes)
    ensures DataBits(x + y) == DataBits(x) + DataBits(y)
  {
    SpellConcat(x, y, Octet);
  }

  lemma MiddleOutside(before: seq<bool>, u: seq<bool>, v: seq<bool>, after: seq<bool>)
    requires |u| == |v| <= WIDTH
    ensures SameOutside(before + u + after, before + v + after, |before|)
  {}

  /** A change within four consecutive octets is one of those. */
  lemma OctetsAreBurst(before: Bytes, x: Bytes, y: Bytes, after: Bytes)
    requires |x| == |y| <= 4
    ensures WithinBurst(before + x + after, before + y + after, OCTET_BITS * |before|)
  {
    DataBitsConcat(before, x);
    DataBitsConcat(before + x, after);
    DataBitsConcat(before, y);
    DataBitsConcat(before + y, after);
    MiddleOutside(DataBits(before), DataBits(x), DataBits(y), DataBits(after));
  }
}
