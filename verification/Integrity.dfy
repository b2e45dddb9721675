/** What the sealed form promises about strings that were not written by the encoder: which accepted
strings are the encoder's own, that none is a proper prefix of another, and that small damage is
always noticed. */
module Integrity {
  import opened Types
  import opened Octets
  import opened Crc
  import opened Records
  import opened Tables
  import opened Snapshot

  // ---- where the policy flags are --------------------------------------------------------

  lemma {:induction false} PrintEachConcat<T>(xs: seq<T>, ys: seq<T>, print1: T -> Bytes)
    ensures PrintEach(xs + ys, print1) == PrintEach(xs, print1) + PrintEach(ys, print1)
  {
    if |xs| == 0 {
      assert xs + ys == ys;
    } else {
      assert (xs + ys)[1..] == xs[1..] + ys;
      PrintEachConcat(xs[1..], ys, print1);
      Regroup(print1(xs[0]), PrintEach(xs[1..], print1), PrintEach(ys, print1));
    }
  }

  lemma {:induction false} PrintEachWidth<T>(xs: seq<T>, print1: T -> Bytes, width: nat)
    requires forall i :: 0 <= i < |xs| ==> |print1(xs[i])| == width
    ensures |PrintEach(xs, print1)| == |xs| * width
  {
    if |xs| > 0 {
      PrintEachWidth(xs[1..], print1, width);
      OneMore(|xs|, width);
    }
  }

  lemma {:induction false} PrintOctets(fs: seq<Field>)
    requires forall i :: 0 <= i < |fs| ==> fs[i].U8?
    ensures |Print(fs)| == |fs| && forall i :: 0 <= i < |fs| ==> Print(fs)[i] == fs[i].octet
  {
    if |fs| > 0 { PrintOctets(fs[1..]); }
  }

  lemma CutSix<T>(xs: seq<T>, print1: T -> Bytes)
    requires |xs| == 23
    ensures PrintEach(xs, print1) == PrintEach(xs[..4], print1) + print1(xs[4]) + print1(xs[5])
                                     + PrintEach(xs[6..16], print1) + PrintEach(xs[16..20], print1)
                                     + PrintEach(xs[20..], print1)
  {
    var four, five, six, twenty := xs[..4], xs[..5], xs[..6], xs[..20];
    assert xs == twenty + xs[20..] && twenty == xs[..16] + xs[16..20] && xs[..16] == six + xs[6..16];
    assert six == five + [xs[5]] && five == four + [xs[4]];
    PrintEachConcat(twenty, xs[20..], print1);
    PrintEachConcat(xs[..16], xs[16..20], print1);
    PrintEachConcat(six, xs[6..16], print1);
    PrintEachConcat(five, [xs[5]], print1);
    PrintEachConcat(four, [xs[4]], print1);
    PrintOne(xs[4], print1);
    PrintOne(xs[5], print1);
  }

  lemma PrintOne<T>(x: T, print1: T -> Bytes)
    ensures PrintEach([x], print1) == print1(x)
  {}

  ghost predicate Numbers(fs: seq<Field>, lo: nat, hi: nat)
    requires lo <= hi <= |fs|
  {
    forall i :: lo <= i < hi ==> fs[i].U64? || fs[i].I64?
  }

  lemma NumbersWide(fs: seq<Field>, lo: nat, hi: nat)
    requires lo <= hi <= |fs| && Numbers(fs, lo, hi)
    ensures |Print(fs[lo..hi])| == (hi - lo) * 8
  {
    forall i | 0 <= i < hi - lo ensures |FieldPrinter()(fs[lo..hi][i])| == 8 {
      assert fs[lo..hi][i] == fs[lo + i];
    }
    PrintEachWidth(fs[lo..hi], FieldPrinter(), 8);
  }

  /** What the shapes of a head say about the fields up to the flags. */
  ghost predicate HeadShaped(head: seq<Field>) {
    && |head| == 23 && Numbers(head, 0, 4) && head[4].Str? && head[5].U8? && Numbers(head, 6, 16)
    && head[16].U8? && head[17].U8? && head[18].U8? && head[19].U8?
  }

  lemma ShapesShape(head: seq<Field>)
    requires ShapesOf(head) == HEAD_SHAPES
    ensures HeadShaped(head)
  {}

  /** The first flag follows 117 octets and the currency code. */
  lemma FlagsAt(head: seq<Field>, rest: Bytes)
    requires HeadShaped(head) && |head[4].text| <= LONGEST
    ensures var p := Print(head) + rest; var n := |Text(head, 4)|;
            && |p| >= 121 + n && OfOctets(p[32..36]) == n
            && p[117 + n] == Oct(head, 16) && p[118 + n] == Oct(head, 17)
            && p[119 + n] == Oct(head, 18) && p[120 + n] == Oct(head, 19)
  {
    var n, text := HeadText(head);
    var a, d, e, f, g := HeadCut(head);
    U32RoundTrip(|text|);
    PartsAt(a, n, text, d, e, f, g, rest);
  }

  lemma HeadText(head: seq<Field>) returns (n: Bytes, text: Bytes)
    requires HeadShaped(head)
    ensures PrintField(head[4]) == n + text && text == Text(head, 4) && n == ToOctets(|text|, 4)
  {
    text := head[4].text;
    n := ToOctets(|text|, 4);
  }

  /** The printed head around its currency code. */
  lemma HeadCut(head: seq<Field>) returns (a: Bytes, d: Bytes, e: Bytes, f: Bytes, g: Bytes)
    requires HeadShaped(head)
    ensures Print(head) == a + PrintField(head[4]) + d + e + f + g
    ensures |a| == 32 && |d| == 1 && |e| == 80 && |f| == 4
    ensures f[0] == Oct(head, 16) && f[1] == Oct(head, 17) && f[2] == Oct(head, 18) && f[3] == Oct(head, 19)
  {
    a, f := HeadNumbers(head), HeadFlags(head);
    e := Print(head[6..16]);
    CutSix(head, FieldPrinter());
    NumbersWide(head, 6, 16);
    d, g := PrintField(head[5]), Print(head[20..]);
  }

  ghost function HeadNumbers(head: seq<Field>): (a: Bytes)
    requires HeadShaped(head)
    ensures a == Print(head[..4]) && |a| == 32
  {
    NumbersWide(head, 0, 4);
    Print(head[..4])
  }

  ghost function HeadFlags(head: seq<Field>): (f: Bytes)
    requires HeadShaped(head)
    ensures f == Print(head[16..20]) && |f| == 4
    ensures f[0] == Oct(head, 16) && f[1] == Oct(head, 17) && f[2] == Oct(head, 18) && f[3] == Oct(head, 19)
  {
    var flags := head[16..20];
    assert flags[0] == head[16] && flags[1] == head[17] && flags[2] == head[18] && flags[3] == head[19];
    PrintOctets(flags);
    Print(flags)
  }

  lemma PartsAt(a: Bytes, b: Bytes, c: Bytes, d: Bytes, e: Bytes, f: Bytes, g: Bytes, h: Bytes)
    requires |a| == 32 && |b| == 4 && |d| == 1 && |e| == 80 && |f| == 4
    ensures var p := a + (b + c) + d + e + f + g + h; var n := |c|;
            && |p| >= 121 + n && p[32..36] == b
            && p[117 + n] == f[0] && p[118 + n] == f[1] && p[119 + n] == f[2] && p[120 + n] == f[3]
  {}

  // ---- which accepted strings the encoder would write --------------------------------------

  /** The four policy flag octets of a sealed snapshot are 0 or 1. */
  predicate PlainFlagOctets(b: Bytes) {
    && |b| >= 60
    && var first := 141 + OfOctets(b[56..60]);
       && first + 4 <= |b|
       && b[first] <= 1 && b[first + 1] <= 1 && b[first + 2] <= 1 && b[first + 3] <= 1
  }

  lemma FlagOctets(b: Bytes, head: seq<Field>, rest: Bytes)
    requires |b| >= HEADER && b[HEADER..] == Print(head) + rest
    requires HeadShaped(head) && |head[4].text| <= LONGEST
    ensures PlainFlagOctets(b) <==> PlainFlags(head)
  {
    FlagsAt(head, rest);
    assert b[HEADER..][32..36] == b[56..60];
  }

  lemma RawFlags(b: Bytes, raw: Raw)
    requires |b| >= HEADER && RawFits(raw) && PrintRaw(raw) == b[HEADER..]
    ensures PlainFlagOctets(b) <==> PlainFlags(raw.head)
  {
    ShapesShape(raw.head);
    TextFits(raw.head, 4, LONGEST);
    FlagOctets(b, raw.head, PrintEach(raw.sections, SectionPrinter()));
  }

  lemma SealInjective(x: Bytes, y: Bytes)
    requires Seal(x) == Seal(y)
    ensures x == y
  {
    SealParts(x);
    SealParts(y);
  }

  lemma PrintRawInjective(x: Raw, y: Raw)
    requires RawFits(x) && RawFits(y) && PrintRaw(x) == PrintRaw(y)
    ensures x == y
  {
    ReadPrintedRaw(x);
    ReadPrintedRaw(y);
  }

  lemma CanonicalRaw(b: Bytes, raw: Raw)
    requires RawFits(raw) && b == Seal(PrintRaw(raw))
    ensures Encode(SnapshotOf(raw)) == Ok(b) <==> PlainFlagOctets(b)
  {
    var s := SnapshotOf(raw);
    SealParts(PrintRaw(raw));
    RawFlags(b, raw);
    RawOfSnapshot(raw);
    FitsInBounds(raw);
    InBoundsFits(s);
    if Encode(s) == Ok(b) {
      SealInjective(PrintRaw(RawOf(s)), PrintRaw(raw));
      PrintRawInjective(RawOf(s), raw);
    }
  }

  /** An accepted string encodes back to itself exactly when its flag octets are 0 or 1. */
  lemma Canonical(b: Bytes)
    requires Decode(b).Ok?
    ensures Encode(Decode(b).value) == Ok(b) <==> PlainFlagOctets(b)
  {
    SealUnsealed(b);
    PrintReadRaw(Unseal(b).value);
    CanonicalRaw(b, ReadRaw(Unseal(b).value).value);
  }

  // ---- truncation, extension and damage ---------------------------------------------------

  /** No accepted string is a proper prefix of another: every truncation and every extension is refused. */
  lemma PrefixFree(b: Bytes, more: Bytes)
    requires Decode(b).Ok? && Decode(b + more).Ok?
    ensures more == []
  {
    assert (b + more)[12..20] == b[12..20];
  }

  /** Two strings of one length that differ at exactly one place. */
  predicate DifferAt(b: Bytes, c: Bytes, i: nat) {
    |b| == |c| && i < |b| && b[i] != c[i] && b[..i] == c[..i] && b[i + 1..] == c[i + 1..]
  }

  lemma SamePayloadSameString(b: Bytes, c: Bytes)
    requires Unseal(b).Ok? && Unseal(c).Ok? && |b| == |c| && b[HEADER..] == c[HEADER..]
    ensures b == c
  {
    SealUnsealed(b);
    SealUnsealed(c);
  }

  lemma SameHeaderSameChecksum(b: Bytes, c: Bytes)
    requires Unseal(b).Ok? && Unseal(c).Ok? && HEADER <= |b| && HEADER <= |c| && b[..HEADER] == c[..HEADER]
    ensures Checksum(b[HEADER..]) == Checksum(c[HEADER..])
  {
    assert b[20..24] == b[..HEADER][20..24] == c[20..24];
  }

  lemma Window(b: Bytes, h: nat, i: nat, j: nat)
    requires h <= i <= j <= |b|
    ensures b[h..] == b[..i][h..] + b[i..j] + b[j..]
  {}

  lemma HeaderOctet(b: Bytes, c: Bytes, i: nat)
    requires Unseal(b).Ok? && DifferAt(b, c, i) && i < HEADER
    ensures Unseal(c).Err?
  {
    if Unseal(c).Ok? {
      assert b[HEADER..] == b[i + 1..][HEADER - i - 1..];
      assert c[HEADER..] == c[i + 1..][HEADER - i - 1..];
      SamePayloadSameString(b, c);
    }
  }

  lemma OctetIsBurst(b: Bytes, c: Bytes, i: nat)
    requires DifferAt(b, c, i) && i >= HEADER
    ensures WithinBurst(b[HEADER..], c[HEADER..], OCTET_BITS * (i - HEADER))
  {
    Window(b, HEADER, i, i + 1);
    Window(c, HEADER, i, i + 1);
    assert b[i..i + 1] == [b[i]] && c[i..i + 1] == [c[i]];
    OctetsAreBurst(b[..i][HEADER..], [b[i]], [c[i]], b[i + 1..]);
  }

  lemma BurstUnsealed(b: Bytes, c: Bytes, i: nat)
    requires Unseal(b).Ok? && HEADER <= |b| == |c| && c[..HEADER] == b[..HEADER] && c != b
    requires WithinBurst(b[HEADER..], c[HEADER..], i)
    ensures Unseal(c).Err?
  {
    if Unseal(c).Ok? {
      SameHeaderSameChecksum(b, c);
      BurstDetected(b[HEADER..], c[HEADER..], i);
      SamePayloadSameString(b, c);
    }
  }

  /** Changing any one octet of an accepted string, wherever it is, makes it refused. */
  lemma OctetDamage(b: Bytes, c: Bytes, i: nat)
    requires Decode(b).Ok? && DifferAt(b, c, i)
    ensures Decode(c).Err?
  {
    if i < HEADER {
      HeaderOctet(b, c, i);
    } else {
      OctetIsBurst(b, c, i);
      assert b[..HEADER] == b[..i][..HEADER] && c[..HEADER] == c[..i][..HEADER];
      BurstUnsealed(b, c, OCTET_BITS * (i - HEADER));
    }
  }

  /** So does any change confined to 32 consecutive bits of the payload. */
  lemma BurstDamage(b: Bytes, c: Bytes, i: nat)
    requires Decode(b).Ok? && |c| == |b| && c[..HEADER] == b[..HEADER] && c != b
    requires WithinBurst(b[HEADER..], c[HEADER..], i)
    ensures Decode(c).Err?
  {
    BurstUnsealed(b, c, i);
  }

  /** So does any change confined to the header. */
  lemma HeaderDamage(b: Bytes, c: Bytes)
    requires Decode(b).Ok? && |c| == |b| && c[HEADER..] == b[HEADER..] && c != b
    ensures Decode(c).Err?
  {
    if Unseal(c).Ok? { SamePayloadSameString(b, c); }
  }
}
