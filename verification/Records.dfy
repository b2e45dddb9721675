/** Records as lists of fixed-width fields and counted strings: a printer, a bounded parser, and the
two round trips between them.

The record codecs of the snapshot and of the wire protocol differ only in their field lists and in
the longest string the parser accepts.
 */
module Records {
  import opened Types
  import opened Octets

  datatype Field = U8(octet: u8) | U64(unsigned: u64) | I64(signed: i64) | Str(text: Bytes)

  datatype Shape = OfU8 | OfU64 | OfI64 | OfStr

  function ShapeOf(f: Field): Shape {
    match f
    case U8(_) => OfU8
    case U64(_) => OfU64
    case I64(_) => OfI64
    case Str(_) => OfStr
  }

  /** The count of a string is written as 32 bits, whatever its length. */
  function PrintField(f: Field): Bytes {
    match f
    case U8(v) => [v]
    case U64(v) => ToOctets(v, 8)
    case I64(v) => ToOctets(Unsigned(v), 8)
    case Str(s) => ToOctets(|s|, 4) + s
  }

  function Number(s: Bytes): u64
    requires |s| == 8
  {
    OctetsBelow(s);
    OfOctets(s)
  }

  /** One field and what is left of the input, or nothing when the input is short or the string too long. */
  function ReadField(shape: Shape, b: Bytes, longest: nat): (r: Option<(Field, Bytes)>) {
    match shape
    case OfU8 => if |b| < 1 then None else Some((U8(b[0]), b[1..]))
    case OfU64 => if |b| < 8 then None else Some((U64(Number(b[..8])), b[8..]))
    case OfI64 => if |b| < 8 then None else Some((I64(Wrap(Number(b[..8]))), b[8..]))
    case OfStr =>
      if |b| < 4 then None
      else
        var n := OfOctets(b[..4]);
        if n > longest || n > |b| - 4 then None else Some((Str(b[4..4 + n]), b[4 + n..]))
  }

  predicate FieldFits(f: Field, longest: nat) {
    f.Str? ==> |f.text| <= longest
  }

  lemma ReadPrintedField(f: Field, rest: Bytes, longest: nat)
    requires FieldFits(f, longest) && longest < TWO_32
    ensures ReadField(ShapeOf(f), PrintField(f) + rest, longest) == Some((f, rest))
  {
    var b := PrintField(f) + rest;
    match f
    case U8(v) => assert b[1..] == rest;
    case U64(v) =>
      assert b[..8] == ToOctets(v, 8) && b[8..] == rest;
      U64RoundTrip(v);
    case I64(v) =>
      assert b[..8] == ToOctets(Unsigned(v), 8) && b[8..] == rest;
      U64RoundTrip(Unsigned(v));
    case Str(s) =>
      assert b[..4] == ToOctets(|s|, 4);
      U32RoundTrip(|s|);
      assert b[4..4 + |s|] == s && b[4 + |s|..] == rest;
  }

  lemma PrintReadField(shape: Shape, b: Bytes, longest: nat)
    requires ReadField(shape, b, longest).Some?
    ensures var (f, rest) := ReadField(shape, b, longest).value;
            ShapeOf(f) == shape && FieldFits(f, longest) && PrintField(f) + rest == b
  {
    var (f, rest) := ReadField(shape, b, longest).value;
    match shape
    case OfU8 => assert b == [b[0]] + b[1..];
    case OfU64 =>
      ToOfOctets(b[..8]);
      assert b == b[..8] + b[8..];
    case OfI64 =>
      ToOfOctets(b[..8]);
      UnsignedOfWrap(Number(b[..8]));
      assert b == b[..8] + b[8..];
    case OfStr =>
      ToOfOctets(b[..4]);
      var n := OfOctets(b[..4]);
      assert b == b[..4] + b[4..4 + n] + b[4 + n..];
  }

  // ---- sequences of printable things ----------------------------------------------------

  /** What a parser gives back: the item and the octets after it. */
  type Parsed<T> = Option<(T, Bytes)>

  function PrintEach<T>(xs: seq<T>, print1: T -> Bytes): Bytes {
    if |xs| == 0 then [] else print1(xs[0]) + PrintEach(xs[1..], print1)
  }

  lemma PrintNext<T>(xs: seq<T>, i: nat, print1: T -> Bytes)
    requires i < |xs|
    ensures PrintEach(xs[i..], print1) == print1(xs[i]) + PrintEach(xs[i + 1..], print1)
  {}

  lemma Regroup(a: Bytes, b: Bytes, c: Bytes)
    ensures a + b + c == a + (b + c)
  {}

  function ReadEach<S, T>(shapes: seq<S>, read1: (S, Bytes) -> Parsed<T>, b: Bytes): (r: Parsed<seq<T>>) {
    if |shapes| == 0 then Some(([], b))
    else match read1(shapes[0], b)
         case None => None
         case Some((x, rest)) => Prepend([x], ReadEach(shapes[1..], read1, rest))
  }

  /** The outcome of a read whose first items are already known. */
  function Prepend<T>(done: seq<T>, r: Parsed<seq<T>>): Parsed<seq<T>> {
    match r
    case None => None
    case Some((more, rest)) => Some((done + more, rest))
  }

  lemma PrependTwice<T>(xs: seq<T>, ys: seq<T>, r: Parsed<seq<T>>)
    ensures Prepend(xs, Prepend(ys, r)) == Prepend(xs + ys, r)
    ensures Prepend([], r) == r
  {
    if r.Some? {
      assert xs + (ys + r.value.0) == xs + ys + r.value.0;
      assert [] + r.value.0 == r.value.0;
    }
  }

  /** Reading undoes printing `x`, whatever follows. */
  ghost predicate ReadsBack<S, T(!new)>(print1: T -> Bytes, read1: (S, Bytes) -> Parsed<T>, shape: S, x: T) {
    forall rest: Bytes :: read1(shape, print1(x) + rest) == Some((x, rest))
  }

  /** Whatever is read has the shape asked for and prints back to what was read. */
  ghost predicate PrintsBack<S, T(!new)>(print1: T -> Bytes, read1: (S, Bytes) -> Parsed<T>, has: (S, T) -> bool,
                                         shape: S)
  {
    forall b: Bytes :: read1(shape, b).Some? ==>
      has(shape, read1(shape, b).value.0) && print1(read1(shape, b).value.0) + read1(shape, b).value.1 == b
  }

  ghost predicate EachReadsBack<S, T(!new)>(print1: T -> Bytes, read1: (S, Bytes) -> Parsed<T>, shapes: seq<S>,
                                            xs: seq<T>)
  {
    |shapes| == |xs| && forall i :: 0 <= i < |xs| ==> ReadsBack(print1, read1, shapes[i], xs[i])
  }

  lemma {:induction false} ReadPrintedEach<S, T(!new)>(shapes: seq<S>, xs: seq<T>, print1: T -> Bytes,
                                                       read1: (S, Bytes) -> Parsed<T>, rest: Bytes)
    requires EachReadsBack(print1, read1, shapes, xs)
    ensures ReadEach(shapes, read1, PrintEach(xs, print1) + rest) == Some((xs, rest))
  {
    if |xs| == 0 {
      assert PrintEach(xs, print1) + rest == rest;
    } else {
      var tail := PrintEach(xs[1..], print1) + rest;
      assert PrintEach(xs, print1) + rest == print1(xs[0]) + tail;
      assert ReadsBack(print1, read1, shapes[0], xs[0]);
      ReadPrintedEach(shapes[1..], xs[1..], print1, read1, rest);
      assert xs == [xs[0]] + xs[1..];
    }
  }

  lemma {:induction false} PrintReadEach<S, T(!new)>(shapes: seq<S>, print1: T -> Bytes,
                                                     read1: (S, Bytes) -> Parsed<T>, has: (S, T) -> bool, b: Bytes)
    requires forall i :: 0 <= i < |shapes| ==> PrintsBack(print1, read1, has, shapes[i])
    requires ReadEach(shapes, read1, b).Some?
    ensures var (xs, rest) := ReadEach(shapes, read1, b).value;
            && |xs| == |shapes|
            && (forall i :: 0 <= i < |xs| ==> has(shapes[i], xs[i]))
            && PrintEach(xs, print1) + rest == b
  {
    if |shapes| > 0 {
      assert PrintsBack(print1, read1, has, shapes[0]);
      var (x, tail) := read1(shapes[0], b).value;
      PrintReadEach(shapes[1..], print1, read1, has, tail);
      var (xs, rest) := ReadEach(shapes[1..], read1, tail).value;
      var all := [x] + xs;
      assert all[1..] == xs;
      assert PrintEach(all, print1) + rest == print1(x) + (PrintEach(xs, print1) + rest);
      forall i | 0 <= i < |all| ensures has(shapes[i], all[i]) {
        if i > 0 { assert has(shapes[1..][i - 1], xs[i - 1]); }
      }
    }
  }

  lemma {:induction false} PrintEachBound<T>(xs: seq<T>, print1: T -> Bytes, most: nat)
    requires forall i :: 0 <= i < |xs| ==> |print1(xs[i])| <= most
    ensures |PrintEach(xs, print1)| <= |xs| * most
  {
    if |xs| > 0 {
      PrintEachBound(xs[1..], print1, most);
      OneMore(|xs|, most);
    }
  }

  lemma OneMore(n: int, each: int)
    ensures n * each == (n - 1) * each + each
  {}

  // ---- records --------------------------------------------------------------------------

  function ShapesOf(fs: seq<Field>): (shapes: seq<Shape>)
    ensures |shapes| == |fs| && forall i :: 0 <= i < |fs| ==> shapes[i] == ShapeOf(fs[i])
  {
    seq(|fs|, i requires 0 <= i < |fs| => ShapeOf(fs[i]))
  }

  ghost predicate Fit(fs: seq<Field>, longest: nat) {
    forall i :: 0 <= i < |fs| ==> FieldFits(fs[i], longest)
  }

  function FieldPrinter(): Field -> Bytes {
    (f: Field) => PrintField(f)
  }

  function FieldReader(longest: nat): (Shape, Bytes) -> Parsed<Field> {
    (shape: Shape, b: Bytes) => ReadField(shape, b, longest)
  }

  ghost function FitsShape(longest: nat): (Shape, Field) -> bool {
    (shape: Shape, f: Field) => ShapeOf(f) == shape && FieldFits(f, longest)
  }

  function Print(fs: seq<Field>): Bytes {
    PrintEach(fs, FieldPrinter())
  }

  function Read(shapes: seq<Shape>, b: Bytes, longest: nat): Parsed<seq<Field>> {
    ReadEach(shapes, FieldReader(longest), b)
  }

  lemma FieldReadsBack(f: Field, longest: nat)
    requires FieldFits(f, longest) && longest < TWO_32
    ensures ReadsBack(FieldPrinter(), FieldReader(longest), ShapeOf(f), f)
  {
    forall rest: Bytes ensures FieldReader(longest)(ShapeOf(f), FieldPrinter()(f) + rest) == Some((f, rest)) {
      ReadPrintedField(f, rest, longest);
    }
  }

  lemma FieldPrintsBack(shape: Shape, longest: nat)
    ensures PrintsBack(FieldPrinter(), FieldReader(longest), FitsShape(longest), shape)
  {
    forall b: Bytes | ReadField(shape, b, longest).Some?
      ensures var (f, rest) := ReadField(shape, b, longest).value;
              FitsShape(longest)(shape, f) && FieldPrinter()(f) + rest == b
    {
      PrintReadField(shape, b, longest);
    }
  }

  /** What was printed is read back, with whatever follows left over. */
  lemma ReadPrinted(fs: seq<Field>, rest: Bytes, longest: nat)
    requires Fit(fs, longest) && longest < TWO_32
    ensures Read(ShapesOf(fs), Print(fs) + rest, longest) == Some((fs, rest))
  {
    forall i | 0 <= i < |fs| ensures ReadsBack(FieldPrinter(), FieldReader(longest), ShapesOf(fs)[i], fs[i]) {
      FieldReadsBack(fs[i], longest);
    }
    ReadPrintedEach(ShapesOf(fs), fs, FieldPrinter(), FieldReader(longest), rest);
  }

  /** What was read prints back to the same octets. */
  lemma PrintRead(shapes: seq<Shape>, b: Bytes, longest: nat)
    requires Read(shapes, b, longest).Some?
    ensures var (fs, rest) := Read(shapes, b, longest).value;
            ShapesOf(fs) == shapes && Fit(fs, longest) && Print(fs) + rest == b
  {
    forall i | 0 <= i < |shapes|
      ensures PrintsBack(FieldPrinter(), FieldReader(longest), FitsShape(longest), shapes[i])
    {
      FieldPrintsBack(shapes[i], longest);
    }
    PrintReadEach(shapes, FieldPrinter(), FieldReader(longest), FitsShape(longest), b);
    var (fs, rest) := Read(shapes, b, longest).value;
    assert forall i :: 0 <= i < |fs| ==> FitsShape(longest)(shapes[i], fs[i]);
  }

  lemma PrintBound(fs: seq<Field>, longest: nat)
    requires Fit(fs, longest)
    ensures |Print(fs)| <= |fs| * (longest + 8)
  {
    PrintEachBound(fs, FieldPrinter(), longest + 8);
  }

  // ---- lists of records -----------------------------------------------------------------

  function RecordPrinter(): seq<Field> -> Bytes {
    (fs: seq<Field>) => Print(fs)
  }

  function RecordReader(longest: nat): (seq<Shape>, Bytes) -> Parsed<seq<Field>> {
    (shapes: seq<Shape>, b: Bytes) => Read(shapes, b, longest)
  }

  ghost function FitsShapes(longest: nat): (seq<Shape>, seq<Field>) -> bool {
    (shapes: seq<Shape>, fs: seq<Field>) => ShapesOf(fs) == shapes && Fit(fs, longest)
  }

  function Copies<T>(n: nat, x: T): (s: seq<T>)
    ensures |s| == n && forall i :: 0 <= i < n ==> s[i] == x
  {
    seq(n, _ => x)
  }

  function PrintAll(rs: seq<seq<Field>>): Bytes {
    PrintEach(rs, RecordPrinter())
  }

  function ReadAll(n: nat, shapes: seq<Shape>, b: Bytes, longest: nat): Parsed<seq<seq<Field>>> {
    ReadEach(Copies(n, shapes), RecordReader(longest), b)
  }

  ghost predicate AllFit(rs: seq<seq<Field>>, shapes: seq<Shape>, longest: nat) {
    forall i :: 0 <= i < |rs| ==> FitsShapes(longest)(shapes, rs[i])
  }

  lemma RecordReadsBack(fs: seq<Field>, longest: nat)
    requires Fit(fs, longest) && longest < TWO_32
    ensures ReadsBack(RecordPrinter(), RecordReader(longest), ShapesOf(fs), fs)
  {
    forall rest: Bytes ensures RecordReader(longest)(ShapesOf(fs), RecordPrinter()(fs) + rest) == Some((fs, rest)) {
      ReadPrinted(fs, rest, longest);
    }
  }

  lemma RecordPrintsBack(shapes: seq<Shape>, longest: nat)
    ensures PrintsBack(RecordPrinter(), RecordReader(longest), FitsShapes(longest), shapes)
  {
    forall b: Bytes | Read(shapes, b, longest).Some?
      ensures var (fs, rest) := Read(shapes, b, longest).value;
              FitsShapes(longest)(shapes, fs) && RecordPrinter()(fs) + rest == b
    {
      PrintRead(shapes, b, longest);
    }
  }

  lemma ReadPrintedAll(rs: seq<seq<Field>>, shapes: seq<Shape>, rest: Bytes, longest: nat)
    requires AllFit(rs, shapes, longest) && longest < TWO_32
    ensures ReadAll(|rs|, shapes, PrintAll(rs) + rest, longest) == Some((rs, rest))
  {
    forall i | 0 <= i < |rs|
      ensures ReadsBack(RecordPrinter(), RecordReader(longest), Copies(|rs|, shapes)[i], rs[i])
    {
      assert FitsShapes(longest)(shapes, rs[i]);
      RecordReadsBack(rs[i], longest);
    }
    ReadPrintedEach(Copies(|rs|, shapes), rs, RecordPrinter(), RecordReader(longest), rest);
  }

  lemma PrintReadAll(n: nat, shapes: seq<Shape>, b: Bytes, longest: nat)
    requires ReadAll(n, shapes, b, longest).Some?
    ensures var (rs, rest) := ReadAll(n, shapes, b, longest).value;
            |rs| == n && AllFit(rs, shapes, longest) && PrintAll(rs) + rest == b
  {
    RecordPrintsBack(shapes, longest);
    PrintReadEach(Copies(n, shapes), RecordPrinter(), RecordReader(longest), FitsShapes(longest), b);
    var (rs, rest) := ReadAll(n, shapes, b, longest).value;
    assert forall i :: 0 <= i < |rs| ==> FitsShapes(longest)(Copies(n, shapes)[i], rs[i]);
  }

  lemma PrintAllBound(rs: seq<seq<Field>>, shapes: seq<Shape>, longest: nat)
    requires AllFit(rs, shapes, longest)
    ensures |PrintAll(rs)| <= |rs| * (|shapes| * (longest + 8))
  {
    var most := |shapes| * (longest + 8);
    forall i | 0 <= i < |rs| ensures |RecordPrinter()(rs[i])| <= most {
      assert FitsShapes(longest)(shapes, rs[i]);
      PrintBound(rs[i], longest);
    }
    PrintEachBound(rs, RecordPrinter(), most);
  }

  // ---- the writer and the reader --------------------------------------------------------

  /** An output buffer; every method appends. The snapshot writer refuses a string whose length does
  not fit its count; the wire writer has no such bound. */
  class Writer {
    var buf: Bytes
    const bound: Option<nat>

    constructor (bound: Option<nat>)
      ensures buf == [] && this.bound == bound
    {
      buf := [];
      this.bound := bound;
    }

    predicate Takes(f: Field) {
      bound.None? || FieldFits(f, bound.value)
    }

    ghost predicate TakesAll(fs: seq<Field>) {
      forall i :: 0 <= i < |fs| ==> Takes(fs[i])
    }

    /** The low `n` octets of `v`, as the source shifts them out. */
    method PutNumber(v: nat, n: nat)
      modifies this
      ensures buf == old(buf) + ToOctets(v, n)
    {
      var rest := v;
      for i := 0 to n
        invariant rest == Shift(v, i)
        invariant buf == old(buf) + ToOctets(v, i)
      {
        ToOctetsPush(v, i, rest);
        buf := buf + [rest % 256];
        rest := rest / 256;
      }
    }

    method PutField(f: Field) returns (ok: bool)
      modifies this
      ensures ok == Takes(f)
      ensures ok ==> buf == old(buf) + PrintField(f)
    {
      if !Takes(f) { return false; }
      match f {
        case U8(v) => buf := buf + [v];
        case U64(v) => PutNumber(v, 8);
        case I64(v) => PutNumber(Unsigned(v), 8);
        case Str(s) =>
          PutNumber(|s|, 4);
          buf := buf + s;
      }
      return true;
    }

    method PutRecord(fs: seq<Field>) returns (ok: bool)
      modifies this
      ensures ok == TakesAll(fs)
      ensures ok ==> buf == old(buf) + Print(fs)
    {
      ghost var printer := FieldPrinter();
      ok := true;
      assert fs[0..] == fs;
      for i := 0 to |fs|
        invariant forall j :: 0 <= j < i ==> Takes(fs[j])
        invariant buf + PrintEach(fs[i..], printer) == old(buf) + PrintEach(fs, printer)
      {
        ok := PutNext(fs, i, printer);
        if !ok { return; }
      }
      assert fs[|fs|..] == [];
    }

    method PutNext(fs: seq<Field>, i: nat, ghost printer: Field -> Bytes) returns (ok: bool)
      requires i < |fs| && printer == FieldPrinter()
      modifies this
      ensures ok == Takes(fs[i])
      ensures ok ==> buf + PrintEach(fs[i + 1..], printer) == old(buf) + PrintEach(fs[i..], printer)
    {
      PrintNext(fs, i, printer);
      Regroup(buf, printer(fs[i]), PrintEach(fs[i + 1..], printer));
      ok := PutField(fs[i]);
    }

    /** A 32-bit count and then the records. */
    method PutAll(rs: seq<seq<Field>>) returns (ok: bool)
      modifies this
      ensures ok == TakesEach(rs)
      ensures ok ==> buf == old(buf) + ToOctets(|rs|, 4) + PrintAll(rs)
    {
      PutNumber(|rs|, 4);
      ok := PutEach(rs);
    }

    ghost predicate TakesEach(rs: seq<seq<Field>>) {
      forall i :: 0 <= i < |rs| ==> TakesAll(rs[i])
    }

    method PutEach(rs: seq<seq<Field>>) returns (ok: bool)
      modifies this
      ensures ok == TakesEach(rs)
      ensures ok ==> buf == old(buf) + PrintAll(rs)
    {
      ghost var printer := RecordPrinter();
      ok := true;
      assert rs[0..] == rs;
      for i := 0 to |rs|
        invariant forall j :: 0 <= j < i ==> TakesAll(rs[j])
        invariant buf + PrintEach(rs[i..], printer) == old(buf) + PrintEach(rs, printer)
      {
        ok := PutOne(rs, i, printer);
        if !ok { return; }
      }
      assert rs[|rs|..] == [];
    }

    method PutOne(rs: seq<seq<Field>>, i: nat, ghost printer: seq<Field> -> Bytes) returns (ok: bool)
      requires i < |rs| && printer == RecordPrinter()
      modifies this
      ensures ok == TakesAll(rs[i])
      ensures ok ==> buf + PrintEach(rs[i + 1..], printer) == old(buf) + PrintEach(rs[i..], printer)
    {
      PrintNext(rs, i, printer);
      Regroup(buf, printer(rs[i]), PrintEach(rs[i + 1..], printer));
      ok := PutRecord(rs[i]);
    }
  }

  /** A cursor over an input; a method that fails leaves the cursor where the failing read was. */
  class Reader {
    const data: Bytes
    const longest: nat
    var pos: nat

    constructor (data: Bytes, longest: nat)
      ensures this.data == data && this.longest == longest && pos == 0
    {
      this.data := data;
      this.longest := longest;
      pos := 0;
    }

    ghost predicate Valid()
      reads this
    {
      pos <= |data|
    }

    /** What has not been read yet. */
    function Rest(): Bytes
      requires Valid()
      reads this
    {
      data[pos..]
    }

    method GetNumber(n: nat) returns (r: Option<nat>)
      requires Valid()
      modifies this
      ensures Valid()
      ensures r.Some? <==> n <= old(|Rest()|)
      ensures r.Some? ==> r.value == OfOctets(old(Rest())[..n]) && Rest() == old(Rest())[n..]
    {
      if n > |data| - pos { return None; }
      var v: nat, scale: nat := 0, 1;
      ghost var start := pos;
      for i := 0 to n
        invariant pos == start + i <= |data| && scale == Pow256(i)
        invariant v == OfOctets(data[start..start + i])
      {
        OfOctetsPush(data[start..start + i], data[pos]);
        assert data[start..start + i] + [data[pos]] == data[start..start + i + 1];
        v := v + scale * data[pos];
        scale := 256 * scale;
        pos := pos + 1;
      }
      assert data[start..][..n] == data[start..start + n] && data[start..][n..] == data[start + n..];
      return Some(v);
    }

    method GetField(shape: Shape) returns (r: Option<Field>)
      requires Valid()
      modifies this
      ensures Valid()
      ensures var e := ReadField(shape, old(Rest()), longest);
              && (r.Some? <==> e.Some?)
              && (r.Some? ==> e == Some((r.value, Rest())))
    {
      ghost var before := Rest();
      match shape
      case OfU8 =>
        if pos == |data| { return None; }
        pos := pos + 1;
        assert before[1..] == Rest();
        return Some(U8(data[pos - 1]));
      case OfU64 =>
        var v := GetNumber(8);
        if v == None { return None; }
        OctetsBelow(before[..8]);
        return Some(U64(v.value));
      case OfI64 =>
        var v := GetNumber(8);
        if v == None { return None; }
        OctetsBelow(before[..8]);
        return Some(I64(Wrap(v.value)));
      case OfStr =>
        var n := GetNumber(4);
        if n == None { return None; }
        if n.value > longest || n.value > |data| - pos { return None; }
        assert Rest() == before[4..];
        assert data[pos..pos + n.value] == Rest()[..n.value] == before[4..4 + n.value];
        assert data[pos + n.value..] == Rest()[n.value..] == before[4 + n.value..];
        pos := pos + n.value;
        return Some(Str(data[pos - n.value..pos]));
    }

    method GetRecord(shapes: seq<Shape>) returns (r: Option<seq<Field>>)
      requires Valid()
      modifies this
      ensures Valid()
      ensures var e := Read(shapes, old(Rest()), longest);
              && (r.Some? <==> e.Some?)
              && (r.Some? ==> e == Some((r.value, Rest())))
    {
      ghost var before := Rest();
      var fs: seq<Field> := [];
      PrependTwice(fs, fs, Read(shapes, before, longest));
      for i := 0 to |shapes|
        invariant Valid()
        invariant Read(shapes, before, longest) == Prepend(fs, Read(shapes[i..], Rest(), longest))
      {
        assert shapes[i..][1..] == shapes[i + 1..];
        var f := GetField(shapes[i]);
        if f == None { return None; }
        PrependTwice(fs, [f.value], Read(shapes[i + 1..], Rest(), longest));
        fs := fs + [f.value];
      }
      assert fs + [] == fs;
      return Some(fs);
    }

    method GetAll(n: nat, shapes: seq<Shape>) returns (r: Option<seq<seq<Field>>>)
      requires Valid()
      modifies this
      ensures Valid()
      ensures var e := ReadAll(n, shapes, old(Rest()), longest);
              && (r.Some? <==> e.Some?)
              && (r.Some? ==> e == Some((r.value, Rest())))
    {
      ghost var before := Rest();
      var rs: seq<seq<Field>> := [];
      PrependTwice(rs, rs, ReadAll(n, shapes, before, longest));
      for i := 0 to n
        invariant Valid()
        invariant ReadAll(n, shapes, before, longest) == Prepend(rs, ReadAll(n - i, shapes, Rest(), longest))
      {
        assert Copies(n - i, shapes)[1..] == Copies(n - i - 1, shapes);
        var fs := GetRecord(shapes);
        if fs == None { return None; }
        PrependTwice(rs, [fs.value], ReadAll(n - i - 1, shapes, Rest(), longest));
        rs := rs + [fs.value];
      }
      assert rs + [] == rs;
      return Some(rs);
    }
  }
}
