/** The durable snapshot and its sealed binary form: a magic, a version, the payload's length and
checksum, and the payload.

The payload is a head record and four counted lists of records. Decoding is the exact inverse of
encoding on snapshots within the parser's bounds, and any small damage to an accepted string is
noticed.
 */
module Snapshot {
  import opened Types
  import opened Octets
  import opened Crc
  import opened Records
  import opened Tables

  /** The longest string and the largest count the parser takes. */
  const LONGEST: nat := 16 * 1024 * 1024
  const MOST: nat := 1_000_000

  /** The longest string whose length the writer can record. */
  const LONGEST_WRITTEN: nat := 0xFFFF_FFFF

  const MAGIC: Bytes := [0x43, 0x47, 0x53, 0x4E, 0x41, 0x50, 0x30, 0x31]
  const VERSION: nat := 2
  const HEADER: nat := 24

  datatype DurableSnapshot = DurableSnapshot(
    epoch: u64, policy: CostPolicy, schedule: PriceSchedule,
    budgets: seq<Budget>, history: seq<HistoryEntry>, interventions: seq<InterventionEntry>)

  // ---- one counted list -----------------------------------------------------------------

  function PrintSection(rs: seq<seq<Field>>): Bytes {
    ToOctets(|rs|, 4) + PrintAll(rs)
  }

  function ReadSection(shapes: seq<Shape>, b: Bytes): Parsed<seq<seq<Field>>> {
    if |b| < 4 then None
    else
      var n := OfOctets(b[..4]);
      if n > MOST then None else ReadAll(n, shapes, b[4..], LONGEST)
  }

  ghost predicate SectionFits(shapes: seq<Shape>, rs: seq<seq<Field>>) {
    |rs| <= MOST && AllFit(rs, shapes, LONGEST)
  }

  lemma ReadPrintedSection(shapes: seq<Shape>, rs: seq<seq<Field>>, rest: Bytes)
    requires SectionFits(shapes, rs)
    ensures ReadSection(shapes, PrintSection(rs) + rest) == Some((rs, rest))
  {
    var count, body := ToOctets(|rs|, 4), PrintAll(rs) + rest;
    U32RoundTrip(|rs|);
    assert PrintSection(rs) + rest == count + body;
    assert (count + body)[..4] == count && (count + body)[4..] == body;
    ReadPrintedAll(rs, shapes, rest, LONGEST);
  }

  lemma PrintReadSection(shapes: seq<Shape>, b: Bytes)
    requires ReadSection(shapes, b).Some?
    ensures var (rs, rest) := ReadSection(shapes, b).value;
            SectionFits(shapes, rs) && PrintSection(rs) + rest == b
  {
    var (rs, rest) := ReadSection(shapes, b).value;
    PrintReadAll(OfOctets(b[..4]), shapes, b[4..], LONGEST);
    Recount(b, 4, PrintAll(rs), rest);
  }

  lemma Recount(b: Bytes, width: nat, body: Bytes, rest: Bytes)
    requires width <= |b| && b[width..] == body + rest
    ensures ToOctets(OfOctets(b[..width]), width) + body + rest == b
  {
    ToOfOctets(b[..width]);
    assert b == b[..width] + b[width..];
    assert b[..width] + body + rest == b[..width] + (body + rest);
  }

  function SectionPrinter(): seq<seq<Field>> -> Bytes {
    (rs: seq<seq<Field>>) => PrintSection(rs)
  }

  function SectionReader(): (seq<Shape>, Bytes) -> Parsed<seq<seq<Field>>> {
    (shapes: seq<Shape>, b: Bytes) => ReadSection(shapes, b)
  }

  ghost function FitsSection(): (seq<Shape>, seq<seq<Field>>) -> bool {
    (shapes: seq<Shape>, rs: seq<seq<Field>>) => SectionFits(shapes, rs)
  }

  lemma SectionReadsBack(shapes: seq<Shape>, rs: seq<seq<Field>>)
    requires SectionFits(shapes, rs)
    ensures ReadsBack(SectionPrinter(), SectionReader(), shapes, rs)
  {
    forall rest: Bytes ensures SectionReader()(shapes, SectionPrinter()(rs) + rest) == Some((rs, rest)) {
      ReadPrintedSection(shapes, rs, rest);
    }
  }

  lemma SectionPrintsBack(shapes: seq<Shape>)
    ensures PrintsBack(SectionPrinter(), SectionReader(), FitsSection(), shapes)
  {
    forall b: Bytes | ReadSection(shapes, b).Some?
      ensures var (rs, rest) := ReadSection(shapes, b).value;
              FitsSection()(shapes, rs) && SectionPrinter()(rs) + rest == b
    {
      PrintReadSection(shapes, b);
    }
  }

  // ---- the payload, as fields -----------------------------------------------------------

  /** The fields of a payload, in the order they are written. */
  datatype Raw = Raw(head: seq<Field>, sections: seq<seq<seq<Field>>>)

  const SECTIONS: seq<seq<Shape>> := [OBSERVATION_SHAPES, BUDGET_SHAPES, HISTORY_SHAPES, INTERVENTION_SHAPES]

  ghost predicate RawFits(raw: Raw) {
    && ShapesOf(raw.head) == HEAD_SHAPES && Fit(raw.head, LONGEST)
    && |raw.sections| == |SECTIONS|
    && forall i :: 0 <= i < |SECTIONS| ==> FitsSection()(SECTIONS[i], raw.sections[i])
  }

  function PrintRaw(raw: Raw): Bytes {
    Print(raw.head) + PrintEach(raw.sections, SectionPrinter())
  }

  /** Reads a whole payload; anything left over is an error. */
  function ReadRaw(b: Bytes): Option<Raw> {
    match Read(HEAD_SHAPES, b, LONGEST)
    case None => None
    case Some((head, rest)) =>
      match ReadEach(SECTIONS, SectionReader(), rest)
      case None => None
      case Some((sections, rest')) => if rest' == [] then Some(Raw(head, sections)) else None
  }

  lemma ReadPrintedRaw(raw: Raw)
    requires RawFits(raw)
    ensures ReadRaw(PrintRaw(raw)) == Some(raw)
  {
    var body := PrintEach(raw.sections, SectionPrinter());
    ReadPrinted(raw.head, body, LONGEST);
    forall i | 0 <= i < |SECTIONS| ensures ReadsBack(SectionPrinter(), SectionReader(), SECTIONS[i], raw.sections[i]) {
      SectionReadsBack(SECTIONS[i], raw.sections[i]);
    }
    ReadPrintedEach(SECTIONS, raw.sections, SectionPrinter(), SectionReader(), []);
    assert body + [] == body;
  }

  lemma PrintReadRaw(b: Bytes)
    requires ReadRaw(b).Some?
    ensures RawFits(ReadRaw(b).value) && PrintRaw(ReadRaw(b).value) == b
  {
    var raw := ReadRaw(b).value;
    PrintRead(HEAD_SHAPES, b, LONGEST);
    var rest := Read(HEAD_SHAPES, b, LONGEST).value.1;
    forall i | 0 <= i < |SECTIONS| ensures PrintsBack(SectionPrinter(), SectionReader(), FitsSection(), SECTIONS[i]) {
      SectionPrintsBack(SECTIONS[i]);
    }
    PrintReadEach(SECTIONS, SectionPrinter(), SectionReader(), FitsSection(), rest);
    assert PrintEach(raw.sections, SectionPrinter()) + [] == rest;
  }

  /** A payload within bounds is far shorter than its 64-bit length field allows. */
  lemma RawIsShort(raw: Raw)
    requires RawFits(raw)
    ensures |PrintRaw(raw)| < TWO_64
  {
    HeadBound(raw.head);
    BodyBound(raw.sections, 15 * (LONGEST + 8));
  }

  lemma HeadBound(head: seq<Field>)
    requires ShapesOf(head) == HEAD_SHAPES && Fit(head, LONGEST)
    ensures |Print(head)| <= 400_000_000
  {
    FrontShaped(head);
    PrintBound(head, LONGEST);
  }

  lemma BodyBound(sections: seq<seq<seq<Field>>>, record: nat)
    requires |sections| == |SECTIONS| && record == 15 * (LONGEST + 8)
    requires forall i :: 0 <= i < |SECTIONS| ==> FitsSection()(SECTIONS[i], sections[i])
    ensures |PrintEach(sections, SectionPrinter())| <= 0x1000_0000_0000_0000
  {
    forall i | 0 <= i < |sections| ensures |SectionPrinter()(sections[i])| <= 4 + MOST * record {
      assert FitsSection()(SECTIONS[i], sections[i]);
      SectionBound(SECTIONS[i], sections[i], record);
    }
    PrintEachBound(sections, SectionPrinter(), 4 + MOST * record);
  }

  lemma SectionBound(shapes: seq<Shape>, rs: seq<seq<Field>>, record: nat)
    requires SectionFits(shapes, rs) && |shapes| * (LONGEST + 8) <= record
    ensures |PrintSection(rs)| <= 4 + MOST * record
  {
    PrintAllBound(rs, shapes, LONGEST);
    ProductBound(|rs|, |shapes| * (LONGEST + 8), MOST, record);
  }

  lemma ProductBound(a: nat, b: nat, c: nat, d: nat)
    requires a <= c && b <= d
    ensures a * b <= c * d
  {}

  // ---- the payload, as a snapshot ---------------------------------------------------------

  function Rows<X>(t: Table<X>, xs: seq<X>): seq<seq<Field>> {
    seq(|xs|, i requires 0 <= i < |xs| => t.fields(xs[i]))
  }

  function Entries<X>(t: Table<X>, rs: seq<seq<Field>>): seq<X> {
    seq(|rs|, i requires 0 <= i < |rs| => t.make(rs[i]))
  }

  lemma EntriesOfRows<X(!new)>(t: Table<X>, xs: seq<X>)
    requires Exact(t)
    ensures Entries(t, Rows(t, xs)) == xs
  {
    forall i | 0 <= i < |xs| ensures t.make(t.fields(xs[i])) == xs[i] { assert Reads(t, xs[i]); }
  }

  lemma RowsOfEntries<X(!new)>(t: Table<X>, rs: seq<seq<Field>>)
    requires Exact(t) && AllFit(rs, t.shapes, LONGEST)
    ensures Rows(t, Entries(t, rs)) == rs
  {
    forall i | 0 <= i < |rs| ensures t.fields(t.make(rs[i])) == rs[i] {
      assert FitsShapes(LONGEST)(t.shapes, rs[i]) && Prints(t, rs[i]);
    }
  }

  function HeadFor(s: DurableSnapshot): Head {
    Head(s.epoch, s.policy, s.schedule.id, s.schedule.generation, s.schedule.createdAt)
  }

  function RawOf(s: DurableSnapshot): Raw {
    Raw(HeadFields(HeadFor(s)),
        [Rows(OBSERVATION, s.schedule.observations), Rows(BUDGET, s.budgets),
         Rows(HISTORY, s.history), Rows(INTERVENTION, s.interventions)])
  }

  function SnapshotOf(raw: Raw): DurableSnapshot
    requires |raw.sections| == 4
  {
    var h := HeadOf(raw.head);
    DurableSnapshot(h.epoch, h.policy,
                    PriceSchedule(h.schedule, h.generation, h.createdAt, Entries(OBSERVATION, raw.sections[0])),
                    Entries(BUDGET, raw.sections[1]), Entries(HISTORY, raw.sections[2]),
                    Entries(INTERVENTION, raw.sections[3]))
  }

  lemma SnapshotOfRaw(s: DurableSnapshot)
    ensures SnapshotOf(RawOf(s)) == s
  {
    HeadReads(HeadFor(s));
    ObservationExact();
    EntriesOfRows(OBSERVATION, s.schedule.observations);
    BudgetExact();
    EntriesOfRows(BUDGET, s.budgets);
    HistoryExact();
    EntriesOfRows(HISTORY, s.history);
    InterventionExact();
    EntriesOfRows(INTERVENTION, s.interventions);
  }

  lemma RawOfSnapshot(raw: Raw)
    requires RawFits(raw)
    ensures RawOf(SnapshotOf(raw)) == raw <==> PlainFlags(raw.head)
  {
    SectionsFit(raw);
    ObservationExact();
    RowsOfEntries(OBSERVATION, raw.sections[0]);
    BudgetExact();
    RowsOfEntries(BUDGET, raw.sections[1]);
    HistoryExact();
    RowsOfEntries(HISTORY, raw.sections[2]);
    InterventionExact();
    RowsOfEntries(INTERVENTION, raw.sections[3]);
    assert RawOf(SnapshotOf(raw)).sections == raw.sections;
    HeadPrints(raw.head);
  }

  lemma SectionsFit(raw: Raw)
    requires RawFits(raw)
    ensures FitsSection()(OBSERVATION_SHAPES, raw.sections[0]) && FitsSection()(BUDGET_SHAPES, raw.sections[1])
    ensures FitsSection()(HISTORY_SHAPES, raw.sections[2]) && FitsSection()(INTERVENTION_SHAPES, raw.sections[3])
  {}

  // ---- bounds ---------------------------------------------------------------------------

  /** Every currency code of the snapshot is at most `n` octets. */
  predicate StringsFit(s: DurableSnapshot, n: nat) {
    && |s.policy.currency| <= n
    && (forall i :: 0 <= i < |s.schedule.observations| ==> |s.schedule.observations[i].currency| <= n)
    && (forall i :: 0 <= i < |s.budgets| ==> |s.budgets[i].currency| <= n)
  }

  predicate CountsFit(s: DurableSnapshot) {
    && |s.schedule.observations| <= MOST && |s.budgets| <= MOST
    && |s.history| <= MOST && |s.interventions| <= MOST
  }

  /** What the parser takes: strings up to 16 MiB, lists up to a million entries. */
  predicate InBounds(s: DurableSnapshot) {
    StringsFit(s, LONGEST) && CountsFit(s)
  }

  lemma HeadFits(h: Head, n: nat)
    ensures Fit(HeadFields(h), n) <==> |h.policy.currency| <= n
  {
    assert HeadFields(h)[4] == Str(h.policy.currency);
  }

  lemma ObservationFits(o: PriceObservation, n: nat)
    ensures Fit(ObservationFields(o), n) <==> |o.currency| <= n
  {
    assert ObservationFields(o)[5] == Str(o.currency);
  }

  lemma BudgetFits(b: Budget, n: nat)
    ensures Fit(BudgetFields(b), n) <==> |b.currency| <= n
  {
    assert BudgetFields(b)[4] == Str(b.currency);
  }

  lemma InBoundsFits(s: DurableSnapshot)
    requires InBounds(s)
    ensures RawFits(RawOf(s))
  {
    HeadShapes(HeadFor(s));
    HeadFits(HeadFor(s), LONGEST);
    forall i | 0 <= i < |s.schedule.observations|
      ensures FitsShapes(LONGEST)(OBSERVATION_SHAPES, Rows(OBSERVATION, s.schedule.observations)[i])
    {
      ObservationReads(s.schedule.observations[i]);
      ObservationFits(s.schedule.observations[i], LONGEST);
    }
    forall i | 0 <= i < |s.budgets| ensures FitsShapes(LONGEST)(BUDGET_SHAPES, Rows(BUDGET, s.budgets)[i]) {
      BudgetReads(s.budgets[i]);
      BudgetFits(s.budgets[i], LONGEST);
    }
    forall i | 0 <= i < |s.history| ensures FitsShapes(LONGEST)(HISTORY_SHAPES, Rows(HISTORY, s.history)[i]) {
      HistoryReads(s.history[i]);
    }
    forall i | 0 <= i < |s.interventions|
      ensures FitsShapes(LONGEST)(INTERVENTION_SHAPES, Rows(INTERVENTION, s.interventions)[i])
    {
      InterventionReads(s.interventions[i]);
    }
    assert FitsSection()(OBSERVATION_SHAPES, Rows(OBSERVATION, s.schedule.observations));
    assert FitsSection()(BUDGET_SHAPES, Rows(BUDGET, s.budgets));
    assert FitsSection()(HISTORY_SHAPES, Rows(HISTORY, s.history));
    assert FitsSection()(INTERVENTION_SHAPES, Rows(INTERVENTION, s.interventions));
  }

  lemma TextFits(fs: seq<Field>, i: nat, n: nat)
    requires Fit(fs, n)
    ensures |Text(fs, i)| <= n
  {}

  lemma FitsInBounds(raw: Raw)
    requires RawFits(raw)
    ensures InBounds(SnapshotOf(raw))
  {}

  // ---- the seal -------------------------------------------------------------------------

  function Seal(payload: Bytes): Bytes {
    MAGIC + ToOctets(VERSION, 4) + ToOctets(|payload|, 8) + ToOctets(Checksum(payload), 4) + payload
  }

  /** The payload of a sealed string, checked in the order the decoder checks. */
  function Unseal(b: Bytes): Result<Bytes> {
    if |b| < HEADER then Err(Thrown(PERSISTENCE_CORRUPT))
    else if b[..8] != MAGIC then Err(Thrown(PERSISTENCE_CORRUPT))
    else if OfOctets(b[8..12]) == 1 then Err(Thrown(PERSISTENCE_UNSUPPORTED_VERSION))
    else if OfOctets(b[8..12]) != VERSION then Err(Thrown(PERSISTENCE_CORRUPT))
    else if OfOctets(b[12..20]) != |b| - HEADER then Err(Thrown(PERSISTENCE_CORRUPT))
    else if Checksum(b[HEADER..]) != OfOctets(b[20..24]) then Err(Thrown(PERSISTENCE_CORRUPT))
    else Ok(b[HEADER..])
  }

  lemma SealParts(payload: Bytes)
    ensures var b := Seal(payload);
            && |b| == HEADER + |payload| && b[..8] == MAGIC && b[8..12] == ToOctets(VERSION, 4)
            && b[12..20] == ToOctets(|payload|, 8) && b[20..24] == ToOctets(Checksum(payload), 4)
            && b[HEADER..] == payload
  {
    FiveParts(MAGIC, ToOctets(VERSION, 4), ToOctets(|payload|, 8), ToOctets(Checksum(payload), 4), payload);
  }

  lemma FiveParts(m: Bytes, v: Bytes, n: Bytes, c: Bytes, p: Bytes)
    requires |m| == 8 && |v| == 4 && |n| == 8 && |c| == 4
    ensures var b := m + v + n + c + p;
            b[..8] == m && b[8..12] == v && b[12..20] == n && b[20..24] == c && b[24..] == p
  {}

  lemma UnsealSealed(payload: Bytes)
    requires |payload| < TWO_64
    ensures Unseal(Seal(payload)) == Ok(payload)
  {
    SealParts(payload);
    U32RoundTrip(VERSION);
    U64RoundTrip(|payload|);
    U32RoundTrip(Checksum(payload));
  }

  /** A string that unseals is the seal of its payload, octet for octet. */
  lemma SealUnsealed(b: Bytes)
    requires Unseal(b).Ok?
    ensures Seal(Unseal(b).value) == b && |b| < HEADER + TWO_64
  {
    OctetsBelow(b[12..20]);
    Recovered(b, 8, 12);
    Recovered(b, 12, 20);
    Recovered(b, 20, 24);
    Resealed(b, ToOctets(VERSION, 4), ToOctets(|b| - HEADER, 8), ToOctets(Checksum(b[HEADER..]), 4));
  }

  lemma Recovered(b: Bytes, lo: nat, hi: nat)
    requires lo <= hi <= |b|
    ensures ToOctets(OfOctets(b[lo..hi]), hi - lo) == b[lo..hi]
  {
    ToOfOctets(b[lo..hi]);
  }

  lemma Resealed(b: Bytes, v: Bytes, n: Bytes, c: Bytes)
    requires |b| >= HEADER && b[..8] == MAGIC && b[8..12] == v && b[12..20] == n && b[20..24] == c
    ensures MAGIC + v + n + c + b[HEADER..] == b
  {}

  // ---- the codec ------------------------------------------------------------------------

  function Encode(s: DurableSnapshot): Result<Bytes> {
    if StringsFit(s, LONGEST_WRITTEN) then Ok(Seal(PrintRaw(RawOf(s)))) else Err(Thrown(RESOURCE_EXHAUSTED))
  }

  function Decode(b: Bytes): Result<DurableSnapshot> {
    var payload :- Unseal(b);
    match ReadRaw(payload)
    case None => Err(Thrown(PERSISTENCE_CORRUPT))
    case Some(raw) => PrintReadRaw(payload); Ok(SnapshotOf(raw))
  }

  lemma DecodeEncoded(s: DurableSnapshot)
    requires InBounds(s)
    ensures Encode(s).Ok? && Decode(Encode(s).value) == Ok(s)
  {
    InBoundsFits(s);
    EncodeSeals(s, RawOf(s));
    DecodeSealed(RawOf(s));
    SnapshotOfRaw(s);
  }

  lemma EncodeSeals(s: DurableSnapshot, raw: Raw)
    requires InBounds(s) && raw == RawOf(s)
    ensures Encode(s) == Ok(Seal(PrintRaw(raw)))
  {}

  lemma DecodeSealed(raw: Raw)
    requires RawFits(raw)
    ensures Decode(Seal(PrintRaw(raw))) == Ok(SnapshotOf(raw))
  {
    ReadPrintedRaw(raw);
    RawIsShort(raw);
    UnsealSealed(PrintRaw(raw));
  }

  /** Decoding undoes encoding exactly on the snapshots within the parser's bounds. */
  lemma RoundTrip(s: DurableSnapshot)
    ensures InBounds(s) <==> Encode(s).Ok? && Decode(Encode(s).value) == Ok(s)
  {
    if InBounds(s) {
      DecodeEncoded(s);
    } else if Encode(s).Ok? && Decode(Encode(s).value) == Ok(s) {
      DecodedInBounds(Encode(s).value);
    }
  }

  lemma DecodedInBounds(b: Bytes)
    requires Decode(b).Ok?
    ensures InBounds(Decode(b).value)
  {
    var payload := Unseal(b).value;
    PrintReadRaw(payload);
    FitsInBounds(ReadRaw(payload).value);
  }

  /** An old-format string is told apart from a damaged one, and by its first twelve octets alone. */
  lemma OldFormat(b: Bytes)
    ensures Decode(b) == Err(Thrown(PERSISTENCE_UNSUPPORTED_VERSION)) <==>
            |b| >= HEADER && b[..8] == MAGIC && OfOctets(b[8..12]) == 1
    ensures Decode(b).Err? ==> Decode(b).error in {Thrown(PERSISTENCE_UNSUPPORTED_VERSION), Thrown(PERSISTENCE_CORRUPT)}
  {}
}
