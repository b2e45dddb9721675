/** The snapshot writer and parser as they run: a growing buffer and a moving cursor. */
module Codec {
  import opened Types
  import opened Octets
  import opened Crc
  import opened Records
  import opened Tables
  import opened Snapshot

  // ---- writing ----------------------------------------------------------------------------

  ghost predicate AllTaken(w: Writer, sections: seq<seq<seq<Field>>>) {
    forall i :: 0 <= i < |sections| ==> w.TakesEach(sections[i])
  }

  method PutSections(w: Writer, sections: seq<seq<seq<Field>>>) returns (ok: bool)
    modifies w
    ensures ok == AllTaken(w, sections)
    ensures ok ==> w.buf == old(w.buf) + PrintEach(sections, SectionPrinter())
  {
    ghost var printer := SectionPrinter();
    ok := true;
    assert sections[0..] == sections;
    for i := 0 to |sections|
      invariant forall j :: 0 <= j < i ==> w.TakesEach(sections[j])
      invariant w.buf + PrintEach(sections[i..], printer) == old(w.buf) + PrintEach(sections, printer)
    {
      ok := PutSection(w, sections, i, printer);
      if !ok { return; }
    }
    assert sections[|sections|..] == [];
  }

  method PutSection(w: Writer, sections: seq<seq<seq<Field>>>, i: nat, ghost printer: seq<seq<Field>> -> Bytes)
    returns (ok: bool)
    requires i < |sections| && printer == SectionPrinter()
    modifies w
    ensures ok == w.TakesEach(sections[i])
    ensures ok ==> w.buf + PrintEach(sections[i + 1..], printer) == old(w.buf) + PrintEach(sections[i..], printer)
  {
    PrintNext(sections, i, printer);
    Regroup(w.buf, printer(sections[i]), PrintEach(sections[i + 1..], printer));
    Regroup(w.buf, ToOctets(|sections[i]|, 4), PrintAll(sections[i]));
    ok := w.PutAll(sections[i]);
  }

  /** The writer refuses exactly the snapshots with a string too long for its count. */
  lemma TakenMeansFits(w: Writer, s: DurableSnapshot)
    requires w.bound == Some(LONGEST_WRITTEN)
    ensures w.TakesAll(RawOf(s).head) && AllTaken(w, RawOf(s).sections) <==> StringsFit(s, LONGEST_WRITTEN)
  {
    var raw := RawOf(s);
    TakesIsFit(w, raw.head);
    HeadFits(HeadFor(s), LONGEST_WRITTEN);
    ObservationsTaken(w, s.schedule.observations);
    BudgetsTaken(w, s.budgets);
    HistoryTaken(w, s.history);
    InterventionsTaken(w, s.interventions);
    FourTaken(w, raw.sections);
  }

  lemma FourTaken(w: Writer, sections: seq<seq<seq<Field>>>)
    requires |sections| == 4
    ensures AllTaken(w, sections) <==>
            w.TakesEach(sections[0]) && w.TakesEach(sections[1]) && w.TakesEach(sections[2]) && w.TakesEach(sections[3])
  {}

  lemma TakesIsFit(w: Writer, fs: seq<Field>)
    requires w.bound == Some(LONGEST_WRITTEN)
    ensures w.TakesAll(fs) <==> Fit(fs, LONGEST_WRITTEN)
  {}

  lemma ObservationsTaken(w: Writer, os: seq<PriceObservation>)
    requires w.bound == Some(LONGEST_WRITTEN)
    ensures w.TakesEach(Rows(OBSERVATION, os)) <==> forall i :: 0 <= i < |os| ==> |os[i].currency| <= LONGEST_WRITTEN
  {
    forall i | 0 <= i < |os| ensures w.TakesAll(Rows(OBSERVATION, os)[i]) <==> |os[i].currency| <= LONGEST_WRITTEN {
      TakesIsFit(w, ObservationFields(os[i]));
      ObservationFits(os[i], LONGEST_WRITTEN);
    }
  }

  lemma BudgetsTaken(w: Writer, bs: seq<Budget>)
    requires w.bound == Some(LONGEST_WRITTEN)
    ensures w.TakesEach(Rows(BUDGET, bs)) <==> forall i :: 0 <= i < |bs| ==> |bs[i].currency| <= LONGEST_WRITTEN
  {
    forall i | 0 <= i < |bs| ensures w.TakesAll(Rows(BUDGET, bs)[i]) <==> |bs[i].currency| <= LONGEST_WRITTEN {
      TakesIsFit(w, BudgetFields(bs[i]));
      BudgetFits(bs[i], LONGEST_WRITTEN);
    }
  }

  lemma HistoryTaken(w: Writer, hs: seq<HistoryEntry>)
    ensures w.TakesEach(Rows(HISTORY, hs))
  {}

  lemma InterventionsTaken(w: Writer, entries: seq<InterventionEntry>)
    ensures w.TakesEach(Rows(INTERVENTION, entries))
  {}

  method PutRaw(w: Writer, raw: Raw) returns (ok: bool)
    modifies w
    ensures ok == (w.TakesAll(raw.head) && AllTaken(w, raw.sections))
    ensures ok ==> w.buf == old(w.buf) + PrintRaw(raw)
  {
    Regroup(w.buf, Print(raw.head), PrintEach(raw.sections, SectionPrinter()));
    ok := w.PutRecord(raw.head);
    if ok { ok := PutSections(w, raw.sections); }
  }

  method EncodeSnapshot(s: DurableSnapshot) returns (r: Result<Bytes>)
    ensures r == Encode(s)
  {
    var w := new Writer(Some(LONGEST_WRITTEN));
    TakenMeansFits(w, s);
    var ok := PutRaw(w, RawOf(s));
    if !ok { return Err(Thrown(RESOURCE_EXHAUSTED)); }
    assert [] + PrintRaw(RawOf(s)) == PrintRaw(RawOf(s));
    var b := SealPayload(w.buf);
    return Ok(b);
  }

  method SealPayload(payload: Bytes) returns (b: Bytes)
    ensures b == Seal(payload)
  {
    var out := new Writer(None);
    var crc := ComputeChecksum(payload);
    out.buf := MAGIC;
    out.PutNumber(VERSION, 4);
    out.PutNumber(|payload|, 8);
    out.PutNumber(crc, 4);
    return out.buf + payload;
  }

  // ---- reading ----------------------------------------------------------------------------

  method GetSection(r: Reader, shapes: seq<Shape>) returns (rs: Option<seq<seq<Field>>>)
    requires r.Valid() && r.longest == LONGEST
    modifies r
    ensures r.Valid()
    ensures var e := ReadSection(shapes, old(r.Rest()));
            (rs.Some? <==> e.Some?) && (rs.Some? ==> e == Some((rs.value, r.Rest())))
  {
    var n := r.GetNumber(4);
    if n == None || n.value > MOST { return None; }
    rs := r.GetAll(n.value, shapes);
  }

  method GetSections(r: Reader, table: seq<seq<Shape>>) returns (sections: Option<seq<seq<seq<Field>>>>)
    requires r.Valid() && r.longest == LONGEST
    modifies r
    ensures r.Valid()
    ensures var e := ReadEach(table, SectionReader(), old(r.Rest()));
            (sections.Some? <==> e.Some?) && (sections.Some? ==> e == Some((sections.value, r.Rest())))
  {
    ghost var before, reader := r.Rest(), SectionReader();
    var done: seq<seq<seq<Field>>> := [];
    PrependTwice(done, done, ReadEach(table, reader, before));
    for i := 0 to |table|
      invariant r.Valid()
      invariant ReadEach(table, reader, before) == Prepend(done, ReadEach(table[i..], reader, r.Rest()))
    {
      assert table[i..][1..] == table[i + 1..];
      var rs := GetSection(r, table[i]);
      if rs == None { return None; }
      PrependTwice(done, [rs.value], ReadEach(table[i + 1..], reader, r.Rest()));
      done := done + [rs.value];
    }
    assert done + [] == done;
    return Some(done);
  }

  method UnsealPayload(b: Bytes) returns (r: Result<Bytes>)
    ensures r == Unseal(b)
  {
    if |b| < HEADER || b[..8] != MAGIC { return Err(Thrown(PERSISTENCE_CORRUPT)); }
    var header := new Reader(b[8..HEADER], 0);
    assert b[8..HEADER][..4] == b[8..12] && b[8..HEADER][4..][..8] == b[12..20]
           && b[8..HEADER][4..][8..][..4] == b[20..24];
    var version := header.GetNumber(4);
    if version.value == 1 { return Err(Thrown(PERSISTENCE_UNSUPPORTED_VERSION)); }
    if version.value != VERSION { return Err(Thrown(PERSISTENCE_CORRUPT)); }
    var length := header.GetNumber(8);
    var stored := header.GetNumber(4);
    if length.value != |b| - HEADER { return Err(Thrown(PERSISTENCE_CORRUPT)); }
    var crc := ComputeChecksum(b[HEADER..]);
    if crc != stored.value { return Err(Thrown(PERSISTENCE_CORRUPT)); }
    return Ok(b[HEADER..]);
  }

  method ParsePayload(payload: Bytes) returns (raw: Option<Raw>)
    ensures raw == ReadRaw(payload)
  {
    var r := new Reader(payload, LONGEST);
    assert r.Rest() == payload;
    var head := r.GetRecord(HEAD_SHAPES);
    if head == None { return None; }
    var sections := GetSections(r, SECTIONS);
    if sections == None || r.pos != |payload| { return None; }
    return Some(Raw(head.value, sections.value));
  }

  method DecodeSnapshot(b: Bytes) returns (r: Result<DurableSnapshot>)
    ensures r == Decode(b)
  {
    var payload := UnsealPayload(b);
    if payload.Err? { return Err(payload.error); }
    var raw := ParsePayload(payload.value);
    if raw == None { return Err(Thrown(PERSISTENCE_CORRUPT)); }
    PrintReadRaw(payload.value);
    return Ok(SnapshotOf(raw.value));
  }
}
