/** The field tables of the durable records: which fields, in which order, with which widths. */
module Tables {
  import opened Types
  import opened Records

  /** A record type given by its list of fields; `make` is total, and meant for lists of the right shapes. */
  datatype Table<!X> = Table(shapes: seq<Shape>, fields: X -> seq<Field>, make: seq<Field> -> X)

  ghost predicate Reads<X(!new)>(t: Table<X>, x: X) {
    ShapesOf(t.fields(x)) == t.shapes && t.make(t.fields(x)) == x
  }

  ghost predicate Prints<X>(t: Table<X>, fs: seq<Field>) {
    ShapesOf(fs) == t.shapes ==> t.fields(t.make(fs)) == fs
  }

  /** Records and field lists of the table's shapes correspond one to one. */
  ghost predicate Exact<X(!new)>(t: Table<X>) {
    (forall x :: Reads(t, x)) && (forall fs :: Prints(t, fs))
  }

  function Id(fs: seq<Field>, i: nat): u64 {
    if i < |fs| && fs[i].U64? then fs[i].unsigned else 0
  }

  function Num(fs: seq<Field>, i: nat): i64 {
    if i < |fs| && fs[i].I64? then fs[i].signed else 0
  }

  function Oct(fs: seq<Field>, i: nat): u8 {
    if i < |fs| && fs[i].U8? then fs[i].octet else 0
  }

  function Text(fs: seq<Field>, i: nat): Bytes {
    if i < |fs| && fs[i].Str? then fs[i].text else []
  }

  function Flag(fs: seq<Field>, i: nat): bool {
    Oct(fs, i) != 0
  }

  function OfBool(b: bool): Field {
    U8(if b then 1 else 0)
  }

  // ---- price observations ---------------------------------------------------------------

  const OBSERVATION_SHAPES := [OfU64, OfU8, OfU64, OfU64, OfI64, OfStr, OfU8, OfU8, OfI64, OfI64, OfI64, OfU64, OfU64,
                               OfU64, OfU64]

  const OBSERVATION: Table<PriceObservation> := Table(OBSERVATION_SHAPES, ObservationFields, ObservationOf)

  function ObservationFields(o: PriceObservation): seq<Field> {
    [U64(o.id), U8(o.kind), U64(o.resource), U64(o.device), I64(o.amount), Str(o.currency),
     U8(o.provenance), U8(o.dataLabel), I64(o.validFrom), I64(o.validTo), I64(o.observedAt),
     U64(o.generation), U64(o.epoch), U64(o.worker), U64(o.boot)]
  }

  function ObservationOf(fs: seq<Field>): PriceObservation {
    PriceObservation(Id(fs, 0), Oct(fs, 1), Id(fs, 2), Id(fs, 3), Num(fs, 4), Text(fs, 5),
                     Oct(fs, 6), Oct(fs, 7), Num(fs, 8), Num(fs, 9), Num(fs, 10),
                     Id(fs, 11), Id(fs, 12), Id(fs, 13), Id(fs, 14))
  }

  lemma ObservationReads(o: PriceObservation)
    ensures ShapesOf(ObservationFields(o)) == OBSERVATION_SHAPES
    ensures ObservationOf(ObservationFields(o)) == o
  {}

  lemma ObservationPrints(fs: seq<Field>)
    requires ShapesOf(fs) == OBSERVATION_SHAPES
    ensures ObservationFields(ObservationOf(fs)) == fs
  {}

  lemma ObservationExact()
    ensures Exact(OBSERVATION)
  {
    forall x ensures Reads(OBSERVATION, x) { ObservationReads(x); }
    forall fs ensures Prints(OBSERVATION, fs) {
      if ShapesOf(fs) == OBSERVATION.shapes { ObservationPrints(fs); }
    }
  }

  lemma ShapesGive(fs: seq<Field>, shapes: seq<Shape>)
    requires ShapesOf(fs) == shapes
    ensures |fs| == |shapes| && forall i :: 0 <= i < |fs| ==> ShapeOf(fs[i]) == shapes[i]
  {}

  lemma Spelled<T>(s: seq<T>)
    ensures |s| == 15 ==>
      s == [s[0], s[1], s[2], s[3], s[4], s[5], s[6], s[7], s[8], s[9], s[10], s[11], s[12], s[13], s[14]]
  {}

  // ---- budgets --------------------------------------------------------------------------

  const BUDGET_SHAPES := [OfU64, OfU64, OfU64, OfU64, OfStr, OfU8, OfU8, OfI64, OfU8, OfI64, OfI64, OfI64, OfI64,
                          OfI64, OfU8]

  const BUDGET: Table<Budget> := Table(BUDGET_SHAPES, BudgetFields, BudgetOf)

  function BudgetFields(b: Budget): seq<Field> {
    [U64(b.id), U64(b.generation), U64(b.policyGeneration), U64(b.epoch), Str(b.currency),
     U8(b.mode), U8(b.objective), I64(b.limit), U8(b.lifecycle),
     I64(b.reserved), I64(b.consumed), I64(b.released), I64(b.createdAt), I64(b.expiresAt), U8(b.dataLabel)]
  }

  function BudgetOf(fs: seq<Field>): Budget {
    Budget(Id(fs, 0), Id(fs, 1), Id(fs, 2), Id(fs, 3), Text(fs, 4),
           Oct(fs, 5), Oct(fs, 6), Num(fs, 7), Oct(fs, 8),
           Num(fs, 9), Num(fs, 10), Num(fs, 11), Num(fs, 12), Num(fs, 13), Oct(fs, 14))
  }

  lemma BudgetReads(b: Budget)
    ensures ShapesOf(BudgetFields(b)) == BUDGET_SHAPES
    ensures BudgetOf(BudgetFields(b)) == b
  {}

  lemma BudgetPrints(fs: seq<Field>)
    requires ShapesOf(fs) == BUDGET_SHAPES
    ensures BudgetFields(BudgetOf(fs)) == fs
  {}

  lemma BudgetExact()
    ensures Exact(BUDGET)
  {
    forall x ensures Reads(BUDGET, x) { BudgetReads(x); }
    forall fs ensures Prints(BUDGET, fs) {
      if ShapesOf(fs) == BUDGET.shapes { BudgetPrints(fs); }
    }
  }

  // ---- history and interventions --------------------------------------------------------

  const HISTORY_SHAPES := [OfU64, OfU64, OfI64, OfI64, OfI64, OfI64]

  const HISTORY: Table<HistoryEntry> := Table(HISTORY_SHAPES, HistoryFields, HistoryOf)

  function HistoryFields(h: HistoryEntry): seq<Field> {
    [U64(h.request), U64(h.workload), I64(h.completedAt), I64(h.realizedCost), I64(h.attempts), I64(h.tokens)]
  }

  function HistoryOf(fs: seq<Field>): HistoryEntry {
    HistoryEntry(Id(fs, 0), Id(fs, 1), Num(fs, 2), Num(fs, 3), Num(fs, 4), Num(fs, 5))
  }

  lemma HistoryReads(h: HistoryEntry)
    ensures ShapesOf(HistoryFields(h)) == HISTORY_SHAPES
    ensures HistoryOf(HistoryFields(h)) == h
  {}

  lemma HistoryExact()
    ensures Exact(HISTORY)
  {}

  const INTERVENTION_SHAPES := [OfU64, OfU8, OfU8, OfU64, OfI64]

  const INTERVENTION: Table<InterventionEntry> := Table(INTERVENTION_SHAPES, InterventionFields, InterventionOf)

  function InterventionFields(i: InterventionEntry): seq<Field> {
    [U64(i.id), U8(i.kind), U8(i.lifecycle), U64(i.generation), I64(i.createdAt)]
  }

  function InterventionOf(fs: seq<Field>): InterventionEntry {
    InterventionEntry(Id(fs, 0), Oct(fs, 1), Oct(fs, 2), Id(fs, 3), Num(fs, 4))
  }

  lemma InterventionReads(i: InterventionEntry)
    ensures ShapesOf(InterventionFields(i)) == INTERVENTION_SHAPES
    ensures InterventionOf(InterventionFields(i)) == i
  {}

  lemma InterventionExact()
    ensures Exact(INTERVENTION)
  {}

  // ---- the head of a snapshot: epoch, policy, schedule identity ---------------------------

  datatype Head = Head(epoch: u64, policy: CostPolicy, schedule: u64, generation: u64, createdAt: i64)

  const HEAD_SHAPES := [OfU64, OfU64, OfU64, OfU64, OfStr, OfU8, OfI64, OfI64, OfI64, OfI64, OfI64, OfI64, OfI64,
                        OfI64, OfI64, OfI64, OfU8, OfU8, OfU8, OfU8, OfU64, OfU64, OfI64]

  function HeadFields(h: Head): seq<Field> {
    FrontFields(h) + FlagFields(h.policy) + [U64(h.schedule), U64(h.generation), I64(h.createdAt)]
  }

  function FrontFields(h: Head): seq<Field> {
    var p := h.policy;
    [U64(h.epoch), U64(p.id), U64(p.generation), U64(p.epoch), Str(p.currency), U8(p.ranking),
     I64(p.minEvidenceFreshness), I64(p.maxEvidenceAge), I64(p.priceScheduleMaxAge),
     I64(p.maxProjectionUncertainty), I64(p.hysteresis), I64(p.cooldown),
     I64(p.nearBudgetPercent), I64(p.atRiskPercent), I64(p.retryBudget), I64(p.recoveryBudget)]
  }

  function FlagFields(p: CostPolicy): seq<Field> {
    [OfBool(p.recoveryCostKnown), OfBool(p.allowSynthetic), OfBool(p.allowPolicy), OfBool(p.allowMeasured)]
  }

  function HeadOf(fs: seq<Field>): Head {
    Head(Id(fs, 0),
         CostPolicy(Id(fs, 1), Id(fs, 2), Id(fs, 3), Text(fs, 4), Oct(fs, 5),
                    Num(fs, 6), Num(fs, 7), Num(fs, 8), Num(fs, 9), Num(fs, 10), Num(fs, 11),
                    Num(fs, 12), Num(fs, 13), Num(fs, 14), Num(fs, 15),
                    Flag(fs, 16), Flag(fs, 17), Flag(fs, 18), Flag(fs, 19)),
         Id(fs, 20), Id(fs, 21), Num(fs, 22))
  }

  /** The four policy flags are written as 0 or 1. */
  predicate PlainFlags(fs: seq<Field>) {
    Oct(fs, 16) <= 1 && Oct(fs, 17) <= 1 && Oct(fs, 18) <= 1 && Oct(fs, 19) <= 1
  }

  lemma HeadShapes(h: Head)
    ensures ShapesOf(HeadFields(h)) == HEAD_SHAPES
  {}

  lemma HeadReads(h: Head)
    ensures HeadOf(HeadFields(h)) == h
  {}

  lemma FrontShaped(fs: seq<Field>)
    requires ShapesOf(fs) == HEAD_SHAPES
    ensures |fs| == 23 && fs[0].U64? && fs[1].U64? && fs[2].U64? && fs[3].U64? && fs[4].Str? && fs[5].U8?
    ensures fs[6].I64? && fs[7].I64? && fs[8].I64? && fs[9].I64? && fs[10].I64?
    ensures fs[11].I64? && fs[12].I64? && fs[13].I64? && fs[14].I64? && fs[15].I64?
  {
    ShapesGive(fs, HEAD_SHAPES);
  }

  lemma BackShaped(fs: seq<Field>)
    requires ShapesOf(fs) == HEAD_SHAPES
    ensures |fs| == 23 && fs[16].U8? && fs[17].U8? && fs[18].U8? && fs[19].U8?
    ensures fs[20].U64? && fs[21].U64? && fs[22].I64?
  {}

  lemma FrontPrints(fs: seq<Field>)
    requires ShapesOf(fs) == HEAD_SHAPES
    ensures |fs| == 23 && FrontFields(HeadOf(fs)) == fs[..16]
  {
    FrontShaped(fs);
    Spelled(fs[..15]);
    assert fs[..16] == fs[..15] + [fs[15]];
  }

  lemma FlagsPrint(fs: seq<Field>)
    requires |fs| == 23 && fs[16].U8? && fs[17].U8? && fs[18].U8? && fs[19].U8?
    ensures FlagFields(HeadOf(fs).policy) == fs[16..20] <==> PlainFlags(fs)
  {}

  lemma BackPrints(fs: seq<Field>)
    requires |fs| == 23 && fs[20].U64? && fs[21].U64? && fs[22].I64?
    ensures var h := HeadOf(fs); [U64(h.schedule), U64(h.generation), I64(h.createdAt)] == fs[20..]
  {}

  /** A flag octet above 1 is read as true and written back as 1. */
  lemma HeadPrints(fs: seq<Field>)
    requires ShapesOf(fs) == HEAD_SHAPES
    ensures HeadFields(HeadOf(fs)) == fs <==> PlainFlags(fs)
  {
    FrontPrints(fs);
    BackShaped(fs);
    FlagsPrint(fs);
    BackPrints(fs);
    Cut3(FrontFields(HeadOf(fs)), FlagFields(HeadOf(fs).policy), fs);
  }

  lemma Cut3(a: seq<Field>, b: seq<Field>, fs: seq<Field>)
    requires |a| == 16 && |b| == 4 && |fs| >= 20 && a == fs[..16]
    ensures a + b + fs[20..] == fs <==> b == fs[16..20]
  {}
}
