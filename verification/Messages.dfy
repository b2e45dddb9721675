/** The wire records: observations and evidence survive a trip unchanged, a plan loses its placement
and recovery fields. */
module Messages {
  import opened Types
  import opened Records
  import opened Tables
  import opened Pricing
  import opened Billing
  import opened Planning
  import opened Frames

  // ---- prices ---------------------------------------------------------------------------

  function EncodePrice(o: PriceObservation): Bytes {
    Print(ObservationFields(o))
  }

  /** Reads a price and leaves the rest; handlers ignore trailing octets. */
  function DecodePrice(b: Bytes): Option<(PriceObservation, Bytes)> {
    match Read(OBSERVATION_SHAPES, b, MAX_PAYLOAD)
    case None => None
    case Some((fs, rest)) => Some((ObservationOf(fs), rest))
  }

  /** Every observation that fits a frame at all survives the trip. */
  lemma PriceRoundTrip(o: PriceObservation, rest: Bytes)
    requires |EncodePrice(o)| <= MAX_PAYLOAD
    ensures DecodePrice(EncodePrice(o) + rest) == Some((o, rest))
  {
    ObservationReads(o);
    CurrencyWithin(o);
    PriceFits(o);
    ReadPrinted(ObservationFields(o), rest, MAX_PAYLOAD);
  }

  lemma CurrencyWithin(o: PriceObservation)
    ensures |o.currency| <= |EncodePrice(o)|
  {
    FieldWithin(ObservationFields(o), 5, FieldPrinter());
  }

  lemma {:induction false} FieldWithin(fs: seq<Field>, i: nat, printer: Field -> Bytes)
    requires i < |fs|
    ensures |printer(fs[i])| <= |PrintEach(fs, printer)|
  {
    if i > 0 {
      assert fs[1..][i - 1] == fs[i];
      FieldWithin(fs[1..], i - 1, printer);
    }
  }

  lemma PriceFits(o: PriceObservation)
    requires |o.currency| <= MAX_PAYLOAD
    ensures Fit(ObservationFields(o), MAX_PAYLOAD)
  {}

  // ---- evidence -------------------------------------------------------------------------

  const EVIDENCE_SHAPES :=
    [OfU64, OfU64, OfU64, OfU64, OfU64, OfU64, OfU64, OfU64, OfU64, OfI64, OfU64, OfU64, OfU8, OfU8, OfU8,
     OfI64, OfI64, OfI64, OfI64, OfI64, OfI64, OfI64, OfI64, OfI64, OfI64, OfI64]

  function EvidenceFields(e: CostEvidence): seq<Field> {
    [U64(e.id), U64(e.request), U64(e.workload), U64(e.attempt), U64(e.attemptGeneration),
     U64(e.worker), U64(e.boot), U64(e.epoch), U64(e.generation), I64(e.observedAt),
     U64(e.device), U64(e.resource), U8(e.dataLabel), OfBool(e.completedSuccessfully), OfBool(e.isCompletion),
     I64(e.acceleratorTime), I64(e.energy), I64(e.transfer), I64(e.memoryHold), I64(e.residencyHold),
     I64(e.storageBytes), I64(e.requests), I64(e.tokens), I64(e.operations), I64(e.recoveryActions), I64(e.recomputeNs)]
  }

  function EvidenceOf(fs: seq<Field>): CostEvidence {
    CostEvidence(Id(fs, 0), Id(fs, 1), Id(fs, 2), Id(fs, 3), Id(fs, 4), Id(fs, 5), Id(fs, 6), Id(fs, 7), Id(fs, 8),
                 Num(fs, 9), Id(fs, 10), Id(fs, 11), Oct(fs, 12), Flag(fs, 13), Flag(fs, 14),
                 Num(fs, 15), Num(fs, 16), Num(fs, 17), Num(fs, 18), Num(fs, 19), Num(fs, 20),
                 Num(fs, 21), Num(fs, 22), Num(fs, 23), Num(fs, 24), Num(fs, 25))
  }

  function EncodeEvidence(e: CostEvidence): Bytes {
    Print(EvidenceFields(e))
  }

  function DecodeEvidence(b: Bytes): Option<(CostEvidence, Bytes)> {
    match Read(EVIDENCE_SHAPES, b, MAX_PAYLOAD)
    case None => None
    case Some((fs, rest)) => Some((EvidenceOf(fs), rest))
  }

  lemma EvidenceShaped(e: CostEvidence)
    ensures ShapesOf(EvidenceFields(e)) == EVIDENCE_SHAPES
  {}

  lemma EvidenceFits(e: CostEvidence)
    ensures Fit(EvidenceFields(e), MAX_PAYLOAD)
  {}

  lemma EvidenceReads(e: CostEvidence)
    ensures EvidenceOf(EvidenceFields(e)) == e
  {}

  lemma EvidenceRoundTrip(e: CostEvidence, rest: Bytes)
    ensures DecodeEvidence(EncodeEvidence(e) + rest) == Some((e, rest))
  {
    EvidenceShaped(e);
    EvidenceFits(e);
    EvidenceReads(e);
    ReadPrinted(EvidenceFields(e), rest, MAX_PAYLOAD);
  }

  // ---- plans ----------------------------------------------------------------------------

  const PLAN_SHAPES :=
    [OfU64, OfU64, OfU64, OfU64, OfU64, OfU64, OfU64, OfU64, OfU64,
     OfI64, OfI64, OfI64, OfI64, OfI64, OfI64, OfI64, OfI64, OfI64, OfI64, OfU8, OfU8, OfI64]

  function PlanFields(p: ExecutionPlan): seq<Field> {
    [U64(p.id), U64(p.generation), U64(p.workload), U64(p.workloadGeneration),
     U64(p.resource), U64(p.resourceGeneration), U64(p.device), U64(p.deviceGeneration), U64(p.worker),
     I64(p.acceleratorTime), I64(p.energy), I64(p.transfer), I64(p.memoryHold), I64(p.residencyHold),
     I64(p.storageBytes), I64(p.retries), I64(p.requests), I64(p.tokens), I64(p.operations),
     U8(p.dataLabel), OfBool(p.meetsHardSlo), I64(p.completionProbabilityPercent)]
  }

  /** Fields that are not sent keep the defaults of a new plan. */
  function PlanOf(fs: seq<Field>): ExecutionPlan {
    ExecutionPlan(Id(fs, 0), Id(fs, 1), Id(fs, 2), Id(fs, 3), Id(fs, 4), Id(fs, 5), Id(fs, 6), Id(fs, 7),
                  0, 0, 0, Id(fs, 8),
                  Num(fs, 9), Num(fs, 10), Num(fs, 11), Num(fs, 12), Num(fs, 13), Num(fs, 14),
                  Num(fs, 15), Num(fs, 16), Num(fs, 17), Num(fs, 18),
                  0, 0, Oct(fs, 19), Flag(fs, 20), Num(fs, 21))
  }

  function EncodePlan(p: ExecutionPlan): Bytes {
    Print(PlanFields(p))
  }

  function DecodePlan(b: Bytes): Option<(ExecutionPlan, Bytes)> {
    match Read(PLAN_SHAPES, b, MAX_PAYLOAD)
    case None => None
    case Some((fs, rest)) => Some((PlanOf(fs), rest))
  }

  /** What is left of a plan after the wire. */
  function Stripped(p: ExecutionPlan): ExecutionPlan {
    p.(placement := 0, placementGeneration := 0, recoveryGeneration := 0, recovery := 0, recomputeNs := 0)
  }

  lemma PlanShaped(p: ExecutionPlan)
    ensures ShapesOf(PlanFields(p)) == PLAN_SHAPES && Fit(PlanFields(p), MAX_PAYLOAD)
  {}

  lemma PlanReads(p: ExecutionPlan)
    ensures PlanOf(PlanFields(p)) == Stripped(p)
  {}

  /** A plan arrives with everything but its placement and recovery fields. */
  lemma PlanTrip(p: ExecutionPlan, rest: Bytes)
    ensures DecodePlan(EncodePlan(p) + rest) == Some((Stripped(p), rest))
  {
    PlanShaped(p);
    PlanReads(p);
    ReadPrinted(PlanFields(p), rest, MAX_PAYLOAD);
  }

  // ---- what the loss does to the economics ------------------------------------------------

  lemma SixLinesSame(m: Market, p: ExecutionPlan, n: nat)
    requires n <= 6
    ensures RoundedLines(m, PlanEvidence(Stripped(p)), n) == RoundedLines(m, PlanEvidence(p), n)
  {}

  lemma StrippedPriceable(m: Market, p: ExecutionPlan)
    requires AllPriceable(m, [PlanEvidence(p)])
    ensures AllPriceable(m, [PlanEvidence(Stripped(p))])
  {
    var a, b := PlanEvidence(Stripped(p)), PlanEvidence(p);
    forall i, k | 0 <= i < |[a]| && 0 <= k < LINES ensures Priceable(m, [a][i], k) {
      SinglePriceable(m, b, k);
      if k < 6 { assert UsageAt(a, k) == UsageAt(b, k) && QueryAt(a, k) == QueryAt(b, k); }
    }
  }

  /** Over the wire a plan is projected at its price less the recomputation, so never higher. */
  lemma StrippedIsCheaper(m: Market, p: ExecutionPlan)
    requires Project(m, [PlanEvidence(p)]).Ok?
    ensures Project(m, [PlanEvidence(Stripped(p))]).Ok?
    ensures var total := Project(m, [PlanEvidence(p)]).value.total;
            var wire := Project(m, [PlanEvidence(Stripped(p))]).value.total;
            wire == total - Rounded(m, PlanEvidence(p), 6) <= total
  {
    var a, b := PlanEvidence(Stripped(p)), PlanEvidence(p);
    ProjectExact(m, [b]);
    ProjectExact(m, [a]);
    StrippedPriceable(m, p);
    SixLinesSame(m, p, 6);
    UnusedIsFree(m, a, 6);
    SumOfOne(a, BillMeasure(m));
    SumOfOne(b, BillMeasure(m));
    SinglePriceable(m, b, 6);
    RoundedNonNegative(m, b, 6);
  }

  lemma RoundedNonNegative(m: Market, e: CostEvidence, k: nat)
    requires k < LINES && Priceable(m, e, k)
    ensures Rounded(m, e, k) >= 0
  {}

  lemma {:induction false} UnpricedSame(x: Economy, p: ExecutionPlan, k: nat)
    requires k <= 6
    ensures FirstUnpriced(x, Stripped(p), k) == FirstUnpriced(x, p, k)
    decreases 6 - k
  {
    if k < 6 {
      UnpricedSame(x, p, k + 1);
      assert UsageAt(PlanEvidence(Stripped(p)), k) == UsageAt(PlanEvidence(p), k);
      assert QueryAt(PlanEvidence(Stripped(p)), k) == QueryAt(PlanEvidence(p), k);
    }
  }

  lemma {:induction false} GateCheaper(budgets: Budgets, order: seq<u64>, e: PlanEconomics, cheaper: PlanEconomics)
    requires Listed(order, budgets) && cheaper.projected.total <= e.projected.total
    requires e.feasible == Feasible && Gate(budgets, order, e) == Ok(e)
    ensures Gate(budgets, order, cheaper) == Ok(cheaper)
  {
    if |order| > 0 { GateCheaper(budgets, order[1..], e, cheaper); }
  }

  ghost predicate FeasibleAt(r: Result<PlanEconomics>, most: int) {
    r.Ok? && r.value.feasible == Feasible && r.value.projected.total <= most
  }

  ghost predicate Projects(x: Economy, p: ExecutionPlan, total: int) {
    && p.dataLabel != UNSUPPORTED && p.meetsHardSlo && !x.revalidation && FirstUnpriced(x, p, 0) == None
    && Project(x.Market(), [PlanEvidence(p)]).Ok? && Project(x.Market(), [PlanEvidence(p)]).value.total == total
  }

  lemma BaseFeasibleProjects(x: Economy, p: ExecutionPlan)
    requires BaseEconomics(x, p).Ok? && BaseEconomics(x, p).value.feasible == Feasible
    ensures Projects(x, p, BaseEconomics(x, p).value.projected.total)
  {}

  lemma ProjectsIsFeasible(x: Economy, p: ExecutionPlan, total: int)
    requires Projects(x, p, total)
    ensures FeasibleAt(BaseEconomics(x, p), total)
  {}

  lemma StrippedProjects(x: Economy, p: ExecutionPlan, total: int)
    requires Projects(x, p, total)
    ensures Projects(x, Stripped(p), total - Rounded(x.Market(), PlanEvidence(p), 6))
            && Rounded(x.Market(), PlanEvidence(p), 6) >= 0
  {
    UnpricedSame(x, p, 0);
    StrippedIsCheaper(x.Market(), p);
  }

  lemma BaseOverTheWire(x: Economy, p: ExecutionPlan)
    requires BaseEconomics(x, p).Ok? && BaseEconomics(x, p).value.feasible == Feasible
    ensures FeasibleAt(BaseEconomics(x, Stripped(p)), BaseEconomics(x, p).value.projected.total)
  {
    var total := BaseEconomics(x, p).value.projected.total;
    BaseFeasibleProjects(x, p);
    StrippedProjects(x, p, total);
    ProjectsIsFeasible(x, Stripped(p), total - Rounded(x.Market(), PlanEvidence(p), 6));
  }

  lemma EvaluatedFeasible(x: Economy, budgets: Budgets, order: seq<u64>, p: ExecutionPlan)
    requires Listed(order, budgets)
    requires EvaluatePlan(x, budgets, order, p).Ok? && EvaluatePlan(x, budgets, order, p).value.feasible == Feasible
    ensures BaseEconomics(x, p) == EvaluatePlan(x, budgets, order, p)
    ensures Gate(budgets, order, BaseEconomics(x, p).value) == BaseEconomics(x, p)
  {
    GateKeeps(budgets, order, BaseEconomics(x, p).value);
  }

  /** A plan the coordinator would find feasible as it is stays feasible, and no dearer, when it comes over the wire. */
  lemma FeasibleOverTheWire(x: Economy, budgets: Budgets, order: seq<u64>, p: ExecutionPlan)
    requires Listed(order, budgets)
    requires EvaluatePlan(x, budgets, order, p).Ok? && EvaluatePlan(x, budgets, order, p).value.feasible == Feasible
    ensures FeasibleAt(EvaluatePlan(x, budgets, order, Stripped(p)),
                       EvaluatePlan(x, budgets, order, p).value.projected.total)
  {
    EvaluatedFeasible(x, budgets, order, p);
    BaseOverTheWire(x, p);
    GateCheaper(budgets, order, BaseEconomics(x, p).value, BaseEconomics(x, Stripped(p)).value);
  }

  lemma {:induction false} GateKeeps(budgets: Budgets, order: seq<u64>, e: PlanEconomics)
    requires Listed(order, budgets) && Gate(budgets, order, e).Ok? && Gate(budgets, order, e).value.feasible == Feasible
    ensures Gate(budgets, order, e) == Ok(e)
  {
    if |order| > 0 && !(budgets[order[0]].mode == HARD && e.projected.total > Remaining(budgets[order[0]]).value) {
      GateKeeps(budgets, order[1..], e);
    }
  }
}
