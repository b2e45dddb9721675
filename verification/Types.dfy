/** The entities of the cost governor and the integer widths they are stored in.

Identities are 64-bit unsigned, money and times are 64-bit signed. An enumeration that is
written to a snapshot keeps its octet, because the decoder casts any octet to it; the names
of its values are the constants below. A null identity is 0.
 */
module Types {

  const I64_MAX: int := 0x7FFF_FFFF_FFFF_FFFF
  const I64_MIN: int := -0x8000_0000_0000_0000
  const U64_MAX: int := 0xFFFF_FFFF_FFFF_FFFF

  type i64 = x: int | -0x8000_0000_0000_0000 <= x <= 0x7FFF_FFFF_FFFF_FFFF
  type u64 = x: int | 0 <= x <= 0xFFFF_FFFF_FFFF_FFFF
  type u32 = x: int | 0 <= x <= 0xFFFF_FFFF
  type u8 = x: int | 0 <= x <= 0xFF
  type Bytes = seq<u8>

  /** The 64-bit two's complement value of a mathematical integer. */
  function Wrap(x: int): (r: i64)
    ensures (r - x) % 0x1_0000_0000_0000_0000 == 0
    ensures I64_MIN <= x <= I64_MAX ==> r == x
  {
    (x + 0x8000_0000_0000_0000) % 0x1_0000_0000_0000_0000 - 0x8000_0000_0000_0000
  }

  /** The successor of a 64-bit counter, which wraps to 0. */
  function Next(x: u64): (r: u64)
    ensures x < U64_MAX ==> r == x + 1
  {
    (x + 1) % 0x1_0000_0000_0000_0000
  }

  datatype Status =
    | OK | INVALID_INPUT | STALE_EVIDENCE | STALE_AUTHORITY | MISSING_PRICE | CURRENCY_MISMATCH
    | BUDGET_EXCEEDED | BUDGET_EXPIRED | PLAN_INFEASIBLE | PLAN_SUPERSEDED
    | PERSISTENCE_CORRUPT | PERSISTENCE_UNSUPPORTED_VERSION | PROTOCOL_ERROR | RESOURCE_EXHAUSTED

  /** What a thrown exception carries: a typed status, or one of the two arithmetic errors. */
  datatype Error = Thrown(status: Status) | Overflow | DivideByZero

  datatype Result<+T> = Ok(value: T) | Err(error: Error) {
    predicate IsFailure() { Err? }
    function PropagateFailure<U>(): Result<U> requires Err? { Err(error) }
    function Extract(): T requires Ok? { value }
  }

  datatype Option<+T> = None | Some(value: T)

  // DataLabel
  const REAL: u8 := 0
  const SYNTHETIC: u8 := 1
  const POLICY: u8 := 2
  const UNSUPPORTED: u8 := 3

  // PriceKind
  const ACCELERATOR_TIME: u8 := 0
  const ENERGY: u8 := 1
  const TRANSFER: u8 := 2
  const MEMORY_HOLDING: u8 := 3
  const STORAGE: u8 := 4
  const RESIDENCY_HOLDING: u8 := 5

  // BudgetMode
  const HARD: u8 := 0
  const SOFT: u8 := 1

  // BudgetObjective, the two values that select a reason
  const MAX_ENERGY_COST: u8 := 5
  const MAX_TRANSFER_COST: u8 := 6

  // BudgetLifecycle
  const CREATED: u8 := 0
  const ACTIVE: u8 := 1
  const RESERVED: u8 := 2
  const PARTIALLY_CONSUMED: u8 := 3
  const EXHAUSTED: u8 := 4
  const EXPIRED: u8 := 5
  const CLOSED: u8 := 8

  datatype PriceObservation = PriceObservation(
    id: u64, kind: u8, resource: u64, device: u64, amount: i64, currency: Bytes,
    provenance: u8, dataLabel: u8, validFrom: i64, validTo: i64, observedAt: i64,
    generation: u64, epoch: u64, worker: u64, boot: u64)

  datatype PriceSchedule = PriceSchedule(
    id: u64, generation: u64, createdAt: i64, observations: seq<PriceObservation>)

  datatype CostPolicy = CostPolicy(
    id: u64, generation: u64, epoch: u64, currency: Bytes, ranking: u8,
    minEvidenceFreshness: i64, maxEvidenceAge: i64, priceScheduleMaxAge: i64,
    maxProjectionUncertainty: i64, hysteresis: i64, cooldown: i64,
    nearBudgetPercent: i64, atRiskPercent: i64, retryBudget: i64, recoveryBudget: i64,
    recoveryCostKnown: bool, allowSynthetic: bool, allowPolicy: bool, allowMeasured: bool)
  {
    predicate AcceptsLabel(dataLabel: u8) {
      if dataLabel == REAL then allowMeasured
      else if dataLabel == POLICY then allowPolicy
      else if dataLabel == SYNTHETIC then allowSynthetic
      else false
    }
  }

  datatype Budget = Budget(
    id: u64, generation: u64, policyGeneration: u64, epoch: u64, currency: Bytes,
    mode: u8, objective: u8, limit: i64, lifecycle: u8,
    reserved: i64, consumed: i64, released: i64, createdAt: i64, expiresAt: i64, dataLabel: u8)
  {
    predicate IsLive() {
      lifecycle == ACTIVE || lifecycle == RESERVED || lifecycle == PARTIALLY_CONSUMED
    }

    predicate IsTerminal() {
      EXHAUSTED <= lifecycle <= CLOSED
    }
  }

  datatype ReservationState = Active | Committed | Released | Expired

  datatype Reservation = Reservation(
    id: u64, budget: u64, budgetGeneration: u64, epoch: u64, amount: i64,
    createdAt: i64, expiresAt: i64, state: ReservationState)

  datatype CostEvidence = CostEvidence(
    id: u64, request: u64, workload: u64, attempt: u64, attemptGeneration: u64,
    worker: u64, boot: u64, epoch: u64, generation: u64, observedAt: i64,
    device: u64, resource: u64, dataLabel: u8, completedSuccessfully: bool, isCompletion: bool,
    acceleratorTime: i64, energy: i64, transfer: i64, memoryHold: i64, residencyHold: i64,
    storageBytes: i64, requests: i64, tokens: i64, operations: i64,
    recoveryActions: i64, recomputeNs: i64)

  datatype ExecutionPlan = ExecutionPlan(
    id: u64, generation: u64, workload: u64, workloadGeneration: u64,
    resource: u64, resourceGeneration: u64, device: u64, deviceGeneration: u64,
    placement: u64, placementGeneration: u64, recoveryGeneration: u64, worker: u64,
    acceleratorTime: i64, energy: i64, transfer: i64, memoryHold: i64, residencyHold: i64,
    storageBytes: i64, retries: i64, requests: i64, tokens: i64, operations: i64,
    recovery: u8, recomputeNs: i64, dataLabel: u8, meetsHardSlo: bool,
    completionProbabilityPercent: i64)

  datatype HistoryEntry = HistoryEntry(
    request: u64, workload: u64, completedAt: i64, realizedCost: i64, attempts: i64, tokens: i64)

  datatype InterventionEntry = InterventionEntry(
    id: u64, kind: u8, lifecycle: u8, generation: u64, createdAt: i64)
}
