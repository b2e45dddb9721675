/** Price lookup and projection of usage to money.

The lookup is written twice in the source: `Find` is the one the projection uses, `FindChecked`
the one the freshness check uses. Both are left folds over the schedule; the methods are the
loops, proved equal to the folds.
 */
module Pricing {
  import opened Types
  import opened Money

  /** What a projection is priced from: the observations in order, the currency and the clock. */
  datatype Market = Market(observations: seq<PriceObservation>, currency: Bytes, now: i64)

  /** What is being priced: a kind of usage, on a device and a resource (0 means any). */
  datatype Query = Query(kind: u8, device: u64, resource: u64)

  // ---- lookup ---------------------------------------------------------------------------

  predicate InInterval(o: PriceObservation, now: i64) {
    o.validFrom <= now && (o.validTo == 0 || now < o.validTo)
  }

  predicate InScope(o: PriceObservation, q: Query) {
    && !(q.device != 0 && o.device != 0 && o.device != q.device)
    && !(q.resource != 0 && o.resource != 0 && o.resource != q.resource)
  }

  predicate Applies(m: Market, o: PriceObservation, q: Query) {
    o.kind == q.kind && o.currency == m.currency && InInterval(o, m.now) && o.amount >= 0 && InScope(o, q)
  }

  /** A later observation replaces the best so far only when it adds a scope the best lacks. */
  predicate Displaces(o: PriceObservation, best: Option<PriceObservation>) {
    best == None || (o.device != 0 && best.value.device == 0) || (o.resource != 0 && best.value.resource == 0)
  }

  function Find(m: Market, q: Query): (best: Option<PriceObservation>)
    ensures best.Some? ==> Applies(m, best.value, q) && best.value in m.observations
    ensures best.None? ==> forall o :: o in m.observations ==> !Applies(m, o, q)
    decreases |m.observations|
  {
    if |m.observations| == 0 then None
    else
      var n := |m.observations| - 1;
      var o := m.observations[n];
      var best := Find(m.(observations := m.observations[..n]), q);
      assert m.observations == m.observations[..n] + [o];
      if Applies(m, o, q) && Displaces(o, best) then Some(o) else best
  }

  method FindPrice(m: Market, q: Query) returns (best: Option<PriceObservation>)
    ensures best == Find(m, q)
  {
    best := None;
    for i := 0 to |m.observations|
      invariant best == Find(m.(observations := m.observations[..i]), q)
    {
      var o := m.observations[i];
      assert m.observations[..i + 1][..i] == m.observations[..i];
      if !Applies(m, o, q) { continue; }
      if Displaces(o, best) { best := Some(o); }
    }
    assert m.observations[..|m.observations|] == m.observations;
  }

  /** The outcome of the freshness check: no price, or the price and whether it is stale. */
  datatype PriceCheck = Missing | Present(price: PriceObservation, stale: bool)

  function FindChecked(m: Market, q: Query, policy: CostPolicy): (best: Option<PriceObservation>)
    decreases |m.observations|
  {
    if |m.observations| == 0 then None
    else
      var n := |m.observations| - 1;
      var o := m.observations[n];
      var best := FindChecked(m.(observations := m.observations[..n]), q, policy);
      if Applies(m, o, q) && policy.AcceptsLabel(o.dataLabel) && Displaces(o, best) then Some(o) else best
  }

  predicate TooOld(since: i64, now: i64, maxAge: i64) {
    maxAge > 0 && Wrap(now - since) > maxAge
  }

  predicate Stale(o: PriceObservation, createdAt: i64, now: i64, policy: CostPolicy) {
    TooOld(createdAt, now, policy.priceScheduleMaxAge) || TooOld(o.observedAt, now, policy.maxEvidenceAge)
  }

  function Check(m: Market, q: Query, createdAt: i64, policy: CostPolicy): (r: PriceCheck) {
    match FindChecked(m, q, policy)
    case None => Missing
    case Some(o) => Present(o, Stale(o, createdAt, m.now, policy))
  }

  method CheckPrice(m: Market, q: Query, createdAt: i64, policy: CostPolicy) returns (r: PriceCheck)
    ensures r == Check(m, q, createdAt, policy)
  {
    var scheduleStale := TooOld(createdAt, m.now, policy.priceScheduleMaxAge);
    var best: Option<PriceObservation> := None;
    for i := 0 to |m.observations|
      invariant best == FindChecked(m.(observations := m.observations[..i]), q, policy)
    {
      var o := m.observations[i];
      assert m.observations[..i + 1][..i] == m.observations[..i];
      if o.kind != q.kind { continue; }
      if o.currency != m.currency { continue; }
      if !InInterval(o, m.now) { continue; }
      if !policy.AcceptsLabel(o.dataLabel) { continue; }
      if o.amount < 0 { continue; }
      if q.device != 0 && o.device != 0 && o.device != q.device { continue; }
      if q.resource != 0 && o.resource != 0 && o.resource != q.resource { continue; }
      if Displaces(o, best) { best := Some(o); }
    }
    assert m.observations[..|m.observations|] == m.observations;
    if best == None { return Missing; }
    r := Present(best.value, scheduleStale || TooOld(best.value.observedAt, m.now, policy.maxEvidenceAge));
  }

  // ---- one amount -----------------------------------------------------------------------

  function DenominatorFor(kind: u8): (d: i64)
    requires kind <= RESIDENCY_HOLDING
    ensures d > 0
  {
    if kind == ENERGY then 3_600_000_000_000_000 else 1_000_000_000
  }

  /** ceil(n / d) */
  function CeilQuotient(n: int, d: int): (q: int)
    requires d > 0
    ensures IsCeil(n, d, q)
  {
    var q := n / d;
    assert n == d * q + n % d;
    assert (q + 1) * d == q * d + d && (q - 1) * d == q * d - d && d * q == q * d;
    if n % d == 0 then q else q + 1
  }

  /** Rounded-up a * b / d with the source's 64-bit overflow tests. */
  function CeilMulDiv(a: i64, b: i64, d: i64): (r: Result<i64>) {
    if a < 0 || b < 0 || d <= 0 then Err(Thrown(INVALID_INPUT))
    else if a == 0 then Ok(0)
    else if b > U64_MAX / a then Err(Thrown(RESOURCE_EXHAUSTED))
    else
      var product := a * b;
      var q := product / d;
      if product % d != 0 && q == U64_MAX then Err(Thrown(RESOURCE_EXHAUSTED))
      else
        var up := if product % d != 0 then q + 1 else q;
        if up > I64_MAX then Err(Thrown(RESOURCE_EXHAUSTED)) else Ok(Wrap(up))
  }

  /** The tests let through exactly the products that fit 64 bits unsigned and round to a signed value. */
  lemma CeilMulDivExact(a: i64, b: i64, d: i64)
    requires d > 0
    ensures CeilMulDiv(a, b, d).Ok? <==>
            a >= 0 && b >= 0 && a * b <= U64_MAX && CeilQuotient(a * b, d) <= I64_MAX
    ensures CeilMulDiv(a, b, d).Ok? ==> CeilMulDiv(a, b, d).value == CeilQuotient(a * b, d) >= 0
  {
    if a >= 0 && b >= 0 {
      NonNegativeProduct(a, b);
      var n := a * b;
      CeilSign(n, d);
      if a > 0 {
        ProductGuard(a, b);
        if n <= U64_MAX { QuotientBelow(n, d); }
      }
    }
  }

  lemma ProductGuard(a: int, b: int)
    requires a > 0 && b >= 0
    ensures b > U64_MAX / a <==> a * b > U64_MAX
  {
    var k := U64_MAX / a;
    assert U64_MAX == a * k + U64_MAX % a;
    if b > k {
      NonNegativeProduct(a, b - k - 1);
      assert a * b == a * (b - k - 1) + a * k + a;
    } else {
      NonNegativeProduct(a, k - b);
      assert a * k == a * (k - b) + a * b;
    }
  }

  lemma CeilSign(n: int, d: int)
    requires n >= 0 && d > 0
    ensures CeilQuotient(n, d) >= 0
    ensures n == 0 ==> CeilQuotient(n, d) == 0
  {}

  lemma QuotientBelow(n: int, d: int)
    requires 0 <= n <= U64_MAX && d > 0
    ensures 0 <= n / d && (n % d != 0 ==> n / d < U64_MAX)
  {}

  // ---- usage lines ----------------------------------------------------------------------

  const LINES: nat := 7
  const SLOTS: nat := 10
  const RETRY: nat := 6
  const RECOVERY: nat := 7
  const RECOMPUTATION: nat := 8

  /** The seven priced amounts of an attempt: six measurable components, then recomputation time. */
  function UsageAt(e: CostEvidence, k: nat): i64
    requires k < LINES
  {
    match k
    case 0 => e.acceleratorTime
    case 1 => e.energy
    case 2 => e.transfer
    case 3 => e.memoryHold
    case 4 => e.residencyHold
    case 5 => e.storageBytes
    case _ => e.recomputeNs
  }

  function KindAt(k: nat): (kind: u8)
    requires k < LINES
    ensures kind <= RESIDENCY_HOLDING
  {
    match k
    case 0 => ACCELERATOR_TIME
    case 1 => ENERGY
    case 2 => TRANSFER
    case 3 => MEMORY_HOLDING
    case 4 => RESIDENCY_HOLDING
    case 5 => STORAGE
    case _ => ACCELERATOR_TIME
  }

  /** The breakdown component a line is added to. */
  function SlotOf(k: nat): (slot: nat)
    requires k < LINES
    ensures slot < SLOTS
  {
    if k < 6 then k else RECOMPUTATION
  }

  function QueryAt(e: CostEvidence, k: nat): Query
    requires k < LINES
  {
    Query(KindAt(k), e.device, e.resource)
  }

  function ProjectComponent(m: Market, q: Query, amount: i64): (r: Result<i64>)
    requires q.kind <= RESIDENCY_HOLDING
  {
    match Find(m, q)
    case None => Err(Thrown(MISSING_PRICE))
    case Some(p) => CeilMulDiv(amount, p.amount, DenominatorFor(p.kind))
  }

  method PriceComponent(m: Market, q: Query, amount: i64) returns (r: Result<i64>)
    requires q.kind <= RESIDENCY_HOLDING
    ensures r == ProjectComponent(m, q, amount)
  {
    var p := FindPrice(m, q);
    if p == None { return Err(Thrown(MISSING_PRICE)); }
    return CeilMulDiv(amount, p.value.amount, DenominatorFor(p.value.kind));
  }

  /** How a projection prices line `k` of an attempt. */
  type Pricer = (CostEvidence, nat) -> Result<i64>

  function PricerOf(m: Market): Pricer {
    (e: CostEvidence, k: nat) =>
      if k < LINES then ProjectComponent(m, QueryAt(e, k), UsageAt(e, k)) else Err(Thrown(INVALID_INPUT))
  }

  // ---- projection -----------------------------------------------------------------------

  datatype ComponentValue = ComponentValue(known: bool, value: i64)

  type Components = c: seq<ComponentValue> | |c| == SLOTS
    witness seq(SLOTS, _ => ComponentValue(false, 0))

  datatype CostBreakdown = CostBreakdown(
    currency: Bytes, components: Components, total: i64, anyUnknown: bool)

  function Blank(): Components {
    seq(SLOTS, _ => ComponentValue(false, 0))
  }

  function AddTo(c: Components, slot: nat, amount: i64): Result<Components>
    requires slot < SLOTS
  {
    var v :- CheckedAdd(c[slot].value, amount);
    Ok(c[slot := ComponentValue(true, v)])
  }

  /** Adds the first `k` lines of one attempt. */
  function PostLines(p: Pricer, e: CostEvidence, k: nat, c: Components): Result<Components>
    requires k <= LINES
  {
    if k == 0 then Ok(c)
    else
      var c' :- PostLines(p, e, k - 1, c);
      if UsageAt(e, k - 1) == 0 then Ok(c')
      else
        var cost :- p(e, k - 1);
        AddTo(c', SlotOf(k - 1), cost)
  }

  function PostAll(p: Pricer, attempts: seq<CostEvidence>): Result<Components> {
    if |attempts| == 0 then Ok(Blank())
    else
      var c :- PostAll(p, attempts[..|attempts| - 1]);
      PostLines(p, attempts[|attempts| - 1], LINES, c)
  }

  predicate Failed(e: CostEvidence) { e.isCompletion && !e.completedSuccessfully }

  predicate Succeeded(e: CostEvidence) { e.isCompletion && e.completedSuccessfully }

  /** The cost of the first `k` measurable components of a failed attempt. */
  function FailedCost(p: Pricer, e: CostEvidence, k: nat): Result<i64>
    requires k <= 6
  {
    if k == 0 then Ok(0)
    else
      var sum :- FailedCost(p, e, k - 1);
      if UsageAt(e, k - 1) == 0 then Ok(sum)
      else
        var cost :- p(e, k - 1);
        CheckedAdd(sum, cost)
  }

  function PostRetries(p: Pricer, attempts: seq<CostEvidence>, c: Components): Result<Components> {
    if |attempts| == 0 then Ok(c)
    else
      var e := attempts[|attempts| - 1];
      var c' :- PostRetries(p, attempts[..|attempts| - 1], c);
      if !Failed(e) then Ok(c')
      else
        var failed :- FailedCost(p, e, 6);
        AddTo(c', RETRY, failed)
  }

  /** The total over the first `n` components; retry and recovery are sub-totals and are skipped. */
  function TotalOf(c: Components, n: nat): Result<i64>
    requires n <= SLOTS
  {
    if n == 0 then Ok(0)
    else
      var sum :- TotalOf(c, n - 1);
      if n - 1 == RETRY || n - 1 == RECOVERY || !c[n - 1].known then Ok(sum)
      else CheckedAdd(sum, c[n - 1].value)
  }

  predicate AnyUnknown(attempts: seq<CostEvidence>) {
    exists i :: 0 <= i < |attempts| && attempts[i].dataLabel == UNSUPPORTED
  }

  function ProjectWith(p: Pricer, currency: Bytes, attempts: seq<CostEvidence>): (r: Result<CostBreakdown>) {
    var posted :- PostAll(p, attempts);
    var c :- PostRetries(p, attempts, posted);
    var total :- TotalOf(c, SLOTS);
    Ok(CostBreakdown(currency, c, total, AnyUnknown(attempts)))
  }

  function Project(m: Market, attempts: seq<CostEvidence>): (r: Result<CostBreakdown>) {
    ProjectWith(PricerOf(m), m.currency, attempts)
  }

  // ---- the projection as the source runs it ---------------------------------------------

  lemma {:induction false} PostLinesStops(p: Pricer, e: CostEvidence, k: nat, n: nat, c: Components)
    requires k <= n <= LINES
    requires PostLines(p, e, k, c).Err?
    ensures PostLines(p, e, n, c) == PostLines(p, e, k, c)
    decreases n
  {
    if k < n { PostLinesStops(p, e, k, n - 1, c); }
  }

  lemma {:induction false} PostAllStops(p: Pricer, attempts: seq<CostEvidence>, i: nat)
    requires i <= |attempts|
    requires PostAll(p, attempts[..i]).Err?
    ensures PostAll(p, attempts) == PostAll(p, attempts[..i])
    decreases |attempts|
  {
    if i == |attempts| {
      assert attempts[..i] == attempts;
    } else {
      assert attempts[..|attempts| - 1][..i] == attempts[..i];
      PostAllStops(p, attempts[..|attempts| - 1], i);
    }
  }

  lemma {:induction false} FailedCostStops(p: Pricer, e: CostEvidence, k: nat)
    requires k <= 6
    requires FailedCost(p, e, k).Err?
    ensures FailedCost(p, e, 6) == FailedCost(p, e, k)
    decreases 6 - k
  {
    if k < 6 { FailedCostStops(p, e, k + 1); }
  }

  lemma {:induction false} PostRetriesStops(p: Pricer, attempts: seq<CostEvidence>, i: nat, c: Components)
    requires i <= |attempts|
    requires PostRetries(p, attempts[..i], c).Err?
    ensures PostRetries(p, attempts, c) == PostRetries(p, attempts[..i], c)
    decreases |attempts|
  {
    if i == |attempts| {
      assert attempts[..i] == attempts;
    } else {
      assert attempts[..|attempts| - 1][..i] == attempts[..i];
      PostRetriesStops(p, attempts[..|attempts| - 1], i, c);
    }
  }

  method PostAttempt(p: Pricer, e: CostEvidence, before: Components) returns (r: Result<Components>)
    ensures r == PostLines(p, e, LINES, before)
  {
    var c := before;
    for k := 0 to LINES
      invariant PostLines(p, e, k, before) == Ok(c)
    {
      if UsageAt(e, k) != 0 {
        var cost := p(e, k);
        var posted := if cost.Err? then Err(cost.error) else AddTo(c, SlotOf(k), cost.value);
        assert PostLines(p, e, k + 1, before) == posted;
        if posted.Err? {
          PostLinesStops(p, e, k + 1, LINES, before);
          return posted;
        }
        c := posted.value;
      }
    }
    return Ok(c);
  }

  method FailedAttemptCost(p: Pricer, e: CostEvidence) returns (r: Result<i64>)
    ensures r == FailedCost(p, e, 6)
  {
    var failed: i64 := 0;
    for k := 0 to 6
      invariant FailedCost(p, e, k) == Ok(failed)
    {
      if UsageAt(e, k) != 0 {
        var cost := p(e, k);
        var sum := if cost.Err? then Err(cost.error) else CheckedAdd(failed, cost.value);
        assert FailedCost(p, e, k + 1) == sum;
        if sum.Err? {
          FailedCostStops(p, e, k + 1);
          return sum;
        }
        failed := sum.value;
      }
    }
    return Ok(failed);
  }

  method ProjectPosts(p: Pricer, attempts: seq<CostEvidence>) returns (r: Result<Components>)
    ensures r == PostAll(p, attempts)
  {
    var c := Blank();
    for i := 0 to |attempts|
      invariant PostAll(p, attempts[..i]) == Ok(c)
    {
      assert attempts[..i + 1][..i] == attempts[..i];
      var posted := PostAttempt(p, attempts[i], c);
      if posted.Err? {
        PostAllStops(p, attempts, i + 1);
        return posted;
      }
      c := posted.value;
    }
    assert attempts[..|attempts|] == attempts;
    return Ok(c);
  }

  /** The retry loop skips the last successful attempt by position, which the failure test implies. */
  method ProjectRetries(p: Pricer, attempts: seq<CostEvidence>, success: int, before: Components)
    returns (r: Result<Components>)
    requires -1 <= success < |attempts|
    requires success >= 0 ==> Succeeded(attempts[success])
    ensures r == PostRetries(p, attempts, before)
  {
    var c := before;
    for i := 0 to |attempts|
      invariant PostRetries(p, attempts[..i], before) == Ok(c)
    {
      assert attempts[..i + 1][..i] == attempts[..i];
      if i == success || !Failed(attempts[i]) { continue; }
      var failed := FailedAttemptCost(p, attempts[i]);
      var posted := if failed.Err? then Err(failed.error) else AddTo(c, RETRY, failed.value);
      assert PostRetries(p, attempts[..i + 1], before) == posted;
      if posted.Err? {
        PostRetriesStops(p, attempts, i + 1, before);
        return posted;
      }
      c := posted.value;
    }
    assert attempts[..|attempts|] == attempts;
    return Ok(c);
  }

  lemma {:induction false} TotalOfStops(c: Components, n: nat)
    requires n <= SLOTS
    requires TotalOf(c, n).Err?
    ensures TotalOf(c, SLOTS) == TotalOf(c, n)
    decreases SLOTS - n
  {
    if n < SLOTS { TotalOfStops(c, n + 1); }
  }

  method ProjectTotal(c: Components) returns (r: Result<i64>)
    ensures r == TotalOf(c, SLOTS)
  {
    var total: i64 := 0;
    for i := 0 to SLOTS
      invariant TotalOf(c, i) == Ok(total)
    {
      if i != RETRY && i != RECOVERY && c[i].known {
        var sum := CheckedAdd(total, c[i].value);
        assert TotalOf(c, i + 1) == sum;
        if sum.Err? {
          TotalOfStops(c, i + 1);
          return sum;
        }
        total := sum.value;
      }
    }
    return Ok(total);
  }

  method ProjectAttempts(m: Market, attempts: seq<CostEvidence>) returns (r: Result<CostBreakdown>)
    ensures r == Project(m, attempts)
  {
    var success := -1;
    var anyUnknown := false;
    for i := 0 to |attempts|
      invariant -1 <= success < i
      invariant success >= 0 ==> Succeeded(attempts[success])
      invariant anyUnknown <==> AnyUnknown(attempts[..i])
    {
      assert attempts[..i + 1] == attempts[..i] + [attempts[i]];
      if attempts[i].dataLabel == UNSUPPORTED { anyUnknown := true; }
      if Succeeded(attempts[i]) { success := i; }
    }
    assert attempts[..|attempts|] == attempts;
    var priced := PricerOf(m);
    var posted :- ProjectPosts(priced, attempts);
    var c :- ProjectRetries(priced, attempts, success, posted);
    var total :- ProjectTotal(c);
    return Ok(CostBreakdown(m.currency, c, total, anyUnknown));
  }
}
