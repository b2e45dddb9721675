/** Checked money arithmetic over wrapping 64-bit integers.

The overflow tests run after the wrapped operation, as in the source; the lemmas say that they
accept exactly the operands whose mathematical result fits.
 */
module Money {
  import opened Types

  datatype Rounding = Truncate | Ceil | Floor

  function CheckedAdd(a: i64, b: i64): (r: Result<i64>)
    ensures r.Ok? <==> I64_MIN <= a + b <= I64_MAX
    ensures r.Ok? ==> r.value == a + b
  {
    var w := Wrap(a + b);
    if (a > 0 && b > 0 && w < 0) || (a < 0 && b < 0 && w >= 0) then Err(Overflow) else Ok(w)
  }

  /** The least value is refused as a subtrahend even where the difference would fit. */
  function CheckedSub(a: i64, b: i64): (r: Result<i64>)
    ensures r.Ok? <==> b != I64_MIN && I64_MIN <= a - b <= I64_MAX
    ensures r.Ok? ==> r.value == a - b
  {
    if b == I64_MIN then Err(Overflow) else CheckedAdd(a, -b)
  }

  function Abs(x: int): nat { if x < 0 then -x else x }

  /** Division truncated toward zero, and its remainder, which has the dividend's sign. */
  function TruncDiv(a: int, d: int): (q: int)
    requires d != 0
  {
    if (a < 0) == (d < 0) then Abs(a) / Abs(d) else -(Abs(a) / Abs(d))
  }

  function TruncRem(a: int, d: int): (r: int)
    requires d != 0
  {
    if a < 0 then -(Abs(a) % Abs(d)) else Abs(a) % Abs(d)
  }

  lemma TruncDivMeaning(a: int, d: int)
    requires d != 0
    ensures a == d * TruncDiv(a, d) + TruncRem(a, d)
    ensures Abs(TruncRem(a, d)) < Abs(d)
    ensures TruncRem(a, d) > 0 ==> a > 0
    ensures TruncRem(a, d) < 0 ==> a < 0
  {}

  lemma TruncDivExact(a: int, b: int)
    requires a != 0
    ensures TruncDiv(a * b, a) == b
  {
    TruncDivMeaning(a * b, a);
    QuotientUnique(a, b, TruncDiv(a * b, a), TruncRem(a * b, a));
  }

  lemma QuotientUnique(a: int, b: int, q: int, rem: int)
    requires a * b == a * q + rem && Abs(rem) < Abs(a)
    ensures b == q
  {
    assert a * (b - q) == a * b - a * q;
    SmallMultiple(a, b - q);
  }

  lemma NonNegativeProduct(d: int, q: int)
    requires d >= 0 && q >= 0
    ensures d * q >= 0
  {}

  lemma SmallMultiple(a: int, k: int)
    requires Abs(a * k) < Abs(a)
    ensures k == 0
  {}

  function CheckedMul(a: i64, b: i64): (r: Result<i64>) {
    if a == 0 || b == 0 then Ok(0)
    else if (a == I64_MIN && b == -1) || (b == I64_MIN && a == -1) then Err(Overflow)
    else
      var w := Wrap(a * b);
      if TruncDiv(w, a) != b then Err(Overflow) else Ok(w)
  }

  /** Multiplication succeeds exactly when the true product fits, and is then exact. */
  lemma CheckedMulExact(a: i64, b: i64)
    ensures CheckedMul(a, b).Ok? <==> I64_MIN <= a * b <= I64_MAX
    ensures CheckedMul(a, b).Ok? ==> CheckedMul(a, b).value == a * b
  {
    if a != 0 && b != 0 {
      var w := Wrap(a * b);
      if I64_MIN <= a * b <= I64_MAX {
        TruncDivExact(a, b);
      } else {
        TruncDivMeaning(w, a);
        assert w != a * b && Abs(w - a * b) >= 0x1_0000_0000_0000_0000;
      }
    }
  }

  function CheckedDiv(v: i64, d: i64, rounding: Rounding): (r: Result<i64>) {
    if d == 0 then Err(DivideByZero)
    else if v == I64_MIN && d == -1 then Err(Overflow)
    else
      var q := TruncDiv(v, d);
      var rem := TruncRem(v, d);
      if rem == 0 then Ok(Wrap(q))
      else if rounding == Ceil && ((rem > 0) == (d > 0)) then Ok(Wrap(q + 1))
      else if rounding == Floor && ((rem > 0) != (d > 0)) then Ok(Wrap(q - 1))
      else Ok(Wrap(q))
  }

  /** `q` is the least integer not below `v / d`. */
  predicate IsCeil(v: int, d: int, q: int)
    requires d != 0
  {
    if d > 0 then (q - 1) * d < v <= q * d else (q - 1) * d > v >= q * d
  }

  /** `q` is the greatest integer not above `v / d`. */
  predicate IsFloor(v: int, d: int, q: int)
    requires d != 0
  {
    if d > 0 then q * d <= v < (q + 1) * d else q * d >= v > (q + 1) * d
  }

  lemma QuotientFits(v: i64, d: i64, q: int, rem: int)
    requires d != 0 && !(v == I64_MIN && d == -1)
    requires v == d * q + rem && Abs(rem) < Abs(d)
    requires (rem > 0 ==> v > 0) && (rem < 0 ==> v < 0)
    ensures I64_MIN <= q <= I64_MAX
    ensures rem != 0 ==> I64_MIN < q < I64_MAX
  {}

  lemma RoundedQuotient(v: int, d: int, q: int, rem: int)
    requires d != 0 && v == d * q + rem && Abs(rem) < Abs(d)
    requires (rem > 0 ==> v > 0) && (rem < 0 ==> v < 0)
    ensures rem == 0 ==> IsCeil(v, d, q) && IsFloor(v, d, q)
    ensures rem != 0 && (rem > 0) == (d > 0) ==> IsCeil(v, d, q + 1) && IsFloor(v, d, q)
    ensures rem != 0 && (rem > 0) != (d > 0) ==> IsFloor(v, d, q - 1) && IsCeil(v, d, q)
  {}

  /** Division is the true ceiling, floor or truncation for every combination of signs. */
  lemma CheckedDivExact(v: i64, d: i64, rounding: Rounding)
    requires d != 0 && !(v == I64_MIN && d == -1)
    ensures CheckedDiv(v, d, rounding).Ok?
    ensures var q := CheckedDiv(v, d, rounding).value;
            match rounding
            case Ceil => IsCeil(v, d, q)
            case Floor => IsFloor(v, d, q)
            case Truncate => if (v >= 0) == (d > 0) then IsFloor(v, d, q) else IsCeil(v, d, q)
  {
    var q, rem := TruncDiv(v, d), TruncRem(v, d);
    TruncDivMeaning(v, d);
    QuotientFits(v, d, q, rem);
    RoundedQuotient(v, d, q, rem);
  }

  /** The ceiling and the floor are determined by the operands. */
  lemma RoundingUnique(v: int, d: int, q: int, p: int)
    requires d != 0
    ensures IsCeil(v, d, q) && IsCeil(v, d, p) ==> q == p
    ensures IsFloor(v, d, q) && IsFloor(v, d, p) ==> q == p
  {}

  lemma StepApart(d: int, q: int, p: int)
    requires q < p
    ensures d > 0 ==> q * d <= (p - 1) * d && (q + 1) * d <= p * d
    ensures d < 0 ==> q * d >= (p - 1) * d && (q + 1) * d >= p * d
  {}
}
