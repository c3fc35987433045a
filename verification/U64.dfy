// Fixed-width unsigned arithmetic shared by every component, and the tick clock.
module U64 {

  const U64_MAX: int := 0xFFFF_FFFF_FFFF_FFFF
  const U32_MAX: int := 0xFFFF_FFFF
  const I64_MAX: int := 0x7FFF_FFFF_FFFF_FFFF

  type u64 = x: int | 0 <= x <= U64_MAX
  type u32 = x: int | 0 <= x <= U32_MAX

  // An increment of an unsigned counter wraps around.
  function WrapAdd(a: u64, b: u64): u64 {
    (a + b) % (U64_MAX + 1)
  }

  lemma WrapAddIsModular(total: nat, b: u64)
    ensures WrapAdd(total % (U64_MAX + 1), b) == (total + b) % (U64_MAX + 1)
  {
    var m := U64_MAX + 1;
    var q, r := total / m, total % m;
    assert total == q * m + r;
    if r + b >= m { assert total + b == (q + 1) * m + (r + b - m); }
  }

  function WrapInc32(a: u32): u32 {
    (a + 1) % (U32_MAX + 1)
  }

  function Min(a: int, b: int): int {
    if a < b then a else b
  }

  function Max(a: int, b: int): int {
    if a < b then b else a
  }

  // One complaint, or none.
  function Tally(b: bool): nat {
    if b then 1 else 0
  }

  function Sum(s: seq<u64>): nat {
    if s == [] then 0 else s[0] + Sum(s[1..])
  }

  // The source tests `rhs > MAX - lhs`, which cannot itself overflow.
  function SatAdd(a: u64, b: u64): (r: u64)
    ensures r == Min(a + b, U64_MAX)
  {
    if b > U64_MAX - a then U64_MAX else a + b
  }

  // The source tests `lhs != 0 && rhs > MAX / lhs`.
  predicate MulOverflows(a: u64, b: u64) {
    a != 0 && b > U64_MAX / a
  }

  lemma MulOverflowsExactly(a: u64, b: u64)
    ensures MulOverflows(a, b) <==> a * b > U64_MAX
  {
    if a != 0 {
      var q := U64_MAX / a;
      var r := U64_MAX % a;
      assert U64_MAX == a * q + r;
      if b > q {
        MulMonotone(a, q + 1, b);
        assert a * (q + 1) == a * q + a;
      } else {
        MulMonotone(a, b, q);
      }
    }
  }

  lemma MulMonotone(k: nat, a: int, b: int)
    requires a <= b
    ensures k * a <= k * b
  {
    assert k * b - k * a == k * (b - a);
  }

  lemma MulSuccessor(a: nat, n: nat)
    ensures a * (n + 1) == a * n + a
  {
  }

  function SatMul(a: u64, b: u64): (r: u64)
    ensures r == Min(a * b, U64_MAX)
  {
    MulOverflowsExactly(a, b);
    if MulOverflows(a, b) then U64_MAX
    else
      assert 0 <= a * b;
      a * b
  }

  lemma DivisionBounds(a: nat, b: nat)
    requires b > 0
    ensures a / b * b <= a < a / b * b + b
    ensures 0 <= a / b <= a
  {
    var q := a / b;
    assert a == q * b + a % b;
    MulMonotone(q, 1, b);
  }

  // Floor division.
  function Div(a: u64, b: nat): (q: u64)
    requires b > 0
    ensures q * b <= a < q * b + b
  {
    DivisionBounds(a, b);
    a / b
  }

  // The quotient is the only number that fits between.
  lemma QuotientBound(a: nat, b: nat, q: nat, k: nat)
    requires b > 0 && q * b <= a < q * b + b
    ensures a <= k * b ==> q <= k
    ensures a >= k * b ==> q >= k
  {
    assert b * (k + 1) == k * b + b && b * (q + 1) == q * b + b;
    if q > k { MulMonotone(b, k + 1, q); } else if q < k { MulMonotone(b, q + 1, k); }
  }

  lemma QuotientIsUnique(a: nat, b: nat, p: nat, q: nat)
    requires b > 0 && p * b <= a < p * b + b && q * b <= a < q * b + b
    ensures p == q
  {
    if p < q { MulMonotone(b, p + 1, q); } else if q < p { MulMonotone(b, q + 1, p); }
  }

  const TICKS_PER_DAY: u64 := 86400

  // A day count beyond the range of the tick clock saturates.
  function DaysToTicks(days: u64): (r: u64)
    ensures r == Min(days * TICKS_PER_DAY, U64_MAX)
  {
    SatMul(days, TICKS_PER_DAY)
  }
}
