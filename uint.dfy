/** Fixed-width unsigned integers of the Rust sources, with their checked and
    saturating operations written out over unbounded `nat`. */
module UInt {
  import opened Results

  const U8_LIMIT: nat := 0x100
  const U32_LIMIT: nat := 0x1_0000_0000
  const U64_LIMIT: nat := 0x1_0000_0000_0000_0000
  const U128_LIMIT: nat := 0x1_0000_0000_0000_0000_0000_0000_0000_0000

  type u8 = x: nat | x < U8_LIMIT
  type u32 = x: nat | x < U32_LIMIT
  type u64 = x: nat | x < U64_LIMIT
  type u128 = x: nat | x < U128_LIMIT

  const U128_MAX: u128 := U128_LIMIT - 1

  /** `u128::checked_add`. */
  function CheckedAdd(a: u128, b: u128): (r: Option<u128>)
    ensures r.Some? <==> a + b <= U128_MAX
    ensures r.Some? ==> r.value == a + b
  {
    if a + b < U128_LIMIT then Some(a + b) else None
  }

  /** `u64::checked_add`. */
  function CheckedAdd64(a: u64, b: u64): (r: Option<u64>)
    ensures r.Some? <==> a + b < U64_LIMIT
    ensures r.Some? ==> r.value - b == a
  {
    if a + b < U64_LIMIT then Some(a + b) else None
  }

  /** `u128::checked_sub`. */
  function CheckedSub(a: u128, b: u128): (r: Option<u128>)
    ensures r.Some? <==> b <= a
    ensures r.Some? ==> r.value + b == a
  {
    if b <= a then Some(a - b) else None
  }

  /** `u128::checked_mul`. */
  function CheckedMul(a: u128, b: u128): (r: Option<u128>)
    ensures r.Some? <==> a * b <= U128_MAX
    ensures r.Some? ==> r.value == a * b
  {
    if a * b < U128_LIMIT then Some(a * b) else None
  }

  /** `u128::checked_div`: `None` exactly on a zero divisor. */
  function CheckedDiv(a: u128, b: u128): (r: Option<u128>)
    ensures r.Some? <==> b != 0
    ensures r.Some? ==> r.value * b <= a < (r.value + 1) * b
  {
    if b == 0 then None else FloorDivBounds(a, b); Some(a / b)
  }

  /** `u128::saturating_add`: clamps at `U128_MAX`. */
  function SaturatingAdd(a: u128, b: u128): (r: u128)
    ensures a + b <= U128_MAX ==> r == a + b
    ensures a + b > U128_MAX ==> r == U128_MAX
    ensures a <= r && b <= r
  {
    if a + b < U128_LIMIT then a + b else U128_MAX
  }

  /** `u128::saturating_sub`: clamps at zero. */
  function SaturatingSub(a: u128, b: u128): (r: u128)
    ensures b <= a ==> r + b == a
    ensures a < b ==> r == 0
    ensures r <= a
  {
    if b <= a then a - b else 0
  }

  function Min(a: nat, b: nat): (r: nat)
    ensures r <= a && r <= b && (r == a || r == b)
  {
    if a <= b then a else b
  }

  /** Floor division is characterised by `q * d <= n < (q + 1) * d`. */
  lemma FloorDivBounds(n: nat, d: nat)
    requires d > 0
    ensures (n / d) * d <= n < (n / d + 1) * d
  {
    assert n == (n / d) * d + n % d;
  }

  /** The quotient is the only `q` with `q * d <= n < (q + 1) * d`. */
  lemma FloorDivUnique(n: nat, d: nat, q: nat)
    requires d > 0
    requires q * d <= n < (q + 1) * d
    ensures n / d == q
  {
    FloorDivBounds(n, d);
    var p := n / d;
    if p < q {
      assert p + 1 <= q;
      MulMonotone(p + 1, q, d);
      assert false;
    } else if q < p {
      assert q + 1 <= p;
      MulMonotone(q + 1, p, d);
      assert false;
    }
  }

  /** Multiplying by a positive `d` and floor-dividing by it is the identity. */
  lemma MulDivCancel(a: nat, d: nat)
    requires d > 0
    ensures (d * a) / d == a
  {
    assert (a + 1) * d == a * d + d;
    FloorDivUnique(d * a, d, a);
  }

  lemma MulMonotone(a: nat, b: nat, d: nat)
    requires a <= b
    ensures a * d <= b * d
  {
    assert b * d == a * d + (b - a) * d;
  }

  lemma MulCancelLe(a: nat, b: nat, d: nat)
    requires d > 0
    requires a * d <= b * d
    ensures a <= b
  {
    if a > b {
      MulMonotone(b + 1, a, d);
    }
  }

  /** `x <= n / d` exactly when `x * d <= n`. */
  lemma LeFloorDiv(x: nat, n: nat, d: nat)
    requires d > 0
    ensures x <= n / d <==> x * d <= n
  {
    FloorDivBounds(n, d);
    if x <= n / d {
      MulMonotone(x, n / d, d);
    } else {
      MulMonotone(n / d + 1, x, d);
    }
  }

  /** Two to the power `n`. */
  function Pow2(n: nat): (r: nat)
    ensures r >= 1
  {
    if n == 0 then 1 else 2 * Pow2(n - 1)
  }

  /** Bitwise exclusive or of two naturals, lowest bit first. */
  function Xor(a: nat, b: nat): nat
    decreases a + b
  {
    if a == 0 && b == 0 then 0
    else 2 * Xor(a / 2, b / 2) + (if a % 2 == b % 2 then 0 else 1)
  }

  /** Exclusive or of two `n`-bit numbers has `n` bits. */
  lemma {:induction false} XorBelow(a: nat, b: nat, n: nat)
    requires a < Pow2(n) && b < Pow2(n)
    ensures Xor(a, b) < Pow2(n)
  {
    if n > 0 && !(a == 0 && b == 0) {
      XorBelow(a / 2, b / 2, n - 1);
    }
  }

  /** `u8 ^ u8`. */
  function Xor8(a: u8, b: u8): (r: u8)
    ensures r == Xor(a, b)
  {
    assert Pow2(8) == U8_LIMIT;
    XorBelow(a, b, 8);
    Xor(a, b)
  }

  /** Exclusive or with the same value twice gives the original back. */
  lemma {:induction false} XorCancel(a: nat, b: nat)
    ensures Xor(Xor(a, b), b) == a
  {
    if !(a == 0 && b == 0) {
      var x := Xor(a, b);
      XorCancel(a / 2, b / 2);
      assert x / 2 == Xor(a / 2, b / 2);
      assert x % 2 == (if a % 2 == b % 2 then 0 else 1);
    }
  }
}
