/** The fixed-width C integer types the cognitive engine computes with.
    Dafny integers are unbounded, so wrap-around of `unsigned int`
    arithmetic is written out with `WrapU32`. */
module MachineInts {

  /** 2^32: the modulus of C `unsigned int` arithmetic. */
  const U32_MODULUS: int := 0x1_0000_0000

  /** C `unsigned char`: one header or payload byte. */
  type byte = x: int | 0 <= x < 256

  /** C `unsigned int` (32 bits on the targets the test system runs on). */
  type u32 = x: int | 0 <= x < 0x1_0000_0000

  /** 2^k: the weight of bit k. */
  function Pow2(k: nat): (p: nat)
    ensures p >= 1
  {
    if k == 0 then 1 else 2 * Pow2(k - 1)
  }

  /** Reduction of an exact result to `unsigned int`. */
  function WrapU32(x: int): (r: u32)
    ensures 0 <= x < U32_MODULUS ==> r == x
    ensures U32_MODULUS <= x < 2 * U32_MODULUS ==> r == x - U32_MODULUS
    ensures -U32_MODULUS <= x < 0 ==> r == x + U32_MODULUS
  {
    x % U32_MODULUS
  }

  /** Conversion of a floating-point value to C `int`: the fraction is
      dropped, rounding toward zero. */
  function TruncToInt(x: real): (r: int)
    ensures -1.0 < x - r as real < 1.0
    ensures 0.0 <= x ==> 0.0 <= r as real <= x
    ensures x <= 0.0 ==> x <= r as real <= 0.0
  {
    if x >= 0.0 then x.Floor else -((-x).Floor)
  }

  /** A positive multiple of a positive number is at least that number. */
  lemma MulAtLeast(n: int, d: int)
    requires n > 0 && d >= 1
    ensures n * d >= n
  {
  }

  /** Adding the modulus does not change a remainder. */
  lemma ModShift(x: nat, n: nat)
    requires n > 0
    ensures (x + n) % n == x % n
  {
    var q, r := x / n, x % n;
    var q2, r2 := (x + n) / n, (x + n) % n;
    assert x == n * q + r;
    assert x + n == n * q2 + r2;
    var d := q2 - (q + 1);
    assert n * d == r - r2;
    if d >= 1 {
      MulAtLeast(n, d);
    } else if d <= -1 {
      MulAtLeast(n, -d);
    }
  }
}
