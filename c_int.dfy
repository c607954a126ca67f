/** Fixed-width C/C++ integer types of the AVR target and the conversions the
    firmware performs implicitly when it assigns a wider value to a narrower
    field. Dafny integers are unbounded, so every narrowing is written out. */
module CInt {

  const U8_LIMIT: int := 0x100
  const U16_LIMIT: int := 0x1_0000
  const U32_LIMIT: int := 0x1_0000_0000

  /** LONG_MAX of a 32-bit `long`. */
  const LONG_MAX: int := 0x7FFF_FFFF

  type u8 = x: int | 0 <= x < 0x100
  type i8 = x: int | -0x80 <= x < 0x80
  type u16 = x: int | 0 <= x < 0x1_0000
  type u32 = x: int | 0 <= x < 0x1_0000_0000

  /** Conversion of any integer to `uint8_t` (reduction modulo 2^8). */
  function ToU8(x: int): (r: u8)
    ensures 0 <= x < U8_LIMIT ==> r == x
    ensures (r - x) % U8_LIMIT == 0
  {
    x % U8_LIMIT
  }

  /** Conversion of any integer to `uint16_t` (reduction modulo 2^16). */
  function ToU16(x: int): (r: u16)
    ensures 0 <= x < U16_LIMIT ==> r == x
    ensures (r - x) % U16_LIMIT == 0
  {
    x % U16_LIMIT
  }

  /** Conversion of any integer to `unsigned long` (reduction modulo 2^32). */
  function ToU32(x: int): (r: u32)
    ensures 0 <= x < U32_LIMIT ==> r == x
    ensures (r - x) % U32_LIMIT == 0
  {
    x % U32_LIMIT
  }

  /** Conversion of any integer to `int8_t` (two's complement wrap). */
  function ToI8(x: int): (r: i8)
    ensures -0x80 <= x < 0x80 ==> r == x
    ensures (r - x) % U8_LIMIT == 0
  {
    (x + 0x80) % U8_LIMIT - 0x80
  }

  /** C's `/` on integers, which truncates toward zero. */
  function CDiv(a: int, b: int): (q: int)
    requires b > 0
    ensures a >= 0 ==> q == a / b
    ensures a < 0 ==> q == -((-a) / b)
  {
    if a >= 0 then a / b else -((-a) / b)
  }

  /** Arduino's `map(x, inMin, inMax, outMin, outMax)` in `long` arithmetic. */
  function ArduinoMap(x: int, inMin: int, inMax: int, outMin: int, outMax: int): int
    requires inMax > inMin
  {
    CDiv((x - inMin) * (outMax - outMin), inMax - inMin) + outMin
  }

  /** `(q - 1) * m + m == q * m`, stated once so the proofs that use it
      stay linear. */
  lemma MulPred(q: nat, m: nat)
    requires q >= 1
    ensures (q - 1) * m + m == q * m
  {
  }

  /** Division by `m` recovers the quotient and the remainder it was built
      from. */
  lemma DivModOf(n: nat, m: nat, q: nat, k: nat)
    requires 0 <= k < m && n == q * m + k
    ensures n / m == q && n % m == k
  {
    var q' := n / m;
    assert n == q' * m + n % m;
    MulPred(q + 1, m);
    MulPred(q' + 1, m);
    MulLess(q', q + 1, m);
    MulLess(q, q' + 1, m);
  }

  /** Division by `m` of a number at most `q * m` gives at most `q`. */
  lemma DivAtMost(n: nat, m: nat, q: nat)
    requires m > 0 && n <= q * m
    ensures n / m <= q
  {
    var q' := n / m;
    assert n == q' * m + n % m;
    MulPred(q + 1, m);
    MulLess(q', q + 1, m);
  }

  /** Multiples of the same positive `m` compare as their factors. */
  lemma {:induction false} MulLess(a: nat, b: nat, m: nat)
    requires a * m < b * m
    ensures a < b
    decreases a
  {
    assert b * m > 0;
    if a > 0 {
      MulPred(a, m);
      MulPred(b, m);
      MulLess(a - 1, b - 1, m);
    }
  }

  lemma MulMono(a: nat, b: nat, m: nat)
    requires a <= b
    ensures a * m <= b * m
  {
  }

  /** 2 to the power `n`. */
  function Pow2(n: nat): (r: nat)
    ensures r >= 1
  {
    if n == 0 then 1 else 2 * Pow2(n - 1)
  }
}
