/** Rust's `i32` and the wrapping subtraction a release build performs on it. */
module Int32Arith {

  const Modulus: int := 0x1_0000_0000
  const Half: int := 0x8000_0000

  /** A value of Rust's `i32`. */
  type Int32 = x: int | InInt32Range(x)

  predicate InInt32Range(x: int) {
    -Half <= x < Half
  }

  /** Reduces a mathematical integer to the `i32` that two's-complement
      wrap-around gives: the unique `i32` congruent to `x` modulo 2^32. */
  function Wrap(x: int): (r: Int32)
    ensures InInt32Range(x) ==> r == x
    ensures (x - r) % Modulus == 0
  {
    (x + Half) % Modulus - Half
  }

  /** `a - b` on `i32` with overflow checks off (the release profile). */
  function WrappingSub(a: Int32, b: Int32): (r: Int32)
    ensures InInt32Range(a - b) ==> r == a - b
    ensures (a - b - r) % Modulus == 0
  {
    Wrap(a - b)
  }

  /** `a + b` on `i32` with overflow checks off. */
  function WrappingAdd(a: Int32, b: Int32): (r: Int32)
    ensures InInt32Range(a + b) ==> r == a + b
    ensures (a + b - r) % Modulus == 0
  {
    Wrap(a + b)
  }

  /** Wrapping subtraction is undone by wrapping addition: whatever `a` and
      `b` are, `b + (a - b) == a` in `i32` arithmetic. */
  lemma {:induction false} AddUndoesSub(a: Int32, b: Int32)
    ensures WrappingAdd(b, WrappingSub(a, b)) == a
  {
    var d := WrappingSub(a, b);
    var k := (a - b - d) / Modulus;
    assert a - b - d == k * Modulus;
    WrapShift(a, -k);
    assert b + d == a + (-k) * Modulus;
  }

  /** Wrapping is unchanged by adding whole multiples of the modulus. */
  lemma WrapShift(x: int, k: int)
    ensures Wrap(x + k * Modulus) == Wrap(x)
  {
  }
}
