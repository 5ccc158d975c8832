/** Fixed-width integers of the tracer and the wrap-around arithmetic on them. */
module Types {

  const TWO_TO_THE_32: int := 0x1_0000_0000
  const TWO_TO_THE_64: int := 0x1_0000_0000_0000_0000

  type uint32 = x: int | 0 <= x < 0x1_0000_0000
  type uint64 = x: int | 0 <= x < 0x1_0000_0000_0000_0000

  /** A value that may be absent; `None` stands for a null pointer. */
  datatype Option<+T> = None | Some(value: T) {

    /** The value when there is one, otherwise `default`. */
    function GetOr(default: T): T {
      match this
      case Some(v) => v
      case None => default
    }
  }

  /** The implicit conversion of a `uint64_t` to a `uint32_t`: only the low 32 bits survive. */
  function Truncate32(x: uint64): (r: uint32)
    ensures x < TWO_TO_THE_32 ==> r == x
    ensures (x - r) % TWO_TO_THE_32 == 0
  {
    x % TWO_TO_THE_32
  }

  /** Unsigned 64-bit subtraction `a - b`, which wraps modulo 2^64 rather than going negative. */
  function WrappingSub64(a: uint64, b: uint64): (r: uint64)
    ensures b <= a ==> r == a - b
    ensures a < b ==> r == a - b + TWO_TO_THE_64
  {
    (a - b) % TWO_TO_THE_64
  }

  lemma MulNonNegative(a: int, b: int)
    requires a >= 0 && b >= 0
    ensures a * b >= 0
  {
  }

  /** Division with remainder has only one answer. */
  lemma DivModUnique(x: int, d: int, q: int, rem: int)
    requires d > 0 && 0 <= rem < d && x == q * d + rem
    ensures x / d == q && x % d == rem
  {
    var q', rem' := x / d, x % d;
    assert x == q' * d + rem' && 0 <= rem' < d;
    if q' < q {
      MulNonNegative(q - q' - 1, d);
      assert false;
    } else if q' > q {
      MulNonNegative(q' - q - 1, d);
      assert false;
    }
  }
}
