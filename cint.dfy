/** The C integer operations the driver relies on, written out because Dafny's
    integers are unbounded and its division is Euclidean. */
module CInt {

  /** Conversion to `unsigned short` (16 bits): the value modulo 2^16. */
  function UShort(x: int): (r: int)
    ensures 0 <= r < 0x1_0000
    ensures (x - r) % 0x1_0000 == 0
    ensures 0 <= x < 0x1_0000 ==> r == x
  {
    x % 0x1_0000
  }

  /** C99 `a / b` for a positive divisor: the quotient truncated toward zero. */
  function CDiv(a: int, b: int): (q: int)
    requires b > 0
    ensures a >= 0 ==> 0 <= a - q * b < b
    ensures a < 0 ==> -b < a - q * b <= 0
    ensures a >= 0 ==> q >= 0
    ensures a < 0 ==> q <= 0
  {
    if a >= 0 then a / b else -((-a) / b)
  }

  /** C99 `a % b` for a positive divisor: the remainder takes the sign of `a`. */
  function CMod(a: int, b: int): (r: int)
    requires b > 0
    ensures a >= 0 ==> 0 <= r < b
    ensures a < 0 ==> -b < r <= 0
    ensures (a - r) % b == 0
    ensures a == CDiv(a, b) * b + r
  {
    MultipleMod(CDiv(a, b), b);
    a - CDiv(a, b) * b
  }

  /** A multiple of `b` leaves no remainder. */
  lemma MultipleMod(q: int, b: int)
    requires b > 0
    ensures (q * b) % b == 0
  {
    var d, m := (q * b) / b, (q * b) % b;
    assert (q - d) * b == m by { assert q * b == d * b + m; }
    if q - d >= 1 {
      assert false;
    } else if q - d <= -1 {
      assert false;
    }
  }
}
