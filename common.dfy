/** Shared arithmetic for the host-side model of Baking Lab: unsigned 32-bit
    wrap-around, min/max on integers, powers of two and the facts about
    integer division that the schedules rely on. */
module Common {

  datatype Option<T> = None | Some(value: T)

  const TWO_TO_32: int := 0x1_0000_0000

  /** The values of a C++ `uint32`. */
  type uint32 = x: int | 0 <= x < 0x1_0000_0000

  /** The `uint32` an exact integer result is stored as: arithmetic modulo 2^32. */
  function Wrap32(x: int): (r: uint32)
    ensures 0 <= x < TWO_TO_32 ==> r == x
    ensures -TWO_TO_32 <= x < 0 ==> r == x + TWO_TO_32
  {
    x % TWO_TO_32
  }

  function Min(a: int, b: int): int { if a <= b then a else b }

  function Max(a: int, b: int): int { if a >= b then a else b }

  function Pow2(k: nat): (r: nat)
    ensures r >= 1
  {
    if k == 0 then 1 else 2 * Pow2(k - 1)
  }

  lemma MulMono(a: int, b: int, c: nat)
    requires a <= b
    ensures a * c <= b * c
  {
  }

  lemma MulSucc(a: nat, c: nat)
    ensures (a + 1) * c == c + a * c
  {
  }

  /** `x / d` is the unique quotient of a Euclidean decomposition. */
  lemma DivUnique(x: int, d: int, q: int, m: int)
    requires d > 0 && 0 <= m < d && x == d * q + m
    ensures x / d == q && x % d == m
  {
    var q' := x / d;
    if q' > q {
      MulMono(q + 1, q', d);
    } else if q' < q {
      MulMono(q' + 1, q, d);
    }
  }

  /** Dividing twice is dividing by the product. */
  lemma DivDiv(x: nat, a: nat, b: nat)
    requires a > 0 && b > 0
    ensures x / a / b == x / (a * b)
  {
    var q, r := x / a, x % a;
    var q2, r2 := q / b, q % b;
    assert x == a * q + r;
    assert q == b * q2 + r2;
    assert a * q == a * b * q2 + a * r2;
    MulMono(r2, b - 1, a);
    DivUnique(x, a * b, q2, a * r2 + r);
  }

  /** A value below `a * b` has quotient below `b` when divided by `a`. */
  lemma DivBelow(x: nat, a: nat, b: nat)
    requires a > 0 && x < a * b
    ensures x / a < b
  {
  }
}
